/**
 The generator of the live log stream, over the broker's objects. It is proved to emit and to end exactly as
 StreamSessions says for its job, the log at subscription and its schedule, whatever that schedule is.
 */
module LogStreams {
  import opened Jobs
  import opened LogFeed
  import opened LogBrokers
  import opened StreamSessions

  /** The subscription while the generator runs: `at` moments of the session have passed. */
  ghost predicate Subscribed(broker: LogBroker, queue: BoundedQueue, x: Session, at: nat)
    reads broker, broker.queues, queue
  {
    && broker.Valid() && queue in broker.SubscribersOf(x.job) && queue.Valid()
    && queue.job == x.job && queue.mark == |Chunks(x.before, x.job)| && queue.maxsize == x.queueCap
    && at <= |x.schedule| && broker.log == LogAt(x, at)
  }

  /** A subscriber's queue is served by the broker it subscribed to. */
  lemma Served(broker: LogBroker, queue: BoundedQueue, job: JobId)
    requires broker.Valid() && queue in broker.SubscribersOf(job)
    ensures Serves(queue, job, broker.queueCap, broker.log) && queue.Valid()
  {
  }

  /** Nobody else's publish reaches the queue. */
  lemma OnlyOwnSubscribers(broker: LogBroker, queue: BoundedQueue, job: JobId, other: JobId)
    requires broker.Valid() && queue in broker.SubscribersOf(job) && other != job
    ensures queue !in broker.SubscribersOf(other)
  {
    Served(broker, queue, job);
    if queue in broker.SubscribersOf(other) {
      Served(broker, queue, other);
    }
  }

  /** One publish, as a subscriber of `job` sees it. */
  method PublishBeside(broker: LogBroker, p: Pub, ghost queue: BoundedQueue, ghost job: JobId)
    requires broker.Valid() && queue in broker.SubscribersOf(job)
    modifies broker`histories, broker`sequences, broker`log, broker.queues
    ensures broker.Valid() && broker.log == old(broker.log) + [p]
    ensures queue.feed ==
              if p.job != job then old(queue.feed)
              else Push(old(queue.feed), LogChunk(p.stream, Count(old(broker.log), job, p.stream) + 1, p.chunk), queue.maxsize)
  {
    if p.job != job {
      OnlyOwnSubscribers(broker, queue, job, p.job);
    }
    var entry := broker.Publish(p.job, p.stream, p.chunk);
    if p.job == job {
      assert queue in old(broker.SubscribersOf(p.job));
    } else {
      assert queue !in old(broker.SubscribersOf(p.job)) && queue.feed == old(queue.feed);
    }
  }

  /** One publish of a suspension. */
  method PublishNext(broker: LogBroker, pubs: seq<Pub>, i: nat, ghost queue: BoundedQueue, ghost job: JobId,
                     ghost feed: Feed, ghost log: seq<Pub>)
    requires broker.Valid() && queue in broker.SubscribersOf(job) && Fitting(feed, queue.maxsize)
    requires i < |pubs| && broker.log == log + pubs[..i] && queue.feed == Offers(feed, log, pubs[..i], job, queue.maxsize)
    modifies broker`histories, broker`sequences, broker`log, broker.queues
    ensures broker.Valid() && broker.log == log + pubs[..i + 1]
    ensures queue.feed == Offers(feed, log, pubs[..i + 1], job, queue.maxsize)
  {
    PublishBeside(broker, pubs[i], queue, job);
    OffersNext(feed, log, pubs, i, job, queue.maxsize);
  }

  /** What a suspension lets happen. */
  method Suspend(broker: LogBroker, pubs: seq<Pub>, ghost queue: BoundedQueue, ghost job: JobId)
    requires broker.Valid() && queue in broker.SubscribersOf(job) && Fitting(queue.feed, queue.maxsize)
    modifies broker`histories, broker`sequences, broker`log, broker.queues
    ensures broker.Valid() && broker.log == old(broker.log) + pubs
    ensures queue.feed == Offers(old(queue.feed), old(broker.log), pubs, job, queue.maxsize)
  {
    ghost var feed, log := queue.feed, broker.log;
    for i := 0 to |pubs|
      invariant broker.Valid() && broker.log == log + pubs[..i]
      invariant queue.feed == Offers(feed, log, pubs[..i], job, queue.maxsize)
    {
      PublishNext(broker, pubs, i, queue, job, feed, log);
    }
    assert pubs[..|pubs|] == pubs;
  }

  /** A yield or a wait: the next moment of the schedule, if there is one. */
  method Pause(broker: LogBroker, queue: BoundedQueue, ghost x: Session, schedule: seq<Moment>, at: nat)
    requires Subscribed(broker, queue, x, at) && x.schedule == schedule && at < |schedule|
    modifies broker`histories, broker`sequences, broker`log, broker.queues
    ensures Subscribed(broker, queue, x, at + 1)
    ensures queue.feed == Offers(old(queue.feed), LogAt(x, at), schedule[at].pubs, x.job, x.queueCap)
  {
    Suspend(broker, schedule[at].pubs, queue, x.job);
    Served(broker, queue, x.job);
    assert LogAt(x, at + 1) == LogAt(x, at) + schedule[at].pubs;
  }

  /** The generator in its first loop: it has emitted the first chunks of the history, one for each moment that has
      passed, and read nothing; a cut leaves one more emitted. */
  ghost predicate Replaying(broker: LogBroker, queue: BoundedQueue, x: Session, at: nat, emitted: seq<LogChunk>,
                            cut: bool)
    reads broker, broker.queues, queue
  {
    && Subscribed(broker, queue, x, at) && queue.feed == FeedAt(x, at) && at <= |History(x)|
    && if cut then at == |x.schedule| < |History(x)| && emitted == History(x)[..at + 1]
       else emitted == History(x)[..at]
  }

  /** Yield the next chunk of the history, and suspend there. */
  method EmitFromHistory(broker: LogBroker, queue: BoundedQueue, history: seq<LogChunk>, ghost x: Session,
                         schedule: seq<Moment>, at: nat, soFar: seq<LogChunk>)
    returns (emitted: seq<LogChunk>, next: nat, cut: bool)
    requires Replaying(broker, queue, x, at, soFar, false) && x.schedule == schedule
    requires history == History(x) && at < |history|
    modifies broker`histories, broker`sequences, broker`log, broker.queues
    ensures Replaying(broker, queue, x, next, emitted, cut) && next == if cut then at else at + 1
  {
    emitted, next, cut := soFar + [history[at]], at, at == |schedule|;
    assert history[..at] + [history[at]] == history[..at + 1];
    if !cut {
      PauseInReplay(broker, queue, x, schedule, at);
      next := at + 1;
    }
  }

  /** A yield of the first loop. */
  method PauseInReplay(broker: LogBroker, queue: BoundedQueue, ghost x: Session, schedule: seq<Moment>, at: nat)
    requires Subscribed(broker, queue, x, at) && x.schedule == schedule && at < |schedule| && at < |History(x)|
    requires queue.feed == FeedAt(x, at)
    modifies broker`histories, broker`sequences, broker`log, broker.queues
    ensures Subscribed(broker, queue, x, at + 1) && queue.feed == FeedAt(x, at + 1)
  {
    Pause(broker, queue, x, schedule, at);
  }

  /** The first loop: every chunk of the history handed over at subscription. Nothing is read yet. */
  method ReplayHistory(broker: LogBroker, queue: BoundedQueue, history: seq<LogChunk>, ghost x: Session,
                       schedule: seq<Moment>)
    returns (emitted: seq<LogChunk>, at: nat, cut: bool)
    requires Subscribed(broker, queue, x, 0) && x.schedule == schedule
    requires history == History(x) && queue.feed == FeedAt(x, 0)
    modifies broker`histories, broker`sequences, broker`log, broker.queues
    ensures Replaying(broker, queue, x, at, emitted, cut)
    ensures cut <==> |schedule| < |history|
    ensures if cut then at == |schedule| && emitted == history[..at + 1] else at == |history| && emitted == history
  {
    emitted, at, cut := [], 0, false;
    while !cut && at < |history|
      invariant Replaying(broker, queue, x, at, emitted, cut)
      decreases !cut, |history| - at
    {
      emitted, at, cut := EmitFromHistory(broker, queue, history, x, schedule, at, emitted);
    }
  }

  /** The subscriber takes the oldest queued chunk. */
  method TakeNext(broker: LogBroker, queue: BoundedQueue, ghost x: Session, ghost at: nat) returns (chunk: LogChunk)
    requires Subscribed(broker, queue, x, at) && !queue.Empty()
    modifies queue
    ensures Subscribed(broker, queue, x, at)
    ensures queue.feed == Take(old(queue.feed)) && Read(queue.feed) == Read(old(queue.feed)) + [chunk]
  {
    assert forall j, q :: j in broker.subscribers && q in broker.subscribers[j] ==>
        Serves(q, j, broker.queueCap, broker.log);
    chunk := queue.Get();
    forall j, q | j in broker.subscribers && q in broker.subscribers[j]
      ensures Serves(q, j, broker.queueCap, broker.log)
    {
      assert old(Serves(q, j, broker.queueCap, broker.log));
    }
  }

  /** The generator between two moments of its last two loops. */
  ghost predicate Streaming(broker: LogBroker, queue: BoundedQueue, x: Session, at: nat, emitted: seq<LogChunk>)
    reads broker, broker.queues, queue
  {
    && Subscribed(broker, queue, x, at) && |History(x)| <= at
    && queue.feed == FeedAt(x, at) && emitted == History(x) + Read(queue.feed)
  }

  /** Take the oldest queued chunk, yield it, and suspend there. */
  method EmitNext(broker: LogBroker, queue: BoundedQueue, ghost x: Session, schedule: seq<Moment>, at: nat,
                  soFar: seq<LogChunk>)
    returns (emitted: seq<LogChunk>, cut: bool)
    requires Streaming(broker, queue, x, at, soFar) && x.schedule == schedule && !queue.Empty()
    modifies broker`histories, broker`sequences, broker`log, broker.queues
    ensures cut == (at == |schedule|)
    ensures if cut then Cutoff(broker, queue, x, emitted) else Streaming(broker, queue, x, at + 1, emitted)
  {
    var chunk := TakeNext(broker, queue, x, at);
    emitted, cut := soFar + [chunk], at == |schedule|;
    if !cut {
      Pause(broker, queue, x, schedule, at);
      ReadStays(x, at);
    }
  }

  /** The client went away: what was emitted is settled. */
  ghost predicate Cutoff(broker: LogBroker, queue: BoundedQueue, x: Session, emitted: seq<LogChunk>)
    reads broker, broker.queues, queue
  {
    && Subscribed(broker, queue, x, |x.schedule|)
    && FeedOk(ReadOne(FeedAt(x, |x.schedule|))) && emitted == History(x) + Read(ReadOne(FeedAt(x, |x.schedule|)))
  }

  /** Publishes do not change what was read. */
  lemma {:induction false} ReadStays(x: Session, at: nat)
    requires |History(x)| <= at < |x.schedule|
    ensures FeedAt(x, at + 1) ==
            Offers(ReadOne(FeedAt(x, at)), LogAt(x, at), x.schedule[at].pubs, x.job, x.queueCap)
    ensures FeedOk(ReadOne(FeedAt(x, at))) && Read(FeedAt(x, at + 1)) == Read(ReadOne(FeedAt(x, at)))
  {
    var f := ReadOne(FeedAt(x, at));
    ReadOneKeeps(FeedAt(x, at));
    OffersAll(f, LogAt(x, at), x.schedule[at].pubs, x.job, x.queueCap);
    SameRead(f, FeedAt(x, at + 1));
  }

  lemma SameRead(f: Feed, g: Feed)
    requires FeedOk(f) && FeedOk(g) && f.taken == g.taken && f.offered <= g.offered
    ensures Read(f) == Read(g)
  {
  }

  /** Wait on the empty queue. */
  method Wait(broker: LogBroker, queue: BoundedQueue, ghost x: Session, schedule: seq<Moment>, at: nat,
              ghost emitted: seq<LogChunk>)
    requires Streaming(broker, queue, x, at, emitted) && x.schedule == schedule && queue.Empty() && at < |schedule|
    modifies broker`histories, broker`sequences, broker`log, broker.queues
    ensures Streaming(broker, queue, x, at + 1, emitted)
  {
    Pause(broker, queue, x, schedule, at);
    ReadStays(x, at);
  }

  /** One turn of the polling loop: emit what is queued, and look at the job only when a wait timed out. */
  method PollOnce(broker: LogBroker, queue: BoundedQueue, ghost x: Session, schedule: seq<Moment>, at: nat,
                  soFar: seq<LogChunk>)
    returns (emitted: seq<LogChunk>, next: nat, cut: bool, left: bool)
    requires Streaming(broker, queue, x, at, soFar) && x.schedule == schedule
    modifies broker`histories, broker`sequences, broker`log, broker.queues
    ensures at <= next <= |schedule|
    ensures cut ==> !left && PollEnd(x, at) == None && next == |schedule| && Cutoff(broker, queue, x, emitted)
    ensures !cut ==> at < next && Streaming(broker, queue, x, next, emitted)
    ensures !cut ==> PollEnd(x, at) == if left then Some(next) else PollEnd(x, next)
  {
    PollStep(x, at);
    emitted, next, cut, left := soFar, at, false, false;
    if !queue.Empty() {
      emitted, cut := EmitNext(broker, queue, x, schedule, at, emitted);
      next := if cut then at else at + 1;
    } else if at == |schedule| {
      cut := true;
    } else {
      Wait(broker, queue, x, schedule, at, emitted);
      next, left := at + 1, schedule[at].timedOut && schedule[at].terminal;
    }
  }

  /** The polling loop. */
  method Poll(broker: LogBroker, queue: BoundedQueue, ghost x: Session, schedule: seq<Moment>, from: nat,
              soFar: seq<LogChunk>)
    returns (emitted: seq<LogChunk>, at: nat, cut: bool)
    requires Streaming(broker, queue, x, from, soFar) && x.schedule == schedule
    modifies broker`histories, broker`sequences, broker`log, broker.queues
    ensures cut == PollEnd(x, from).None?
    ensures if cut then at == |schedule| && Cutoff(broker, queue, x, emitted)
            else at == PollEnd(x, from).value && Streaming(broker, queue, x, at, emitted)
  {
    var left: bool;
    emitted, at, cut, left := PollOnce(broker, queue, x, schedule, from, soFar);
    while !cut && !left
      invariant at <= |schedule|
      invariant if cut then PollEnd(x, from) == None && at == |schedule| && Cutoff(broker, queue, x, emitted)
                else Streaming(broker, queue, x, at, emitted)
      invariant !cut ==> PollEnd(x, from) == if left then Some(at) else PollEnd(x, at)
      decreases !cut, |schedule| - at
    {
      emitted, at, cut, left := PollOnce(broker, queue, x, schedule, at, emitted);
    }
  }

  /** The last loop: emit what is still queued, until the queue is seen empty. */
  method DrainQueue(broker: LogBroker, queue: BoundedQueue, ghost x: Session, schedule: seq<Moment>, from: nat,
                    soFar: seq<LogChunk>)
    returns (emitted: seq<LogChunk>, at: nat, cut: bool)
    requires Streaming(broker, queue, x, from, soFar) && x.schedule == schedule
    modifies broker`histories, broker`sequences, broker`log, broker.queues
    ensures cut == DrainEnd(x, from).None?
    ensures if cut then at == |schedule| && Cutoff(broker, queue, x, emitted)
            else at == DrainEnd(x, from).value && Streaming(broker, queue, x, at, emitted)
  {
    emitted, at, cut := soFar, from, false;
    while !cut && !queue.Empty()
      invariant if cut then DrainEnd(x, from).None? && at == |schedule| && Cutoff(broker, queue, x, emitted)
                else Streaming(broker, queue, x, at, emitted) && DrainEnd(x, from) == DrainEnd(x, at)
      decreases !cut, |schedule| - at
    {
      DrainStep(x, at);
      emitted, cut := EmitNext(broker, queue, x, schedule, at, emitted);
      at := if cut then at else at + 1;
    }
  }

  /** The body of the generator, between subscription and the final unsubscribe. */
  method Generate(broker: LogBroker, queue: BoundedQueue, history: seq<LogChunk>, ghost x: Session,
                  schedule: seq<Moment>, terminalAtStart: bool)
    returns (emitted: seq<LogChunk>, ending: Ending, at: nat)
    requires Subscribed(broker, queue, x, 0) && x.schedule == schedule && x.terminalAtStart == terminalAtStart
    requires history == History(x) && queue.feed == FeedAt(x, 0)
    modifies broker`histories, broker`sequences, broker`log, broker.queues
    ensures Subscribed(broker, queue, x, at)
    ensures OutcomeOf(x) == Outcome(ending, at) && emitted == Emitted(x)
  {
    ending := Cut;
    var cut: bool;
    emitted, at, cut := ReplayHistory(broker, queue, history, x, schedule);
    if cut {
      CutInReplay(x);
    } else if if at == 0 then terminalAtStart else schedule[at - 1].terminal {
      ending := Early;
      EndsEarly(x);
    } else {
      NothingRead(x, at);
      emitted, ending, at := PollAndDrain(broker, queue, x, schedule, at, emitted);
    }
  }

  /** The two loops after the history. */
  method PollAndDrain(broker: LogBroker, queue: BoundedQueue, ghost x: Session, schedule: seq<Moment>, from: nat,
                      soFar: seq<LogChunk>)
    returns (emitted: seq<LogChunk>, ending: Ending, at: nat)
    requires Streaming(broker, queue, x, from, soFar) && x.schedule == schedule
    requires from == |History(x)| && !TerminalAt(x, from)
    modifies broker`histories, broker`sequences, broker`log, broker.queues
    ensures Subscribed(broker, queue, x, at)
    ensures OutcomeOf(x) == Outcome(ending, at) && emitted == Emitted(x)
  {
    var cut: bool;
    ending := Cut;
    emitted, at, cut := Poll(broker, queue, x, schedule, from, soFar);
    if cut {
      CutInPoll(x);
    } else {
      emitted, at, cut := DrainQueue(broker, queue, x, schedule, at, emitted);
      if cut {
        CutInDrain(x);
      } else {
        ending := Complete;
        EndsComplete(x, at);
      }
    }
  }

  /** While the history is replayed nothing is read. */
  lemma {:induction false} NothingRead(x: Session, k: nat)
    requires k <= |x.schedule| && k <= |History(x)|
    ensures Read(FeedAt(x, k)) == []
  {
    if k > 0 {
      NothingRead(x, k - 1);
    }
  }

  /** `_log_stream`: subscribe and get the history in one atomic step; leave early if the job is terminal; poll; drain;
      and unsubscribe in any case. For every schedule it emits and ends as StreamSessions says, and leaves the
      subscriber table as it found it. */
  method LogStream(broker: LogBroker, job: JobId, schedule: seq<Moment>, terminalAtStart: bool)
    returns (emitted: seq<LogChunk>, ending: Ending, at: nat)
    requires broker.Valid()
    modifies broker, broker.queues
    ensures broker.Valid() && broker.subscribers == old(broker.subscribers)
    ensures var x := Session(job, old(broker.log), broker.historyCap, broker.queueCap, schedule, terminalAtStart);
            && OutcomeOf(x) == Outcome(ending, at) && emitted == Emitted(x) && broker.log == LogAt(x, at)
            && (ending == Complete ==> (emitted == History(x) + New(x, at) <==> Fits(x, at)))
  {
    ghost var others := broker.subscribers;
    assert job in others ==> others[job] != {};
    var queue: BoundedQueue;
    queue, emitted, ending, at := SubscribeAndGenerate(broker, job, schedule, terminalAtStart);
    UnsubscribeUndoesSubscribe(others, job, queue);
    broker.Unsubscribe(job, queue);
  }

  /** Subscribe, which hands over the history at the same instant, and stream. */
  method SubscribeAndGenerate(broker: LogBroker, job: JobId, schedule: seq<Moment>, terminalAtStart: bool)
    returns (queue: BoundedQueue, emitted: seq<LogChunk>, ending: Ending, at: nat)
    requires broker.Valid()
    modifies broker, broker.queues
    ensures fresh(queue) && broker.Valid()
    ensures broker.subscribers == WithSubscriber(old(broker.subscribers), job, queue)
    ensures var x := Session(job, old(broker.log), broker.historyCap, broker.queueCap, schedule, terminalAtStart);
            && OutcomeOf(x) == Outcome(ending, at) && emitted == Emitted(x) && broker.log == LogAt(x, at)
            && (ending == Complete ==> (emitted == History(x) + New(x, at) <==> Fits(x, at)))
  {
    ghost var x := Session(job, broker.log, broker.historyCap, broker.queueCap, schedule, terminalAtStart);
    ghost var queues := broker.queues;
    var history: seq<LogChunk>;
    queue, history := broker.Subscribe(job);
    assert broker.queues <= queues + {queue};
    assert LogAt(x, 0) == x.before;
    Served(broker, queue, job);
    emitted, ending, at := Generate(broker, queue, history, x, schedule, terminalAtStart);
    if ending == Complete {
      StreamIsComplete(x);
    }
  }
}
