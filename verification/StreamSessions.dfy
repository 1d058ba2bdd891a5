/**
 What one live log stream emits, as a function of the log at subscription and of a schedule. Every point where
 the generator suspends - each yield, and each wait for the queue - lets other coroutines publish; the schedule
 says what they do there. A schedule that runs out is a client that went away.
 */
module StreamSessions {
  import opened Jobs
  import opened LogFeed

  /** One suspension: what is published meanwhile for any job, whether the poll timed out, and whether the
      job record is terminal (or gone) as of then. */
  datatype Moment = Moment(pubs: seq<Pub>, timedOut: bool, terminal: bool)

  /** How the stream ended: early because the job was already terminal, by its polling loop, or cut off. */
  datatype Ending = Early | Complete | Cut

  /** A stream: its job, what was published before it subscribed, the two capacities, and what happens to it. */
  datatype Session = Session(
    job: JobId, before: seq<Pub>, historyCap: nat, queueCap: nat, schedule: seq<Moment>, terminalAtStart: bool)

  /** Everything published in the first `n` moments, for any job. */
  function Published(schedule: seq<Moment>, n: nat): seq<Pub>
    requires n <= |schedule|
  {
    if n == 0 then [] else Published(schedule, n - 1) + schedule[n - 1].pubs
  }

  /** The broker's log after `k` moments. */
  function LogAt(x: Session, k: nat): seq<Pub>
    requires k <= |x.schedule|
  {
    x.before + Published(x.schedule, k)
  }

  /** The history handed over at subscription. */
  function History(x: Session): seq<LogChunk> {
    LastN(x.historyCap, Chunks(x.before, x.job))
  }

  /** A queue within its capacity. */
  ghost predicate Fitting(f: Feed, cap: nat) {
    FeedOk(f) && (cap > 0 ==> |Queued(f)| <= cap)
  }

  /** A job's feed when some chunks of any jobs are published after `log`. */
  function Offers(f: Feed, log: seq<Pub>, pubs: seq<Pub>, job: JobId, cap: nat): (g: Feed)
    requires Fitting(f, cap)
    ensures Fitting(g, cap) && g.taken == f.taken
  {
    if pubs == [] then f
    else
      var init, p := pubs[..|pubs| - 1], pubs[|pubs| - 1];
      var g := Offers(f, log, init, job, cap);
      if p.job == job then Push(g, LogChunk(p.stream, Count(log + init, job, p.stream) + 1, p.chunk), cap) else g
  }

  /** What is read at moment `k`: nothing while the history is replayed; after that, one chunk if there is one. */
  function Reading(x: Session, k: nat, f: Feed): (g: Feed)
    requires Fitting(f, x.queueCap)
    ensures Fitting(g, x.queueCap) && g.offered == f.offered
  {
    if k >= |History(x)| then ReadOne(f) else f
  }

  /** The subscriber's feed after `k` moments. */
  function FeedAt(x: Session, k: nat): (f: Feed)
    requires k <= |x.schedule|
    ensures Fitting(f, x.queueCap)
  {
    if k == 0 then Feed([], [], 0)
    else Offers(Reading(x, k - 1, FeedAt(x, k - 1)), LogAt(x, k - 1), x.schedule[k - 1].pubs, x.job, x.queueCap)
  }

  function TerminalAt(x: Session, k: nat): bool
    requires k <= |x.schedule|
  {
    if k == 0 then x.terminalAtStart else x.schedule[k - 1].terminal
  }

  /** When the polling loop, at moment `k`, will stop: after the first wait on an empty queue that timed out and then
      saw the job terminal. */
  function PollEnd(x: Session, k: nat): Option<nat>
    requires k <= |x.schedule|
    decreases |x.schedule| - k
  {
    if k == |x.schedule| then None
    else if Queued(FeedAt(x, k)) == [] && x.schedule[k].timedOut && x.schedule[k].terminal then Some(k + 1)
    else PollEnd(x, k + 1)
  }

  /** When the last loop will see the queue empty. */
  function DrainEnd(x: Session, k: nat): Option<nat>
    requires k <= |x.schedule|
    decreases |x.schedule| - k
  {
    if Queued(FeedAt(x, k)) == [] then Some(k)
    else if k == |x.schedule| then None
    else DrainEnd(x, k + 1)
  }

  datatype Outcome = Outcome(ending: Ending, at: nat)

  /** How and when the stream ends. */
  function OutcomeOf(x: Session): (o: Outcome)
    ensures o.at <= |x.schedule| && (o.ending == Cut ==> o.at == |x.schedule|)
    ensures o.ending == Complete ==> Queued(FeedAt(x, o.at)) == []
  {
    if |x.schedule| < |History(x)| then Outcome(Cut, |x.schedule|)
    else if TerminalAt(x, |History(x)|) then Outcome(Early, |History(x)|)
    else
      var polled := PollEnd(x, |History(x)|);
      if polled.None? then Outcome(Cut, |x.schedule|)
      else
        PollEndBound(x, |History(x)|);
        DrainEndBound(x, polled.value);
        var drained := DrainEnd(x, polled.value);
        if drained.None? then Outcome(Cut, |x.schedule|) else Outcome(Complete, drained.value)
  }

  lemma {:induction false} PollEndBound(x: Session, k: nat)
    requires k <= |x.schedule|
    ensures PollEnd(x, k).Some? ==> k < PollEnd(x, k).value <= |x.schedule|
    decreases |x.schedule| - k
  {
    if k < |x.schedule| {
      PollEndBound(x, k + 1);
    }
  }

  lemma {:induction false} DrainEndBound(x: Session, k: nat)
    requires k <= |x.schedule|
    ensures DrainEnd(x, k).Some? ==>
              k <= DrainEnd(x, k).value <= |x.schedule| && Queued(FeedAt(x, DrainEnd(x, k).value)) == []
    decreases |x.schedule| - k
  {
    if k < |x.schedule| && Queued(FeedAt(x, k)) != [] {
      DrainEndBound(x, k + 1);
    }
  }

  /** What the stream emits. A stream that is cut off has emitted one chunk since the last moment, if it had one. */
  ghost function Emitted(x: Session): seq<LogChunk> {
    var o := OutcomeOf(x);
    match o.ending
    case Early => History(x)
    case Complete => History(x) + Read(FeedAt(x, o.at))
    case Cut =>
      if o.at < |History(x)| then History(x)[..o.at + 1]
      else ReadOneKeeps(FeedAt(x, o.at)); History(x) + Read(ReadOne(FeedAt(x, o.at)))
  }

  lemma {:induction false} OffersNext(f: Feed, log: seq<Pub>, pubs: seq<Pub>, i: nat, job: JobId, cap: nat)
    requires Fitting(f, cap) && i < |pubs|
    ensures log + pubs[..i + 1] == (log + pubs[..i]) + [pubs[i]]
    ensures var g, p := Offers(f, log, pubs[..i], job, cap), pubs[i];
            Offers(f, log, pubs[..i + 1], job, cap) ==
              if p.job != job then g
              else Push(g, LogChunk(p.stream, Count(log + pubs[..i], job, p.stream) + 1, p.chunk), cap)
  {
    assert pubs[..i + 1][..i] == pubs[..i];
  }

  // ---------------------------------------------------------------- one step of the two loops, and the five endings

  lemma {:induction false} PollStep(x: Session, k: nat)
    requires k <= |x.schedule|
    ensures k == |x.schedule| ==> PollEnd(x, k) == None
    ensures k < |x.schedule| ==>
              PollEnd(x, k) ==
                if Queued(FeedAt(x, k)) == [] && x.schedule[k].timedOut && x.schedule[k].terminal then Some(k + 1)
                else PollEnd(x, k + 1)
  {
  }

  lemma {:induction false} DrainStep(x: Session, k: nat)
    requires k <= |x.schedule|
    ensures Queued(FeedAt(x, k)) == [] ==> DrainEnd(x, k) == Some(k)
    ensures Queued(FeedAt(x, k)) != [] && k == |x.schedule| ==> DrainEnd(x, k) == None
    ensures Queued(FeedAt(x, k)) != [] && k < |x.schedule| ==> DrainEnd(x, k) == DrainEnd(x, k + 1)
  {
  }

  lemma CutInReplay(x: Session)
    requires |x.schedule| < |History(x)|
    ensures OutcomeOf(x) == Outcome(Cut, |x.schedule|) && Emitted(x) == History(x)[..|x.schedule| + 1]
  {
  }

  lemma EndsEarly(x: Session)
    requires |History(x)| <= |x.schedule| && TerminalAt(x, |History(x)|)
    ensures OutcomeOf(x) == Outcome(Early, |History(x)|) && Emitted(x) == History(x)
  {
  }

  /** Neither cut off in the replay nor ended after it. */
  predicate Polls(x: Session) {
    |History(x)| <= |x.schedule| && !TerminalAt(x, |History(x)|)
  }

  lemma {:induction false} CutInPoll(x: Session)
    requires Polls(x) && PollEnd(x, |History(x)|).None?
    ensures OutcomeOf(x) == Outcome(Cut, |x.schedule|)
    ensures FeedOk(ReadOne(FeedAt(x, |x.schedule|))) && Emitted(x) == History(x) + Read(ReadOne(FeedAt(x, |x.schedule|)))
  {
  }

  lemma {:induction false} CutInDrain(x: Session)
    requires Polls(x) && PollEnd(x, |History(x)|).Some? && PollEnd(x, |History(x)|).value <= |x.schedule|
    requires DrainEnd(x, PollEnd(x, |History(x)|).value).None?
    ensures OutcomeOf(x) == Outcome(Cut, |x.schedule|)
    ensures FeedOk(ReadOne(FeedAt(x, |x.schedule|))) && Emitted(x) == History(x) + Read(ReadOne(FeedAt(x, |x.schedule|)))
  {
  }

  lemma {:induction false} EndsComplete(x: Session, m: nat)
    requires Polls(x) && PollEnd(x, |History(x)|).Some? && PollEnd(x, |History(x)|).value <= |x.schedule|
    requires DrainEnd(x, PollEnd(x, |History(x)|).value) == Some(m) && m <= |x.schedule|
    ensures OutcomeOf(x) == Outcome(Complete, m) && Emitted(x) == History(x) + Read(FeedAt(x, m))
  {
  }

  lemma ReadOneKeeps(f: Feed)
    requires FeedOk(f)
    ensures FeedOk(ReadOne(f))
  {
  }

  // ---------------------------------------------------------------- what was offered

  /** More publishes only add chunks. */
  lemma {:induction false} ChunksGrow(log: seq<Pub>, pubs: seq<Pub>, job: JobId)
    ensures Chunks(log, job) <= Chunks(log + pubs, job)
  {
    if pubs == [] {
      assert log + pubs == log;
    } else {
      var init, p := pubs[..|pubs| - 1], pubs[|pubs| - 1];
      ChunksGrow(log, init, job);
      assert log + pubs == (log + init) + [p];
      ChunksAppend(log + init, p, job);
    }
  }

  lemma TailGrows<T>(a: seq<T>, b: seq<T>, c: seq<T>, x: seq<T>)
    requires a <= b && c == b + x
    ensures a <= c && c[|a|..] == b[|a|..] + x
  {
  }

  lemma {:induction false} OffersAll(f: Feed, log: seq<Pub>, pubs: seq<Pub>, job: JobId, cap: nat)
    requires Fitting(f, cap)
    ensures |Chunks(log, job)| <= |Chunks(log + pubs, job)| && Chunks(log, job) == Chunks(log + pubs, job)[..|Chunks(log, job)|]
    ensures Offers(f, log, pubs, job, cap).offered == f.offered + Chunks(log + pubs, job)[|Chunks(log, job)|..]
  {
    ChunksGrow(log, pubs, job);
    if pubs == [] {
      assert log + pubs == log;
    } else {
      var init, p := pubs[..|pubs| - 1], pubs[|pubs| - 1];
      OffersAll(f, log, init, job, cap);
      ChunksGrow(log, init, job);
      assert log + pubs == (log + init) + [p];
      ChunksAppend(log + init, p, job);
      var entry := LogChunk(p.stream, Count(log + init, job, p.stream) + 1, p.chunk);
      TailGrows(Chunks(log, job), Chunks(log + init, job), Chunks(log + pubs, job), if p.job == job then [entry] else []);
    }
  }

  /** What is published for the job between subscription and moment `k`. */
  function New(x: Session, k: nat): seq<LogChunk>
    requires k <= |x.schedule|
  {
    OffersAll(Feed([], [], 0), x.before, Published(x.schedule, k), x.job, 0);
    Chunks(LogAt(x, k), x.job)[|Chunks(x.before, x.job)|..]
  }

  /** One moment adds what it publishes for the job. */
  lemma NewStep(x: Session, k: nat)
    requires 0 < k <= |x.schedule|
    ensures var all, more := Chunks(LogAt(x, k - 1), x.job), Chunks(LogAt(x, k), x.job);
            && |all| <= |more| && New(x, k) == New(x, k - 1) + more[|all|..]
            && |more| == |all| + Arrivals(x.schedule[k - 1].pubs, x.job)
  {
    var f := Feed([], [], 0);
    OffersAll(f, x.before, Published(x.schedule, k - 1), x.job, 0);
    OffersAll(f, LogAt(x, k - 1), x.schedule[k - 1].pubs, x.job, 0);
    assert LogAt(x, k) == LogAt(x, k - 1) + x.schedule[k - 1].pubs;
    ArrivalsAreNew(LogAt(x, k - 1), x.schedule[k - 1].pubs, x.job);
    NewGrows(Chunks(x.before, x.job), Chunks(LogAt(x, k - 1), x.job), Chunks(LogAt(x, k), x.job));
  }

  lemma {:induction false} FeedStep(x: Session, k: nat)
    requires 0 < k <= |x.schedule|
    ensures var all, more := Chunks(LogAt(x, k - 1), x.job), Chunks(LogAt(x, k), x.job);
            |all| <= |more| && FeedAt(x, k).offered == FeedAt(x, k - 1).offered + more[|all|..]
  {
    assert LogAt(x, k) == LogAt(x, k - 1) + x.schedule[k - 1].pubs;
    OffersAll(Reading(x, k - 1, FeedAt(x, k - 1)), LogAt(x, k - 1), x.schedule[k - 1].pubs, x.job, x.queueCap);
  }

  lemma {:induction false} FeedIsOfferedNew(x: Session, k: nat)
    requires k <= |x.schedule|
    ensures FeedAt(x, k).offered == New(x, k)
  {
    if k == 0 {
      assert LogAt(x, 0) == x.before;
    } else {
      FeedIsOfferedNew(x, k - 1);
      NewStep(x, k);
      FeedStep(x, k);
    }
  }

  lemma NewGrows<T>(a: seq<T>, b: seq<T>, c: seq<T>)
    requires |a| <= |b| <= |c| && b == c[..|b|]
    ensures b[|a|..] + c[|b|..] == c[|a|..]
  {
  }

  // ---------------------------------------------------------------- when nothing is dropped

  /** How many of these publishes are for the job. */
  function Arrivals(pubs: seq<Pub>, job: JobId): nat {
    if pubs == [] then 0
    else Arrivals(pubs[..|pubs| - 1], job) + (if pubs[|pubs| - 1].job == job then 1 else 0)
  }

  /** How many chunks would be waiting after `k` moments in an unbounded queue: counts alone decide. */
  function Unread(x: Session, k: nat): nat
    requires k <= |x.schedule|
  {
    if k == 0 then 0
    else
      var u := Unread(x, k - 1);
      (if k - 1 >= |History(x)| && u > 0 then u - 1 else u) + Arrivals(x.schedule[k - 1].pubs, x.job)
  }

  /** Up to moment `k` there is always room. */
  predicate Fits(x: Session, k: nat)
    requires k <= |x.schedule|
  {
    forall i :: 0 <= i <= k ==> x.queueCap == 0 || Unread(x, i) <= x.queueCap
  }

  lemma {:induction false} OffersLose(f: Feed, log: seq<Pub>, pubs: seq<Pub>, job: JobId, cap: nat)
    requires Fitting(f, cap)
    ensures var g := Offers(f, log, pubs, job, cap);
            && (Lossless(g) <==> Lossless(f) && (cap == 0 || |Queued(f)| + Arrivals(pubs, job) <= cap))
            && (Lossless(g) ==> |Queued(g)| == |Queued(f)| + Arrivals(pubs, job))
  {
    if pubs != [] {
      var init, p := pubs[..|pubs| - 1], pubs[|pubs| - 1];
      OffersLose(f, log, init, job, cap);
      if p.job == job {
        PushLoses(Offers(f, log, init, job, cap), LogChunk(p.stream, Count(log + init, job, p.stream) + 1, p.chunk), cap);
      }
    }
  }

  lemma FitsStep(x: Session, k: nat)
    requires 0 < k <= |x.schedule|
    ensures Fits(x, k) <==> Fits(x, k - 1) && (x.queueCap == 0 || Unread(x, k) <= x.queueCap)
  {
  }

  /** One moment loses something if and only if there is no room for what it publishes. */
  lemma {:induction false} MomentLoses(x: Session, k: nat)
    requires 0 < k <= |x.schedule|
    ensures var f, g := FeedAt(x, k - 1), FeedAt(x, k);
            var left := if k - 1 >= |History(x)| && |Queued(f)| > 0 then |Queued(f)| - 1 else |Queued(f)|;
            var n := left + Arrivals(x.schedule[k - 1].pubs, x.job);
            && (Lossless(g) <==> Lossless(f) && (x.queueCap == 0 || n <= x.queueCap))
            && (Lossless(g) ==> |Queued(g)| == n)
  {
    OffersLose(Reading(x, k - 1, FeedAt(x, k - 1)), LogAt(x, k - 1), x.schedule[k - 1].pubs, x.job, x.queueCap);
  }

  /** The feed has lost nothing if and only if the counts always fit, and then its queue is as long as they say. */
  lemma {:induction false} LosslessIffFits(x: Session, k: nat)
    requires k <= |x.schedule|
    ensures Lossless(FeedAt(x, k)) <==> Fits(x, k)
    ensures Fits(x, k) ==> |Queued(FeedAt(x, k))| == Unread(x, k)
  {
    if k > 0 {
      LosslessIffFits(x, k - 1);
      MomentLoses(x, k);
      FitsStep(x, k);
    }
  }

  /** The completeness of the live stream. A stream that ends through its polling loop has emitted the history and
      then exactly what was published for the job until its queue was last seen empty, in order, none missing or
      repeated, if and only if the counts always fitted its queue. If the history was not capped either, that is the
      job's whole log. */
  lemma StreamIsComplete(x: Session)
    requires OutcomeOf(x).ending == Complete
    ensures var m := OutcomeOf(x).at;
            && (Emitted(x) == History(x) + New(x, m) <==> Fits(x, m))
            && (Fits(x, m) && |Chunks(x.before, x.job)| <= x.historyCap ==> Emitted(x) == Chunks(LogAt(x, m), x.job))
  {
    var m := OutcomeOf(x).at;
    var f := FeedAt(x, m);
    FeedIsOfferedNew(x, m);
    LosslessIffFits(x, m);
    LosslessReadsAll(f);
    assert Read(f) + Queued(f) == Read(f);
    if Emitted(x) == History(x) + New(x, m) {
      assert Emitted(x)[|History(x)|..] == Read(f) && (History(x) + New(x, m))[|History(x)|..] == New(x, m);
    }
    OffersAll(f, x.before, Published(x.schedule, m), x.job, x.queueCap);
  }

  /** A stream that is cut off while it polls has, under the same condition, emitted a prefix of that: everything but
      what is still queued. */
  lemma {:induction false} CutStreamIsPrefix(x: Session)
    requires OutcomeOf(x).ending == Cut && |History(x)| <= |x.schedule| && Fits(x, |x.schedule|)
    ensures var m := |x.schedule|;
            && Emitted(x) <= History(x) + New(x, m)
            && |Emitted(x)| == |History(x) + New(x, m)| - (if Unread(x, m) > 0 then Unread(x, m) - 1 else 0)
  {
    var m := |x.schedule|;
    var f := FeedAt(x, m);
    FeedIsOfferedNew(x, m);
    LosslessIffFits(x, m);
    ReadOneKeeps(f);
    LosslessReadsAll(ReadOne(f));
    assert Emitted(x) + Queued(ReadOne(f)) == History(x) + (Read(ReadOne(f)) + Queued(ReadOne(f)));
  }

  // ---------------------------------------------------------------- two conditions that are easy to check

  lemma {:induction false} ArrivalsAreNew(log: seq<Pub>, pubs: seq<Pub>, job: JobId)
    ensures |Chunks(log + pubs, job)| == |Chunks(log, job)| + Arrivals(pubs, job)
  {
    if pubs == [] {
      assert log + pubs == log;
    } else {
      var init, p := pubs[..|pubs| - 1], pubs[|pubs| - 1];
      ArrivalsAreNew(log, init, job);
      assert log + pubs == (log + init) + [p];
      ChunksAppend(log + init, p, job);
    }
  }

  lemma {:induction false} UnreadIsFew(x: Session, k: nat)
    requires k <= |x.schedule|
    ensures Unread(x, k) <= |New(x, k)| && forall i :: 0 <= i <= k ==> |New(x, i)| <= |New(x, k)|
  {
    if k > 0 {
      UnreadIsFew(x, k - 1);
      NewStep(x, k);
    }
  }

  /** An unbounded queue always has room, and so has a queue that could hold all that is published. */
  lemma {:induction false} FewChunksFit(x: Session, k: nat)
    requires k <= |x.schedule| && (x.queueCap == 0 || |New(x, k)| <= x.queueCap)
    ensures Fits(x, k)
  {
    forall i | 0 <= i <= k ensures x.queueCap == 0 || Unread(x, i) <= x.queueCap {
      UnreadIsFew(x, i);
      UnreadIsFew(x, k);
    }
  }

  // ---------------------------------------------------------------- when it ends

  /** The queue is empty at moment `k`. */
  predicate Empties(x: Session, k: nat)
    requires k <= |x.schedule|
  {
    Queued(FeedAt(x, k)) == []
  }

  /** At moment `k` a wait on the empty queue times out, and the job is seen to be terminal then. */
  predicate SeesEnd(x: Session, k: nat)
    requires k < |x.schedule|
  {
    Empties(x, k) && x.schedule[k].timedOut && x.schedule[k].terminal
  }

  lemma {:induction false} PollNow(x: Session, k: nat)
    requires k <= |x.schedule|
    ensures PollEnd(x, k) ==
            if k == |x.schedule| then None else if SeesEnd(x, k) then Some(k + 1) else PollEnd(x, k + 1)
  {
  }

  lemma {:induction false} DrainNow(x: Session, k: nat)
    requires k <= |x.schedule|
    ensures DrainEnd(x, k) ==
            if Empties(x, k) then Some(k) else if k == |x.schedule| then None else DrainEnd(x, k + 1)
  {
  }

  /** `end` is just after the first moment from `k` on that sees the end, or there is none. */
  predicate FirstSeen(x: Session, k: nat, end: Option<nat>)
    requires k <= |x.schedule|
  {
    if end.Some? then
      && k < end.value <= |x.schedule| && SeesEnd(x, end.value - 1)
      && forall j :: k <= j < end.value - 1 ==> !SeesEnd(x, j)
    else forall j :: k <= j < |x.schedule| ==> !SeesEnd(x, j)
  }

  /** `end` is the first moment from `k` on with an empty queue, or there is none. */
  predicate FirstEmpty(x: Session, k: nat, end: Option<nat>)
    requires k <= |x.schedule|
  {
    if end.Some? then
      k <= end.value <= |x.schedule| && Empties(x, end.value) && forall j :: k <= j < end.value ==> !Empties(x, j)
    else forall j :: k <= j <= |x.schedule| ==> !Empties(x, j)
  }

  lemma {:induction false} SeenAtEnd(x: Session, k: nat, end: nat)
    requires k < end <= |x.schedule| && PollEnd(x, k) == Some(end)
    ensures SeesEnd(x, end - 1)
    decreases end - k
  {
    PollNow(x, k);
    if !SeesEnd(x, k) {
      PollEndBound(x, k + 1);
      SeenAtEnd(x, k + 1, end);
    }
  }

  lemma {:induction false} NotSeenBefore(x: Session, k: nat, j: nat)
    requires k <= j < |x.schedule| && (PollEnd(x, k).Some? ==> j < PollEnd(x, k).value - 1)
    ensures !SeesEnd(x, j)
    decreases j - k
  {
    PollNow(x, k);
    if k < j {
      NotSeenBefore(x, k + 1, j);
    }
  }

  lemma {:induction false} PollEndIsFirst(x: Session, k: nat)
    requires k <= |x.schedule|
    ensures FirstSeen(x, k, PollEnd(x, k))
  {
    var end := PollEnd(x, k);
    PollEndBound(x, k);
    if end.Some? {
      SeenAtEnd(x, k, end.value);
    }
    forall j | k <= j < if end.Some? then end.value - 1 else |x.schedule| ensures !SeesEnd(x, j) {
      NotSeenBefore(x, k, j);
    }
  }

  lemma {:induction false} EmptyAtEnd(x: Session, k: nat)
    requires k <= |x.schedule|
    ensures var end := DrainEnd(x, k); end.Some? ==> k <= end.value <= |x.schedule| && Empties(x, end.value)
    decreases |x.schedule| - k
  {
    DrainNow(x, k);
    if k < |x.schedule| && !Empties(x, k) {
      EmptyAtEnd(x, k + 1);
    }
  }

  lemma {:induction false} NotEmptyBefore(x: Session, k: nat, j: nat)
    requires k <= j <= |x.schedule| && (DrainEnd(x, k).Some? ==> j < DrainEnd(x, k).value)
    ensures !Empties(x, j)
    decreases j - k
  {
    DrainNow(x, k);
    if k < j {
      NotEmptyBefore(x, k + 1, j);
    }
  }

  lemma {:induction false} DrainEndIsFirst(x: Session, k: nat)
    requires k <= |x.schedule|
    ensures FirstEmpty(x, k, DrainEnd(x, k))
  {
    var end := DrainEnd(x, k);
    EmptyAtEnd(x, k);
    forall j | k <= j < if end.Some? then end.value else |x.schedule| + 1 ensures !Empties(x, j) {
      NotEmptyBefore(x, k, j);
    }
  }

  /** How the outcome comes from the two loops. */
  lemma {:induction false} OutcomeOfLoops(x: Session)
    requires Polls(x)
    ensures var o, polled := OutcomeOf(x), PollEnd(x, |History(x)|);
            && o.ending != Early
            && (polled.None? ==> o.ending == Cut)
            && (polled.Some? && polled.value <= |x.schedule| ==>
                  var drained := DrainEnd(x, polled.value);
                  if drained.None? then o.ending == Cut else o == Outcome(Complete, drained.value))
  {
  }

  /** When a stream ends. It ends early if and only if it lives through the history and the job is terminal then. It
      ends by its polling loop at the first moment with an empty queue after the first wait that timed out, saw an
      empty queue and then a terminal job; and if there is such a moment, it does. */
  lemma {:induction false} EndsWhenTerminal(x: Session)
    ensures var o, h := OutcomeOf(x), |History(x)|;
            && (o.ending == Early <==>
                  h <= |x.schedule| && if h == 0 then x.terminalAtStart else x.schedule[h - 1].terminal)
            && (o.ending == Early ==> o.at == h)
    ensures var o, h := OutcomeOf(x), |History(x)|;
            o.ending == Complete ==>
              h <= |x.schedule| && exists seen :: FirstSeen(x, h, Some(seen)) && FirstEmpty(x, seen, Some(o.at))
    ensures var o, h := OutcomeOf(x), |History(x)|;
            o.ending == Cut && h <= |x.schedule| ==>
              FirstSeen(x, h, None) || exists seen :: FirstSeen(x, h, Some(seen)) && FirstEmpty(x, seen, None)
  {
    if Polls(x) {
      OutcomeOfLoops(x);
      PollEndIsFirst(x, |History(x)|);
      var polled := PollEnd(x, |History(x)|);
      if polled.Some? {
        DrainEndIsFirst(x, polled.value);
        assert FirstSeen(x, |History(x)|, Some(polled.value));
      }
    }
  }
}
