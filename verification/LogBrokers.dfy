/** LogBroker with its bounded subscriber queues, the log table, and the handler that writes to both. */
module LogBrokers {
  import opened Jobs
  import opened LogFeed

  /** A bounded FIFO queue; capacity 0 is unbounded. `feed` records what was put, read and dropped. */
  class BoundedQueue {
    const maxsize: nat
    var items: seq<LogChunk>
    ghost var feed: Feed
    ghost const job: JobId
    ghost const mark: nat

    ghost predicate Valid()
      reads this
    {
      FeedOk(feed) && items == Queued(feed) && (maxsize > 0 ==> |items| <= maxsize)
    }

    constructor (maxsize: nat, ghost job: JobId, ghost mark: nat)
      ensures Valid() && this.maxsize == maxsize && this.job == job && this.mark == mark
      ensures feed == Feed([], [], 0)
    {
      this.maxsize := maxsize;
      this.job, this.mark := job, mark;
      items, feed := [], Feed([], [], 0);
    }

    predicate Full()
      reads this
    {
      maxsize > 0 && |items| >= maxsize
    }

    predicate Empty()
      reads this
    {
      items == []
    }

    /** get_nowait by the subscriber. */
    method Get() returns (chunk: LogChunk)
      requires Valid() && !Empty()
      modifies this
      ensures Valid() && chunk == old(items)[0] && items == old(items)[1..]
      ensures feed == Take(old(feed)) && Read(feed) == Read(old(feed)) + [chunk]
    {
      TakeKeeps(feed);
      chunk := items[0];
      items := items[1..];
      feed := Take(feed);
    }

    /** The broker's side: if full, get_nowait and forget, then put_nowait. */
    method Offer(chunk: LogChunk)
      requires Valid()
      modifies this
      ensures Valid() && feed == Push(old(feed), chunk, maxsize) && Read(feed) == Read(old(feed))
    {
      PushKeeps(feed, chunk, maxsize);
      if Full() {
        items := items[1..];
      }
      items := items + [chunk];
      feed := Push(feed, chunk, maxsize);
    }
  }

  datatype StreamKey = StreamKey(job: JobId, stream: Stream)

  class LogBroker {
    const historyCap: nat
    const queueCap: nat
    var histories: map<JobId, seq<LogChunk>>
    var sequences: map<StreamKey, nat>
    var subscribers: map<JobId, set<BoundedQueue>>
    /** Every publish since the broker was created. */
    ghost var log: seq<Pub>
    /** Every queue handed out since the broker was created. */
    ghost var queues: set<BoundedQueue>

    ghost predicate SubscribersOk()
      reads this, queues
    {
      && (forall job :: job in subscribers ==> subscribers[job] != {} && subscribers[job] <= queues)
      && (forall job, q :: job in subscribers && q in subscribers[job] ==> Serves(q, job, queueCap, log))
    }

    ghost predicate Valid()
      reads this, queues
    {
      HistoriesOk(histories, historyCap, log) && SequencesOk(sequences, log) && SubscribersOk()
    }

    constructor (historyCap: nat, queueCap: nat)
      ensures Valid() && log == [] && subscribers == map[] && queues == {}
      ensures this.historyCap == historyCap && this.queueCap == queueCap
    {
      this.historyCap, this.queueCap := historyCap, queueCap;
      histories, sequences, subscribers, log, queues := map[], map[], map[], [], {};
      new;
      assert forall job: JobId :: Chunks([], job) == [];
    }

    function History(job: JobId): (h: seq<LogChunk>)
      reads this
    {
      HistoryIn(histories, job)
    }

    function SubscribersOf(job: JobId): set<BoundedQueue>
      reads this
    {
      if job in subscribers then subscribers[job] else {}
    }

    method OfferAll(queues: set<BoundedQueue>, entry: LogChunk)
      requires forall q :: q in queues ==> q.Valid()
      modifies queues
      ensures forall q :: q in queues ==> q.Valid() && q.feed == Push(old(q.feed), entry, q.maxsize)
    {
      var todo := queues;
      while todo != {}
        invariant todo <= queues
        invariant forall q :: q in todo ==> q.Valid() && q.feed == old(q.feed)
        invariant forall q :: q in queues - todo ==> q.Valid() && q.feed == Push(old(q.feed), entry, q.maxsize)
        decreases |todo|
      {
        var q :| q in todo;
        q.Offer(entry);
        todo := todo - {q};
      }
    }

    /** The loop of publish over the job's subscribers, with the log already extended. */
    method Deliver(job: JobId, entry: LogChunk, ghost before: seq<Pub>, ghost p: Pub)
      requires forall j, q :: j in subscribers && q in subscribers[j] ==> Serves(q, j, queueCap, before)
      requires forall j :: j in subscribers ==> subscribers[j] != {} && subscribers[j] <= queues
      requires p.job == job && log == before + [p] && Chunks(log, job) == Chunks(before, job) + [entry]
      modifies SubscribersOf(job)
      ensures SubscribersOk()
      ensures forall q :: q in SubscribersOf(job) ==> q.feed == Push(old(q.feed), entry, q.maxsize)
    {
      assert forall q :: q in SubscribersOf(job) ==> Serves(q, job, queueCap, before);
      OfferAll(SubscribersOf(job), entry);
      forall j, q | j in subscribers && q in subscribers[j] ensures Serves(q, j, queueCap, log) {
        assert old(Serves(q, j, queueCap, before));
        ChunksAppend(before, p, j);
        if j == job {
          assert (Chunks(before, j) + [entry])[q.mark..] == Chunks(before, j)[q.mark..] + [entry];
        } else {
          assert q !in SubscribersOf(job);
        }
      }
    }

    /** Number the chunk, append it to the capped history, and offer it to every subscriber of the job. */
    method Publish(job: JobId, stream: Stream, chunk: string) returns (entry: LogChunk)
      requires Valid()
      modifies `histories, `sequences, `log, SubscribersOf(job)
      ensures Valid() && log == old(log) + [Pub(job, stream, chunk)]
      ensures Chunks(log, job) == Chunks(old(log), job) + [entry]
      ensures entry == LogChunk(stream, Count(old(log), job, stream) + 1, chunk)
      ensures forall q :: q in old(SubscribersOf(job)) ==> q.feed == Push(old(q.feed), entry, q.maxsize)
    {
      var key := StreamKey(job, stream);
      var sequence := LastNumber(sequences, key) + 1;
      ghost var before, p := log, Pub(job, stream, chunk);
      entry := LogChunk(stream, sequence, chunk);
      ghost var sequences0, histories0 := sequences, histories;
      sequences := sequences[key := sequence];
      histories := histories[job := LastN(historyCap, HistoryIn(histories, job) + [entry])];
      log := log + [p];
      NextNumber(sequences0, before, p, key, sequence, sequences, log);
      NextHistory(histories0, historyCap, before, p, entry, histories, log);
      Deliver(job, entry, before, p);
    }

    /** A new queue, and the history at the same instant. */
    method Subscribe(job: JobId) returns (queue: BoundedQueue, history: seq<LogChunk>)
      requires Valid()
      modifies `subscribers, `queues
      ensures Valid() && fresh(queue) && subscribers == WithSubscriber(old(subscribers), job, queue)
      ensures queues == old(queues) + {queue}
      ensures queue.feed == Feed([], [], 0) && queue.mark == |Chunks(log, job)| && queue.job == job
      ensures history == LastN(historyCap, Chunks(log, job))
    {
      queue := new BoundedQueue(queueCap, job, |Chunks(log, job)|);
      subscribers := subscribers[job := SubscribersOf(job) + {queue}];
      queues := queues + {queue};
      history := History(job);
      assert HistoryOk(histories, historyCap, log, job);
      forall j, q | j in subscribers && q in subscribers[j] ensures Serves(q, j, queueCap, log) {
        assert q != queue ==> old(Serves(q, j, queueCap, log));
      }
    }

    method Unsubscribe(job: JobId, queue: BoundedQueue)
      requires Valid()
      modifies `subscribers
      ensures Valid()
      ensures subscribers == WithoutSubscriber(old(subscribers), job, queue)
    {
      if job in subscribers {
        var left := subscribers[job] - {queue};
        subscribers := if left == {} then subscribers - {job} else subscribers[job := left];
      }
      forall j, q | j in subscribers && q in subscribers[j] ensures Serves(q, j, queueCap, log) {
        assert old(Serves(q, j, queueCap, log));
      }
    }
  }

  function WithSubscriber(subscribers: map<JobId, set<BoundedQueue>>, job: JobId, q: BoundedQueue)
    : map<JobId, set<BoundedQueue>>
  {
    subscribers[job := (if job in subscribers then subscribers[job] else {}) + {q}]
  }

  /** A job that loses its last subscriber loses its entry. */
  function WithoutSubscriber(subscribers: map<JobId, set<BoundedQueue>>, job: JobId, q: BoundedQueue)
    : map<JobId, set<BoundedQueue>>
  {
    if job !in subscribers then subscribers
    else if subscribers[job] - {q} == {} then subscribers - {job}
    else subscribers[job := subscribers[job] - {q}]
  }

  lemma UnsubscribeUndoesSubscribe(subscribers: map<JobId, set<BoundedQueue>>, job: JobId, q: BoundedQueue)
    requires job in subscribers ==> subscribers[job] != {} && q !in subscribers[job]
    ensures WithoutSubscriber(WithSubscriber(subscribers, job, q), job, q) == subscribers
  {
    var others := if job in subscribers then subscribers[job] else {};
    assert (others + {q}) - {q} == others;
  }

  function HistoryIn(histories: map<JobId, seq<LogChunk>>, job: JobId): seq<LogChunk> {
    if job in histories then histories[job] else []
  }

  /** A capped history is the tail of everything published for its job. */
  predicate HistoryOk(histories: map<JobId, seq<LogChunk>>, cap: nat, log: seq<Pub>, job: JobId) {
    HistoryIn(histories, job) == LastN(cap, Chunks(log, job))
  }

  ghost predicate HistoriesOk(histories: map<JobId, seq<LogChunk>>, cap: nat, log: seq<Pub>) {
    forall job: JobId :: HistoryOk(histories, cap, log, job)
  }

  function LastNumber(sequences: map<StreamKey, nat>, key: StreamKey): nat {
    if key in sequences then sequences[key] else 0
  }

  /** A counter holds the last number given out on its stream. */
  predicate SequenceOk(sequences: map<StreamKey, nat>, log: seq<Pub>, key: StreamKey) {
    LastNumber(sequences, key) == Count(log, key.job, key.stream)
  }

  ghost predicate SequencesOk(sequences: map<StreamKey, nat>, log: seq<Pub>) {
    forall key: StreamKey :: SequenceOk(sequences, log, key)
  }

  /** A subscriber was offered every chunk published for its job since it subscribed, in order. */
  ghost predicate Serves(q: BoundedQueue, job: JobId, cap: nat, log: seq<Pub>)
    reads q
  {
    && q.job == job && q.Valid() && q.maxsize == cap
    && q.mark <= |Chunks(log, job)| && q.feed.offered == Chunks(log, job)[q.mark..]
  }

  lemma TailOfTail<T>(cap: nat, all: seq<T>, tail: seq<T>, x: T)
    requires tail == LastN(cap, all)
    ensures LastN(cap, tail + [x]) == LastN(cap, all + [x])
  {
  }

  /** One publish on the counters. */
  lemma {:induction false} NextNumber(sequences: map<StreamKey, nat>, log: seq<Pub>, p: Pub, key: StreamKey, n: nat,
                   sequences': map<StreamKey, nat>, log': seq<Pub>)
    requires SequencesOk(sequences, log) && key == StreamKey(p.job, p.stream) && n == LastNumber(sequences, key) + 1
    requires sequences' == sequences[key := n] && log' == log + [p]
    ensures n == Count(log, p.job, p.stream) + 1
    ensures SequencesOk(sequences', log')
  {
    assert SequenceOk(sequences, log, key);
    forall k: StreamKey ensures SequenceOk(sequences', log', k) {
      assert SequenceOk(sequences, log, k);
      CountAppend(log, p, k.job, k.stream);
      assert k == key <==> k.job == p.job && k.stream == p.stream;
    }
  }

  /** One publish on the histories. */
  lemma {:induction false} NextHistory(histories: map<JobId, seq<LogChunk>>, cap: nat, log: seq<Pub>, p: Pub,
                                       entry: LogChunk, histories': map<JobId, seq<LogChunk>>, log': seq<Pub>)
    requires HistoriesOk(histories, cap, log) && entry == LogChunk(p.stream, Count(log, p.job, p.stream) + 1, p.chunk)
    requires histories' == histories[p.job := LastN(cap, HistoryIn(histories, p.job) + [entry])] && log' == log + [p]
    ensures Chunks(log', p.job) == Chunks(log, p.job) + [entry]
    ensures HistoriesOk(histories', cap, log')
  {
    ChunksAppend(log, p, p.job);
    forall job: JobId ensures HistoryOk(histories', cap, log', job) {
      assert HistoryOk(histories, cap, log, job);
      if job == p.job {
        TailOfTail(cap, Chunks(log, job), HistoryIn(histories, job), entry);
      } else {
        ChunksAppend(log, p, job);
      }
    }
  }

  // ---------------------------------------------------------------- the durable log

  datatype LogRow = LogRow(jobId: JobId, stream: Stream, sequence: int, chunk: string, createdAt: int)

  /** The text of a row, without its time and the number the agent put on it. */
  function AsPub(r: LogRow): Pub {
    Pub(r.jobId, r.stream, r.chunk)
  }

  function AsPubs(rows: seq<LogRow>): seq<Pub> {
    if rows == [] then [] else AsPubs(rows[..|rows| - 1]) + [AsPub(rows[|rows| - 1])]
  }

  lemma {:induction false} AsPubsAppend(rows: seq<LogRow>, r: LogRow)
    ensures AsPubs(rows + [r]) == AsPubs(rows) + [AsPub(r)]
  {
    assert (rows + [r])[..|rows|] == rows;
  }

  /** The rows of a job, optionally of one stream, in insertion order. */
  function RowsFor(rows: seq<LogRow>, job: JobId, stream: Option<Stream>): seq<LogRow> {
    if rows == [] then []
    else
      var last := rows[|rows| - 1];
      RowsFor(rows[..|rows| - 1], job, stream) +
      (if last.jobId == job && (stream.Some? ==> last.stream == stream.value) then [last] else [])
  }

  /** Only the rows of one stream. */
  function OnlyStream(rows: seq<LogRow>, stream: Stream): seq<LogRow> {
    if rows == [] then []
    else (if rows[0].stream == stream then [rows[0]] else []) + OnlyStream(rows[1..], stream)
  }

  lemma {:induction false} OnlyStreamConcat(a: seq<LogRow>, b: seq<LogRow>, stream: Stream)
    ensures OnlyStream(a + b, stream) == OnlyStream(a, stream) + OnlyStream(b, stream)
  {
    if a == [] {
      assert a + b == b;
    } else {
      assert (a + b)[1..] == a[1..] + b;
      OnlyStreamConcat(a[1..], b, stream);
    }
  }

  /** The listing for a stream is the job's whole listing with the other streams taken out. */
  lemma {:induction false} StreamListing(rows: seq<LogRow>, job: JobId, stream: Stream)
    ensures RowsFor(rows, job, Some(stream)) == OnlyStream(RowsFor(rows, job, None), stream)
    ensures forall r :: r in RowsFor(rows, job, Some(stream)) ==> r.jobId == job && r.stream == stream
  {
    if rows != [] {
      var before, last := rows[..|rows| - 1], rows[|rows| - 1];
      StreamListing(before, job, stream);
      var more := if last.jobId == job then [last] else [];
      OnlyStreamConcat(RowsFor(before, job, None), more, stream);
      assert more != [] ==> more[1..] == [];
      assert OnlyStream(more, stream) == if last.jobId == job && last.stream == stream then [last] else [];
    }
  }

  class LogRepository {
    var rows: seq<LogRow>

    constructor ()
      ensures rows == []
    {
      rows := [];
    }

    method Append(job: JobId, stream: Stream, sequence: int, chunk: string, t: int)
      modifies this
      ensures rows == old(rows) + [LogRow(job, stream, sequence, chunk, t)]
    {
      rows := rows + [LogRow(job, stream, sequence, chunk, t)];
    }

    method ListForJob(job: JobId, stream: Option<Stream>) returns (listed: seq<LogRow>)
      ensures listed == RowsFor(rows, job, stream)
    {
      listed := [];
      for i := 0 to |rows|
        invariant listed == RowsFor(rows[..i], job, stream)
      {
        assert rows[..i + 1][..i] == rows[..i];
        if rows[i].jobId == job && (stream.Some? ==> rows[i].stream == stream.value) {
          listed := listed + [rows[i]];
        }
      }
      assert rows[..|rows|] == rows;
    }
  }

  /** The gateway's handler for log messages, over the broker and the log table. `start` is how many rows the
      table had when the server, and with it the broker, was started. */
  class LogIntake {
    const broker: LogBroker
    const table: LogRepository
    ghost const start: nat

    ghost predicate Valid()
      reads this, broker, broker.queues, table
    {
      broker.Valid() && start <= |table.rows| && broker.log == AsPubs(table.rows[start..])
    }

    constructor (table: LogRepository, historyCap: nat, queueCap: nat)
      ensures Valid() && this.table == table && fresh(broker) && start == |table.rows|
      ensures broker.historyCap == historyCap && broker.queueCap == queueCap
      ensures broker.subscribers == map[] && broker.queues == {}
    {
      this.table := table;
      this.start := |table.rows|;
      this.broker := new LogBroker(historyCap, queueCap);
      new;
      assert table.rows[start..] == [];
    }

    method OnLog(job: JobId, stream: Stream, sequence: int, chunk: string, t: int)
      requires Valid()
      modifies broker`histories, broker`sequences, broker`log, broker.SubscribersOf(job), table
      ensures Valid() && table.rows == old(table.rows) + [LogRow(job, stream, sequence, chunk, t)]
      ensures broker.log == old(broker.log) + [Pub(job, stream, chunk)]
    {
      ghost var rows := table.rows[start..];
      var entry := broker.Publish(job, stream, chunk);
      table.Append(job, stream, sequence, chunk, t);
      assert table.rows[start..] == rows + [LogRow(job, stream, sequence, chunk, t)];
      AsPubsAppend(rows, LogRow(job, stream, sequence, chunk, t));
    }
  }

  /** The stream and text of every chunk, as the log table has them. */
  predicate SameText(chunks: seq<LogChunk>, rows: seq<LogRow>) {
    && |chunks| == |rows|
    && forall i :: 0 <= i < |chunks| ==> chunks[i].stream == rows[i].stream && chunks[i].chunk == rows[i].chunk
  }

  lemma {:induction false} ChunksMatchRows(rows: seq<LogRow>, job: JobId)
    ensures SameText(Chunks(AsPubs(rows), job), RowsFor(rows, job, None))
  {
    if rows != [] {
      var before, last := rows[..|rows| - 1], rows[|rows| - 1];
      ChunksMatchRows(before, job);
      ChunksAppend(AsPubs(before), AsPub(last), job);
    }
  }

  /** A history never holds more than its cap, and is the end of what was published for the job; it is short of the
      cap only if it is all of that. */
  lemma {:induction false} HistoryIsCapped(broker: LogBroker, job: JobId)
    requires broker.Valid()
    ensures var h, all := broker.History(job), Chunks(broker.log, job);
            && |h| <= broker.historyCap && |h| <= |all| && h == all[|all| - |h|..]
            && (|h| < broker.historyCap ==> h == all)
  {
    assert HistoryOk(broker.histories, broker.historyCap, broker.log, job);
  }

  /** The history a subscriber is handed agrees with the durable log: it is the last min(cap, n) of the n rows
      appended for the job since the server was started. */
  lemma {:induction false} HistoryAgreesWithTable(intake: LogIntake, job: JobId)
    requires intake.Valid()
    ensures SameText(intake.broker.History(job),
                     LastN(intake.broker.historyCap, RowsFor(intake.table.rows[intake.start..], job, None)))
  {
    ChunksMatchRows(intake.table.rows[intake.start..], job);
    assert HistoryOk(intake.broker.histories, intake.broker.historyCap, intake.broker.log, job);
  }
}
