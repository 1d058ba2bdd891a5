/** What publishing means: numbering per stream, capped history, and the feed of one bounded subscriber queue. */
module LogFeed {
  import opened Jobs

  datatype Stream = Stream(text: string)
  datatype LogChunk = LogChunk(stream: Stream, sequence: nat, chunk: string)

  /** One log message of an agent. */
  datatype Pub = Pub(job: JobId, stream: Stream, chunk: string)

  function Count(log: seq<Pub>, job: JobId, stream: Stream): nat {
    if log == [] then 0
    else
      var last := log[|log| - 1];
      Count(log[..|log| - 1], job, stream) + (if last.job == job && last.stream == stream then 1 else 0)
  }

  /** Everything published for a job, numbered per stream from 1. */
  function Chunks(log: seq<Pub>, job: JobId): seq<LogChunk> {
    if log == [] then []
    else
      var before, last := log[..|log| - 1], log[|log| - 1];
      if last.job == job then Chunks(before, job) + [LogChunk(last.stream, Count(before, job, last.stream) + 1, last.chunk)]
      else Chunks(before, job)
  }

  function LastN<T>(n: nat, s: seq<T>): seq<T> {
    if |s| <= n then s else s[|s| - n..]
  }

  lemma {:induction false} CountAppend(log: seq<Pub>, p: Pub, job: JobId, stream: Stream)
    ensures Count(log + [p], job, stream) == Count(log, job, stream) + (if p.job == job && p.stream == stream then 1 else 0)
  {
    assert (log + [p])[..|log|] == log;
  }

  lemma {:induction false} ChunksAppend(log: seq<Pub>, p: Pub, job: JobId)
    ensures Chunks(log + [p], job) ==
              if p.job == job then Chunks(log, job) + [LogChunk(p.stream, Count(log, job, p.stream) + 1, p.chunk)]
              else Chunks(log, job)
  {
    assert (log + [p])[..|log|] == log;
  }

  /** How many chunks of a stream a list holds. */
  function OnStream(chunks: seq<LogChunk>, stream: Stream): nat {
    if chunks == [] then 0
    else OnStream(chunks[..|chunks| - 1], stream) + (if chunks[|chunks| - 1].stream == stream then 1 else 0)
  }

  lemma {:induction false} OnStreamConcat(a: seq<LogChunk>, b: seq<LogChunk>, stream: Stream)
    ensures OnStream(a + b, stream) == OnStream(a, stream) + OnStream(b, stream)
  {
    if b == [] {
      assert a + b == a;
    } else {
      assert (a + b)[..|a + b| - 1] == a + b[..|b| - 1];
      OnStreamConcat(a, b[..|b| - 1], stream);
    }
  }

  lemma {:induction false} CountIsOnStream(log: seq<Pub>, job: JobId, stream: Stream)
    ensures Count(log, job, stream) == OnStream(Chunks(log, job), stream)
  {
    if log != [] {
      var before, last := log[..|log| - 1], log[|log| - 1];
      CountIsOnStream(before, job, stream);
      assert log == before + [last];
      CountAppend(before, last, job, stream);
      ChunksAppend(before, last, job);
      if last.job == job {
        var entry := LogChunk(last.stream, Count(before, job, last.stream) + 1, last.chunk);
        assert [entry][..0] == [];
        OnStreamConcat(Chunks(before, job), [entry], stream);
      }
    }
  }

  /** The sequence number of a chunk is its position within its stream: per stream 1, 2, 3, ... without gaps. */
  lemma {:induction false} NumberedFromOne(log: seq<Pub>, job: JobId, i: nat)
    requires i < |Chunks(log, job)|
    ensures Chunks(log, job)[i].sequence == OnStream(Chunks(log, job)[..i + 1], Chunks(log, job)[i].stream)
  {
    var before, last := log[..|log| - 1], log[|log| - 1];
    var earlier, all := Chunks(before, job), Chunks(log, job);
    assert log == before + [last];
    ChunksAppend(before, last, job);
    if i < |earlier| {
      NumberedFromOne(before, job, i);
      assert all[..i + 1] == earlier[..i + 1];
    } else {
      CountIsOnStream(before, job, last.stream);
      assert all[..i + 1] == earlier + [all[i]];
      OnStreamConcat(earlier, [all[i]], last.stream);
    }
  }

  // ---------------------------------------------------------------- one subscriber

  /** What a subscriber was offered, which positions of that it has read, and where its queue begins. */
  datatype Feed = Feed(offered: seq<LogChunk>, taken: seq<nat>, head: nat)

  /** The queue is a suffix of what was offered; what was read lies before it, in order. */
  ghost predicate FeedOk(f: Feed) {
    && f.head <= |f.offered|
    && (forall i :: 0 <= i < |f.taken| ==> f.taken[i] < f.head)
    && (forall i, j :: 0 <= i < j < |f.taken| ==> f.taken[i] < f.taken[j])
  }

  function Queued(f: Feed): seq<LogChunk>
    requires f.head <= |f.offered|
  {
    f.offered[f.head..]
  }

  ghost function Read(f: Feed): seq<LogChunk>
    requires FeedOk(f)
  {
    seq(|f.taken|, i requires 0 <= i < |f.taken| => f.offered[f.taken[i]])
  }

  /** A publish: drop the oldest if a bounded queue is full, then append. */
  function Push(f: Feed, x: LogChunk, cap: nat): Feed {
    f.(offered := f.offered + [x], head := if cap > 0 && |f.offered| - f.head >= cap then f.head + 1 else f.head)
  }

  function Take(f: Feed): Feed {
    f.(taken := f.taken + [f.head], head := f.head + 1)
  }

  /** The subscriber takes a chunk if there is one. */
  function ReadOne(f: Feed): Feed
    requires f.head <= |f.offered|
  {
    if Queued(f) == [] then f else Take(f)
  }

  /** Nothing was dropped: everything before the queue was read. */
  predicate Lossless(f: Feed) {
    |f.taken| == f.head
  }

  lemma PushKeeps(f: Feed, x: LogChunk, cap: nat)
    requires FeedOk(f) && (cap > 0 ==> |Queued(f)| <= cap)
    ensures FeedOk(Push(f, x, cap)) && (cap > 0 ==> |Queued(Push(f, x, cap))| <= cap)
    ensures Read(Push(f, x, cap)) == Read(f)
    ensures Queued(Push(f, x, cap)) ==
              if cap > 0 && |Queued(f)| >= cap then Queued(f)[1..] + [x] else Queued(f) + [x]
  {
  }

  lemma TakeKeeps(f: Feed)
    requires FeedOk(f) && Queued(f) != []
    ensures FeedOk(Take(f)) && Queued(Take(f)) == Queued(f)[1..]
    ensures Read(Take(f)) == Read(f) + [Queued(f)[0]]
  {
  }

  /** Reads never outnumber the chunks that left the queue. */
  lemma {:induction false} TakenAreFew(taken: seq<nat>, head: nat)
    requires forall i :: 0 <= i < |taken| ==> taken[i] < head
    requires forall i, j :: 0 <= i < j < |taken| ==> taken[i] < taken[j]
    ensures |taken| <= head
  {
    if taken != [] {
      TakenIsIdentity(taken, |taken| - 1);
    }
  }

  /** A publish loses a chunk if and only if the queue is full, and what is lost stays lost. */
  lemma PushLoses(f: Feed, x: LogChunk, cap: nat)
    requires FeedOk(f)
    ensures Lossless(Push(f, x, cap)) <==> Lossless(f) && !(cap > 0 && |Queued(f)| >= cap)
  {
    TakenAreFew(f.taken, f.head);
  }

  lemma {:induction false} TakenIsIdentity(taken: seq<nat>, i: nat)
    requires i < |taken|
    requires forall a, b :: 0 <= a < b < |taken| ==> taken[a] < taken[b]
    ensures taken[i] >= i
  {
    if i > 0 {
      TakenIsIdentity(taken, i - 1);
    }
  }

  lemma {:induction false} TakenFromAbove(taken: seq<nat>, head: nat, i: nat)
    requires i < |taken| && |taken| == head && forall a :: 0 <= a < |taken| ==> taken[a] < head
    requires forall a, b :: 0 <= a < b < |taken| ==> taken[a] < taken[b]
    ensures taken[i] <= i
    decreases |taken| - i
  {
    if i < |taken| - 1 {
      TakenFromAbove(taken, head, i + 1);
    }
  }

  /** What was read followed by the queue is everything offered, if and only if nothing was dropped. */
  lemma LosslessReadsAll(f: Feed)
    requires FeedOk(f)
    ensures Lossless(f) <==> Read(f) + Queued(f) == f.offered
  {
    if Lossless(f) {
      forall i | 0 <= i < |f.taken| ensures Read(f)[i] == f.offered[i] {
        TakenIsIdentity(f.taken, i);
        TakenFromAbove(f.taken, f.head, i);
      }
    } else {
      assert |Read(f) + Queued(f)| == |f.taken| + |f.offered| - f.head;
    }
  }

  // ---------------------------------------------------------------- any mix of publishes and reads

  datatype QueueOp = PutOp(chunk: LogChunk) | GetOp

  function Step(f: Feed, op: QueueOp, cap: nat): Feed
    requires f.head <= |f.offered|
  {
    match op
    case PutOp(x) => Push(f, x, cap)
    case GetOp => ReadOne(f)
  }

  lemma StepKeeps(f: Feed, op: QueueOp, cap: nat)
    requires FeedOk(f) && (cap > 0 ==> |Queued(f)| <= cap)
    ensures FeedOk(Step(f, op, cap)) && (cap > 0 ==> |Queued(Step(f, op, cap))| <= cap)
  {
  }

  function Steps(f: Feed, ops: seq<QueueOp>, cap: nat): (g: Feed)
    requires FeedOk(f) && (cap > 0 ==> |Queued(f)| <= cap)
    ensures FeedOk(g) && (cap > 0 ==> |Queued(g)| <= cap)
    decreases |ops|
  {
    if ops == [] then f
    else
      StepKeeps(f, ops[0], cap);
      Steps(Step(f, ops[0], cap), ops[1..], cap)
  }

  /** No publish of the sequence finds the queue full. */
  predicate NeverFull(f: Feed, ops: seq<QueueOp>, cap: nat)
    requires FeedOk(f) && (cap > 0 ==> |Queued(f)| <= cap)
    decreases |ops|
  {
    ops == [] ||
    ((ops[0].PutOp? && cap > 0 ==> |Queued(f)| < cap)
     && (StepKeeps(f, ops[0], cap); NeverFull(Step(f, ops[0], cap), ops[1..], cap)))
  }

  /** Over any mix of publishes and reads, what was read followed by the queue is everything offered, if and only if
      no publish found the queue full. */
  lemma {:induction false} NothingLostIffNeverFull(f: Feed, ops: seq<QueueOp>, cap: nat)
    requires FeedOk(f) && (cap > 0 ==> |Queued(f)| <= cap)
    ensures var g := Steps(f, ops, cap);
            Read(g) + Queued(g) == g.offered <==> Read(f) + Queued(f) == f.offered && NeverFull(f, ops, cap)
    decreases |ops|
  {
    if ops != [] {
      StepKeeps(f, ops[0], cap);
      LosslessReadsAll(f);
      LosslessReadsAll(Step(f, ops[0], cap));
      if ops[0].PutOp? {
        PushLoses(f, ops[0].chunk, cap);
      }
      NothingLostIffNeverFull(Step(f, ops[0], cap), ops[1..], cap);
    }
  }

  /** How many chunks of a stream were dropped among the positions from `lo` up to `hi`. */
  function DroppedOn(f: Feed, stream: Stream, lo: nat, hi: nat): nat
    requires lo <= hi <= |f.offered|
    decreases hi - lo
  {
    if lo == hi then 0
    else
      DroppedOn(f, stream, lo, hi - 1)
      + (if f.offered[hi - 1].stream == stream && hi - 1 < f.head && hi - 1 !in f.taken then 1 else 0)
  }

  lemma {:induction false} DroppedIsOnStream(f: Feed, stream: Stream, lo: nat, hi: nat)
    requires lo <= hi <= f.head <= |f.offered|
    requires forall p :: lo <= p < hi && f.offered[p].stream == stream ==> p !in f.taken
    ensures DroppedOn(f, stream, lo, hi) == OnStream(f.offered[lo..hi], stream)
    decreases hi - lo
  {
    if lo < hi {
      DroppedIsOnStream(f, stream, lo, hi - 1);
      assert f.offered[lo..hi][..hi - lo - 1] == f.offered[lo..hi - 1];
    }
  }

  lemma {:induction false} SequenceGap(log: seq<Pub>, job: JobId, i: nat, j: nat)
    requires i < j < |Chunks(log, job)| && Chunks(log, job)[i].stream == Chunks(log, job)[j].stream
    ensures var all := Chunks(log, job);
            all[j].sequence - all[i].sequence - 1 == OnStream(all[i + 1..j], all[i].stream)
  {
    var all := Chunks(log, job);
    NumberedFromOne(log, job, i);
    NumberedFromOne(log, job, j);
    var first, middle, last := all[..i + 1], all[i + 1..j], [all[j]];
    assert all[..j + 1] == (first + middle) + last;
    OnStreamConcat(first + middle, last, all[i].stream);
    OnStreamConcat(first, middle, all[i].stream);
    assert last[..0] == [];
  }

  lemma SliceOfTail<T>(all: seq<T>, mark: nat, lo: nat, hi: nat)
    requires mark <= |all| && lo <= hi <= |all| - mark
    ensures all[mark..][lo..hi] == all[mark + lo..mark + hi]
  {
  }

  /** With overflow: between two chunks read one after the other on a stream, the gap in their sequence numbers
      is exactly the number of chunks dropped on that stream. */
  lemma {:induction false} GapIsDropped(f: Feed, log: seq<Pub>, job: JobId, mark: nat, i: nat, j: nat)
    requires FeedOk(f) && mark <= |Chunks(log, job)| && f.offered == Chunks(log, job)[mark..]
    requires i < j < f.head && i in f.taken && j in f.taken && f.offered[i].stream == f.offered[j].stream
    requires forall p :: i < p < j && f.offered[p].stream == f.offered[i].stream ==> p !in f.taken
    ensures f.offered[j].sequence - f.offered[i].sequence - 1 == DroppedOn(f, f.offered[i].stream, i + 1, j)
  {
    var all, stream := Chunks(log, job), f.offered[i].stream;
    assert all[mark + i] == f.offered[i] && all[mark + j] == f.offered[j];
    SequenceGap(log, job, mark + i, mark + j);
    SliceOfTail(all, mark, i + 1, j);
    DroppedIsOnStream(f, stream, i + 1, j);
  }
}
