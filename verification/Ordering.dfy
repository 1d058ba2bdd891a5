/**
 The orders jobs are listed and dispatched in. `sorted` is a stable sort; a reversed one is stable as well.
 A stable sort is characterised by what it keeps, so that the two sorts the dispatcher composes collapse.
 */
module Ordering {
  import opened Jobs

  /** The dispatcher's order: lower priority number first, then older first. */
  predicate Before(a: Row, b: Row) {
    a.priority < b.priority || (a.priority == b.priority && a.createdAt < b.createdAt)
  }

  /** The listing order of the repositories, and the order of dispatch. */
  datatype Order = NewestFirst | ByPriority

  predicate Less(o: Order, a: Row, b: Row) {
    match o
    case NewestFirst => b.createdAt < a.createdAt
    case ByPriority => Before(a, b)
  }

  predicate Tied(o: Order, a: Row, b: Row) {
    !Less(o, a, b) && !Less(o, b, a)
  }

  predicate Sorted(o: Order, s: seq<Row>) {
    forall i, j :: 0 <= i < j < |s| ==> !Less(o, s[j], s[i])
  }

  /** Insert in front of everything that is not smaller. */
  function Insert(o: Order, x: Row, s: seq<Row>): seq<Row> {
    if s == [] || !Less(o, s[0], x) then [x] + s else [s[0]] + Insert(o, x, s[1..])
  }

  function StableSort(o: Order, s: seq<Row>): seq<Row> {
    if s == [] then [] else Insert(o, s[0], StableSort(o, s[1..]))
  }

  /** The rows tied with x, in the order they have in s. */
  function Ties(o: Order, s: seq<Row>, x: Row): seq<Row> {
    if s == [] then []
    else if Tied(o, s[0], x) then [s[0]] + Ties(o, s[1..], x)
    else Ties(o, s[1..], x)
  }

  lemma {:induction false} InsertPermutes(o: Order, x: Row, s: seq<Row>)
    ensures multiset(Insert(o, x, s)) == multiset([x] + s)
  {
    if s != [] && Less(o, s[0], x) {
      InsertPermutes(o, x, s[1..]);
      assert s == [s[0]] + s[1..];
    }
  }

  lemma {:induction false} NotBelowHead(o: Order, x: Row, s: seq<Row>, rest: seq<Row>)
    requires Sorted(o, s) && s != [] && Less(o, s[0], x) && rest == Insert(o, x, s[1..])
    ensures forall j :: 0 <= j < |rest| ==> !Less(o, rest[j], s[0])
  {
    InsertPermutes(o, x, s[1..]);
    forall j | 0 <= j < |rest| ensures !Less(o, rest[j], s[0]) {
      assert rest[j] in multiset(rest);
      assert rest[j] == x || rest[j] in s[1..];
    }
  }

  lemma {:induction false} InsertSorted(o: Order, x: Row, s: seq<Row>)
    requires Sorted(o, s)
    ensures Sorted(o, Insert(o, x, s))
  {
    if s != [] && Less(o, s[0], x) {
      var rest := Insert(o, x, s[1..]);
      InsertSorted(o, x, s[1..]);
      NotBelowHead(o, x, s, rest);
    } else {
      assert forall j :: 1 <= j < |s| ==> !Less(o, s[j], s[0]);
    }
  }

  lemma {:induction false} InsertKeepsTies(o: Order, x: Row, s: seq<Row>, y: Row)
    requires Sorted(o, s)
    ensures Ties(o, Insert(o, x, s), y) == if Tied(o, x, y) then [x] + Ties(o, s, y) else Ties(o, s, y)
  {
    if s == [] || !Less(o, s[0], x) {
      assert ([x] + s)[1..] == s;
    } else {
      InsertKeepsTies(o, x, s[1..], y);
      assert Insert(o, x, s)[1..] == Insert(o, x, s[1..]);
      assert !(Tied(o, s[0], y) && Tied(o, x, y));
    }
  }

  /** A stable sort sorts, permutes, and keeps the order of rows that tie. */
  lemma {:induction false} StableSortSpec(o: Order, s: seq<Row>, y: Row)
    ensures Sorted(o, StableSort(o, s)) && multiset(StableSort(o, s)) == multiset(s)
    ensures Ties(o, StableSort(o, s), y) == Ties(o, s, y)
  {
    if s != [] {
      StableSortSpec(o, s[1..], y);
      InsertSorted(o, s[0], StableSort(o, s[1..]));
      InsertPermutes(o, s[0], StableSort(o, s[1..]));
      InsertKeepsTies(o, s[0], StableSort(o, s[1..]), y);
      assert s == [s[0]] + s[1..];
    }
  }

  lemma {:induction false} TiesNonEmpty(o: Order, s: seq<Row>, x: Row)
    ensures Ties(o, s, x) == [] <==> forall i :: 0 <= i < |s| ==> !Tied(o, s[i], x)
  {
    if s != [] {
      TiesNonEmpty(o, s[1..], x);
      if Tied(o, s[0], x) {
      } else {
        assert forall i :: 1 <= i < |s| ==> s[i] == s[1..][i - 1];
      }
    }
  }

  lemma {:induction false} SameHead(o: Order, a: seq<Row>, b: seq<Row>)
    requires Sorted(o, a) && Sorted(o, b) && a != []
    requires forall x :: Ties(o, a, x) == Ties(o, b, x)
    ensures b != [] && a[0] == b[0]
  {
    TiesNonEmpty(o, a, a[0]);
    TiesNonEmpty(o, b, a[0]);
    assert Ties(o, a, a[0])[0] == a[0];
    assert b != [];
    var i :| 0 <= i < |b| && Tied(o, b[i], a[0]);
    TiesNonEmpty(o, a, b[0]);
    TiesNonEmpty(o, b, b[0]);
    assert Ties(o, b, b[0])[0] == b[0];
    var j :| 0 <= j < |a| && Tied(o, a[j], b[0]);
    assert i == 0 || !Less(o, b[i], b[0]);
    assert j == 0 || !Less(o, a[j], a[0]);
    assert Tied(o, b[0], a[0]);
    assert Ties(o, b, a[0])[0] == b[0];
  }

  /** Two sorted lists that agree on every group of ties are equal. */
  lemma {:induction false} SortedUnique(o: Order, a: seq<Row>, b: seq<Row>)
    requires Sorted(o, a) && Sorted(o, b)
    requires forall x :: Ties(o, a, x) == Ties(o, b, x)
    ensures a == b
  {
    if a == [] {
      if b != [] {
        SameHead(o, b, a);
      }
    } else {
      SameHead(o, a, b);
      forall x ensures Ties(o, a[1..], x) == Ties(o, b[1..], x) {
        assert Ties(o, a, x) == Ties(o, b, x);
        if Tied(o, a[0], x) {
          assert Ties(o, a, x)[1..] == Ties(o, a[1..], x);
          assert Ties(o, b, x)[1..] == Ties(o, b[1..], x);
        }
      }
      SortedUnique(o, a[1..], b[1..]);
      assert a == [a[0]] + a[1..] && b == [b[0]] + b[1..];
    }
  }

  // ---------------------------------------------------------------- list newest first, then sort for dispatch

  function OfPriority(s: seq<Row>, x: Row): seq<Row> {
    if s == [] then []
    else if s[0].priority == x.priority then [s[0]] + OfPriority(s[1..], x)
    else OfPriority(s[1..], x)
  }

  lemma {:induction false} TiesWithinNewest(s: seq<Row>, x: Row)
    ensures Ties(ByPriority, s, x) == OfPriority(Ties(NewestFirst, s, x), x)
  {
    if s != [] {
      TiesWithinNewest(s[1..], x);
      if Tied(NewestFirst, s[0], x) {
        assert Ties(NewestFirst, s, x)[1..] == Ties(NewestFirst, s[1..], x);
      }
    }
  }

  /** The in-memory store lists newest first with a reversed stable sort; sorting that list for dispatch gives
      the stable sort of the submission order: among equals, first submitted is first dispatched. */
  lemma {:induction false} DispatchOrderKeepsSubmissionOrder(s: seq<Row>)
    ensures StableSort(ByPriority, StableSort(NewestFirst, s)) == StableSort(ByPriority, s)
  {
    var listed := StableSort(NewestFirst, s);
    forall x ensures Ties(ByPriority, StableSort(ByPriority, listed), x) == Ties(ByPriority, StableSort(ByPriority, s), x) {
      StableSortSpec(ByPriority, listed, x);
      StableSortSpec(ByPriority, s, x);
      StableSortSpec(NewestFirst, s, x);
      TiesWithinNewest(listed, x);
      TiesWithinNewest(s, x);
    }
    var x: Row :| true;
    StableSortSpec(ByPriority, listed, x);
    StableSortSpec(ByPriority, s, x);
    SortedUnique(ByPriority, StableSort(ByPriority, listed), StableSort(ByPriority, s));
  }

  // ---------------------------------------------------------------- repeatedly taking the first

  function Without(s: seq<Row>, id: JobId): seq<Row> {
    if s == [] then []
    else if s[0].jobId == id then Without(s[1..], id)
    else [s[0]] + Without(s[1..], id)
  }

  predicate DistinctIds(s: seq<Row>) {
    forall i, j :: 0 <= i < j < |s| ==> s[i].jobId != s[j].jobId
  }

  lemma {:induction false} WithoutAbsent(s: seq<Row>, id: JobId)
    requires forall i :: 0 <= i < |s| ==> s[i].jobId != id
    ensures Without(s, id) == s
  {
    if s != [] {
      WithoutAbsent(s[1..], id);
    }
  }

  lemma {:induction false} TiesWithoutFirst(o: Order, s: seq<Row>, h: Row, x: Row)
    requires DistinctIds(s) && Ties(o, s, h) != [] && Ties(o, s, h)[0] == h
    ensures Tied(o, h, x) ==> Ties(o, s, x) != []
    ensures Ties(o, Without(s, h.jobId), x) == if Tied(o, h, x) then Ties(o, s, x)[1..] else Ties(o, s, x)
  {
    if Tied(o, s[0], h) {
      assert s[0] == h;
      WithoutAbsent(s[1..], h.jobId);
      assert Without(s, h.jobId) == s[1..];
    } else {
      if s[0].jobId == h.jobId {
        HeadOfTiesIsMember(o, s[1..], h);
      } else {
        TiesWithoutFirst(o, s[1..], h, x);
        assert Without(s, h.jobId) == [s[0]] + Without(s[1..], h.jobId);
        assert !(Tied(o, s[0], x) && Tied(o, h, x));
      }
    }
  }

  lemma {:induction false} HeadOfTiesIsMember(o: Order, s: seq<Row>, h: Row)
    requires Ties(o, s, h) != []
    ensures Ties(o, s, h)[0] in s
  {
    if !Tied(o, s[0], h) {
      HeadOfTiesIsMember(o, s[1..], h);
      assert s[1..][0..] == s[1..];
    }
  }

  /** Taking the first job and sorting the rest again is the rest of the sorted list. */
  lemma {:induction false} SortAfterTakingFirst(o: Order, s: seq<Row>)
    requires DistinctIds(s) && s != []
    ensures StableSort(o, s) != []
    ensures StableSort(o, Without(s, StableSort(o, s)[0].jobId)) == StableSort(o, s)[1..]
  {
    var all := StableSort(o, s);
    StableSortSpec(o, s, s[0]);
    assert |multiset(all)| == |multiset(s)|;
    var h := all[0];
    StableSortSpec(o, s, h);
    var rest := Without(s, h.jobId);
    forall x ensures Ties(o, StableSort(o, rest), x) == Ties(o, all[1..], x) {
      StableSortSpec(o, rest, x);
      StableSortSpec(o, s, x);
      TiesWithoutFirst(o, s, h, x);
    }
    StableSortSpec(o, rest, h);
    SortedUnique(o, StableSort(o, rest), all[1..]);
  }

  /** The order in which a drained agent gets its jobs: always the first of what is left. */
  function TakeFirsts(o: Order, s: seq<Row>, n: nat): seq<Row>
    decreases n
  {
    if n == 0 || StableSort(o, s) == [] then []
    else [StableSort(o, s)[0]] + TakeFirsts(o, Without(s, StableSort(o, s)[0].jobId), n - 1)
  }

  lemma {:induction false} WithoutDistinct(s: seq<Row>, id: JobId)
    requires DistinctIds(s)
    ensures DistinctIds(Without(s, id)) && |Without(s, id)| <= |s|
    ensures forall r :: r in Without(s, id) <==> r in s && r.jobId != id
  {
    if s != [] {
      WithoutDistinct(s[1..], id);
      var w := Without(s[1..], id);
      forall j | 0 <= j < |w| ensures w[j].jobId != s[0].jobId {
        assert w[j] in s[1..];
      }
      assert forall r :: r in s <==> r == s[0] || r in s[1..];
    }
  }

  lemma {:induction false} WithoutOne(s: seq<Row>, r: Row)
    requires DistinctIds(s) && r in s
    ensures |Without(s, r.jobId)| == |s| - 1
  {
    if s[0] == r {
      WithoutAbsent(s[1..], r.jobId);
    } else {
      assert r in s[1..];
      WithoutOne(s[1..], r);
    }
  }

  lemma {:induction false} DrainingSorts(o: Order, s: seq<Row>)
    requires DistinctIds(s)
    ensures TakeFirsts(o, s, |s|) == StableSort(o, s)
    decreases |s|
  {
    if s != [] {
      SortAfterTakingFirst(o, s);
      var h := StableSort(o, s)[0];
      var rest := Without(s, h.jobId);
      WithoutDistinct(s, h.jobId);
      StableSortSpec(o, s, h);
      StableSortSpec(o, rest, h);
      assert |multiset(StableSort(o, rest))| == |multiset(rest)| && |multiset(StableSort(o, s))| == |multiset(s)|;
      assert |rest| == |s| - 1;
      DrainingSorts(o, rest);
    }
  }
}
