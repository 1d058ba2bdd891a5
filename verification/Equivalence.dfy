/** The in-memory and the SQLite repository cannot be told apart through JobService, up to ties in listings. */
module Equivalence {
  import opened Jobs
  import opened Ordering
  import opened Store
  import opened Repositories
  import opened JobServices

  /** Submitted ids are fresh and submitted rows new, all along a sequence of calls. */
  predicate FreshCalls(t: Table, calls: seq<Call>)
    decreases |calls|
  {
    calls == [] ||
    (FreshCall(t, calls[0])
     && (calls[0].Submit? ==>
           var j := calls[0].job;
           j == NewRow(j.jobId, j.agentId, j.request, j.timeoutMs, j.key, j.priority, j.createdAt, j.updatedAt))
     && FreshCalls(Exec(t, calls[0]), calls[1..]))
  }

  function ExecAll(t: Table, calls: seq<Call>): Table
    decreases |calls|
  {
    if calls == [] then t else ExecAll(Exec(t, calls[0]), calls[1..])
  }

  function Replies(t: Table, calls: seq<Call>): seq<Option<Row>>
    decreases |calls|
  {
    if calls == [] then [] else [Reply(t, calls[0])] + Replies(Exec(t, calls[0]), calls[1..])
  }

  /** A sequence of calls on either kind of service behaves as its specification says. */
  method PerformAll(service: JobService, calls: seq<Call>) returns (replies: seq<Option<Row>>)
    requires service.Valid() && FreshCalls(service.Contents(), calls)
    modifies service.Repr()
    ensures service.Valid() && fresh(service.Repr() - old(service.Repr()))
    ensures service.Contents() == ExecAll(old(service.Contents()), calls)
    ensures replies == Replies(old(service.Contents()), calls)
  {
    replies := [];
    var rest := calls;
    while rest != []
      invariant service.Valid() && fresh(service.Repr() - old(service.Repr()))
      invariant FreshCalls(service.Contents(), rest)
      invariant ExecAll(service.Contents(), rest) == ExecAll(old(service.Contents()), calls)
      invariant replies + Replies(service.Contents(), rest) == Replies(old(service.Contents()), calls)
      decreases |rest|
    {
      ghost var todo := Replies(service.Contents(), rest);
      var reply := service.Perform(rest[0]);
      assert replies + todo == replies + [reply] + Replies(service.Contents(), rest[1..]);
      replies := replies + [reply];
      rest := rest[1..];
    }
  }

  function Ages(rows: seq<Row>): seq<int> {
    if rows == [] then [] else [rows[0].createdAt] + Ages(rows[1..])
  }

  predicate SameUpToTies(a: seq<Row>, b: seq<Row>) {
    multiset(a) == multiset(b) && Ages(a) == Ages(b)
  }

  lemma {:induction false} AgesAppend(a: seq<Row>, b: seq<Row>)
    ensures Ages(a + b) == Ages(a) + Ages(b)
  {
    if a == [] {
      assert a + b == b;
    } else {
      assert (a + b)[1..] == a[1..] + b;
      AgesAppend(a[1..], b);
    }
  }

  lemma Cancel<T>(x: T, m: multiset<T>, n: multiset<T>)
    requires multiset{x} + m == multiset{x} + n
    ensures m == n
  {
    assert multiset{x} + m - multiset{x} == m && multiset{x} + n - multiset{x} == n;
  }

  /** A row taken out of a list. */
  lemma {:induction false} TakenOut(b: seq<Row>, i: nat, rest: seq<Row>)
    requires i < |b| && rest == b[..i] + b[i + 1..]
    ensures multiset(b) == multiset{b[i]} + multiset(rest)
    ensures multiset(Ages(b)) == multiset{b[i].createdAt} + multiset(Ages(rest))
  {
    assert b == b[..i] + ([b[i]] + b[i + 1..]);
    AgesAppend(b[..i], b[i + 1..]);
    AgesAppend(b[..i], [b[i]] + b[i + 1..]);
    assert Ages([b[i]] + b[i + 1..]) == [b[i].createdAt] + Ages(b[i + 1..]);
  }

  /** Permuted lists have permuted creation times. */
  lemma {:induction false} PermutedAges(a: seq<Row>, b: seq<Row>)
    requires multiset(a) == multiset(b)
    ensures multiset(Ages(a)) == multiset(Ages(b))
  {
    if a == [] {
      assert |multiset(b)| == 0;
    } else {
      assert a[0] in multiset(b);
      var i :| 0 <= i < |b| && b[i] == a[0];
      var rest := b[..i] + b[i + 1..];
      TakenOut(a, 0, a[..0] + a[1..]);
      assert a[..0] + a[1..] == a[1..];
      TakenOut(b, i, rest);
      Cancel(a[0], multiset(a[1..]), multiset(rest));
      PermutedAges(a[1..], rest);
    }
  }

  /** No two different jobs of the list have the same age. */
  predicate DistinctAges(rows: seq<Row>) {
    forall x, y :: x in rows && y in rows && x.createdAt == y.createdAt ==> x == y
  }

  predicate Descending(s: seq<int>) {
    forall i, j :: 0 <= i < j < |s| ==> s[i] >= s[j]
  }

  lemma {:induction false} AgesDescend(rows: seq<Row>)
    requires Sorted(NewestFirst, rows)
    ensures |Ages(rows)| == |rows| && Descending(Ages(rows))
    ensures forall i :: 0 <= i < |rows| ==> Ages(rows)[i] == rows[i].createdAt
  {
    if rows != [] {
      AgesDescend(rows[1..]);
      assert forall i :: 1 <= i < |rows| ==> rows[i] == rows[1..][i - 1] && Ages(rows)[i] == Ages(rows[1..])[i - 1];
      assert forall i :: 1 <= i < |rows| ==> !Less(NewestFirst, rows[i], rows[0]);
    }
  }

  lemma {:induction false} DescendingUnique(a: seq<int>, b: seq<int>)
    requires Descending(a) && Descending(b) && multiset(a) == multiset(b)
    ensures a == b
  {
    if a == [] {
      assert |multiset(b)| == 0;
    } else {
      assert |multiset(a)| == |a| && |multiset(b)| == |b|;
      assert a[0] in multiset(b) && b[0] in multiset(a);
      assert a == [a[0]] + a[1..] && b == [b[0]] + b[1..];
      assert a[0] == b[0];
      assert multiset(a) == multiset{a[0]} + multiset(a[1..]) && multiset(b) == multiset{b[0]} + multiset(b[1..]);
      Cancel(a[0], multiset(a[1..]), multiset(b[1..]));
      DescendingUnique(a[1..], b[1..]);
    }
  }

  /** Two newest-first listings of the same rows agree up to ties in creation time, and fully without ties. */
  lemma ListingsAgree(a: seq<Row>, b: seq<Row>)
    requires Sorted(NewestFirst, a) && Sorted(NewestFirst, b) && multiset(a) == multiset(b)
    ensures SameUpToTies(a, b)
    ensures DistinctAges(a) ==> a == b
  {
    PermutedAges(a, b);
    AgesDescend(a);
    AgesDescend(b);
    DescendingUnique(Ages(a), Ages(b));
    if DistinctAges(a) {
      forall i | 0 <= i < |a| ensures a[i] == b[i] {
        assert b[i] in multiset(b) && b[i] in multiset(a) && b[i] in a;
        assert a[i].createdAt == Ages(a)[i] == Ages(b)[i] == b[i].createdAt;
      }
    }
  }

  method PerformBoth(memory: JobService, sqlite: JobService, calls: seq<Call>)
    returns (inMemory: seq<Option<Row>>, inSqlite: seq<Option<Row>>)
    requires memory.backend.Memory? && sqlite.backend.Sqlite?
    requires memory.Valid() && sqlite.Valid() && memory.Repr() !! sqlite.Repr()
    requires FreshCalls(memory.Contents(), calls) && FreshCalls(sqlite.Contents(), calls)
    modifies memory.Repr(), sqlite.Repr()
    ensures memory.Valid() && sqlite.Valid()
    ensures inMemory == Replies(old(memory.Contents()), calls) && inSqlite == Replies(old(sqlite.Contents()), calls)
    ensures memory.Contents() == ExecAll(old(memory.Contents()), calls)
    ensures sqlite.Contents() == ExecAll(old(sqlite.Contents()), calls)
  {
    ghost var m := memory.backend.memory;
    inSqlite := PerformAll(sqlite, calls);
    assert m.Repr() == old(m.Repr()) && m.Contents() == old(m.Contents());
    inMemory := PerformAll(memory, calls);
  }

  /** A listing of each, from the same contents. */
  method ListBoth(memory: JobService, sqlite: JobService, agent: Option<AgentId>, state: Option<JobState>)
    returns (inMemory: seq<Job>, inSqlite: seq<Job>)
    requires memory.backend.Memory? && sqlite.backend.Sqlite? && memory.Valid() && sqlite.Valid()
    requires memory.Contents() == sqlite.Contents()
    ensures var t := old(memory.Contents());
            && Views(inMemory) == StableSort(NewestFirst, Matching(t.rows, t.order, agent, state))
            && Sorted(NewestFirst, Views(inMemory)) && Sorted(NewestFirst, Views(inSqlite))
            && multiset(Views(inSqlite)) == multiset(Views(inMemory))
  {
    inMemory := memory.List(agent, state);
    ghost var rows := Views(inMemory);
    inSqlite := sqlite.List(agent, state);
    assert Views(inMemory) == rows;
  }

  /** The listings change nothing. */
  method ListAfterwards(memory: JobService, sqlite: JobService, agent: Option<AgentId>, state: Option<JobState>)
    returns (inMemory: seq<Job>, inSqlite: seq<Job>)
    requires memory.backend.Memory? && sqlite.backend.Sqlite? && memory.Valid() && sqlite.Valid()
    requires memory.Contents() == sqlite.Contents()
    ensures memory.Valid() && sqlite.Valid()
    ensures memory.Contents() == old(memory.Contents()) && sqlite.Contents() == old(sqlite.Contents())
    ensures var t := memory.Contents();
            && Views(inMemory) == StableSort(NewestFirst, Matching(t.rows, t.order, agent, state))
            && Sorted(NewestFirst, Views(inMemory)) && Sorted(NewestFirst, Views(inSqlite))
            && multiset(Views(inSqlite)) == multiset(Views(inMemory))
  {
    ghost var m, t := memory.backend.memory, memory.Contents();
    inMemory, inSqlite := ListBoth(memory, sqlite, agent, state);
    assert m.Contents() == t;
  }

  /** The same calls on a service over each repository, from the same contents: the same replies, the same contents
      afterwards, and listings of that under any filter which agree up to ties - wholly, if no two listed jobs have
      the same age. */
  method CompareBackends(memory: JobService, sqlite: JobService, calls: seq<Call>, agent: Option<AgentId>,
                         state: Option<JobState>)
    returns (inMemory: seq<Option<Row>>, inSqlite: seq<Option<Row>>, listedInMemory: seq<Job>, listedInSqlite: seq<Job>)
    requires memory.backend.Memory? && sqlite.backend.Sqlite? && memory.Valid() && sqlite.Valid()
    requires memory.Repr() !! sqlite.Repr() && memory.Contents() == sqlite.Contents()
    requires FreshCalls(memory.Contents(), calls)
    modifies memory.Repr(), sqlite.Repr()
    ensures memory.Valid() && sqlite.Valid()
    ensures inMemory == Replies(old(memory.Contents()), calls) && inSqlite == inMemory
    ensures memory.Contents() == ExecAll(old(memory.Contents()), calls) && sqlite.Contents() == memory.Contents()
    ensures Views(listedInMemory) ==
              StableSort(NewestFirst, Matching(memory.Contents().rows, memory.Contents().order, agent, state))
    ensures multiset(Views(listedInSqlite)) == multiset(Views(listedInMemory))
    ensures SameUpToTies(Views(listedInMemory), Views(listedInSqlite))
    ensures DistinctAges(Views(listedInMemory)) ==> Views(listedInMemory) == Views(listedInSqlite)
  {
    inMemory, inSqlite := PerformBoth(memory, sqlite, calls);
    listedInMemory, listedInSqlite := ListAfterwards(memory, sqlite, agent, state);
    ListingsAgree(Views(listedInMemory), Views(listedInSqlite));
  }
}
