/** Names that are not in use yet. There always are some. */
module FreshNames {
  import opened Jobs

  lemma {:induction false} LengthBound(used: set<string>) returns (n: nat)
    ensures forall u :: u in used ==> |u| <= n
    decreases |used|
  {
    n := 0;
    if used != {} {
      var u :| u in used;
      var m := LengthBound(used - {u});
      n := if |u| > m then |u| else m;
      assert forall v :: v in used ==> v == u || v in used - {u};
    }
  }

  lemma FreshText(used: set<string>) returns (text: string)
    ensures text != "" && text !in used
  {
    var n := LengthBound(used);
    text := seq(n + 1, i => 'x');
    assert |text| == n + 1;
  }

  lemma FreshJob(used: set<JobId>) returns (id: JobId)
    ensures id !in used
  {
    var text := FreshText(set u | u in used :: u.text);
    id := JobId(text);
  }
}
