/** Derived queries of Spring Data repositories over tables held as values:
    a table keyed by id is a `map<nat, T>`, a table kept in insertion order is
    a `seq<T>`. */
module Tables {
  import opened Wrappers

  /** The row `save` writes an entity with id `posted` to. An entity whose
      id is set is merged: onto the row with that id when there is one, and
      otherwise inserted under the next generated id, as is an entity whose
      id is null. */
  function SaveKey<T>(m: map<nat, T>, posted: Option<nat>, next: nat): (k: nat)
    ensures posted.Some? && posted.value in m ==> k == posted.value
    ensures !(posted.Some? && posted.value in m) ==> k == next
  {
    if posted.Some? && posted.value in m then posted.value else next
  }

  /** A finder declared to return `Optional`: the id of the one row that
      matches, no id when none does, and an exception when several do. */
  function FindOne<T>(m: map<nat, T>, p: T -> bool): (r: Result<Option<nat>>)
    ensures r.Ok? && r.value.Some? ==>
      r.value.value in m && p(m[r.value.value]) &&
      forall k :: k in m && p(m[k]) ==> k == r.value.value
    ensures (r.Ok? && r.value.None?) <==> forall k :: k in m ==> !p(m[k])
    ensures r.Err? <==> exists j, k :: j in m && k in m && j != k && p(m[j]) && p(m[k])
    ensures r.Err? ==> r.error == NonUniqueResult
  {
    if exists j, k :: j in m && k in m && j != k && p(m[j]) && p(m[k]) then
      Err(NonUniqueResult)
    else if exists k :: k in m && p(m[k]) then
      var k :| k in m && p(m[k]);
      Ok(Some(k))
    else
      Ok(None)
  }

  /** Once at most one row can match, the finder returns that row's id. */
  lemma FindOneUnique<T>(m: map<nat, T>, p: T -> bool, k: nat)
    requires k in m && p(m[k])
    requires forall j :: j in m && p(m[j]) ==> j == k
    ensures FindOne(m, p) == Ok(Some(k))
  {
  }

  /** The same kind of finder over a table kept as a sequence: the one
      matching row, no row, or an exception when two positions match. */
  function FindUnique<T>(s: seq<T>, p: T -> bool): (r: Result<Option<T>>)
    ensures r.Ok? && r.value.Some? ==>
      p(r.value.value) && r.value.value in s &&
      forall i :: 0 <= i < |s| && p(s[i]) ==> s[i] == r.value.value
    ensures (r.Ok? && r.value.None?) <==> forall i :: 0 <= i < |s| ==> !p(s[i])
    ensures r.Err? <==> exists i, j :: 0 <= i < j < |s| && p(s[i]) && p(s[j])
    ensures r.Err? ==> r.error == NonUniqueResult
  {
    if exists i, j :: 0 <= i < j < |s| && p(s[i]) && p(s[j]) then
      Err(NonUniqueResult)
    else if exists i :: 0 <= i < |s| && p(s[i]) then
      var i :| 0 <= i < |s| && p(s[i]);
      Ok(Some(s[i]))
    else
      Ok(None)
  }
}
