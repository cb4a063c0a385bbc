/** src/users, the two pure helpers on branch lists: normalisation and the existence count. */
module BranchLists {
  import opened Common
  import opened Schema

  /** White space as `String.prototype.trim` removes it. */
  predicate IsSpace(c: char) {
    || '\t' <= c <= '\r' || c == ' ' || c == '\U{A0}' || c == '\U{1680}' || '\U{2000}' <= c <= '\U{200A}'
    || c == '\U{2028}' || c == '\U{2029}' || c == '\U{202F}' || c == '\U{205F}' || c == '\U{3000}' || c == '\U{FEFF}'
  }

  predicate Blank(id: Id) {
    forall k :: 0 <= k < |id| ==> IsSpace(id[k])
  }

  ghost predicate Distinct(ids: seq<Id>) {
    forall i, j :: 0 <= i < j < |ids| ==> ids[i] != ids[j]
  }

  /** The non-blank ids, each where it occurs first. */
  function NormalizeBranchIds(ids: seq<Id>): (r: seq<Id>)
    ensures Distinct(r)
    ensures forall x :: x in r <==> x in ids && !Blank(x)
  {
    if ids == [] then []
    else
      var x := ids[|ids| - 1];
      var r := NormalizeBranchIds(ids[..|ids| - 1]);
      assert ids == ids[..|ids| - 1] + [x];
      if Blank(x) || x in r then r else r + [x]
  }

  function FirstIndex(ids: seq<Id>, x: Id): (k: nat)
    requires x in ids
    ensures k < |ids| && ids[k] == x && x !in ids[..k]
  {
    if ids[0] == x then 0 else 1 + FirstIndex(ids[1..], x)
  }

  /** Normalisation keeps the order of first occurrences. */
  lemma {:induction false} NormalizationKeepsOrder(ids: seq<Id>, i: nat, j: nat)
    requires i < j < |NormalizeBranchIds(ids)|
    ensures NormalizeBranchIds(ids)[i] in ids && NormalizeBranchIds(ids)[j] in ids
    ensures FirstIndex(ids, NormalizeBranchIds(ids)[i]) < FirstIndex(ids, NormalizeBranchIds(ids)[j])
  {
    var n := |ids| - 1;
    var r, init := NormalizeBranchIds(ids), NormalizeBranchIds(ids[..n]);
    assert ids == ids[..n] + [ids[n]];
    if j < |init| {
      NormalizationKeepsOrder(ids[..n], i, j);
      FirstIndexInPrefix(ids, n, r[i]);
      FirstIndexInPrefix(ids, n, r[j]);
    } else {
      FirstIndexInPrefix(ids, n, r[i]);
      assert r[j] == ids[n] && r[j] !in init;
      assert r[j] !in ids[..n];
    }
  }

  lemma {:induction false} FirstIndexIs(ids: seq<Id>, x: Id, k: nat)
    requires k < |ids| && ids[k] == x && x !in ids[..k]
    ensures FirstIndex(ids, x) == k
  {
    if k > 0 {
      assert ids[..k] == [ids[0]] + ids[1..][..k - 1];
      FirstIndexIs(ids[1..], x, k - 1);
    }
  }

  lemma FirstIndexInPrefix(ids: seq<Id>, n: nat, x: Id)
    requires n <= |ids| && x in ids[..n]
    ensures x in ids && FirstIndex(ids, x) == FirstIndex(ids[..n], x)
  {
    var m := FirstIndex(ids[..n], x);
    assert ids[..n][..m] == ids[..m];
    FirstIndexIs(ids, x, m);
  }

  lemma {:induction false} NormalizedIsFixed(ids: seq<Id>)
    requires Distinct(ids) && forall x :: x in ids ==> !Blank(x)
    ensures NormalizeBranchIds(ids) == ids
  {
    if ids != [] {
      var n := |ids| - 1;
      assert ids == ids[..n] + [ids[n]];
      assert forall x :: x in ids[..n] ==> x in ids;
      NormalizedIsFixed(ids[..n]);
    }
  }

  lemma NormalizationIsIdempotent(ids: seq<Id>)
    ensures NormalizeBranchIds(NormalizeBranchIds(ids)) == NormalizeBranchIds(ids)
  {
    NormalizedIsFixed(NormalizeBranchIds(ids));
  }

  /** `branch.count({ tenantId, deletedAt: null, id: { in: branchIds } })` */
  function BranchCount(branches: map<Id, Branch>, tenantId: Id, ids: seq<Id>): nat {
    |set i | i in ids && LiveBranch(branches, tenantId, i)|
  }

  /** `assertBranchesExist`: the count equals the length. */
  predicate BranchesExist(branches: map<Id, Branch>, tenantId: Id, ids: seq<Id>) {
    |ids| == 0 || BranchCount(branches, tenantId, ids) == |ids|
  }

  /** A list has as many different ids as entries exactly when it has no duplicates, and never more. */
  lemma {:induction false} DistinctCardinality(ids: seq<Id>)
    ensures |set i | i in ids| <= |ids|
    ensures |set i | i in ids| == |ids| <==> Distinct(ids)
  {
    if ids != [] {
      var n := |ids| - 1;
      var all, init := set i | i in ids, set i | i in ids[..n];
      DistinctCardinality(ids[..n]);
      assert ids == ids[..n] + [ids[n]];
      assert all == init + {ids[n]};
      assert Distinct(ids) <==> Distinct(ids[..n]) && ids[n] !in init;
    }
  }

  lemma EqualSizeSubset<T>(small: set<T>, big: set<T>)
    requires small <= big && |small| == |big|
    ensures small == big
  {
    assert |big - small| == |big| - |small|;
  }

  /** Exactly when the count test passes: every id names a live branch of the tenant, and no id comes twice. */
  lemma CountIsExact(branches: map<Id, Branch>, tenantId: Id, ids: seq<Id>)
    ensures BranchesExist(branches, tenantId, ids) <==>
      (forall i :: i in ids ==> LiveBranch(branches, tenantId, i)) && Distinct(ids)
  {
    var all := set i | i in ids;
    var live := set i | i in ids && LiveBranch(branches, tenantId, i);
    DistinctCardinality(ids);
    assert |all - live| == |all| - |live|;
    if |live| == |ids| {
      EqualSizeSubset(live, all);
      assert forall i :: i in ids ==> i in all;
    }
    if forall i :: i in ids ==> LiveBranch(branches, tenantId, i) {
      assert live == all;
    }
  }

  /** On a normalised list the count test therefore passes exactly when every id names a live branch of the tenant. */
  lemma CountIsSound(branches: map<Id, Branch>, tenantId: Id, ids: seq<Id>)
    ensures BranchesExist(branches, tenantId, NormalizeBranchIds(ids)) <==>
      forall i :: i in ids && !Blank(i) ==> LiveBranch(branches, tenantId, i)
  {
    CountIsExact(branches, tenantId, NormalizeBranchIds(ids));
  }
}
