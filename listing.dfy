/** GET /api/contracts: filter the list, then sort it newest first in place. */
module Listing {
  import opened Values
  import opened Records
  import opened Filters

  /** Ordered by `createdAt`, descending. */
  predicate NewestFirst(s: seq<Contract>) {
    forall i, j :: 0 <= i < j < |s| ==> s[i].createdAt >= s[j].createdAt
  }

  /** The records created at any one time appear in the same relative order
      in both sequences (what a stable sort keeps). */
  ghost predicate SameTimeOrder(s: seq<Contract>, t: seq<Contract>) {
    forall time :: Where(s, CreatedAtIs(time)) == Where(t, CreatedAtIs(time))
  }

  /** Exchanging two neighbours with different creation times keeps every
      same-time group in order. */
  lemma SwapKeepsTimeOrder(s: seq<Contract>, j: nat)
    requires 0 < j < |s| && s[j - 1].createdAt != s[j].createdAt
    ensures SameTimeOrder(s[j - 1 := s[j]][j := s[j - 1]], s)
  {
    var t := s[j - 1 := s[j]][j := s[j - 1]];
    var pre, x, y, post := s[..j - 1], s[j - 1], s[j], s[j + 1..];
    assert s == pre + [x, y] + post;
    assert t == pre + [y, x] + post;
    forall time
      ensures Where(t, CreatedAtIs(time)) == Where(s, CreatedAtIs(time))
    {
      var p := CreatedAtIs(time);
      WhereAppend(pre + [x, y], post, p);
      WhereAppend(pre, [x, y], p);
      WhereAppend(pre + [y, x], post, p);
      WhereAppend(pre, [y, x], p);
      assert [x, y][1..] == [y] && [y, x][1..] == [x];
      assert Where([x, y], p) == Where([y, x], p);
    }
  }

  /** `contracts.sort((a, b) => b.createdAt - a.createdAt)`, which is stable:
      the array ends newest first, as a permutation of what it held, with
      records of equal creation time in their original order. */
  method SortNewestFirst(a: array<Contract>)
    modifies a
    ensures NewestFirst(a[..])
    ensures multiset(a[..]) == multiset(old(a[..]))
    ensures SameTimeOrder(a[..], old(a[..]))
  {
    var i := 0;
    while i < a.Length
      invariant 0 <= i <= a.Length
      invariant NewestFirst(a[..i])
      invariant multiset(a[..]) == multiset(old(a[..]))
      invariant SameTimeOrder(a[..], old(a[..]))
    {
      InsertNewestFirst(a, i);
      i := i + 1;
    }
  }

  /** One insertion step: moves `a[i]` left past every strictly older record,
      so that `a[..i + 1]` is newest first. */
  method InsertNewestFirst(a: array<Contract>, i: nat)
    requires i < a.Length
    requires NewestFirst(a[..i])
    modifies a
    ensures NewestFirst(a[..i + 1])
    ensures multiset(a[..]) == multiset(old(a[..]))
    ensures SameTimeOrder(a[..], old(a[..]))
  {
    ghost var orig := a[..];
    var j := i;
    InsertionStart(a[..], i);
    while j > 0 && a[j - 1].createdAt < a[j].createdAt
      invariant 0 <= j <= i && |orig| == a.Length
      invariant Inserting(a[..], i, j) && Rearranged(a[..], orig)
    {
      ghost var s := a[..];
      InsertionStep(s, orig, i, j);
      a[j - 1], a[j] := a[j], a[j - 1];
      assert a[..] == s[j - 1 := s[j]][j := s[j - 1]];
      j := j - 1;
    }
    InsertionDone(a[..], i, j);
  }

  /** A permutation of `orig` that keeps every same-time group in order. */
  ghost predicate Rearranged(s: seq<Contract>, orig: seq<Contract>) {
    multiset(s) == multiset(orig) && SameTimeOrder(s, orig)
  }

  /** The state of an insertion of `s[j]` into the newest-first prefix
      `s[..i + 1]`: apart from position `j` the prefix is newest first, and
      `s[j]` is strictly newer than everything it has passed. */
  ghost predicate Inserting(s: seq<Contract>, i: nat, j: nat) {
    && j <= i < |s|
    && (forall k, l :: 0 <= k < l <= i && k != j && l != j ==> s[k].createdAt >= s[l].createdAt)
    && (forall l :: j < l <= i ==> s[j].createdAt > s[l].createdAt)
  }

  lemma InsertionStart(s: seq<Contract>, i: nat)
    requires i < |s| && NewestFirst(s[..i])
    ensures Inserting(s, i, i)
  {
  }

  lemma InsertionStep(s: seq<Contract>, orig: seq<Contract>, i: nat, j: nat)
    requires 0 < j && Inserting(s, i, j) && s[j - 1].createdAt < s[j].createdAt && Rearranged(s, orig)
    ensures Inserting(s[j - 1 := s[j]][j := s[j - 1]], i, j - 1)
    ensures Rearranged(s[j - 1 := s[j]][j := s[j - 1]], orig)
  {
    InsertionOrder(s, i, j);
    SwapRearranges(s, orig, j);
  }

  lemma InsertionOrder(s: seq<Contract>, i: nat, j: nat)
    requires 0 < j && Inserting(s, i, j) && s[j - 1].createdAt < s[j].createdAt
    ensures Inserting(s[j - 1 := s[j]][j := s[j - 1]], i, j - 1)
  {
  }

  lemma SwapRearranges(s: seq<Contract>, orig: seq<Contract>, j: nat)
    requires 0 < j < |s| && s[j - 1].createdAt != s[j].createdAt && Rearranged(s, orig)
    ensures Rearranged(s[j - 1 := s[j]][j := s[j - 1]], orig)
  {
    var t := s[j - 1 := s[j]][j := s[j - 1]];
    SwapKeepsTimeOrder(s, j);
    SameTimeOrderTransitive(t, s, orig);
    assert multiset(t) == multiset(s);
  }

  lemma InsertionDone(s: seq<Contract>, i: nat, j: nat)
    requires Inserting(s, i, j) && (j == 0 || s[j - 1].createdAt >= s[j].createdAt)
    ensures NewestFirst(s[..i + 1])
  {
  }

  lemma SameTimeOrderTransitive(s: seq<Contract>, t: seq<Contract>, u: seq<Contract>)
    requires SameTimeOrder(s, t) && SameTimeOrder(t, u)
    ensures SameTimeOrder(s, u)
  {
  }

  /** Newest first plus stable pins the order down: two orderings of the
      same records that are both newest first and keep every same-time group
      in the same order are equal, so the list handler's answer is unique. */
  lemma {:induction false} StableNewestFirstUnique(r1: seq<Contract>, r2: seq<Contract>)
    requires NewestFirst(r1) && NewestFirst(r2) && SameTimeOrder(r1, r2)
    ensures r1 == r2
    decreases |r1|
  {
    NoneOnOneSide(r1, r2);
    if r1 != [] {
      SameHeads(r1, r2);
      StableNewestFirstUnique(r1[1..], r2[1..]);
      assert r1 == [r1[0]] + r1[1..] && r2 == [r2[0]] + r2[1..];
    }
  }

  lemma NoneOnOneSide(r1: seq<Contract>, r2: seq<Contract>)
    requires SameTimeOrder(r1, r2)
    ensures r1 == [] <==> r2 == []
  {
    if r2 != [] {
      assert Where(r2, CreatedAtIs(r2[0].createdAt)) != [];
      assert Where(r1, CreatedAtIs(r2[0].createdAt)) != [];
    }
    if r1 != [] {
      assert Where(r1, CreatedAtIs(r1[0].createdAt)) != [];
      assert Where(r2, CreatedAtIs(r1[0].createdAt)) != [];
    }
  }

  lemma SameHeads(r1: seq<Contract>, r2: seq<Contract>)
    requires NewestFirst(r1) && NewestFirst(r2) && SameTimeOrder(r1, r2) && r1 != [] && r2 != []
    ensures r1[0] == r2[0] && SameTimeOrder(r1[1..], r2[1..])
  {
    var x, y := r1[0], r2[0];
    HeadOfTimeGroup(r1);
    HeadOfTimeGroup(r2);
    assert Where(r1, CreatedAtIs(x.createdAt)) == Where(r2, CreatedAtIs(x.createdAt));
    WhereElement(r2, CreatedAtIs(x.createdAt), x);
    assert Where(r1, CreatedAtIs(y.createdAt)) == Where(r2, CreatedAtIs(y.createdAt));
    WhereElement(r1, CreatedAtIs(y.createdAt), y);
    assert x.createdAt == y.createdAt;
    var group := Where(r1, CreatedAtIs(x.createdAt));
    assert group[0] == x && group[0] == y;
    forall time
      ensures Where(r1[1..], CreatedAtIs(time)) == Where(r2[1..], CreatedAtIs(time))
    {
      assert Where(r1, CreatedAtIs(time)) == Where(r2, CreatedAtIs(time));
      if time == x.createdAt {
        assert Where(r1[1..], CreatedAtIs(time)) == group[1..];
        assert Where(r2[1..], CreatedAtIs(time)) == group[1..];
      }
    }
  }

  lemma WhereElement(s: seq<Contract>, p: Contract -> bool, x: Contract)
    requires x in Where(s, p)
    ensures x in s && p(x)
  {
  }

  /** The first record of a newest-first sequence heads its time group, and
      a newer time has no records at all. */
  lemma HeadOfTimeGroup(r: seq<Contract>)
    requires NewestFirst(r) && r != []
    ensures Where(r, CreatedAtIs(r[0].createdAt)) == [r[0]] + Where(r[1..], CreatedAtIs(r[0].createdAt))
    ensures forall time :: time != r[0].createdAt ==> Where(r, CreatedAtIs(time)) == Where(r[1..], CreatedAtIs(time))
    ensures forall c :: c in r ==> c.createdAt <= r[0].createdAt
  {
  }

  /** The list handler: the records matching every non-empty filter, newest
      first, records of equal creation time in stored order. */
  method ListContracts(contracts: seq<Contract>, agencyCode: Option<string>, phase: Option<string>)
    returns (r: seq<Contract>)
    ensures NewestFirst(r)
    ensures multiset(r) == multiset(Matching(contracts, agencyCode, phase))
    ensures SameTimeOrder(r, Matching(contracts, agencyCode, phase))
  {
    var selected := contracts;
    if Truthy(agencyCode) {
      selected := Where(selected, AgencyIs(agencyCode.value));
    }
    if Truthy(phase) {
      selected := Where(selected, PhaseIs(phase.value));
    }
    var a := new Contract[|selected|](i requires 0 <= i < |selected| => selected[i]);
    assert a[..] == selected;
    SortNewestFirst(a);
    r := a[..];
  }
}
