/** `Array.prototype.filter` and the filters the list and statistics handlers
    apply to the contract list. */
module Filters {
  import opened Values
  import opened Records

  /** `s.filter(p)`: the elements satisfying `p`, in their original order. */
  function Where(s: seq<Contract>, p: Contract -> bool): (r: seq<Contract>)
    ensures |r| <= |s|
  {
    if s == [] then [] else (if p(s[0]) then [s[0]] else []) + Where(s[1..], p)
  }

  /** The filtered sequence holds exactly the elements that satisfy the
      predicate, each exactly as often as the input does. */
  lemma WhereMembers(s: seq<Contract>, p: Contract -> bool)
    ensures forall x :: x in Where(s, p) <==> x in s && p(x)
    ensures forall x :: multiset(Where(s, p))[x] == if p(x) then multiset(s)[x] else 0
    ensures multiset(Where(s, p)) <= multiset(s)
  {
    WhereMultiplicity(s, p);
    forall x ensures x in Where(s, p) <==> x in s && p(x) {
      assert x in Where(s, p) <==> x in multiset(Where(s, p));
      assert x in s <==> x in multiset(s);
    }
  }

  /** The multiplicity part of WhereMembers, by induction on the input. */
  lemma {:induction false} WhereMultiplicity(s: seq<Contract>, p: Contract -> bool)
    ensures forall x :: multiset(Where(s, p))[x] == if p(x) then multiset(s)[x] else 0
  {
    if s != [] {
      WhereMultiplicity(s[1..], p);
      assert s == [s[0]] + s[1..];
      var head := if p(s[0]) then [s[0]] else [];
      assert Where(s, p) == head + Where(s[1..], p);
      assert multiset(Where(s, p)) == multiset(head) + multiset(Where(s[1..], p));
      assert multiset(s) == multiset{s[0]} + multiset(s[1..]);
    }
  }

  /** Filtering distributes over concatenation. */
  lemma {:induction false} WhereAppend(a: seq<Contract>, b: seq<Contract>, p: Contract -> bool)
    ensures Where(a + b, p) == Where(a, p) + Where(b, p)
  {
    if a == [] {
      assert a + b == b;
    } else {
      var head := if p(a[0]) then [a[0]] else [];
      assert (a + b)[0] == a[0];
      assert (a + b)[1..] == a[1..] + b;
      assert Where(a + b, p) == head + Where(a[1..] + b, p);
      WhereAppend(a[1..], b, p);
      assert Where(a, p) == head + Where(a[1..], p);
    }
  }

  function AgencyIs(code: string): Contract -> bool {
    (c: Contract) => c.agencyCode == Some(code)
  }

  function PhaseIs(name: string): Contract -> bool {
    (c: Contract) => c.phase == Some(name)
  }

  function CreatedAtIs(time: int): Contract -> bool {
    (c: Contract) => c.createdAt == time
  }

  /** The agency filter that the list and statistics handlers apply first,
      and only when the requested code is truthy. */
  function InAgencyScope(contracts: seq<Contract>, agencyCode: Option<string>): (r: seq<Contract>)
    ensures |r| <= |contracts|
    ensures forall c :: c in r ==> c in contracts
    ensures Truthy(agencyCode) ==> forall c :: c in r ==> c.agencyCode == agencyCode
  {
    WhereMembers(contracts, AgencyIs(agencyCode.GetOr("")));
    if Truthy(agencyCode) then Where(contracts, AgencyIs(agencyCode.value)) else contracts
  }

  /** The list handler's two filters: agency first, then phase, each only
      when its query value is truthy. */
  function Matching(contracts: seq<Contract>, agencyCode: Option<string>, phase: Option<string>): (r: seq<Contract>)
    ensures |r| <= |contracts|
    ensures Truthy(phase) ==> forall c :: c in r ==> c.phase == phase
  {
    var byAgency := InAgencyScope(contracts, agencyCode);
    WhereMembers(byAgency, PhaseIs(phase.GetOr("")));
    if Truthy(phase) then Where(byAgency, PhaseIs(phase.value)) else byAgency
  }

  /** A record is selected exactly when it is in the list and agrees with
      every non-empty filter. */
  lemma MatchingMembers(contracts: seq<Contract>, agencyCode: Option<string>, phase: Option<string>, c: Contract)
    ensures c in Matching(contracts, agencyCode, phase) <==>
              && c in contracts
              && (agencyCode.Some? && agencyCode.value != "" ==> c.agencyCode == agencyCode)
              && (phase.Some? && phase.value != "" ==> c.phase == phase)
  {
    WhereMembers(contracts, AgencyIs(agencyCode.GetOr("")));
    var byAgency := InAgencyScope(contracts, agencyCode);
    WhereMembers(byAgency, PhaseIs(phase.GetOr("")));
  }
}
