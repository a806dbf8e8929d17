/** GET /api/contracts/stats/by-phase: per-phase counts after an optional
    agency filter. */
module Stats {
  import opened Values
  import opened Phases
  import opened Records
  import opened Filters

  datatype PhaseCounts = PhaseCounts(entry: nat, preconfirm: nat, handling: nat,
                                     postconfirm: nat, completed: nat, total: nat) {

    /** The count reported for one phase. */
    function Count(p: Phase): nat {
      match p
      case Entry => entry
      case Preconfirm => preconfirm
      case Handling => handling
      case Postconfirm => postconfirm
      case Completed => completed
    }

    function Sum(): nat {
      entry + preconfirm + handling + postconfirm + completed
    }
  }

  function HasUnknownPhase(): Contract -> bool {
    (c: Contract) => !KnownPhase(c.phase)
  }

  function Indicator(b: bool): nat {
    if b then 1 else 0
  }

  /** Every record is counted in exactly one of the five phases or has a
      phase outside them. */
  lemma {:induction false} PhasePartition(s: seq<Contract>)
    ensures |Where(s, PhaseIs("entry"))| + |Where(s, PhaseIs("preconfirm"))| + |Where(s, PhaseIs("handling"))|
            + |Where(s, PhaseIs("postconfirm"))| + |Where(s, PhaseIs("completed"))|
            + |Where(s, HasUnknownPhase())| == |s|
  {
    if s != [] {
      PhasePartition(s[1..]);
    }
  }

  /** The statistics handler. The five counts never exceed the total, and
      they add up to it exactly when every counted record is in one of the
      five phases. */
  function ByPhase(contracts: seq<Contract>, agencyCode: Option<string>): (r: PhaseCounts)
    ensures r.total == |InAgencyScope(contracts, agencyCode)|
    ensures r.Sum() <= r.total
    ensures r.Sum() == r.total <==> forall c :: c in InAgencyScope(contracts, agencyCode) ==> KnownPhase(c.phase)
  {
    var scoped := InAgencyScope(contracts, agencyCode);
    PhasePartition(scoped);
    WhereMembers(scoped, HasUnknownPhase());
    var unknown := Where(scoped, HasUnknownPhase());
    assert unknown != [] ==> unknown[0] in unknown;
    PhaseCounts(|Where(scoped, PhaseIs("entry"))|, |Where(scoped, PhaseIs("preconfirm"))|,
                |Where(scoped, PhaseIs("handling"))|, |Where(scoped, PhaseIs("postconfirm"))|,
                |Where(scoped, PhaseIs("completed"))|, |scoped|)
  }

  /** Filtering twice is filtering once by both conditions. */
  lemma {:induction false} WhereWhere(s: seq<Contract>, p: Contract -> bool, q: Contract -> bool)
    ensures Where(Where(s, p), q) == Where(s, Both(p, q))
  {
    if s != [] {
      WhereWhere(s[1..], p, q);
      assert Both(p, q)(s[0]) == (p(s[0]) && q(s[0]));
      if p(s[0]) {
        assert Where(s, p) == [s[0]] + Where(s[1..], p);
        WhereAppend([s[0]], Where(s[1..], p), q);
        assert [s[0]][1..] == [];
        assert Where([s[0]], q) == if q(s[0]) then [s[0]] else [];
      } else {
        assert Where(s, p) == Where(s[1..], p);
      }
    }
  }

  function Both(p: Contract -> bool, q: Contract -> bool): Contract -> bool {
    (c: Contract) => p(c) && q(c)
  }

  /** Replacing one element changes the filtered length by what the old and
      the new element contribute. */
  lemma ReplaceCount(s: seq<Contract>, i: nat, c: Contract, p: Contract -> bool)
    requires i < |s|
    ensures |Where(s[i := c], p)| + Indicator(p(s[i])) == |Where(s, p)| + Indicator(p(c))
  {
    var pre, post := s[..i], s[i + 1..];
    assert s == pre + [s[i]] + post;
    assert s[i := c] == pre + [c] + post;
    WhereAppend(pre + [s[i]], post, p);
    WhereAppend(pre, [s[i]], p);
    WhereAppend(pre + [c], post, p);
    WhereAppend(pre, [c], p);
    assert [s[i]][1..] == [] && [c][1..] == [];
  }

  /** The records of a phase within the agency scope, as one filter. */
  lemma ScopedPhaseCount(s: seq<Contract>, agencyCode: Option<string>, p: Phase)
    ensures |InAgencyScope(s, agencyCode)| == |Where(s, InScope(agencyCode))|
    ensures ByPhase(s, agencyCode).Count(p) == |Where(s, InScopeIn(agencyCode, p))|
  {
    var scope := InAgencyScope(s, agencyCode);
    WhereWhere(s, InScope(agencyCode), PhaseIs(p.Name()));
    WhereSame(s, Both(InScope(agencyCode), PhaseIs(p.Name())), InScopeIn(agencyCode, p));
    WhereSame(Where(s, InScope(agencyCode)), PhaseIs(p.Name()), PhaseIs(p.Name()));
    if !Truthy(agencyCode) {
      WhereSame(s, InScope(agencyCode), (c: Contract) => true);
      WhereAll(s);
    } else {
      WhereSame(s, InScope(agencyCode), AgencyIs(agencyCode.value));
    }
  }

  /** Whether a record passes the agency filter. */
  function InScope(agencyCode: Option<string>): Contract -> bool {
    (c: Contract) => !Truthy(agencyCode) || c.agencyCode == agencyCode
  }

  function InScopeIn(agencyCode: Option<string>, p: Phase): Contract -> bool {
    (c: Contract) => (!Truthy(agencyCode) || c.agencyCode == agencyCode) && c.phase == Some(p.Name())
  }

  /** Filters that agree on every element select the same subsequence. */
  lemma {:induction false} WhereSame(s: seq<Contract>, p: Contract -> bool, q: Contract -> bool)
    requires forall c :: p(c) == q(c)
    ensures Where(s, p) == Where(s, q)
  {
    if s != [] {
      WhereSame(s[1..], p, q);
    }
  }

  lemma {:induction false} WhereAll(s: seq<Contract>)
    ensures Where(s, (c: Contract) => true) == s
  {
    if s != [] {
      WhereAll(s[1..]);
    }
  }

  /** Updating one record without moving it to another agency leaves the
      total alone and moves at most one unit of count from its old phase to
      its new one. */
  lemma ReplaceMovesOneCount(s: seq<Contract>, i: nat, c: Contract, agencyCode: Option<string>, p: Phase)
    requires i < |s| && c.agencyCode == s[i].agencyCode
    ensures ByPhase(s[i := c], agencyCode).total == ByPhase(s, agencyCode).total
    ensures ByPhase(s[i := c], agencyCode).Count(p) + Indicator(InScopeIn(agencyCode, p)(s[i]))
            == ByPhase(s, agencyCode).Count(p) + Indicator(InScopeIn(agencyCode, p)(c))
  {
    ScopedPhaseCount(s, agencyCode, p);
    ScopedPhaseCount(s[i := c], agencyCode, p);
    ReplaceCount(s, i, c, InScope(agencyCode));
    ReplaceCount(s, i, c, InScopeIn(agencyCode, p));
  }

  /** Appending a record adds one to the total and to its phase's count
      when it passes the agency filter, and changes nothing otherwise. */
  lemma AppendCounts(s: seq<Contract>, c: Contract, agencyCode: Option<string>, p: Phase)
    ensures ByPhase(s + [c], agencyCode).total == ByPhase(s, agencyCode).total + Indicator(InScope(agencyCode)(c))
    ensures ByPhase(s + [c], agencyCode).Count(p) == ByPhase(s, agencyCode).Count(p) + Indicator(InScopeIn(agencyCode, p)(c))
  {
    ScopedPhaseCount(s, agencyCode, p);
    ScopedPhaseCount(s + [c], agencyCode, p);
    WhereAppend(s, [c], InScope(agencyCode));
    WhereAppend(s, [c], InScopeIn(agencyCode, p));
    assert [c][1..] == [];
  }
}
