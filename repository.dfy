/** Lookup, creation and shallow-merge update of contracts by id, over the
    whole contract list read from the store. */
module Repository {
  import opened Values
  import opened Phases
  import opened Records
  import opened Ids

  const WAITING: string := "エントリ待ち"
  const REGISTERED: string := "新規登録"
  const REGISTERED_MEMO: string := "契約情報を登録しました"
  const SYSTEM_OPERATOR: string := "system"

  /** `contracts.findIndex(c => c.id === id)`: the first index whose record
      has the id, or -1 when there is none. */
  function FindIndex(contracts: seq<Contract>, id: string): (r: int)
    ensures -1 <= r < |contracts|
    ensures r >= 0 ==> contracts[r].id == id && forall j :: 0 <= j < r ==> contracts[j].id != id
    ensures r == -1 <==> forall j :: 0 <= j < |contracts| ==> contracts[j].id != id
  {
    if contracts == [] then -1
    else if contracts[0].id == id then 0
    else
      var k := FindIndex(contracts[1..], id);
      if k == -1 then -1 else k + 1
  }

  /** `contracts.find(c => c.id === id)`: the first record with the id. */
  function FindById(contracts: seq<Contract>, id: string): (r: Option<Contract>)
    ensures r.None? <==> forall c :: c in contracts ==> c.id != id
    ensures r.Some? ==> exists i :: 0 <= i < |contracts| && contracts[i] == r.value && r.value.id == id &&
                                     forall j :: 0 <= j < i ==> contracts[j].id != id
  {
    var i := FindIndex(contracts, id);
    if i == -1 then None else Some(contracts[i])
  }

  /** Two lists whose records carry the same ids in the same order answer
      every lookup by id alike. */
  lemma FindIndexSameIds(s: seq<Contract>, t: seq<Contract>, id: string)
    requires |s| == |t|
    requires forall j :: 0 <= j < |s| ==> s[j].id == t[j].id
    ensures FindIndex(s, id) == FindIndex(t, id)
  {
  }

  /** Appending a record never hides an id that was already found, and the
      appended record is found by its id when no earlier record has it. */
  lemma FindIndexAppend(s: seq<Contract>, c: Contract, id: string)
    ensures FindIndex(s + [c], id) ==
              if FindIndex(s, id) != -1 then FindIndex(s, id)
              else if c.id == id then |s| else -1
  {
    var t := s + [c];
    assert forall j :: 0 <= j < |s| ==> t[j] == s[j];
    if FindIndex(s, id) != -1 {
      assert t[FindIndex(s, id)].id == id;
    } else if c.id == id {
      assert t[|s|].id == id;
    }
  }

  /** The object literal the create handler builds: a generated id that a
      body `id` overrides, every other body key, and then the fixed initial
      phase, status, times and one-entry history, which no body key can
      override. */
  function NewContract(body: Patch, now: nat): (r: Contract)
    ensures body.id.None? ==> r.id == GeneratedId(now)
    ensures r.createdAt == r.updatedAt == now && KnownPhase(r.phase)
    ensures r.history.Some? && |r.history.value| == 1
    ensures r.history.value[0].phase == r.phase && r.history.value[0].status == r.status
  {
    var entry := HistoryEntry(now, Some(REGISTERED), Some(Entry.Name()), Some(WAITING),
                              OrElse(ExtraField(body.extra, "operator"), SYSTEM_OPERATOR),
                              REGISTERED_MEMO, None);
    Contract(body.id.GetOr(GeneratedId(now)), body.agencyCode, Some(Entry.Name()), Some(WAITING),
             now, now, Some([entry]), body.recallDateTime, body.extra)
  }

  /** The fields a body sets on creation other than `id`, `agencyCode`,
      `recallDateTime` and the extra keys do not matter: phase, status,
      times and history are always the initial ones. */
  lemma NewContractIgnoresBodyState(body: Patch, phase: Option<string>, status: Option<string>,
                                    created: Option<int>, updated: Option<int>,
                                    history: Option<seq<HistoryEntry>>, now: nat)
    ensures NewContract(body.(phase := phase, status := status, createdAt := created,
                              updatedAt := updated, history := history), now)
            == NewContract(body, now)
  {
  }

  /** POST /api/contracts: builds the new record and pushes it onto the list. */
  method CreateContract(contracts: seq<Contract>, body: Patch, now: nat)
    returns (created: Contract, contracts': seq<Contract>)
    ensures contracts' == contracts + [created]
    ensures created == NewContract(body, now)
    ensures created.id == (if body.id.Some? then body.id.value else "CNT" + Decimal(now))
    ensures created.phase == Some("entry") && created.status == Some("エントリ待ち")
    ensures created.createdAt == now && created.updatedAt == now
    ensures created.agencyCode == body.agencyCode && created.recallDateTime == body.recallDateTime
    ensures created.extra == body.extra
    ensures created.history.Some? && |created.history.value| == 1
    ensures var e := created.history.value[0];
            && e.action == Some("新規登録") && e.phase == Some("entry") && e.status == Some("エントリ待ち")
            && e.memo == "契約情報を登録しました" && e.timestamp == now && e.recallDateTime.None?
            && e.operator == (if "operator" in body.extra && body.extra["operator"] != ""
                              then body.extra["operator"] else "system")
    ensures FindIndex(contracts', created.id) ==
              if FindIndex(contracts, created.id) == -1 then |contracts| else FindIndex(contracts, created.id)
  {
    created := NewContract(body, now);
    contracts' := contracts;
    contracts' := contracts' + [created];
    FindIndexAppend(contracts, created, created.id);
  }

  /** A present body key overrides, an absent one keeps the old value. */
  function Over<T>(b: Option<T>, a: Option<T>): Option<T> {
    if b.Some? then b else a
  }

  /** The object literal `{...prev, ...body, updatedAt}` of the PUT handler. */
  function Merge(prev: Contract, body: Patch, now: int): (r: Contract)
    ensures r.updatedAt == now
    ensures prev.extra.Keys <= r.extra.Keys
    ensures forall k :: k in body.extra ==> k in r.extra && r.extra[k] == body.extra[k]
  {
    Contract(body.id.GetOr(prev.id), Over(body.agencyCode, prev.agencyCode), Over(body.phase, prev.phase),
             Over(body.status, prev.status), body.createdAt.GetOr(prev.createdAt), now,
             Over(body.history, prev.history), Over(body.recallDateTime, prev.recallDateTime),
             prev.extra + body.extra)
  }

  /** Two bodies spread one after the other, as one body. */
  function Overlay(p: Patch, q: Patch): Patch {
    Patch(Over(q.id, p.id), Over(q.agencyCode, p.agencyCode), Over(q.phase, p.phase),
          Over(q.status, p.status), Over(q.createdAt, p.createdAt), Over(q.updatedAt, p.updatedAt),
          Over(q.history, p.history), Over(q.recallDateTime, p.recallDateTime), p.extra + q.extra)
  }

  const EMPTY_BODY: Patch := Patch(None, None, None, None, None, None, None, None, map[])

  /** The merge field by field: a key present in the body takes the body's
      value, an absent key keeps the old value, and `updatedAt` is the
      request time whatever the body says. */
  lemma MergeOverlays(prev: Contract, body: Patch, now: int)
    ensures var r := Merge(prev, body, now);
      && r.id == (if body.id.Some? then body.id.value else prev.id)
      && r.agencyCode == (if body.agencyCode.Some? then body.agencyCode else prev.agencyCode)
      && r.phase == (if body.phase.Some? then body.phase else prev.phase)
      && r.status == (if body.status.Some? then body.status else prev.status)
      && r.createdAt == (if body.createdAt.Some? then body.createdAt.value else prev.createdAt)
      && r.history == (if body.history.Some? then body.history else prev.history)
      && r.recallDateTime == (if body.recallDateTime.Some? then body.recallDateTime else prev.recallDateTime)
      && r.updatedAt == now
      && r.extra.Keys == prev.extra.Keys + body.extra.Keys
      && (forall k :: k in body.extra ==> r.extra[k] == body.extra[k])
      && (forall k :: k in prev.extra && k !in body.extra ==> r.extra[k] == prev.extra[k])
  {
  }

  /** An empty body changes nothing but `updatedAt`. */
  lemma MergeEmptyBody(prev: Contract, now: int)
    ensures Merge(prev, EMPTY_BODY, now) == prev.(updatedAt := now)
  {
  }

  /** Sending the same body twice has the effect of sending it once. */
  lemma MergeIdempotent(prev: Contract, body: Patch, now: int, later: int)
    ensures Merge(Merge(prev, body, now), body, later) == Merge(prev, body, later)
  {
  }

  /** Two successive updates equal one update with the later body spread
      over the earlier one. */
  lemma MergeCompose(prev: Contract, p: Patch, q: Patch, now: int, later: int)
    ensures Merge(Merge(prev, p, now), q, later) == Merge(prev, Overlay(p, q), later)
  {
  }

  /** PUT /api/contracts/:id: an unknown id leaves the list alone; otherwise
      the first record with the id is replaced by its merge with the body,
      and no other record changes. */
  method UpdateContract(contracts: seq<Contract>, id: string, body: Patch, now: int)
    returns (reply: Reply, contracts': seq<Contract>)
    ensures FindIndex(contracts, id) == -1 ==> reply == NotFound && contracts' == contracts
    ensures FindIndex(contracts, id) != -1 ==>
              var i := FindIndex(contracts, id);
              && |contracts'| == |contracts|
              && contracts'[i] == Merge(contracts[i], body, now)
              && (forall j :: 0 <= j < |contracts| && j != i ==> contracts'[j] == contracts[j])
              && reply == Updated(contracts'[i])
  {
    var index := FindIndex(contracts, id);
    if index == -1 {
      return NotFound, contracts;
    }
    var updated := Merge(contracts[index], body, now);
    contracts' := contracts[index := updated];
    reply := Updated(updated);
  }
}
