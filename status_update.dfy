/** POST /api/contracts/:id/update-status: the automatic phase transition,
    the history append and the recall annotation. */
module StatusUpdate {
  import opened Values
  import opened Phases
  import opened Records
  import opened Repository

  /** The keys of the request body the handler reads. */
  datatype StatusRequest = StatusRequest(
    phase: Option<string>,
    status: Option<string>,
    memo: Option<string>,
    operator: Option<string>,
    recallDateTime: Option<string>)

  /** Text appended to the memo of an entry that schedules a recall. */
  const RECALL_NOTE: string := " 📅 再コール予定: "

  /** The history entry that a request appends. */
  function EntryFor(req: StatusRequest, newPhase: Option<string>, now: int): (e: HistoryEntry)
    ensures e.operator != ""
    ensures OrElse(req.memo, "") <= e.memo
    ensures e.recallDateTime.Some? <==> Truthy(req.recallDateTime)
  {
    var base := OrElse(req.memo, "");
    if Truthy(req.recallDateTime) then
      HistoryEntry(now, req.status, newPhase, req.status, OrElse(req.operator, "system"),
                   base + RECALL_NOTE + req.recallDateTime.value, req.recallDateTime)
    else
      HistoryEntry(now, req.status, newPhase, req.status, OrElse(req.operator, "system"), base, None)
  }

  /** The entry carries the request's status as both action and status,
      the operator or "system", and the memo or "" — followed, when a recall
      time is given, by the recall annotation, the time itself being stored
      on the entry. */
  lemma EntryForFields(req: StatusRequest, newPhase: Option<string>, now: int)
    ensures var e := EntryFor(req, newPhase, now);
      && e.action == req.status && e.status == req.status && e.phase == newPhase && e.timestamp == now
      && e.operator == (if req.operator.Some? && req.operator.value != "" then req.operator.value else "system")
      && (req.recallDateTime.Some? && req.recallDateTime.value != "" ==>
            e.recallDateTime == req.recallDateTime &&
            e.memo == (if req.memo.Some? then req.memo.value else "") + " 📅 再コール予定: " + req.recallDateTime.value)
      && (!(req.recallDateTime.Some? && req.recallDateTime.value != "") ==>
            e.recallDateTime.None? && e.memo == (if req.memo.Some? then req.memo.value else ""))
  {
  }

  /** What one status update does to a record: the label-table phase, the
      request's status, the request time, one entry appended to the history
      (a missing history counting as empty), the recall time stored when one
      is given and kept otherwise, and every other field as it was. */
  predicate StatusApplied(before: Contract, after: Contract, req: StatusRequest, now: int) {
    && after.phase == NextPhase(req.status, req.phase, before.phase)
    && after.status == req.status
    && after.updatedAt == now
    && after.history == Some(PriorHistory(before) + [EntryFor(req, after.phase, now)])
    && after.recallDateTime == (if Truthy(req.recallDateTime) then req.recallDateTime else before.recallDateTime)
    && after.id == before.id && after.agencyCode == before.agencyCode
    && after.createdAt == before.createdAt && after.extra == before.extra
  }

  /** A history whose entries are in non-decreasing time order. */
  predicate TimeOrdered(h: seq<HistoryEntry>) {
    forall i, j :: 0 <= i < j < |h| ==> h[i].timestamp <= h[j].timestamp
  }

  /** A status update keeps the history in time order exactly when the old
      history was in order and no old entry is later than the request time.
      The handler takes that time from the clock and a PUT can replace the
      history, so neither condition is guaranteed. */
  lemma StatusAppliedTimeOrder(before: Contract, after: Contract, req: StatusRequest, now: int)
    requires StatusApplied(before, after, req, now)
    ensures TimeOrdered(after.history.value) <==>
              TimeOrdered(PriorHistory(before)) && forall e :: e in PriorHistory(before) ==> e.timestamp <= now
  {
    var h, n := PriorHistory(before), |PriorHistory(before)|;
    var h' := after.history.value;
    assert h' == h + [EntryFor(req, after.phase, now)];
    assert h'[n].timestamp == now;
    if TimeOrdered(h') {
      forall e | e in h ensures e.timestamp <= now {
        var i :| 0 <= i < n && h[i] == e;
        assert h'[i] == e;
      }
      forall i, j | 0 <= i < j < n ensures h[i].timestamp <= h[j].timestamp {
        assert h'[i] == h[i] && h'[j] == h[j];
      }
    }
    if TimeOrdered(h) && forall e :: e in h ==> e.timestamp <= now {
      forall i, j | 0 <= i < j < |h'| ensures h'[i].timestamp <= h'[j].timestamp {
        assert h'[i] == h[i];
        if j < n { assert h'[j] == h[j]; } else { assert h[i] in h; }
      }
    }
  }

  predicate AllKnownPhases(contracts: seq<Contract>) {
    forall j :: 0 <= j < |contracts| ==> KnownPhase(contracts[j].phase)
  }

  /** The in-place changes the handler makes to the record it found: the
      if-chain over the four labels, the history entry with its recall
      annotation, and the field assignments. */
  method ApplyStatus(contract: Contract, req: StatusRequest, now: int) returns (updated: Contract)
    ensures StatusApplied(contract, updated, req, now)
  {
    var newPhase := if Truthy(req.phase) then req.phase else contract.phase;
    if req.status == Some(ENTRY_DONE) {
      newPhase := Some("preconfirm");
    } else if req.status == Some(PRECONFIRM_OK) {
      newPhase := Some("handling");
    } else if req.status == Some(HANDLING_DONE) {
      newPhase := Some("postconfirm");
    } else if req.status == Some(POSTCONFIRM_OK) {
      newPhase := Some("completed");
    }

    var entry := HistoryEntry(now, req.status, newPhase, req.status,
                              OrElse(req.operator, "system"), OrElse(req.memo, ""), None);
    if Truthy(req.recallDateTime) {
      entry := entry.(recallDateTime := req.recallDateTime);
      entry := entry.(memo := entry.memo + RECALL_NOTE + req.recallDateTime.value);
    }

    updated := contract.(phase := newPhase, status := req.status, updatedAt := now);
    updated := updated.(history := Some(updated.history.GetOr([])));
    updated := updated.(history := Some(updated.history.value + [entry]));
    if Truthy(req.recallDateTime) {
      updated := updated.(recallDateTime := req.recallDateTime);
    }
  }

  /** The update-status handler. An unknown id yields NotFound and leaves
      the list alone. Otherwise only the first record with the id changes,
      as StatusApplied describes; ids stay where they were, and a list whose
      phases are all among the five keeps that property whenever the label
      is recognised or the phase it falls back to is itself one of the five. */
  method UpdateStatus(contracts: seq<Contract>, id: string, req: StatusRequest, now: int)
    returns (reply: Reply, contracts': seq<Contract>)
    ensures FindIndex(contracts, id) == -1 ==> reply == NotFound && contracts' == contracts
    ensures FindIndex(contracts, id) != -1 ==>
              && |contracts'| == |contracts|
              && (forall j :: 0 <= j < |contracts| && j != FindIndex(contracts, id) ==> contracts'[j] == contracts[j])
              && StatusApplied(contracts[FindIndex(contracts, id)], contracts'[FindIndex(contracts, id)], req, now)
              && reply == Updated(contracts'[FindIndex(contracts, id)])
    ensures forall j :: 0 <= j < |contracts| ==> contracts'[j].id == contracts[j].id
    ensures (AllKnownPhases(contracts) && (LabelTarget(req.status).Some? || !Truthy(req.phase) || KnownPhase(req.phase)))
            ==> AllKnownPhases(contracts')
  {
    var index := FindIndex(contracts, id);
    if index == -1 {
      return NotFound, contracts;
    }
    var contract := ApplyStatus(contracts[index], req, now);
    contracts' := contracts[index := contract];
    reply := Updated(contract);

    if AllKnownPhases(contracts) && (LabelTarget(req.status).Some? || !Truthy(req.phase) || KnownPhase(req.phase)) {
      NextPhaseKnown(req.status, req.phase, contracts[index].phase);
    }
  }
}
