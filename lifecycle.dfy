/** A contract's first step through the call-center lifecycle, put together
    from the handlers' contracts alone. */
module Lifecycle {
  import opened Values
  import opened Phases
  import opened Records
  import opened Ids
  import opened Repository
  import opened StatusUpdate
  import opened Stats

  /** Register a contract with a generated id, then post the label that
      closes the entry phase: looking the id up shows the contract in
      `preconfirm` with two history entries, and the list holds one more
      record, that one. The new record's id, generated or supplied by the
      body, must not be taken already, since the lookups find the first
      record with an id. */
  method RegisterThenConfirmEntry(contracts: seq<Contract>, body: Patch, now: nat, later: int)
    returns (found: Option<Contract>, contracts': seq<Contract>)
    requires FindIndex(contracts, NewContract(body, now).id) == -1
    ensures found.Some? && found.value.id == NewContract(body, now).id
    ensures body.id.None? ==> found.value.id == GeneratedId(now)
    ensures found.value.phase == Some("preconfirm")
    ensures found.value.history.Some? && |found.value.history.value| == 2
    ensures found.value.history.value[0].action == Some("新規登録")
    ensures found.value.history.value[1].status == Some("エントリ完了→前確へ")
    ensures contracts' == (contracts + [NewContract(body, now)])[|contracts| := found.value]
    ensures found.value.agencyCode == body.agencyCode
  {
    var created, registered := CreateContract(contracts, body, now);
    var request := StatusRequest(None, Some(ENTRY_DONE), None, None, None);
    var reply;
    reply, contracts' := UpdateStatus(registered, created.id, request, later);
    found := FindById(contracts', created.id);

    var i := |contracts|;
    assert created.id == NewContract(body, now).id;
    assert FindIndex(registered, created.id) == i;
    FindIndexSameIds(registered, contracts', created.id);
    assert found == Some(contracts'[i]);
    assert registered[i] == created;
    assert StatusApplied(created, contracts'[i], request, later);
    assert NextPhase(request.status, request.phase, created.phase) == Some("preconfirm");
    assert PriorHistory(created) == created.history.value;
    assert contracts' == registered[i := contracts'[i]] by {
      assert forall j :: 0 <= j < |registered| && j != i ==> contracts'[j] == registered[j];
    }
  }

  /** Statistics after the scenario above, which appends an `entry` record
      and then moves it, in place, to `preconfirm`: one more contract in all
      and in `preconfirm`, the same number in `entry`. */
  lemma AppendThenAdvanceCounts(s: seq<Contract>, c: Contract, advanced: Contract)
    requires c.phase == Some("entry") && advanced.phase == Some("preconfirm")
    requires advanced.agencyCode == c.agencyCode
    ensures var t := (s + [c])[|s| := advanced];
            && ByPhase(t, None).total == ByPhase(s, None).total + 1
            && ByPhase(t, None).preconfirm == ByPhase(s, None).preconfirm + 1
            && ByPhase(t, None).entry == ByPhase(s, None).entry
  {
    var u := s + [c];
    AppendCounts(s, c, None, Entry);
    AppendCounts(s, c, None, Preconfirm);
    ReplaceMovesOneCount(u, |s|, advanced, None, Entry);
    ReplaceMovesOneCount(u, |s|, advanced, None, Preconfirm);
    assert u[|s|] == c;
  }
}
