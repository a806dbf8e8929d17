/** The five lifecycle phases of a contract and the fixed status-label table
    that drives the automatic phase transition of update-status. */
module Phases {
  import opened Values

  datatype Phase = Entry | Preconfirm | Handling | Postconfirm | Completed {

    /** The name under which the phase is stored in a contract record. */
    function Name(): string {
      match this
      case Entry => "entry"
      case Preconfirm => "preconfirm"
      case Handling => "handling"
      case Postconfirm => "postconfirm"
      case Completed => "completed"
    }

    /** Position of the phase in the linear lifecycle. */
    function Rank(): nat {
      match this
      case Entry => 0
      case Preconfirm => 1
      case Handling => 2
      case Postconfirm => 3
      case Completed => 4
    }
  }

  /** The phase stored under `name`, if `name` is one of the five. */
  function PhaseNamed(name: string): (r: Option<Phase>)
    ensures r.Some? ==> r.value.Name() == name
    ensures forall p: Phase :: p.Name() == name ==> r == Some(p)
  {
    if name == "entry" then Some(Entry)
    else if name == "preconfirm" then Some(Preconfirm)
    else if name == "handling" then Some(Handling)
    else if name == "postconfirm" then Some(Postconfirm)
    else if name == "completed" then Some(Completed)
    else None
  }

  /** A stored phase field that holds one of the five phase names. */
  predicate KnownPhase(stored: Option<string>) {
    stored.Some? && PhaseNamed(stored.value).Some?
  }

  // The four status labels the table recognises.
  const ENTRY_DONE: string := "エントリ完了→前確へ"
  const PRECONFIRM_OK: string := "前確OK→対応へ"
  const HANDLING_DONE: string := "対応完了→後確へ"
  const POSTCONFIRM_OK: string := "後確OK→完了"

  /** The status label named after phase `p`, the phase it is meant to leave; the final
      phase has none. */
  function LeavingLabel(p: Phase): Option<string> {
    match p
    case Entry => Some(ENTRY_DONE)
    case Preconfirm => Some(PRECONFIRM_OK)
    case Handling => Some(HANDLING_DONE)
    case Postconfirm => Some(POSTCONFIRM_OK)
    case Completed => None
  }

  /** The phase that follows `p` in the lifecycle. */
  function Successor(p: Phase): Option<Phase> {
    match p
    case Entry => Some(Preconfirm)
    case Preconfirm => Some(Handling)
    case Handling => Some(Postconfirm)
    case Postconfirm => Some(Completed)
    case Completed => None
  }

  /** The label table as a lookup: the phase a status label leads to, when
      the label is one of the four leaving labels. */
  function LabelTarget(status: Option<string>): (r: Option<Phase>)
    ensures r.Some? <==> status in {Some(ENTRY_DONE), Some(PRECONFIRM_OK), Some(HANDLING_DONE), Some(POSTCONFIRM_OK)}
    ensures r != Some(Entry)
  {
    if status == LeavingLabel(Entry) then Successor(Entry)
    else if status == LeavingLabel(Preconfirm) then Successor(Preconfirm)
    else if status == LeavingLabel(Handling) then Successor(Handling)
    else if status == LeavingLabel(Postconfirm) then Successor(Postconfirm)
    else None
  }

  /** Reference definition of the phase that update-status stores: a
      recognised label wins; otherwise a truthy supplied phase; otherwise
      the contract's current phase. */
  function NextPhase(status: Option<string>, supplied: Option<string>, current: Option<string>): (r: Option<string>)
    ensures LabelTarget(status).Some? ==> KnownPhase(r) && PhaseNamed(r.value) == LabelTarget(status)
    ensures LabelTarget(status).None? ==> r == supplied || r == current
    ensures r.None? ==> current.None?
  {
    match LabelTarget(status)
    case Some(p) => Some(p.Name())
    case None => if Truthy(supplied) then supplied else current
  }

  /** The four labels map to their phases whatever phase the caller supplies
      and whatever phase the contract is in; any other label falls back to
      the supplied phase when it is non-empty, else to the current phase. */
  lemma NextPhaseTable(status: Option<string>, supplied: Option<string>, current: Option<string>)
    ensures status == Some("エントリ完了→前確へ") ==> NextPhase(status, supplied, current) == Some("preconfirm")
    ensures status == Some("前確OK→対応へ") ==> NextPhase(status, supplied, current) == Some("handling")
    ensures status == Some("対応完了→後確へ") ==> NextPhase(status, supplied, current) == Some("postconfirm")
    ensures status == Some("後確OK→完了") ==> NextPhase(status, supplied, current) == Some("completed")
    ensures status !in {Some(ENTRY_DONE), Some(PRECONFIRM_OK), Some(HANDLING_DONE), Some(POSTCONFIRM_OK)} ==>
              NextPhase(status, supplied, current) == (if supplied.Some? && supplied.value != "" then supplied else current)
  {
  }

  /** The labels form a linear chain: a label leads somewhere exactly when it
      is the leaving label of some phase, and then it leads to that phase's
      successor, one rank further on. This
      describes how the labels are named; it does not restrict which phase
      a label may be posted from (see LabelsIgnoreCurrentPhase). */
  lemma LabelsFormChain(status: Option<string>)
    ensures LabelTarget(status).Some? <==>
              exists p: Phase :: LeavingLabel(p) == status && LeavingLabel(p).Some?
    ensures forall p: Phase :: LeavingLabel(p) == status && status.Some? ==>
              Successor(p).Some? && LabelTarget(status) == Successor(p) &&
              Successor(p).value.Rank() == p.Rank() + 1
  {
  }

  /** A recognised label applies whatever phase the contract is in: the
      current phase is not consulted, so a label can move a contract back,
      for instance `エントリ完了→前確へ` from `completed` to `preconfirm`. */
  lemma LabelsIgnoreCurrentPhase(status: Option<string>, supplied: Option<string>, current: Option<string>, other: Option<string>)
    ensures LabelTarget(status).Some? ==>
              NextPhase(status, supplied, current) == NextPhase(status, supplied, other)
    ensures NextPhase(Some(ENTRY_DONE), supplied, Some("completed")) == Some("preconfirm")
  {
  }

  /** Submitting the same request twice yields the same phase as submitting
      it once: the phase computation is idempotent. */
  lemma NextPhaseIdempotent(status: Option<string>, supplied: Option<string>, current: Option<string>)
    ensures NextPhase(status, supplied, NextPhase(status, supplied, current)) == NextPhase(status, supplied, current)
  {
  }

  /** The transition keeps a contract's phase among the five names when the
      label is recognised, or when the fallback it uses is itself a known
      phase. */
  lemma NextPhaseKnown(status: Option<string>, supplied: Option<string>, current: Option<string>)
    requires LabelTarget(status).Some? || (Truthy(supplied) && KnownPhase(supplied)) || (!Truthy(supplied) && KnownPhase(current))
    ensures KnownPhase(NextPhase(status, supplied, current))
  {
  }
}
