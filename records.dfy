/** The records the contract service stores and the request bodies it accepts. */
module Records {
  import opened Values

  /** One audit entry in a contract's history. `action` and `status` are
      absent when the request carried no status. */
  datatype HistoryEntry = HistoryEntry(
    timestamp: int,
    action: Option<string>,
    phase: Option<string>,
    status: Option<string>,
    operator: string,
    memo: string,
    recallDateTime: Option<string>)

  /** A stored contract. The named fields are those the handlers read or
      write; `extra` holds every other client-supplied key. A field that the
      handlers can leave undefined is an Option. Times are epoch milliseconds. */
  datatype Contract = Contract(
    id: string,
    agencyCode: Option<string>,
    phase: Option<string>,
    status: Option<string>,
    createdAt: int,
    updatedAt: int,
    history: Option<seq<HistoryEntry>>,
    recallDateTime: Option<string>,
    extra: map<string, string>)

  /** A JSON request body spread into a contract: Some for each key present,
      `extra` for all other keys. */
  datatype Patch = Patch(
    id: Option<string>,
    agencyCode: Option<string>,
    phase: Option<string>,
    status: Option<string>,
    createdAt: Option<int>,
    updatedAt: Option<int>,
    history: Option<seq<HistoryEntry>>,
    recallDateTime: Option<string>,
    extra: map<string, string>)

  /** The outcome of an update by id. */
  datatype Reply = Updated(contract: Contract) | NotFound

  /** The history update-status appends to: a missing history counts as empty. */
  function PriorHistory(c: Contract): seq<HistoryEntry> {
    c.history.GetOr([])
  }

  /** The value of an extra key of a body, as an optional string. */
  function ExtraField(extra: map<string, string>, key: string): Option<string> {
    if key in extra then Some(extra[key]) else None
  }
}
