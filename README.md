# Call-center contract tracker: handler core in Dafny

This project models the request handlers of a small call-center contract
service (`server.js`). Contracts go through five phases: `entry`,
`preconfirm`, `handling`, `postconfirm` and `completed`. Each contract keeps
a history of status updates and may carry a recall time. Update-status
appends to the history; a PUT body can replace it.

The service reads its whole contract list from a JSON file, changes it in
memory and writes it back. The model removes the file: each handler takes
the list as a `seq<Contract>` and returns the new list. Request-time clocks
are passed in as a parameter `now`, in epoch milliseconds.

Modules:

- `Values`: `Option` for JSON keys that may be absent. `Truthy` models the
  handlers' JavaScript truthiness tests, where an absent key and `""` are
  both falsy.
- `Phases`: the five phases, the four status labels, the label table and
  `NextPhase`, the reference definition of the automatic transition.
- `Records`: the contract, history entry and request body records.
- `Ids`: `CNT` ids built from `Date.now()`.
- `Repository`: lookup by id, create (`contracts.push`) and the shallow-merge
  PUT update (`contracts[index] = …`).
- `Filters`: `Array.prototype.filter` and the agency and phase filters.
- `Listing`: the list handler. It filters, then sorts an `array` in place by
  stable insertion sort.
- `Stats`: per-phase counts.
- `StatusUpdate`: the update-status handler. It has an imperative `if` chain
  over the labels and appends one history entry.
- `Lifecycle`: register a contract, then confirm its entry, proved from the
  handlers' contracts alone.
- `Auth`: the login lookup and the four seeded accounts.

Some behaviours of the code are easy to expect otherwise. The model follows
the code:

- The code does not keep a contract's phase among the five names. A PUT body
  or a non-empty `phase` with an unrecognised label can store any string.
  So the five counts add up to the total only when every counted contract
  has one of the five phases. That is the "iff" in `Stats.ByPhase`.
- The code does not keep created ids unique. A body `id` overrides the
  generated one, and two creations in the same millisecond collide.
  Lookups then find the first record with that id (`Repository.FindIndex`).
- History is append-only under update-status only. A PUT spreads its body
  over the record (server.js:220-224), so a body with a `history` key
  replaces the history, possibly with `[]` (`Repository.MergeOverlays`).
- The code does not keep a history in time order by itself. Update-status
  appends an entry stamped with the request time (server.js:267, 285), so
  the order holds only while the clock never goes back and no PUT replaces
  `history` (`StatusUpdate.StatusAppliedTimeOrder`).
- A recognised status label applies from any current phase
  (server.js:255-263). Posting `エントリ完了→前確へ` on a `completed` contract
  moves it back to `preconfirm` (`Phases.LabelsIgnoreCurrentPhase`).
- The code has no recall-time validation or 5-minute rounding. The model
  adds none.

## Model

| member | source | states |
|---|---|---|
| Phases.PhaseNamed | server.js:313-317 | A stored phase name maps back to its phase exactly when it is one of the five names. |
| Phases.NextPhaseTable | server.js:253-263 | Each of the four labels gives its phase whatever phase the caller supplies. Any other label gives the supplied phase when it is non-empty, else the contract's current phase. |
| Phases.LabelTarget | server.js:255-263 | Exactly the four status labels are recognised, and none of them leads to `entry`. |
| Phases.NextPhase | server.js:253-263 | With a recognised label the new phase is one of the five, the label's target. Otherwise it is the supplied or the current phase. A phase is never lost: the result is absent only when the current phase was absent. |
| Phases.LabelsFormChain | server.js:255-263 | The label names form a chain: each label is named after the phase it is meant to leave and leads to that phase's successor, one rank on. |
| Phases.LabelsIgnoreCurrentPhase | server.js:253-263 | A recognised label gives the same phase whatever the current phase is, so it does not limit transitions. `エントリ完了→前確へ` moves a `completed` contract back to `preconfirm`. |
| Phases.NextPhaseIdempotent | server.js:253-263 | Applying the same request's phase rule twice gives the same phase as applying it once. |
| Phases.NextPhaseKnown | server.js:253-263 | The new phase is one of the five when the label is recognised, or when the fallback it uses is one of the five. |
| Ids.Decimal | server.js:182 | The rendering of the millisecond count is non-empty decimal digits with no leading zero. |
| Ids.DecimalRoundTrip | server.js:182 | Reading the decimal rendering back gives the original number. |
| Ids.GeneratedIdsDistinct | server.js:182 | Generated ids are `CNT` followed by digits. Two ids are equal exactly when their millisecond counts are equal. |
| Repository.FindIndex | server.js:213 | The result is the first index whose record has the id, or -1 exactly when no record has it. |
| Repository.FindById | server.js:164-170 | The result is absent exactly when no record has the id. Otherwise it is the first record with that id. |
| Repository.FindIndexSameIds | server.js:244 | Two lists with the same ids in the same order give the same answer to every lookup. |
| Repository.FindIndexAppend | server.js:200 | Appending never hides an id that was already found. The appended record is found under its id when no earlier record has that id. |
| Repository.NewContract | server.js:181-198 | A new record without a body id gets the generated id. Its creation and update times are the request time, its phase is one of the five, and its one history entry records the record's phase and status. |
| Repository.NewContractIgnoresBodyState | server.js:181-198 | A body's `phase`, `status`, `createdAt`, `updatedAt` and `history` have no effect on the created record. |
| Repository.CreateContract | server.js:179-203 | Exactly one record is appended at the end. Its phase is `entry` and its status `エントリ待ち`. Its id is the generated `CNT` id unless the body gives one. Its history is one `新規登録` entry whose operator is the body's or `system`. Lookup by its id finds it unless an earlier record has the same id. |
| Repository.Merge | server.js:219-224 | A PUT sets `updatedAt` to the request time, never removes a key, and gives every extra body key the body's value. |
| Repository.MergeOverlays | server.js:219-224 | After a PUT, each key present in the body takes the body's value and each absent key keeps its old value. `updatedAt` is always the request time. |
| Repository.MergeEmptyBody | server.js:219-224 | A PUT with an empty body changes only `updatedAt`. |
| Repository.MergeIdempotent | server.js:219-224 | Sending the same PUT body twice has the effect of sending it once. |
| Repository.MergeCompose | server.js:219-224 | Two PUTs in a row equal one PUT whose body is the second spread over the first. |
| Repository.UpdateContract | server.js:212-229 | An unknown id gives NotFound and leaves the list unchanged. Otherwise the length is preserved, the found record becomes its merge with the body, and no other record changes. |
| Filters.Where | server.js:143 | A filter's result is never longer than its input. |
| Filters.WhereMembers | server.js:143 | A filter keeps exactly the elements satisfying its predicate. Each kept element occurs exactly as often as in the input, and a rejected one not at all. |
| Filters.InAgencyScope | server.js:307-309 | The agency filter, shared by the list and statistics handlers, keeps only stored records, and with a non-empty code only records of that agency. |
| Filters.Matching | server.js:142-149 | The list filters never lengthen the list, and with a non-empty `phase` keep only records in that phase. |
| Filters.MatchingMembers | server.js:142-149 | A record is listed exactly when it is stored and agrees with every non-empty `agencyCode` and `phase` filter. |
| Listing.SortNewestFirst | server.js:152 | The array ends ordered by `createdAt` descending. It is a permutation of its old contents, and records with equal `createdAt` keep their relative order. |
| Listing.StableNewestFirstUnique | server.js:152 | Two orderings that are both newest first and stable for each creation time are equal. So the list order is fully determined. |
| Listing.ListContracts | server.js:138-152 | The result is newest first. It is a permutation of the records matching the filters, and keeps stored order among records with equal `createdAt`. |
| Stats.ByPhase | server.js:304-318 | `total` is the number of agency-filtered records. The five counts sum to at most `total`, and equal it exactly when every counted record has one of the five phases. |
| Stats.ScopedPhaseCount | server.js:307-318 | `total` counts the records passing the agency filter, and each phase count equals the number of records that pass the agency filter and are in that phase. |
| Stats.PhasePartition | server.js:312-318 | The five phase counts plus the count of records outside the five phases equal the length. |
| Stats.ReplaceMovesOneCount | server.js:308-318 | Replacing one record in place without changing its agency keeps `total`. Each phase count loses the old record and gains the new one. |
| Stats.AppendCounts | server.js:308-318 | Appending a record adds one to `total`, and to its phase's count, exactly when the record passes the agency filter. |
| StatusUpdate.EntryFor | server.js:266-279 | The new entry's operator is never empty. Its memo starts with the request's memo. It stores a recall time exactly when the request gives a non-empty one. |
| StatusUpdate.EntryForFields | server.js:266-279 | The new history entry's action and status are the request's status. Its operator is the request's or `system`. Its memo is the request's or `""`. With a recall time, the entry stores the time and the memo carries the ` 📅 再コール予定: ` annotation. |
| StatusUpdate.ApplyStatus | server.js:253-290 | The record gets the label-table phase and the request's status and time. Exactly one entry is appended after the old history; a missing history counts as empty. A given recall time is stored, an absent one keeps the old value, and all other fields are unchanged. |
| StatusUpdate.StatusAppliedTimeOrder | server.js:266-285 | After a status update the history is in non-decreasing time order exactly when the old history was and no old entry is later than the request time. |
| StatusUpdate.UpdateStatus | server.js:243-295 | An unknown id gives NotFound and leaves the list unchanged. Otherwise the length is preserved, only the found record changes (as in ApplyStatus), and ids stay in place. Phases stay among the five when the label is recognised or the fallback phase is one of the five. |
| Lifecycle.RegisterThenConfirmEntry | server.js:181-292 | Creating a contract whose id, generated or given by the body, is not yet taken, and then posting `エントリ完了→前確へ` leaves it in `preconfirm` with two history entries. The list gains exactly that record. |
| Lifecycle.AppendThenAdvanceCounts | server.js:312-318 | After that scenario, the unfiltered counts (no `agencyCode`) change so: `total` and the `preconfirm` count go up by one, and the `entry` count is unchanged. With an agency filter they rise only when the agency matches (`Stats.AppendCounts`). |
| Auth.Login | server.js:111-122 | The result is absent exactly when no user matches both id and password. Otherwise it is the profile of the first matching user, which carries no password. |
| Auth.LoginWithUniqueIds | server.js:111 | When ids are unique, a user logs in exactly with their own password. |
| Auth.SeedLogins | server.js:37-66 | Each seeded account logs in with its own password. An unknown id is refused. `agency_a` receives role `agency` and code `AIC00001`. |

## Left out

- HTTP plumbing is not modelled: routing, `cors`, `bodyParser`, static files, status codes, response shaping, `/health`, `app.listen` and console output (server.js:1-18, 331-364). The model returns `Reply`/`Option` values instead; a 500 on exceptions is not modelled.
- File I/O and JSON encoding are not modelled (server.js:21-99). The list is a value passed in and returned. A failed or malformed read, which the code turns into `[]` (server.js:82-84), is the caller passing `[]`. The seeded users are the constant `Auth.SEED_USERS`.
- Lost updates between concurrent read-modify-write cycles are concurrency and are not modelled.
- Each request reads the clock once, as `now`. The code calls `Date.now()` and `new Date()` several times in one handler, and those calls can differ by a millisecond. ISO timestamps are modelled by their epoch-millisecond values, and the sort compares them as integers.
- JSON value types are narrowed. Every client-supplied field is a string, or an integer for the times. A key set to `null` is not told apart from an absent key. Keys in `extra` are taken to differ from the named fields.
- The handlers mutate the contract object inside the array (aliasing). The model uses values and replaces the element at the found index, which has the same effect.
