/** A batch of changes as a fold of row transitions, with receipts for what a peer has already delivered. */
module SyncBatch {
  import opened SyncSchema
  import opened SyncStore
  import opened SyncApply

  datatype Result = Result(
    seqNo: Option<nat>, table: Option<Table>, rowId: Id,
    status: Status, reason: Reason, conflict: bool, clock: Option<int>)

  datatype Refusal = Refusal(table: Option<Table>, rowId: Id, reason: Reason)

  datatype Outcome = Outcome(
    applied: nat, skipped: nat,
    deferred: seq<Refusal>, rejected: seq<Refusal>,
    conflicts: seq<Conflict>, duplicates: set<Issue>,
    appliedRefs: seq<Key>, results: seq<Result>)

  const EMPTY_OUTCOME := Outcome(0, 0, [], [], [], {}, [], [])

  function Merge(a: Outcome, b: Outcome): Outcome {
    Outcome(a.applied + b.applied, a.skipped + b.skipped,
            a.deferred + b.deferred, a.rejected + b.rejected,
            a.conflicts + b.conflicts, a.duplicates + b.duplicates,
            a.appliedRefs + b.appliedRefs, a.results + b.results)
  }

  /** Whose receipts a batch is checked against: the account and the `client:epoch` that sends it. */
  datatype Peer = Peer(account: Id, client: Id)

  datatype ReceiptKey = ReceiptKey(peer: Peer, seqNo: nat)

  /** The payload hash is injective, so the payload itself stands for it. */
  datatype Receipt = Receipt(payload: Change, part: Outcome)

  type Receipts = map<ReceiptKey, Receipt>

  datatype Progress = Running(store: Store, receipts: Receipts, out: Outcome) | Aborted

  // ------------------------------------------------------------------
  // What one row contributes to the outcome
  // ------------------------------------------------------------------

  function EffectiveClock(rows: map<Key, Row>, t: Table, id: Id): Option<int> {
    if id != "" && Key(t, id) in rows then ClockOf(rows[Key(t, id)]) else None
  }

  function PartOf(t: Table, ch: Change, o: RowOutcome, rows: map<Key, Row>): Outcome {
    var refusal := [Refusal(Some(t), ch.rowId, o.reason)];
    Outcome(
      if o.status == Applied then 1 else 0,
      if o.status == Skipped then 1 else 0,
      if o.status == Deferred then refusal else [],
      if o.status == Rejected then refusal else [],
      if o.conflict.Some? then [o.conflict.value] else [],
      o.duplicates,
      if o.status == Applied then [Key(t, ch.rowId)] else [],
      [Result(ch.seqNo, Some(t), ch.rowId, o.status, o.reason, o.conflict.Some?, EffectiveClock(rows, t, ch.rowId))])
  }

  function RefusedPart(t: Option<Table>, ch: Change, reason: Reason): Outcome {
    EMPTY_OUTCOME.(rejected := [Refusal(t, ch.rowId, reason)],
                   results := [Result(ch.seqNo, t, ch.rowId, Rejected, reason, false, None)])
  }

  function StatusOf(part: Outcome): Status
    requires |part.results| == 1
  {
    part.results[0].status
  }

  // ------------------------------------------------------------------
  // One row, under its savepoint
  // ------------------------------------------------------------------

  function ReceiptOf(peer: Option<Peer>, ch: Change): Option<ReceiptKey> {
    if peer.Some? && ch.seqNo.Some? then Some(ReceiptKey(peer.value, ch.seqNo.value)) else None
  }

  function WithReceipt(receipts: Receipts, key: Option<ReceiptKey>, ch: Change, part: Outcome): Receipts {
    if key.Some? then receipts[key.value := Receipt(ch, part)] else receipts
  }

  function StepRow(x: Session, peer: Option<Peer>, p: Progress, t: Table, ch: Change, d: Draw): Progress
    requires p.Running?
  {
    var key := ReceiptOf(peer, ch);
    if key.Some? && key.value in p.receipts then
      var receipt := p.receipts[key.value];
      if receipt.payload != ch then Aborted else p.(out := Merge(p.out, receipt.part))
    else
      match ApplyOne(x, p.store, t, ch, d)
      case Raised =>
        var part := RefusedPart(Some(t), ch, SqlError);
        Running(p.store, WithReceipt(p.receipts, key, ch, part), Merge(p.out, part))
      case Done(store, o) =>
        var part := PartOf(t, ch, o, store.rows);
        Running(store,
                if o.status == Deferred then p.receipts else WithReceipt(p.receipts, key, ch, part),
                Merge(p.out, part))
  }

  // ------------------------------------------------------------------
  // The batch
  // ------------------------------------------------------------------

  function Having(changes: seq<Change>, t: Option<Table>): (r: seq<Change>)
    ensures forall ch | ch in r :: ch.table == t && ch in changes
  {
    if changes == [] then []
    else
      var rest := Having(changes[..|changes| - 1], t);
      if changes[|changes| - 1].table == t then rest + [changes[|changes| - 1]] else rest
  }

  /** Whitelisted changes in foreign-key order, each table's own order kept. */
  function Ordered(changes: seq<Change>): (r: seq<Change>)
    ensures forall ch | ch in r :: ch.table.Some? && ch in changes
  {
    Having(changes, Some(Projects)) + Having(changes, Some(Memos)) + Having(changes, Some(MemoVersions))
    + Having(changes, Some(ProjectMembers))
  }

  function RefuseAll(unlisted: seq<Change>): Outcome {
    if unlisted == [] then EMPTY_OUTCOME
    else
      Merge(RefuseAll(unlisted[..|unlisted| - 1]), RefusedPart(None, unlisted[|unlisted| - 1], UnknownTable))
  }

  /** Row transitions over a prefix of the ordered work, in order; `draw(i)` serves the i-th row. */
  function Fold(x: Session, peer: Option<Peer>, p: Progress, work: seq<Change>, draw: nat -> Draw): Progress
    requires forall ch | ch in work :: ch.table.Some?
  {
    if work == [] || p.Aborted? then p
    else
      var n := |work| - 1;
      var before := Fold(x, peer, p, work[..n], draw);
      if before.Aborted? then Aborted
      else StepRow(x, peer, before, work[n].table.value, work[n], draw(n))
  }

  function ApplyBatch(
    x: Session, peer: Option<Peer>, st: Store, receipts: Receipts, changes: seq<Change>, draw: nat -> Draw): Progress
  {
    Fold(x, peer, Running(st, receipts, RefuseAll(Having(changes, None))), Ordered(changes), draw)
  }
}
