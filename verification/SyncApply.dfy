/** The apply policy: last writer wins per row, the loser's text kept as a version, one savepoint per row. */
module SyncApply {
  import opened SyncSchema
  import opened SyncStore

  // ------------------------------------------------------------------
  // What the policy is given
  // ------------------------------------------------------------------

  /** Text comparisons the database and the Unicode library decide. */
  datatype Env = Env(sqlEq: (string, string) -> bool, normalize: string -> string)

  /** The role the changes come from, and whether this connection's writes stay out of the log. */
  datatype Session = Session(env: Env, side: Side, applying: bool)

  /** The generated id and the clock reading one row may need. */
  datatype Draw = Draw(id: Id, now: int)

  // ------------------------------------------------------------------
  // What the policy answers
  // ------------------------------------------------------------------

  datatype Status = Applied | Skipped | Deferred | Rejected

  datatype Reason = NoReason | UnknownTable | MissingRowId | MissingClock | MissingParent(parent: Key) | SqlError

  datatype Conflict = Conflict(ref: Key, incomingWon: bool, loserSide: Side, preserved: Option<int>)

  datatype RowOutcome = RowOutcome(status: Status, reason: Reason, conflict: Option<Conflict>, duplicates: set<Issue>)

  /** A row either completes or raises; what it wrote before raising is rolled back by the caller. */
  datatype Attempt = Done(store: Store, out: RowOutcome) | Raised

  function Plain(status: Status, reason: Reason): RowOutcome {
    RowOutcome(status, reason, None, {})
  }

  // ------------------------------------------------------------------
  // Deciding
  // ------------------------------------------------------------------

  /** A later clock wins; on equal clocks the server's value wins. */
  predicate IncomingWins(incoming: int, existing: Option<int>, side: Side) {
    match existing
    case None => true
    case Some(e) => incoming > e || (incoming == e && side == ServerSide)
  }

  /** Both sides changed the row since they last agreed; without a base this is assumed. */
  predicate TrueDivergence(x: Session, log: seq<LogEntry>, k: Key, ch: Change, incoming: int, existing: Option<int>) {
    if x.side == ClientSide && ch.basePeerSeq.Some? then
      LatestSeq(log, k) > ch.basePeerSeq.value
    else
      match ch.baseClock
      case None => true
      case Some(base) => existing != Some(base) && incoming != base
  }

  predicate RowsEquivalent(existing: Row, incoming: Row) {
    forall c | c in incoming :: Get(existing, c) == incoming[c]
  }

  function MissingParentOf(rows: map<Key, Row>, t: Table, incoming: Row): Option<Key> {
    match ParentOf(t)
    case None => None
    case Some(p) =>
      var v := Get(incoming, p.column);
      if !Truthy(v) then None
      else if v.Text? && Key(p.table, v.s) in rows then None
      else Some(Key(p.table, if v.Text? then v.s else ""))
  }

  // ------------------------------------------------------------------
  // Versions
  // ------------------------------------------------------------------

  /** SQL `=` between a stored value and a parameter; NULL equals nothing. */
  predicate SqlEqual(env: Env, a: Value, b: Value) {
    match (a, b)
    case (Text(s), Text(t)) => env.sqlEq(s, t)
    case (Num(m), Num(n)) => m == n
    case _ => false
  }

  predicate IsVersionOf(rows: map<Key, Row>, k: Key, memo: Id)
    requires k in rows
  {
    k.table == MemoVersions && Get(rows[k], MemoId) == Text(memo)
  }

  predicate HasVersionText(env: Env, rows: map<Key, Row>, memo: Id, text: Value) {
    exists k :: k in rows && IsVersionOf(rows, k, memo) && SqlEqual(env, Get(rows[k], Content), text)
  }

  function VersionNumbers(rows: map<Key, Row>, memo: Id): set<int> {
    set k | k in rows && IsVersionOf(rows, k, memo) && Get(rows[k], Version).Num? :: Get(rows[k], Version).n
  }

  lemma {:induction false} MaxExists(s: set<int>) returns (m: int)
    requires s != {}
    ensures m in s
    ensures forall y | y in s :: y <= m
  {
    assert exists x :: x in s by {
      assert (forall x :: x !in s) ==> s == {};
    }
    var x :| x in s;
    if s == {x} {
      m := x;
    } else {
      var rest := MaxExists(s - {x});
      assert s == s - {x} + {x};
      m := if rest > x then rest else x;
    }
  }

  /** `COALESCE(MAX(..), 0)`. */
  function MaxOrZero(s: set<int>): (m: int)
    ensures s == {} ==> m == 0
    ensures forall y | y in s :: y <= m
    ensures s != {} ==> m in s
  {
    if s == {} then 0
    else
      assert exists m :: m in s && forall y | y in s :: y <= m by { var m := MaxExists(s); }
      var m :| m in s && forall y | y in s :: y <= m;
      m
  }

  function VersionRow(memo: Id, text: Value, number: int, note: string, now: int): Row {
    map[MemoId := Text(memo), Content := text, Version := Num(number), Note := Text(note),
        CreatedAt := Num(now), UpdatedAtUtc := Num(now)]
  }

  function ConflictNote(loser: Side): string {
    if loser == ClientSide then "conflict: local" else "conflict: remote"
  }

  datatype Preservation = Kept(store: Store, version: Option<int>) | KeepFailed

  /** Stores the losing text as the memo's next version unless an equal one is already there.
      The insert is logged even on an applying connection, so the peer receives it. */
  function PreserveText(x: Session, st: Store, k: Key, loser: Row, side: Side, d: Draw): Preservation {
    match ContentColumn(k.table)
    case None => Kept(st, None)
    case Some(c) =>
      var text := Get(loser, c);
      if text == Null || HasVersionText(x.env, st.rows, k.id, text) then Kept(st, None)
      else
        var number := MaxOrZero(VersionNumbers(st.rows, k.id)) + 1;
        var vk := Key(MemoVersions, d.id);
        var row := VersionRow(k.id, text, number, ConflictNote(side), d.now);
        if vk in st.rows || !ConstraintsHold(st.rows, vk, row) then KeepFailed
        else Kept(PutRow(st, false, vk, row), Some(number))
  }

  // ------------------------------------------------------------------
  // Duplicates: reported, never refused
  // ------------------------------------------------------------------

  function NormalName(env: Env, v: Value): string {
    match v
    case Text(s) => env.normalize(s)
    case _ => ""
  }

  /** A live row of the same table and scope, as the query over candidates finds them. */
  predicate IsCandidate(env: Env, rows: map<Key, Row>, k: Key, incoming: Row, axis: DuplicateAxis, other: Key)
    requires other in rows
  {
    && other.table == k.table
    && other != k
    && Get(rows[other], DeletedAt) == Null
    && (axis.scope.Some? ==> SqlEqual(env, Get(rows[other], axis.scope.value), Get(incoming, axis.scope.value)))
  }

  /** The stored row carries the incoming row's name, and neither is deleted. */
  predicate IsDuplicateOf(env: Env, rows: map<Key, Row>, k: Key, incoming: Row, other: Key)
    requires other in rows
  {
    match DuplicateAxisOf(k.table)
    case None => false
    case Some(axis) =>
      && Get(incoming, DeletedAt) == Null
      && NormalName(env, Get(incoming, axis.nameColumn)) != ""
      && IsCandidate(env, rows, k, incoming, axis, other)
      && NormalName(env, Get(rows[other], axis.nameColumn)) == NormalName(env, Get(incoming, axis.nameColumn))
  }

  function DuplicateIssue(k: Key, other: Key): Issue {
    Issue(if k.table == Projects then DuplicateProject else DuplicateMemo, k, Some(other.id))
  }

  function FindDuplicates(env: Env, rows: map<Key, Row>, k: Key, incoming: Row): set<Issue> {
    set other | other in rows && IsDuplicateOf(env, rows, k, incoming, other) :: DuplicateIssue(k, other)
  }

  // ------------------------------------------------------------------
  // One change
  // ------------------------------------------------------------------

  function Stored(x: Session, st: Store, k: Key, row: Row, incoming: Row, conflict: Option<Conflict>): Attempt {
    if !ConstraintsHold(st.rows, k, row) then Raised
    else
      var put := PutRow(st, x.applying, k, row);
      var duplicates := FindDuplicates(x.env, put.rows, k, incoming);
      Done(put.(issues := put.issues + duplicates), RowOutcome(Applied, NoReason, conflict, duplicates))
  }

  /** A hard delete reaches a soft-delete table as a tombstone stamped with the local clock. */
  function HardDelete(x: Session, st: Store, k: Key, d: Draw): Attempt {
    if k !in st.rows then Done(st, Plain(Skipped, NoReason))
    else if DeletedAt !in Columns(k.table) then Done(DropRow(st, x.applying, k), Plain(Applied, NoReason))
    else if Get(st.rows[k], DeletedAt) != Null then Done(st, Plain(Skipped, NoReason))
    else
      var row := st.rows[k][DeletedAt := Num(d.now)][UpdatedAtUtc := Num(d.now)];
      Done(PutRow(st, x.applying, k, row), Plain(Applied, NoReason))
  }

  function ApplyOver(x: Session, st: Store, k: Key, ch: Change, incoming: Row, clock: int, d: Draw): Attempt
    requires k in st.rows
  {
    var existing := st.rows[k];
    var wins := IncomingWins(clock, ClockOf(existing), x.side);
    if ClockOf(existing) == Some(clock) && RowsEquivalent(existing, incoming) then
      Done(st, Plain(Skipped, NoReason))
    else if !TrueDivergence(x, st.log, k, ch, clock, ClockOf(existing)) then
      if wins then Stored(x, st, k, existing + incoming, incoming, None)
      else Done(st, Plain(Skipped, NoReason))
    else
      var loserSide := if wins then OtherSide(x.side) else x.side;
      match PreserveText(x, st, k, if wins then existing else incoming, loserSide, d)
      case KeepFailed => Raised
      case Kept(kept, version) =>
        var conflict := Conflict(k, wins, loserSide, version);
        var noted := kept.(issues := kept.issues + {Issue(ConflictIssue, k, None)});
        if wins then Stored(x, noted, k, existing + incoming, incoming, Some(conflict))
        else Done(noted, RowOutcome(Skipped, NoReason, Some(conflict), {}))
  }

  function ApplyOne(x: Session, st: Store, t: Table, ch: Change, d: Draw): Attempt {
    var k := Key(t, ch.rowId);
    if ch.rowId == "" then Done(st, Plain(Rejected, MissingRowId))
    else if ch.op == Delete && ch.row.None? then HardDelete(x, st, k, d)
    else
      var incoming := if ch.row.Some? then FilterRow(t, ch.row.value) else map[];
      if ClockOf(incoming).None? then Done(st, Plain(Rejected, MissingClock))
      else if MissingParentOf(st.rows, t, incoming).Some? then
        Done(st, Plain(Deferred, MissingParent(MissingParentOf(st.rows, t, incoming).value)))
      else if k !in st.rows then
        Stored(x, st, k, Defaults(t, d.now) + incoming, incoming, None)
      else
        ApplyOver(x, st, k, ch, incoming, ClockOf(incoming).value, d)
  }
}
