/** The tables the two nodes replicate, their columns, and the constraints MySQL keeps on them. */
module SyncSchema {

  datatype Option<+T> = None | Some(value: T)

  type Id = string

  datatype Table = Projects | Memos | MemoVersions | ProjectMembers

  /** Foreign-key order: every table comes after the table its parent column points into. */
  const TABLE_ORDER: seq<Table> := [Projects, Memos, MemoVersions, ProjectMembers]

  datatype Column =
    | OwnerId | Name | Icon | Status | IsSecret | CreatedAt | UpdatedAt | UpdatedAtUtc | DeletedAt
    | ProjectId | CreatedBy | Title | Content
    | MemoId | Version | Note
    | UserId | Username | DisplayName | Email | Role | InvitedAt

  /** Clocks are `Num`, in milliseconds. */
  datatype Value = Null | Text(s: string) | Num(n: int)

  /** A row without its primary key, which is the `Key` the row is stored under. */
  type Row = map<Column, Value>

  datatype Key = Key(table: Table, id: Id)

  function Columns(t: Table): set<Column> {
    match t
    case Projects => {OwnerId, Name, Icon, Status, IsSecret, CreatedAt, UpdatedAt, UpdatedAtUtc, DeletedAt}
    case Memos => {ProjectId, CreatedBy, Title, Content, Status, CreatedAt, UpdatedAt, UpdatedAtUtc, DeletedAt}
    case MemoVersions => {MemoId, Content, Version, Note, CreatedAt, UpdatedAtUtc}
    case ProjectMembers =>
      {ProjectId, UserId, Username, DisplayName, Email, Role, InvitedAt, UpdatedAtUtc, DeletedAt}
  }

  function NotNull(t: Table): set<Column> {
    match t
    case Projects => {Name, Icon, Status, CreatedAt, UpdatedAt, UpdatedAtUtc}
    case Memos => {ProjectId, Title, Status, CreatedAt, UpdatedAt, UpdatedAtUtc}
    case MemoVersions => {MemoId, Version, CreatedAt, UpdatedAtUtc}
    case ProjectMembers => {ProjectId, UserId, Role, InvitedAt, UpdatedAtUtc}
  }

  /** What MySQL stores in a column an INSERT does not mention. */
  function ColumnDefault(c: Column, now: int): Value {
    match c
    case Status => Num(0)
    case IsSecret => Num(0)
    case Role => Text("viewer")
    case CreatedAt => Num(now)
    case UpdatedAt => Num(now)
    case InvitedAt => Num(now)
    case _ => Null
  }

  function Defaults(t: Table, now: int): Row {
    map c | c in Columns(t) :: ColumnDefault(c, now)
  }

  datatype Parent = Parent(column: Column, table: Table)

  function ParentOf(t: Table): Option<Parent> {
    match t
    case Projects => None
    case Memos => Some(Parent(ProjectId, Projects))
    case MemoVersions => Some(Parent(MemoId, Memos))
    case ProjectMembers => Some(Parent(ProjectId, Projects))
  }

  /** Distance from a root table; a parent always has a smaller rank. */
  function Rank(t: Table): nat {
    match t
    case Projects => 0
    case Memos => 1
    case ProjectMembers => 1
    case MemoVersions => 2
  }

  /** The one column whose losing text has to survive a conflict. */
  function ContentColumn(t: Table): Option<Column> {
    if t == Memos then Some(Content) else None
  }

  /** Where a duplicate name is looked for: the labelled column and the column that scopes it. */
  datatype DuplicateAxis = DuplicateAxis(nameColumn: Column, scope: Option<Column>)

  function DuplicateAxisOf(t: Table): Option<DuplicateAxis> {
    match t
    case Projects => Some(DuplicateAxis(Name, None))
    case Memos => Some(DuplicateAxis(Title, Some(ProjectId)))
    case _ => None
  }

  function Get(row: Row, c: Column): Value {
    if c in row then row[c] else Null
  }

  /** Python truth of a column value. */
  predicate Truthy(v: Value) {
    match v
    case Null => false
    case Text(s) => s != ""
    case Num(n) => n != 0
  }

  function ClockOf(row: Row): Option<int> {
    match Get(row, UpdatedAtUtc)
    case Num(n) => Some(n)
    case _ => None
  }

  /** Keeps the columns both sides know; anything else is dropped silently. */
  function FilterRow(t: Table, row: Row): Row {
    map c | c in row && c in Columns(t) :: row[c]
  }

  // ------------------------------------------------------------------
  // Constraints
  // ------------------------------------------------------------------

  predicate ParentStored(rows: map<Key, Row>, t: Table, row: Row) {
    match ParentOf(t)
    case None => true
    case Some(p) =>
      var v := Get(row, p.column);
      v.Text? && Key(p.table, v.s) in rows
  }

  predicate NoNulls(t: Table, row: Row) {
    forall c | c in NotNull(t) :: Get(row, c) != Null
  }

  predicate MembershipUnique(rows: map<Key, Row>, k: Key, row: Row) {
    k.table == ProjectMembers ==>
      forall other | other in rows && other.table == ProjectMembers && other != k ::
        Get(rows[other], ProjectId) != Get(row, ProjectId) || Get(rows[other], UserId) != Get(row, UserId)
  }

  /** The row may be stored under `k`: NOT NULL, FOREIGN KEY and UNIQUE(project_id, user_id) all hold. */
  predicate ConstraintsHold(rows: map<Key, Row>, k: Key, row: Row) {
    && NoNulls(k.table, row)
    && ParentStored(rows, k.table, row)
    && MembershipUnique(rows, k, row)
  }

  /** Every stored row has exactly its table's columns, a clock, and a stored parent. */
  predicate RowsValid(rows: map<Key, Row>) {
    forall k | k in rows ::
      && rows[k].Keys == Columns(k.table)
      && ClockOf(rows[k]).Some?
      && ParentStored(rows, k.table, rows[k])
  }

  /** A membership of the project, live or not. */
  predicate IsMember(rows: map<Key, Row>, k: Key, project: Id) {
    k in rows && k.table == ProjectMembers && Get(rows[k], ProjectId) == Text(project)
  }

  predicate IsLiveMember(rows: map<Key, Row>, k: Key, project: Id) {
    IsMember(rows, k, project) && Get(rows[k], DeletedAt) == Null
  }

  /** The live membership of one account. */
  predicate IsMembership(rows: map<Key, Row>, k: Key, project: Id, account: Id) {
    IsLiveMember(rows, k, project) && Get(rows[k], UserId) == Text(account)
  }

  /** No two live or dead memberships share a project and a user. */
  predicate MembershipsDistinct(rows: map<Key, Row>) {
    forall k | k in rows :: MembershipUnique(rows, k, rows[k])
  }

  lemma ParentHasSmallerRank(t: Table)
    ensures ParentOf(t).Some? ==> Rank(ParentOf(t).value.table) < Rank(t)
  {
  }
}
