/** One node's replicated rows together with the change log its triggers fill. */
module SyncStore {
  import opened SyncSchema

  datatype Op = Insert | Update | Delete

  datatype LogEntry = LogEntry(key: Key, op: Op)

  datatype IssueKind = ConflictIssue | DuplicateProject | DuplicateMemo | DeadLetter

  /** An unresolved row of `sync_issues`; recording the same issue twice keeps one row. */
  datatype Issue = Issue(kind: IssueKind, ref: Key, peer: Option<Id>)

  /** `log[i]` is the change_log row with seq `i + 1`: seqs follow commit order. */
  datatype Store = Store(rows: map<Key, Row>, log: seq<LogEntry>, issues: set<Issue>)

  const EMPTY_STORE := Store(map[], [], {})

  datatype Side = ClientSide | ServerSide

  function OtherSide(side: Side): Side {
    if side.ClientSide? then ServerSide else ClientSide
  }

  /** A change on the wire. `table` is None for a table name outside the whitelist. */
  datatype Change = Change(
    seqNo: Option<nat>,
    table: Option<Table>,
    rowId: Id,
    op: Op,
    row: Option<Row>,
    baseClock: Option<int>,
    basePeerSeq: Option<nat>)

  /** The row trigger: a write is logged unless the connection is applying a peer's changes. */
  function Logged(log: seq<LogEntry>, applying: bool, k: Key, op: Op): seq<LogEntry> {
    if applying then log else log + [LogEntry(k, op)]
  }

  function PutRow(st: Store, applying: bool, k: Key, row: Row): Store {
    var op := if k in st.rows then Update else Insert;
    st.(rows := st.rows[k := row], log := Logged(st.log, applying, k, op))
  }

  function DropRow(st: Store, applying: bool, k: Key): Store {
    st.(rows := st.rows - {k}, log := Logged(st.log, applying, k, Delete))
  }

  /** `SELECT COALESCE(MAX(seq), 0) FROM change_log WHERE table_name = .. AND row_id = ..` */
  function LatestSeq(log: seq<LogEntry>, k: Key): nat {
    if |log| == 0 then 0
    else if log[|log| - 1].key == k then |log|
    else LatestSeq(log[..|log| - 1], k)
  }

  lemma {:induction false} LatestSeqIsLast(log: seq<LogEntry>, k: Key)
    ensures LatestSeq(log, k) <= |log|
    ensures LatestSeq(log, k) > 0 ==> log[LatestSeq(log, k) - 1].key == k
    ensures forall i | LatestSeq(log, k) <= i < |log| :: log[i].key != k
  {
    if |log| > 0 && log[|log| - 1].key != k {
      LatestSeqIsLast(log[..|log| - 1], k);
    }
  }
}
