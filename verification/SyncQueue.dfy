/** The client's durable bookkeeping: change feeds, the retry queue, row sync state and what an answer does to them. */
module SyncQueue {
  import opened SyncSchema
  import opened SyncStore
  import opened SyncApply
  import opened SyncBatch

  datatype Direction = Push | Pull | PushDead | PullDead

  datatype QueueKey = QueueKey(direction: Direction, seqNo: nat)

  type Queue = map<QueueKey, Change>

  /** What was last agreed with the peer about a row. `peerSeq` only grows, `clock` may go back. */
  datatype RowState = RowState(clock: int, peerSeq: nat)

  datatype Client = Client(
    store: Store, queue: Queue, rowState: map<Key, RowState>,
    pushed: nat, pulled: nat, epoch: Option<Id>)

  datatype Server = Server(store: Store, receipts: Receipts)

  // ------------------------------------------------------------------
  // Feeds
  // ------------------------------------------------------------------

  /** One past the last log index a window of `limit` entries after `since` scans. */
  function WindowEnd(log: seq<LogEntry>, since: nat, limit: nat): nat {
    if since + limit < |log| then since + limit else if since < |log| then |log| else since
  }

  /** No later entry of the window is about the same row. */
  predicate LastOfItsRow(log: seq<LogEntry>, i: nat, hi: nat)
    requires i < hi <= |log|
  {
    forall j | i < j < hi :: log[j].key != log[i].key
  }

  function TextOf(v: Value): Option<Id> {
    if v.Text? then Some(v.s) else None
  }

  /** The project that decides who may see or change a row. */
  function ProjectOfRow(rows: map<Key, Row>, k: Key, row: Row): Option<Id> {
    match k.table
    case Projects => Some(k.id)
    case Memos => TextOf(Get(row, ProjectId))
    case ProjectMembers => TextOf(Get(row, ProjectId))
    case MemoVersions =>
      match TextOf(Get(row, MemoId))
      case None => None
      case Some(memo) =>
        if Key(Memos, memo) in rows then TextOf(Get(rows[Key(Memos, memo)], ProjectId)) else None
  }

  predicate HasMembership(rows: map<Key, Row>, project: Id, account: Id) {
    exists m :: m in rows && IsMembership(rows, m, project, account)
  }

  function VisibleProjects(rows: map<Key, Row>, account: Id): set<Id> {
    set k | k in rows && k.table == Projects
            && (Get(rows[k], OwnerId) == Text(account) || HasMembership(rows, k.id, account)) :: k.id
  }

  predicate Visible(st: Store, k: Key, account: Id)
    requires k in st.rows
  {
    var project := ProjectOfRow(st.rows, k, st.rows[k]);
    project.Some? ==> project.value in VisibleProjects(st.rows, account)
  }

  function FeedChange(st: Store, i: nat): Change
    requires i < |st.log| && st.log[i].key in st.rows
  {
    var k := st.log[i].key;
    Change(Some(i + 1), Some(k.table), k.id, st.log[i].op, Some(st.rows[k]), None, None)
  }

  predicate InFeed(st: Store, account: Id, i: nat, hi: nat)
    requires i < hi <= |st.log|
  {
    LastOfItsRow(st.log, i, hi) && st.log[i].key in st.rows && Visible(st, st.log[i].key, account)
  }

  /** The peer feed for log indices lo..hi: each row's last entry, with the row as it is now. */
  function ReadWindow(st: Store, account: Id, lo: nat, hi: nat): seq<Change>
    requires lo <= hi <= |st.log|
    decreases hi - lo
  {
    if lo == hi then []
    else
      (if InFeed(st, account, lo, hi) then [FeedChange(st, lo)] else []) + ReadWindow(st, account, lo + 1, hi)
  }

  function LocalChange(st: Store, rowState: map<Key, RowState>, i: nat): Change
    requires i < |st.log|
  {
    var k := st.log[i].key;
    var base := if k in rowState then Some(rowState[k]) else None;
    Change(Some(i + 1), Some(k.table), k.id,
           if k in st.rows then st.log[i].op else Delete,
           if k in st.rows then Some(st.rows[k]) else None,
           if base.Some? then Some(base.value.clock) else None,
           if base.Some? then Some(base.value.peerSeq) else None)
  }

  /** The outgoing changes for log indices lo..hi, each carrying what was last agreed about its row. */
  function CollectWindow(st: Store, rowState: map<Key, RowState>, lo: nat, hi: nat): seq<Change>
    requires lo <= hi <= |st.log|
    decreases hi - lo
  {
    if lo == hi then []
    else
      (if LastOfItsRow(st.log, lo, hi) then [LocalChange(st, rowState, lo)] else [])
      + CollectWindow(st, rowState, lo + 1, hi)
  }

  // ------------------------------------------------------------------
  // The retry queue
  // ------------------------------------------------------------------

  /** A queued payload never changes: re-queueing the same seq with another payload is an error. */
  function Enqueue(q: Queue, direction: Direction, ch: Change): Option<Queue> {
    if ch.seqNo.None? then None
    else
      var key := QueueKey(direction, ch.seqNo.value);
      if key in q && q[key] != ch then None else Some(q[key := ch])
  }

  function EnqueueAll(q: Queue, direction: Direction, changes: seq<Change>): Option<Queue> {
    if changes == [] then Some(q)
    else
      match EnqueueAll(q, direction, changes[..|changes| - 1])
      case None => None
      case Some(rest) => Enqueue(rest, direction, changes[|changes| - 1])
  }

  function Bury(q: Queue, direction: Direction, seqNo: nat): Queue {
    var live := QueueKey(direction, seqNo);
    if live !in q then q
    else
      var dead := if direction == Push then PushDead else PullDead;
      (q - {live})[QueueKey(dead, seqNo) := q[live]]
  }

  function LiveSeqs(q: Queue, direction: Direction): set<nat> {
    set key | key in q && key.direction == direction :: key.seqNo
  }

  lemma {:induction false} MinExists(s: set<nat>) returns (m: nat)
    requires s != {}
    ensures m in s
    ensures forall y | y in s :: m <= y
  {
    assert exists x :: x in s by {
      assert (forall x :: x !in s) ==> s == {};
    }
    var x :| x in s;
    if s == {x} {
      m := x;
    } else {
      var rest := MinExists(s - {x});
      assert s == s - {x} + {x};
      m := if rest < x then rest else x;
    }
  }

  function Least(s: set<nat>): (m: nat)
    requires s != {}
    ensures m in s
    ensures forall y | y in s :: m <= y
  {
    assert exists m :: m in s && forall y | y in s :: m <= y by { var m := MinExists(s); }
    var m :| m in s && forall y | y in s :: m <= y;
    m
  }

  /** `ORDER BY seq ASC LIMIT limit` */
  function SortedPrefix(s: set<nat>, limit: nat): (r: seq<nat>)
    ensures forall n | n in r :: n in s
    decreases |s|
  {
    if s == {} || limit == 0 then []
    else [Least(s)] + SortedPrefix(s - {Least(s)}, limit - 1)
  }

  lemma {:induction false} SortedPrefixAscends(s: set<nat>, limit: nat)
    ensures forall i, j | 0 <= i < j < |SortedPrefix(s, limit)| :: SortedPrefix(s, limit)[i] < SortedPrefix(s, limit)[j]
    decreases |s|
  {
    if s != {} && limit != 0 {
      var rest := SortedPrefix(s - {Least(s)}, limit - 1);
      SortedPrefixAscends(s - {Least(s)}, limit - 1);
      assert forall j | 0 <= j < |rest| :: rest[j] in rest && rest[j] != Least(s);
    }
  }

  lemma {:induction false} SortedPrefixIsWhole(s: set<nat>, limit: nat)
    requires |s| <= limit
    ensures forall n | n in s :: n in SortedPrefix(s, limit)
    decreases |s|
  {
    if s != {} {
      SortedPrefixIsWhole(s - {Least(s)}, limit - 1);
    }
  }

  /** Exactly the `limit` lowest are listed. */
  lemma {:induction false} ListedAreLowest(s: set<nat>, limit: nat, n: nat)
    ensures n in SortedPrefix(s, limit) <==> n in s && |set m | m in s && m < n| < limit
    decreases |s|
  {
    if s != {} && limit != 0 {
      var least := Least(s);
      var below, rest := set m | m in s && m < n, set m | m in s - {least} && m < n;
      ListedAreLowest(s - {least}, limit - 1, n);
      if n == least {
        assert below == {};
      } else if n in s {
        assert below == rest + {least};
      }
    } else {
      assert s == {} ==> n !in s;
    }
  }

  function ChangesAt(q: Queue, direction: Direction, seqs: seq<nat>): seq<Change>
    requires forall n | n in seqs :: QueueKey(direction, n) in q
  {
    seq(|seqs|, i requires 0 <= i < |seqs| => q[QueueKey(direction, seqs[i])])
  }

  function ListRetries(q: Queue, direction: Direction, limit: nat): seq<Change> {
    ChangesAt(q, direction, SortedPrefix(LiveSeqs(q, direction), limit))
  }

  // ------------------------------------------------------------------
  // Row sync state
  // ------------------------------------------------------------------

  function Remember(rs: map<Key, RowState>, k: Key, clock: Option<int>, peerSeq: nat): map<Key, RowState> {
    if clock.None? || k.id == "" then rs
    else
      var kept := if k in rs && rs[k].peerSeq > peerSeq then rs[k].peerSeq else peerSeq;
      rs[k := RowState(clock.value, kept)]
  }

  /** A pulled change that names no base is judged against what this client last agreed about the row. */
  function WithBase(rs: map<Key, RowState>, ch: Change): Change {
    if ch.baseClock.Some? || ch.table.None? || ch.rowId == "" then ch
    else
      var k := Key(ch.table.value, ch.rowId);
      if k in rs then ch.(baseClock := Some(rs[k].clock)) else ch
  }

  function WithBases(rs: map<Key, RowState>, changes: seq<Change>): seq<Change> {
    seq(|changes|, i requires 0 <= i < |changes| => WithBase(rs, changes[i]))
  }

  // ------------------------------------------------------------------
  // What an answer does
  // ------------------------------------------------------------------

  function ResultFor(results: seq<Result>, seqNo: Option<nat>): Option<Result> {
    if results == [] then None
    else if results[|results| - 1].seqNo == seqNo then Some(results[|results| - 1])
    else ResultFor(results[..|results| - 1], seqNo)
  }

  function DeadLetterIssue(ch: Change): Issue
    requires ch.table.Some?
  {
    Issue(DeadLetter, Key(ch.table.value, ch.rowId), None)
  }

  function Noted(c: Client, issue: Issue): Client {
    c.(store := c.store.(issues := c.store.issues + {issue}))
  }

  /** One pulled change after its page was applied; None when its queue entry would have to change. */
  function SettlePaged(c: Client, ch: Change, r: Option<Result>): Option<Client>
    requires ch.table.Some? && ch.seqNo.Some?
  {
    if r.None? || r.value.status == Deferred || r.value.status == Rejected then
      match Enqueue(c.queue, Pull, ch)
      case None => None
      case Some(q) =>
        if r.Some? && r.value.status == Rejected then
          Some(Noted(c.(queue := Bury(q, Pull, ch.seqNo.value)), DeadLetterIssue(ch)))
        else Some(c.(queue := q))
    else
      var clock := if ch.row.Some? && ClockOf(ch.row.value).Some? then ClockOf(ch.row.value) else r.value.clock;
      Some(c.(rowState := Remember(c.rowState, Key(ch.table.value, ch.rowId), clock, ch.seqNo.value)))
  }

  /** One queued pull after its retry. */
  function SettleRetried(c: Client, ch: Change, r: Option<Result>): Client
    requires ch.table.Some? && ch.seqNo.Some?
  {
    if r.None? || r.value.status == Deferred then c
    else if r.value.status == Rejected then
      Noted(c.(queue := Bury(c.queue, Pull, ch.seqNo.value)), DeadLetterIssue(ch))
    else
      var clock := if ch.row.Some? && ClockOf(ch.row.value).Some? then ClockOf(ch.row.value) else r.value.clock;
      c.(queue := c.queue - {QueueKey(Pull, ch.seqNo.value)},
         rowState := Remember(c.rowState, Key(ch.table.value, ch.rowId), clock, ch.seqNo.value))
  }

  function SettlePage(c: Client, changes: seq<Change>, results: seq<Result>): Option<Client>
    requires forall ch | ch in changes :: ch.table.Some? && ch.seqNo.Some?
  {
    if changes == [] then Some(c)
    else
      var n := |changes| - 1;
      match SettlePage(c, changes[..n], results)
      case None => None
      case Some(d) => SettlePaged(d, changes[n], ResultFor(results, changes[n].seqNo))
  }

  function SettleRetries(c: Client, changes: seq<Change>, results: seq<Result>): Client
    requires forall ch | ch in changes :: ch.table.Some? && ch.seqNo.Some?
  {
    if changes == [] then c
    else
      var n := |changes| - 1;
      SettleRetried(SettleRetries(c, changes[..n], results), changes[n], ResultFor(results, changes[n].seqNo))
  }

  /** The response to one pushed change: terminal answers leave the outbox, refusals become dead letters. */
  function SettlePushed(c: Client, seqNo: nat, answer: Outcome): Client {
    var issues := answer.duplicates + set i | 0 <= i < |answer.conflicts| ::
        Issue(ConflictIssue, answer.conflicts[i].ref, None);
    var mirrored := c.(store := c.store.(issues := c.store.issues + issues));
    if answer.results == [] then mirrored
    else
      var r := answer.results[0];
      match r.status
      case Deferred => mirrored
      case Rejected =>
        var entry := QueueKey(Push, seqNo);
        var buried := mirrored.(queue := Bury(mirrored.queue, Push, seqNo));
        if entry in c.queue && c.queue[entry].table.Some? then Noted(buried, DeadLetterIssue(c.queue[entry]))
        else buried
      case _ =>
        var dropped := mirrored.(queue := mirrored.queue - {QueueKey(Push, seqNo)});
        if r.table.Some? then
          dropped.(rowState := Remember(dropped.rowState, Key(r.table.value, r.rowId), r.clock, 0))
        else dropped
  }
}
