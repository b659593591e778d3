/** Why the server's clocks have to be strict as well: a tie that arrives can be taken back by an older item that
    waited for its project. */
module SyncTies {
  import opened SyncSchema
  import opened SyncStore
  import opened SyncApply
  import opened SyncBatch
  import opened SyncQueue
  import opened TwoNode
  import opened SyncInvariants
  import opened SyncSafety
  import opened SyncConvergence
  import opened SyncSamples
  import opened SyncPullProofs
  import opened SyncFeedProofs
  import opened SyncClocks
  import opened SyncGate
  import opened SyncLiveness
  import opened SyncTermination
  import opened SyncEffectProofs

  const OLD_PROJECT := Key(Projects, "p1")
  const NEW_PROJECT := Key(Projects, "p2")
  const MEMO := Key(Memos, "m")

  function OldProject(w: World): Row { ProjectRow(w, "old", 1) }
  function NewProject(w: World): Row { ProjectRow(w, "new", 1) }

  /** The memo as it is first written, as it is moved, and as it is then renamed with the same stamp. */
  function Written(): Row { MemoRow("p1", "first", 1) }
  function MovedRow(): Row { MemoRow("p2", "first", 2) }
  function Renamed(): Row { MemoRow("p2", "second", 2) }

  function Item(n: nat, k: Key, op: Op, row: Row): Change {
    Change(Some(n), Some(k.table), k.id, op, Some(row), None, None)
  }

  // ------------------------------------------------------------------
  // The server
  // ------------------------------------------------------------------

  function Log(): seq<LogEntry> {
    [LogEntry(OLD_PROJECT, Insert), LogEntry(MEMO, Insert), LogEntry(NEW_PROJECT, Insert), LogEntry(MEMO, Update)]
  }

  function Moved(w: World): Store {
    Store(map[OLD_PROJECT := OldProject(w), NEW_PROJECT := NewProject(w), MEMO := MovedRow()], Log(), {})
  }

  function Tied(w: World): Store {
    Moved(w).(rows := Moved(w).rows[MEMO := Renamed()], log := Log() + [LogEntry(MEMO, Update)])
  }

  function Edits(w: World): seq<Action> {
    [ServerEdit(OLD_PROJECT, OldProject(w)), ServerEdit(MEMO, Written()),
     ServerEdit(NEW_PROJECT, NewProject(w)), ServerEdit(MEMO, MovedRow())]
  }

  function Tie(): Action {
    ServerEdit(MEMO, Renamed())
  }

  function TieRun(w: World, d: Draw): seq<Action> {
    Edits(w) + [ReadPage(2), ApplyPage(i => d), Tie(), ReadPage(3), ApplyPage(i => d), RetryPulls(1, i => d)]
  }

  lemma EditsRun(w: World)
    ensures IsRun(w, Edits(w)) && SysAfter(w, Edits(w)) == START.(server := Server(Moved(w), map[]))
  {
    hide IsRun, SysAfter, EditAllowed, ProjectRow, MemoRow;
    EmptyRun(w);
    var acts := Edits(w);
    ProjectAllowed(w, map[], "p1", "old", 1);
    ServerEditStep(w, [], OLD_PROJECT, OldProject(w));
    assert [] + [acts[0]] == acts[..1];
    MemoAllowed(w, SysAfter(w, acts[..1]).server.store.rows, "m", "p1", "first", 1);
    ServerEditStep(w, acts[..1], MEMO, Written());
    assert acts[..1] + [acts[1]] == acts[..2];
    ProjectAllowed(w, SysAfter(w, acts[..2]).server.store.rows, "p2", "new", 1);
    ServerEditStep(w, acts[..2], NEW_PROJECT, NewProject(w));
    assert acts[..2] + [acts[2]] == acts[..3];
    assert Clk(Written()) == 1 by { MemoClock("p1", "first", 1); }
    MemoAllowed(w, SysAfter(w, acts[..3]).server.store.rows, "m", "p2", "first", 2);
    ServerEditStep(w, acts[..3], MEMO, MovedRow());
    assert acts[..3] + [acts[3]] == acts;
    var st := SysAfter(w, acts).server.store;
    assert st.rows == Moved(w).rows && st.log == Log();
  }

  lemma MemoClock(project: Id, title: string, clock: int)
    ensures Clk(MemoRow(project, title, clock)) == clock && ClockOf(MemoRow(project, title, clock)) == Some(clock)
    ensures MemoRow(project, title, clock).Keys == Columns(Memos)
  {
  }

  lemma OwnProjectsAreVisible(w: World, st: Store, k: Key)
    requires k in st.rows && (k.table == Projects || k.table == Memos)
    requires k.table == Memos ==> exists title, clock :: st.rows[k] == MemoRow("p2", title, clock)
    requires k.table == Projects ==> Get(st.rows[k], OwnerId) == Text(w.account)
    requires NEW_PROJECT in st.rows && Get(st.rows[NEW_PROJECT], OwnerId) == Text(w.account)
    ensures Visible(st, k, w.account)
  {
    assert NEW_PROJECT.id in VisibleProjects(st.rows, w.account);
  }

  lemma FirstVisible(w: World)
    ensures Visible(Moved(w), OLD_PROJECT, w.account) && Visible(Moved(w), MEMO, w.account)
  {
    OwnProjectsAreVisible(w, Moved(w), OLD_PROJECT);
    OwnProjectsAreVisible(w, Moved(w), MEMO);
  }

  lemma SecondVisible(w: World)
    ensures Visible(Tied(w), NEW_PROJECT, w.account) && Visible(Tied(w), MEMO, w.account)
  {
    OwnProjectsAreVisible(w, Tied(w), NEW_PROJECT);
    OwnProjectsAreVisible(w, Tied(w), MEMO);
  }

  lemma FirstPage(w: World)
    ensures ReadWindow(Moved(w), w.account, 0, 2)
            == [Item(1, OLD_PROJECT, Insert, OldProject(w)), Item(2, MEMO, Insert, MovedRow())]
  {
    hide Visible, ProjectRow, MemoRow;
    var st := Moved(w);
    FirstVisible(w);
    assert InFeed(st, w.account, 0, 2) && InFeed(st, w.account, 1, 2);
    assert ReadWindow(st, w.account, 2, 2) == [];
    assert ReadWindow(st, w.account, 1, 2) == [FeedChange(st, 1)];
  }

  lemma SecondPage(w: World)
    ensures ReadWindow(Tied(w), w.account, 2, 5)
            == [Item(3, NEW_PROJECT, Insert, NewProject(w)), Item(5, MEMO, Update, Renamed())]
  {
    hide Visible, ProjectRow, MemoRow;
    var st := Tied(w);
    SecondVisible(w);
    assert st.log[4].key == st.log[3].key;
    assert InFeed(st, w.account, 2, 5) && !InFeed(st, w.account, 3, 5) && InFeed(st, w.account, 4, 5);
    assert ReadWindow(st, w.account, 5, 5) == [];
    assert ReadWindow(st, w.account, 4, 5) == [FeedChange(st, 4)];
    assert ReadWindow(st, w.account, 3, 5) == [FeedChange(st, 4)];
  }

  // ------------------------------------------------------------------
  // What the client makes of a change
  // ------------------------------------------------------------------

  lemma InsertIsApplied(w: World, st: Store, ch: Change, d: Draw)
    requires WireOk(w, ch) && KeyOf(ch) !in st.rows && ConstraintsHold(st.rows, KeyOf(ch), ch.row.value)
    ensures var a := ApplyOne(ClientSession(w), st, ch.table.value, ch, d);
            && a.Done? && a.out.status == Applied && a.out.conflict == None
            && a.store.rows == st.rows[KeyOf(ch) := ch.row.value] && a.store.log == st.log
  {
    hide FindDuplicates;
    WholeRowReplaces(ch.table.value, ch.row.value, map[], d.now);
    NoOrphan(st.rows, KeyOf(ch), ch.row.value);
    hide FilterRow, Defaults, MissingParentOf, ConstraintsHold;
  }

  lemma MovedWaits(w: World, st: Store, d: Draw)
    requires NEW_PROJECT !in st.rows
    ensures ApplyOne(ClientSession(w), st, Memos, Item(2, MEMO, Insert, MovedRow()), d).Done?
    ensures var a := ApplyOne(ClientSession(w), st, Memos, Item(2, MEMO, Insert, MovedRow()), d);
            a.out.status == Deferred && a.store == st
  {
    MemoClock("p2", "first", 2);
    WholeRowReplaces(Memos, MovedRow(), map[], d.now);
  }

  /** The older item wins the tie against the row that had replaced it. */
  lemma OlderItemWins(w: World, st: Store, ch: Change, d: Draw)
    requires MEMO in st.rows && st.rows[MEMO] == Renamed() && ConstraintsHold(st.rows, MEMO, MovedRow())
    requires ch.baseClock == Some(2)
    ensures var a := ApplyOver(ClientSession(w), st, MEMO, ch, MovedRow(), 2, d);
            && a.Done? && a.out.status == Applied && a.store.rows == st.rows[MEMO := MovedRow()]
               && a.store.log == st.log
  {
    hide FindDuplicates, PreserveText, ConstraintsHold;
    MemoClock("p2", "first", 2);
    MemoClock("p2", "second", 2);
    WholeRowReplaces(Memos, MovedRow(), Renamed(), d.now);
    assert !RowsEquivalent(Renamed(), MovedRow()) by { assert Renamed()[Title] != MovedRow()[Title]; }
    hide RowsEquivalent, MemoRow;
  }

  lemma TieIsTakenBack(w: World, st: Store, d: Draw)
    requires MEMO in st.rows && st.rows[MEMO] == Renamed() && NEW_PROJECT in st.rows
    ensures var ch := Item(2, MEMO, Insert, MovedRow()).(baseClock := Some(2));
            var a := ApplyOne(ClientSession(w), st, Memos, ch, d);
            && a.Done? && a.out.status == Applied && a.store.rows == st.rows[MEMO := MovedRow()]
               && a.store.log == st.log
  {
    hide ApplyOver, HardDelete, Stored;
    MemoClock("p2", "first", 2);
    WholeRowReplaces(Memos, MovedRow(), Renamed(), d.now);
    MemoIsWhole(w, st.rows, "first");
    NoOrphan(st.rows, MEMO, MovedRow());
    OlderItemWins(w, st, Item(2, MEMO, Insert, MovedRow()).(baseClock := Some(2)), d);
    hide FilterRow, MissingParentOf, ConstraintsHold, MemoRow;
  }

  // ------------------------------------------------------------------
  // Pulling
  // ------------------------------------------------------------------

  lemma HavingTwo(a: Change, b: Change, t: Option<Table>)
    ensures Having([a, b], t) == (if a.table == t then [a] else []) + (if b.table == t then [b] else [])
  {
    hide Having;
    HavingOne(a);
    HavingOne(b);
    HavingConcat([a], [b], t);
    assert [a] + [b] == [a, b];
  }

  lemma OrderedTwo(a: Change, b: Change)
    requires a.table == Some(Projects) && b.table == Some(Memos)
    ensures Ordered([a, b]) == [a, b] && Having([a, b], None) == []
  {
    hide Having;
    HavingTwo(a, b, Some(Projects));
    HavingTwo(a, b, Some(Memos));
    HavingTwo(a, b, Some(MemoVersions));
    HavingTwo(a, b, Some(ProjectMembers));
    HavingTwo(a, b, None);
  }

  /** A project and a memo, pulled together. */
  lemma TwoPulled(w: World, c: Client, a: Change, b: Change, d: Draw)
    requires a.table == Some(Projects) && b.table == Some(Memos)
    ensures var start := Running(c.store, map[], EMPTY_OUTCOME);
            var mid := StepRow(ClientSession(w), None, start, Projects, a, d);
            mid.Running? ==> PullBatch(w, c, [a, b], i => d) == StepRow(ClientSession(w), None, mid, Memos, b, d)
  {
    hide StepRow, Having, Ordered;
    OrderedTwo(a, b);
    assert [a, b][..1] == [a] && [a][..0] == [];
    var start := Running(c.store, map[], EMPTY_OUTCOME);
    assert Fold(ClientSession(w), None, start, [a], i => d) == StepRow(ClientSession(w), None, start, Projects, a, d);
  }

  /** A change that does not raise adds its result and leaves its store. */
  lemma StepOf(w: World, p: Progress, t: Table, ch: Change, d: Draw)
    requires p.Running? && ApplyOne(ClientSession(w), p.store, t, ch, d).Done?
    ensures var a := ApplyOne(ClientSession(w), p.store, t, ch, d);
            var q := StepRow(ClientSession(w), None, p, t, ch, d);
            && q.Running? && q.store == a.store && |q.out.results| == |p.out.results| + 1
            && q.out.results[..|p.out.results|] == p.out.results
            && q.out.results[|p.out.results|].seqNo == ch.seqNo && q.out.results[|p.out.results|].status == a.out.status
  {
    hide ApplyOne, EffectiveClock;
  }

  /** The client's tables, apart from the issues it has recorded. */
  predicate Holds(c: Client, rows: Rows, queue: Queue, rowState: map<Key, RowState>, pulled: nat) {
    c.store.rows == rows && c.store.log == [] && c.queue == queue && c.rowState == rowState && c.pushed == 0
    && c.pulled == pulled
  }

  function Waiting(): Queue {
    map[QueueKey(Pull, 2) := Item(2, MEMO, Insert, MovedRow())]
  }

  function Answer(n: nat, k: Key, status: Status, reason: Reason, clock: Option<int>): Result {
    Result(Some(n), Some(k.table), k.id, status, reason, false, clock)
  }

  lemma FirstBatch(w: World, d: Draw)
    ensures var a, b := Item(1, OLD_PROJECT, Insert, OldProject(w)), Item(2, MEMO, Insert, MovedRow());
            var q := PullBatch(w, START.client, [a, b], i => d);
            && q.Running? && q.store.rows == map[OLD_PROJECT := OldProject(w)] && q.store.log == []
            && |q.out.results| == 2
            && q.out.results[0].seqNo == Some(1) && q.out.results[0].status == Applied
            && q.out.results[1].seqNo == Some(2) && q.out.results[1].status == Deferred
  {
    var a, b := Item(1, OLD_PROJECT, Insert, OldProject(w)), Item(2, MEMO, Insert, MovedRow());
    ProjectIsWhole(w, "p1", "old");
    InsertIsApplied(w, EMPTY_STORE, a, d);
    var st := ApplyOne(ClientSession(w), EMPTY_STORE, Projects, a, d).store;
    MovedWaits(w, st, d);
    TwoPulled(w, START.client, a, b, d);
    hide ApplyOne, PullBatch, StepRow, WireOk, ConstraintsHold, ProjectRow, MemoRow;
    var start := Running(EMPTY_STORE, map[], EMPTY_OUTCOME);
    StepOf(w, start, Projects, a, d);
    StepOf(w, StepRow(ClientSession(w), None, start, Projects, a, d), Memos, b, d);
  }

  lemma ProjectIsWhole(w: World, id: Id, name: string)
    requires id != ""
    ensures ClockOf(ProjectRow(w, name, 1)) == Some(1) && RowOk(w, Key(Projects, id), ProjectRow(w, name, 1))
    ensures ConstraintsHold(map[], Key(Projects, id), ProjectRow(w, name, 1))
    ensures forall rows :: ConstraintsHold(rows, Key(Projects, id), ProjectRow(w, name, 1))
  {
  }

  lemma MemoIsWhole(w: World, rows: Rows, title: string)
    requires NEW_PROJECT in rows
    ensures RowOk(w, MEMO, MemoRow("p2", title, 2)) && ConstraintsHold(rows, MEMO, MemoRow("p2", title, 2))
  {
  }

  lemma SecondBatch(w: World, c: Client, d: Draw)
    requires c.store.rows == map[OLD_PROJECT := OldProject(w)] && c.store.log == []
    ensures var a, b := Item(3, NEW_PROJECT, Insert, NewProject(w)), Item(5, MEMO, Update, Renamed());
            var q := PullBatch(w, c, [a, b], i => d);
            && q.Running? && q.store.rows == c.store.rows[NEW_PROJECT := NewProject(w)][MEMO := Renamed()]
               && q.store.log == []
            && |q.out.results| == 2
            && q.out.results[0].seqNo == Some(3) && q.out.results[0].status == Applied
            && q.out.results[1].seqNo == Some(5) && q.out.results[1].status == Applied
  {
    var a, b := Item(3, NEW_PROJECT, Insert, NewProject(w)), Item(5, MEMO, Update, Renamed());
    ProjectIsWhole(w, "p2", "new");
    InsertIsApplied(w, c.store, a, d);
    var st := ApplyOne(ClientSession(w), c.store, Projects, a, d).store;
    MemoIsWhole(w, st.rows, "second");
    InsertIsApplied(w, st, b, d);
    TwoPulled(w, c, a, b, d);
    hide ApplyOne, PullBatch, StepRow, WireOk, ConstraintsHold, ProjectRow, MemoRow;
    var start := Running(c.store, map[], EMPTY_OUTCOME);
    StepOf(w, start, Projects, a, d);
    StepOf(w, StepRow(ClientSession(w), None, start, Projects, a, d), Memos, b, d);
  }

  lemma ThirdBatch(w: World, c: Client, d: Draw)
    requires MEMO in c.store.rows && c.store.rows[MEMO] == Renamed() && NEW_PROJECT in c.store.rows
    ensures var ch := Item(2, MEMO, Insert, MovedRow()).(baseClock := Some(2));
            var q := PullBatch(w, c, [ch], i => d);
            && q.Running? && q.store.rows == c.store.rows[MEMO := MovedRow()] && q.store.log == c.store.log
            && |q.out.results| == 1 && q.out.results[0].seqNo == Some(2) && q.out.results[0].status == Applied
  {
    var ch := Item(2, MEMO, Insert, MovedRow()).(baseClock := Some(2));
    TieIsTakenBack(w, c.store, d);
    SingleBatch(ClientSession(w), None, c.store, map[], ch, i => d);
    hide ApplyOne, ApplyBatch, EffectiveClock, MemoRow;
  }

  // ------------------------------------------------------------------
  // The steps
  // ------------------------------------------------------------------

  /** Everything of the system but the client's issues. */
  ghost predicate Looks(
    s: Sys, srv: Store, rows: Rows, queue: Queue, rowState: map<Key, RowState>, pulled: nat, page: Option<Page>) {
    s.server.store == srv && Holds(s.client, rows, queue, rowState, pulled) && s.page == page
  }

  lemma FirstSettled(w: World, c: Client, results: seq<Result>)
    requires |results| == 2 && results[0].seqNo == Some(1) && results[0].status == Applied
    requires results[1].seqNo == Some(2) && results[1].status == Deferred
    requires c.queue == map[] && c.rowState == map[]
    ensures var changes := [Item(1, OLD_PROJECT, Insert, OldProject(w)), Item(2, MEMO, Insert, MovedRow())];
            SettlePage(c, changes, results)
              == Some(c.(queue := Waiting(), rowState := map[OLD_PROJECT := RowState(1, 1)]))
  {
    var changes := [Item(1, OLD_PROJECT, Insert, OldProject(w)), Item(2, MEMO, Insert, MovedRow())];
    ProjectIsWhole(w, "p1", "old");
    hide ProjectRow, MemoRow;
    TwoResults(results);
    assert changes[..1][..0] == [];
    assert SettlePage(c, changes[..1][..0], results) == Some(c);
    assert SettlePage(c, changes[..1], results) == SettlePaged(c, changes[0], Some(results[0]));
    assert SettlePage(c, changes, results)
        == SettlePaged(SettlePage(c, changes[..1], results).value, changes[1], Some(results[1]));
  }

  lemma TwoResults(results: seq<Result>)
    requires |results| == 2 && results[0].seqNo != results[1].seqNo
    ensures ResultFor(results, results[0].seqNo) == Some(results[0])
            && ResultFor(results, results[1].seqNo) == Some(results[1])
  {
    assert results[..1][0] == results[0];
  }

  lemma SecondSettled(w: World, c: Client, results: seq<Result>)
    requires |results| == 2 && results[0].seqNo == Some(3) && results[0].status == Applied
    requires results[1].seqNo == Some(5) && results[1].status == Applied
    requires c.rowState == map[OLD_PROJECT := RowState(1, 1)]
    ensures var changes := [Item(3, NEW_PROJECT, Insert, NewProject(w)), Item(5, MEMO, Update, Renamed())];
            SettlePage(c, changes, results)
            == Some(c.(rowState := map[OLD_PROJECT := RowState(1, 1), NEW_PROJECT := RowState(1, 3),
              MEMO := RowState(2, 5)]))
  {
    hide ProjectRow, MemoRow;
    var changes := [Item(3, NEW_PROJECT, Insert, NewProject(w)), Item(5, MEMO, Update, Renamed())];
    ProjectIsWhole(w, "p2", "new");
    MemoClock("p2", "second", 2);
    TwoResults(results);
    assert changes[..1][..0] == [];
    assert SettlePage(c, changes[..1][..0], results) == Some(c);
    assert SettlePage(c, changes[..1], results) == SettlePaged(c, changes[0], Some(results[0]));
    assert SettlePage(c, changes, results)
        == SettlePaged(SettlePage(c, changes[..1], results).value, changes[1], Some(results[1]));
  }

  lemma ThirdSettled(c: Client, results: seq<Result>)
    requires |results| == 1 && results[0].seqNo == Some(2) && results[0].status == Applied && c.queue == Waiting()
    ensures var d := SettleRetries(c, [Item(2, MEMO, Insert, MovedRow()).(baseClock := Some(2))], results);
            d.queue == map[] && d.store == c.store && d.pushed == c.pushed && d.pulled == c.pulled
  {
    var changes := [Item(2, MEMO, Insert, MovedRow()).(baseClock := Some(2))];
    hide MemoRow, Remember;
    assert changes[..0] == [] && results[..1] == results;
    assert SettleRetries(c, changes[..0], results) == c;
    assert SettleRetries(c, changes, results) == SettleRetried(c, changes[0], Some(results[0]));
    assert Waiting() - {QueueKey(Pull, 2)} == map[];
  }

  lemma FirstRead(w: World, s: Sys)
    requires Looks(s, Moved(w), map[], map[], map[], 0, None)
    ensures var page := Page([Item(1, OLD_PROJECT, Insert, OldProject(w)), Item(2, MEMO, Insert, MovedRow())], 2);
            Looks(ExecReadPage(w, s, 2), Moved(w), map[], map[], map[], 0, Some(page))
  {
    hide ReadWindow, ProjectRow, MemoRow;
    FirstPage(w);
  }

  lemma FirstCommit(w: World, s: Sys, d: Draw)
    requires s.client == START.client && s.server.store == Moved(w)
    requires s.page == Some(Page([Item(1, OLD_PROJECT, Insert, OldProject(w)), Item(2, MEMO, Insert, MovedRow())], 2))
    ensures Looks(ExecApplyPage(w, s, i => d), Moved(w), map[OLD_PROJECT := OldProject(w)], Waiting(),
                  map[OLD_PROJECT := RowState(1, 1)], 2, None)
  {
    hide PullBatch, SettlePage, ProjectRow, MemoRow;
    var changes := s.page.value.changes;
    assert WithBases(s.client.rowState, changes) == changes;
    FirstBatch(w, d);
    var q := PullBatch(w, s.client, changes, i => d);
    FirstSettled(w, s.client.(store := q.store), q.out.results);
  }

  lemma SecondRead(w: World, s: Sys, rows: Rows, rowState: map<Key, RowState>)
    requires Looks(s, Tied(w), rows, Waiting(), rowState, 2, None)
    ensures var page := Page([Item(3, NEW_PROJECT, Insert, NewProject(w)), Item(5, MEMO, Update, Renamed())], 5);
            Looks(ExecReadPage(w, s, 3), Tied(w), rows, Waiting(), rowState, 2, Some(page))
  {
    hide ReadWindow, ProjectRow, MemoRow, Waiting;
    SecondPage(w);
  }

  function Agreed(): map<Key, RowState> {
    map[OLD_PROJECT := RowState(1, 1), NEW_PROJECT := RowState(1, 3), MEMO := RowState(2, 5)]
  }

  lemma SecondCommit(w: World, s: Sys, d: Draw)
    requires var page := Page([Item(3, NEW_PROJECT, Insert, NewProject(w)), Item(5, MEMO, Update, Renamed())], 5);
             Looks(s, Tied(w), map[OLD_PROJECT := OldProject(w)], Waiting(), map[OLD_PROJECT := RowState(1, 1)], 2,
               Some(page))
    ensures Looks(ExecApplyPage(w, s, i => d), Tied(w),
                  map[OLD_PROJECT := OldProject(w), NEW_PROJECT := NewProject(w), MEMO := Renamed()], Waiting(),
                    Agreed(), 5, None)
  {
    hide PullBatch, SettlePage, ProjectRow, MemoRow, Waiting;
    var changes := s.page.value.changes;
    assert WithBases(s.client.rowState, changes) == changes;
    SecondBatch(w, s.client, d);
    var q := PullBatch(w, s.client, changes, i => d);
    SecondSettled(w, s.client.(store := q.store), q.out.results);
  }

  lemma ListsTheWaiting(rs: map<Key, RowState>)
    requires MEMO in rs && rs[MEMO].clock == 2
    ensures WithBases(rs, ListRetries(Waiting(), Pull, 1)) == [Item(2, MEMO, Insert, MovedRow()).(baseClock := Some(2))]
  {
    hide MemoRow;
    var seqs := LiveSeqs(Waiting(), Pull);
    assert seqs == {2} && Least(seqs) == 2;
    assert SortedPrefix(seqs - {2}, 0) == [];
    assert SortedPrefix(seqs, 1) == [2];
  }

  lemma ThirdCommit(w: World, s: Sys, d: Draw)
    requires Looks(s, Tied(w), map[OLD_PROJECT := OldProject(w), NEW_PROJECT := NewProject(w), MEMO := Renamed()],
             Waiting(),
                   Agreed(), 5, None)
    ensures var t := ExecRetryPulls(w, s, 1, i => d);
            && Quiescent(t) && MEMO in t.client.store.rows && MEMO in t.server.store.rows
            && t.client.store.rows[MEMO] == MovedRow() && t.server.store.rows[MEMO] == Renamed()
  {
    hide PullBatch, SettleRetries, ListRetries, WithBases, ProjectRow, MemoRow;
    ListsTheWaiting(s.client.rowState);
    ThirdBatch(w, s.client, d);
    var ch := Item(2, MEMO, Insert, MovedRow()).(baseClock := Some(2));
    var q := PullBatch(w, s.client, [ch], i => d);
    ThirdSettled(s.client.(store := q.store), q.out.results);
  }

  lemma FirstIsRead(w: World, d: Draw)
    ensures var acts := TieRun(w, d);
            var page := Page([Item(1, OLD_PROJECT, Insert, OldProject(w)), Item(2, MEMO, Insert, MovedRow())], 2);
            && IsRun(w, acts[..5]) && SysAfter(w, acts[..5]).client == START.client
            && Looks(SysAfter(w, acts[..5]), Moved(w), map[], map[], map[], 0, Some(page))
  {
    hide IsRun, SysAfter, ExecReadPage, ProjectRow, MemoRow, Moved;
    var acts := TieRun(w, d);
    EditsRun(w);
    assert acts[..4] == Edits(w) && acts[..4] + [acts[4]] == acts[..5];
    Extend(w, acts[..4], acts[4]);
    FirstRead(w, SysAfter(w, acts[..4]));
    ReadKeepsClient(w, SysAfter(w, acts[..4]), 2);
  }

  /** The state after the first six steps, which are a run. */
  lemma BeforeTheTie(w: World, d: Draw)
    requires d.id != ""
    ensures IsRun(w, TieRun(w, d)[..6])
    ensures Looks(SysAfter(w, TieRun(w, d)[..6]), Moved(w), map[OLD_PROJECT := OldProject(w)], Waiting(),
                  map[OLD_PROJECT := RowState(1, 1)], 2, None)
  {
    hide IsRun, SysAfter, ExecApplyPage, ProjectRow, MemoRow, Waiting, Moved;
    var acts := TieRun(w, d);
    FirstIsRead(w, d);
    assert acts[..5] + [acts[5]] == acts[..6];
    Extend(w, acts[..5], acts[5]);
    FirstCommit(w, SysAfter(w, acts[..5]), d);
  }

  lemma ReadKeepsClient(w: World, s: Sys, limit: nat)
    ensures ExecReadPage(w, s, limit).client == s.client
  {
  }

  /** One more step, allowed or not. */
  lemma NextState(w: World, acts: seq<Action>, i: nat)
    requires i < |acts|
    ensures SysAfter(w, acts[..i + 1]) == Exec(w, SysAfter(w, acts[..i]), acts[i])
  {
    hide Exec, Record;
    assert acts[..i + 1][..i] == acts[..i];
  }

  /** The states the tie and the protocol steps after it lead to. */
  lemma AfterTheTie(w: World, d: Draw)
    requires d.id != ""
    ensures var acts := TieRun(w, d);
            var t := SysAfter(w, acts[..10]);
            && SysAfter(w, acts[..8]).page.Some?
            && Quiescent(t) && MEMO in t.client.store.rows && MEMO in t.server.store.rows
            && t.client.store.rows[MEMO] == MovedRow() && t.server.store.rows[MEMO] == Renamed()
  {
    hide IsRun, SysAfter, ExecReadPage, ExecApplyPage, ExecRetryPulls, ProjectRow, MemoRow, Waiting, Quiescent;
    var acts := TieRun(w, d);
    BeforeTheTie(w, d);
    assert acts[6] == Tie() && acts[7] == ReadPage(3) && acts[8] == ApplyPage(i => d)
           && acts[9] == RetryPulls(1, i => d);
    NextState(w, acts, 6);
    assert SysAfter(w, acts[..7]).server.store == Tied(w);
    NextState(w, acts, 7);
    SecondRead(w, SysAfter(w, acts[..7]), map[OLD_PROJECT := OldProject(w)], map[OLD_PROJECT := RowState(1, 1)]);
    NextState(w, acts, 8);
    SecondCommit(w, SysAfter(w, acts[..8]), d);
    NextState(w, acts, 9);
    ThirdCommit(w, SysAfter(w, acts[..9]), d);
  }

  /** The first six steps are a run; the seventh is a server edit that the database accepts, stamped exactly as
      the row it replaces; the rest are protocol steps. The client applies the edit and then, retrying the item
      that had waited for its project, takes it back. Both nodes are at rest, with different rows. */
  lemma TieIsLost(w: World, d: Draw)
    requires d.id != ""
    ensures var acts := TieRun(w, d);
            var s, t := SysAfter(w, acts[..6]), SysAfter(w, acts);
            && IsRun(w, acts[..6]) && acts[6] == Tie()
            && ConstraintsHold(s.server.store.rows, MEMO, Renamed())
            && MEMO in s.server.store.rows && Clk(Renamed()) == Clk(s.server.store.rows[MEMO])
            && (forall i | 7 <= i < |acts| :: IsProtocol(acts[i]) && Enabled(w, SysAfter(w, acts[..i]), acts[i]))
            && Quiescent(t) && MEMO in t.client.store.rows && MEMO in t.server.store.rows
            && t.client.store.rows[MEMO] != t.server.store.rows[MEMO]
  {
    hide IsRun, SysAfter, ProjectRow, MemoRow, Waiting, Quiescent;
    var acts := TieRun(w, d);
    BeforeTheTie(w, d);
    AfterTheTie(w, d);
    assert acts[..10] == acts;
    MemoIsWhole(w, SysAfter(w, acts[..6]).server.store.rows, "second");
    RenamedDiffers();
  }

  lemma RenamedDiffers()
    ensures Renamed() != MovedRow() && Clk(Renamed()) == Clk(MovedRow())
  {
    assert Renamed()[Title] != MovedRow()[Title];
  }
}
