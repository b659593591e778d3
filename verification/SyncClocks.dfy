/** Why the clocks have to be strict: an answered edit reaches the server exactly when it is stamped later. */
module SyncClocks {
  import opened SyncSchema
  import opened SyncStore
  import opened SyncApply
  import opened SyncApplyProofs
  import opened SyncFeedProofs
  import opened SyncBatch
  import opened SyncQueue
  import opened TwoNode
  import opened SyncInvariants
  import opened SyncSafety
  import opened SyncConvergence
  import opened SyncExactlyOnce
  import opened SyncOverwrite
  import opened SyncCursor
  import opened SyncProgress
  import opened SyncGate
  import opened SyncLiveness
  import opened SyncSamples

  /** Both nodes are at rest with the same row, and the client has handled the server's last write of it. */
  ghost predicate AtRestOn(w: World, s: Sys, k: Key) {
    && Quiescent(s) && s.page.None?
    && k in s.client.store.rows && k in s.server.store.rows && s.client.store.rows[k] == s.server.store.rows[k]
    && s.client.store.rows[k].Keys == Columns(k.table) && ClockOf(s.client.store.rows[k]).Some?
    && k in s.client.rowState && LatestSeq(s.server.store.log, k) <= s.client.rowState[k].peerSeq
    && (forall key | key in s.server.receipts :: key.seqNo <= |s.client.store.log|)
  }

  /** A complete row both databases accept, whatever its clock. */
  ghost predicate Acceptable(s: Sys, k: Key, row: Row) {
    && k.id != "" && row.Keys == Columns(k.table) && ClockOf(row).Some?
    && ConstraintsHold(s.server.store.rows, k, row)
  }

  function Edited(s: Sys, k: Key, row: Row): Sys {
    s.(client := s.client.(store := PutRow(s.client.store, false, k, row)))
  }

  /** The payload of the edit, as the next scan takes it. */
  function Payload(s: Sys, k: Key, row: Row): Change
    requires k in s.client.rowState
  {
    Change(Some(|s.client.store.log| + 1), Some(k.table), k.id, Update, Some(row),
           Some(s.client.rowState[k].clock), Some(s.client.rowState[k].peerSeq))
  }

  lemma EditIsCollected(w: World, s: Sys, k: Key, row: Row)
    requires AtRestOn(w, s, k)
    ensures var t := Edited(s, k, row);
            var n := |s.client.store.log| + 1;
            ExecCollect(t, 1)
              == t.(client := t.client.(queue := map[QueueKey(Push, n) := Payload(s, k, row)], pushed := n))
  {
    hide LatestSeq, Columns;
    var t := Edited(s, k, row);
    var c, lo := t.client, |s.client.store.log|;
    assert c.store.log[lo] == LogEntry(k, Update);
    assert WindowEnd(c.store.log, c.pushed, 1) == lo + 1;
    assert CollectWindow(c.store, c.rowState, lo + 1, lo + 1) == [];
    assert CollectWindow(c.store, c.rowState, lo, lo + 1) == [Payload(s, k, row)];
    var items := [Payload(s, k, row)];
    assert items[..0] == [];
    assert EnqueueAll(map[], Push, items[..0]) == Some(map[]);
    assert EnqueueAll(map[], Push, items) == Some(map[QueueKey(Push, lo + 1) := Payload(s, k, row)]);
  }

  /** What the server makes of the payload: later means applied, anything else means skipped. */
  lemma PayloadDecides(w: World, s: Sys, k: Key, row: Row, d: Draw)
    requires AtRestOn(w, s, k) && Acceptable(s, k, row) && row != s.client.store.rows[k]
    ensures var a := ApplyOne(ServerSession(w), s.server.store, k.table, Payload(s, k, row), d);
            && a.Done? && k in a.store.rows
            && (if Clk(row) > Clk(s.server.store.rows[k]) then a.out.status == Applied && a.store.rows[k] == row
                else a.out.status == Skipped && a.store == s.server.store)
            && a.store.log == s.server.store.log && a.out.conflict == None
  {
    hide FindDuplicates, LatestSeq, ConstraintsHold, Columns;
    var st, ch := s.server.store, Payload(s, k, row);
    WholeRowReplaces(k.table, row, st.rows[k], d.now);
    NoOrphan(st.rows, k, row);
    SomeColumnDiffers(st.rows[k], row);
    hide RowsEquivalent, FilterRow, MissingParentOf;
  }

  lemma NoOrphan(rows: map<Key, Row>, k: Key, row: Row)
    requires ConstraintsHold(rows, k, row)
    ensures MissingParentOf(rows, k.table, row).None?
  {
    hide NoNulls, MembershipUnique;
  }

  lemma SomeColumnDiffers(was: Row, row: Row)
    requires was.Keys == row.Keys && was != row
    ensures !RowsEquivalent(was, row)
  {
    assert (forall c | c in row :: was[c] == row[c]) ==> was == row;
  }

  /** The scan, the request, the server's transaction and the answer, one after the other. */
  function Exchanged(w: World, s: Sys, k: Key, row: Row, newEpoch: Id, d: Draw): Sys
    requires k in s.client.rowState
  {
    var n := |s.client.store.log| + 1;
    var sent := ExecSend(w, ExecCollect(Edited(s, k, row), 1), n, newEpoch);
    if sent.client.epoch.None? then sent
    else
      var m := Message(PeerOf(w, sent.client.epoch.value), Payload(s, k, row));
      var q := ApplyBatch(ServerSession(w), Some(m.from), sent.server.store, sent.server.receipts, [m.change], i => d);
      var delivered := ExecDeliver(w, sent, m, d);
      if q.Aborted? then delivered
      else delivered.(client := SettlePushed(delivered.client, n, q.out))
  }

  lemma DeliveryDecides(w: World, s: Sys, srv: Server, peer: Peer, k: Key, row: Row, d: Draw)
    requires AtRestOn(w, s, k) && Acceptable(s, k, row) && row != s.client.store.rows[k] && srv == s.server
    ensures var q := ApplyBatch(ServerSession(w), Some(peer), srv.store, srv.receipts, [Payload(s, k, row)], i => d);
            && q.Running? && q.store.log == srv.store.log && k in q.store.rows
            && (if Clk(row) > Clk(srv.store.rows[k]) then q.store.rows[k] == row else q.store == srv.store)
            && IsFinal(q.out)
  {
    hide ApplyOne, EffectiveClock, LatestSeq, Columns, ConstraintsHold;
    PayloadDecides(w, s, k, row, d);
    SingleBatch(ServerSession(w), Some(peer), srv.store, srv.receipts, Payload(s, k, row), i => d);
    hide ApplyBatch;
    var a := ApplyOne(ServerSession(w), srv.store, k.table, Payload(s, k, row), d);
    EmptyMerge(PartOf(k.table, Payload(s, k, row), a.out, a.store.rows));
  }

  /** From rest, an edit that both databases accept is scanned, delivered and answered for good, and both
      nodes are at rest again. They agree on the row if and only if the edit was stamped later: otherwise
      the server keeps its row and nothing is left that would ever bring them together. */
  lemma EditArrivesExactlyWhenLater(w: World, s: Sys, k: Key, row: Row, newEpoch: Id, d: Draw)
    requires AtRestOn(w, s, k) && Acceptable(s, k, row) && row != s.client.store.rows[k]
    ensures var t := Exchanged(w, s, k, row, newEpoch, d);
            && Quiescent(t) && k in t.client.store.rows && k in t.server.store.rows
            && t.client.store.rows[k] == row
            && (t.server.store.rows[k] == row <==> Clk(row) > Clk(s.server.store.rows[k]))
  {
    hide LatestSeq, Columns, ConstraintsHold, ApplyBatch, ExecCollect, SettlePushed;
    var n := |s.client.store.log| + 1;
    EditIsCollected(w, s, k, row);
    var sent := ExecSend(w, ExecCollect(Edited(s, k, row), 1), n, newEpoch);
    var peer := PeerOf(w, sent.client.epoch.value);
    DeliveryDecides(w, s, sent.server, peer, k, row, d);
    var q := ApplyBatch(ServerSession(w), Some(peer), sent.server.store, sent.server.receipts, [Payload(s, k, row)],
      i => d);
    AnswerMovesOneEntry(sent.client, n, q.out);
    FinalAnswerEmpties(sent.client, n, q.out, Payload(s, k, row));
  }

  lemma FinalAnswerEmpties(c: Client, n: nat, answer: Outcome, ch: Change)
    requires IsFinal(answer) && c.queue == map[QueueKey(Push, n) := ch]
    ensures SettlePushed(c, n, answer).queue == map[]
  {
    hide Remember;
  }

  // ------------------------------------------------------------------
  // The server's edits
  // ------------------------------------------------------------------

  function ServerEdited(s: Sys, k: Key, row: Row): Sys {
    s.(server := s.server.(store := PutRow(s.server.store, false, k, row)))
  }

  /** The feed item of the edit, with what the client last agreed about the row. */
  function FeedItem(s: Sys, k: Key, row: Row): Change
    requires k in s.client.rowState
  {
    Change(Some(|s.server.store.log| + 1), Some(k.table), k.id, Update, Some(row), Some(s.client.rowState[k].clock),
      None)
  }

  /** The client may store the row, and may store a version under the id drawn for a conflict. */
  ghost predicate Storable(w: World, s: Sys, k: Key, row: Row, d: Draw) {
    && k.id != "" && row.Keys == Columns(k.table) && ClockOf(row).Some?
    && ConstraintsHold(s.client.store.rows, k, row)
    && Key(MemoVersions, d.id) !in s.client.store.rows
    && Visible(ServerEdited(s, k, row).server.store, k, w.account)
  }

  lemma FreshVersionIsKept(x: Session, st: Store, k: Key, loser: Row, side: Side, d: Draw)
    requires k in st.rows && Key(MemoVersions, d.id) !in st.rows
    ensures PreserveText(x, st, k, loser, side, d).Kept?
  {
    hide HasVersionText, MaxOrZero, VersionNumbers;
  }

  lemma StillAccepted(rows: map<Key, Row>, k: Key, row: Row, vk: Key, version: Row)
    requires k.table == Memos && ConstraintsHold(rows, k, row)
    ensures ConstraintsHold(rows[vk := version], k, row)
  {
  }

  lemma PreservingKeepsAcceptance(x: Session, st: Store, k: Key, row: Row, loser: Row, side: Side, d: Draw)
    requires k in st.rows && Key(MemoVersions, d.id) !in st.rows && ConstraintsHold(st.rows, k, row)
    ensures var p := PreserveText(x, st, k, loser, side, d);
            p.Kept? && ConstraintsHold(p.store.rows, k, row) && k in p.store.rows && p.store.rows[k] == st.rows[k]
  {
    hide ConstraintsHold, FreshVersion;
    FreshVersionIsKept(x, st, k, loser, side, d);
    PreserveAddsOneVersion(x, st, k, loser, side, d);
    var kept := PreserveText(x, st, k, loser, side, d).store;
    hide PreserveText;
    if kept.rows != st.rows { StillAccepted(st.rows, k, row, VersionKey(d), kept.rows[VersionKey(d)]); }
  }

  /** A complete row the database accepts: a later stamp or a tie is applied, an older one is skipped. */
  lemma OverDecides(w: World, st: Store, k: Key, ch: Change, row: Row, d: Draw)
    requires k in st.rows && Key(MemoVersions, d.id) !in st.rows && ConstraintsHold(st.rows, k, row)
    requires ClockOf(row).Some? && ClockOf(st.rows[k]).Some? && st.rows[k] + row == row && row.Keys == st.rows[k].Keys
    requires row != st.rows[k]
    ensures var a := ApplyOver(ClientSession(w), st, k, ch, row, Clk(row), d);
            && a.Done? && k in a.store.rows
            && (if Clk(row) >= Clk(st.rows[k]) then a.out.status == Applied && a.store.rows[k] == row
                else a.out.status == Skipped && a.store.rows[k] == st.rows[k])
  {
    var x := ClientSession(w);
    SomeColumnDiffers(st.rows[k], row);
    hide FindDuplicates, Columns, ConstraintsHold, TrueDivergence, RowsEquivalent, PreserveText;
    var wins := IncomingWins(Clk(row), ClockOf(st.rows[k]), x.side);
    PreservingKeepsAcceptance(
      x, st, k, row, if wins then st.rows[k] else row, if wins then OtherSide(x.side) else x.side, d);
  }

  lemma ItemDecides(w: World, s: Sys, k: Key, row: Row, d: Draw)
    requires AtRestOn(w, s, k) && Storable(w, s, k, row, d) && row != s.server.store.rows[k]
    ensures var a := ApplyOne(ClientSession(w), s.client.store, k.table, FeedItem(s, k, row), d);
            && a.Done? && k in a.store.rows
            && (if Clk(row) >= Clk(s.client.store.rows[k]) then a.out.status == Applied && a.store.rows[k] == row
                else a.out.status == Skipped && a.store.rows[k] == s.client.store.rows[k])
            && !LoggedIn(a.store.log, |s.client.store.log|, |a.store.log|, k)
  {
    var x, st, ch := ClientSession(w), s.client.store, FeedItem(s, k, row);
    hide LatestSeq, Columns, Visible, ConstraintsHold, ApplyOver, FreshVersion;
    WholeRowReplaces(k.table, row, st.rows[k], d.now);
    NoOrphan(st.rows, k, row);
    OverDecides(w, st, k, ch, row, d);
    hide FilterRow, MissingParentOf, Stored, HardDelete;
    assert ApplyOne(x, st, k.table, ch, d) == ApplyOver(x, st, k, ch, row, Clk(row), d);
    ApplyTouchesTwoRows(x, st, k.table, ch, d);
  }

  /** The page that is read after the edit. */
  function ReadAfter(w: World, s: Sys, k: Key, row: Row): Sys {
    ExecReadPage(w, ServerEdited(s, k, row), 1)
  }

  lemma EditIsRead(w: World, s: Sys, k: Key, row: Row, d: Draw)
    requires AtRestOn(w, s, k) && Storable(w, s, k, row, d)
    ensures var t := ServerEdited(s, k, row);
            var n := |s.server.store.log| + 1;
            ReadAfter(w, s, k, row)
            == t.(page := Some(Page([FeedItem(s, k, row).(baseClock := None)], n)))
  {
    hide LatestSeq, Columns, ConstraintsHold, Visible;
    var st, lo := ServerEdited(s, k, row).server.store, |s.server.store.log|;
    assert st.log[lo] == LogEntry(k, Update);
    assert ReadWindow(st, w.account, lo + 1, lo + 1) == [];
    assert InFeed(st, w.account, lo, lo + 1);
    assert ReadWindow(st, w.account, lo, lo + 1) == [FeedChange(st, lo)];
  }

  lemma ItemIsPulled(w: World, s: Sys, c: Client, k: Key, row: Row, d: Draw)
    requires AtRestOn(w, s, k) && Storable(w, s, k, row, d) && row != s.server.store.rows[k] && c == s.client
    ensures var ch := FeedItem(s, k, row);
            var q := PullBatch(w, c, [ch], i => d);
            && q.Running? && k in q.store.rows
            && (q.store.rows[k] == row <==> Clk(row) >= Clk(s.client.store.rows[k]))
            && !LoggedIn(q.store.log, |s.client.store.log|, |q.store.log|, k)
            && |q.out.results| == 1 && q.out.results[0].seqNo == ch.seqNo
            && (q.out.results[0].status == Applied || q.out.results[0].status == Skipped)
  {
    hide ApplyOne, EffectiveClock, LatestSeq, Columns, ConstraintsHold, Visible, LoggedIn;
    var ch := FeedItem(s, k, row);
    ItemDecides(w, s, k, row, d);
    SingleBatch(ClientSession(w), None, c.store, map[], ch, i => d);
    hide ApplyBatch;
    assert s.client.store.rows[k] != row;
  }

  lemma FinishedLeavesNothing(c: Client, ch: Change, r: Result)
    requires ch.table.Some? && ch.seqNo.Some? && ch.seqNo == r.seqNo && (r.status == Applied || r.status == Skipped)
    ensures var d := SettlePage(c, [ch], [r]);
            d.Some? && d.value.store == c.store && d.value.queue == c.queue && d.value.pushed == c.pushed
  {
    hide Remember;
    assert [ch][..0] == [];
    assert SettlePage(c, [ch][..0], [r]) == Some(c);
  }

  /** From rest, a server edit that the client may store is read and committed, and nothing about the row is
      left on its way. The nodes agree on the row if and only if the edit was not stamped earlier than the row
      it replaced: a tie arrives, since the server wins it. */
  lemma ServerEditArrivesExactlyUnlessOlder(w: World, s: Sys, k: Key, row: Row, d: Draw)
    requires AtRestOn(w, s, k) && Storable(w, s, k, row, d) && row != s.server.store.rows[k]
    ensures var t := ExecApplyPage(w, ReadAfter(w, s, k, row), i => d);
            && !OnItsWay(t, k) && t.client.pulled == |t.server.store.log|
            && k in t.client.store.rows && k in t.server.store.rows && t.server.store.rows[k] == row
            && (t.client.store.rows[k] == row <==> Clk(row) >= Clk(s.server.store.rows[k]))
  {
    hide PullBatch, SettlePage, LatestSeq, Columns, ConstraintsHold, Visible;
    EditIsRead(w, s, k, row, d);
    ItemIsPulled(w, s, s.client, k, row, d);
    hide ReadAfter;
    var r, ch := ReadAfter(w, s, k, row), FeedItem(s, k, row);
    assert WithBases(s.client.rowState, [ch.(baseClock := None)]) == [ch];
    var q := PullBatch(w, s.client, [ch], i => d);
    assert q.out.results == [q.out.results[0]];
    FinishedLeavesNothing(s.client.(store := q.store), ch, q.out.results[0]);
  }

  // ------------------------------------------------------------------
  // An edit with an old stamp
  // ------------------------------------------------------------------

  const PROJECT := Key(Projects, "p")

  /** The server creates the project and the client pulls it. */
  function FirstPull(w: World, d: Draw): seq<Action> {
    [ServerEdit(PROJECT, ProjectRow(w, "first", 1)), ReadPage(1), ApplyPage(i => d)]
  }

  function Created(w: World): Store {
    Store(map[PROJECT := ProjectRow(w, "first", 1)], [LogEntry(PROJECT, Insert)], {})
  }

  function CreatedChange(w: World): Change {
    Change(Some(1), Some(Projects), "p", Insert, Some(ProjectRow(w, "first", 1)), None, None)
  }

  lemma CreatedIsRead(w: World)
    ensures ReadWindow(Created(w), w.account, 0, 1) == [CreatedChange(w)]
  {
    var st := Created(w);
    assert InFeed(st, w.account, 0, 1) by {
      assert PROJECT.id in VisibleProjects(st.rows, w.account);
    }
    assert ReadWindow(st, w.account, 1, 1) == [];
  }

  lemma CreatedIsStored(w: World, d: Draw)
    ensures var a := ApplyOne(ClientSession(w), EMPTY_STORE, Projects, CreatedChange(w), d);
            && a.Done? && a.out.status == Applied && a.out.reason == NoReason && a.out.conflict == None
            && a.store.rows == Created(w).rows && a.store.log == []
  {
    hide FindDuplicates;
    var row := ProjectRow(w, "first", 1);
    WholeRowReplaces(Projects, row, map[], d.now);
    hide FilterRow, Defaults;
    assert ConstraintsHold(map[], PROJECT, row);
  }

  lemma CreatedIsPulled(w: World, d: Draw)
    ensures var q := PullBatch(w, Client(EMPTY_STORE, map[], map[], 0, 0, None), [CreatedChange(w)], i => d);
            && q.Running? && q.store.rows == Created(w).rows && q.store.log == []
            && q.out.results == [Result(Some(1), Some(Projects), "p", Applied, NoReason, false, Some(1))]
  {
    hide ApplyOne, ApplyBatch;
    CreatedIsStored(w, d);
    SingleBatch(ClientSession(w), None, EMPTY_STORE, map[], CreatedChange(w), i => d);
  }

  lemma PageIsSettled(w: World, st: Store)
    ensures var r := Result(Some(1), Some(Projects), "p", Applied, NoReason, false, Some(1));
            var c := Client(st, map[], map[], 0, 0, None);
            SettlePage(c, [CreatedChange(w)], [r]) == Some(c.(rowState := map[PROJECT := RowState(1, 1)]))
  {
    var changes := [CreatedChange(w)];
    var c := Client(st, map[], map[], 0, 0, None);
    assert changes[..0] == [];
    assert SettlePage(c, changes[..0], [Result(Some(1), Some(Projects), "p", Applied, NoReason, false, Some(1))])
           == Some(c);
  }

  function AfterCreate(w: World): Sys {
    START.(server := Server(Created(w), map[]))
  }

  function AfterRead(w: World): Sys {
    AfterCreate(w).(page := Some(Page([CreatedChange(w)], 1)))
  }

  lemma CreateIsAllowed(w: World)
    ensures Enabled(w, START, ServerEdit(PROJECT, ProjectRow(w, "first", 1)))
    ensures Exec(w, START, ServerEdit(PROJECT, ProjectRow(w, "first", 1))) == AfterCreate(w)
  {
    ProjectAllowed(w, map[], "p", "first", 1);
    hide EditAllowed;
  }

  lemma CreatedPage(w: World)
    ensures Exec(w, AfterCreate(w), ReadPage(1)) == AfterRead(w)
  {
    hide ReadWindow;
    CreatedIsRead(w);
  }

  lemma CommittedRests(w: World, d: Draw)
    ensures var s := Exec(w, AfterRead(w), ApplyPage(i => d));
            AtRestOn(w, s, PROJECT) && s.client.store.rows == s.server.store.rows == Created(w).rows
  {
    hide PullBatch, SettlePage;
    CreatedIsPulled(w, d);
    var s := AfterRead(w);
    var q := PullBatch(w, s.client, [CreatedChange(w)], i => d);
    PageIsSettled(w, q.store);
    assert WithBases(s.client.rowState, [CreatedChange(w)]) == [CreatedChange(w)];
  }

  lemma FirstPullRests(w: World, d: Draw)
    requires d.id != ""
    ensures IsRun(w, FirstPull(w, d)) && AtRestOn(w, SysAfter(w, FirstPull(w, d)), PROJECT)
    ensures var s := SysAfter(w, FirstPull(w, d)); s.client.store.rows == s.server.store.rows == Created(w).rows
  {
    hide Exec, AtRestOn, SysAfter, IsRun, ProjectRow, Created, EditAllowed;
    var a, b, c := ServerEdit(PROJECT, ProjectRow(w, "first", 1)), ReadPage(1), ApplyPage(i => d);
    assert FirstPull(w, d) == [a, b] + [c] && [a, b] == [a] + [b] && [] + [a] == [a];
    EmptyRun(w);
    CreateIsAllowed(w);
    Extend(w, [], a);
    CreatedPage(w);
    Extend(w, [a], b);
    CommittedRests(w, d);
    assert Enabled(w, AfterRead(w), c);
    Extend(w, [a, b], c);
  }

  /** A rename stamped no later than the row it replaces, on a project both nodes hold, is answered as
      skipped: the nodes are at rest and differ. */
  lemma OldStampIsLost(w: World, newEpoch: Id, d: Draw)
    requires d.id != ""
    ensures IsRun(w, FirstPull(w, d))
    ensures var s := SysAfter(w, FirstPull(w, d));
            && PROJECT in s.client.rowState
            && var t := Exchanged(w, s, PROJECT, ProjectRow(w, "second", 1), newEpoch, d);
               && Quiescent(t) && PROJECT in t.client.store.rows && PROJECT in t.server.store.rows
               && t.client.store.rows[PROJECT] != t.server.store.rows[PROJECT]
  {
    hide Exchanged, FirstPull, SysAfter, IsRun;
    FirstPullRests(w, d);
    var s, row := SysAfter(w, FirstPull(w, d)), ProjectRow(w, "second", 1);
    assert row[Name] != ProjectRow(w, "first", 1)[Name];
    assert ConstraintsHold(s.server.store.rows, PROJECT, row);
    EditArrivesExactlyWhenLater(w, s, PROJECT, row, newEpoch, d);
  }
}
