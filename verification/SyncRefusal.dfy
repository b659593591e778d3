/** A reachable state in which one refused push keeps every later cycle from pushing and from pulling. */
module SyncRefusal {
  import opened SyncSchema
  import opened SyncStore
  import opened SyncApply
  import opened SyncBatch
  import opened SyncQueue
  import opened SyncFeedProofs
  import opened SyncQueueProofs
  import opened TwoNode
  import opened SyncInvariants
  import opened SyncConvergence
  import opened SyncGate
  import opened SyncLiveness
  import opened SyncStandstill
  import opened SyncDaemonSteps
  import opened SyncSamples
  import opened SyncClocks
  import opened SyncStarvation

  const NEW_MEMO := Key(Memos, "memo")

  function Offline(w: World): seq<Action> {
    [ClientEdit(NEW_PROJECT, ProjectRow(w, "new", 1))] + [ClientEdit(NEW_MEMO, MemoRow("new", "memo", 1))]
    + [ClientEdit(NEW_PROJECT, ProjectRow(w, "renamed", 2))]
  }

  /** Offline, a project is created, a memo in it, and the project is renamed; the server gets another project.
      Then the client scans its log. */
  function RefusedRun(w: World, limit: nat): seq<Action> {
    Offline(w) + [ServerEdit(PROJECT, ProjectRow(w, "first", 1))] + [Collect(limit)]
  }

  function AfterOffline(w: World): Store {
    Store(map[NEW_PROJECT := ProjectRow(w, "renamed", 2), NEW_MEMO := MemoRow("new", "memo", 1)],
      [LogEntry(NEW_PROJECT, Insert), LogEntry(NEW_MEMO, Insert), LogEntry(NEW_PROJECT, Update)], {})
  }

  lemma OfflineIsARun(w: World)
    ensures IsRun(w, Offline(w))
    ensures SysAfter(w, Offline(w)) == START.(client := START.client.(store := AfterOffline(w)))
  {
    hide IsRun, SysAfter, EditAllowed, ProjectRow, MemoRow;
    EmptyRun(w);
    var a := ClientEdit(NEW_PROJECT, ProjectRow(w, "new", 1));
    var b := ClientEdit(NEW_MEMO, MemoRow("new", "memo", 1));
    assert [] + [a] == [a];
    ProjectAllowed(w, map[], "new", "new", 1);
    ClientEditStep(w, [], NEW_PROJECT, a.row);
    var one := SysAfter(w, [a]).client.store;
    MemoAllowed(w, one.rows, "memo", "new", "memo", 1);
    ClientEditStep(w, [a], NEW_MEMO, b.row);
    var two := SysAfter(w, [a] + [b]).client.store;
    assert Clk(ProjectRow(w, "new", 1)) == 1 by { ClockOfProject(w); }
    ProjectAllowed(w, two.rows, "new", "renamed", 2);
    ClientEditStep(w, [a] + [b], NEW_PROJECT, ProjectRow(w, "renamed", 2));
    assert SysAfter(w, Offline(w)).client.store.rows == AfterOffline(w).rows;
  }

  lemma ClockOfProject(w: World)
    ensures Clk(ProjectRow(w, "new", 1)) == 1
  {
  }

  // ------------------------------------------------------------------
  // The scan
  // ------------------------------------------------------------------

  function Outbox(w: World): Queue {
    map[QueueKey(Push, 2) := LocalChange(AfterOffline(w), map[], 1),
        QueueKey(Push, 3) := LocalChange(AfterOffline(w), map[], 2)]
  }

  /** Only the last entry of each row is sent: the memo at 2, and the project behind it at 3. */
  lemma ScanQueuesTwo(w: World)
    ensures EnqueueAll(map[], Push, CollectWindow(AfterOffline(w), map[], 0, 3)) == Some(Outbox(w))
  {
    hide ProjectRow, MemoRow;
    var st := AfterOffline(w);
    assert st.log[0].key == st.log[2].key;
    assert !LastOfItsRow(st.log, 0, 3) && LastOfItsRow(st.log, 1, 3) && LastOfItsRow(st.log, 2, 3);
    var one, two := LocalChange(st, map[], 1), LocalChange(st, map[], 2);
    assert CollectWindow(st, map[], 3, 3) == [];
    assert CollectWindow(st, map[], 2, 3) == [two];
    assert CollectWindow(st, map[], 1, 3) == [one, two];
    assert CollectWindow(st, map[], 0, 3) == [one, two];
    assert [one, two][..1] == [one] && [one][..0] == [];
    assert EnqueueAll(map[], Push, [one]) == Some(map[QueueKey(Push, 2) := one]);
  }

  /** The server's row and log after its own edit; the client's queue and mark after the scan. */
  lemma RefusedState(w: World, limit: nat)
    requires limit >= 3
    ensures IsRun(w, RefusedRun(w, limit))
    ensures var s := SysAfter(w, RefusedRun(w, limit));
            && s.client == START.client.(store := AfterOffline(w), queue := Outbox(w), pushed := 3)
            && s.server.store.rows == map[PROJECT := ProjectRow(w, "first", 1)]
            && s.server.store.log == [LogEntry(PROJECT, Insert)]
  {
    hide IsRun, SysAfter, EditAllowed, ProjectRow, Offline, AfterOffline, EnqueueAll, CollectWindow, ExecCollect,
      Outbox;
    OfflineIsARun(w);
    ProjectAllowed(w, map[], "p", "first", 1);
    ServerEditStep(w, Offline(w), PROJECT, ProjectRow(w, "first", 1));
    var acts := Offline(w) + [ServerEdit(PROJECT, ProjectRow(w, "first", 1))];
    CollectTaken(w, acts, limit);
    assert |AfterOffline(w).log| == 3 by { ThreeEntries(w); }
    ScanQueuesTwo(w);
  }

  lemma ThreeEntries(w: World)
    ensures |AfterOffline(w).log| == 3
  {
  }

  // ------------------------------------------------------------------
  // The state can move for a peer that only applies, and not for the endpoint
  // ------------------------------------------------------------------

  lemma MemoWaitsForProject(w: World, rows: Rows)
    requires NEW_PROJECT !in rows
    ensures !TakesNow(rows, LocalChange(AfterOffline(w), map[], 1))
    ensures TakesNow(rows, LocalChange(AfterOffline(w), map[], 2))
    ensures LocalChange(AfterOffline(w), map[], 1).table == Some(Memos)
  {
  }

  lemma BothAreListed(q: Queue, limit: nat)
    requires q.Keys == {QueueKey(Push, 2), QueueKey(Push, 3)} && limit >= 3
    ensures forall n | n in SortedPrefix(LiveSeqs(q, Push), limit) :: n == 2 || n == 3
    ensures 2 in SortedPrefix(LiveSeqs(q, Push), limit) && 3 in SortedPrefix(LiveSeqs(q, Push), limit)
  {
    hide SortedPrefix;
    assert QueueKey(Push, 2) in q && QueueKey(Push, 3) in q;
    assert LiveSeqs(q, Push) == {2, 3};
    SortedPrefixIsWhole(LiveSeqs(q, Push), limit);
  }

  /** A client creates a project and a memo in it and then renames the project, all before its next scan. From then
      on its cycles do nothing: nothing is dead, the whole outbox is listed, its second entry could be taken and a
      page waits to be read, but the memo comes first and the endpoint refuses it every time. A peer that only
      applied would defer the memo and take the project. */
  lemma RefusedMemoStopsEverything(w: World, limit: nat)
    requires limit >= 3
    ensures var acts := RefusedRun(w, limit);
            var s := SysAfter(w, acts);
            && IsRun(w, acts) && NoDead(s) && |LiveSeqs(s.client.queue, Push)| <= limit
            && QueueKey(Push, 3) in s.client.queue
            && TakesNow(s.server.store.rows, s.client.queue[QueueKey(Push, 3)])
            && s.client.pulled < |s.server.store.log|
            && CanMove(s.client, s.server.store, limit, None) && Starved(s, limit, Some(w.account))
  {
    hide IsRun, SysAfter, TakesNow, AfterOffline, LocalChange, RefusedRun, ProjectRow, Forbids, SortedPrefix;
    RefusedState(w, limit);
    var s := SysAfter(w, RefusedRun(w, limit));
    var q, rows := s.client.queue, s.server.store.rows;
    MemoWaitsForProject(w, rows);
    assert LiveSeqs(q, Push) == {2, 3} by {
      assert QueueKey(Push, 2) in q && QueueKey(Push, 3) in q;
    }
    BothAreListed(q, limit);
    QueuedPushIsForbidden(w, RefusedRun(w, limit), 2);
    hide LiveSeqs;
    NoGateNoRefusal(q, limit, rows);
    assert NoneForbiddenBefore(q, limit, None, rows, 3);
    assert !NoneForbiddenBefore(q, limit, Some(w.account), rows, 3);
  }

  lemma NoGateNoRefusal(q: Queue, limit: nat, rows: Rows)
    ensures forall n :: NoneForbiddenBefore(q, limit, None, rows, n)
  {
  }
}
