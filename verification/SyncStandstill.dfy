/** What an answered exchange does when no listed entry can be taken: nothing. */
module SyncStandstill {
  import opened SyncSchema
  import opened SyncStore
  import opened SyncApply
  import opened SyncBatch
  import opened SyncBatchProofs
  import opened SyncEffectProofs
  import opened SyncQueue
  import opened SyncFeedProofs
  import opened SyncQueueProofs
  import opened TwoNode
  import opened SyncInvariants
  import opened SyncPullProofs
  import opened SyncSafety
  import opened SyncConvergence
  import opened SyncExactlyOnce
  import opened SyncProgress
  import opened SyncRetryProgress
  import opened SyncTermination
  import opened SyncGate
  import SyncAuthorizeProofs
  import opened SyncLiveness

  /** The nodes hold and have queued the same; only messages, the epoch and the page in memory may differ. */
  ghost predicate SameHeld(s: Sys, t: Sys) {
    t.server == s.server && t.client == s.client.(epoch := t.client.epoch)
  }

  lemma SameHeldNeverFalls(s: Sys, t: Sys)
    requires SameHeld(s, t)
    ensures !Falls(s, t)
  {
    hide Count;
  }

  // ------------------------------------------------------------------
  // An orphan is deferred
  // ------------------------------------------------------------------

  lemma OrphanIsDeferred(w: World, x: Session, st: Store, ch: Change, d: Draw)
    requires WireOk(w, ch) && !TakesNow(st.rows, ch)
    ensures var a := ApplyOne(x, st, ch.table.value, ch, d);
            a.Done? && a.store == st && a.out.status == Deferred && a.out.conflict == None && a.out.duplicates == {}
  {
    WholeRowReplaces(ch.table.value, ch.row.value, map[], d.now);
    hide ApplyOver, Stored, HardDelete, FilterRow, Defaults, Columns, MissingParentOf;
  }

  // ------------------------------------------------------------------
  // Receipted payloads have their parents
  // ------------------------------------------------------------------

  ghost predicate ReceiptsParented(rows: Rows, receipts: Receipts) {
    forall key | key in receipts :: TakesNow(rows, receipts[key].payload)
  }

  lemma TakesLater(rows: Rows, now: Rows, ch: Change)
    requires forall k | k in rows :: k in now
    ensures TakesNow(rows, ch) ==> TakesNow(now, ch)
  {
  }

  lemma ParentedStays(rows: Rows, now: Rows, receipts: Receipts)
    requires ReceiptsParented(rows, receipts) && forall k | k in rows :: k in now
    ensures ReceiptsParented(now, receipts)
  {
    hide TakesNow;
    forall key | key in receipts ensures TakesNow(now, receipts[key].payload) {
      TakesLater(rows, now, receipts[key].payload);
    }
  }

  /** A deferred message leaves the server as it was and is answered as deferred, with nothing to mirror. */
  lemma OrphanDelivery(w: World, st: Store, receipts: Receipts, m: Message, d: Draw)
    requires WireOk(w, m.change) && !TakesNow(st.rows, m.change)
    requires ReceiptKey(m.from, m.change.seqNo.value) !in receipts
    ensures var q := ApplyBatch(ServerSession(w), Some(m.from), st, receipts, [m.change], i => d);
            && q.Running? && q.store == st && q.receipts == receipts
            && q.out.results != [] && q.out.results[0].status == Deferred
            && q.out.conflicts == [] && q.out.duplicates == {}
  {
    OrphanIsDeferred(w, ServerSession(w), st, m.change, d);
    SingleBatch(ServerSession(w), Some(m.from), st, receipts, m.change, i => d);
    hide ApplyBatch, ApplyOne, EffectiveClock, WireOk, TakesNow;
  }

  lemma DeliverKeepsParented(w: World, s: Sys, h: Hist, m: Message, d: Draw)
    requires Inv(w, s, h) && Enabled(w, s, Deliver(m, d)) && ReceiptsParented(s.server.store.rows, s.server.receipts)
    ensures var t := ExecDeliver(w, s, m, d); ReceiptsParented(t.server.store.rows, t.server.receipts)
  {
    hide Inv, TakesNow, ApplyBatch, ReceiptsParented, WireOk, NodeOk, ReceiptsOk, ExecDeliver;
    SentIsWhole(w, s, h, m);
    StepKeepsRows(w, s, h, Deliver(m, d));
    DeliveryIsReceipted(w, s, h, m, d);
    var key := ReceiptKey(m.from, m.change.seqNo.value);
    var t := ExecDeliver(w, s, m, d);
    ParentedStays(s.server.store.rows, t.server.store.rows, s.server.receipts);
    if key in t.server.receipts && key !in s.server.receipts {
      NewReceiptIsParented(w, s, h, m, d);
      TakesLater(s.server.store.rows, t.server.store.rows, m.change);
    }
    ParentedTogether(t.server.store.rows, s.server.receipts, t.server.receipts, key, m.change);
  }

  /** A delivery that leaves a receipt was of a payload whose parent is there. */
  lemma NewReceiptIsParented(w: World, s: Sys, h: Hist, m: Message, d: Draw)
    requires Inv(w, s, h) && m in s.sent && m.change.seqNo.Some?
    requires var key := ReceiptKey(m.from, m.change.seqNo.value);
             key in ExecDeliver(w, s, m, d).server.receipts && key !in s.server.receipts
    ensures var key := ReceiptKey(m.from, m.change.seqNo.value);
            && TakesNow(s.server.store.rows, m.change)
            && ExecDeliver(w, s, m, d).server.receipts[key].payload == m.change
  {
    hide Inv, TakesNow, ApplyBatch, WireOk, NodeOk, ReceiptsOk;
    SentIsWhole(w, s, h, m);
    NewReceiptHoldsChange(w, s.server.store, s.server.receipts, m, d);
    if !TakesNow(s.server.store.rows, m.change) {
      OrphanDelivery(w, s.server.store, s.server.receipts, m, d);
    }
  }

  lemma NewReceiptHoldsChange(w: World, st: Store, receipts: Receipts, m: Message, d: Draw)
    requires m.change.table.Some? && m.change.seqNo.Some?
    requires ReceiptKey(m.from, m.change.seqNo.value) !in receipts
    ensures var q := ApplyBatch(ServerSession(w), Some(m.from), st, receipts, [m.change], i => d);
            var key := ReceiptKey(m.from, m.change.seqNo.value);
            q.Running? && key in q.receipts ==> q.receipts[key].payload == m.change
  {
    SingleBatch(ServerSession(w), Some(m.from), st, receipts, m.change, i => d);
    hide ApplyBatch, ApplyOne, EffectiveClock, Merge, PartOf;
  }

  lemma ParentedTogether(rows: Rows, receipts: Receipts, now: Receipts, key: ReceiptKey, ch: Change)
    requires ReceiptsParented(rows, receipts)
    requires forall r | r in receipts :: r in now && now[r] == receipts[r]
    requires forall r | r in now && r !in receipts :: r == key
    requires key in now && key !in receipts ==> now[key].payload == ch && TakesNow(rows, ch)
    ensures ReceiptsParented(rows, now)
  {
    hide TakesNow;
  }

  lemma ActionKeepsParented(w: World, s: Sys, h: Hist, a: Action)
    requires Inv(w, s, h) && Enabled(w, s, a) && ReceiptsParented(s.server.store.rows, s.server.receipts)
    ensures var t := Exec(w, s, a); ReceiptsParented(t.server.store.rows, t.server.receipts)
  {
    hide Inv, ReceiptsParented, EditAllowed, ExecCollect, ExecApplyPage, ExecRetryPulls, ExecDeliver, SettlePushed;
    match a {
      case Deliver(m, d) => DeliverKeepsParented(w, s, h, m, d);
      case ServerEdit(k, row) =>
        ParentedStays(s.server.store.rows, Exec(w, s, a).server.store.rows, s.server.receipts);
      case _ => ServerStays(w, s, a);
    }
  }

  lemma ServerStays(w: World, s: Sys, a: Action)
    requires !a.Deliver? && !a.ServerEdit?
    ensures Exec(w, s, a).server == s.server
  {
    hide EnqueueAll, CollectWindow, PullBatch, SettlePage, SettleRetries, SettlePushed, ReadWindow;
  }

  lemma {:induction false} RunKeepsParented(w: World, acts: seq<Action>)
    requires IsRun(w, acts)
    ensures var srv := SysAfter(w, acts).server; ReceiptsParented(srv.store.rows, srv.receipts)
  {
    hide Inv, Exec, Record, Enabled, ReceiptsParented;
    if acts == [] {
      assert ReceiptsParented(map[], map[]) by { NothingReceipted(); }
    } else {
      var n := |acts| - 1;
      PrefixIsRun(w, acts, n);
      RunKeepsParented(w, acts[..n]);
      RunKeepsInv(w, acts[..n]);
      hide IsRun;
      ActionKeepsParented(w, After(w, acts[..n]).0, After(w, acts[..n]).1, acts[n]);
    }
  }

  lemma NothingReceipted()
    ensures ReceiptsParented(map[], map[])
  {
  }

  // ------------------------------------------------------------------
  // Pushing an orphan
  // ------------------------------------------------------------------

  lemma DeferredSettlesNothing(c: Client, n: nat, answer: Outcome)
    requires answer.results != [] && answer.results[0].status == Deferred
    requires answer.conflicts == [] && answer.duplicates == {}
    ensures SettlePushed(c, n, answer) == c
  {
  }

  /** Sending, delivering and answering an entry whose parent the server lacks. */
  lemma OrphanExchange(w: World, trace: seq<Action>, s: Sys, m: Message, d: Draw)
    requires IsRun(w, trace) && s == SysAfter(w, trace) && m in s.sent && d.id != ""
    requires !TakesNow(s.server.store.rows, m.change)
    ensures m.change.seqNo.Some?
    ensures var q := ApplyBatch(ServerSession(w), Some(m.from), s.server.store, s.server.receipts, [m.change], i => d);
            && q.Running? && SameHeld(s, ExecDeliver(w, s, m, d))
            && SettlePushed(s.client, m.change.seqNo.value, q.out) == s.client
  {
    RunKeepsInv(w, trace);
    RunKeepsParented(w, trace);
    hide IsRun, After, Inv, TakesNow, SettlePushed, WireOk, NodeOk, ReceiptsOk;
    var h := HistAfter(w, trace);
    SentIsWhole(w, s, h, m);
    var key := ReceiptKey(m.from, m.change.seqNo.value);
    SentIsReceipted(w, s, h, m);
    OrphanDelivery(w, s.server.store, s.server.receipts, m, d);
    hide ApplyBatch;
    var q := ApplyBatch(ServerSession(w), Some(m.from), s.server.store, s.server.receipts, [m.change], i => d);
    DeferredSettlesNothing(s.client, m.change.seqNo.value, q.out);
  }

  /** The receipt of a sent message, if any, holds that message's payload. */
  lemma SentIsReceipted(w: World, s: Sys, h: Hist, m: Message)
    requires Inv(w, s, h) && m in s.sent
    ensures m.change.seqNo.Some?
    ensures var key := ReceiptKey(m.from, m.change.seqNo.value);
            key in s.server.receipts ==> s.server.receipts[key].payload == m.change
  {
    SentIsWhole(w, s, h, m);
    NeverRefused(w, s, h, m, Draw("id", 0));
    SingleBatch(ServerSession(w), Some(m.from), s.server.store, s.server.receipts, m.change, i => Draw("id", 0));
    hide ApplyBatch, ApplyOne, Inv, WireOk, NodeOk, ReceiptsOk;
  }

  // ------------------------------------------------------------------
  // Retrying orphans
  // ------------------------------------------------------------------

  ghost predicate AllDeferred(results: seq<Result>) {
    forall r | r in results :: r.status == Deferred
  }

  ghost predicate Orphans(w: World, rows: Rows, work: seq<Change>) {
    forall ch | ch in work :: WireOk(w, ch) && !TakesNow(rows, ch)
  }

  lemma OrphansAreAddressed(w: World, rows: Rows, work: seq<Change>)
    requires Orphans(w, rows, work)
    ensures forall ch | ch in work :: ch.table.Some? && ch.seqNo.Some?
  {
    hide TakesNow, RowOk;
  }

  lemma StepDefers(w: World, x: Session, p: Progress, ch: Change, d: Draw)
    requires p.Running? && WireOk(w, ch) && !TakesNow(p.store.rows, ch) && AllDeferred(p.out.results)
    ensures var q := StepRow(x, None, p, ch.table.value, ch, d);
            q.Running? && q.store == p.store && AllDeferred(q.out.results)
  {
    OrphanIsDeferred(w, x, p.store, ch, d);
    hide ApplyOne, EffectiveClock, WireOk, TakesNow;
  }

  lemma {:induction false} FoldDefers(w: World, x: Session, p: Progress, work: seq<Change>, draws: nat -> Draw)
    requires p.Running? && Orphans(w, p.store.rows, work) && AllDeferred(p.out.results)
    ensures forall ch | ch in work :: ch.table.Some?
    ensures var q := Fold(x, None, p, work, draws); q.Running? && q.store == p.store && AllDeferred(q.out.results)
  {
    OrphansAreAddressed(w, p.store.rows, work);
    hide StepRow, AllDeferred, TakesNow, RowOk;
    if work != [] {
      var n := |work| - 1;
      FoldDefers(w, x, p, work[..n], draws);
      StepDefers(w, x, Fold(x, None, p, work[..n], draws), work[n], draws(n));
    }
  }

  lemma {:induction false} FoundIsDeferred(results: seq<Result>, seqNo: Option<nat>)
    requires AllDeferred(results)
    ensures ResultFor(results, seqNo).Some? ==> ResultFor(results, seqNo).value.status == Deferred
  {
    if results != [] { FoundIsDeferred(results[..|results| - 1], seqNo); }
  }

  lemma {:induction false} DeferredRetriesSettleNothing(c: Client, changes: seq<Change>, results: seq<Result>)
    requires forall ch | ch in changes :: ch.table.Some? && ch.seqNo.Some?
    requires AllDeferred(results)
    ensures SettleRetries(c, changes, results) == c
  {
    hide AllDeferred, ResultFor;
    if changes != [] {
      var n := |changes| - 1;
      DeferredRetriesSettleNothing(c, changes[..n], results);
      FoundIsDeferred(results, changes[n].seqNo);
    }
  }

  lemma OrphanBatch(w: World, c: Client, changes: seq<Change>, draws: nat -> Draw)
    requires Orphans(w, c.store.rows, changes)
    ensures var q := PullBatch(w, c, changes, draws);
            q.Running? && q.store == c.store && AllDeferred(q.out.results)
  {
    OrphansAreAddressed(w, c.store.rows, changes);
    hide TakesNow, RowOk, Fold, Having;
    NothingUnlisted(changes);
    var start := Running(c.store, map[], EMPTY_OUTCOME);
    assert Orphans(w, c.store.rows, Ordered(changes));
    hide Ordered, Orphans;
    FoldDefers(w, ClientSession(w), start, Ordered(changes), draws);
  }

  /** One of the first `limit` entries of a queue has its parent at its destination. */
  predicate ListedTakes(q: Queue, direction: Direction, limit: nat, rows: Rows) {
    exists n :: n in SortedPrefix(LiveSeqs(q, direction), limit) && TakesNow(rows, q[QueueKey(direction, n)])
  }

  lemma ListedAreOrphans(w: World, c: Client, limit: nat, feed: set<Change>)
    requires InboxOk(w, c.queue, c.pulled, feed) && !ListedTakes(c.queue, Pull, limit, c.store.rows)
    ensures Orphans(w, c.store.rows, WithBases(c.rowState, ListRetries(c.queue, Pull, limit)))
  {
    RetryChangesOk(w, c, limit, feed);
    var listed := ListRetries(c.queue, Pull, limit);
    var changes := WithBases(c.rowState, listed);
    forall i | 0 <= i < |changes| ensures WireOk(w, changes[i]) && !TakesNow(c.store.rows, changes[i]) {
      assert changes[i] in changes && InFeeds(w, Some(changes[i]), feed);
      assert SortedPrefix(LiveSeqs(c.queue, Pull), limit)[i] in SortedPrefix(LiveSeqs(c.queue, Pull), limit);
      assert !TakesNow(c.store.rows, listed[i]);
    }
  }

  /** A retry in which nothing listed can be taken changes nothing. */
  lemma OrphanRetry(w: World, s: Sys, h: Hist, limit: nat, draws: nat -> Draw)
    requires Inv(w, s, h) && !ListedTakes(s.client.queue, Pull, limit, s.client.store.rows)
    ensures ExecRetryPulls(w, s, limit, draws) == s
  {
    hide Inv, InboxOk, FeedOk, TakesNow, WithBases, ListRetries, ListedTakes;
    InboxAndFeed(w, s, h);
    ListedAreOrphans(w, s.client, limit, h.feed);
    var changes := WithBases(s.client.rowState, ListRetries(s.client.queue, Pull, limit));
    OrphansAreAddressed(w, s.client.store.rows, changes);
    hide Orphans;
    OrphanBatch(w, s.client, changes, draws);
    hide PullBatch, SettleRetries;
    DeferredRetriesSettleNothing(s.client, changes, PullBatch(w, s.client, changes, draws).out.results);
  }

  // ------------------------------------------------------------------
  // The server's database stays one an authorised push may meet
  // ------------------------------------------------------------------

  lemma ActionKeepsDistinct(w: World, s: Sys, a: Action)
    requires Enabled(w, s, a) && MembershipsDistinct(s.server.store.rows)
    ensures MembershipsDistinct(Exec(w, s, a).server.store.rows)
  {
    hide MembershipsDistinct, Fold, ExecCollect, ExecApplyPage, ExecRetryPulls, SettlePushed, RowsValid, Having,
      Ordered;
    match a {
      case Deliver(m, d) =>
        var start := Running(s.server.store, s.server.receipts, RefuseAll(Having([m.change], None)));
        FoldKeepsMembershipsDistinct(ServerSession(w), Some(m.from), start, Ordered([m.change]), i => d);
      case ServerEdit(k, row) => StoringKeepsDistinct(s.server.store.rows, k, row);
      case _ => ServerStays(w, s, a);
    }
  }

  lemma {:induction false} RunKeepsDistinct(w: World, acts: seq<Action>)
    requires IsRun(w, acts)
    ensures MembershipsDistinct(SysAfter(w, acts).server.store.rows)
  {
    hide Exec, Record, Enabled, MembershipsDistinct;
    if acts == [] {
      assert MembershipsDistinct(map[]) by { NoMemberships(); }
    } else {
      var n := |acts| - 1;
      PrefixIsRun(w, acts, n);
      RunKeepsDistinct(w, acts[..n]);
      hide IsRun;
      ActionKeepsDistinct(w, After(w, acts[..n]).0, acts[n]);
    }
  }

  lemma NoMemberships()
    ensures MembershipsDistinct(map[])
  {
  }

  /** What the endpoint demands of the server's database holds after every run. */
  lemma RunKeepsDatabase(w: World, acts: seq<Action>)
    requires IsRun(w, acts)
    ensures SyncAuthorizeProofs.DatabaseOk(SysAfter(w, acts).server.store.rows)
  {
    hide IsRun, SysAfter, RowsValid, MembershipsDistinct, SyncAuthorizeProofs.NoBlankParents;
    RunKeepsDistinct(w, acts);
    ServerIsOk(w, acts);
    NothingIsBlank(w, SysAfter(w, acts).server.store.rows);
  }

  lemma ServerIsOk(w: World, acts: seq<Action>)
    requires IsRun(w, acts)
    ensures NodeOk(w, SysAfter(w, acts).server.store.rows) && RowsValid(SysAfter(w, acts).server.store.rows)
  {
    hide IsRun, After, Books, ClientOk, ReceiptsDelivered, RowsValid, RowOk;
    RunKeepsInv(w, acts);
  }

  // ------------------------------------------------------------------
  // Which queued pushes are refused
  // ------------------------------------------------------------------

  /** In every reachable state the endpoint refuses a queued payload exactly when its parent is not on the server,
      save for versions that the server stores already. */
  lemma QueuedPushIsForbidden(w: World, acts: seq<Action>, n: nat)
    requires IsRun(w, acts) && n in LiveSeqs(SysAfter(w, acts).client.queue, Push)
    ensures var s := SysAfter(w, acts);
            && QueueKey(Push, n) in s.client.queue && s.client.queue[QueueKey(Push, n)].table.Some?
            && (Forbids(Some(w.account), s.server.store.rows, s.client.queue[QueueKey(Push, n)])
                <==> !TakesNow(s.server.store.rows, s.client.queue[QueueKey(Push, n)])
                     && !(s.client.queue[QueueKey(Push, n)].table == Some(MemoVersions)
                          && KeyOf(s.client.queue[QueueKey(Push, n)]) in s.server.store.rows))
  {
    hide IsRun, SysAfter, HistAfter, Inv, NodeOk, WireOk, TakesNow, Forbids, LiveSeqs, NamesParent;
    var s, h := SysAfter(w, acts), HistAfter(w, acts);
    ProgOfRun(w, acts);
    LiveInOutbox(s.client.queue, n);
    LivePushIsSnap(w, s, h, n);
    ServerIsOk(w, acts);
    ClientIsOk(w, acts);
    PayloadNamesParent(w, s.client.store.rows, h.snap[n]);
    WireHasTable(w, h.snap[n]);
    OrphanPushIsForbidden(w, s.server.store.rows, h.snap[n]);
  }

  lemma ProgOfRun(w: World, acts: seq<Action>)
    requires IsRun(w, acts)
    ensures ProgInv(w, SysAfter(w, acts), HistAfter(w, acts))
  {
    hide ProgInv, IsRun;
    RunKeepsProg(w, acts);
  }

  lemma ClientIsOk(w: World, acts: seq<Action>)
    requires IsRun(w, acts)
    ensures NodeOk(w, SysAfter(w, acts).client.store.rows)
  {
    hide IsRun, After, Books, ReceiptsDelivered, NodeOk, SnapsBound, FeedsBound, Covered, LogStored;
    RunKeepsInv(w, acts);
  }

  // ------------------------------------------------------------------
  // What an answered cycle can do at all
  // ------------------------------------------------------------------

  /** The endpoint refuses one of the first `limit` pushes as things are. */
  predicate ListedForbids(q: Queue, limit: nat, gate: Option<Id>, rows: Rows) {
    exists n :: n in SortedPrefix(LiveSeqs(q, Push), limit) && Forbids(gate, rows, q[QueueKey(Push, n)])
  }

  /** One of the first `limit` pushes can be taken, and none before it is refused. */
  predicate PushMoves(q: Queue, limit: nat, gate: Option<Id>, rows: Rows) {
    exists n :: n in SortedPrefix(LiveSeqs(q, Push), limit) && TakesNow(rows, q[QueueKey(Push, n)])
                && NoneForbiddenBefore(q, limit, gate, rows, n)
  }

  predicate NoneForbiddenBefore(q: Queue, limit: nat, gate: Option<Id>, rows: Rows, n: nat) {
    forall m | m in SortedPrefix(LiveSeqs(q, Push), limit) && m < n :: !Forbids(gate, rows, q[QueueKey(Push, m)])
  }

  /** A refused push ends the cycle, so what can move is a push before the first refused one, or, when no listed
      push is refused, anything unscanned or unread or one of the first `limit` inbox entries that can be taken. */
  predicate CanMove(c: Client, srv: Store, limit: nat, gate: Option<Id>) {
    || PushMoves(c.queue, limit, gate, srv.rows)
    || (!ListedForbids(c.queue, limit, gate, srv.rows)
        && (c.pushed < |c.store.log| || c.pulled < |srv.log| || ListedTakes(c.queue, Pull, limit, c.store.rows)))
  }

  /** Nothing can move although the system is not at rest. */
  ghost predicate Starved(s: Sys, limit: nat, gate: Option<Id>) {
    !CanMove(s.client, s.server.store, limit, gate) && !Resting(s)
  }

  lemma SameHeldStays(s: Sys, t: Sys, limit: nat, gate: Option<Id>)
    requires SameHeld(s, t)
    ensures CanMove(s.client, s.server.store, limit, gate) <==> CanMove(t.client, t.server.store, limit, gate)
    ensures Starved(s, limit, gate) <==> Starved(t, limit, gate)
    ensures Resting(s) <==> Resting(t)
    ensures Idle(s) <==> Idle(t)
  {
    hide ListedTakes, ListedForbids, PushMoves, TakesNow;
  }

  /** A peer that only applies, as the two nodes do without the endpoint, refuses nothing. */
  lemma OpenPeerMoves(c: Client, srv: Store, limit: nat)
    ensures CanMove(c, srv, limit, None)
            <==> c.pushed < |c.store.log| || c.pulled < |srv.log|
                 || ListedTakes(c.queue, Push, limit, srv.rows) || ListedTakes(c.queue, Pull, limit, c.store.rows)
  {
    hide TakesNow, SortedPrefix;
  }

  lemma WholeQueueListed(q: Queue, direction: Direction, limit: nat, rows: Rows)
    requires |LiveSeqs(q, direction)| <= limit && !ListedTakes(q, direction, limit, rows)
    ensures forall n | n in LiveSeqs(q, direction) :: !TakesNow(rows, q[QueueKey(direction, n)])
  {
    SortedPrefixIsWhole(LiveSeqs(q, direction), limit);
    hide SortedPrefix, TakesNow;
  }

  /** Only a queue longer than the batch limit, or a refused push, can starve the rest. */
  lemma StarvedQueueIsLongOrRefused(w: World, acts: seq<Action>, limit: nat, gate: Option<Id>)
    requires IsRun(w, acts) && Starved(SysAfter(w, acts), limit, gate)
    ensures var s := SysAfter(w, acts);
            || |LiveSeqs(s.client.queue, Push)| > limit || |LiveSeqs(s.client.queue, Pull)| > limit
            || ListedForbids(s.client.queue, limit, gate, s.server.store.rows)
  {
    hide IsRun, SysAfter, ListedTakes, ListedForbids, TakesNow, LiveSeqs;
    var s := SysAfter(w, acts);
    MarksAreBounded(w, acts);
    if !ListedForbids(s.client.queue, limit, gate, s.server.store.rows) {
      UnrefusedMoves(s.client.queue, limit, gate, s.server.store.rows);
      if |LiveSeqs(s.client.queue, Push)| <= limit {
        WholeQueueListed(s.client.queue, Push, limit, s.server.store.rows);
      }
      if |LiveSeqs(s.client.queue, Pull)| <= limit {
        WholeQueueListed(s.client.queue, Pull, limit, s.client.store.rows);
      }
    }
  }

  lemma UnrefusedMoves(q: Queue, limit: nat, gate: Option<Id>, rows: Rows)
    requires !ListedForbids(q, limit, gate, rows)
    ensures PushMoves(q, limit, gate, rows) <==> ListedTakes(q, Push, limit, rows)
  {
    hide TakesNow, Forbids, SortedPrefix;
  }

  lemma MarksAreBounded(w: World, acts: seq<Action>)
    requires IsRun(w, acts)
    ensures var s := SysAfter(w, acts);
            s.client.pushed <= |s.client.store.log| && s.client.pulled <= |s.server.store.log|
  {
    hide IsRun, After, Inv, ProgInv;
    RunKeepsProg(w, acts);
    var s, h := SysAfter(w, acts), HistAfter(w, acts);
    InvOfProg(w, s, h);
    PullSeqsRead(w, s, h);
  }
}
