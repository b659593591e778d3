/** From every reachable state the protocol alone can bring both nodes to rest with equal rows, unless a
    change is refused and reported. */
module SyncLiveness {
  import opened SyncSchema
  import opened SyncStore
  import opened SyncApply
  import opened SyncApplyProofs
  import opened SyncEffectProofs
  import opened SyncBatch
  import opened SyncBatchProofs
  import opened SyncQueue
  import opened SyncFeedProofs
  import opened SyncQueueProofs
  import opened TwoNode
  import opened SyncInvariants
  import opened SyncPullProofs
  import opened SyncSafety
  import opened SyncConvergence
  import opened SyncExactlyOnce
  import opened SyncOverwrite
  import opened SyncCursor
  import opened SyncCommits
  import opened SyncProgress
  import opened SyncRetryProgress
  import opened SyncTermination
  import opened SyncGate

  ghost predicate NoDead(s: Sys) {
    forall key | key in s.client.queue :: !IsDead(key)
  }

  /** A live entry whose parent is at its destination. */
  predicate Ready(q: Queue, direction: Direction, n: nat, rows: Rows) {
    n in LiveSeqs(q, direction) && QueueKey(direction, n) in q && TakesNow(rows, q[QueueKey(direction, n)])
  }

  /** Both logs are scanned, and every queued entry names a parent that its destination lacks. */
  ghost predicate Resting(s: Sys) {
    var c, srv := s.client, s.server.store;
    && c.pushed == |c.store.log| && c.pulled == |srv.log|
    && (forall n | n in LiveSeqs(c.queue, Push) :: !TakesNow(srv.rows, c.queue[QueueKey(Push, n)]))
    && (forall n | n in LiveSeqs(c.queue, Pull) :: !TakesNow(c.store.rows, c.queue[QueueKey(Pull, n)]))
  }

  predicate About(ch: Change, k: Key) {
    ch.table == Some(k.table) && ch.rowId == k.id
  }

  /** The parent a queued entry waits for. */
  ghost function WaitsFor(s: Sys, key: QueueKey): Option<Key>
    requires key in s.client.queue
  {
    var ch := s.client.queue[key];
    if ch.table.None? || ch.row.None? then None
    else Orphan(if IsPull(key) then s.client.store.rows else s.server.store.rows, ch)
  }

  /** Row `k` has a dead letter, or an entry that waits for a row of which the same is true. */
  ghost predicate Blocked(s: Sys, k: Key)
    decreases Rank(k.table), 1
  {
    exists key :: key in s.client.queue && About(s.client.queue[key], k)
                  && (IsDead(key) || WaitsForBlocked(s, key, k))
  }

  ghost predicate WaitsForBlocked(s: Sys, key: QueueKey, k: Key)
    requires key in s.client.queue
    decreases Rank(k.table), 0
  {
    var parent := WaitsFor(s, key);
    parent.Some? && Rank(parent.value.table) < Rank(k.table) && Blocked(s, parent.value)
  }

  lemma PayloadNamesParent(w: World, rows: Rows, ch: Change)
    requires NodeOk(w, rows) && HasParent(rows, ch)
    ensures NamesParent(ch)
  {
    hide RowsValid, Columns;
    if ParentOf(ch.table.value).Some? {
      var p := ParentOf(ch.table.value).value;
      var pk := Key(p.table, Get(ch.row.value, p.column).s);
      assert RowOk(w, pk, rows[pk]);
    }
  }

  lemma OrphanIsMissing(a: Rows, b: Rows, ch: Change)
    requires HasParent(a, ch) && Orphan(b, ch).Some?
    ensures Orphan(b, ch).value in a && Orphan(b, ch).value !in b
    ensures Rank(Orphan(b, ch).value.table) < Rank(ch.table.value)
  {
    ParentHasSmallerRank(ch.table.value);
  }

  // ------------------------------------------------------------------
  // Some queued entry can always be taken
  // ------------------------------------------------------------------

  lemma LivePushIsSnap(w: World, s: Sys, h: Hist, n: nat)
    requires Inv(w, s, h) && n in LiveSeqs(s.client.queue, Push)
    ensures n in h.snap && s.client.queue[QueueKey(Push, n)] == h.snap[n] && WireOk(w, h.snap[n])
  {
    assert !IsPull(QueueKey(Push, n)) && QueueKey(Push, n) in s.client.queue;
    hide NodeOk, ReceiptsDelivered, InboxOk, FeedOk, PageOk, SentOk, RepliesOk, ReceiptsMatch, Covered, WireOk,
      SnapBound, FeedsBound;
    assert SnapsBound(w, s.client.store.rows, s.server.store.rows, h.snap);
  }

  lemma CoverageOf(w: World, s: Sys, h: Hist)
    requires Inv(w, s, h)
    ensures ClientCovered(s.client, s.server.store.rows)
    ensures ServerCovered(s.client.store.rows, s.client.queue, s.server.store, s.client.pulled, [])
  {
    hide Books, NodeOk, ReceiptsDelivered, SnapsBound, FeedsBound, LogStored, ClientCovered, ServerCovered;
  }

  /** Once the log is scanned, a row the server lacks is in the outbox, live or dead. */
  lemma MissingIsHeld(w: World, s: Sys, h: Hist, k: Key) returns (key: QueueKey)
    requires Inv(w, s, h) && s.client.pushed == |s.client.store.log|
    requires k in s.client.store.rows && k !in s.server.store.rows
    ensures key in s.client.queue && !IsPull(key) && About(s.client.queue[key], k)
  {
    hide Inv;
    var c := s.client;
    CoverageOf(w, s, h);
    assert ClientAhead(c.store.rows, s.server.store.rows, k);
    assert HeldUp(c.queue, k, c.store.rows[k]);
    key :| key in c.queue && (key.direction == Push || key.direction == PushDead)
      && Carries(c.queue[key], k, c.store.rows[k]);
  }

  lemma LivePullIsFed(w: World, s: Sys, h: Hist, n: nat)
    requires ProgInv(w, s, h) && n in LiveSeqs(s.client.queue, Pull)
    ensures var ch := s.client.queue[QueueKey(Pull, n)];
            ch.seqNo == Some(n) && WireOk(w, ch) && HasParent(s.server.store.rows, ch)
  {
    InboxAndFeed(w, s, h);
    hide Inv, RowOk, OneFate, ParentStored;
    var key := QueueKey(Pull, n);
    assert IsPull(key) && key in s.client.queue;
    assert InFeeds(w, Some(s.client.queue[key]), h.feed);
    var f :| f in h.feed && SameItem(f, s.client.queue[key]);
    assert HasParent(s.server.store.rows, f);
  }

  /** Once the feed is read, a row the client lacks is in the inbox, live or dead. */
  lemma UnseenIsHeld(w: World, s: Sys, h: Hist, k: Key) returns (key: QueueKey)
    requires Inv(w, s, h) && s.client.pulled == |s.server.store.log|
    requires k in s.server.store.rows && k !in s.client.store.rows
    ensures key in s.client.queue && IsPull(key) && About(s.client.queue[key], k)
  {
    hide Inv;
    var c, srv := s.client, s.server.store;
    CoverageOf(w, s, h);
    assert ServerAhead(c.store.rows, srv.rows, k);
    NothingDelivers(k, srv.rows[k]);
    assert HeldDown(c.queue, k, srv.rows[k]);
    key :| key in c.queue && (key.direction == Pull || key.direction == PullDead)
      && Carries(c.queue[key], k, srv.rows[k]);
  }

  /** What a live entry waits for: a row the sending node has and the receiving one lacks, held in the same
      direction, live or dead. */
  lemma WaitsForHeld(w: World, s: Sys, h: Hist, key: QueueKey) returns (parent: Key, held: QueueKey)
    requires ProgInv(w, s, h) && Resting(s) && key in s.client.queue && !IsDead(key)
    ensures s.client.queue[key].table.Some? && WaitsFor(s, key) == Some(parent)
    ensures Rank(parent.table) < Rank(s.client.queue[key].table.value)
    ensures held in s.client.queue && IsPull(held) == IsPull(key) && About(s.client.queue[held], parent)
  {
    hide Inv, RowOk, MissingParentOf, ParentStored;
    InvOfProg(w, s, h);
    var ch := s.client.queue[key];
    if IsPull(key) {
      assert key == QueueKey(Pull, key.seqNo) && key.seqNo in LiveSeqs(s.client.queue, Pull);
      LivePullIsFed(w, s, h, key.seqNo);
      assert Orphan(s.client.store.rows, ch).Some?;
      OrphanIsMissing(s.server.store.rows, s.client.store.rows, ch);
      parent := Orphan(s.client.store.rows, ch).value;
      held := UnseenIsHeld(w, s, h, parent);
    } else {
      assert key == QueueKey(Push, key.seqNo) && key.seqNo in LiveSeqs(s.client.queue, Push);
      LivePushIsSnap(w, s, h, key.seqNo);
      assert HasParent(s.client.store.rows, h.snap[key.seqNo]);
      assert Orphan(s.server.store.rows, ch).Some?;
      OrphanIsMissing(s.client.store.rows, s.server.store.rows, ch);
      parent := Orphan(s.server.store.rows, ch).value;
      held := MissingIsHeld(w, s, h, parent);
    }
  }

  /** At rest every queued entry is blocked: its chain of missing parents ends in a dead letter. */
  lemma {:induction false} QueuedIsBlocked(w: World, s: Sys, h: Hist, key: QueueKey, k: Key)
    requires ProgInv(w, s, h) && Resting(s)
    requires key in s.client.queue && About(s.client.queue[key], k)
    ensures Blocked(s, k)
    decreases Rank(k.table)
  {
    hide ProgInv, Resting;
    if !IsDead(key) {
      var parent, held := WaitsForHeld(w, s, h, key);
      QueuedIsBlocked(w, s, h, held, parent);
      assert WaitsForBlocked(s, key, k);
    }
  }

  lemma {:induction false} NothingIsBlocked(s: Sys, k: Key)
    requires NoDead(s)
    ensures !Blocked(s, k)
    decreases Rank(k.table)
  {
    forall key | key in s.client.queue && About(s.client.queue[key], k)
      ensures !IsDead(key) && !WaitsForBlocked(s, key, k)
    {
      var parent := WaitsFor(s, key);
      if parent.Some? && Rank(parent.value.table) < Rank(k.table) { NothingIsBlocked(s, parent.value); }
    }
  }

  lemma InvOfProg(w: World, s: Sys, h: Hist)
    requires ProgInv(w, s, h)
    ensures Inv(w, s, h)
  {
  }

  // ------------------------------------------------------------------
  // Taking it lowers the measure
  // ------------------------------------------------------------------

  lemma NotDeferred(w: World, x: Session, st: Store, ch: Change, d: Draw)
    requires WireOk(w, ch) && Orphan(st.rows, ch).None?
    requires ApplyOne(x, st, ch.table.value, ch, d).Done?
    ensures ApplyOne(x, st, ch.table.value, ch, d).out.status != Deferred
  {
    WholeRowReplaces(ch.table.value, ch.row.value, map[], d.now);
    hide FindDuplicates, ConstraintsHold, PreserveText, RowsEquivalent, IncomingWins, TrueDivergence, MissingParentOf,
      Columns, FilterRow, Defaults;
  }

  /** A delivered change whose parent is there gets a terminal answer. */
  lemma DeliveryIsTerminal(w: World, s: Sys, h: Hist, m: Message, d: Draw) returns (reply: Reply)
    requires Inv(w, s, h) && Enabled(w, s, Deliver(m, d))
    requires m.change.table.Some? && m.change.row.Some? && Orphan(s.server.store.rows, m.change).None?
    ensures reply in Exec(w, s, Deliver(m, d)).replies && Some(reply.seqNo) == m.change.seqNo
    ensures reply.answer.results != [] && reply.answer.results[0].status != Deferred
  {
    var st, receipts, ch := s.server.store, s.server.receipts, m.change;
    assert ch == h.snap[ch.seqNo.value] && WireOk(w, ch) && ReceiptsOk(receipts) && NodeOk(w, st.rows);
    NeverRefused(w, s, h, m, d);
    hide Inv, WireOk, NodeOk, ReceiptsOk, Orphan;
    var q := ApplyBatch(ServerSession(w), Some(m.from), st, receipts, [ch], i => d);
    reply := Reply(ch.seqNo.value, q.out);
    TerminalAnswer(w, st, receipts, m, d);
    hide ApplyBatch;
  }

  lemma TerminalAnswer(w: World, st: Store, receipts: Receipts, m: Message, d: Draw)
    requires WireOk(w, m.change) && NodeOk(w, st.rows) && ReceiptsOk(receipts) && d.id != ""
    requires Orphan(st.rows, m.change).None?
    ensures var q := ApplyBatch(ServerSession(w), Some(m.from), st, receipts, [m.change], i => d);
            q.Running? ==> q.out.results != [] && q.out.results[0].status != Deferred
  {
    var ch := m.change;
    SingleBatch(ServerSession(w), Some(m.from), st, receipts, ch, i => d);
    DeliverOne(w, st, receipts, m.from, ch, d);
    assert |Idents([ch])| == 1;
    hide ApplyBatch, ApplyOne, Evolves, EffectiveClock, NodeOk, RowOk, Has, Orphan, Answered, Idents, Balanced;
    var key := ReceiptKey(m.from, ch.seqNo.value);
    if key in receipts {
      assert PartAnswers(receipts[key].part, receipts[key].payload);
      ReceiptIsTerminal(receipts[key].part, receipts[key].payload);
    } else {
      var a := ApplyOne(ServerSession(w), st, ch.table.value, ch, d);
      if a.Done? { NotDeferred(w, ServerSession(w), st, ch, d); }
    }
  }

  lemma ReceiptIsTerminal(part: Outcome, ch: Change)
    requires PartAnswers(part, ch)
    ensures part.results != [] && part.results[0].status != Deferred
  {
    assert |Answered(part.results)| == |Idents([ch])|;
  }

  lemma LiveInOutbox(q: Queue, e: nat)
    requires e in LiveSeqs(q, Push)
    ensures QueueKey(Push, e) in q
  {
  }

  lemma SendEffect(w: World, s: Sys, h: Hist, e: nat, epoch: Id) returns (m: Message)
    requires Inv(w, s, h) && e in LiveSeqs(s.client.queue, Push)
    ensures var a := Exec(w, s, Send(e, epoch));
            && Enabled(w, s, Send(e, epoch)) && m in a.sent && a.server == s.server && a.client.queue == s.client.queue
            && e in h.snap && m.change == h.snap[e] && m.change.seqNo == Some(e)
            && Record(w, s, h, Send(e, epoch)) == h
  {
    hide Inv, WireOk, LiveSeqs;
    LiveInOutbox(s.client.queue, e);
    LivePushIsSnap(w, s, h, e);
    SnapIsScanned(w, s, h, e);
    m := Message(PeerOf(w, Exec(w, s, Send(e, epoch)).client.epoch.value), h.snap[e]);
  }

  /** A terminal answer to a live entry lowers the measure. */
  lemma TerminalAnswerFalls(w: World, s: Sys, h: Hist, reply: Reply)
    requires Inv(w, s, h) && reply in s.replies && QueueKey(Push, reply.seqNo) in s.client.queue
    requires reply.answer.results != [] && reply.answer.results[0].status != Deferred
    ensures Falls(s, Exec(w, s, Answer(reply))) && NoRise(s, Exec(w, s, Answer(reply)))
  {
    hide Inv, SettlePushed, Falls, NoRise;
    TerminalAnswerRetires(s.client, reply.seqNo, reply.answer);
    AnswerFalls(w, s, h, reply);
    assert Exec(w, s, Answer(reply)).client == SettlePushed(s.client, reply.seqNo, reply.answer);
    hide Exec;
  }

  /** Sending, delivering and answering a deliverable entry. */
  lemma ExchangeFalls(w: World, s: Sys, h: Hist, e: nat, epoch: Id, d: Draw) returns (m: Message, reply: Reply)
    requires ProgInv(w, s, h) && e in LiveSeqs(s.client.queue, Push) && e in h.snap && WireOk(w, h.snap[e])
             && d.id != ""
    requires Orphan(s.server.store.rows, h.snap[e]).None?
    ensures var a := Exec(w, s, Send(e, epoch));
            var b := Exec(w, a, Deliver(m, d));
            && Enabled(w, s, Send(e, epoch)) && Enabled(w, a, Deliver(m, d)) && Enabled(w, b, Answer(reply))
            && m.change == h.snap[e] && a.server == s.server
            && Falls(s, Exec(w, b, Answer(reply)))
  {
    hide Inv, RowOk, ProgInv, Orphan, NoRise, Falls, Weight, ExecSend, ExecDeliver, Record;
    InvOfProg(w, s, h);
    var a, ha := Exec(w, s, Send(e, epoch)), Record(w, s, h, Send(e, epoch));
    m := SendEffect(w, s, h, e, epoch);
    StepNeverRises(w, s, h, Send(e, epoch));
    ActionKeepsProg(w, s, h, Send(e, epoch));
    var b, hb := Exec(w, a, Deliver(m, d)), Record(w, a, ha, Deliver(m, d));
    InvOfProg(w, a, ha);
    reply := DeliveryIsTerminal(w, a, ha, m, d);
    StepNeverRises(w, a, ha, Deliver(m, d));
    ActionKeepsProg(w, a, ha, Deliver(m, d));
    DeliveryIsReceipted(w, a, ha, m, d);
    InvOfProg(w, b, hb);
    TerminalAnswerFalls(w, b, hb, reply);
    NoRiseTrans(s, a, b);
    NoRiseTrans(s, b, Exec(w, b, Answer(reply)));
  }

  // ------------------------------------------------------------------
  // Retrying
  // ------------------------------------------------------------------

  /** A row of a batch whose parent was there when the batch began is not deferred when its turn comes. */
  lemma {:induction false} NotDeferredAt(
    w: World, x: Session, p: Progress, work: seq<Change>, draws: nat -> Draw, j: nat)
    requires p.Running? && x.applying && forall ch | ch in work :: ch.table.Some?
    requires j < |work| && WireOk(w, work[j]) && Orphan(p.store.rows, work[j]).None?
    ensures var q := Fold(x, None, p, work, draws);
            q.Running? && |p.out.results| + j < |q.out.results| && q.out.results[|p.out.results| + j].status != Deferred
  {
    hide StepRow, FoldResults, RowOk, Orphan;
    var n, base := |work| - 1, |p.out.results|;
    var b := Fold(x, None, p, work[..n], draws);
    FoldHasResults(x, p, work[..n], draws);
    FoldShape(p, b, work[..n]);
    var t, ch, d := work[n].table.value, work[n], draws(n);
    StepResults(x, b, t, ch, d);
    StepShape(b, StepRow(x, None, b, t, ch, d), ch);
    if j < n {
      NotDeferredAt(w, x, p, work[..n], draws, j);
    } else {
      ParentStays(x, p, work[..n], draws, ch);
      LastNotDeferred(w, x, b, ch, d);
    }
  }

  lemma FoldShape(p: Progress, q: Progress, work: seq<Change>)
    requires FoldResults(p, q, work)
    ensures p.Running? && q.Running? && |q.out.results| == |p.out.results| + |work|
  {
  }

  lemma StepShape(p: Progress, q: Progress, ch: Change)
    requires FoldResults(p, q, [ch])
    ensures p.Running? && q.Running? && |q.out.results| == |p.out.results| + 1
  {
  }

  lemma ParentStays(x: Session, p: Progress, work: seq<Change>, draws: nat -> Draw, ch: Change)
    requires p.Running? && forall c | c in work :: c.table.Some?
    requires Fold(x, None, p, work, draws).Running?
    requires ch.table.Some? && ch.row.Some? && Orphan(p.store.rows, ch).None?
    ensures Orphan(Fold(x, None, p, work, draws).store.rows, ch).None?
  {
    hide Fold, InsertsAt;
    var parent := ParentOf(ch.table.value);
    if parent.Some? {
      var v := Get(ch.row.value, parent.value.column);
      if v.Text? && Key(parent.value.table, v.s) in p.store.rows {
        StoredOrInsertedEarlier(x, None, p, work, draws, Key(parent.value.table, v.s));
      }
    }
  }

  lemma LastNotDeferred(w: World, x: Session, p: Progress, ch: Change, d: Draw)
    requires p.Running? && ch.table.Some? && WireOk(w, ch) && Orphan(p.store.rows, ch).None?
    ensures var q := StepRow(x, None, p, ch.table.value, ch, d);
            q.Running? && |p.out.results| < |q.out.results| && q.out.results[|p.out.results|].status != Deferred
  {
    hide ApplyOne, EffectiveClock, Orphan, WireOk;
    if ApplyOne(x, p.store, ch.table.value, ch, d).Done? { NotDeferred(w, x, p.store, ch, d); }
  }

  lemma ListedHas(q: Queue, limit: nat, e: nat)
    requires e in SortedPrefix(LiveSeqs(q, Pull), limit)
    ensures q[QueueKey(Pull, e)] in ListRetries(q, Pull, limit)
  {
    hide SortedPrefix;
    var seqs := SortedPrefix(LiveSeqs(q, Pull), limit);
    var i :| 0 <= i < |seqs| && seqs[i] == e;
    assert ListRetries(q, Pull, limit)[i] == q[QueueKey(Pull, e)];
  }

  lemma BasedHas(rs: map<Key, RowState>, changes: seq<Change>, f: Change)
    requires f in changes
    ensures WithBase(rs, f) in WithBases(rs, changes)
  {
    var i :| 0 <= i < |changes| && changes[i] == f;
    assert WithBases(rs, changes)[i] == WithBase(rs, f);
  }

  lemma OrderedHas(changes: seq<Change>, ch: Change) returns (j: nat)
    requires ch in changes && forall c | c in changes :: c.table.Some?
    ensures j < |Ordered(changes)| && Ordered(changes)[j] == ch
  {
    GroupsPartition(changes);
    NothingUnlisted(changes);
    hide Having, Ordered;
    assert [] + Ordered(changes) == Ordered(changes);
    assert ch in multiset(changes);
    assert ch in Ordered(changes);
    j :| 0 <= j < |Ordered(changes)| && Ordered(changes)[j] == ch;
  }

  /** In a pulled batch, a change whose parent is there already gets a result other than deferred. */
  lemma PullNotDeferred(w: World, c: Client, changes: seq<Change>, draws: nat -> Draw, ch: Change)
    requires DistinctSeqs(changes) && SeqsNameChanges(changes)
    requires forall other | other in changes :: other.table.Some? && other.seqNo.Some?
    requires ch in changes && WireOk(w, ch) && Orphan(c.store.rows, ch).None?
    ensures var q := PullBatch(w, c, changes, draws);
            q.Running? && StatusFor(q.out.results, ch).Some? && StatusFor(q.out.results, ch) != Some(Deferred)
  {
    hide Fold, Having, Ordered, FoldResults, DistinctSeqs, SeqsNameChanges, WireOk, Orphan;
    OrderedIsDistinct(changes);
    NothingUnlisted(changes);
    var work := Ordered(changes);
    var start := Running(c.store, map[], EMPTY_OUTCOME);
    var j := OrderedHas(changes, ch);
    FoldHasResults(ClientSession(w), start, work, draws);
    NotDeferredAt(w, ClientSession(w), start, work, draws, j);
    var q := PullBatch(w, c, changes, draws);
    assert q == Fold(ClientSession(w), None, start, work, draws);
    FoldShape(start, q, work);
    ResultIsOwn(start, q, work, j);
  }

  lemma ResultIsOwn(p: Progress, q: Progress, work: seq<Change>, j: nat)
    requires FoldResults(p, q, work) && p.out.results == [] && DistinctSeqs(work) && j < |work|
    ensures ResultFor(q.out.results, work[j].seqNo) == Some(q.out.results[j])
  {
    forall i | j <= i < |work| ensures q.out.results[i].seqNo == work[i].seqNo {
      assert q.out.results[|p.out.results| + i].seqNo == work[i].seqNo;
    }
    LastResult(q.out.results, j);
  }

  lemma RetryOfReadyFalls(w: World, s: Sys, h: Hist, e: nat, limit: nat, draws: nat -> Draw)
    requires Inv(w, s, h) && Enabled(w, s, RetryPulls(limit, draws))
    requires e in SortedPrefix(LiveSeqs(s.client.queue, Pull), limit)
    requires var ch := s.client.queue[QueueKey(Pull, e)];
             ch.seqNo == Some(e) && WireOk(w, ch) && Orphan(s.client.store.rows, ch).None?
    ensures Falls(s, Exec(w, s, RetryPulls(limit, draws)))
  {
    var c := s.client;
    var f := c.queue[QueueKey(Pull, e)];
    var listed := ListRetries(c.queue, Pull, limit);
    var changes, ch := WithBases(c.rowState, listed), WithBase(c.rowState, f);
    ListedHas(c.queue, limit, e);
    BasedHas(c.rowState, listed, f);
    assert ch.seqNo == Some(e) && WireOk(w, ch) && Orphan(c.store.rows, ch).None?;
    hide Inv, PullBatch, WithBases, ListRetries, AllFromFeed, SameItem, SeqsNameChanges, DistinctSeqs, InboxOk,
      StatusFor, Enabled, WithBase, Orphan, WireOk, NoRise, Falls, FeedOk, LiveSeqs;
    InboxAndFeed(w, s, h);
    RetryChangesOk(w, c, limit, h.feed);
    RetryIsDistinct(w, s, h, limit);
    AddressedRetries(w, changes, h.feed);
    PullNotDeferred(w, c, changes, draws, ch);
    RetryEffect(w, s, h, limit, draws);
    RetryFalls(w, s, h, limit, draws);
    hide Exec;
    assert QueueKey(Pull, e) !in Exec(w, s, RetryPulls(limit, draws)).client.queue;
    NotLive(Exec(w, s, RetryPulls(limit, draws)).client.queue, e);
  }

  lemma NotLive(q: Queue, e: nat)
    requires QueueKey(Pull, e) !in q
    ensures e !in LiveSeqs(q, Pull)
  {
  }

  // ------------------------------------------------------------------
  // Driving the system to rest
  // ------------------------------------------------------------------

  lemma Extend(w: World, acts: seq<Action>, a: Action)
    requires IsRun(w, acts) && Enabled(w, SysAfter(w, acts), a)
    ensures IsRun(w, acts + [a])
    ensures SysAfter(w, acts + [a]) == Exec(w, SysAfter(w, acts), a)
    ensures HistAfter(w, acts + [a]) == Record(w, SysAfter(w, acts), HistAfter(w, acts), a)
  {
    hide Exec, Record, Enabled;
    var more := acts + [a];
    assert more[..|acts|] == acts;
    forall i | 0 <= i < |more| ensures Enabled(w, After(w, more[..i]).0, more[i]) {
      if i < |acts| { assert more[..i] == acts[..i]; }
    }
  }

  /** Nothing is unscanned, unread or waiting. */
  ghost predicate Idle(s: Sys) {
    && s.client.pushed == |s.client.store.log| && s.client.pulled == |s.server.store.log|
    && LiveSeqs(s.client.queue, Push) == {} && LiveSeqs(s.client.queue, Pull) == {}
  }

  ghost predicate AllProtocol(acts: seq<Action>) {
    forall a | a in acts :: IsProtocol(a)
  }

  /** Each delivery among the steps is of a change that the endpoint lets through in the state it meets. */
  ghost predicate LetThrough(w: World, acts: seq<Action>, more: seq<Action>) {
    forall i | 0 <= i < |more| && more[i].Deliver? ::
      !Forbids(Some(w.account), SysAfter(w, acts + more[..i]).server.store.rows, more[i].message.change)
  }

  lemma LetThroughTrans(w: World, acts: seq<Action>, first: seq<Action>, rest: seq<Action>)
    requires LetThrough(w, acts, first) && LetThrough(w, acts + first, rest)
    ensures LetThrough(w, acts, first + rest)
  {
    hide SysAfter, Forbids;
    var more := first + rest;
    forall i | 0 <= i < |more| && more[i].Deliver?
      ensures !Forbids(Some(w.account), SysAfter(w, acts + more[..i]).server.store.rows, more[i].message.change)
    {
      if i < |first| {
        assert more[..i] == first[..i];
      } else {
        assert acts + more[..i] == acts + first + rest[..i - |first|];
      }
    }
  }

  /** One round of work: these protocol steps can be taken, lower the measure, and pass the endpoint. */
  ghost predicate Advance(w: World, acts: seq<Action>, more: seq<Action>) {
    && IsRun(w, acts + more) && AllProtocol(more) && LetThrough(w, acts, more)
    && Falls(SysAfter(w, acts), SysAfter(w, acts + more))
  }

  lemma AdvanceBy1(w: World, acts: seq<Action>, a: Action)
    requires IsRun(w, acts) && Enabled(w, SysAfter(w, acts), a) && IsProtocol(a) && !a.Deliver?
    requires Falls(SysAfter(w, acts), Exec(w, SysAfter(w, acts), a))
    ensures Advance(w, acts, [a])
  {
    hide IsRun, Enabled, Exec, SysAfter, Falls;
    Extend(w, acts, a);
  }

  lemma AdvanceBy2(w: World, acts: seq<Action>, a: Action, b: Action)
    requires IsRun(w, acts) && Enabled(w, SysAfter(w, acts), a) && IsProtocol(a) && IsProtocol(b)
    requires !a.Deliver? && !b.Deliver?
    requires Enabled(w, Exec(w, SysAfter(w, acts), a), b)
    requires Falls(SysAfter(w, acts), Exec(w, Exec(w, SysAfter(w, acts), a), b))
    ensures Advance(w, acts, [a, b])
  {
    hide IsRun, Enabled, Exec, SysAfter, HistAfter, Falls;
    Extend(w, acts, a);
    Extend(w, acts + [a], b);
    assert acts + [a] + [b] == acts + [a, b];
  }

  lemma AdvanceBy3(w: World, acts: seq<Action>, a: Action, b: Action, c: Action)
    requires IsRun(w, acts) && Enabled(w, SysAfter(w, acts), a) && IsProtocol(a) && IsProtocol(b) && IsProtocol(c)
    requires Enabled(w, Exec(w, SysAfter(w, acts), a), b)
    requires Enabled(w, Exec(w, Exec(w, SysAfter(w, acts), a), b), c)
    requires !a.Deliver? && b.Deliver? && !c.Deliver?
    requires !Forbids(Some(w.account), Exec(w, SysAfter(w, acts), a).server.store.rows, b.message.change)
    requires Falls(SysAfter(w, acts), Exec(w, Exec(w, Exec(w, SysAfter(w, acts), a), b), c))
    ensures Advance(w, acts, [a, b, c])
  {
    hide IsRun, Enabled, Exec, SysAfter, HistAfter, Falls;
    Extend(w, acts, a);
    Extend(w, acts + [a], b);
    Extend(w, acts + [a] + [b], c);
    assert acts + [a] + [b] + [c] == acts + [a, b, c];
    assert [a, b, c][..1] == [a];
  }

  lemma ReadAndApplyFalls(w: World, s: Sys, h: Hist, draws: nat -> Draw)
    requires ProgInv(w, s, h) && s.client.pulled < |s.server.store.log| && forall i :: draws(i).id != ""
    ensures var a := Exec(w, s, ReadPage(1));
            && Enabled(w, s, ReadPage(1)) && Enabled(w, a, ApplyPage(draws))
            && Falls(s, Exec(w, a, ApplyPage(draws)))
  {
    hide Inv, ProgInv, ReadWindow, NoRise, Falls;
    InvOfProg(w, s, h);
    var a, ha := Exec(w, s, ReadPage(1)), Record(w, s, h, ReadPage(1));
    StepNeverRises(w, s, h, ReadPage(1));
    ActionKeepsProg(w, s, h, ReadPage(1));
    InvOfProg(w, a, ha);
    assert a.page.Some? && a.client == s.client && a.page.value.next == s.client.pulled + 1;
    PageFalls(w, a, ha, draws);
    NoRiseTrans(s, a, Exec(w, a, ApplyPage(draws)));
  }

  /** A live payload whose parent is on the server passes the endpoint. */
  lemma ReadyIsLetThrough(w: World, s: Sys, h: Hist, e: nat)
    requires ProgInv(w, s, h) && e in LiveSeqs(s.client.queue, Push) && e in h.snap
    requires TakesNow(s.server.store.rows, h.snap[e])
    ensures !Forbids(Some(w.account), s.server.store.rows, h.snap[e])
  {
    hide NodeOk, WireOk, TakesNow, Forbids, LiveSeqs, NamesParent, HasParent, Books, ReceiptsDelivered, Covered,
      SnapsBound, FeedsBound, LogStored;
    LivePushIsSnap(w, s, h, e);
    PayloadNamesParent(w, s.client.store.rows, h.snap[e]);
    OrphanPushIsForbidden(w, s.server.store.rows, h.snap[e]);
  }

  lemma AdvanceByExchange(w: World, acts: seq<Action>, e: nat, d: Draw) returns (more: seq<Action>)
    requires IsRun(w, acts) && ProgInv(w, SysAfter(w, acts), HistAfter(w, acts)) && d.id != ""
    requires Ready(SysAfter(w, acts).client.queue, Push, e, SysAfter(w, acts).server.store.rows)
    ensures Advance(w, acts, more)
  {
    hide IsRun, SysAfter, HistAfter, ProgInv, Inv, Falls, Advance, LiveSeqs, RowOk, Orphan, Exec, Enabled, Forbids;
    var s, h := SysAfter(w, acts), HistAfter(w, acts);
    InvOfProg(w, s, h);
    LivePushIsSnap(w, s, h, e);
    ReadyIsLetThrough(w, s, h, e);
    var m, reply := ExchangeFalls(w, s, h, e, "epoch", d);
    more := [Send(e, "epoch"), Deliver(m, d), Answer(reply)];
    AdvanceBy3(w, acts, Send(e, "epoch"), Deliver(m, d), Answer(reply));
  }

  lemma AdvanceByRetry(w: World, acts: seq<Action>, e: nat, draws: nat -> Draw) returns (more: seq<Action>)
    requires IsRun(w, acts) && ProgInv(w, SysAfter(w, acts), HistAfter(w, acts)) && forall i :: draws(i).id != ""
    requires Ready(SysAfter(w, acts).client.queue, Pull, e, SysAfter(w, acts).client.store.rows)
    ensures Advance(w, acts, more)
  {
    hide IsRun, SysAfter, HistAfter, ProgInv, Inv, Falls, Advance, RowOk, Orphan, Exec, SortedPrefix;
    var s, h := SysAfter(w, acts), HistAfter(w, acts);
    InvOfProg(w, s, h);
    LivePullIsFed(w, s, h, e);
    var limit := |LiveSeqs(s.client.queue, Pull)|;
    SortedPrefixIsWhole(LiveSeqs(s.client.queue, Pull), limit);
    more := [RetryPulls(limit, draws)];
    RetryOfReadyFalls(w, s, h, e, limit, draws);
    AdvanceBy1(w, acts, RetryPulls(limit, draws));
  }

  /** Unless the system rests, a few answered steps lower the measure. */
  lemma SomethingFalls(w: World, acts: seq<Action>, draws: nat -> Draw) returns (more: seq<Action>)
    requires IsRun(w, acts) && !Resting(SysAfter(w, acts)) && forall i :: draws(i).id != ""
    ensures Advance(w, acts, more)
  {
    hide IsRun, After, Inv, Falls, Advance, LiveSeqs, ProgInv, Exec, TakesNow, Ready, Resting;
    RunKeepsProg(w, acts);
    var s, h := SysAfter(w, acts), HistAfter(w, acts);
    InvOfProg(w, s, h);
    PullSeqsRead(w, s, h);
    if s.client.pushed < |s.client.store.log| {
      CollectFalls(w, s, h, 1);
      more := [Collect(1)];
      assert Exec(w, s, Collect(1)) == ExecCollect(s, 1) by { CollectIsExec(w, s); }
      AdvanceBy1(w, acts, Collect(1));
    } else if s.client.pulled < |s.server.store.log| {
      ReadAndApplyFalls(w, s, h, draws);
      more := [ReadPage(1), ApplyPage(draws)];
      AdvanceBy2(w, acts, ReadPage(1), ApplyPage(draws));
    } else {
      SomeEntryIsReady(s);
      if e :| Ready(s.client.queue, Push, e, s.server.store.rows) {
        more := AdvanceByExchange(w, acts, e, draws(0));
      } else {
        var e :| Ready(s.client.queue, Pull, e, s.client.store.rows);
        more := AdvanceByRetry(w, acts, e, draws);
      }
    }
  }

  lemma SomeEntryIsReady(s: Sys)
    requires !Resting(s) && s.client.pushed == |s.client.store.log| && s.client.pulled == |s.server.store.log|
    ensures (exists e :: Ready(s.client.queue, Push, e, s.server.store.rows))
            || exists e :: Ready(s.client.queue, Pull, e, s.client.store.rows)
  {
    hide TakesNow;
    var q := s.client.queue;
    assert forall n, direction | n in LiveSeqs(q, direction) :: QueueKey(direction, n) in q;
    if n :| n in LiveSeqs(q, Push) && TakesNow(s.server.store.rows, q[QueueKey(Push, n)]) {
      assert Ready(q, Push, n, s.server.store.rows);
    } else {
      var n :| n in LiveSeqs(q, Pull) && TakesNow(s.client.store.rows, q[QueueKey(Pull, n)]);
      assert Ready(q, Pull, n, s.client.store.rows);
    }
  }

  lemma CollectIsExec(w: World, s: Sys)
    ensures Exec(w, s, Collect(1)) == ExecCollect(s, 1)
  {
  }

  lemma IdleIsQuiescent(s: Sys)
    requires Idle(s) && NoDead(s)
    ensures Quiescent(s)
  {
    var q := s.client.queue;
    forall key ensures key in q ==> key.seqNo in LiveSeqs(q, Push) || key.seqNo in LiveSeqs(q, Pull) || IsDead(key) {
    }
    assert q.Keys == {};
  }

  /** At rest, a row on which the nodes differ is blocked: it has a dead letter, or waits for a row that does,
      however far up. Where nothing is dead, nothing is queued and the nodes agree. */
  lemma RestIsBlockedOrEqual(w: World, acts: seq<Action>)
    requires IsRun(w, acts) && Resting(SysAfter(w, acts))
    ensures var s := SysAfter(w, acts);
            && (forall k | !SameAt(s.client.store.rows, s.server.store.rows, k) :: Blocked(s, k))
            && (forall key, k | key in s.client.queue && About(s.client.queue[key], k) :: Blocked(s, k))
            && (NoDead(s) ==> Quiescent(s) && s.client.store.rows == s.server.store.rows)
  {
    RunKeepsProg(w, acts);
    hide IsRun, After, ProgInv, Blocked, SameAt, About;
    var s, h := SysAfter(w, acts), HistAfter(w, acts);
    forall key, k | key in s.client.queue && About(s.client.queue[key], k) ensures Blocked(s, k) {
      QueuedIsBlocked(w, s, h, key, k);
    }
    forall k | !SameAt(s.client.store.rows, s.server.store.rows, k) ensures Blocked(s, k) {
      DifferenceIsOnItsWay(w, acts, k);
      DifferenceIsHeld(s, k);
    }
    if NoDead(s) {
      QueueIsAddressed(w, s, h);
      forall key ensures key !in s.client.queue {
        if key in s.client.queue {
          var k := KeyOf(s.client.queue[key]);
          AboutItsKey(s.client.queue[key]);
          NothingIsBlocked(s, k);
        }
      }
      assert s.client.queue == map[];
      QuiescentNodesAgree(w, acts);
    }
  }

  lemma AboutItsKey(ch: Change)
    requires ch.table.Some?
    ensures About(ch, KeyOf(ch))
  {
  }

  lemma DifferenceIsHeld(s: Sys, k: Key)
    requires Resting(s) && OnItsWay(s, k)
    ensures exists key :: key in s.client.queue && About(s.client.queue[key], k)
  {
    hide LiveSeqs, TakesNow;
    var c, srv := s.client, s.server.store;
    assert !LoggedIn(c.store.log, c.pushed, |c.store.log|, k) && !LoggedIn(srv.log, c.pulled, |srv.log|, k);
    if k in c.store.rows && HeldUp(c.queue, k, c.store.rows[k]) {
      var key :| key in c.queue && (key.direction == Push || key.direction == PushDead)
                 && Carries(c.queue[key], k, c.store.rows[k]);
      assert About(c.queue[key], k);
    } else {
      var key :| key in c.queue && (key.direction == Pull || key.direction == PullDead)
        && Carries(c.queue[key], k, srv.rows[k]);
      assert About(c.queue[key], k);
    }
  }

  lemma QueueIsAddressed(w: World, s: Sys, h: Hist)
    requires ProgInv(w, s, h) && NoDead(s)
    ensures forall key | key in s.client.queue :: s.client.queue[key].table.Some?
  {
    InvOfProg(w, s, h);
    hide ProgInv, Inv, WireOk;
    forall key | key in s.client.queue ensures s.client.queue[key].table.Some? {
      assert !IsDead(key);
      if IsPull(key) {
        assert key == QueueKey(Pull, key.seqNo) && key.seqNo in LiveSeqs(s.client.queue, Pull);
        LivePullIsFed(w, s, h, key.seqNo);
        assert WireOk(w, s.client.queue[key]);
        WireHasTable(w, s.client.queue[key]);
      } else {
        assert key == QueueKey(Push, key.seqNo) && key.seqNo in LiveSeqs(s.client.queue, Push);
        LivePushIsSnap(w, s, h, key.seqNo);
        WireHasTable(w, s.client.queue[key]);
      }
    }
  }

  lemma WireHasTable(w: World, ch: Change)
    requires WireOk(w, ch)
    ensures ch.table.Some?
  {
  }

  /** From every reachable state, whatever is still in flight and without any further edit, protocol steps that
      pass the endpoint lead to rest: the nodes agree on every row but those with a dead letter and those that wait
      for such a row, and on all of them if nothing was rejected. */
  lemma {:induction false} CanComeToRest(w: World, acts: seq<Action>, draws: nat -> Draw) returns (more: seq<Action>)
    requires IsRun(w, acts) && forall i :: draws(i).id != ""
    ensures IsRun(w, acts + more) && AllProtocol(more) && LetThrough(w, acts, more)
    ensures var t := SysAfter(w, acts + more);
            && Resting(t)
            && (forall k | !SameAt(t.client.store.rows, t.server.store.rows, k) :: Blocked(t, k))
            && (NoDead(t) ==> Quiescent(t) && t.client.store.rows == t.server.store.rows)
    decreases Weight(SysAfter(w, acts), false), Weight(SysAfter(w, acts), true)
  {
    hide IsRun, SysAfter, Weight, Resting, Blocked, SameAt, Forbids;
    var s := SysAfter(w, acts);
    if Resting(s) {
      more := [];
      assert acts + more == acts;
      RestIsBlockedOrEqual(w, acts);
    } else {
      var first := SomethingFalls(w, acts, draws);
      var rest := CanComeToRest(w, acts + first, draws);
      more := first + rest;
      assert acts + first + rest == acts + more;
      LetThroughTrans(w, acts, first, rest);
    }
  }

  lemma LastStepNoRise(w: World, acts: seq<Action>)
    requires acts != [] && IsRun(w, acts) && IsProtocol(acts[|acts| - 1])
    ensures IsRun(w, acts[..|acts| - 1])
    ensures NoRise(SysAfter(w, acts[..|acts| - 1]), SysAfter(w, acts))
  {
    hide NoRise, Exec, Record, Enabled, ProgInv;
    var n := |acts| - 1;
    PrefixIsRun(w, acts, n);
    RunKeepsProg(w, acts[..n]);
    StepNeverRises(w, After(w, acts[..n]).0, After(w, acts[..n]).1, acts[n]);
  }

  /** However the network behaves, a run without edits never raises what is pending. */
  lemma {:induction false} EditFreeRunNeverRises(w: World, acts: seq<Action>, more: seq<Action>)
    requires IsRun(w, acts + more) && AllProtocol(more)
    ensures NoRise(SysAfter(w, acts), SysAfter(w, acts + more))
  {
    hide NoRise, IsRun, SysAfter;
    if more == [] {
      assert acts + more == acts;
      SameStateNoRise(SysAfter(w, acts));
    } else {
      var n := |more| - 1;
      var all, prior := acts + more, acts + more[..n];
      assert all[..|all| - 1] == prior && all[|all| - 1] == more[n];
      LastStepNoRise(w, all);
      EditFreeRunNeverRises(w, acts, more[..n]);
      NoRiseTrans(SysAfter(w, acts), SysAfter(w, prior), SysAfter(w, all));
    }
  }

  lemma SameStateNoRise(s: Sys)
    ensures NoRise(s, s)
  {
    hide Weight;
  }
}
