/** The inductive invariant of the two-node protocol, kept by every action. */
module SyncSafety {
  import opened SyncSchema
  import opened SyncStore
  import opened SyncApply
  import opened SyncApplyProofs
  import opened SyncBatch
  import opened SyncBatchProofs
  import opened SyncEffectProofs
  import opened SyncQueue
  import opened SyncFeedProofs
  import opened SyncQueueProofs
  import opened TwoNode
  import opened SyncInvariants
  import opened SyncPullProofs

  // ------------------------------------------------------------------
  // Bookkeeping
  // ------------------------------------------------------------------

  /** Every snapshot is about a scanned log entry of its own seq. */
  ghost predicate SnapsOk(log: seq<LogEntry>, pushed: nat, snap: map<nat, Change>) {
    && pushed <= |log|
    && forall n | n in snap ::
         && 1 <= n <= pushed
         && snap[n].seqNo == Some(n) && snap[n].table.Some? && KeyOf(snap[n]) == log[n - 1].key
  }

  ghost predicate OutboxOk(q: Queue, snap: map<nat, Change>) {
    forall key | key in q && !IsPull(key) :: key.seqNo in snap && q[key] == snap[key.seqNo]
  }

  ghost predicate InboxOk(w: World, q: Queue, pulled: nat, feed: set<Change>) {
    && OneFate(q)
    && forall key | key in q && IsPull(key) ::
         key.seqNo <= pulled && q[key].seqNo == Some(key.seqNo) && InFeeds(w, Some(q[key]), feed)
  }

  ghost predicate FeedOk(log: seq<LogEntry>, feed: set<Change>) {
    forall f | f in feed ::
      && f.seqNo.Some? && 1 <= f.seqNo.value <= |log|
      && f.table.Some? && KeyOf(f) == log[f.seqNo.value - 1].key
  }

  ghost predicate PageOk(page: Option<Page>, pulled: nat, scanned: nat, feed: set<Change>) {
    && pulled <= scanned
    && (page.Some? ==>
          && pulled <= page.value.next <= scanned
          && Ascending(page.value.changes, pulled, page.value.next)
          && forall ch | ch in page.value.changes :: ch in feed)
  }

  ghost predicate FromThisClient(w: World, epoch: Option<Id>, peer: Peer) {
    epoch.Some? && peer == PeerOf(w, epoch.value)
  }

  ghost predicate SentOk(w: World, epoch: Option<Id>, sent: set<Message>, snap: map<nat, Change>) {
    forall m | m in sent ::
      && FromThisClient(w, epoch, m.from)
      && m.change.seqNo.Some? && m.change.seqNo.value in snap && m.change == snap[m.change.seqNo.value]
  }

  ghost predicate ReceiptsMatch(w: World, epoch: Option<Id>, receipts: Receipts, snap: map<nat, Change>) {
    && ReceiptsOk(receipts)
    && forall key | key in receipts ::
         FromThisClient(w, epoch, key.peer) && key.seqNo in snap && receipts[key].payload == snap[key.seqNo]
  }

  /** A terminal reply repeats what the server's receipt says. */
  ghost predicate ReplyOk(w: World, epoch: Option<Id>, receipts: Receipts, snap: map<nat, Change>, reply: Reply) {
    && reply.seqNo in snap
    && Answered(reply.answer.results) == Idents([snap[reply.seqNo]])
    && (reply.answer.results[0].status != Deferred ==>
          && epoch.Some?
          && ReceiptKey(PeerOf(w, epoch.value), reply.seqNo) in receipts
          && receipts[ReceiptKey(PeerOf(w, epoch.value), reply.seqNo)].part.results == reply.answer.results)
  }

  ghost predicate RepliesOk(
    w: World, epoch: Option<Id>, receipts: Receipts, snap: map<nat, Change>, replies: set<Reply>)
  {
    forall reply | reply in replies :: ReplyOk(w, epoch, receipts, snap, reply)
  }

  ghost predicate Has(sr: Rows, ch: Change) {
    ch.table.Some? && ch.row.Some? && KeyOf(ch) in sr && Clk(sr[KeyOf(ch)]) >= Clk(ch.row.value)
  }

  /** A receipt that is not a refusal means the server's row is at least as late as the payload. */
  ghost predicate ReceiptsDelivered(sr: Rows, receipts: Receipts) {
    forall key | key in receipts ::
      |receipts[key].part.results| == 1 && (StatusOf(receipts[key].part) != Rejected ==> Has(sr, receipts[key].payload))
  }

  ghost predicate Books(w: World, s: Sys, h: Hist) {
    && SnapsOk(s.client.store.log, s.client.pushed, h.snap)
    && OutboxOk(s.client.queue, h.snap)
    && InboxOk(w, s.client.queue, s.client.pulled, h.feed)
    && FeedOk(s.server.store.log, h.feed)
    && PageOk(s.page, s.client.pulled, |s.server.store.log|, h.feed)
    && SentOk(w, s.client.epoch, s.sent, h.snap)
    && ReceiptsMatch(w, s.client.epoch, s.server.receipts, h.snap)
    && RepliesOk(w, s.client.epoch, s.server.receipts, h.snap, s.replies)
  }

  ghost predicate Inv(w: World, s: Sys, h: Hist) {
    && Books(w, s, h)
    && NodeOk(w, s.server.store.rows)
    && ClientOk(w, s.client, s.server.store, h, s.page)
    && ReceiptsDelivered(s.server.store.rows, s.server.receipts)
  }

  lemma StartIsOk(w: World)
    ensures Inv(w, START, NO_HISTORY)
  {
  }

  // ------------------------------------------------------------------
  // Edits
  // ------------------------------------------------------------------

  lemma ServerStepKeepsCovered(w: World, s: Sys, h: Hist, now: Store, arrived: Option<Change>)
    requires Inv(w, s, h) && InSnap(arrived, h.snap) && Evolves(w, s.server.store, now, arrived, false)
    ensures NodeOk(w, now.rows) && ClientOk(w, s.client, now, h, s.page)
  {
    var c, st := s.client, s.server.store;
    hide InSnap, SnapsBound, FeedsBound, ClientCovered, ServerCovered, OutboxOk, InboxOk, SentOk, RepliesOk,
      ReceiptsMatch, FeedOk, ReceiptsDelivered, NodeOk;
    assert NodeOk(w, now.rows);
    ServerStepKeepsClocks(w, c.store.rows, st, now, arrived, h.snap, h.feed);
    ServerStepKeepsCoverage(w, c, st, now, arrived, h.snap, c.pulled, []);
    if s.page.Some? {
      ServerStepKeepsCoverage(w, c, st, now, arrived, h.snap, s.page.value.next, s.page.value.changes);
    }
  }

  /** The server's log only grows and its rows only get later. */
  lemma ServerStepKeepsBooks(
    w: World, st: Store, now: Store, arrived: Option<Change>, feed: set<Change>, receipts: Receipts,
    page: Option<Page>, pulled: nat)
    requires NodeOk(w, st.rows) && Evolves(w, st, now, arrived, false)
    requires FeedOk(st.log, feed) && ReceiptsDelivered(st.rows, receipts) && PageOk(page, pulled, |st.log|, feed)
    ensures FeedOk(now.log, feed) && ReceiptsDelivered(now.rows, receipts) && PageOk(page, pulled, |now.log|, feed)
  {
    hide Carries, LoggedIn, NodeOk;
    assert forall k | k in st.rows :: k in now.rows && Clk(now.rows[k]) >= Clk(st.rows[k]);
  }

  lemma ServerEditKeepsInv(w: World, s: Sys, h: Hist, k: Key, row: Row)
    requires Inv(w, s, h) && Enabled(w, s, ServerEdit(k, row))
    ensures Inv(w, Exec(w, s, ServerEdit(k, row)), Record(w, s, h, ServerEdit(k, row)))
  {
    var now := PutRow(s.server.store, false, k, row);
    EditEvolves(w, s.server.store, k, row);
    ServerStepKeepsCovered(w, s, h, now, None);
    ServerStepKeepsBooks(w, s.server.store, now, None, h.feed, s.server.receipts, s.page, s.client.pulled);
    var h2 := Record(w, s, h, ServerEdit(k, row));
    assert h2.snap == h.snap && h2.feed == h.feed;
    SameHistory(w, s.client, now, s.page, h, h2);
    hide Evolves, PutRow, SnapsOk, FeedOk, ClientOk, NodeOk, ReceiptsDelivered, PageOk, InboxOk, OutboxOk, SentOk,
      RepliesOk, ReceiptsMatch;
  }

  lemma SameHistory(w: World, c: Client, srv: Store, page: Option<Page>, h: Hist, h2: Hist)
    requires h2.snap == h.snap && h2.feed == h.feed
    ensures ClientOk(w, c, srv, h2, page) == ClientOk(w, c, srv, h, page)
  {
  }

  lemma ClientEditKeepsInv(w: World, s: Sys, h: Hist, k: Key, row: Row)
    requires Inv(w, s, h) && Enabled(w, s, ClientEdit(k, row))
    ensures Inv(w, Exec(w, s, ClientEdit(k, row)), Record(w, s, h, ClientEdit(k, row)))
  {
    var now := PutRow(s.client.store, false, k, row);
    EditEvolves(w, s.client.store, k, row);
    ClientStepKeepsOk(w, s.client, now, s.server.store, h, s.page, None);
    assert s.client.store.log <= now.log;
    hide Evolves, FeedOk, ClientOk, NodeOk, ReceiptsDelivered, PageOk, InboxOk, OutboxOk, SentOk, RepliesOk,
      ReceiptsMatch, PutRow;
  }

  // ------------------------------------------------------------------
  // Messages
  // ------------------------------------------------------------------

  /** What was sent, receipted and answered under an epoch still is once an epoch is fixed. */
  lemma EpochMayBeChosen(
    w: World, was: Option<Id>, now: Option<Id>, sent: set<Message>, receipts: Receipts, snap: map<nat, Change>,
    replies: set<Reply>)
    requires was.Some? ==> now == was
    requires SentOk(w, was, sent, snap) && ReceiptsMatch(w, was, receipts, snap)
    requires RepliesOk(w, was, receipts, snap, replies)
    ensures SentOk(w, now, sent, snap) && ReceiptsMatch(w, now, receipts, snap)
    ensures RepliesOk(w, now, receipts, snap, replies)
  {
    hide ReceiptsOk;
    if was.None? {
      forall reply | reply in replies ensures ReplyOk(w, now, receipts, snap, reply) {
        assert ReplyOk(w, was, receipts, snap, reply);
      }
    }
  }

  lemma SendsSnap(
    w: World, epoch: Id, log: seq<LogEntry>, pushed: nat, q: Queue, n: nat, sent: set<Message>, snap: map<nat, Change>)
    requires SnapsOk(log, pushed, snap) && OutboxOk(q, snap) && QueueKey(Push, n) in q
    requires SentOk(w, Some(epoch), sent, snap)
    ensures SentOk(w, Some(epoch), sent + {Message(PeerOf(w, epoch), q[QueueKey(Push, n)])}, snap)
  {
  }

  lemma SendKeepsInv(w: World, s: Sys, h: Hist, n: nat, newEpoch: Id)
    requires Inv(w, s, h)
    ensures Inv(w, Exec(w, s, Send(n, newEpoch)), Record(w, s, h, Send(n, newEpoch)))
  {
    hide FeedOk, NodeOk, ReceiptsDelivered, PageOk, InboxOk, Covered, SnapsBound, FeedsBound, SnapsOk, OutboxOk, SentOk,
      ReceiptsMatch, RepliesOk;
    if QueueKey(Push, n) in s.client.queue {
      var t := Exec(w, s, Send(n, newEpoch));
      EpochMayBeChosen(w, s.client.epoch, t.client.epoch, s.sent, s.server.receipts, h.snap, s.replies);
      SendsSnap(w, t.client.epoch.value, s.client.store.log, s.client.pushed, s.client.queue, n, s.sent, h.snap);
      OnlyEpoch(w, s.client, t.client, s.server.store, h, s.page);
    }
  }

  lemma OnlyEpoch(w: World, c: Client, d: Client, srv: Store, h: Hist, page: Option<Page>)
    requires d == c.(epoch := d.epoch)
    ensures ClientOk(w, d, srv, h, page) == ClientOk(w, c, srv, h, page)
  {
    hide NodeOk, SnapsBound, FeedsBound, ServerCovered;
  }

  lemma CrashKeepsInv(w: World, s: Sys, h: Hist)
    requires Inv(w, s, h)
    ensures Inv(w, Exec(w, s, Crash), Record(w, s, h, Crash))
  {
    hide FeedOk, NodeOk, ReceiptsDelivered, InboxOk, SnapsOk, SnapsBound, FeedsBound, ServerCovered, ClientCovered;
  }

  // ------------------------------------------------------------------
  // Delivery
  // ------------------------------------------------------------------

  lemma OrderedOne(ch: Change)
    requires ch.table.Some?
    ensures Ordered([ch]) == [ch]
  {
    hide Having;
    HavingOne(ch);
    match ch.table.value {
      case Projects =>
      case Memos =>
      case MemoVersions =>
      case ProjectMembers =>
    }
  }

  lemma NoUnlisted(ch: Change)
    requires ch.table.Some?
    ensures RefuseAll(Having([ch], None)) == EMPTY_OUTCOME
  {
    hide Having;
    HavingOne(ch);
  }

  lemma FoldNone(x: Session, peer: Option<Peer>, p: Progress, draw: nat -> Draw)
    ensures Fold(x, peer, p, [], draw) == p
  {
    hide StepRow;
  }

  lemma FoldOne(x: Session, peer: Option<Peer>, p: Progress, ch: Change, draw: nat -> Draw)
    requires ch.table.Some? && p.Running?
    ensures Fold(x, peer, p, [ch], draw) == StepRow(x, peer, p, ch.table.value, ch, draw(0))
  {
    hide StepRow;
    FoldNone(x, peer, p, draw);
    assert [ch][..0] == [];
  }

  lemma SingleBatch(x: Session, peer: Option<Peer>, st: Store, receipts: Receipts, ch: Change, draw: nat -> Draw)
    requires ch.table.Some?
    ensures ApplyBatch(x, peer, st, receipts, [ch], draw)
         == StepRow(x, peer, Running(st, receipts, EMPTY_OUTCOME), ch.table.value, ch, draw(0))
  {
    hide StepRow, Having, Fold, Ordered, RefuseAll;
    OrderedOne(ch);
    NoUnlisted(ch);
    FoldOne(x, peer, Running(st, receipts, EMPTY_OUTCOME), ch, draw);
  }

  lemma EmptyMerge(part: Outcome)
    ensures Merge(EMPTY_OUTCOME, part) == part
  {
  }

  /** What applying a delivered change comes to, by its status. */
  lemma AppliedIsHad(w: World, st: Store, ch: Change, d: Draw)
    requires NodeOk(w, st.rows) && WireOk(w, ch) && d.id != ""
    requires ApplyOne(ServerSession(w), st, ch.table.value, ch, d).Done?
    ensures var a := ApplyOne(ServerSession(w), st, ch.table.value, ch, d);
            && Evolves(w, st, a.store, Some(ch), false)
            && (a.out.status == Deferred || a.out.status == Rejected ==> a.store == st)
            && (a.out.status == Applied || a.out.status == Skipped ==> Has(a.store.rows, ch))
  {
    var x, t := ServerSession(w), ch.table.value;
    ApplyEvolves(w, x, st, ch, d);
    ApplyReplaces(w, x, st, ch, d);
    ApplyTouchesTwoRows(x, st, t, ch, d);
    hide ApplyOne, Evolves, NodeOk, RowOk;
  }

  lemma DeliverFresh(w: World, st: Store, receipts: Receipts, peer: Peer, ch: Change, d: Draw)
    requires NodeOk(w, st.rows) && WireOk(w, ch) && d.id != "" && ReceiptKey(peer, ch.seqNo.value) !in receipts
    ensures var q := StepRow(ServerSession(w), Some(peer), Running(st, receipts, EMPTY_OUTCOME), ch.table.value, ch, d);
            && q.Running? && q.out.results != []
            && Evolves(w, st, q.store, Some(ch), false)
            && (if q.out.results[0].status == Deferred then q.store == st && q.receipts == receipts
                else q.receipts == receipts[ReceiptKey(peer, ch.seqNo.value) := Receipt(ch, q.out)]
                     && (q.out.results[0].status == Rejected ==> q.store == st)
                     && (q.out.results[0].status != Rejected ==> Has(q.store.rows, ch)))
  {
    hide ApplyOne, Evolves, EffectiveClock, Merge, NodeOk, RowOk, Has;
    var x, t := ServerSession(w), ch.table.value;
    NoChange(w, st, Some(ch));
    var a := ApplyOne(x, st, t, ch, d);
    if a.Done? {
      AppliedIsHad(w, st, ch, d);
      EmptyMerge(PartOf(t, ch, a.out, a.store.rows));
    } else {
      EmptyMerge(RefusedPart(Some(t), ch, SqlError));
    }
  }

  /** One delivered message: what the server's rows, receipts and answer become. */
  lemma DeliverOne(w: World, st: Store, receipts: Receipts, peer: Peer, ch: Change, d: Draw)
    requires NodeOk(w, st.rows) && WireOk(w, ch) && d.id != "" && ReceiptsOk(receipts)
    ensures var q := StepRow(ServerSession(w), Some(peer), Running(st, receipts, EMPTY_OUTCOME), ch.table.value, ch, d);
            var key := ReceiptKey(peer, ch.seqNo.value);
            q.Running? ==>
              && Evolves(w, st, q.store, Some(ch), false)
              && Answered(q.out.results) == Idents([ch]) && ReceiptsOk(q.receipts)
              && (key in receipts ==> q.store == st && q.receipts == receipts && receipts[key].payload == ch
                                      && q.out == receipts[key].part)
              && (key !in receipts ==>
                    if q.out.results[0].status == Deferred then q.store == st && q.receipts == receipts
                    else q.receipts == receipts[key := Receipt(ch, q.out)]
                         && (q.out.results[0].status == Rejected ==> q.store == st)
                         && (q.out.results[0].status != Rejected ==> Has(q.store.rows, ch)))
  {
    var start := Running(st, receipts, EMPTY_OUTCOME);
    StepAccounts(ServerSession(w), Some(peer), start, ch.table.value, ch, d);
    var key := ReceiptKey(peer, ch.seqNo.value);
    NoChange(w, st, Some(ch));
    hide Evolves, ReceiptsOk, EffectiveClock, Merge, NodeOk, RowOk, Balanced, Has;
    if key in receipts {
      EmptyMerge(receipts[key].part);
      hide ApplyOne;
    } else {
      DeliverFresh(w, st, receipts, peer, ch, d);
      hide StepRow;
    }
  }

  lemma NoChange(w: World, st: Store, arrived: Option<Change>)
    requires NodeOk(w, st.rows)
    ensures Evolves(w, st, st, arrived, false)
  {
  }

  /** A sent message carries a whole payload, the one its seq was queued with. */
  lemma SentIsWhole(w: World, s: Sys, h: Hist, m: Message)
    requires Inv(w, s, h) && m in s.sent
    ensures WireOk(w, m.change) && NodeOk(w, s.server.store.rows) && ReceiptsOk(s.server.receipts)
    ensures m.change.seqNo.Some? && m.change.table.Some? && m.change.row.Some?
    ensures m.change.seqNo.value in h.snap && m.change == h.snap[m.change.seqNo.value]
  {
    hide NodeOk, ReceiptsOk, ReceiptsDelivered, Covered, RepliesOk, InboxOk, OutboxOk, FeedOk, PageOk, SnapBound,
      FeedsBound, RowOk, LogStored;
    assert m.change == h.snap[m.change.seqNo.value];
  }

  /** A delivery is one row under its savepoint. */
  lemma DeliverIsStep(w: World, s: Sys, m: Message, d: Draw)
    requires m.change.seqNo.Some? && m.change.table.Some?
    ensures var start := Running(s.server.store, s.server.receipts, EMPTY_OUTCOME);
            var q := StepRow(ServerSession(w), Some(m.from), start, m.change.table.value, m.change, d);
            ExecDeliver(w, s, m, d)
            == if q.Aborted? then s
               else s.(server := Server(q.store, q.receipts),
                       replies := s.replies + {Reply(m.change.seqNo.value, q.out)})
  {
    hide StepRow, ApplyBatch;
    SingleBatch(ServerSession(w), Some(m.from), s.server.store, s.server.receipts, m.change, i => d);
  }

  /** What the delivered row leaves of the invariant's parts. */
  lemma DeliveredParts(w: World, s: Sys, h: Hist, m: Message, d: Draw)
    requires Inv(w, s, h) && m in s.sent && m.change.seqNo.Some? && m.change.table.Some? && d.id != ""
    ensures var start := Running(s.server.store, s.server.receipts, EMPTY_OUTCOME);
            var q := StepRow(ServerSession(w), Some(m.from), start, m.change.table.value, m.change, d);
            q.Running? ==>
              && NodeOk(w, q.store.rows) && ClientOk(w, s.client, q.store, h, s.page)
              && FeedOk(q.store.log, h.feed) && PageOk(s.page, s.client.pulled, |q.store.log|, h.feed)
              && ReceiptsMatch(w, s.client.epoch, q.receipts, h.snap)
              && RepliesOk(w, s.client.epoch, q.receipts, h.snap, s.replies + {Reply(m.change.seqNo.value, q.out)})
              && ReceiptsDelivered(q.store.rows, q.receipts)
  {
    hide StepRow, Evolves, SnapsOk, FeedOk, ClientOk, NodeOk, ReceiptsDelivered, PageOk, InboxOk, OutboxOk, SentOk,
      RepliesOk, ReceiptsMatch, WireOk, Has, Answered, Idents, ReceiptsOk;
    SentIsWhole(w, s, h, m);
    DeliverOne(w, s.server.store, s.server.receipts, m.from, m.change, d);
    var start := Running(s.server.store, s.server.receipts, EMPTY_OUTCOME);
    var q := StepRow(ServerSession(w), Some(m.from), start, m.change.table.value, m.change, d);
    if q.Running? {
      ServerStepKeepsCovered(w, s, h, q.store, Some(m.change));
      ServerStepKeepsBooks(
        w, s.server.store, q.store, Some(m.change), h.feed, s.server.receipts, s.page, s.client.pulled);
      DeliveryKeepsReceipts(w, s, h, m, q);
    }
  }

  lemma DeliverKeepsInv(w: World, s: Sys, h: Hist, m: Message, d: Draw)
    requires Inv(w, s, h) && Enabled(w, s, Deliver(m, d))
    ensures Inv(w, Exec(w, s, Deliver(m, d)), Record(w, s, h, Deliver(m, d)))
  {
    hide StepRow, ExecDeliver, SnapsOk, FeedOk, ClientOk, NodeOk, ReceiptsDelivered, PageOk, InboxOk, OutboxOk, SentOk,
      RepliesOk, ReceiptsMatch, AuthorAfter, WireOk, ReceiptsOk;
    SentIsWhole(w, s, h, m);
    DeliverIsStep(w, s, m, d);
    DeliveredParts(w, s, h, m, d);
    SameHistory(w, s.client, Exec(w, s, Deliver(m, d)).server.store, s.page, h, Record(w, s, h, Deliver(m, d)));
  }

  lemma DeliveryKeepsReceipts(w: World, s: Sys, h: Hist, m: Message, q: Progress)
    requires Inv(w, s, h) && m in s.sent && q.Running? && m.change.seqNo.Some? && m.change.table.Some?
    requires ReceiptsDelivered(q.store.rows, s.server.receipts)
    requires Answered(q.out.results) == Idents([m.change]) && ReceiptsOk(q.receipts)
    requires var key := ReceiptKey(m.from, m.change.seqNo.value);
             if key in s.server.receipts then q.receipts == s.server.receipts && q.out == s.server.receipts[key].part
             else if q.out.results[0].status == Deferred then q.receipts == s.server.receipts
             else q.receipts == s.server.receipts[key := Receipt(m.change, q.out)]
                  && (q.out.results[0].status != Rejected ==> Has(q.store.rows, m.change))
    ensures ReceiptsMatch(w, s.client.epoch, q.receipts, h.snap)
    ensures RepliesOk(w, s.client.epoch, q.receipts, h.snap, s.replies + {Reply(m.change.seqNo.value, q.out)})
    ensures ReceiptsDelivered(q.store.rows, q.receipts)
  {
    hide ReceiptsOk, FeedOk, NodeOk, PageOk, InboxOk, OutboxOk, SnapsOk, ClientOk, Has;
    var key := ReceiptKey(m.from, m.change.seqNo.value);
    assert |Answered(q.out.results)| == 1;
    forall reply | reply in s.replies ensures ReplyOk(w, s.client.epoch, q.receipts, h.snap, reply) {
      assert ReplyOk(w, s.client.epoch, s.server.receipts, h.snap, reply);
    }
  }

  // ------------------------------------------------------------------
  // Answers
  // ------------------------------------------------------------------

  /** The outbox entry under `n` is kept, buried under its own seq, or dropped. */
  ghost predicate OutboxMove(q: Queue, r: Queue, n: nat, dropped: bool) {
    var live, dead := QueueKey(Push, n), QueueKey(PushDead, n);
    || r == q
    || (dropped && r == q - {live})
    || (live in q && r == (q - {live})[dead := q[live]])
  }

  ghost predicate IsFinal(answer: Outcome) {
    answer.results != [] && (answer.results[0].status == Applied || answer.results[0].status == Skipped)
  }

  lemma AnswerMovesOneEntry(c: Client, n: nat, answer: Outcome)
    ensures var d := SettlePushed(c, n, answer);
            && d.store.rows == c.store.rows && d.store.log == c.store.log
            && d.pushed == c.pushed && d.pulled == c.pulled && d.epoch == c.epoch
            && OutboxMove(c.queue, d.queue, n, IsFinal(answer))
  {
    hide Remember;
  }

  lemma OutboxMoveKeepsQueues(
    w: World, q: Queue, r: Queue, n: nat, dropped: bool, snap: map<nat, Change>, pulled: nat, feed: set<Change>)
    requires OutboxMove(q, r, n, dropped) && OutboxOk(q, snap) && InboxOk(w, q, pulled, feed)
    ensures OutboxOk(r, snap) && InboxOk(w, r, pulled, feed)
    ensures forall k, row | HeldDown(q, k, row) :: HeldDown(r, k, row)
    ensures forall k, row | HeldUp(q, k, row) && !(dropped && n in snap && Carries(snap[n], k, row)) ::
              HeldUp(r, k, row)
  {
    hide InFeeds, Carries;
    forall key | key in q && IsPull(key)
      ensures key in r && r[key] == q[key]
    {
    }
    forall k, row | HeldDown(q, k, row)
      ensures HeldDown(r, k, row)
    {
      var key :| key in q && IsPull(key) && Carries(q[key], k, row);
      assert r[key] == q[key];
    }
    forall k, row | HeldUp(q, k, row) && !(dropped && n in snap && Carries(snap[n], k, row)) ensures HeldUp(r, k, row) {
      var key :| key in q && !IsPull(key) && Carries(q[key], k, row);
      if key == QueueKey(Push, n) {
        assert key in r || r[QueueKey(PushDead, n)] == q[key];
      } else {
        assert key in r;
      }
    }
  }

  /** A final answer to seq n means the server has the payload of n. */
  lemma FinalMeansDelivered(w: World, s: Sys, h: Hist, reply: Reply)
    requires RepliesOk(w, s.client.epoch, s.server.receipts, h.snap, s.replies)
    requires ReceiptsMatch(w, s.client.epoch, s.server.receipts, h.snap)
    requires ReceiptsDelivered(s.server.store.rows, s.server.receipts)
    requires reply in s.replies && IsFinal(reply.answer)
    ensures reply.seqNo in h.snap && Has(s.server.store.rows, h.snap[reply.seqNo])
  {
    hide ReceiptsOk, Has;
    assert ReplyOk(w, s.client.epoch, s.server.receipts, h.snap, reply);
  }

  lemma AnswerKeepsCovered(w: World, s: Sys, h: Hist, reply: Reply)
    requires Inv(w, s, h) && reply in s.replies
    ensures ClientOk(w, SettlePushed(s.client, reply.seqNo, reply.answer), s.server.store, h, s.page)
  {
    var c, n := s.client, reply.seqNo;
    var d := SettlePushed(c, n, reply.answer);
    AnswerMovesOneEntry(c, n, reply.answer);
    OutboxMoveKeepsQueues(w, c.queue, d.queue, n, IsFinal(reply.answer), h.snap, c.pulled, h.feed);
    if IsFinal(reply.answer) { FinalMeansDelivered(w, s, h, reply); }
    hide SettlePushed, OutboxMove, IsFinal, Books, SnapsBound, FeedsBound, NodeOk, HeldUp, HeldDown, LoggedIn, Delivers,
      ReceiptsDelivered;
  }

  lemma AnswerKeepsInv(w: World, s: Sys, h: Hist, reply: Reply)
    requires Inv(w, s, h) && reply in s.replies
    ensures Inv(w, Exec(w, s, Answer(reply)), Record(w, s, h, Answer(reply)))
  {
    hide SettlePushed, SnapsOk, FeedOk, ClientOk, NodeOk, ReceiptsDelivered, PageOk, InboxOk, OutboxOk, SentOk,
      RepliesOk, ReceiptsMatch, IsFinal, OutboxMove, HeldDown, HeldUp;
    var d := SettlePushed(s.client, reply.seqNo, reply.answer);
    AnswerMovesOneEntry(s.client, reply.seqNo, reply.answer);
    AnswerKeepsCovered(w, s, h, reply);
    OutboxMoveKeepsQueues(w, s.client.queue, d.queue, reply.seqNo, IsFinal(reply.answer), h.snap, s.client.pulled,
      h.feed);
    assert Exec(w, s, Answer(reply)) == s.(client := d);
    assert Record(w, s, h, Answer(reply)) == h;
  }

  // ------------------------------------------------------------------
  // Reading a page
  // ------------------------------------------------------------------

  /** The account owns every project, so the feed hides nothing from it. */
  lemma EverythingVisible(w: World, st: Store, k: Key)
    requires NodeOk(w, st.rows) && k in st.rows
    ensures Visible(st, k, w.account)
  {
    assert RowOk(w, k, st.rows[k]);
    var project := ProjectOfRow(st.rows, k, st.rows[k]);
    if project.Some? {
      var pk := Key(Projects, project.value);
      hide Columns, HasMembership;
      if k.table == MemoVersions {
        assert ParentStored(st.rows, Memos, st.rows[Key(Memos, TextOf(Get(st.rows[k], MemoId)).value)]);
      }
      assert pk in st.rows && RowOk(w, pk, st.rows[pk]);
    }
  }

  lemma WindowItemsOk(w: World, st: Store, lo: nat, hi: nat)
    requires NodeOk(w, st.rows) && lo <= hi <= |st.log|
    ensures forall ch | ch in ReadWindow(st, w.account, lo, hi) ::
              && WireOk(w, ch) && FeedBound(st.rows, KeyOf(ch), ch.row.value)
              && 1 <= ch.seqNo.value <= |st.log| && KeyOf(ch) == st.log[ch.seqNo.value - 1].key
  {
    hide ReadWindow, Visible, RowOk, RowsValid, Ascending, LastOfItsRow;
    ReadWindowItems(st, w.account, lo, hi);
    forall ch | ch in ReadWindow(st, w.account, lo, hi)
      ensures WireOk(w, ch) && FeedBound(st.rows, KeyOf(ch), ch.row.value)
              && 1 <= ch.seqNo.value <= |st.log| && KeyOf(ch) == st.log[ch.seqNo.value - 1].key
    {
      var i :| lo <= i < hi && InFeed(st, w.account, i, hi) && ch == FeedChange(st, i);
      assert RowOk(w, st.log[i].key, st.rows[st.log[i].key]);
    }
  }

  lemma WindowIsOk(w: World, st: Store, lo: nat, hi: nat)
    requires NodeOk(w, st.rows) && lo <= hi <= |st.log|
    ensures var items := ReadWindow(st, w.account, lo, hi);
            && Ascending(items, lo, hi)
            && (forall ch | ch in items ::
                  && WireOk(w, ch) && FeedBound(st.rows, KeyOf(ch), ch.row.value)
                  && 1 <= ch.seqNo.value <= |st.log| && KeyOf(ch) == st.log[ch.seqNo.value - 1].key)
            && (forall k | k in st.rows && LoggedIn(st.log, lo, hi, k) :: Delivers(items, k, st.rows[k]))
  {
    hide ReadWindow, Visible, RowOk, NodeOk, FeedBound, Ascending, Delivers, LoggedIn;
    ReadWindowItems(st, w.account, lo, hi);
    WindowItemsOk(w, st, lo, hi);
    forall k | k in st.rows && LoggedIn(st.log, lo, hi, k)
      ensures Delivers(ReadWindow(st, w.account, lo, hi), k, st.rows[k])
    {
      EverythingVisible(w, st, k);
      WindowDeliversExactly(st, w.account, lo, hi, k, st.rows[k]);
    }
  }

  lemma MoreFeed(w: World, q: Queue, pulled: nat, feed: set<Change>, more: set<Change>)
    requires InboxOk(w, q, pulled, feed) && feed <= more
    ensures InboxOk(w, q, pulled, more)
  {
    hide WireOk;
  }

  lemma PageCovers(w: World, s: Sys, h: Hist, hi: nat)
    requires Inv(w, s, h) && s.client.pulled <= hi <= |s.server.store.log|
    ensures var page := Page(ReadWindow(s.server.store, w.account, s.client.pulled, hi), hi);
            Covered(s.client, s.server.store, Some(page))
  {
    var c, st := s.client, s.server.store;
    hide Books, ReadWindow, SnapsBound, FeedsBound, HeldDown, HeldUp, Delivers, NodeOk, ReceiptsDelivered;
    WindowIsOk(w, st, c.pulled, hi);
    forall k | ServerAhead(c.store.rows, st.rows, k)
      ensures LoggedIn(st.log, hi, |st.log|, k) || HeldDown(c.queue, k, st.rows[k])
              || Delivers(ReadWindow(st, w.account, c.pulled, hi), k, st.rows[k])
    {
      assert !Delivers([], k, st.rows[k]) by { NothingDelivers(k, st.rows[k]); }
      if LoggedIn(st.log, c.pulled, |st.log|, k) {
        var i :| c.pulled <= i < |st.log| && st.log[i].key == k;
        assert if i < hi then LoggedIn(st.log, c.pulled, hi, k) else LoggedIn(st.log, hi, |st.log|, k);
      }
    }
  }

  lemma NothingDelivers(k: Key, row: Row)
    ensures !Delivers([], k, row)
  {
  }

  lemma ReadPageKeepsInv(w: World, s: Sys, h: Hist, limit: nat)
    requires Inv(w, s, h)
    ensures Inv(w, Exec(w, s, ReadPage(limit)), Record(w, s, h, ReadPage(limit)))
  {
    hide ReadWindow, SnapsOk, NodeOk, ReceiptsDelivered, OutboxOk, InboxOk, SentOk, RepliesOk, ReceiptsMatch, Covered,
      LogStored, SnapsBound, RowOk, Ascending;
    var st := s.server.store;
    var hi := WindowEnd(st.log, s.client.pulled, limit);
    var items := ReadWindow(st, w.account, s.client.pulled, hi);
    WindowIsOk(w, st, s.client.pulled, hi);
    PageCovers(w, s, h, hi);
    var h2 := Record(w, s, h, ReadPage(limit));
    assert h2 == h.(feed := h.feed + set ch | ch in items);
    MoreFeed(w, s.client.queue, s.client.pulled, h.feed, h2.feed);
  }

  // ------------------------------------------------------------------
  // Collecting
  // ------------------------------------------------------------------

  lemma CollectedItem(w: World, st: Store, rs: map<Key, RowState>, i: nat)
    requires NodeOk(w, st.rows) && LogStored(st) && i < |st.log|
    ensures var ch, k := LocalChange(st, rs, i), st.log[i].key;
            && ch.seqNo == Some(i + 1) && WireOk(w, ch) && KeyOf(ch) == k && k in st.rows
            && Carries(ch, k, st.rows[k])
  {
    hide RowOk, RowsValid;
    var k := st.log[i].key;
    assert k in st.rows && RowOk(w, k, st.rows[k]);
  }

  lemma CollectedItems(w: World, st: Store, rs: map<Key, RowState>, lo: nat, hi: nat)
    requires NodeOk(w, st.rows) && LogStored(st) && lo <= hi <= |st.log|
    ensures forall ch | ch in CollectWindow(st, rs, lo, hi) ::
              && ch.seqNo.Some? && lo < ch.seqNo.value <= hi && WireOk(w, ch)
              && KeyOf(ch) == st.log[ch.seqNo.value - 1].key && KeyOf(ch) in st.rows
              && Carries(ch, KeyOf(ch), st.rows[KeyOf(ch)])
  {
    hide CollectWindow, RowOk, RowsValid, NodeOk, LogStored, Carries, LocalChange, LastOfItsRow;
    CollectWindowItems(st, rs, lo, hi);
    forall ch | ch in CollectWindow(st, rs, lo, hi)
      ensures ch.seqNo.Some? && lo < ch.seqNo.value <= hi && WireOk(w, ch)
              && KeyOf(ch) == st.log[ch.seqNo.value - 1].key && KeyOf(ch) in st.rows
              && Carries(ch, KeyOf(ch), st.rows[KeyOf(ch)])
    {
      var i :| lo <= i < hi && LastOfItsRow(st.log, i, hi) && ch == LocalChange(st, rs, i);
      CollectedItem(w, st, rs, i);
    }
  }

  lemma CollectedDelivers(st: Store, rs: map<Key, RowState>, lo: nat, hi: nat)
    requires LogStored(st) && lo <= hi <= |st.log|
    ensures forall k | LoggedIn(st.log, lo, hi, k) ::
              k in st.rows && Delivers(CollectWindow(st, rs, lo, hi), k, st.rows[k])
  {
    hide CollectWindow;
    forall k | LoggedIn(st.log, lo, hi, k)
      ensures k in st.rows && Delivers(CollectWindow(st, rs, lo, hi), k, st.rows[k])
    {
      var i :| lo <= i < hi && st.log[i].key == k;
      var last := LastEntry(st.log, i, hi);
      CollectWindowCovers(st, rs, lo, hi, last);
      assert st.log[last].key in st.rows;
      assert Carries(LocalChange(st, rs, last), k, st.rows[k]);
    }
  }

  lemma CollectedIsOk(w: World, st: Store, rs: map<Key, RowState>, lo: nat, hi: nat)
    requires NodeOk(w, st.rows) && LogStored(st) && lo <= hi <= |st.log|
    ensures var items := CollectWindow(st, rs, lo, hi);
            && (forall ch | ch in items ::
                  && ch.seqNo.Some? && lo < ch.seqNo.value <= hi && WireOk(w, ch)
                  && KeyOf(ch) == st.log[ch.seqNo.value - 1].key && KeyOf(ch) in st.rows
                  && Carries(ch, KeyOf(ch), st.rows[KeyOf(ch)]))
            && (forall k | LoggedIn(st.log, lo, hi, k) :: k in st.rows && Delivers(items, k, st.rows[k]))
  {
    hide CollectWindow, NodeOk, LogStored, RowOk, Carries, LoggedIn, Delivers;
    CollectedItems(w, st, rs, lo, hi);
    CollectedDelivers(st, rs, lo, hi);
  }

  ghost predicate CollectedFrom(log: seq<LogEntry>, lo: nat, hi: nat, items: seq<Change>) {
    forall ch | ch in items ::
      && ch.seqNo.Some? && lo < ch.seqNo.value <= hi <= |log|
      && ch.table.Some? && KeyOf(ch) == log[ch.seqNo.value - 1].key
  }

  /** What the outbox gains: one entry per collected change, under its seq. */
  ghost predicate Gains(q: Queue, r: Queue, items: seq<Change>) {
    && (forall key | key in q :: key in r && r[key] == q[key])
    && (forall key | key in r && key !in q ::
          key.direction == Push && exists ch :: ch in items && ch.seqNo == Some(key.seqNo) && r[key] == ch)
    && (forall ch | ch in items ::
          ch.seqNo.Some? && QueueKey(Push, ch.seqNo.value) in r && r[QueueKey(Push, ch.seqNo.value)] == ch)
  }

  lemma TakenSnaps(
    log: seq<LogEntry>, lo: nat, hi: nat, snap: map<nat, Change>, items: seq<Change>, taken: map<nat, Change>)
    requires SnapsOk(log, lo, snap) && lo <= hi <= |log| && CollectedFrom(log, lo, hi, items)
    requires forall n | n in taken :: taken[n] in items && taken[n].seqNo == Some(n)
    ensures forall n | n in taken :: n !in snap
    ensures SnapsOk(log, hi, snap + taken)
  {
  }

  /** The snapshots of one collection: new seqs only, each with its payload. */
  lemma CollectionSnaps(
    log: seq<LogEntry>, lo: nat, hi: nat, snap: map<nat, Change>, items: seq<Change>, q: Queue, r: Queue)
    requires SnapsOk(log, lo, snap) && lo <= hi <= |log|
    requires Gains(q, r, items) && CollectedFrom(log, lo, hi, items)
    ensures forall n | n in Snapped(q, r) ::
              n !in snap && Snapped(q, r)[n] in items && Snapped(q, r)[n].seqNo == Some(n)
    ensures SnapsOk(log, hi, snap + Snapped(q, r))
  {
    hide SnapsOk, CollectedFrom;
    forall n | n in Snapped(q, r) ensures Snapped(q, r)[n] in items && Snapped(q, r)[n].seqNo == Some(n) {
      var ch :| ch in items && ch.seqNo == Some(n) && r[QueueKey(Push, n)] == ch;
    }
    hide Snapped, Gains;
    TakenSnaps(log, lo, hi, snap, items, Snapped(q, r));
  }

  lemma CollectionQueues(log: seq<LogEntry>, lo: nat, snap: map<nat, Change>, items: seq<Change>, q: Queue, r: Queue)
    requires Gains(q, r, items) && OutboxOk(q, snap)
    requires forall n | n in Snapped(q, r) :: n !in snap
    ensures OutboxOk(r, snap + Snapped(q, r))
    ensures forall k, row | HeldUp(q, k, row) :: HeldUp(r, k, row)
    ensures forall k, row | HeldDown(q, k, row) :: HeldDown(r, k, row)
    ensures forall k, row | Delivers(items, k, row) :: HeldUp(r, k, row)
  {
    hide Carries;
    forall key | key in r && key !in q
      ensures key.seqNo in Snapped(q, r) && Snapped(q, r)[key.seqNo] == r[key]
    {
      assert key.seqNo in LiveSeqs(r, Push);
    }
    forall k, row | HeldUp(q, k, row) ensures HeldUp(r, k, row) {
      var key :| key in q && !IsPull(key) && Carries(q[key], k, row);
      assert r[key] == q[key];
    }
    forall k, row | HeldDown(q, k, row) ensures HeldDown(r, k, row) {
      var key :| key in q && IsPull(key) && Carries(q[key], k, row);
      assert r[key] == q[key];
    }
    forall k, row | Delivers(items, k, row) ensures HeldUp(r, k, row) {
      var ch :| ch in items && Carries(ch, k, row);
      assert r[QueueKey(Push, ch.seqNo.value)] == ch;
    }
  }

  lemma GainsKeepInbox(w: World, items: seq<Change>, q: Queue, r: Queue, pulled: nat, feed: set<Change>)
    requires Gains(q, r, items) && InboxOk(w, q, pulled, feed)
    ensures InboxOk(w, r, pulled, feed)
  {
    hide InFeeds;
    assert forall key | IsPull(key) :: key in r <==> key in q;
  }

  lemma MoreSnaps(w: World, s: Sys, h: Hist, more: map<nat, Change>)
    requires SentOk(w, s.client.epoch, s.sent, h.snap)
    requires ReceiptsMatch(w, s.client.epoch, s.server.receipts, h.snap)
    requires RepliesOk(w, s.client.epoch, s.server.receipts, h.snap, s.replies)
    requires forall n | n in h.snap :: n in more && more[n] == h.snap[n]
    ensures SentOk(w, s.client.epoch, s.sent, more)
    ensures ReceiptsMatch(w, s.client.epoch, s.server.receipts, more)
    ensures RepliesOk(w, s.client.epoch, s.server.receipts, more, s.replies)
  {
    hide ReceiptsOk;
    forall reply | reply in s.replies ensures ReplyOk(w, s.client.epoch, s.server.receipts, more, reply) {
      assert ReplyOk(w, s.client.epoch, s.server.receipts, h.snap, reply);
    }
  }

  /** Moving the scan mark over entries whose rows are now held in the outbox loses nothing. */
  lemma CollectCovers(c: Client, srv: Store, page: Option<Page>, q: Queue, hi: nat)
    requires Covered(c, srv, page) && c.pushed <= hi <= |c.store.log|
    requires forall k, row | HeldUp(c.queue, k, row) :: HeldUp(q, k, row)
    requires forall k, row | HeldDown(c.queue, k, row) :: HeldDown(q, k, row)
    requires forall k | LoggedIn(c.store.log, c.pushed, hi, k) :: k in c.store.rows && HeldUp(q, k, c.store.rows[k])
    ensures Covered(c.(queue := q, pushed := hi), srv, page)
  {
    hide HeldUp, HeldDown, LoggedIn, Delivers;
    forall k ensures LoggedIn(c.store.log, c.pushed, |c.store.log|, k) ==>
                     LoggedIn(c.store.log, c.pushed, hi, k) || LoggedIn(c.store.log, hi, |c.store.log|, k)
    {
      LoggedSplit(c.store.log, c.pushed, hi, k);
    }
  }

  /** What a scan does to the books about payloads and queues. */
  lemma CollectKeepsQueues(w: World, s: Sys, h: Hist, items: seq<Change>, q: Queue, hi: nat, h2: Hist)
    requires Inv(w, s, h) && s.client.pushed <= hi <= |s.client.store.log|
    requires CollectedFrom(s.client.store.log, s.client.pushed, hi, items) && Gains(s.client.queue, q, items)
    requires h2.snap == h.snap + Snapped(s.client.queue, q)
    ensures SnapsOk(s.client.store.log, hi, h2.snap) && OutboxOk(q, h2.snap)
    ensures InboxOk(w, q, s.client.pulled, h.feed)
    ensures forall n | n in h.snap :: n in h2.snap && h2.snap[n] == h.snap[n]
  {
    var c := s.client;
    hide NodeOk, FeedOk, PageOk, SentOk, RepliesOk, ReceiptsMatch, ReceiptsDelivered, ClientOk, SnapsOk, OutboxOk,
      InboxOk, Snapped, Gains, CollectedFrom;
    CollectionSnaps(c.store.log, c.pushed, hi, h.snap, items, c.queue, q);
    CollectionQueues(c.store.log, c.pushed, h.snap, items, c.queue, q);
    GainsKeepInbox(w, items, c.queue, q, c.pulled, h.feed);
  }

  /** What a scan does to the client's rows, clocks and coverage. */
  lemma CollectKeepsClient(
    w: World, c: Client, srv: Store, h: Hist, page: Option<Page>, items: seq<Change>, q: Queue, hi: nat, h2: Hist)
    requires ClientOk(w, c, srv, h, page) && c.pushed <= hi <= |c.store.log|
    requires items == CollectWindow(c.store, c.rowState, c.pushed, hi)
    requires h2.feed == h.feed && h2.snap == h.snap + Snapped(c.queue, q)
    requires forall n | n in Snapped(c.queue, q) :: Snapped(c.queue, q)[n] in items
    requires forall k, row | HeldUp(c.queue, k, row) :: HeldUp(q, k, row)
    requires forall k, row | HeldDown(c.queue, k, row) :: HeldDown(q, k, row)
    requires forall k, row | Delivers(items, k, row) :: HeldUp(q, k, row)
    ensures ClientOk(w, c.(queue := q, pushed := hi), srv, h2, page)
  {
    hide CollectWindow, NodeOk, LogStored, FeedsBound, HeldUp, HeldDown, Snapped, WireOk, LoggedIn, Delivers, Covered;
    CollectedIsOk(w, c.store, c.rowState, c.pushed, hi);
    CollectCovers(c, srv, page, q, hi);
  }

  lemma CollectKeepsCovered(w: World, s: Sys, h: Hist, items: seq<Change>, q: Queue, hi: nat, h2: Hist)
    requires Inv(w, s, h) && s.client.pushed <= hi <= |s.client.store.log|
    requires items == CollectWindow(s.client.store, s.client.rowState, s.client.pushed, hi)
    requires EnqueueAll(s.client.queue, Push, items) == Some(q)
    requires h2.feed == h.feed && h2.snap == h.snap + Snapped(s.client.queue, q)
    ensures ClientOk(w, s.client.(queue := q, pushed := hi), s.server.store, h2, s.page)
    ensures SnapsOk(s.client.store.log, hi, h2.snap) && OutboxOk(q, h2.snap)
    ensures InboxOk(w, q, s.client.pulled, h.feed)
    ensures forall n | n in h.snap :: n in h2.snap && h2.snap[n] == h.snap[n]
  {
    var c := s.client;
    GainsFromEnqueue(c.queue, items, q);
    CollectedIsFrom(w, s, h, items, hi);
    CollectKeepsQueues(w, s, h, items, q, hi, h2);
    hide CollectWindow, EnqueueAll, ClientOk, NodeOk, FeedOk, PageOk, SentOk, RepliesOk, ReceiptsMatch,
      ReceiptsDelivered, SnapsOk, OutboxOk, InboxOk, HeldUp, HeldDown, Snapped, Gains, Delivers, CollectedFrom;
    CollectionSnaps(c.store.log, c.pushed, hi, h.snap, items, c.queue, q);
    CollectionQueues(c.store.log, c.pushed, h.snap, items, c.queue, q);
    CollectKeepsClient(w, c, s.server.store, h, s.page, items, q, hi, h2);
  }

  lemma CollectedIsFrom(w: World, s: Sys, h: Hist, items: seq<Change>, hi: nat)
    requires Inv(w, s, h) && s.client.pushed <= hi <= |s.client.store.log|
    requires items == CollectWindow(s.client.store, s.client.rowState, s.client.pushed, hi)
    ensures CollectedFrom(s.client.store.log, s.client.pushed, hi, items)
  {
    var c := s.client;
    hide CollectWindow, Books, NodeOk, LogStored, SnapsBound, FeedsBound, Covered, ReceiptsDelivered, RowOk, Carries,
      Delivers, LoggedIn;
    CollectedIsOk(w, c.store, c.rowState, c.pushed, hi);
  }

  lemma GainsFromEnqueue(q: Queue, items: seq<Change>, r: Queue)
    requires EnqueueAll(q, Push, items) == Some(r)
    ensures Gains(q, r, items)
  {
    EnqueueAllAdds(q, items);
  }

  lemma LoggedSplit(log: seq<LogEntry>, lo: nat, hi: nat, k: Key)
    requires lo <= hi <= |log|
    ensures LoggedIn(log, lo, |log|, k) <==> LoggedIn(log, lo, hi, k) || LoggedIn(log, hi, |log|, k)
  {
  }

  lemma CollectKeepsInv(w: World, s: Sys, h: Hist, limit: nat)
    requires Inv(w, s, h)
    ensures Inv(w, Exec(w, s, Collect(limit)), Record(w, s, h, Collect(limit)))
  {
    hide CollectWindow, EnqueueAll, NodeOk, ReceiptsDelivered, InboxOk, OutboxOk, FeedOk, PageOk, SentOk, RepliesOk,
      ReceiptsMatch, ClientOk, SnapsOk;
    var c := s.client;
    var t, h2 := Exec(w, s, Collect(limit)), Record(w, s, h, Collect(limit));
    var hi := WindowEnd(c.store.log, c.pushed, limit);
    assert c.pushed <= |c.store.log| by { assert SnapsOk(c.store.log, c.pushed, h.snap); ScannedIsLogged(c, h.snap); }
    var items := CollectWindow(c.store, c.rowState, c.pushed, hi);
    var r := EnqueueAll(c.queue, Push, items);
    if r.None? {
      assert t == s && h2.snap == h.snap && h2.feed == h.feed;
      SameHistory(w, c, s.server.store, s.page, h, h2);
    } else {
      assert t == s.(client := c.(queue := r.value, pushed := hi));
      assert h2.snap == h.snap + Snapped(c.queue, r.value) && h2.feed == h.feed;
      CollectKeepsCovered(w, s, h, items, r.value, hi, h2);
      MoreSnaps(w, s, h, h2.snap);
    }
  }

  lemma ScannedIsLogged(c: Client, snap: map<nat, Change>)
    requires SnapsOk(c.store.log, c.pushed, snap)
    ensures c.pushed <= |c.store.log|
  {
  }

  // ------------------------------------------------------------------
  // Applying a page
  // ------------------------------------------------------------------

  /** Filling in what was last agreed changes neither the entry nor the row. */
  lemma BasesKeepItems(w: World, rs: map<Key, RowState>, changes: seq<Change>, feed: set<Change>)
    requires forall ch | ch in changes :: InFeeds(w, Some(ch), feed)
    ensures AllFromFeed(w, WithBases(rs, changes), feed)
    ensures |WithBases(rs, changes)| == |changes|
    ensures forall i | 0 <= i < |changes| :: SameItem(changes[i], WithBases(rs, changes)[i])
  {
    hide RowOk;
    forall ch | ch in WithBases(rs, changes) ensures InFeeds(w, Some(ch), feed) && ch.seqNo.Some? && ch.table.Some? {
      var i :| 0 <= i < |changes| && ch == WithBase(rs, changes[i]);
      assert changes[i] in changes;
    }
  }

  lemma FeedIsFromFeed(w: World, sr: Rows, changes: seq<Change>, feed: set<Change>)
    requires FeedsBound(w, sr, feed) && forall ch | ch in changes :: ch in feed
    ensures forall ch | ch in changes :: InFeeds(w, Some(ch), feed)
  {
    hide RowOk;
    forall ch | ch in changes ensures InFeeds(w, Some(ch), feed) {
      assert ch in feed && WireOk(w, ch) && SameItem(ch, ch);
    }
  }

  ghost predicate EachHeldOrLanded(cr: Rows, sr: Rows, q: Queue, changes: seq<Change>) {
    forall ch | ch in changes :: Landed(cr, sr, ch) || Holds(q, ch)
  }

  lemma HeldCarries(q: Queue, ch: Change, k: Key, row: Row)
    requires Holds(q, ch) && Carries(ch, k, row)
    ensures HeldDown(q, k, row)
  {
  }

  lemma KeepsHeldDown(q: Queue, r: Queue)
    requires Keeps(q, r)
    ensures forall k, row | HeldDown(q, k, row) :: HeldDown(r, k, row)
  {
    hide Carries;
    forall k, row | HeldDown(q, k, row) ensures HeldDown(r, k, row) {
      var key :| key in q && IsPull(key) && Carries(q[key], k, row);
      assert IsPull(key);
    }
  }

  lemma SettledKeepsHeldUp(c: Client, d: Client)
    requires OnlySettled(c, d)
    ensures forall k, row | HeldUp(c.queue, k, row) :: HeldUp(d.queue, k, row)
  {
    hide Carries;
    forall k, row | HeldUp(c.queue, k, row) ensures HeldUp(d.queue, k, row) {
      var key :| key in c.queue && !IsPull(key) && Carries(c.queue[key], k, row);
      assert d.queue[key] == c.queue[key];
    }
  }

  /** Once each page item has landed or is held in the inbox, the pull mark may move past the page. */
  lemma PageMayBePassed(c: Client, srv: Store, page: Page, d: Client, changes: seq<Change>)
    requires Covered(c, srv, Some(page))
    requires OnlySettled(c, d) && Keeps(c.queue, d.queue)
    requires |changes| == |page.changes|
    requires forall i | 0 <= i < |changes| :: SameItem(page.changes[i], changes[i])
    requires EachHeldOrLanded(c.store.rows, srv.rows, d.queue, changes)
    ensures Covered(d.(pulled := page.next), srv, None)
  {
    KeepsHeldDown(c.queue, d.queue);
    SettledKeepsHeldUp(c, d);
    hide HeldUp, HeldDown, LoggedIn, Holds, OnlySettled, Keeps;
    assert d.store.rows == c.store.rows && d.store.log == c.store.log && d.pushed == c.pushed by { SettledStore(c, d); }
    forall k | ServerAhead(d.store.rows, srv.rows, k)
      ensures LoggedIn(srv.log, page.next, |srv.log|, k) || HeldDown(d.queue, k, srv.rows[k])
    {
      if Delivers(page.changes, k, srv.rows[k]) {
        var i :| 0 <= i < |page.changes| && Carries(page.changes[i], k, srv.rows[k]);
        assert changes[i] in changes && Carries(changes[i], k, srv.rows[k]);
        if Holds(d.queue, changes[i]) { HeldCarries(d.queue, changes[i], k, srv.rows[k]); }
      }
    }
  }

  lemma SettledStore(c: Client, d: Client)
    requires OnlySettled(c, d)
    ensures d.store.rows == c.store.rows && d.store.log == c.store.log && d.pushed == c.pushed && d.pulled == c.pulled
    ensures d.epoch == c.epoch
    ensures LogStored(d.store) == LogStored(c.store)
  {
  }

  lemma AscendingIsDistinct(page: seq<Change>, changes: seq<Change>, lo: nat, hi: nat)
    requires Ascending(page, lo, hi) && |changes| == |page|
    requires forall i | 0 <= i < |changes| :: SameItem(page[i], changes[i])
    ensures DistinctSeqs(changes) && SeqsNameChanges(changes)
    ensures forall ch | ch in changes :: ch.seqNo.Some? && ch.seqNo.value > lo && ch.seqNo.value <= hi
  {
    forall i, j | 0 <= i < j < |changes| ensures changes[i].seqNo != changes[j].seqNo {
      assert page[i].seqNo.value < page[j].seqNo.value;
    }
  }

  lemma SettledInbox(w: World, c: Client, d: Client, changes: seq<Change>, feed: set<Change>, next: nat)
    requires Settles(c, d, changes) && InboxOk(w, c.queue, c.pulled, feed) && c.pulled <= next
    requires AllFromFeed(w, changes, feed) && forall ch | ch in changes :: ch.seqNo.Some? && ch.seqNo.value <= next
    ensures InboxOk(w, d.queue, next, feed)
  {
    hide InFeeds, Keeps;
  }

  lemma SettledOutbox(c: Client, d: Client, snap: map<nat, Change>)
    requires OnlySettled(c, d) && OutboxOk(c.queue, snap)
    ensures OutboxOk(d.queue, snap)
  {
  }

  /** The page as it is applied: its items with the client's bases, none of them queued before. */
  lemma PageChangesOk(w: World, s: Sys, h: Hist)
    requires Inv(w, s, h) && s.page.Some?
    ensures var page := s.page.value;
            var changes := WithBases(s.client.rowState, page.changes);
            && AllFromFeed(w, changes, h.feed) && DistinctSeqs(changes) && SeqsNameChanges(changes)
            && |changes| == |page.changes|
            && (forall i | 0 <= i < |changes| :: SameItem(page.changes[i], changes[i]))
            && (forall ch | ch in changes ::
                 NotDead(s.client.queue, ch) && ch.seqNo.Some? && ch.seqNo.value <= page.next)
  {
    hide WithBases, RowOk, RowsValid, InFeeds, LoggedIn, SentOk, RepliesOk, ReceiptsMatch, FeedOk, ReceiptsDelivered,
      SnapsBound, LogStored, Covered, OneFate;
    var page := s.page.value;
    var changes := WithBases(s.client.rowState, page.changes);
    FeedIsFromFeed(w, s.server.store.rows, page.changes, h.feed);
    BasesKeepItems(w, s.client.rowState, page.changes, h.feed);
    AscendingIsDistinct(page.changes, changes, s.client.pulled, page.next);
    hide FeedsBound, Ascending, SameItem;
  }

  lemma ApplyPageKeepsOk(w: World, s: Sys, h: Hist, draws: nat -> Draw, d: Client)
    requires Inv(w, s, h) && Enabled(w, s, ApplyPage(draws))
    requires var changes := WithBases(s.client.rowState, s.page.value.changes);
             var q := PullBatch(w, s.client, changes, draws);
             q.Running? && Addressed(changes)
             && SettlePage(s.client.(store := q.store), changes, q.out.results) == Some(d)
    ensures ClientOk(w, d.(pulled := s.page.value.next), s.server.store, h, None)
    ensures SnapsOk(d.store.log, d.pushed, h.snap) && OutboxOk(d.queue, h.snap)
    ensures InboxOk(w, d.queue, s.page.value.next, h.feed) && d.epoch == s.client.epoch
  {
    hide PullBatch, SettlePage, WithBases, NodeOk, InFeeds, Landed, LoggedIn, SentOk, RepliesOk, ReceiptsMatch, FeedOk,
      ReceiptsDelivered, SnapsBound, FeedsBound, LogStored, Covered, AllFromFeed, DistinctSeqs, SeqsNameChanges,
        NotDead,
      Finished, Holds, Settles, InboxOk, OutboxOk, SameItem;
    var c, srv, page := s.client, s.server.store, s.page.value;
    var changes := WithBases(c.rowState, page.changes);
    PageChangesOk(w, s, h);
    PullBatchKeepsOk(w, c, srv, h, s.page, changes, draws);
    var q := PullBatch(w, c, changes, draws);
    var mid := c.(store := q.store);
    PageIsHeldOrFinished(mid, changes, q.out.results);
    SettlesParts(mid, d, changes);
    PageMayBePassed(mid, srv, page, d, changes);
    SettledInbox(w, mid, d, changes, h.feed, page.next);
    SettledOutbox(mid, d, h.snap);
    hide OnlySettled, Keeps, EachHeldOrLanded;
    SettledStore(mid, d);
  }

  lemma SettlesParts(c: Client, d: Client, changes: seq<Change>)
    requires Settles(c, d, changes)
    ensures OnlySettled(c, d) && Keeps(c.queue, d.queue)
  {
  }

  lemma ApplyPageKeepsInv(w: World, s: Sys, h: Hist, draws: nat -> Draw)
    requires Inv(w, s, h) && Enabled(w, s, ApplyPage(draws))
    ensures Inv(w, Exec(w, s, ApplyPage(draws)), Record(w, s, h, ApplyPage(draws)))
  {
    hide PullBatch, SettlePage, WithBases, NodeOk, SentOk, RepliesOk, ReceiptsMatch, FeedOk, ReceiptsDelivered, InboxOk,
      OutboxOk, SnapsOk, HandledBy, ClientOk;
    var t, h2 := Exec(w, s, ApplyPage(draws)), Record(w, s, h, ApplyPage(draws));
    var changes := WithBases(s.client.rowState, s.page.value.changes);
    var q := PullBatch(w, s.client, changes, draws);
    assert h2.snap == h.snap && h2.feed == h.feed;
    if q.Running? && Addressed(changes) && SettlePage(s.client.(store := q.store), changes, q.out.results).Some? {
      var d := SettlePage(s.client.(store := q.store), changes, q.out.results).value;
      ApplyPageKeepsOk(w, s, h, draws, d);
      assert t == s.(client := d.(pulled := s.page.value.next), page := None);
    } else {
      assert t == s.(page := None);
      CrashKeepsInv(w, s, h);
    }
    SameHistory(w, t.client, s.server.store, None, h, h2);
  }

  // ------------------------------------------------------------------
  // Retrying the inbox
  // ------------------------------------------------------------------

  lemma RetryChangesOk(w: World, c: Client, limit: nat, feed: set<Change>)
    requires InboxOk(w, c.queue, c.pulled, feed)
    ensures var changes := WithBases(c.rowState, ListRetries(c.queue, Pull, limit));
            && AllFromFeed(w, changes, feed) && SeqsNameChanges(changes)
            && (forall ch | ch in changes ::
                  ch.seqNo.Some? && QueueKey(Pull, ch.seqNo.value) in c.queue
                  && SameItem(c.queue[QueueKey(Pull, ch.seqNo.value)], ch))
  {
    hide WireOk, OneFate;
    var seqs := SortedPrefix(LiveSeqs(c.queue, Pull), limit);
    var listed := ListRetries(c.queue, Pull, limit);
    forall i | 0 <= i < |listed|
      ensures var key := QueueKey(Pull, seqs[i]);
              key in c.queue && listed[i] == c.queue[key] && listed[i].seqNo == Some(seqs[i])
                && InFeeds(w, Some(listed[i]), feed)
    {
      assert seqs[i] in seqs;
      assert IsPull(QueueKey(Pull, seqs[i]));
    }
    hide InFeeds, ListRetries;
    BasesKeepItems(w, c.rowState, listed, feed);
    var changes := WithBases(c.rowState, listed);
    forall ch | ch in changes
      ensures ch.seqNo.Some? && QueueKey(Pull, ch.seqNo.value) in c.queue
              && SameItem(c.queue[QueueKey(Pull, ch.seqNo.value)], ch)
    {
      var i :| 0 <= i < |changes| && changes[i] == ch;
      assert SameItem(listed[i], ch);
    }
    forall a, b | a in changes && b in changes && a.seqNo == b.seqNo ensures a == b {
      var i :| 0 <= i < |changes| && changes[i] == a;
      var j :| 0 <= j < |changes| && changes[j] == b;
      assert listed[i] == listed[j];
    }
  }

  lemma RetryKeepsHeld(
    c: Client, d: Client, sr: Rows, changes: seq<Change>, results: seq<Result>, k: Key)
    requires Retires(c, d, changes, results) && OneFate(c.queue) && k in sr
    requires forall ch | ch in changes ::
      ch.seqNo.Some? && QueueKey(Pull, ch.seqNo.value) in c.queue
        && SameItem(c.queue[QueueKey(Pull, ch.seqNo.value)], ch)
    requires forall ch | ch in changes && Finished(results, ch) :: Landed(c.store.rows, sr, ch)
    requires HeldDown(c.queue, k, sr[k]) && ServerAhead(c.store.rows, sr, k)
    ensures HeldDown(d.queue, k, sr[k])
  {
    hide ServerAhead, Finished, OnlySettled;
    var key :| key in c.queue && IsPull(key) && Carries(c.queue[key], k, sr[k]);
  }

  lemma RetryMayRetire(c: Client, d: Client, srv: Store, page: Option<Page>, changes: seq<Change>, results: seq<Result>)
    requires Covered(c, srv, page) && Retires(c, d, changes, results) && OneFate(c.queue)
    requires forall ch | ch in changes ::
      ch.seqNo.Some? && QueueKey(Pull, ch.seqNo.value) in c.queue
        && SameItem(c.queue[QueueKey(Pull, ch.seqNo.value)], ch)
    requires forall ch | ch in changes && Finished(results, ch) :: Landed(c.store.rows, srv.rows, ch)
    ensures Covered(d, srv, page)
  {
    SettledKeepsHeldUp(c, d);
    SettledStore(c, d);
    forall k | ServerAhead(c.store.rows, srv.rows, k) && HeldDown(c.queue, k, srv.rows[k])
      ensures HeldDown(d.queue, k, srv.rows[k])
    {
      RetryKeepsHeld(c, d, srv.rows, changes, results, k);
    }
    hide HeldUp, HeldDown, LoggedIn, Delivers, Retires, Landed, Finished, SameItem;
  }

  lemma RetiredInbox(w: World, c: Client, d: Client, changes: seq<Change>, results: seq<Result>, feed: set<Change>)
    requires Retires(c, d, changes, results) && InboxOk(w, c.queue, c.pulled, feed)
    ensures InboxOk(w, d.queue, c.pulled, feed)
  {
    hide InFeeds, SurvivesRetry, OneFate;
  }

  lemma RetryKeepsInv(w: World, s: Sys, h: Hist, limit: nat, draws: nat -> Draw)
    requires Inv(w, s, h) && Enabled(w, s, RetryPulls(limit, draws))
    ensures Inv(w, Exec(w, s, RetryPulls(limit, draws)), Record(w, s, h, RetryPulls(limit, draws)))
  {
    hide PullBatch, SettleRetries, ListRetries, WithBases, NodeOk, SentOk, RepliesOk, ReceiptsMatch, FeedOk,
      ReceiptsDelivered,
      OutboxOk, HandledBy, Covered, SnapsBound, FeedsBound, LogStored, AllFromFeed, SeqsNameChanges, Landed, Finished,
        Retires,
      InFeeds, PageOk;
    var c, srv := s.client, s.server.store;
    var t, h2 := Exec(w, s, RetryPulls(limit, draws)), Record(w, s, h, RetryPulls(limit, draws));
    assert h2.snap == h.snap && h2.feed == h.feed;
    var changes := WithBases(c.rowState, ListRetries(c.queue, Pull, limit));
    RetryChangesOk(w, c, limit, h.feed);
    PullBatchKeepsOk(w, c, srv, h, s.page, changes, draws);
    var q := PullBatch(w, c, changes, draws);
    if Addressed(changes) {
      var mid := c.(store := q.store);
      var d := SettleRetries(mid, changes, q.out.results);
      RetriesRetire(mid, changes, q.out.results);
      RetryMayRetire(mid, d, srv, s.page, changes, q.out.results);
      RetiredInbox(w, mid, d, changes, q.out.results, h.feed);
      RetiresSettled(mid, d, changes, q.out.results);
      SettledOutbox(mid, d, h.snap);
      SettledStore(mid, d);
      hide InboxOk, OnlySettled;
      assert t == s.(client := d);
      assert ClientOk(w, d, srv, h, s.page);
    }
    SameHistory(w, t.client, srv, s.page, h, h2);
  }

  lemma RetiresSettled(c: Client, d: Client, changes: seq<Change>, results: seq<Result>)
    requires Retires(c, d, changes, results)
    ensures OnlySettled(c, d)
  {
  }

  // ------------------------------------------------------------------
  // Every reachable state
  // ------------------------------------------------------------------

  lemma ActionKeepsInv(w: World, s: Sys, h: Hist, a: Action)
    requires Inv(w, s, h) && Enabled(w, s, a)
    ensures Inv(w, Exec(w, s, a), Record(w, s, h, a))
  {
    match a {
      case ClientEdit(k, row) => ClientEditKeepsInv(w, s, h, k, row);
      case ServerEdit(k, row) => ServerEditKeepsInv(w, s, h, k, row);
      case Collect(limit) => CollectKeepsInv(w, s, h, limit);
      case Send(n, epoch) => SendKeepsInv(w, s, h, n, epoch);
      case Deliver(m, d) => DeliverKeepsInv(w, s, h, m, d);
      case Answer(reply) => AnswerKeepsInv(w, s, h, reply);
      case ReadPage(limit) => ReadPageKeepsInv(w, s, h, limit);
      case ApplyPage(draws) => ApplyPageKeepsInv(w, s, h, draws);
      case RetryPulls(limit, draws) => RetryKeepsInv(w, s, h, limit, draws);
      case Crash => CrashKeepsInv(w, s, h);
    }
  }

  lemma {:induction false} RunKeepsInv(w: World, acts: seq<Action>)
    requires IsRun(w, acts)
    ensures Inv(w, After(w, acts).0, After(w, acts).1)
  {
    hide Inv, Exec, Record, Enabled;
    if acts == [] {
      StartIsOk(w);
    } else {
      var n := |acts| - 1;
      assert forall i | 0 <= i < n :: acts[..n][..i] == acts[..i];
      RunKeepsInv(w, acts[..n]);
      ActionKeepsInv(w, After(w, acts[..n]).0, After(w, acts[..n]).1, acts[n]);
    }
  }
}
