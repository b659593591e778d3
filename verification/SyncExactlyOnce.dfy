/** Exactly-once push: each outgoing seq has one payload and changes the server at most once. */
module SyncExactlyOnce {
  import opened SyncSchema
  import opened SyncStore
  import opened SyncApply
  import opened SyncApplyProofs
  import opened SyncBatch
  import opened SyncBatchProofs
  import opened SyncReceiptProofs
  import opened SyncQueue
  import opened SyncFeedProofs
  import opened SyncQueueProofs
  import opened TwoNode
  import opened SyncInvariants
  import opened SyncPullProofs
  import opened SyncSafety
  import opened SyncConvergence

  /** Every message that changed the server has its receipt, and none is listed twice. */
  ghost predicate EffectsOnce(s: Sys, h: Hist) {
    && (forall i | 0 <= i < |h.effects| :: h.effects[i] in s.server.receipts)
    && (forall i, j | 0 <= i < j < |h.effects| :: h.effects[i] != h.effects[j])
  }

  /** Each snapshot still waits, is dead-lettered, or was accepted by the server. */
  ghost predicate Accepted(w: World, s: Sys, h: Hist, n: nat) {
    && n in h.snap && s.client.epoch.Some?
    && (var key := ReceiptKey(PeerOf(w, s.client.epoch.value), n);
        && key in s.server.receipts
        && s.server.receipts[key].payload == h.snap[n]
        && |s.server.receipts[key].part.results| == 1
        && StatusOf(s.server.receipts[key].part) != Rejected)
  }

  ghost predicate SnapsAccounted(w: World, s: Sys, h: Hist) {
    forall n | n in h.snap ::
      QueueKey(Push, n) in s.client.queue || QueueKey(PushDead, n) in s.client.queue || Accepted(w, s, h, n)
  }

  /** The entry was snapshot itself or gave way to a later scanned entry for the same row. */
  ghost predicate TakenOrSuperseded(log: seq<LogEntry>, i: nat, pushed: nat, snap: map<nat, Change>) {
    exists j :: i <= j < pushed <= |log| && log[j].key == log[i].key && j + 1 in snap
  }

  ghost predicate ScannedSnapped(log: seq<LogEntry>, pushed: nat, snap: map<nat, Change>) {
    pushed <= |log| && forall i: nat | i < pushed :: TakenOrSuperseded(log, i, pushed, snap)
  }

  ghost predicate PushInv(w: World, s: Sys, h: Hist) {
    && Inv(w, s, h)
    && EffectsOnce(s, h)
    && SnapsAccounted(w, s, h)
    && ScannedSnapped(s.client.store.log, s.client.pushed, h.snap)
  }

  // ------------------------------------------------------------------
  // Delivery
  // ------------------------------------------------------------------

  /** A delivery is never refused for its payload; it adds at most the message's own receipt, and changes
      the server's rows, log or issues only when it does. */
  lemma DeliveryIsReceipted(w: World, s: Sys, h: Hist, m: Message, d: Draw)
    requires Inv(w, s, h) && Enabled(w, s, Deliver(m, d))
    ensures m.change.seqNo.Some?
    ensures var t := Exec(w, s, Deliver(m, d));
            var key := ReceiptKey(m.from, m.change.seqNo.value);
            && t.replies != {} && t.client == s.client
            && (forall r | r in s.server.receipts ::
                 r in t.server.receipts && t.server.receipts[r] == s.server.receipts[r])
            && (forall r | r in t.server.receipts && r !in s.server.receipts :: r == key)
            && (t.server.store != s.server.store ==> key !in s.server.receipts && key in t.server.receipts)
  {
    hide Inv, WireOk, NodeOk, ReceiptsOk, Evolves, StepRow, ExecDeliver, Answered, Idents, Has;
    SentIsWhole(w, s, h, m);
    SentNeverContradicts(w, s, h, m);
    DeliverIsStep(w, s, m, d);
    DeliverOne(w, s.server.store, s.server.receipts, m.from, m.change, d);
    var start := Running(s.server.store, s.server.receipts, EMPTY_OUTCOME);
    StepAborts(ServerSession(w), m.from, start, m.change.table.value, m.change, d);
    var q := StepRow(ServerSession(w), Some(m.from), start, m.change.table.value, m.change, d);
    assert Reply(m.change.seqNo.value, q.out) in ExecDeliver(w, s, m, d).replies;
  }

  /** A receipt for a sent message's seq holds that message's payload. */
  lemma SentNeverContradicts(w: World, s: Sys, h: Hist, m: Message)
    requires Inv(w, s, h) && m in s.sent
    ensures !Contradicts(s.server.receipts, m.from, m.change)
  {
    hide ClientOk, NodeOk, ReceiptsDelivered, InboxOk, OutboxOk, FeedOk, PageOk, RepliesOk, ReceiptsOk;
    SentIsWhole(w, s, h, m);
    assert ReceiptsMatch(w, s.client.epoch, s.server.receipts, h.snap);
  }

  lemma DeliverKeepsPush(w: World, s: Sys, h: Hist, m: Message, d: Draw)
    requires PushInv(w, s, h) && Enabled(w, s, Deliver(m, d))
    ensures PushInv(w, Exec(w, s, Deliver(m, d)), Record(w, s, h, Deliver(m, d)))
  {
    hide Inv, ScannedSnapped, AuthorAfter, ExecDeliver, StatusOf;
    DeliveryIsReceipted(w, s, h, m, d);
    ActionKeepsInv(w, s, h, Deliver(m, d));
    var t, h2 := Exec(w, s, Deliver(m, d)), Record(w, s, h, Deliver(m, d));
    assert h2.snap == h.snap && t.client == s.client;
    forall n | n in h2.snap
      ensures QueueKey(Push, n) in t.client.queue || QueueKey(PushDead, n) in t.client.queue || Accepted(w, t, h2, n)
    {
      assert QueueKey(Push, n) in s.client.queue || QueueKey(PushDead, n) in s.client.queue || Accepted(w, s, h, n);
    }
  }

  // ------------------------------------------------------------------
  // Answers
  // ------------------------------------------------------------------

  /** An outbox entry leaves the client only on an answer, and only when the server's receipt for its seq
      holds that very payload and is not a refusal. */
  lemma OutboxLeavesOnReceipt(w: World, s: Sys, h: Hist, a: Action, n: nat)
    requires Inv(w, s, h) && Enabled(w, s, a)
    requires QueueKey(Push, n) in s.client.queue
    requires QueueKey(Push, n) !in Exec(w, s, a).client.queue && QueueKey(PushDead, n) !in Exec(w, s, a).client.queue
    ensures a.Answer? && Accepted(w, s, h, n) && s.client.queue[QueueKey(Push, n)] == h.snap[n]
  {
    hide ClientOk, NodeOk, ReceiptsDelivered, SnapsOk, InboxOk, FeedOk, PageOk, SentOk, ReceiptsOk, ConstraintsHold,
      ExecDeliver, CollectWindow, ReadWindow;
    assert !IsPull(QueueKey(Push, n));
    match a {
      case ApplyPage(_) => PullsFrame(w, s, h, a); hide Exec;
      case RetryPulls(_, _) => PullsFrame(w, s, h, a); hide Exec;
      case Collect(limit) => CollectOnlyAdds(s, limit); hide Exec;
      case Answer(reply) =>
        AnswerMovesOneEntry(s.client, reply.seqNo, reply.answer);
        hide SettlePushed;
        assert IsFinal(reply.answer) && reply.seqNo == n;
        assert ReplyOk(w, s.client.epoch, s.server.receipts, h.snap, reply);
      case Deliver(m, d) => DeliveryIsReceipted(w, s, h, m, d); hide Exec;
      case _ =>
    }
  }

  lemma CollectOnlyAdds(s: Sys, limit: nat)
    ensures forall key | key in s.client.queue ::
      key in ExecCollect(s, limit).client.queue && ExecCollect(s, limit).client.queue[key] == s.client.queue[key]
    ensures ExecCollect(s, limit).server == s.server && ExecCollect(s, limit).client.epoch == s.client.epoch
    ensures ExecCollect(s, limit).client.store == s.client.store
  {
    hide CollectWindow, EnqueueAll;
    var c := s.client;
    var hi := WindowEnd(c.store.log, c.pushed, limit);
    if hi <= |c.store.log| {
      var items := CollectWindow(c.store, c.rowState, c.pushed, hi);
      if EnqueueAll(c.queue, Push, items).Some? { EnqueueAllAdds(c.queue, items); }
    }
  }

  /** Entries that stay, move to the dead letters or are accepted keep every snapshot accounted for. */
  lemma AccountsCarryOver(w: World, s: Sys, t: Sys, h: Hist)
    requires SnapsAccounted(w, s, h)
    requires s.client.epoch.Some? ==> t.client.epoch == s.client.epoch
    requires forall r | r in s.server.receipts :: r in t.server.receipts && t.server.receipts[r] == s.server.receipts[r]
    requires forall n | QueueKey(Push, n) in s.client.queue || QueueKey(PushDead, n) in s.client.queue ::
      QueueKey(Push, n) in t.client.queue || QueueKey(PushDead, n) in t.client.queue || Accepted(w, s, h, n)
    ensures SnapsAccounted(w, t, h)
  {
    hide StatusOf;
    forall n | n in h.snap
      ensures QueueKey(Push, n) in t.client.queue || QueueKey(PushDead, n) in t.client.queue || Accepted(w, t, h, n)
    {
      assert Accepted(w, s, h, n) ==> Accepted(w, t, h, n);
    }
  }

  /** What an answered outbox entry can turn into. */
  lemma AnsweredEntry(w: World, s: Sys, h: Hist, reply: Reply, n: nat)
    requires Inv(w, s, h) && Enabled(w, s, Answer(reply))
    requires QueueKey(Push, n) in s.client.queue || QueueKey(PushDead, n) in s.client.queue
    ensures var q := Exec(w, s, Answer(reply)).client.queue;
            QueueKey(Push, n) in q || QueueKey(PushDead, n) in q || Accepted(w, s, h, n)
  {
    hide Inv, SettlePushed, Accepted, Enabled;
    AnswerMovesOneEntry(s.client, reply.seqNo, reply.answer);
    var q := Exec(w, s, Answer(reply)).client.queue;
    if QueueKey(Push, n) in s.client.queue && QueueKey(Push, n) !in q && QueueKey(PushDead, n) !in q {
      OutboxLeavesOnReceipt(w, s, h, Answer(reply), n);
    }
  }

  lemma AnswerKeepsPush(w: World, s: Sys, h: Hist, reply: Reply)
    requires PushInv(w, s, h) && Enabled(w, s, Answer(reply))
    ensures PushInv(w, Exec(w, s, Answer(reply)), Record(w, s, h, Answer(reply)))
  {
    hide Inv, SettlePushed, Accepted, Enabled, ScannedSnapped, SnapsAccounted;
    var t := Exec(w, s, Answer(reply));
    ActionKeepsInv(w, s, h, Answer(reply));
    AnswerMovesOneEntry(s.client, reply.seqNo, reply.answer);
    forall n | QueueKey(Push, n) in s.client.queue || QueueKey(PushDead, n) in s.client.queue
      ensures QueueKey(Push, n) in t.client.queue || QueueKey(PushDead, n) in t.client.queue || Accepted(w, s, h, n)
    {
      AnsweredEntry(w, s, h, reply, n);
    }
    AccountsCarryOver(w, s, t, h);
  }

  // ------------------------------------------------------------------
  // Collection
  // ------------------------------------------------------------------

  /** Every scanned entry is taken itself or by a later entry of the window. */
  lemma CollectScans(st: Store, rs: map<Key, RowState>, lo: nat, hi: nat, snap: map<nat, Change>, q: Queue, r: Queue)
    requires ScannedSnapped(st.log, lo, snap) && lo <= hi <= |st.log|
    requires SnapsOk(st.log, lo, snap) && OutboxOk(q, snap)
    requires Gains(q, r, CollectWindow(st, rs, lo, hi))
    ensures ScannedSnapped(st.log, hi, snap + Snapped(q, r))
  {
    var items := CollectWindow(st, rs, lo, hi);
    forall i: nat | i < hi ensures TakenOrSuperseded(st.log, i, hi, snap + Snapped(q, r)) {
      if i < lo {
        assert TakenOrSuperseded(st.log, i, lo, snap);
        var j :| i <= j < lo && st.log[j].key == st.log[i].key && j + 1 in snap;
        assert j + 1 in snap + Snapped(q, r);
      } else {
        var j := LastEntry(st.log, i, hi);
        CollectWindowCovers(st, rs, lo, hi, j);
        hide CollectWindow;
        assert LocalChange(st, rs, j) in items;
        assert QueueKey(Push, j + 1) in r && !IsPull(QueueKey(Push, j + 1));
        assert QueueKey(Push, j + 1) !in q;
        assert j + 1 in LiveSeqs(r, Push);
        assert j + 1 in snap + Snapped(q, r);
      }
    }
  }

  /** Snapshots already taken keep their account; a new one waits in the outbox. */
  lemma CollectAccounts(w: World, s: Sys, t: Sys, h: Hist, h2: Hist)
    requires SnapsAccounted(w, s, h)
    requires t.server == s.server && t.client.epoch == s.client.epoch
    requires forall key | key in s.client.queue :: key in t.client.queue
    requires h2.snap == h.snap + Snapped(s.client.queue, t.client.queue)
    ensures SnapsAccounted(w, t, h2)
  {
    hide StatusOf;
    forall n | n in h2.snap
      ensures QueueKey(Push, n) in t.client.queue || QueueKey(PushDead, n) in t.client.queue || Accepted(w, t, h2, n)
    {
      if n !in Snapped(s.client.queue, t.client.queue) {
        assert Accepted(w, s, h, n) ==> Accepted(w, t, h2, n);
      }
    }
  }

  lemma CollectKeepsScan(w: World, s: Sys, h: Hist, limit: nat)
    requires PushInv(w, s, h)
    ensures var t := ExecCollect(s, limit);
            ScannedSnapped(t.client.store.log, t.client.pushed, h.snap + Snapped(s.client.queue, t.client.queue))
  {
    hide CollectWindow, EnqueueAll, NodeOk, ReceiptsDelivered, InboxOk, FeedOk, PageOk, SentOk, RepliesOk,
      ReceiptsMatch, ClientOk, SnapsOk, OutboxOk, ScannedSnapped, Gains, Snapped, SnapsAccounted, EffectsOnce;
    var c := s.client;
    ScannedIsLogged(c, h.snap);
    var hi := WindowEnd(c.store.log, c.pushed, limit);
    var items := CollectWindow(c.store, c.rowState, c.pushed, hi);
    var r := EnqueueAll(c.queue, Push, items);
    if r.None? {
      NothingSnapped(c.queue);
      assert h.snap + Snapped(c.queue, c.queue) == h.snap;
    } else {
      GainsFromEnqueue(c.queue, items, r.value);
      CollectScans(c.store, c.rowState, c.pushed, hi, h.snap, c.queue, r.value);
    }
  }

  lemma NothingSnapped(q: Queue)
    ensures Snapped(q, q) == map[]
  {
  }

  lemma CollectKeepsPush(w: World, s: Sys, h: Hist, limit: nat)
    requires PushInv(w, s, h)
    ensures PushInv(w, Exec(w, s, Collect(limit)), Record(w, s, h, Collect(limit)))
  {
    hide ExecCollect, Inv, ScannedSnapped, SnapsAccounted, Snapped;
    ActionKeepsInv(w, s, h, Collect(limit));
    CollectOnlyAdds(s, limit);
    CollectKeepsScan(w, s, h, limit);
    CollectAccounts(w, s, Exec(w, s, Collect(limit)), h, Record(w, s, h, Collect(limit)));
  }

  // ------------------------------------------------------------------
  // The remaining actions
  // ------------------------------------------------------------------

  /** Neither receipts nor outbox entries change, and the client's log only grows. */
  ghost predicate PushFrame(s: Sys, t: Sys) {
    && t.server.receipts == s.server.receipts
    && (s.client.epoch.Some? ==> t.client.epoch == s.client.epoch)
    && t.client.pushed == s.client.pushed
    && s.client.store.log <= t.client.store.log
    && (forall key | key in s.client.queue && !IsPull(key) :: key in t.client.queue)
  }

  lemma FrameKeepsPush(w: World, s: Sys, t: Sys, h: Hist, h2: Hist)
    requires PushInv(w, s, h) && Inv(w, t, h2) && PushFrame(s, t)
    requires h2.snap == h.snap && h2.effects == h.effects
    ensures PushInv(w, t, h2)
  {
    hide Inv;
    var log, now := s.client.store.log, t.client.store.log;
    forall i: nat | i < s.client.pushed ensures TakenOrSuperseded(now, i, s.client.pushed, h.snap) {
      assert TakenOrSuperseded(log, i, s.client.pushed, h.snap);
      var j :| i <= j < s.client.pushed && log[j].key == log[i].key && j + 1 in h.snap;
      assert now[j] == log[j] && now[i] == log[i];
    }
    hide TakenOrSuperseded;
    assert forall n :: !IsPull(QueueKey(Push, n)) && !IsPull(QueueKey(PushDead, n));
    AccountsCarryOver(w, s, t, h);
    assert forall n | n in h.snap :: Accepted(w, t, h2, n) == Accepted(w, t, h, n);
  }

  lemma OthersKeepFrame(w: World, s: Sys, h: Hist, a: Action)
    requires Inv(w, s, h) && Enabled(w, s, a) && !a.Deliver? && !a.Answer? && !a.Collect?
    ensures PushFrame(s, Exec(w, s, a))
    ensures Record(w, s, h, a).snap == h.snap && Record(w, s, h, a).effects == h.effects
  {
    hide Inv, Enabled, PullFrame, ReadWindow, ListRetries, WithBases, PullBatch, HandledBy, AuthorAfter;
    if a.ApplyPage? || a.RetryPulls? {
      PullsFrame(w, s, h, a);
      PullFrameIsPushFrame(s, Exec(w, s, a));
      hide PushFrame, ExecApplyPage, ExecRetryPulls;
    }
  }

  lemma PullFrameIsPushFrame(s: Sys, t: Sys)
    requires PullFrame(s, t)
    ensures PushFrame(s, t)
  {
    hide NeverOlder;
  }

  lemma ActionKeepsPush(w: World, s: Sys, h: Hist, a: Action)
    requires PushInv(w, s, h) && Enabled(w, s, a)
    ensures PushInv(w, Exec(w, s, a), Record(w, s, h, a))
  {
    match a {
      case Deliver(m, d) => DeliverKeepsPush(w, s, h, m, d);
      case Answer(reply) => AnswerKeepsPush(w, s, h, reply);
      case Collect(limit) => CollectKeepsPush(w, s, h, limit);
      case _ =>
        hide PushInv, Exec, Record, Enabled, Inv, PushFrame;
        InvOfPush(w, s, h);
        ActionKeepsInv(w, s, h, a);
        OthersKeepFrame(w, s, h, a);
        FrameKeepsPush(w, s, Exec(w, s, a), h, Record(w, s, h, a));
    }
  }

  lemma InvOfPush(w: World, s: Sys, h: Hist)
    requires PushInv(w, s, h)
    ensures Inv(w, s, h) && EffectsOnce(s, h) && SnapsAccounted(w, s, h)
    ensures ScannedSnapped(s.client.store.log, s.client.pushed, h.snap)
  {
  }

  lemma {:induction false} RunKeepsPush(w: World, acts: seq<Action>)
    requires IsRun(w, acts)
    ensures PushInv(w, After(w, acts).0, After(w, acts).1)
  {
    hide Inv, PushInv, Exec, Record, Enabled;
    if acts == [] {
      StartIsOk(w);
      StartPushIsOk(w);
    } else {
      var n := |acts| - 1;
      PrefixIsRun(w, acts, n);
      RunKeepsPush(w, acts[..n]);
      ActionKeepsPush(w, After(w, acts[..n]).0, After(w, acts[..n]).1, acts[n]);
    }
  }

  lemma StartPushIsOk(w: World)
    requires Inv(w, START, NO_HISTORY)
    ensures PushInv(w, START, NO_HISTORY)
  {
    hide Inv;
  }

  // ------------------------------------------------------------------
  // Exactly once
  // ------------------------------------------------------------------

  ghost function HistAfter(w: World, acts: seq<Action>): Hist {
    After(w, acts).1
  }

  /** Whatever is lost, repeated or reordered: no (account, client:epoch, seq) changes the server twice. */
  lemma EachSeqTakesEffectOnce(w: World, acts: seq<Action>, i: nat, j: nat)
    requires IsRun(w, acts) && i < j < |HistAfter(w, acts).effects|
    ensures HistAfter(w, acts).effects[i] != HistAfter(w, acts).effects[j]
  {
    RunKeepsPush(w, acts);
    InvOfPush(w, After(w, acts).0, After(w, acts).1);
  }

  /** All messages ever sent for a seq carry one payload, and no delivery of any of them is refused for
      its payload: the server always answers. */
  lemma PayloadIsFixed(w: World, acts: seq<Action>, a: Message, b: Message, d: Draw)
    requires IsRun(w, acts) && a in SysAfter(w, acts).sent && b in SysAfter(w, acts).sent && d.id != ""
    ensures a.change.seqNo.Some? && a.from == b.from
    ensures a.change.seqNo == b.change.seqNo ==> a.change == b.change
    ensures var s := SysAfter(w, acts);
            ApplyBatch(ServerSession(w), Some(a.from), s.server.store, s.server.receipts, [a.change], i => d).Running?
  {
    RunKeepsInv(w, acts);
    var s, h := After(w, acts).0, After(w, acts).1;
    assert SentOk(w, s.client.epoch, s.sent, h.snap) by { hide SentOk; }
    hide After, IsRun;
    assert a.change == h.snap[a.change.seqNo.value] && b.change == h.snap[b.change.seqNo.value];
    NeverRefused(w, s, h, a, d);
  }

  lemma NeverRefused(w: World, s: Sys, h: Hist, m: Message, d: Draw)
    requires Inv(w, s, h) && m in s.sent
    ensures ApplyBatch(ServerSession(w), Some(m.from), s.server.store, s.server.receipts, [m.change], i => d).Running?
  {
    hide Inv, WireOk, NodeOk, ReceiptsOk, StepRow, ApplyBatch, Contradicts;
    SentIsWhole(w, s, h, m);
    SentNeverContradicts(w, s, h, m);
    SingleBatch(ServerSession(w), Some(m.from), s.server.store, s.server.receipts, m.change, i => d);
    var start := Running(s.server.store, s.server.receipts, EMPTY_OUTCOME);
    StepAborts(ServerSession(w), m.from, start, m.change.table.value, m.change, d);
  }

  /** Every seq the client has scanned is waiting in the outbox, dead-lettered, accepted by the server with
      its payload, or gave way to a later scanned entry of its row for which one of these holds. */
  lemma ScannedSeqIsAccountedFor(w: World, acts: seq<Action>, i: nat)
    requires IsRun(w, acts) && i < SysAfter(w, acts).client.pushed
    ensures var s := SysAfter(w, acts);
            exists j ::
              && i <= j < s.client.pushed <= |s.client.store.log|
                 && s.client.store.log[j].key == s.client.store.log[i].key
              && (QueueKey(Push, j + 1) in s.client.queue || QueueKey(PushDead, j + 1) in s.client.queue
                  || Accepted(w, s, HistAfter(w, acts), j + 1))
  {
    RunKeepsPush(w, acts);
    var s, h := After(w, acts).0, After(w, acts).1;
    InvOfPush(w, s, h);
    hide After, IsRun, Accepted, Inv;
    assert TakenOrSuperseded(s.client.store.log, i, s.client.pushed, h.snap);
  }

  /** At each step of a run, an outbox entry disappears only on an answer, once the server's receipt for
      that seq holds the payload fixed at its snapshot and is not a refusal. */
  lemma OutboxIsDeletedOnReceipt(w: World, acts: seq<Action>, i: nat, n: nat)
    requires IsRun(w, acts) && i < |acts|
    requires QueueKey(Push, n) in SysAfter(w, acts[..i]).client.queue
    requires var q := SysAfter(w, acts[..i + 1]).client.queue; QueueKey(Push, n) !in q && QueueKey(PushDead, n) !in q
    ensures acts[i].Answer? && Accepted(w, SysAfter(w, acts[..i]), HistAfter(w, acts[..i]), n)
  {
    PrefixIsRun(w, acts, i);
    RunKeepsInv(w, acts[..i]);
    assert acts[..i + 1][..i] == acts[..i];
    OutboxLeavesOnReceipt(w, SysAfter(w, acts[..i]), HistAfter(w, acts[..i]), acts[i], n);
  }

  /** A client that starts over under a new epoch is never answered from the receipts of the old one. */
  lemma EpochsHaveTheirOwnReceipts(w: World, a: Id, b: Id, n: nat)
    requires ReceiptKey(PeerOf(w, a), n) == ReceiptKey(PeerOf(w, b), n)
    ensures a == b
  {
    var prefix := w.clientId + ":";
    assert (prefix + a)[|prefix|..] == a && (prefix + b)[|prefix|..] == b;
  }
}
