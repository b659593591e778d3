/** Each transaction and message of the client's cycle as a step of the two-node protocol. */
module SyncDaemonSteps {
  import opened SyncSchema
  import opened SyncStore
  import opened SyncApply
  import opened SyncBatch
  import opened SyncBatchProofs
  import opened SyncQueue
  import opened SyncFeedProofs
  import opened SyncQueueProofs
  import opened TwoNode
  import opened SyncInvariants
  import opened SyncPullProofs
  import opened SyncSafety
  import opened SyncConvergence
  import opened SyncExactlyOnce
  import opened SyncOverwrite
  import opened SyncCursor
  import opened SyncCommits
  import opened SyncProgress
  import opened SyncRetryProgress
  import opened SyncTermination
  import opened SyncGate
  import opened SyncLiveness
  import opened SyncStandstill

  /** An applying batch without a peer neither reads nor writes receipts. */
  lemma {:induction false} NoPeerNoReceipts(x: Session, p: Progress, q: Receipts, work: seq<Change>, draws: nat -> Draw)
    requires p.Running? && forall ch | ch in work :: ch.table.Some?
    ensures Fold(x, None, p, work, draws).Running? && Fold(x, None, p, work, draws).receipts == p.receipts
    ensures Fold(x, None, p.(receipts := q), work, draws) == Fold(x, None, p, work, draws).(receipts := q)
  {
    hide ApplyOne, EffectiveClock, Merge, PartOf, RefusedPart;
    if work != [] {
      NoPeerNoReceipts(x, p, q, work[..|work| - 1], draws);
    }
  }

  lemma PullBatchIgnoresReceipts(w: World, c: Client, receipts: Receipts, changes: seq<Change>, draws: nat -> Draw)
    ensures var q := PullBatch(w, c, changes, draws);
            q.Running?
              && ApplyBatch(ClientSession(w), None, c.store, receipts, changes, draws) == q.(receipts := receipts)
  {
    hide Fold, Having, Ordered, RefuseAll;
    NoPeerNoReceipts(ClientSession(w), Running(c.store, map[], RefuseAll(Having(changes, None))), receipts,
      Ordered(changes), draws);
  }

  /** A scan as a step: the new queue and mark. */
  lemma CollectTaken(w: World, trace: seq<Action>, limit: nat)
    requires IsRun(w, trace)
    ensures var s := SysAfter(w, trace);
            var c := s.client;
            var hi := WindowEnd(c.store.log, c.pushed, limit);
            && c.pushed <= hi <= |c.store.log|
            && IsRun(w, trace + [Collect(limit)])
            && (var r := EnqueueAll(c.queue, Push, CollectWindow(c.store, c.rowState, c.pushed, hi));
                && r.Some?
                && ExecCollect(s, limit) == s.(client := c.(queue := r.value, pushed := hi)))
            && SysAfter(w, trace + [Collect(limit)]) == ExecCollect(s, limit)
  {
    hide SysAfter, HistAfter, IsRun, Inv, CollectWindow, EnqueueAll, Record;
    InvOfRun(w, trace);
    var s := SysAfter(w, trace);
    CollectCommits(w, s, HistAfter(w, trace), limit);
    Extend(w, trace, Collect(limit));
  }

  lemma CollectsIffLogged(st: Store, rs: map<Key, RowState>, lo: nat, hi: nat)
    requires lo <= hi <= |st.log|
    ensures CollectWindow(st, rs, lo, hi) == [] <==> lo == hi
  {
    if lo < hi {
      var last := LastEntry(st.log, lo, hi);
      CollectWindowCovers(st, rs, lo, hi, last);
    }
  }

  lemma EnqueueNothing(q: Queue, changes: seq<Change>)
    ensures EnqueueAll(q, Push, changes[..0]) == Some(q)
  {
  }

  /** When the whole batch can be queued, so can each next change, under its own seq. */
  lemma {:induction false} EnqueueStep(q: Queue, changes: seq<Change>, i: nat)
    requires i < |changes| && EnqueueAll(q, Push, changes).Some?
    ensures changes[i].seqNo.Some? && EnqueueAll(q, Push, changes[..i]).Some?
    ensures EnqueueAll(q, Push, changes[..i + 1])
         == Some(EnqueueAll(q, Push, changes[..i]).value[QueueKey(Push, changes[i].seqNo.value) := changes[i]])
  {
    var n := |changes| - 1;
    if i == n {
      assert changes[..n + 1] == changes;
    } else {
      EnqueueStep(q, changes[..n], i);
      assert changes[..n][..i] == changes[..i] && changes[..n][..i + 1] == changes[..i + 1];
    }
  }

  lemma QueuedIsWhole(w: World, s: Sys, h: Hist, n: nat)
    requires Inv(w, s, h) && QueueKey(Push, n) in s.client.queue
    ensures var ch := s.client.queue[QueueKey(Push, n)];
            ch.seqNo == Some(n) && ch.table.Some? && ch.row.Some?
  {
    hide Inv;
    assert n in LiveSeqs(s.client.queue, Push);
    LivePushIsSnap(w, s, h, n);
    SnapIsScanned(w, s, h, n);
  }

  lemma SendTaken(w: World, trace: seq<Action>, n: nat, newEpoch: Id)
    requires IsRun(w, trace) && QueueKey(Push, n) in SysAfter(w, trace).client.queue
    ensures IsRun(w, trace + [Send(n, newEpoch)])
    ensures SysAfter(w, trace + [Send(n, newEpoch)]) == ExecSend(w, SysAfter(w, trace), n, newEpoch)
    ensures SysAfter(w, trace).client.queue[QueueKey(Push, n)].seqNo == Some(n)
    ensures SysAfter(w, trace).client.queue[QueueKey(Push, n)].table.Some?
    ensures SysAfter(w, trace).client.queue[QueueKey(Push, n)].row.Some?
  {
    hide SysAfter, HistAfter, IsRun, Inv, Record, ExecSend;
    InvOfRun(w, trace);
    Extend(w, trace, Send(n, newEpoch));
    QueuedIsWhole(w, SysAfter(w, trace), HistAfter(w, trace), n);
  }

  /** The server always answers, and the delivery is a step. */
  lemma DeliverTaken(w: World, trace: seq<Action>, m: Message, d: Draw)
    requires IsRun(w, trace) && m in SysAfter(w, trace).sent && d.id != ""
    ensures IsRun(w, trace + [Deliver(m, d)])
    ensures SysAfter(w, trace + [Deliver(m, d)]) == ExecDeliver(w, SysAfter(w, trace), m, d)
    ensures m.change.seqNo.Some?
    ensures var srv := SysAfter(w, trace).server;
            ApplyBatch(ServerSession(w), Some(m.from), srv.store, srv.receipts, [m.change], i => d).Running?
    ensures SysAfter(w, trace).server.store.rows.Keys <= ExecDeliver(w, SysAfter(w, trace), m, d).server.store.rows.Keys
    ensures SysAfter(w, trace).server.store.log <= ExecDeliver(w, SysAfter(w, trace), m, d).server.store.log
  {
    hide SysAfter, HistAfter, IsRun, Inv, Record, ApplyBatch, ExecDeliver;
    InvOfRun(w, trace);
    Extend(w, trace, Deliver(m, d));
    DeliveryGrows(w, SysAfter(w, trace), HistAfter(w, trace), m, d);
  }

  lemma InvOfRun(w: World, trace: seq<Action>)
    requires IsRun(w, trace)
    ensures Inv(w, SysAfter(w, trace), HistAfter(w, trace))
  {
    hide Inv, IsRun;
    RunKeepsInv(w, trace);
  }

  lemma DeliveryGrows(w: World, s: Sys, h: Hist, m: Message, d: Draw)
    requires Inv(w, s, h) && m in s.sent && d.id != ""
    ensures m.change.seqNo.Some?
    ensures ApplyBatch(ServerSession(w), Some(m.from), s.server.store, s.server.receipts, [m.change], i => d).Running?
    ensures s.server.store.rows.Keys <= ExecDeliver(w, s, m, d).server.store.rows.Keys
    ensures s.server.store.log <= ExecDeliver(w, s, m, d).server.store.log
  {
    hide Inv, ApplyBatch, ExecDeliver;
    LogGrowsOnServer(w, s, h, Deliver(m, d));
    NeverRefused(w, s, h, m, d);
    SentIsWhole(w, s, h, m);
    StepKeepsRows(w, s, h, Deliver(m, d));
  }

  lemma AnswerTaken(w: World, trace: seq<Action>, reply: Reply)
    requires IsRun(w, trace) && reply in SysAfter(w, trace).replies
    ensures var s := SysAfter(w, trace);
            && IsRun(w, trace + [Answer(reply)])
            && SysAfter(w, trace + [Answer(reply)]) == s.(client := SettlePushed(s.client, reply.seqNo, reply.answer))
            && (forall n | n != reply.seqNo && QueueKey(Push, n) in s.client.queue ::
                  var q := SettlePushed(s.client, reply.seqNo, reply.answer).queue;
                  QueueKey(Push, n) in q && q[QueueKey(Push, n)] == s.client.queue[QueueKey(Push, n)])
            && (var d := SettlePushed(s.client, reply.seqNo, reply.answer);
                && d.store.rows == s.client.store.rows && d.store.log == s.client.store.log
                && d.pushed == s.client.pushed && d.pulled == s.client.pulled)
  {
    hide SysAfter, HistAfter, IsRun, Inv, Record, SettlePushed;
    Extend(w, trace, Answer(reply));
    AnswerMovesOneEntry(SysAfter(w, trace).client, reply.seqNo, reply.answer);
  }

  /** An answered exchange about a payload whose parent is on the server lowers the measure. */
  lemma ExchangeTaken(w: World, trace: seq<Action>, n: nat, newEpoch: Id, m: Message, d: Draw, answer: Outcome)
    requires IsRun(w, trace) && QueueKey(Push, n) in SysAfter(w, trace).client.queue && d.id != ""
    requires var s0 := SysAfter(w, trace);
             var s1 := ExecSend(w, s0, n, newEpoch);
             var s2 := ExecDeliver(w, s1, m, d);
             && m in s1.sent && m.change == s0.client.queue[QueueKey(Push, n)] && m.change.seqNo == Some(n)
             && Reply(n, answer) in s2.replies
             && (var q := ApplyBatch(ServerSession(w), Some(m.from), s1.server.store, s1.server.receipts, [m.change],
                i => d);
                 q.Running? && q.out == answer)
    ensures var s0 := SysAfter(w, trace);
            var s2 := ExecDeliver(w, ExecSend(w, s0, n, newEpoch), m, d);
            TakesNow(s0.server.store.rows, m.change) ==>
              Falls(s0, s2.(client := SettlePushed(s2.client, n, answer)))
  {
    hide After, IsRun, Inv, ProgInv, ApplyBatch, SettlePushed, Falls, NoRise, Orphan, Record;
    var s0, h0 := SysAfter(w, trace), HistAfter(w, trace);
    RunKeepsProg(w, trace);
    InvOfProg(w, s0, h0);
    var a, b := Send(n, newEpoch), Deliver(m, d);
    var s1, h1 := ExecSend(w, s0, n, newEpoch), Record(w, s0, h0, a);
    StepNeverRises(w, s0, h0, a);
    ActionKeepsProg(w, s0, h0, a);
    assert s1.server == s0.server && s1.client.queue == s0.client.queue;
    hide ExecSend;
    InvOfProg(w, s1, h1);
    var s2, h2 := ExecDeliver(w, s1, m, d), Record(w, s1, h1, b);
    StepNeverRises(w, s1, h1, b);
    ActionKeepsProg(w, s1, h1, b);
    DeliveryIsReceipted(w, s1, h1, m, d);
    InvOfProg(w, s2, h2);
    if TakesNow(s0.server.store.rows, m.change) {
      SentIsWhole(w, s1, h1, m);
      hide ExecDeliver;
      TerminalAnswer(w, s1.server.store, s1.server.receipts, m, d);
      TerminalAnswerFalls(w, s2, h2, Reply(n, answer));
      NoRiseTrans(s0, s1, s2);
      NoRiseTrans(s0, s2, Exec(w, s2, Answer(Reply(n, answer))));
    }
  }

  // ------------------------------------------------------------------
  // Chaining steps
  // ------------------------------------------------------------------

  lemma LiveInQueue(q: Queue)
    ensures forall n | n in LiveSeqs(q, Push) :: QueueKey(Push, n) in q
  {
  }

  lemma StillTakes(rows: map<Key, Row>, now: map<Key, Row>, ch: Change)
    requires rows.Keys <= now.Keys
    ensures TakesNow(rows, ch) ==> TakesNow(now, ch)
  {
  }

  lemma RunNoRise(w: World, before: seq<Action>, now: seq<Action>)
    requires IsRun(w, now) && before <= now && AllProtocol(now[|before|..])
    ensures NoRise(SysAfter(w, before), SysAfter(w, now))
  {
    hide IsRun, NoRise, SysAfter;
    assert before + now[|before|..] == now;
    EditFreeRunNeverRises(w, before, now[|before|..]);
  }

  lemma MoreProtocol(a: seq<Action>, b: seq<Action>, c: seq<Action>)
    requires a <= b <= c && AllProtocol(b[|a|..]) && AllProtocol(c[|b|..])
    ensures AllProtocol(c[|a|..])
  {
    assert c[|a|..] == b[|a|..] + c[|b|..];
  }

  lemma CollectLowers(w: World, trace: seq<Action>, limit: nat)
    requires IsRun(w, trace)
    ensures var s := SysAfter(w, trace);
            && NoRise(s, ExecCollect(s, limit))
            && (limit > 0 && s.client.pushed < |s.client.store.log| ==> Falls(s, ExecCollect(s, limit)))
            && (s.client.pushed == |s.client.store.log| ==> ExecCollect(s, limit) == s)
  {
    hide SysAfter, HistAfter, IsRun, Inv, Falls, NoRise;
    InvOfRun(w, trace);
    CollectFalls(w, SysAfter(w, trace), HistAfter(w, trace), limit);
  }

  // ------------------------------------------------------------------
  // Pull steps
  // ------------------------------------------------------------------

  lemma PageEffect(w: World, s: Sys, h: Hist, draws: nat -> Draw)
    requires Inv(w, s, h) && s.page.Some? && forall i :: draws(i).id != ""
    ensures var changes := WithBases(s.client.rowState, s.page.value.changes);
            var q := PullBatch(w, s.client, changes, draws);
            && q.Running? && Addressed(changes)
            && SettlePage(s.client.(store := q.store), changes, q.out.results).Some?
            && ExecApplyPage(w, s, draws)
               == s.(client := SettlePage(s.client.(store := q.store), changes,
                 q.out.results).value.(pulled := s.page.value.next),
                     page := None)
  {
    hide Inv, PullBatch, SettlePage, WithBases, Addressed, SameItems, DistinctSeqs, NotDead;
    PageBatch(w, s, h, draws);
  }

  lemma PageTaken(w: World, trace: seq<Action>, draws: nat -> Draw)
    requires IsRun(w, trace) && SysAfter(w, trace).page.Some? && forall i :: draws(i).id != ""
    ensures var s := SysAfter(w, trace);
            var changes := WithBases(s.client.rowState, s.page.value.changes);
            var q := PullBatch(w, s.client, changes, draws);
            && q.Running? && Addressed(changes)
            && SettlePage(s.client.(store := q.store), changes, q.out.results).Some?
            && IsRun(w, trace + [ApplyPage(draws)])
            && SysAfter(w, trace + [ApplyPage(draws)])
               == s.(client := SettlePage(s.client.(store := q.store), changes,
                 q.out.results).value.(pulled := s.page.value.next),
                     page := None)
  {
    hide SysAfter, HistAfter, IsRun, Inv, Record, PullBatch, SettlePage, WithBases, Addressed, ExecApplyPage;
    InvOfRun(w, trace);
    Extend(w, trace, ApplyPage(draws));
    PageEffect(w, SysAfter(w, trace), HistAfter(w, trace), draws);
  }

  lemma RetryKeepsMark(w: World, s: Sys, h: Hist, limit: nat, draws: nat -> Draw)
    requires Inv(w, s, h) && forall i :: draws(i).id != ""
    ensures ExecRetryPulls(w, s, limit, draws).client.pulled == s.client.pulled
  {
    hide Inv, PullBatch, SettleRetries, WithBases, ListRetries, ExecRetryPulls, StatusFor, LiveSeqs;
    RetryEffect(w, s, h, limit, draws);
  }

  lemma RetryIsAddressed(w: World, s: Sys, h: Hist, limit: nat)
    requires Inv(w, s, h)
    ensures Addressed(WithBases(s.client.rowState, ListRetries(s.client.queue, Pull, limit)))
  {
    hide Inv, WithBases, ListRetries, AllFromFeed, InboxOk, FeedOk, SeqsNameChanges, SameItem, Addressed;
    InboxAndFeed(w, s, h);
    RetryChangesOk(w, s.client, limit, h.feed);
    AddressedRetries(w, WithBases(s.client.rowState, ListRetries(s.client.queue, Pull, limit)), h.feed);
  }

  lemma RetryIsSettled(w: World, s: Sys, h: Hist, limit: nat, draws: nat -> Draw)
    requires Inv(w, s, h) && forall i :: draws(i).id != ""
    ensures var changes := WithBases(s.client.rowState, ListRetries(s.client.queue, Pull, limit));
            var q := PullBatch(w, s.client, changes, draws);
            && q.Running? && Addressed(changes)
            && ExecRetryPulls(w, s, limit, draws)
               == s.(client := SettleRetries(s.client.(store := q.store), changes, q.out.results))
            && ExecRetryPulls(w, s, limit, draws).client.pulled == s.client.pulled
  {
    RetryIsAddressed(w, s, h, limit);
    RetryKeepsMark(w, s, h, limit, draws);
    hide Inv, PullBatch, SettleRetries, WithBases, ListRetries;
    PullBatchIgnoresReceipts(w, s.client, map[],
      WithBases(s.client.rowState, ListRetries(s.client.queue, Pull, limit)), draws);
  }

  lemma RetryTaken(w: World, trace: seq<Action>, limit: nat, draws: nat -> Draw)
    requires IsRun(w, trace) && forall i :: draws(i).id != ""
    ensures var s := SysAfter(w, trace);
            var changes := WithBases(s.client.rowState, ListRetries(s.client.queue, Pull, limit));
            var q := PullBatch(w, s.client, changes, draws);
            && q.Running? && Addressed(changes)
            && IsRun(w, trace + [RetryPulls(limit, draws)])
            && SysAfter(w, trace + [RetryPulls(limit, draws)]) == ExecRetryPulls(w, s, limit, draws)
            && ExecRetryPulls(w, s, limit, draws)
               == s.(client := SettleRetries(s.client.(store := q.store), changes, q.out.results))
            && ExecRetryPulls(w, s, limit, draws).client.pulled == s.client.pulled
  {
    hide SysAfter, HistAfter, IsRun, Inv, Record, PullBatch, SettleRetries, WithBases, ListRetries, Addressed,
      ExecRetryPulls;
    InvOfRun(w, trace);
    Extend(w, trace, RetryPulls(limit, draws));
    RetryIsSettled(w, SysAfter(w, trace), HistAfter(w, trace), limit, draws);
  }

  lemma SettleNothing(c: Client, changes: seq<Change>, results: seq<Result>)
    requires forall ch | ch in changes :: ch.table.Some? && ch.seqNo.Some?
    ensures SettlePage(c, changes[..0], results) == Some(c) && SettleRetries(c, changes[..0], results) == c
  {
  }

  lemma {:induction false} SettleStep(c: Client, changes: seq<Change>, results: seq<Result>, i: nat)
    requires forall ch | ch in changes :: ch.table.Some? && ch.seqNo.Some?
    requires i < |changes| && SettlePage(c, changes, results).Some?
    ensures changes[i].table.Some? && changes[i].seqNo.Some?
    ensures SettlePage(c, changes[..i], results).Some?
    ensures var b := SettlePage(c, changes[..i], results).value;
            && SettlePaged(b, changes[i], ResultFor(results, changes[i].seqNo)).Some?
            && SettlePage(c, changes[..i + 1], results)
               == SettlePaged(b, changes[i], ResultFor(results, changes[i].seqNo))
  {
    hide SettlePaged, ResultFor;
    var n := |changes| - 1;
    if i == n {
      assert changes[..n + 1] == changes;
    } else {
      SettleStep(c, changes[..n], results, i);
      assert changes[..n][..i] == changes[..i] && changes[..n][..i + 1] == changes[..i + 1];
    }
  }

  lemma RetrySettleStep(c: Client, changes: seq<Change>, results: seq<Result>, i: nat)
    requires forall ch | ch in changes :: ch.table.Some? && ch.seqNo.Some?
    requires i < |changes|
    ensures changes[i].table.Some? && changes[i].seqNo.Some?
    ensures SettleRetries(c, changes[..i + 1], results)
         == SettleRetried(SettleRetries(c, changes[..i], results), changes[i], ResultFor(results, changes[i].seqNo))
  {
    hide SettleRetried, ResultFor;
    assert changes[..i + 1][..i] == changes[..i];
  }

  lemma ReadTaken(w: World, trace: seq<Action>, limit: nat)
    requires IsRun(w, trace)
    ensures var s := SysAfter(w, trace);
            var hi := WindowEnd(s.server.store.log, s.client.pulled, limit);
            && s.client.pulled <= hi <= |s.server.store.log|
            && IsRun(w, trace + [ReadPage(limit)])
            && SysAfter(w, trace + [ReadPage(limit)])
               == s.(page := Some(Page(ReadWindow(s.server.store, w.account, s.client.pulled, hi), hi)))
  {
    hide SysAfter, HistAfter, IsRun, Inv, Record, ReadWindow;
    InvOfRun(w, trace);
    PullSeqsRead(w, SysAfter(w, trace), HistAfter(w, trace));
    Extend(w, trace, ReadPage(limit));
  }

  /** Reading a page beyond the mark and committing it lowers the measure. */
  lemma PageLowers(w: World, trace: seq<Action>, limit: nat, draws: nat -> Draw)
    requires IsRun(w, trace) && forall i :: draws(i).id != ""
    ensures limit > 0 && SysAfter(w, trace).client.pulled < |SysAfter(w, trace).server.store.log| ==>
              Falls(SysAfter(w, trace), SysAfter(w, trace + [ReadPage(limit)] + [ApplyPage(draws)]))
  {
    hide After, IsRun, Inv, ProgInv, Falls, NoRise, ReadWindow, Record, Exec;
    RunKeepsProg(w, trace);
    var s, h := SysAfter(w, trace), HistAfter(w, trace);
    ReadTaken(w, trace, limit);
    InvOfProg(w, s, h);
    StepNeverRises(w, s, h, ReadPage(limit));
    Extend(w, trace, ReadPage(limit));
    var read := trace + [ReadPage(limit)];
    var s1, h1 := SysAfter(w, read), HistAfter(w, read);
    RunKeepsInv(w, read);
    PageFalls(w, s1, h1, draws);
    Extend(w, read, ApplyPage(draws));
    NoRiseTrans(s, s1, SysAfter(w, read + [ApplyPage(draws)]));
  }

  lemma ReadyRetryLowers(w: World, s: Sys, h: Hist, limit: nat, draws: nat -> Draw, e: nat)
    requires ProgInv(w, s, h) && forall i :: draws(i).id != ""
    requires e in SortedPrefix(LiveSeqs(s.client.queue, Pull), limit)
    requires TakesNow(s.client.store.rows, s.client.queue[QueueKey(Pull, e)])
    ensures Falls(s, ExecRetryPulls(w, s, limit, draws))
  {
    hide ProgInv, Inv, Falls, WireOk, LiveSeqs, Orphan, ExecRetryPulls, HasParent, SortedPrefix;
    LivePullIsFed(w, s, h, e);
    InvOfProg(w, s, h);
    RetryOfReadyFalls(w, s, h, e, limit, draws);
  }

  /** Retrying an inbox lowers the measure exactly when a listed entry is ready; otherwise it does nothing. */
  lemma RetryDecides(w: World, trace: seq<Action>, limit: nat, draws: nat -> Draw)
    requires IsRun(w, trace) && forall i :: draws(i).id != ""
    ensures var s := SysAfter(w, trace);
            if ListedTakes(s.client.queue, Pull, limit, s.client.store.rows) then
              SortedPrefix(LiveSeqs(s.client.queue, Pull), limit) != [] && Falls(s, ExecRetryPulls(w, s, limit, draws))
            else ExecRetryPulls(w, s, limit, draws) == s
  {
    hide SysAfter, HistAfter, IsRun, ProgInv, Inv, Falls, LiveSeqs, TakesNow, ExecRetryPulls, SortedPrefix;
    ProgOfRun(w, trace);
    var s, h := SysAfter(w, trace), HistAfter(w, trace);
    LivePullInQueue(s.client.queue);
    if ListedTakes(s.client.queue, Pull, limit, s.client.store.rows) {
      var e :| e in SortedPrefix(LiveSeqs(s.client.queue, Pull), limit)
               && TakesNow(s.client.store.rows, s.client.queue[QueueKey(Pull, e)]);
      ReadyRetryLowers(w, s, h, limit, draws, e);
    } else {
      InvOfProg(w, s, h);
      OrphanRetry(w, s, h, limit, draws);
    }
  }

  lemma LivePullInQueue(q: Queue)
    ensures forall n | n in LiveSeqs(q, Pull) :: QueueKey(Pull, n) in q
  {
  }

  /** A read feed has an empty page. */
  lemma NothingToRead(st: Store, account: Id, limit: nat)
    ensures WindowEnd(st.log, |st.log|, limit) == |st.log| && ReadWindow(st, account, |st.log|, |st.log|) == []
  {
  }

  lemma SameHeldTrans(a: Sys, b: Sys, c: Sys)
    requires SameHeld(a, b) && SameHeld(b, c)
    ensures SameHeld(a, c)
  {
  }

  lemma EditTaken(w: World, trace: seq<Action>, a: Action)
    requires IsRun(w, trace) && Enabled(w, SysAfter(w, trace), a)
    ensures IsRun(w, trace + [a]) && SysAfter(w, trace + [a]) == Exec(w, SysAfter(w, trace), a)
  {
    hide IsRun, SysAfter, HistAfter, Exec, Record, Enabled;
    Extend(w, trace, a);
  }

  /** No step loses a row or a log entry on the client. */
  lemma ClientGrows(w: World, s: Sys, h: Hist, a: Action)
    requires Inv(w, s, h) && Enabled(w, s, a) && (a.ApplyPage? || a.RetryPulls?)
    ensures s.client.store.rows.Keys <= Exec(w, s, a).client.store.rows.Keys
    ensures s.client.store.log <= Exec(w, s, a).client.store.log
  {
    hide Inv, Enabled, Exec;
    StepKeepsRows(w, s, h, a);
    PullsFrame(w, s, h, a);
  }

  lemma PageGrows(w: World, trace: seq<Action>, draws: nat -> Draw)
    requires IsRun(w, trace) && SysAfter(w, trace).page.Some? && forall i :: draws(i).id != ""
    ensures var s, t := SysAfter(w, trace), SysAfter(w, trace + [ApplyPage(draws)]);
            s.client.store.rows.Keys <= t.client.store.rows.Keys && s.client.store.log <= t.client.store.log
  {
    hide SysAfter, HistAfter, IsRun, Inv, Record, ExecApplyPage;
    InvOfRun(w, trace);
    Extend(w, trace, ApplyPage(draws));
    ClientGrows(w, SysAfter(w, trace), HistAfter(w, trace), ApplyPage(draws));
  }

  lemma RetryGrows(w: World, trace: seq<Action>, limit: nat, draws: nat -> Draw)
    requires IsRun(w, trace) && forall i :: draws(i).id != ""
    ensures var s, t := SysAfter(w, trace), SysAfter(w, trace + [RetryPulls(limit, draws)]);
            s.client.store.rows.Keys <= t.client.store.rows.Keys && s.client.store.log <= t.client.store.log
  {
    hide SysAfter, HistAfter, IsRun, Inv, Record, ExecRetryPulls;
    InvOfRun(w, trace);
    Extend(w, trace, RetryPulls(limit, draws));
    ClientGrows(w, SysAfter(w, trace), HistAfter(w, trace), RetryPulls(limit, draws));
  }

  lemma IdleListsNothing(q: Queue, limit: nat, gate: Option<Id>, up: Rows, down: Rows)
    ensures LiveSeqs(q, Push) == {} ==> !PushMoves(q, limit, gate, up) && !ListedForbids(q, limit, gate, up)
    ensures LiveSeqs(q, Pull) == {} ==> !ListedTakes(q, Pull, limit, down)
  {
    hide TakesNow, Forbids;
  }

  // ------------------------------------------------------------------
  // Where the push loop stops
  // ------------------------------------------------------------------

  /** What the server could take, its endpoint does not refuse. */
  lemma TakenPassTheGate(w: World, trace: seq<Action>, gate: Option<Id>)
    requires IsRun(w, trace) && (gate.Some? ==> gate.value == w.account)
    ensures var s := SysAfter(w, trace);
            forall n | n in LiveSeqs(s.client.queue, Push) ::
              && QueueKey(Push, n) in s.client.queue
              && (TakesNow(s.server.store.rows, s.client.queue[QueueKey(Push, n)]) ==>
                    !Forbids(gate, s.server.store.rows, s.client.queue[QueueKey(Push, n)]))
  {
    hide IsRun, SysAfter, TakesNow, LiveSeqs;
    var s := SysAfter(w, trace);
    forall n | n in LiveSeqs(s.client.queue, Push)
      ensures QueueKey(Push, n) in s.client.queue
      ensures TakesNow(s.server.store.rows, s.client.queue[QueueKey(Push, n)]) ==>
                !Forbids(gate, s.server.store.rows, s.client.queue[QueueKey(Push, n)])
    {
      QueuedPushIsForbidden(w, trace, n);
    }
  }

  predicate Takes(s: Sys, n: nat) {
    QueueKey(Push, n) in s.client.queue && TakesNow(s.server.store.rows, s.client.queue[QueueKey(Push, n)])
  }

  predicate Stops(s: Sys, gate: Option<Id>, n: nat) {
    QueueKey(Push, n) in s.client.queue && Forbids(gate, s.server.store.rows, s.client.queue[QueueKey(Push, n)])
  }

  /** The listed outbox of state `s`, in seq order. What the server could take is not refused. */
  ghost predicate Listing(s: Sys, limit: nat, gate: Option<Id>, seqs: seq<nat>) {
    && seqs == SortedPrefix(LiveSeqs(s.client.queue, Push), limit)
    && (forall i, j | 0 <= i < j < |seqs| :: seqs[i] < seqs[j])
    && (forall i | 0 <= i < |seqs| ::
          QueueKey(Push, seqs[i]) in s.client.queue && (Takes(s, seqs[i]) ==> !Stops(s, gate, seqs[i])))
  }

  lemma ListingOf(w: World, trace: seq<Action>, limit: nat, gate: Option<Id>)
    requires IsRun(w, trace) && (gate.Some? ==> gate.value == w.account)
    ensures var s := SysAfter(w, trace); Listing(s, limit, gate, SortedPrefix(LiveSeqs(s.client.queue, Push), limit))
  {
    hide IsRun, SysAfter, TakesNow, Forbids, LiveSeqs;
    var s := SysAfter(w, trace);
    TakenPassTheGate(w, trace, gate);
    SortedPrefixAscends(LiveSeqs(s.client.queue, Push), limit);
    hide SortedPrefix;
    var seqs := SortedPrefix(LiveSeqs(s.client.queue, Push), limit);
    forall i | 0 <= i < |seqs|
      ensures QueueKey(Push, seqs[i]) in s.client.queue && (Takes(s, seqs[i]) ==> !Stops(s, gate, seqs[i]))
    {
      assert seqs[i] in seqs;
    }
  }

  ghost predicate Moves(s: Sys, limit: nat, gate: Option<Id>) {
    PushMoves(s.client.queue, limit, gate, s.server.store.rows)
  }

  ghost predicate Refuses(s: Sys, limit: nat, gate: Option<Id>) {
    ListedForbids(s.client.queue, limit, gate, s.server.store.rows)
  }

  lemma MovesAt(s: Sys, limit: nat, gate: Option<Id>, seqs: seq<nat>, i: nat)
    requires Listing(s, limit, gate, seqs) && i < |seqs| && Takes(s, seqs[i])
    requires forall j | 0 <= j < i :: !Stops(s, gate, seqs[j])
    ensures Moves(s, limit, gate)
  {
    hide TakesNow, Forbids, SortedPrefix, LiveSeqs;
    assert seqs[i] in seqs;
    forall m | m in seqs && m < seqs[i] ensures !Stops(s, gate, m) {
      var j :| 0 <= j < |seqs| && seqs[j] == m;
    }
    assert NoneForbiddenBefore(s.client.queue, limit, gate, s.server.store.rows, seqs[i]);
  }

  /** The loop stops at the first refused entry, having taken none before it. */
  lemma StopsAt(s: Sys, limit: nat, gate: Option<Id>, seqs: seq<nat>, i: nat)
    requires Listing(s, limit, gate, seqs) && i < |seqs| && Stops(s, gate, seqs[i])
    requires forall j | 0 <= j < i :: !Takes(s, seqs[j])
    ensures !Moves(s, limit, gate) && Refuses(s, limit, gate)
  {
    hide TakesNow, Forbids, SortedPrefix, LiveSeqs;
    assert seqs[i] in seqs;
    forall n | n in seqs && Takes(s, n)
      ensures !NoneForbiddenBefore(s.client.queue, limit, gate, s.server.store.rows, n)
    {
      var j :| 0 <= j < |seqs| && seqs[j] == n;
      assert i < j;
    }
  }

  lemma NothingListed(s: Sys, limit: nat, gate: Option<Id>, seqs: seq<nat>)
    requires Listing(s, limit, gate, seqs)
    requires forall j | 0 <= j < |seqs| :: !Takes(s, seqs[j]) && !Stops(s, gate, seqs[j])
    ensures !Moves(s, limit, gate) && !Refuses(s, limit, gate)
  {
    hide TakesNow, Forbids, SortedPrefix, LiveSeqs;
    forall n | n in seqs ensures !Takes(s, n) && !Stops(s, gate, n) {
      var j :| 0 <= j < |seqs| && seqs[j] == n;
    }
  }

  /** How a loop of requests ends: all were answered, one was lost, or the peer refused one. A lost or refused
      request ends the whole cycle. */
  datatype End = Completed | Cut | Refused

  /** What one request about entry `n` comes to while users are quiet. */
  ghost predicate EntryDone(s: Sys, t: Sys, gate: Option<Id>, n: nat, end: End) {
    && (end != Cut ==> (end == Refused <==> Stops(s, gate, n)))
    && (end == Completed && Takes(s, n) ==> Falls(s, t))
    && (end == Refused || !Takes(s, n) ==> SameHeld(s, t))
  }

  /** What one pass over the listed outbox comes to while users are quiet. */
  ghost predicate PushesDone(s: Sys, t: Sys, limit: nat, gate: Option<Id>, end: End) {
    && (end != Cut && Moves(s, limit, gate) ==> Falls(s, t))
    && (!Moves(s, limit, gate) ==> SameHeld(s, t) && (end != Cut ==> (end == Refused <==> Refuses(s, limit, gate))))
  }

  /** The pass before its entry `i`: it has lowered the measure, or it met nothing to take and no refusal. */
  ghost predicate SoFar(s: Sys, t: Sys, limit: nat, gate: Option<Id>, seqs: seq<nat>, i: nat, moved: bool) {
    && i <= |seqs|
    && if moved then Moves(s, limit, gate) && Falls(s, t)
       else SameHeld(s, t) && forall j | 0 <= j < i :: !Takes(s, seqs[j]) && !Stops(s, gate, seqs[j])
  }

  lemma EntryMoves(s: Sys, t: Sys, u: Sys, limit: nat, gate: Option<Id>, seqs: seq<nat>, i: nat, moved: bool, end: End)
    requires Listing(s, limit, gate, seqs) && i < |seqs| && SoFar(s, t, limit, gate, seqs, i, moved)
    requires EntryDone(t, u, gate, seqs[i], end) && NoRise(t, u)
    ensures if end == Completed then SoFar(s, u, limit, gate, seqs, i + 1, moved || Takes(s, seqs[i]))
            else PushesDone(s, u, limit, gate, end)
  {
    hide Falls, NoRise, Moves, Refuses, Listing, TakesNow, Forbids;
    if moved {
      FallsThenNoRise(s, t, u);
    } else {
      SameHeldThen(s, t, u);
      assert Takes(t, seqs[i]) == Takes(s, seqs[i]) && Stops(t, gate, seqs[i]) == Stops(s, gate, seqs[i]);
      if Takes(s, seqs[i]) {
        MovesAt(s, limit, gate, seqs, i);
        assert !Stops(s, gate, seqs[i]) by { TakenIsNotStopped(s, limit, gate, seqs, i); }
      } else if end == Refused {
        StopsAt(s, limit, gate, seqs, i);
      }
    }
  }

  lemma TakenIsNotStopped(s: Sys, limit: nat, gate: Option<Id>, seqs: seq<nat>, i: nat)
    requires Listing(s, limit, gate, seqs) && i < |seqs| && Takes(s, seqs[i])
    ensures !Stops(s, gate, seqs[i])
  {
    hide TakesNow, Forbids, SortedPrefix, LiveSeqs;
  }

  lemma NothingSoFar(s: Sys, limit: nat, gate: Option<Id>, seqs: seq<nat>)
    ensures SoFar(s, s, limit, gate, seqs, 0, false)
  {
  }

  lemma AllPassed(s: Sys, t: Sys, limit: nat, gate: Option<Id>, seqs: seq<nat>, moved: bool)
    requires Listing(s, limit, gate, seqs) && SoFar(s, t, limit, gate, seqs, |seqs|, moved)
    ensures PushesDone(s, t, limit, gate, Completed)
  {
    hide Falls, Moves, Refuses, Listing, Takes, Stops;
    if !moved {
      NothingListed(s, limit, gate, seqs);
    }
  }

  /** What both passes and the scans between them come to while users are quiet. */
  ghost predicate RoundsDone(s: Sys, t: Sys, limit: nat, gate: Option<Id>, end: End) {
    var unscanned := s.client.pushed < |s.client.store.log|;
    && (end != Cut && limit > 0 && (Moves(s, limit, gate) || (!Refuses(s, limit, gate) && unscanned)) ==> Falls(s, t))
    && (!Moves(s, limit, gate) && (Refuses(s, limit, gate) || !unscanned) ==>
          SameHeld(s, t) && (end != Cut ==> (end == Refused <==> Refuses(s, limit, gate))))
  }

  lemma FirstPassOnly(s: Sys, t: Sys, limit: nat, gate: Option<Id>, end: End)
    requires PushesDone(s, t, limit, gate, end) && end != Completed
    ensures RoundsDone(s, t, limit, gate, end)
  {
    hide Falls, Moves, Refuses, SameHeld;
  }

  lemma BothPasses(s: Sys, t: Sys, u: Sys, v: Sys, limit: nat, gate: Option<Id>, end: End)
    requires PushesDone(s, t, limit, gate, Completed) && PushesDone(u, v, limit, gate, end)
    requires NoRise(s, t) && NoRise(t, u) && NoRise(u, v)
    requires t.client.pushed < |t.client.store.log| && limit > 0 ==> Falls(t, u)
    requires t.client.pushed >= |t.client.store.log| ==> u == t
    ensures RoundsDone(s, v, limit, gate, end)
  {
    hide Falls, NoRise, Moves, Refuses, SameHeld;
    NoRiseTrans(s, t, u);
    NoRiseTrans(s, u, v);
    if SameHeld(s, t) {
      SameHeldPushes(s, t, limit, gate);
      if u == t && SameHeld(u, v) { SameHeldTrans(s, t, v); }
    }
  }

  /** The recorded steps of a pass, of the scans after it and of the next pass. */
  lemma PassesAddUp(
    w: World, a: seq<Action>, b: seq<Action>, c: seq<Action>, d: seq<Action>, limit: nat, gate: Option<Id>, end: End)
    requires a <= b <= c <= d && IsRun(w, b) && IsRun(w, c) && IsRun(w, d)
    requires AllProtocol(b[|a|..]) && AllProtocol(c[|b|..]) && AllProtocol(d[|c|..])
    requires PushesDone(SysAfter(w, a), SysAfter(w, b), limit, gate, Completed)
    requires PushesDone(SysAfter(w, c), SysAfter(w, d), limit, gate, end)
    requires var s, t := SysAfter(w, b), SysAfter(w, c);
             && (limit > 0 && s.client.pushed < |s.client.store.log| ==> Falls(s, t))
             && (s.client.pushed == |s.client.store.log| ==> t == s)
    ensures AllProtocol(d[|a|..]) && RoundsDone(SysAfter(w, a), SysAfter(w, d), limit, gate, end)
  {
    hide IsRun, SysAfter, Falls, NoRise, AllProtocol, PushesDone, RoundsDone;
    MarksAreBounded(w, b);
    RunNoRise(w, a, b);
    RunNoRise(w, b, c);
    RunNoRise(w, c, d);
    MoreProtocol(a, b, c);
    MoreProtocol(a, c, d);
    BothPasses(SysAfter(w, a), SysAfter(w, b), SysAfter(w, c), SysAfter(w, d), limit, gate, end);
  }

  lemma IsNoProtocol(trace: seq<Action>)
    ensures AllProtocol(trace[|trace|..])
  {
  }

  lemma SameHeldPushes(s: Sys, t: Sys, limit: nat, gate: Option<Id>)
    requires SameHeld(s, t)
    ensures Moves(t, limit, gate) == Moves(s, limit, gate) && Refuses(t, limit, gate) == Refuses(s, limit, gate)
    ensures t.client.pushed == s.client.pushed && t.client.store.log == s.client.store.log
  {
    hide PushMoves, ListedForbids;
  }

  lemma FallsThenNoRise(a: Sys, b: Sys, c: Sys)
    requires Falls(a, b) && NoRise(b, c)
    ensures Falls(a, c)
  {
    hide Weight;
  }

  /** From a state in which the same is held, the next step falls or not alike. */
  lemma SameHeldThen(a: Sys, b: Sys, c: Sys)
    requires SameHeld(a, b)
    ensures Falls(b, c) ==> Falls(a, c)
    ensures SameHeld(b, c) ==> SameHeld(a, c)
  {
    hide Count;
  }

  lemma NoRiseMeans(s: Sys, t: Sys)
    requires NoRise(s, t)
    ensures Weight(t, false) < Weight(s, false)
            || (Weight(t, false) == Weight(s, false) && Weight(t, true) <= Weight(s, true))
  {
    hide Weight;
  }

  lemma FallsMeans(s: Sys, t: Sys)
    ensures Falls(s, t) ==>
              || Weight(t, false) < Weight(s, false)
              || (Weight(t, false) == Weight(s, false) && Weight(t, true) < Weight(s, true))
  {
    hide Weight;
  }

  /** An answered exchange about one entry: it lowers the measure when the payload's parent is on the server,
      and does nothing otherwise. */
  lemma ExchangeDecides(w: World, trace: seq<Action>, n: nat, newEpoch: Id, m: Message, d: Draw, answer: Outcome)
    requires IsRun(w, trace) && QueueKey(Push, n) in SysAfter(w, trace).client.queue && d.id != ""
    requires var s0 := SysAfter(w, trace);
             var s1 := ExecSend(w, s0, n, newEpoch);
             var s2 := ExecDeliver(w, s1, m, d);
             && m in s1.sent && m.change == s0.client.queue[QueueKey(Push, n)] && m.change.seqNo == Some(n)
             && Reply(n, answer) in s2.replies
             && (var q := ApplyBatch(ServerSession(w), Some(m.from), s1.server.store, s1.server.receipts, [m.change],
                i => d);
                 q.Running? && q.out == answer)
    ensures var s0 := SysAfter(w, trace);
            var s2 := ExecDeliver(w, ExecSend(w, s0, n, newEpoch), m, d);
            if TakesNow(s0.server.store.rows, m.change) then
              Falls(s0, s2.(client := SettlePushed(s2.client, n, answer)))
            else SameHeld(s0, s2) && SettlePushed(s2.client, n, answer) == s2.client
  {
    var s0 := SysAfter(w, trace);
    var s1 := ExecSend(w, s0, n, newEpoch);
    assert s1.server == s0.server && SameHeld(s0, s1);
    hide SysAfter, IsRun, ApplyBatch, SettlePushed, Falls, TakesNow, ExecSend, ExecDeliver;
    ExchangeTaken(w, trace, n, newEpoch, m, d, answer);
    if !TakesNow(s0.server.store.rows, m.change) {
      SendTaken(w, trace, n, newEpoch);
      OrphanExchange(w, trace + [Send(n, newEpoch)], s1, m, d);
      SameHeldTrans(s0, s1, ExecDeliver(w, s1, m, d));
    }
  }
}
