/** Once edits stop, the protocol can always be driven to rest: nothing pending rises, and something falls. */
module SyncTermination {
  import opened SyncSchema
  import opened SyncStore
  import opened SyncApply
  import opened SyncApplyProofs
  import opened SyncEffectProofs
  import opened SyncBatch
  import opened SyncBatchProofs
  import opened SyncQueue
  import opened SyncFeedProofs
  import opened SyncQueueProofs
  import opened TwoNode
  import opened SyncInvariants
  import opened SyncPullProofs
  import opened SyncSafety
  import opened SyncConvergence
  import opened SyncExactlyOnce
  import opened SyncOverwrite
  import opened SyncCursor
  import opened SyncCommits
  import opened SyncProgress
  import opened SyncRetryProgress

  /** Any step but an edit by a user. */
  predicate IsProtocol(a: Action) {
    !a.ClientEdit? && !a.ServerEdit?
  }

  lemma SameWeights(s: Sys, t: Sys)
    requires t.server == s.server && t.client == s.client.(epoch := t.client.epoch)
    ensures NoRise(s, t)
  {
    hide Count;
  }

  /** No protocol step raises what is pending. */
  lemma StepNeverRises(w: World, s: Sys, h: Hist, a: Action)
    requires ProgInv(w, s, h) && Enabled(w, s, a) && IsProtocol(a)
    ensures NoRise(s, Exec(w, s, a))
  {
    hide Inv, NoRise, Falls, Enabled, ParentsKnown, LiveOrReceipted, ReadWindow;
    match a {
      case Deliver(m, d) => DeliverNoRise(w, s, h, m, d);
      case Collect(limit) => CollectFalls(w, s, h, limit);
      case Answer(reply) => AnswerFalls(w, s, h, reply);
      case ApplyPage(draws) => PageFalls(w, s, h, draws);
      case RetryPulls(limit, draws) => RetryFalls(w, s, h, limit, draws);
      case Send(_, _) => SameWeights(s, Exec(w, s, a));
      case ReadPage(_) => SameWeights(s, Exec(w, s, a));
      case Crash => SameWeights(s, Exec(w, s, a));
    }
  }

  // ------------------------------------------------------------------
  // The invariant of the argument
  // ------------------------------------------------------------------

  lemma AnswerNeedsReceipt(w: World, s: Sys, h: Hist, reply: Reply, n: nat)
    requires Inv(w, s, h) && reply in s.replies
    requires QueueKey(Push, n) in s.client.queue
             && QueueKey(Push, n) !in SettlePushed(s.client, reply.seqNo, reply.answer).queue
    ensures n in ReceiptedSeqs(s.server.receipts)
  {
    OnlyTerminalAnswersRetire(s.client, reply.seqNo, reply.answer, n);
    assert ReplyOk(w, s.client.epoch, s.server.receipts, h.snap, reply);
    hide SettlePushed, ClientOk, NodeOk, ReceiptsDelivered, InboxOk, FeedOk, PageOk, SentOk;
    assert ReceiptKey(PeerOf(w, s.client.epoch.value), n) in s.server.receipts;
  }

  lemma FrameKeepsReceipted(s: Sys, t: Sys, h: Hist, h2: Hist)
    requires LiveOrReceipted(s, h) && PushFrame(s, t) && h2.snap == h.snap
    ensures LiveOrReceipted(t, h2)
  {
    hide ReceiptedSeqs;
    assert forall n :: !IsPull(QueueKey(Push, n));
  }

  lemma CollectKeepsReceipted(w: World, s: Sys, h: Hist, limit: nat)
    requires Inv(w, s, h) && LiveOrReceipted(s, h)
    ensures LiveOrReceipted(Exec(w, s, Collect(limit)), Record(w, s, h, Collect(limit)))
  {
    hide Inv, ReceiptedSeqs;
    CollectOnlyAdds(s, limit);
    hide ExecCollect;
  }

  lemma ActionKeepsReceipted(w: World, s: Sys, h: Hist, a: Action)
    requires ProgInv(w, s, h) && Enabled(w, s, a)
    ensures LiveOrReceipted(Exec(w, s, a), Record(w, s, h, a))
  {
    hide Inv, ParentsKnown;
    match a {
      case Deliver(m, d) =>
        DeliveryIsReceipted(w, s, h, m, d);
        ReceiptsGrow(s.server.receipts, Exec(w, s, a).server.receipts);
        hide Exec, AuthorAfter, ReceiptedSeqs;
      case Answer(reply) =>
        hide SettlePushed, ReceiptedSeqs;
        forall n | n in h.snap && QueueKey(Push, n) in s.client.queue
                   && QueueKey(Push, n) !in Exec(w, s, a).client.queue
          ensures n in ReceiptedSeqs(s.server.receipts)
        {
          AnswerNeedsReceipt(w, s, h, reply, n);
        }
      case Collect(limit) => CollectKeepsReceipted(w, s, h, limit);
      case _ =>
        hide Exec, Record, Enabled, LiveOrReceipted, PushFrame;
        OthersKeepFrame(w, s, h, a);
        FrameKeepsReceipted(s, Exec(w, s, a), h, Record(w, s, h, a));
    }
  }

  lemma MoreRowsKeepParents(rows: Rows, now: Rows, ch: Change)
    requires HasParent(rows, ch) && forall k | k in rows :: k in now
    ensures HasParent(now, ch)
  {
  }

  lemma TakenHaveParents(w: World, s: Sys, h: Hist, limit: nat)
    requires Inv(w, s, h)
    ensures var taken := Snapped(s.client.queue, ExecCollect(s, limit).client.queue);
            forall n | n in taken :: HasParent(s.client.store.rows, taken[n])
  {
    var c := s.client;
    CollectCommits(w, s, h, limit);
    var hi := WindowEnd(c.store.log, c.pushed, limit);
    assert c.pushed <= |c.store.log| && NodeOk(w, c.store.rows) && LogStored(c.store);
    hide Inv, CollectWindow, EnqueueAll, HasParent;
    var items := CollectWindow(c.store, c.rowState, c.pushed, hi);
    WindowHasParents(w, c, hi);
    EnqueueAllAdds(c.queue, items);
  }

  lemma WindowHasParents(w: World, c: Client, hi: nat)
    requires NodeOk(w, c.store.rows) && LogStored(c.store) && c.pushed <= hi <= |c.store.log|
    ensures forall ch | ch in CollectWindow(c.store, c.rowState, c.pushed, hi) :: HasParent(c.store.rows, ch)
  {
    CollectWindowItems(c.store, c.rowState, c.pushed, hi);
    hide CollectWindow, LastOfItsRow, Columns, RowOk, ParentStored;
    forall ch | ch in CollectWindow(c.store, c.rowState, c.pushed, hi) ensures HasParent(c.store.rows, ch) {
      var i :| c.pushed <= i < hi && LastOfItsRow(c.store.log, i, hi) && ch == LocalChange(c.store, c.rowState, i);
      assert c.store.log[i].key in c.store.rows;
    }
  }

  lemma ReadHasParents(w: World, st: Store, lo: nat, hi: nat)
    requires NodeOk(w, st.rows) && lo <= hi <= |st.log|
    ensures forall ch | ch in ReadWindow(st, w.account, lo, hi) :: HasParent(st.rows, ch)
  {
    ReadWindowItems(st, w.account, lo, hi);
    hide ReadWindow, InFeed, Columns, RowOk, ParentStored;
    forall ch | ch in ReadWindow(st, w.account, lo, hi) ensures HasParent(st.rows, ch) {
      var i :| lo <= i < hi && InFeed(st, w.account, i, hi) && ch == FeedChange(st, i);
      assert st.log[i].key in st.rows by { InFeedIsStored(st, w.account, i, hi); }
    }
  }

  lemma InFeedIsStored(st: Store, account: Id, i: nat, hi: nat)
    requires i < hi <= |st.log| && InFeed(st, account, i, hi)
    ensures st.log[i].key in st.rows
  {
  }

  lemma StepKeepsRows(w: World, s: Sys, h: Hist, a: Action)
    requires Inv(w, s, h) && Enabled(w, s, a)
    ensures forall k | k in s.client.store.rows :: k in Exec(w, s, a).client.store.rows
    ensures forall k | k in s.server.store.rows :: k in Exec(w, s, a).server.store.rows
  {
    StepNeverGoesBack(w, s, h, a);
    hide Inv, Enabled, Exec;
  }

  lemma ActionKeepsParents(w: World, s: Sys, h: Hist, a: Action)
    requires ProgInv(w, s, h) && Enabled(w, s, a)
    ensures ParentsKnown(Exec(w, s, a), Record(w, s, h, a))
  {
    hide LiveOrReceipted, HasParent, AuthorAfter, HandledBy, PullBatch, WithBases, ListRetries, NodeOk, Enabled, Inv;
    StepKeepsRows(w, s, h, a);
    var t, h2 := Exec(w, s, a), Record(w, s, h, a);
    match a {
      case Collect(limit) => TakenHaveParents(w, s, h, limit);
      case ReadPage(limit) =>
        PullSeqsRead(w, s, h);
        assert NodeOk(w, s.server.store.rows) by { ServerNodeOk(w, s, h); }
        ReadHasParents(w, s.server.store, s.client.pulled, WindowEnd(s.server.store.log, s.client.pulled, limit));
      case _ =>
    }
    hide ReadWindow, Snapped, Exec;
    forall n | n in h.snap ensures HasParent(t.client.store.rows, h.snap[n]) {
      MoreRowsKeepParents(s.client.store.rows, t.client.store.rows, h.snap[n]);
    }
    forall f | f in h.feed ensures HasParent(t.server.store.rows, f) {
      MoreRowsKeepParents(s.server.store.rows, t.server.store.rows, f);
    }
  }

  lemma ServerNodeOk(w: World, s: Sys, h: Hist)
    requires Inv(w, s, h)
    ensures NodeOk(w, s.server.store.rows)
  {
    hide Books, ClientOk, NodeOk, ReceiptsDelivered;
  }

  lemma ActionKeepsProg(w: World, s: Sys, h: Hist, a: Action)
    requires ProgInv(w, s, h) && Enabled(w, s, a)
    ensures ProgInv(w, Exec(w, s, a), Record(w, s, h, a))
  {
    hide Inv, Exec, Record, Enabled, LiveOrReceipted, ParentsKnown;
    ActionKeepsInv(w, s, h, a);
    ActionKeepsReceipted(w, s, h, a);
    ActionKeepsParents(w, s, h, a);
  }

  lemma {:induction false} RunKeepsProg(w: World, acts: seq<Action>)
    requires IsRun(w, acts)
    ensures ProgInv(w, After(w, acts).0, After(w, acts).1)
  {
    hide Inv, ProgInv, Exec, Record, Enabled;
    if acts == [] {
      StartIsOk(w);
      StartProgIsOk(w);
    } else {
      var n := |acts| - 1;
      PrefixIsRun(w, acts, n);
      RunKeepsProg(w, acts[..n]);
      ActionKeepsProg(w, After(w, acts[..n]).0, After(w, acts[..n]).1, acts[n]);
    }
  }

  lemma StartProgIsOk(w: World)
    requires Inv(w, START, NO_HISTORY)
    ensures ProgInv(w, START, NO_HISTORY)
  {
    hide Inv;
  }
}
