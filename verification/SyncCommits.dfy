/** The two-node transactions that may be rolled back never are: collecting and applying a page commit. */
module SyncCommits {
  import opened SyncSchema
  import opened SyncStore
  import opened SyncApply
  import opened SyncBatch
  import opened SyncQueue
  import opened SyncFeedProofs
  import opened SyncQueueProofs
  import opened TwoNode
  import opened SyncInvariants
  import opened SyncPullProofs
  import opened SyncSafety

  lemma {:induction false} EnqueueAllCommits(q: Queue, items: seq<Change>, lo: nat, hi: nat)
    requires Ascending(items, lo, hi)
    requires forall n: nat | n > lo :: QueueKey(Push, n) !in q
    ensures EnqueueAll(q, Push, items).Some?
  {
    if items != [] {
      var n := |items| - 1;
      EnqueueAllCommits(q, items[..n], lo, hi);
      EnqueueAllAdds(q, items[..n]);
      var r := EnqueueAll(q, Push, items[..n]).value;
      var key := QueueKey(Push, items[n].seqNo.value);
      assert forall ch | ch in items[..n] :: ch.seqNo != items[n].seqNo;
      assert key !in r;
    }
  }

  /** A scan always commits: it fixes a payload for every collected change and moves the mark. */
  lemma CollectCommits(w: World, s: Sys, h: Hist, limit: nat)
    requires Inv(w, s, h)
    ensures var c := s.client;
            var hi := WindowEnd(c.store.log, c.pushed, limit);
            && hi <= |c.store.log|
            && EnqueueAll(c.queue, Push, CollectWindow(c.store, c.rowState, c.pushed, hi)).Some?
            && ExecCollect(s, limit).client.pushed == hi
  {
    hide ClientOk, NodeOk, ReceiptsDelivered, InboxOk, FeedOk, PageOk, SentOk, RepliesOk, ReceiptsMatch;
    var c := s.client;
    var hi := WindowEnd(c.store.log, c.pushed, limit);
    hide CollectWindow, EnqueueAll;
    CollectWindowItems(c.store, c.rowState, c.pushed, hi);
    forall n: nat | n > c.pushed ensures QueueKey(Push, n) !in c.queue {
      assert !IsPull(QueueKey(Push, n));
    }
    EnqueueAllCommits(c.queue, CollectWindow(c.store, c.rowState, c.pushed, hi), c.pushed, hi);
  }

  lemma SettlePagedCommits(c: Client, ch: Change, r: Option<Result>)
    requires ch.table.Some? && ch.seqNo.Some? && QueueKey(Pull, ch.seqNo.value) !in c.queue
    ensures SettlePaged(c, ch, r).Some?
  {
    hide Bury, Remember;
  }

  lemma {:induction false} SettlePageCommits(c: Client, changes: seq<Change>, results: seq<Result>)
    requires forall ch | ch in changes ::
      ch.table.Some? && ch.seqNo.Some? && QueueKey(Pull, ch.seqNo.value) !in c.queue && NotDead(c.queue, ch)
    requires DistinctSeqs(changes)
    ensures SettlePage(c, changes, results).Some?
  {
    if changes != [] {
      var n := |changes| - 1;
      var prior, ch := changes[..n], changes[n];
      SettlePageCommits(c, prior, results);
      PageIsHeldOrFinished(c, prior, results);
      hide SettlePaged, ResultFor, Finished, Holds;
      var b := SettlePage(c, prior, results).value;
      var key := QueueKey(Pull, ch.seqNo.value);
      assert ch in changes && IsPull(key);
      assert forall other | other in prior :: other.seqNo != ch.seqNo;
      assert key !in b.queue;
      SettlePagedCommits(b, ch, ResultFor(results, ch.seqNo));
    }
  }

  lemma NewToTheInbox(w: World, s: Sys, h: Hist, ch: Change)
    requires InboxOk(w, s.client.queue, s.client.pulled, h.feed)
    requires ch.seqNo.Some? && ch.seqNo.value > s.client.pulled
    ensures QueueKey(Pull, ch.seqNo.value) !in s.client.queue
  {
    assert IsPull(QueueKey(Pull, ch.seqNo.value));
    hide InFeeds;
  }

  /** A page read from the peer is always committed: no item needs a queue entry to change. */
  lemma PageCommits(w: World, s: Sys, h: Hist, draws: nat -> Draw)
    requires Inv(w, s, h) && Enabled(w, s, ApplyPage(draws))
    ensures var changes := WithBases(s.client.rowState, s.page.value.changes);
            var q := PullBatch(w, s.client, changes, draws);
            && q.Running? && Addressed(changes)
            && SettlePage(s.client.(store := q.store), changes, q.out.results).Some?
  {
    hide PullBatch, SettlePage, WithBases, NodeOk, SentOk, RepliesOk, ReceiptsMatch, FeedOk, ReceiptsDelivered,
      OutboxOk,
      SnapsOk, InFeeds, SeqsNameChanges, DistinctSeqs, NotDead, InboxOk, ClientOk, Ascending, SameItem, Landed,
        NeverOlder;
    var changes := WithBases(s.client.rowState, s.page.value.changes);
    PageChangesOk(w, s, h);
    PullBatchKeepsOk(w, s.client, s.server.store, h, s.page, changes, draws);
    PageSeqsAreNew(w, s, h, changes);
    var q := PullBatch(w, s.client, changes, draws);
    SettlePageCommits(s.client.(store := q.store), changes, q.out.results);
  }

  lemma PageSeqsAreNew(w: World, s: Sys, h: Hist, changes: seq<Change>)
    requires Inv(w, s, h) && s.page.Some? && changes == WithBases(s.client.rowState, s.page.value.changes)
    ensures forall ch | ch in changes :: ch.seqNo.Some? && QueueKey(Pull, ch.seqNo.value) !in s.client.queue
  {
    hide NodeOk, SentOk, RepliesOk, ReceiptsMatch, FeedOk, ReceiptsDelivered, OutboxOk, SnapsOk, ClientOk, InboxOk,
      RowOk;
    var page := s.page.value;
    forall ch | ch in changes ensures ch.seqNo.Some? && QueueKey(Pull, ch.seqNo.value) !in s.client.queue {
      var i :| 0 <= i < |page.changes| && ch == WithBase(s.client.rowState, page.changes[i]);
      assert page.changes[i].seqNo.Some? && page.changes[i].seqNo.value > s.client.pulled;
      NewToTheInbox(w, s, h, ch);
    }
  }
}
