/** No silent overwrite: a push that replaces a server-written value without a conflict comes from a client
    that had already handled that value when it took the snapshot. */
module SyncOverwrite {
  import opened SyncSchema
  import opened SyncStore
  import opened SyncApply
  import opened SyncApplyProofs
  import opened SyncBatch
  import opened SyncBatchProofs
  import opened SyncQueue
  import opened SyncFeedProofs
  import opened SyncQueueProofs
  import opened TwoNode
  import opened SyncInvariants
  import opened SyncPullProofs
  import opened SyncSafety
  import opened SyncConvergence
  import opened SyncExactlyOnce

  type Handled = set<(nat, Key, Row)>

  /** Some value of row `k` was handled under server seq `n`. */
  ghost predicate Knows(handled: Handled, k: Key, n: nat) {
    exists row :: (n, k, row) in handled
  }

  ghost predicate FromFeed(feed: set<Change>, n: nat, k: Key, row: Row) {
    exists f :: f in feed && f.seqNo == Some(n) && f.table == Some(k.table) && f.rowId == k.id && f.row == Some(row)
  }

  ghost predicate HandledFromFeed(feed: set<Change>, handled: Handled) {
    forall x | x in handled :: FromFeed(feed, x.0, x.1, x.2)
  }

  /** The peer seq remembered for a row is one under which the row was handled. */
  ghost predicate RowStateKnown(rs: map<Key, RowState>, handled: Handled) {
    forall k | k in rs :: rs[k].peerSeq == 0 || Knows(handled, k, rs[k].peerSeq)
  }

  /** A snapshot claims to build on nothing the client had not handled when it was taken. */
  ghost predicate SnapsKnown(snap: map<nat, Change>, seenAt: map<nat, Handled>, handled: Handled) {
    forall n | n in snap ::
      && n in seenAt && seenAt[n] <= handled && snap[n].table.Some?
      && (snap[n].basePeerSeq.None? ==> snap[n].baseClock.None?)
      && (snap[n].basePeerSeq.Some? && snap[n].basePeerSeq.value > 0 ==>
            Knows(seenAt[n], KeyOf(snap[n]), snap[n].basePeerSeq.value))
  }

  predicate WrittenByServer(author: map<Key, Side>, k: Key) {
    k in author && author[k] == ServerSide
  }

  /** An item read under the row's latest seq carries the server's row, as long as the server wrote it. */
  ghost predicate FeedCurrent(srv: Store, author: map<Key, Side>, feed: set<Change>) {
    forall f | f in feed ::
      && f.table.Some? && f.row.Some? && KeyOf(f) in srv.rows
      && (f.seqNo == Some(LatestSeq(srv.log, KeyOf(f))) && WrittenByServer(author, KeyOf(f)) ==>
            f.row.value == srv.rows[KeyOf(f)])
  }

  ghost predicate AuthorsLogged(srv: Store, author: map<Key, Side>) {
    forall k | k in srv.rows && WrittenByServer(author, k) :: LatestSeq(srv.log, k) > 0
  }

  ghost predicate SeenInv(w: World, s: Sys, h: Hist) {
    && Inv(w, s, h)
    && HandledFromFeed(h.feed, h.handled)
    && RowStateKnown(s.client.rowState, h.handled)
    && SnapsKnown(h.snap, h.seenAt, h.handled)
    && FeedCurrent(s.server.store, h.author, h.feed)
    && AuthorsLogged(s.server.store, h.author)
  }

  // ------------------------------------------------------------------
  // Server steps
  // ------------------------------------------------------------------

  lemma LatestSeqExtends(log: seq<LogEntry>, now: seq<LogEntry>, k: Key)
    requires log <= now
    ensures LatestSeq(log, k) <= |log|
    ensures LatestSeq(now, k) == LatestSeq(log, k) || LatestSeq(now, k) > |log|
    ensures LatestSeq(now, k) > |log| <==> exists i :: |log| <= i < |now| && now[i].key == k
  {
    LatestSeqIsLast(log, k);
    LatestSeqIsLast(now, k);
    var a, b := LatestSeq(log, k), LatestSeq(now, k);
    assert a > 0 ==> now[a - 1] == log[a - 1];
    assert 0 < b <= |log| ==> now[b - 1] == log[b - 1];
  }

  /** A server transaction: rows stay, the log only grows, authors follow the log. */
  lemma ServerStepKeepsCurrent(st: Store, now: Store, author: map<Key, Side>, feed: set<Change>)
    requires st.log <= now.log && forall k | k in st.rows :: k in now.rows
    requires FeedOk(st.log, feed) && FeedCurrent(st, author, feed) && AuthorsLogged(st, author)
    ensures FeedCurrent(now, AuthorAfter(author, st, now), feed) && AuthorsLogged(now, AuthorAfter(author, st, now))
  {
    hide LatestSeq;
    var author2 := AuthorAfter(author, st, now);
    forall k | k in now.rows && WrittenByServer(author2, k) ensures LatestSeq(now.log, k) > 0 {
      LatestSeqExtends(st.log, now.log, k);
    }
    forall f | f in feed && f.seqNo == Some(LatestSeq(now.log, KeyOf(f))) && WrittenByServer(author2, KeyOf(f))
      ensures f.row.value == now.rows[KeyOf(f)]
    {
      LatestSeqExtends(st.log, now.log, KeyOf(f));
    }
  }

  lemma ServerActionKeepsSeen(w: World, s: Sys, h: Hist, a: Action)
    requires SeenInv(w, s, h) && Enabled(w, s, a) && (a.ServerEdit? || a.Deliver?)
    ensures SeenInv(w, Exec(w, s, a), Record(w, s, h, a))
  {
    hide Inv, ExecDeliver, Enabled, EditAllowed, RowStateKnown, SnapsKnown, HandledFromFeed, FeedCurrent,
      AuthorsLogged, AuthorAfter, FeedOk, PutRow;
    var t, h2 := Exec(w, s, a), Record(w, s, h, a);
    ActionKeepsInv(w, s, h, a);
    StepNeverGoesBack(w, s, h, a);
    LogGrowsOnServer(w, s, h, a);
    FeedOkOf(w, s, h);
    ServerStepKeepsCurrent(s.server.store, t.server.store, h.author, h.feed);
    assert a.Deliver? ==> t.client == s.client by {
      if a.Deliver? { DeliveryIsReceipted(w, s, h, a.message, a.draw); }
    }
  }

  lemma FeedOkOf(w: World, s: Sys, h: Hist)
    requires Inv(w, s, h)
    ensures FeedOk(s.server.store.log, h.feed)
  {
    hide ClientOk, NodeOk, ReceiptsDelivered;
  }

  lemma LogGrowsOnServer(w: World, s: Sys, h: Hist, a: Action)
    requires Inv(w, s, h) && Enabled(w, s, a) && (a.ServerEdit? || a.Deliver?)
    ensures s.server.store.log <= Exec(w, s, a).server.store.log
  {
    if a.Deliver? {
      var m, d := a.message, a.draw;
      var st, receipts, ch := s.server.store, s.server.receipts, m.change;
      assert ch == h.snap[ch.seqNo.value] && WireOk(w, ch);
      SingleBatch(ServerSession(w), Some(m.from), st, receipts, ch, i => d);
      DeliverOne(w, st, receipts, m.from, ch, d);
      hide StepRow, ApplyBatch, Inv, WireOk, NodeOk;
    }
  }

  // ------------------------------------------------------------------
  // Pulls
  // ------------------------------------------------------------------

  ghost predicate StateFrom(rs: map<Key, RowState>, now: map<Key, RowState>, handled: Handled) {
    forall k | k in now ::
      now[k].peerSeq == 0 || (k in rs && rs[k].peerSeq == now[k].peerSeq) || Knows(handled, k, now[k].peerSeq)
  }

  lemma StateFromTrans(
    a: map<Key, RowState>, b: map<Key, RowState>, c: map<Key, RowState>, first: Handled, second: Handled, all: Handled)
    requires StateFrom(a, b, first) && StateFrom(b, c, second) && first <= all && second <= all
    ensures StateFrom(a, c, all)
  {
    forall k, n: nat | Knows(first, k, n) || Knows(second, k, n) ensures Knows(all, k, n) {
      if Knows(first, k, n) { var row :| (n, k, row) in first; assert (n, k, row) in all; }
      else { var row :| (n, k, row) in second; assert (n, k, row) in all; }
    }
    hide Knows;
  }

  lemma RememberFrom(rs: map<Key, RowState>, ch: Change, clock: Option<int>, results: seq<Result>)
    requires ch.seqNo.Some? && ch.table.Some? && ch.row.Some?
    requires ResultFor(results, ch.seqNo).Some? && ResultFor(results, ch.seqNo).value.status in {Applied, Skipped}
    ensures StateFrom(rs, Remember(rs, KeyOf(ch), clock, ch.seqNo.value), HandledBy([ch], results))
  {
    assert [ch][0] == ch;
    assert (ch.seqNo.value, KeyOf(ch), ch.row.value) in HandledBy([ch], results);
  }

  lemma PagedStateFrom(c: Client, ch: Change, results: seq<Result>)
    requires ch.seqNo.Some? && ch.table.Some? && ch.row.Some?
    requires SettlePaged(c, ch, ResultFor(results, ch.seqNo)).Some?
    ensures StateFrom(c.rowState, SettlePaged(c, ch, ResultFor(results, ch.seqNo)).value.rowState,
            HandledBy([ch], results))
  {
    var r := ResultFor(results, ch.seqNo);
    hide HandledBy, ResultFor, Remember, Enqueue, Bury;
    if r.Some? && r.value.status != Deferred && r.value.status != Rejected {
      var clock := if ClockOf(ch.row.value).Some? then ClockOf(ch.row.value) else r.value.clock;
      RememberFrom(c.rowState, ch, clock, results);
      hide StateFrom;
    }
  }

  lemma RetriedStateFrom(c: Client, ch: Change, results: seq<Result>)
    requires ch.seqNo.Some? && ch.table.Some? && ch.row.Some?
    ensures StateFrom(c.rowState, SettleRetried(c, ch, ResultFor(results, ch.seqNo)).rowState, HandledBy([ch], results))
  {
    var r := ResultFor(results, ch.seqNo);
    hide HandledBy, ResultFor, Remember, Bury;
    if r.Some? && r.value.status != Deferred && r.value.status != Rejected {
      var clock := if ClockOf(ch.row.value).Some? then ClockOf(ch.row.value) else r.value.clock;
      RememberFrom(c.rowState, ch, clock, results);
      hide StateFrom;
    }
  }

  lemma HandledByParts(prior: seq<Change>, ch: Change, results: seq<Result>)
    ensures HandledBy(prior, results) <= HandledBy(prior + [ch], results)
    ensures HandledBy([ch], results) <= HandledBy(prior + [ch], results)
  {
    hide ResultFor;
    var all := prior + [ch];
    forall x | x in HandledBy(prior, results) ensures x in HandledBy(all, results) {
      var i :| 0 <= i < |prior| && prior[i].seqNo.Some? && prior[i].table.Some? && prior[i].row.Some?
               && ResultFor(results, prior[i].seqNo).Some?
               && ResultFor(results, prior[i].seqNo).value.status in {Applied, Skipped}
               && x == (prior[i].seqNo.value, Key(prior[i].table.value, prior[i].rowId), prior[i].row.value);
      assert all[i] == prior[i];
      assert x == (all[i].seqNo.value, Key(all[i].table.value, all[i].rowId), all[i].row.value);
    }
    assert all[|prior|] == ch;
  }

  ghost predicate Whole(changes: seq<Change>) {
    forall ch | ch in changes :: ch.table.Some? && ch.seqNo.Some? && ch.row.Some?
  }

  lemma {:induction false} PageStateFrom(c: Client, changes: seq<Change>, results: seq<Result>)
    requires Whole(changes) && SettlePage(c, changes, results).Some?
    ensures StateFrom(c.rowState, SettlePage(c, changes, results).value.rowState, HandledBy(changes, results))
  {
    if changes != [] {
      var n := |changes| - 1;
      assert changes == changes[..n] + [changes[n]];
      var b := SettlePage(c, changes[..n], results).value;
      PageStateFrom(c, changes[..n], results);
      PagedStateFrom(b, changes[n], results);
      HandledByParts(changes[..n], changes[n], results);
      hide StateFrom, HandledBy, SettlePaged;
      StateFromTrans(c.rowState, b.rowState, SettlePage(c, changes, results).value.rowState,
                     HandledBy(changes[..n], results), HandledBy([changes[n]], results), HandledBy(changes, results));
    }
  }

  lemma {:induction false} RetryStateFrom(c: Client, changes: seq<Change>, results: seq<Result>)
    requires Whole(changes)
    ensures StateFrom(c.rowState, SettleRetries(c, changes, results).rowState, HandledBy(changes, results))
  {
    if changes != [] {
      var n := |changes| - 1;
      assert changes == changes[..n] + [changes[n]];
      var b := SettleRetries(c, changes[..n], results);
      RetryStateFrom(c, changes[..n], results);
      RetriedStateFrom(b, changes[n], results);
      HandledByParts(changes[..n], changes[n], results);
      hide StateFrom, HandledBy, SettleRetried;
      StateFromTrans(c.rowState, b.rowState, SettleRetries(c, changes, results).rowState,
                     HandledBy(changes[..n], results), HandledBy([changes[n]], results), HandledBy(changes, results));
    }
  }

  lemma FeedIsWhole(w: World, changes: seq<Change>, feed: set<Change>, results: seq<Result>)
    requires AllFromFeed(w, changes, feed)
    ensures Whole(changes) && HandledFromFeed(feed, HandledBy(changes, results))
  {
    hide RowOk, ResultFor;
    forall ch | ch in changes ensures FromFeed(feed, ch.seqNo.value, KeyOf(ch), ch.row.value) {
      assert InFeeds(w, Some(ch), feed);
    }
    forall x | x in HandledBy(changes, results) ensures FromFeed(feed, x.0, x.1, x.2) {
      var i :| 0 <= i < |changes| && changes[i].seqNo.Some? && changes[i].table.Some? && changes[i].row.Some?
               && x == (changes[i].seqNo.value, Key(changes[i].table.value, changes[i].rowId), changes[i].row.value);
      assert changes[i] in changes;
    }
  }

  lemma MoreHandled(rs: map<Key, RowState>, now: map<Key, RowState>, h: Hist, more: Handled)
    requires RowStateKnown(rs, h.handled) && StateFrom(rs, now, more)
    requires SnapsKnown(h.snap, h.seenAt, h.handled)
    requires HandledFromFeed(h.feed, h.handled) && HandledFromFeed(h.feed, more)
    ensures RowStateKnown(now, h.handled + more)
    ensures SnapsKnown(h.snap, h.seenAt, h.handled + more)
    ensures HandledFromFeed(h.feed, h.handled + more)
  {
    hide FromFeed;
    forall k, n: nat | Knows(h.handled, k, n) || Knows(more, k, n) ensures Knows(h.handled + more, k, n) {
      if Knows(more, k, n) { var row :| (n, k, row) in more; assert (n, k, row) in h.handled + more; }
      else { var row :| (n, k, row) in h.handled; assert (n, k, row) in h.handled + more; }
    }
    hide Knows;
  }

  /** What a pull adds to what was handled covers every row state it sets. */
  ghost predicate PullExplained(s: Sys, t: Sys, h: Hist, h2: Hist, more: Handled) {
    && t.server == s.server && h2 == h.(handled := h.handled + more)
    && StateFrom(s.client.rowState, t.client.rowState, more) && HandledFromFeed(h.feed, more)
  }

  lemma PageIsExplained(w: World, s: Sys, h: Hist, draws: nat -> Draw) returns (more: Handled)
    requires Inv(w, s, h) && Enabled(w, s, ApplyPage(draws)) && Exec(w, s, ApplyPage(draws)).client != s.client
    ensures PullExplained(s, Exec(w, s, ApplyPage(draws)), h, Record(w, s, h, ApplyPage(draws)), more)
  {
    hide PullBatch, SettlePage, WithBases, AllFromFeed, HandledBy, StateFrom, HandledFromFeed, Whole, Inv, SameItem,
      DistinctSeqs, SeqsNameChanges, NotDead;
    PageChangesOk(w, s, h);
    var changes := WithBases(s.client.rowState, s.page.value.changes);
    var q := PullBatch(w, s.client, changes, draws);
    more := HandledBy(changes, q.out.results);
    FeedIsWhole(w, changes, h.feed, q.out.results);
    PageStateFrom(s.client.(store := q.store), changes, q.out.results);
  }

  lemma RetryIsExplained(w: World, s: Sys, h: Hist, limit: nat, draws: nat -> Draw) returns (more: Handled)
    requires Inv(w, s, h) && Exec(w, s, RetryPulls(limit, draws)).client != s.client
    ensures PullExplained(s, Exec(w, s, RetryPulls(limit, draws)), h, Record(w, s, h, RetryPulls(limit, draws)), more)
  {
    hide PullBatch, SettleRetries, ListRetries, WithBases, AllFromFeed, HandledBy, StateFrom, HandledFromFeed, Whole,
      Inv, InboxOk, SameItem, SeqsNameChanges;
    InboxOkOf(w, s, h);
    RetryChangesOk(w, s.client, limit, h.feed);
    var changes := WithBases(s.client.rowState, ListRetries(s.client.queue, Pull, limit));
    var q := PullBatch(w, s.client, changes, draws);
    more := HandledBy(changes, q.out.results);
    FeedIsWhole(w, changes, h.feed, q.out.results);
    RetryStateFrom(s.client.(store := q.store), changes, q.out.results);
  }

  lemma ExplainedKeepsSeen(w: World, s: Sys, t: Sys, h: Hist, h2: Hist, more: Handled)
    requires SeenInv(w, s, h) && Inv(w, t, h2) && PullExplained(s, t, h, h2, more)
    ensures SeenInv(w, t, h2)
  {
    hide Inv, FeedCurrent, AuthorsLogged, StateFrom, RowStateKnown, SnapsKnown, HandledFromFeed;
    MoreHandled(s.client.rowState, t.client.rowState, h, more);
  }

  lemma PullKeepsSeen(w: World, s: Sys, h: Hist, a: Action)
    requires SeenInv(w, s, h) && Enabled(w, s, a) && (a.ApplyPage? || a.RetryPulls?)
    ensures SeenInv(w, Exec(w, s, a), Record(w, s, h, a))
  {
    hide Inv, PullBatch, SettlePage, SettleRetries, ListRetries, WithBases, FeedCurrent, AuthorsLogged, RowStateKnown,
      SnapsKnown, HandledFromFeed, HandledBy, PullExplained, Enabled;
    ActionKeepsInv(w, s, h, a);
    if Exec(w, s, a).client != s.client {
      var more;
      match a {
        case ApplyPage(draws) => more := PageIsExplained(w, s, h, draws);
        case RetryPulls(limit, draws) => more := RetryIsExplained(w, s, h, limit, draws);
      }
      hide Exec, Record, SeenInv;
      ExplainedKeepsSeen(w, s, Exec(w, s, a), h, Record(w, s, h, a), more);
    }
  }

  lemma InboxOkOf(w: World, s: Sys, h: Hist)
    requires Inv(w, s, h)
    ensures InboxOk(w, s.client.queue, s.client.pulled, h.feed)
  {
    hide ClientOk, NodeOk, ReceiptsDelivered, InboxOk;
  }

  // ------------------------------------------------------------------
  // Reading, collecting, answers
  // ------------------------------------------------------------------

  lemma ReadKeepsSeen(w: World, s: Sys, h: Hist, limit: nat)
    requires SeenInv(w, s, h)
    ensures SeenInv(w, Exec(w, s, ReadPage(limit)), Record(w, s, h, ReadPage(limit)))
  {
    ActionKeepsInv(w, s, h, ReadPage(limit));
    var st := s.server.store;
    var hi := WindowEnd(st.log, s.client.pulled, limit);
    hide Inv, SnapsKnown, RowStateKnown, AuthorsLogged;
    ReadsTheRow(w, s, h, hi);
    hide ReadWindow, FromFeed;
    var h2 := Record(w, s, h, ReadPage(limit));
    assert h.feed <= h2.feed;
    forall x | x in h.handled ensures FromFeed(h2.feed, x.0, x.1, x.2) {
      MoreFeedFrom(h.feed, h2.feed, x.0, x.1, x.2);
    }
  }

  lemma MoreFeedFrom(feed: set<Change>, more: set<Change>, n: nat, k: Key, row: Row)
    requires FromFeed(feed, n, k, row) && feed <= more
    ensures FromFeed(more, n, k, row)
  {
  }

  lemma ReadsTheRow(w: World, s: Sys, h: Hist, hi: nat)
    requires Inv(w, s, h) && hi <= |s.server.store.log|
    ensures s.client.pulled <= hi ==>
      forall f | f in ReadWindow(s.server.store, w.account, s.client.pulled, hi) ::
        f.table.Some? && KeyOf(f) in s.server.store.rows && f.row == Some(s.server.store.rows[KeyOf(f)])
  {
    if s.client.pulled <= hi {
      ReadWindowItems(s.server.store, w.account, s.client.pulled, hi);
      hide ReadWindow, Inv;
    }
  }

  ghost predicate CarryBases(taken: map<nat, Change>, handled: Handled) {
    forall n | n in taken ::
      && taken[n].table.Some?
      && (taken[n].basePeerSeq.None? ==> taken[n].baseClock.None?)
      && (taken[n].basePeerSeq.Some? && taken[n].basePeerSeq.value > 0 ==>
            Knows(handled, KeyOf(taken[n]), taken[n].basePeerSeq.value))
  }

  lemma TakenAreKnown(snap: map<nat, Change>, seenAt: map<nat, Handled>, handled: Handled, taken: map<nat, Change>)
    requires SnapsKnown(snap, seenAt, handled) && CarryBases(taken, handled)
    ensures SnapsKnown(snap + taken, seenAt + map n | n in taken :: handled, handled)
  {
    hide Knows;
  }

  lemma CollectKeepsSeen(w: World, s: Sys, h: Hist, limit: nat)
    requires SeenInv(w, s, h)
    ensures SeenInv(w, Exec(w, s, Collect(limit)), Record(w, s, h, Collect(limit)))
  {
    hide Inv, ExecCollect, HandledFromFeed, FeedCurrent, AuthorsLogged, RowStateKnown, Snapped, SnapsKnown, CarryBases;
    ActionKeepsInv(w, s, h, Collect(limit));
    CollectOnlyAdds(s, limit);
    TakenCarryBases(w, s, h, limit);
    TakenAreKnown(h.snap, h.seenAt, h.handled, Snapped(s.client.queue, ExecCollect(s, limit).client.queue));
  }

  /** Each newly taken payload carries what is remembered about its row. */
  lemma TakenCarryBases(w: World, s: Sys, h: Hist, limit: nat)
    requires Inv(w, s, h) && RowStateKnown(s.client.rowState, h.handled)
    ensures ExecCollect(s, limit).client.rowState == s.client.rowState
    ensures CarryBases(Snapped(s.client.queue, ExecCollect(s, limit).client.queue), h.handled)
  {
    var c, t := s.client, ExecCollect(s, limit);
    var hi := WindowEnd(c.store.log, c.pushed, limit);
    assert c.pushed <= |c.store.log|;
    hide Inv, CollectWindow, EnqueueAll, Knows;
    var items := CollectWindow(c.store, c.rowState, c.pushed, hi);
    CollectWindowItems(c.store, c.rowState, c.pushed, hi);
    if EnqueueAll(c.queue, Push, items).Some? { EnqueueAllAdds(c.queue, items); }
    forall n | n in Snapped(c.queue, t.client.queue)
      ensures exists i ::
                0 <= i < |c.store.log| && t.client.queue[QueueKey(Push, n)] == LocalChange(c.store, c.rowState, i)
    {
    }
  }

  lemma AnswerStateFrom(c: Client, n: nat, answer: Outcome)
    ensures StateFrom(c.rowState, SettlePushed(c, n, answer).rowState, {})
  {
    hide Bury, Knows;
  }

  lemma StateStaysKnown(rs: map<Key, RowState>, now: map<Key, RowState>, handled: Handled)
    requires RowStateKnown(rs, handled) && StateFrom(rs, now, {})
    ensures RowStateKnown(now, handled)
  {
    assert forall k, n: nat :: !Knows({}, k, n);
    hide Knows;
  }

  lemma AnswerKeepsSeen(w: World, s: Sys, h: Hist, reply: Reply)
    requires SeenInv(w, s, h) && Enabled(w, s, Answer(reply))
    ensures SeenInv(w, Exec(w, s, Answer(reply)), Record(w, s, h, Answer(reply)))
  {
    hide Inv, HandledFromFeed, FeedCurrent, AuthorsLogged, SnapsKnown, RowStateKnown, StateFrom, SettlePushed, Enabled;
    ActionKeepsInv(w, s, h, Answer(reply));
    AnswerStateFrom(s.client, reply.seqNo, reply.answer);
    StateStaysKnown(s.client.rowState, SettlePushed(s.client, reply.seqNo, reply.answer).rowState, h.handled);
  }

  lemma ActionKeepsSeen(w: World, s: Sys, h: Hist, a: Action)
    requires SeenInv(w, s, h) && Enabled(w, s, a)
    ensures SeenInv(w, Exec(w, s, a), Record(w, s, h, a))
  {
    hide Inv;
    match a {
      case ServerEdit(_, _) => ServerActionKeepsSeen(w, s, h, a);
      case Deliver(_, _) => ServerActionKeepsSeen(w, s, h, a);
      case ApplyPage(_) => PullKeepsSeen(w, s, h, a);
      case RetryPulls(_, _) => PullKeepsSeen(w, s, h, a);
      case ReadPage(limit) => ReadKeepsSeen(w, s, h, limit);
      case Collect(limit) => CollectKeepsSeen(w, s, h, limit);
      case Answer(reply) => AnswerKeepsSeen(w, s, h, reply);
      case ClientEdit(_, _) => LocalKeepsSeen(w, s, h, a);
      case Send(_, _) => LocalKeepsSeen(w, s, h, a);
      case Crash => LocalKeepsSeen(w, s, h, a);
    }
  }

  lemma LocalKeepsSeen(w: World, s: Sys, h: Hist, a: Action)
    requires SeenInv(w, s, h) && Enabled(w, s, a) && (a.ClientEdit? || a.Send? || a.Crash?)
    ensures SeenInv(w, Exec(w, s, a), Record(w, s, h, a))
  {
    ActionKeepsInv(w, s, h, a);
    hide Inv, Enabled, HandledFromFeed, FeedCurrent, AuthorsLogged, SnapsKnown, RowStateKnown;
  }

  lemma {:induction false} RunKeepsSeen(w: World, acts: seq<Action>)
    requires IsRun(w, acts)
    ensures SeenInv(w, After(w, acts).0, After(w, acts).1)
  {
    hide Inv, SeenInv, Exec, Record, Enabled;
    if acts == [] {
      StartIsOk(w);
      StartSeenIsOk(w);
    } else {
      var n := |acts| - 1;
      PrefixIsRun(w, acts, n);
      RunKeepsSeen(w, acts[..n]);
      ActionKeepsSeen(w, After(w, acts[..n]).0, After(w, acts[..n]).1, acts[n]);
    }
  }

  lemma StartSeenIsOk(w: World)
    requires Inv(w, START, NO_HISTORY)
    ensures SeenInv(w, START, NO_HISTORY)
  {
    hide Inv;
  }

  // ------------------------------------------------------------------
  // The theorem
  // ------------------------------------------------------------------

  /** A row the client never agreed on with its peer always counts as diverged. */
  lemma UnknownRowAlwaysDiverges(
    x: Session, st: Store, rs: map<Key, RowState>, i: nat, log: seq<LogEntry>, incoming: int, existing: Option<int>)
    requires i < |st.log| && st.log[i].key !in rs
    ensures TrueDivergence(x, log, st.log[i].key, LocalChange(st, rs, i), incoming, existing)
  {
  }

  /** Applying a push that reports no conflict over an existing row means the row was not written since
      the base the push names. */
  lemma SilentMeansKnownBase(x: Session, st: Store, ch: Change, d: Draw)
    requires x.applying && x.side == ClientSide && ch.table.Some? && ch.row.Some?
    requires ch.basePeerSeq.None? ==> ch.baseClock.None?
    requires KeyOf(ch) in st.rows
    requires ApplyOne(x, st, ch.table.value, ch, d).Done?
    requires ApplyOne(x, st, ch.table.value, ch, d).out.conflict.None?
    requires !SameAt(st.rows, ApplyOne(x, st, ch.table.value, ch, d).store.rows, KeyOf(ch))
    ensures ch.basePeerSeq.Some? && LatestSeq(st.log, KeyOf(ch)) <= ch.basePeerSeq.value
  {
    hide FindDuplicates, ConstraintsHold, PreserveText, RowsEquivalent, IncomingWins, LatestSeq, FilterRow;
  }

  /** If a delivered push replaces a value the server wrote, and the answer reports no conflict, then the
      client had already applied or skipped that very value when it took the snapshot. */
  lemma NoSilentOverwrite(w: World, acts: seq<Action>, m: Message, d: Draw, k: Key)
    requires IsRun(w, acts) && Enabled(w, SysAfter(w, acts), Deliver(m, d))
    requires var s := SysAfter(w, acts);
             && k in s.server.store.rows && WrittenByServer(HistAfter(w, acts).author, k)
             && !SameAt(s.server.store.rows, Exec(w, s, Deliver(m, d)).server.store.rows, k)
    requires var s := SysAfter(w, acts);
             var q := ApplyBatch(ServerSession(w), Some(m.from), s.server.store, s.server.receipts, [m.change], i => d);
             q.Running? ==> q.out.conflicts == []
    ensures var s, h := SysAfter(w, acts), HistAfter(w, acts);
            && m.change.seqNo.Some? && m.change.seqNo.value in h.seenAt
            && exists n :: (n, k, s.server.store.rows[k]) in h.seenAt[m.change.seqNo.value]
  {
    hide SysAfter, HistAfter, IsRun, Exec, ApplyBatch, SeenInv;
    SeenOfRun(w, acts);
    var s, h := SysAfter(w, acts), HistAfter(w, acts);
    var n := ReplacedRowIsKnown(w, s, h, m, d, k);
    CurrentIsKnown(w, s, h, m.change, k, n);
  }

  lemma SeenOfRun(w: World, acts: seq<Action>)
    requires IsRun(w, acts)
    ensures SeenInv(w, SysAfter(w, acts), HistAfter(w, acts))
  {
    hide SeenInv, IsRun;
    RunKeepsSeen(w, acts);
  }

  lemma SentIsSnap(w: World, s: Sys, h: Hist, m: Message)
    requires SeenInv(w, s, h) && m in s.sent
    ensures var ch := m.change;
            && ch.seqNo.Some? && ch.seqNo.value in h.snap && ch == h.snap[ch.seqNo.value]
            && ch.table.Some? && ch.row.Some?
            && (ch.basePeerSeq.None? ==> ch.baseClock.None?)
  {
    assert WireOk(w, m.change);
    hide ClientOk, NodeOk, ReceiptsDelivered, RowStateKnown, HandledFromFeed, FeedCurrent, AuthorsLogged, Knows;
  }

  /** A single delivery that changes row `k` and reports no conflict is a silent application of the message. */
  lemma SilentDelivery(w: World, st: Store, receipts: Receipts, m: Message, d: Draw, k: Key)
    requires m.change.table.Some? && m.change.row.Some? && k in st.rows
    requires var q := ApplyBatch(ServerSession(w), Some(m.from), st, receipts, [m.change], i => d);
             q.Running? && q.out.conflicts == [] && !SameAt(st.rows, q.store.rows, k)
    ensures var a := ApplyOne(ServerSession(w), st, m.change.table.value, m.change, d);
            && k == KeyOf(m.change) && a.Done? && a.out.conflict.None? && !SameAt(st.rows, a.store.rows, k)
  {
    var x, ch := ServerSession(w), m.change;
    SingleBatch(x, Some(m.from), st, receipts, ch, i => d);
    hide ApplyBatch, ApplyOne, EffectiveClock, LatestSeq;
    var a := ApplyOne(x, st, ch.table.value, ch, d);
    if a.Done? {
      ApplyTouchesTwoRows(x, st, ch.table.value, ch, d);
      EmptyMerge(PartOf(ch.table.value, ch, a.out, a.store.rows));
      hide SameAt, FreshVersion;
    }
  }

  lemma ChangedByBatch(w: World, s: Sys, m: Message, d: Draw, k: Key)
    requires !SameAt(s.server.store.rows, Exec(w, s, Deliver(m, d)).server.store.rows, k)
    ensures var q := ApplyBatch(ServerSession(w), Some(m.from), s.server.store, s.server.receipts, [m.change], i => d);
            q.Running? && !SameAt(s.server.store.rows, q.store.rows, k)
  {
    hide ApplyBatch;
  }

  lemma ReplacedRowIsKnown(w: World, s: Sys, h: Hist, m: Message, d: Draw, k: Key) returns (n: nat)
    requires SeenInv(w, s, h) && m in s.sent
    requires k in s.server.store.rows && WrittenByServer(h.author, k)
    requires !SameAt(s.server.store.rows, Exec(w, s, Deliver(m, d)).server.store.rows, k)
    requires var q := ApplyBatch(ServerSession(w), Some(m.from), s.server.store, s.server.receipts, [m.change], i => d);
             q.Running? ==> q.out.conflicts == []
    ensures m.change.table.Some? && k == KeyOf(m.change) && m.change.seqNo.Some? && m.change.seqNo.value in h.snap
    ensures m.change == h.snap[m.change.seqNo.value] && m.change.basePeerSeq == Some(n)
    ensures n > 0 && LatestSeq(s.server.store.log, k) <= n
  {
    SentIsSnap(w, s, h, m);
    assert LatestSeq(s.server.store.log, k) > 0 by { hide Inv, LatestSeq, RowStateKnown, HandledFromFeed, FeedCurrent; }
    hide SeenInv, ApplyBatch, ApplyOne, LatestSeq;
    ChangedByBatch(w, s, m, d, k);
    hide Exec, SameAt;
    SilentDelivery(w, s.server.store, s.server.receipts, m, d, k);
    SilentMeansKnownBase(ServerSession(w), s.server.store, m.change, d);
    n := m.change.basePeerSeq.value;
  }

  lemma CurrentIsKnown(w: World, s: Sys, h: Hist, ch: Change, k: Key, n: nat)
    requires SeenInv(w, s, h)
    requires ch.seqNo.Some? && ch.seqNo.value in h.snap && ch == h.snap[ch.seqNo.value]
    requires ch.table.Some? && k == KeyOf(ch) && ch.basePeerSeq == Some(n) && n > 0
    requires k in s.server.store.rows && WrittenByServer(h.author, k) && LatestSeq(s.server.store.log, k) <= n
    ensures ch.seqNo.value in h.seenAt && (n, k, s.server.store.rows[k]) in h.seenAt[ch.seqNo.value]
  {
    hide Inv, LatestSeq, RowStateKnown, AuthorsLogged;
    FeedOkOf(w, s, h);
    var seen := h.seenAt[ch.seqNo.value];
    assert Knows(seen, k, n) && seen <= h.handled;
    var row :| (n, k, row) in seen;
    assert FromFeed(h.feed, n, k, row);
    hide SnapsKnown, HandledFromFeed, Knows;
    FeedRowIsCurrent(s.server.store, h.author, h.feed, n, k, row);
  }

  lemma FeedRowIsCurrent(st: Store, author: map<Key, Side>, feed: set<Change>, n: nat, k: Key, row: Row)
    requires FeedOk(st.log, feed) && FeedCurrent(st, author, feed) && FromFeed(feed, n, k, row)
    requires k in st.rows && WrittenByServer(author, k) && LatestSeq(st.log, k) <= n
    ensures row == st.rows[k]
  {
    var f :| f in feed && f.seqNo == Some(n) && f.table == Some(k.table) && f.rowId == k.id && f.row == Some(row);
    assert KeyOf(f) == k && st.log[n - 1].key == k;
    LatestSeqIsLast(st.log, k);
    hide LatestSeq;
    assert LatestSeq(st.log, k) == n;
  }
}
