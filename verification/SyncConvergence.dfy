/** Convergence: a difference between the nodes is always on its way, and what remains is the last write. */
module SyncConvergence {
  import opened SyncSchema
  import opened SyncStore
  import opened SyncApply
  import opened SyncApplyProofs
  import opened SyncBatch
  import opened SyncBatchProofs
  import opened SyncQueue
  import opened SyncFeedProofs
  import opened SyncQueueProofs
  import opened TwoNode
  import opened SyncInvariants
  import opened SyncPullProofs
  import opened SyncSafety

  ghost function SysAfter(w: World, acts: seq<Action>): Sys {
    After(w, acts).0
  }

  /** The row waits in a log beyond its mark, or in a queue, live or dead, with the value it has now. */
  ghost predicate OnItsWay(s: Sys, k: Key) {
    var c, srv := s.client, s.server.store;
    || LoggedIn(c.store.log, c.pushed, |c.store.log|, k)
    || LoggedIn(srv.log, c.pulled, |srv.log|, k)
    || (k in c.store.rows && HeldUp(c.queue, k, c.store.rows[k]))
    || (k in srv.rows && HeldDown(c.queue, k, srv.rows[k]))
  }

  /** In every reachable state, a row on which the nodes differ is on its way. */
  lemma DifferenceIsOnItsWay(w: World, acts: seq<Action>, k: Key)
    requires IsRun(w, acts)
    ensures var s := SysAfter(w, acts);
            !SameAt(s.client.store.rows, s.server.store.rows, k) ==> OnItsWay(s, k)
  {
    RunKeepsInv(w, acts);
    var s := SysAfter(w, acts);
    hide IsRun, After, Books, SnapsBound, FeedsBound, NodeOk, LogStored, ReceiptsDelivered, LoggedIn, HeldUp, HeldDown;
    if !SameAt(s.client.store.rows, s.server.store.rows, k) {
      assert ClientAhead(s.client.store.rows, s.server.store.rows, k)
             || ServerAhead(s.client.store.rows, s.server.store.rows, k);
      if k in s.server.store.rows { NothingDelivers(k, s.server.store.rows[k]); }
    }
  }

  /** Both logs are scanned to the end and nothing is queued or dead-lettered. */
  ghost predicate Quiescent(s: Sys) {
    && s.client.pushed == |s.client.store.log|
    && s.client.pulled == |s.server.store.log|
    && s.client.queue == map[]
  }

  /** A quiescent state has the same rows on both nodes. */
  lemma QuiescentNodesAgree(w: World, acts: seq<Action>)
    requires IsRun(w, acts) && Quiescent(SysAfter(w, acts))
    ensures SysAfter(w, acts).client.store.rows == SysAfter(w, acts).server.store.rows
  {
    hide IsRun, After;
    var s := SysAfter(w, acts);
    var cr, sr := s.client.store.rows, s.server.store.rows;
    forall k ensures SameAt(cr, sr, k) {
      DifferenceIsOnItsWay(w, acts, k);
    }
    assert forall k :: k in cr <==> SameAt(cr, sr, k) && k in sr;
  }

  // ------------------------------------------------------------------
  // The last write wins
  // ------------------------------------------------------------------

  ghost predicate Advances(was: Rows, now: Rows) {
    forall k | k in was :: k in now && (now[k] == was[k] || Clk(now[k]) > Clk(was[k]))
  }

  lemma EvolvesAdvances(w: World, st: Store, now: Store, arrived: Option<Change>)
    requires NodeOk(w, st.rows) && Evolves(w, st, now, arrived, false)
    ensures Advances(st.rows, now.rows)
  {
    hide NodeOk, LoggedIn, Carries;
  }

  lemma DeliverAdvances(w: World, s: Sys, h: Hist, m: Message, d: Draw)
    requires Inv(w, s, h) && Enabled(w, s, Deliver(m, d))
    ensures Advances(s.server.store.rows, Exec(w, s, Deliver(m, d)).server.store.rows)
  {
    hide StepRow, ApplyBatch, Evolves, Inv, WireOk, ReceiptsOk, Advances, Has, Answered, Idents;
    var st, receipts, ch := s.server.store, s.server.receipts, m.change;
    SentIsWhole(w, s, h, m);
    SingleBatch(ServerSession(w), Some(m.from), st, receipts, ch, i => d);
    DeliverOne(w, st, receipts, m.from, ch, d);
    var q := StepRow(ServerSession(w), Some(m.from), Running(st, receipts, EMPTY_OUTCOME), ch.table.value, ch, d);
    NoChange(w, st, Some(ch));
    EvolvesAdvances(w, st, st, Some(ch));
    if q.Running? { EvolvesAdvances(w, st, q.store, Some(ch)); }
  }

  /** A pull touches the client's rows, log, inbox and row states, and nothing else. */
  ghost predicate PullFrame(s: Sys, t: Sys) {
    && t.server == s.server && t.sent == s.sent && t.replies == s.replies
    && t.client.pushed == s.client.pushed && t.client.epoch == s.client.epoch
    && s.client.pulled <= t.client.pulled
    && s.client.store.log <= t.client.store.log
    && NeverOlder(s.client.store.rows, t.client.store.rows)
    && (forall key | !IsPull(key) ::
          (key in s.client.queue <==> key in t.client.queue)
          && (key in s.client.queue ==> t.client.queue[key] == s.client.queue[key]))
  }

  lemma SettledFrame(s: Sys, t: Sys, mid: Client, d: Client)
    requires OnlySettled(mid, d) && mid == s.client.(store := mid.store)
    requires s.client.store.log <= mid.store.log && NeverOlder(s.client.store.rows, mid.store.rows)
    requires t == s.(client := d.(pulled := t.client.pulled), page := t.page) && s.client.pulled <= t.client.pulled
    ensures PullFrame(s, t)
  {
  }

  lemma PullsFrame(w: World, s: Sys, h: Hist, a: Action)
    requires Inv(w, s, h) && Enabled(w, s, a) && (a.ApplyPage? || a.RetryPulls?)
    ensures PullFrame(s, Exec(w, s, a))
  {
    var c, srv := s.client, s.server.store;
    hide PullBatch, SettlePage, SettleRetries, ListRetries, WithBases, NodeOk, SentOk, RepliesOk, ReceiptsMatch, FeedOk,
      ReceiptsDelivered, OutboxOk, Covered, SnapsBound, FeedsBound, LogStored, AllFromFeed, SeqsNameChanges, Landed,
        Finished,
      Retires, InFeeds, SnapsOk, InboxOk, NeverOlder, OnlySettled, Ascending;
    var t := Exec(w, s, a);
    BehindTrans(c.store.rows, c.store.rows, c.store.rows, srv.rows);
    match a {
      case ApplyPage(draws) =>
        var changes := WithBases(c.rowState, s.page.value.changes);
        PageChangesOk(w, s, h);
        PullBatchKeepsOk(w, c, srv, h, s.page, changes, draws);
        var q := PullBatch(w, c, changes, draws);
        var mid := c.(store := q.store);
        if Addressed(changes) && SettlePage(mid, changes, q.out.results).Some? {
          PageIsHeldOrFinished(mid, changes, q.out.results);
          SettledFrame(s, t, mid, SettlePage(mid, changes, q.out.results).value);
        }
      case RetryPulls(limit, draws) =>
        var changes := WithBases(c.rowState, ListRetries(c.queue, Pull, limit));
        RetryChangesOk(w, c, limit, h.feed);
        PullBatchKeepsOk(w, c, srv, h, s.page, changes, draws);
        var q := PullBatch(w, c, changes, draws);
        var mid := c.(store := q.store);
        if Addressed(changes) {
          InboxHasOneFate(w, c.queue, c.pulled, h.feed);
          RetriesRetire(mid, changes, q.out.results);
          RetiresSettled(mid, SettleRetries(mid, changes, q.out.results), changes, q.out.results);
          SettledStore(mid, SettleRetries(mid, changes, q.out.results));
          SettledFrame(s, t, mid, SettleRetries(mid, changes, q.out.results));
        }
    }
  }

  lemma InboxHasOneFate(w: World, q: Queue, pulled: nat, feed: set<Change>)
    requires InboxOk(w, q, pulled, feed)
    ensures OneFate(q)
  {
  }

  /** No step takes a row back: the server's rows are replaced only by later ones, the client's never by
      earlier ones. */
  lemma StepNeverGoesBack(w: World, s: Sys, h: Hist, a: Action)
    requires Inv(w, s, h) && Enabled(w, s, a)
    ensures Advances(s.server.store.rows, Exec(w, s, a).server.store.rows)
    ensures NeverOlder(s.client.store.rows, Exec(w, s, a).client.store.rows)
  {
    hide Inv, ApplyBatch, PullBatch, SettlePushed, OutboxMove, ConstraintsHold, ReadWindow, CollectWindow, EnqueueAll,
      Columns;
    match a {
      case Deliver(m, d) => DeliverAdvances(w, s, h, m, d);
      case ApplyPage(_) => PullsFrame(w, s, h, a); hide Exec;
      case RetryPulls(_, _) => PullsFrame(w, s, h, a); hide Exec;
      case Answer(reply) => AnswerMovesOneEntry(s.client, reply.seqNo, reply.answer);
      case _ =>
    }
  }

  lemma PrefixIsRun(w: World, acts: seq<Action>, n: nat)
    requires IsRun(w, acts) && n <= |acts|
    ensures IsRun(w, acts[..n])
  {
    hide After, Enabled;
    assert forall i | 0 <= i < n :: acts[..n][..i] == acts[..i];
  }

  lemma {:induction false} RunNeverGoesBack(w: World, acts: seq<Action>, i: nat)
    requires IsRun(w, acts) && i <= |acts|
    ensures Advances(SysAfter(w, acts[..i]).server.store.rows, SysAfter(w, acts).server.store.rows)
    ensures NeverOlder(SysAfter(w, acts[..i]).client.store.rows, SysAfter(w, acts).client.store.rows)
  {
    hide Inv, Exec, Record, Enabled;
    if i == |acts| {
      assert acts[..i] == acts;
    } else {
      var n := |acts| - 1;
      var before := After(w, acts[..n]);
      PrefixIsRun(w, acts, n);
      assert acts[..n][..i] == acts[..i];
      RunNeverGoesBack(w, acts[..n], i);
      RunKeepsInv(w, acts[..n]);
      StepNeverGoesBack(w, before.0, before.1, acts[n]);
    }
  }

  /** A value of row `k` that some node held at some point of the run. */
  ghost predicate HeldByServer(w: World, acts: seq<Action>, k: Key, row: Row) {
    exists i :: 0 <= i <= |acts| && k in SysAfter(w, acts[..i]).server.store.rows
                && SysAfter(w, acts[..i]).server.store.rows[k] == row
  }

  ghost predicate HeldByClient(w: World, acts: seq<Action>, k: Key, row: Row) {
    exists i :: 0 <= i <= |acts| && k in SysAfter(w, acts[..i]).client.store.rows
                && SysAfter(w, acts[..i]).client.store.rows[k] == row
  }

  /** At rest both nodes hold, for every row that ever existed, the latest of all its values: no value has
      a later clock, and a different value with the same clock was never the server's. */
  lemma QuiescentRowIsLatest(w: World, acts: seq<Action>, k: Key, row: Row)
    requires IsRun(w, acts) && Quiescent(SysAfter(w, acts))
    requires HeldByServer(w, acts, k, row) || HeldByClient(w, acts, k, row)
    ensures var s := SysAfter(w, acts);
            && k in s.server.store.rows && k in s.client.store.rows
            && s.client.store.rows[k] == s.server.store.rows[k]
            && (var last := s.server.store.rows[k];
                && Clk(row) <= Clk(last)
                && (Clk(row) == Clk(last) && row != last ==> !HeldByServer(w, acts, k, row)))
  {
    hide IsRun, SysAfter, Quiescent;
    QuiescentNodesAgree(w, acts);
    forall i | 0 <= i <= |acts|
      ensures Advances(SysAfter(w, acts[..i]).server.store.rows, SysAfter(w, acts).server.store.rows)
      ensures NeverOlder(SysAfter(w, acts[..i]).client.store.rows, SysAfter(w, acts).client.store.rows)
    {
      RunNeverGoesBack(w, acts, i);
    }
  }
}
