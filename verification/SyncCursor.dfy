/** The pull cursor: what lies behind it was handled or is still held, and no dead letter is silent. */
module SyncCursor {
  import opened SyncSchema
  import opened SyncStore
  import opened SyncApply
  import opened SyncApplyProofs
  import opened SyncBatch
  import opened SyncBatchProofs
  import opened SyncQueue
  import opened SyncFeedProofs
  import opened SyncQueueProofs
  import opened TwoNode
  import opened SyncInvariants
  import opened SyncPullProofs
  import opened SyncSafety
  import opened SyncConvergence
  import opened SyncExactlyOnce
  import opened SyncOverwrite

  /** Server seq `n` was applied, skipped, or is in the inbox, live or dead. */
  ghost predicate Received(q: Queue, handled: Handled, k: Key, n: nat) {
    Knows(handled, k, n) || QueueKey(Pull, n) in q || QueueKey(PullDead, n) in q
  }

  /** Entry `i` was received itself or gave way to a later received entry of its row, behind the cursor. */
  ghost predicate ReceivedOrSuperseded(log: seq<LogEntry>, i: nat, pulled: nat, q: Queue, handled: Handled)
    requires i < |log|
  {
    exists j :: i <= j < pulled <= |log| && log[j].key == log[i].key && Received(q, handled, log[j].key, j + 1)
  }

  ghost predicate BehindCursor(log: seq<LogEntry>, pulled: nat, q: Queue, handled: Handled) {
    pulled <= |log| && forall i: nat | i < pulled :: ReceivedOrSuperseded(log, i, pulled, q, handled)
  }

  ghost predicate ItemFor(changes: seq<Change>, n: nat) {
    exists ch :: ch in changes && ch.seqNo == Some(n)
  }

  ghost predicate InPage(log: seq<LogEntry>, i: nat, next: nat, changes: seq<Change>)
    requires i < |log|
  {
    exists j :: i <= j < next <= |log| && log[j].key == log[i].key && ItemFor(changes, j + 1)
  }

  /** The page in memory has an item for, or superseding, every entry it would move the cursor over. */
  ghost predicate PageComplete(log: seq<LogEntry>, pulled: nat, page: Option<Page>) {
    page.Some? ==>
      page.value.next <= |log|
      && forall i: nat | pulled <= i < page.value.next :: InPage(log, i, page.value.next, page.value.changes)
  }

  predicate IsDead(key: QueueKey) {
    key.direction == PullDead || key.direction == PushDead
  }

  /** Every dead letter has its unresolved issue. */
  ghost predicate DeadNoted(q: Queue, issues: set<Issue>) {
    forall key | key in q && IsDead(key) :: q[key].table.Some? && DeadLetterIssue(q[key]) in issues
  }

  ghost predicate CursorInv(w: World, s: Sys, h: Hist) {
    && SeenInv(w, s, h)
    && LogStored(s.server.store)
    && BehindCursor(s.server.store.log, s.client.pulled, s.client.queue, h.handled)
    && PageComplete(s.server.store.log, s.client.pulled, s.page)
    && DeadNoted(s.client.queue, s.client.store.issues)
  }

  // ------------------------------------------------------------------
  // Issues are only added
  // ------------------------------------------------------------------

  lemma ApplyKeepsIssues(x: Session, st: Store, t: Table, ch: Change, d: Draw)
    requires ApplyOne(x, st, t, ch, d).Done?
    ensures st.issues <= ApplyOne(x, st, t, ch, d).store.issues
  {
    hide FindDuplicates, ConstraintsHold, RowsEquivalent, TrueDivergence, IncomingWins, HasVersionText;
  }

  lemma {:induction false} FoldKeepsIssues(x: Session, p: Progress, work: seq<Change>, draws: nat -> Draw)
    requires p.Running? && forall ch | ch in work :: ch.table.Some?
    ensures Fold(x, None, p, work, draws).Running? && p.store.issues <= Fold(x, None, p, work, draws).store.issues
  {
    hide ApplyOne, EffectiveClock, Merge, PartOf, RefusedPart;
    if work != [] {
      var n := |work| - 1;
      FoldKeepsIssues(x, p, work[..n], draws);
      var b := Fold(x, None, p, work[..n], draws);
      if ApplyOne(x, b.store, work[n].table.value, work[n], draws(n)).Done? {
        ApplyKeepsIssues(x, b.store, work[n].table.value, work[n], draws(n));
      }
    }
  }

  // ------------------------------------------------------------------
  // Settling notes dead letters
  // ------------------------------------------------------------------

  lemma BuryNoted(q: Queue, direction: Direction, n: nat, ch: Change, issues: set<Issue>)
    requires DeadNoted(q, issues) && ch.table.Some? && (direction == Push || direction == Pull)
    requires QueueKey(direction, n) in q ==>
      q[QueueKey(direction, n)].table == ch.table && q[QueueKey(direction, n)].rowId == ch.rowId
    ensures DeadNoted(Bury(q, direction, n), issues + {DeadLetterIssue(ch)})
  {
  }

  lemma MoreIssues(q: Queue, issues: set<Issue>, more: set<Issue>)
    requires DeadNoted(q, issues) && issues <= more
    ensures DeadNoted(q, more)
  {
  }

  lemma PagedNoted(c: Client, ch: Change, r: Option<Result>)
    requires DeadNoted(c.queue, c.store.issues) && ch.table.Some? && ch.seqNo.Some?
    requires SettlePaged(c, ch, r).Some?
    ensures var d := SettlePaged(c, ch, r).value; DeadNoted(d.queue, d.store.issues)
  {
    hide Remember;
    if (r.None? || r.value.status == Deferred || r.value.status == Rejected) && Enqueue(c.queue, Pull, ch).Some? {
      var q := Enqueue(c.queue, Pull, ch).value;
      assert DeadNoted(q, c.store.issues);
      BuryNoted(q, Pull, ch.seqNo.value, ch, c.store.issues);
      hide Bury, DeadNoted;
    }
  }

  lemma {:induction false} PageNoted(c: Client, changes: seq<Change>, results: seq<Result>)
    requires forall ch | ch in changes :: ch.table.Some? && ch.seqNo.Some?
    requires DeadNoted(c.queue, c.store.issues) && SettlePage(c, changes, results).Some?
    ensures var d := SettlePage(c, changes, results).value; DeadNoted(d.queue, d.store.issues)
  {
    hide SettlePaged, DeadNoted, ResultFor;
    if changes != [] {
      var n := |changes| - 1;
      PageNoted(c, changes[..n], results);
      PagedNoted(SettlePage(c, changes[..n], results).value, changes[n], ResultFor(results, changes[n].seqNo));
    }
  }

  /** The queued entry, if any, is about the row of the change that retries it. */
  ghost predicate Names(q: Queue, changes: seq<Change>) {
    forall ch, key: QueueKey | ch in changes && key in q && key.direction == Pull && ch.seqNo == Some(key.seqNo) ::
      q[key].table == ch.table && q[key].rowId == ch.rowId
  }

  lemma RetriedNoted(c: Client, ch: Change, r: Option<Result>, changes: seq<Change>)
    requires DeadNoted(c.queue, c.store.issues) && ch.table.Some? && ch.seqNo.Some?
    requires Names(c.queue, changes) && ch in changes
    ensures var d := SettleRetried(c, ch, r); DeadNoted(d.queue, d.store.issues) && Names(d.queue, changes)
  {
    hide Remember;
    BuryNoted(c.queue, Pull, ch.seqNo.value, ch, c.store.issues);
  }

  lemma {:induction false} RetriesNoted(c: Client, changes: seq<Change>, results: seq<Result>, all: seq<Change>)
    requires forall ch | ch in changes :: ch.table.Some? && ch.seqNo.Some? && ch in all
    requires DeadNoted(c.queue, c.store.issues) && Names(c.queue, all)
    ensures var d := SettleRetries(c, changes, results); DeadNoted(d.queue, d.store.issues) && Names(d.queue, all)
  {
    hide SettleRetried, DeadNoted, Names, ResultFor;
    if changes != [] {
      var n := |changes| - 1;
      RetriesNoted(c, changes[..n], results, all);
      RetriedNoted(SettleRetries(c, changes[..n], results), changes[n], ResultFor(results, changes[n].seqNo), all);
    }
  }

  /** A push refused by the server is noted under the row it is about. */
  lemma AnswerNoted(c: Client, n: nat, answer: Outcome, ch: Change)
    requires DeadNoted(c.queue, c.store.issues) && ch.table.Some?
    requires Answered(answer.results) == Idents([ch])
    requires QueueKey(Push, n) in c.queue ==> c.queue[QueueKey(Push, n)] == ch
    ensures var d := SettlePushed(c, n, answer); DeadNoted(d.queue, d.store.issues)
  {
    assert |Answered(answer.results)| == 1;
    assert Answered(answer.results)[0] == Idents([ch])[0];
    var d := SettlePushed(c, n, answer);
    var mirrored := answer.duplicates + set i | 0 <= i < |answer.conflicts| ::
        Issue(ConflictIssue, answer.conflicts[i].ref, None);
    MoreIssues(c.queue, c.store.issues, c.store.issues + mirrored);
    BuryNoted(c.queue, Push, n, ch, c.store.issues + mirrored);
    hide Remember, Bury;
    assert c.store.issues <= d.store.issues;
  }

  // ------------------------------------------------------------------
  // The cursor
  // ------------------------------------------------------------------

  lemma ReceivedGrows(
    log: seq<LogEntry>, now: seq<LogEntry>, pulled: nat, q: Queue, r: Queue, handled: Handled, more: Handled)
    requires BehindCursor(log, pulled, q, handled) && log <= now && handled <= more
    requires forall n: nat | n <= pulled && (QueueKey(Pull, n) in q || QueueKey(PullDead, n) in q) ::
      QueueKey(Pull, n) in r || QueueKey(PullDead, n) in r || (0 < n <= |log| && Knows(more, log[n - 1].key, n))
    ensures BehindCursor(now, pulled, r, more)
  {
    forall i: nat | i < pulled ensures ReceivedOrSuperseded(now, i, pulled, r, more) {
      assert ReceivedOrSuperseded(log, i, pulled, q, handled);
      var j :| i <= j < pulled <= |log| && log[j].key == log[i].key && Received(q, handled, log[j].key, j + 1);
      KnowsMore(handled, more, log[j].key, j + 1);
      assert now[j] == log[j] && now[i] == log[i];
      assert Received(r, more, log[j].key, j + 1);
    }
  }

  lemma KnowsMore(handled: Handled, more: Handled, k: Key, n: nat)
    requires handled <= more
    ensures Knows(handled, k, n) ==> Knows(more, k, n)
  {
    if Knows(handled, k, n) {
      var row :| (n, k, row) in handled;
      assert (n, k, row) in more;
    }
  }

  lemma PageStaysComplete(log: seq<LogEntry>, now: seq<LogEntry>, pulled: nat, page: Option<Page>)
    requires PageComplete(log, pulled, page) && log <= now
    ensures PageComplete(now, pulled, page)
  {
    if page.Some? {
      forall i: nat | pulled <= i < page.value.next ensures InPage(now, i, page.value.next, page.value.changes) {
        assert InPage(log, i, page.value.next, page.value.changes);
        var j :| i <= j < page.value.next <= |log| && log[j].key == log[i].key && ItemFor(page.value.changes, j + 1);
        assert now[j] == log[j] && now[i] == log[i];
      }
    }
  }

  lemma ReadIsComplete(w: World, st: Store, lo: nat, hi: nat)
    requires NodeOk(w, st.rows) && lo <= hi <= |st.log|
    requires LogStored(st)
    ensures PageComplete(st.log, lo, Some(Page(ReadWindow(st, w.account, lo, hi), hi)))
  {
    var items := ReadWindow(st, w.account, lo, hi);
    forall i: nat | lo <= i < hi ensures InPage(st.log, i, hi, items) {
      var j := LastEntry(st.log, i, hi);
      EverythingVisible(w, st, st.log[j].key);
      ReadWindowCovers(st, w.account, lo, hi, j);
      hide ReadWindow;
      assert FeedChange(st, j).seqNo == Some(j + 1);
      assert ItemFor(items, j + 1);
    }
  }

  // ------------------------------------------------------------------
  // Each action
  // ------------------------------------------------------------------

  lemma ServerKeepsStored(w: World, s: Sys, h: Hist, a: Action)
    requires Inv(w, s, h) && Enabled(w, s, a) && (a.ServerEdit? || a.Deliver?) && LogStored(s.server.store)
    ensures LogStored(Exec(w, s, a).server.store)
  {
    var st := s.server.store;
    match a {
      case ServerEdit(k, row) =>
        EditEvolves(w, st, k, row);
        EvolvesKeepsLogStored(w, st, PutRow(st, false, k, row), None, false);
        hide Evolves, Inv;
      case Deliver(m, d) =>
        var receipts, ch := s.server.receipts, m.change;
        assert ch == h.snap[ch.seqNo.value] && WireOk(w, ch);
        SingleBatch(ServerSession(w), Some(m.from), st, receipts, ch, i => d);
        DeliverOne(w, st, receipts, m.from, ch, d);
        hide StepRow, ApplyBatch, Inv, WireOk, NodeOk, Evolves, LogStored;
        var q := StepRow(ServerSession(w), Some(m.from), Running(st, receipts, EMPTY_OUTCOME), ch.table.value, ch, d);
        if q.Running? { EvolvesKeepsLogStored(w, st, q.store, Some(ch), false); }
    }
  }

  lemma ServerKeepsCursor(w: World, s: Sys, h: Hist, a: Action)
    requires CursorInv(w, s, h) && Enabled(w, s, a) && (a.ServerEdit? || a.Deliver?)
    ensures CursorInv(w, Exec(w, s, a), Record(w, s, h, a))
  {
    hide Inv, ExecDeliver, Enabled, EditAllowed, BehindCursor, PageComplete, DeadNoted, LogStored, AuthorAfter,
      RowStateKnown, SnapsKnown, HandledFromFeed, FeedCurrent, AuthorsLogged;
    var t := Exec(w, s, a);
    ActionKeepsSeen(w, s, h, a);
    ServerKeepsStored(w, s, h, a);
    LogGrowsOnServer(w, s, h, a);
    if a.Deliver? {
      DeliveryIsReceipted(w, s, h, a.message, a.draw);
      PageIsKept(w, s, a.message, a.draw);
    }
    hide SeenInv, PutRow;
    ReceivedGrows(s.server.store.log, t.server.store.log, s.client.pulled, s.client.queue, s.client.queue, h.handled,
      h.handled);
    PageStaysComplete(s.server.store.log, t.server.store.log, s.client.pulled, s.page);
  }

  lemma PageIsKept(w: World, s: Sys, m: Message, d: Draw)
    ensures ExecDeliver(w, s, m, d).page == s.page && ExecDeliver(w, s, m, d).client == s.client
  {
    hide ApplyBatch;
  }

  lemma LocalKeepsCursor(w: World, s: Sys, h: Hist, a: Action)
    requires CursorInv(w, s, h) && Enabled(w, s, a) && (a.ClientEdit? || a.Send? || a.Crash?)
    ensures CursorInv(w, Exec(w, s, a), Record(w, s, h, a))
  {
    ActionKeepsSeen(w, s, h, a);
    hide SeenInv, Enabled, BehindCursor, DeadNoted, LogStored;
  }

  lemma ReadKeepsCursor(w: World, s: Sys, h: Hist, limit: nat)
    requires CursorInv(w, s, h)
    ensures CursorInv(w, Exec(w, s, ReadPage(limit)), Record(w, s, h, ReadPage(limit)))
  {
    ActionKeepsSeen(w, s, h, ReadPage(limit));
    var st := s.server.store;
    var hi := WindowEnd(st.log, s.client.pulled, limit);
    NodesOk(w, s, h);
    hide SeenInv, BehindCursor, DeadNoted, LogStored, NodeOk, PageComplete, ReadWindow;
    assert s.client.pulled <= |st.log| by { CursorInLog(st.log, s.client.pulled, s.client.queue, h.handled); }
    ReadIsComplete(w, st, s.client.pulled, hi);
  }

  lemma CursorInLog(log: seq<LogEntry>, pulled: nat, q: Queue, handled: Handled)
    requires BehindCursor(log, pulled, q, handled)
    ensures pulled <= |log|
  {
  }

  lemma NodesOk(w: World, s: Sys, h: Hist)
    requires SeenInv(w, s, h)
    ensures NodeOk(w, s.server.store.rows) && FeedOk(s.server.store.log, h.feed)
    ensures ClientOk(w, s.client, s.server.store, h, s.page) && InboxOk(w, s.client.queue, s.client.pulled, h.feed)
    ensures OutboxOk(s.client.queue, h.snap)
  {
    hide ClientOk, NodeOk, ReceiptsDelivered, InboxOk, FeedOk, OutboxOk, RowStateKnown, SnapsKnown, HandledFromFeed,
      FeedCurrent, AuthorsLogged;
  }

  lemma CollectKeepsCursor(w: World, s: Sys, h: Hist, limit: nat)
    requires CursorInv(w, s, h)
    ensures CursorInv(w, Exec(w, s, Collect(limit)), Record(w, s, h, Collect(limit)))
  {
    hide SeenInv, BehindCursor, LogStored, PageComplete, ReceivedOrSuperseded, Snapped;
    ActionKeepsSeen(w, s, h, Collect(limit));
    CollectOnlyAdds(s, limit);
    CollectLeavesPulls(s, limit);
    hide ExecCollect;
    var t := Exec(w, s, Collect(limit));
    ReceivedGrows(s.server.store.log, s.server.store.log, s.client.pulled, s.client.queue, t.client.queue, h.handled,
      h.handled);
  }

  lemma CollectLeavesPulls(s: Sys, limit: nat)
    ensures var t := ExecCollect(s, limit);
            && t.page == s.page && t.client.pulled == s.client.pulled
            && forall key | key in t.client.queue && key !in s.client.queue :: key.direction == Push
  {
    hide CollectWindow, EnqueueAll;
    var c := s.client;
    var hi := WindowEnd(c.store.log, c.pushed, limit);
    if hi <= |c.store.log| {
      var items := CollectWindow(c.store, c.rowState, c.pushed, hi);
      if EnqueueAll(c.queue, Push, items).Some? { EnqueueAllAdds(c.queue, items); }
    }
  }

  lemma OutboxHolds(q: Queue, snap: map<nat, Change>, n: nat)
    requires OutboxOk(q, snap)
    ensures QueueKey(Push, n) in q ==> n in snap && q[QueueKey(Push, n)] == snap[n]
  {
    assert !IsPull(QueueKey(Push, n));
  }

  lemma AnswerSystem(w: World, s: Sys, h: Hist, reply: Reply)
    ensures Exec(w, s, Answer(reply)) == s.(client := SettlePushed(s.client, reply.seqNo, reply.answer))
    ensures Record(w, s, h, Answer(reply)) == h
  {
    hide SettlePushed;
  }

  lemma AnswerKeepsCursor(w: World, s: Sys, h: Hist, reply: Reply)
    requires CursorInv(w, s, h) && Enabled(w, s, Answer(reply))
    ensures CursorInv(w, Exec(w, s, Answer(reply)), Record(w, s, h, Answer(reply)))
  {
    hide SeenInv, BehindCursor, LogStored, PageComplete, SettlePushed, DeadNoted, Answered, Idents, ClientOk, NodeOk,
      InboxOk, FeedOk, OutboxOk;
    ActionKeepsSeen(w, s, h, Answer(reply));
    NodesOk(w, s, h);
    var c := s.client;
    AnswerMovesOneEntry(c, reply.seqNo, reply.answer);
    AnswersItsSnap(w, s, h, reply);
    OutboxHolds(c.queue, h.snap, reply.seqNo);
    AnswerNoted(c, reply.seqNo, reply.answer, h.snap[reply.seqNo]);
    var d := SettlePushed(c, reply.seqNo, reply.answer);
    hide Exec, Record;
    AnswerSystem(w, s, h, reply);
    ReceivedGrows(s.server.store.log, s.server.store.log, c.pulled, c.queue, d.queue, h.handled, h.handled);
  }

  lemma AnswersItsSnap(w: World, s: Sys, h: Hist, reply: Reply)
    requires SeenInv(w, s, h) && reply in s.replies
    ensures reply.seqNo in h.snap && Answered(reply.answer.results) == Idents([h.snap[reply.seqNo]])
    ensures h.snap[reply.seqNo].table.Some?
  {
    assert ReplyOk(w, s.client.epoch, s.server.receipts, h.snap, reply);
    hide ClientOk, NodeOk, ReceiptsDelivered, RowStateKnown, HandledFromFeed, FeedCurrent, AuthorsLogged;
  }

  lemma FinishedIsHandled(changes: seq<Change>, results: seq<Result>, ch: Change)
    requires ch in changes && ch.seqNo.Some? && ch.table.Some? && ch.row.Some? && Finished(results, ch)
    ensures Knows(HandledBy(changes, results), KeyOf(ch), ch.seqNo.value)
  {
    hide ResultFor;
    var i :| 0 <= i < |changes| && changes[i] == ch;
    assert (ch.seqNo.value, Key(changes[i].table.value, changes[i].rowId), changes[i].row.value) in HandledBy(changes,
           results);
  }

  /** The cursor may pass a page once each of its items is finished or held. */
  lemma CursorMayPass(
    log: seq<LogEntry>, pulled: nat, page: Page, changes: seq<Change>, results: seq<Result>,
    q: Queue, r: Queue, handled: Handled, feed: set<Change>)
    requires BehindCursor(log, pulled, q, handled) && PageComplete(log, pulled, Some(page)) && pulled <= page.next
    requires Keeps(q, r) && FeedOk(log, feed) && Whole(changes)
    requires |changes| == |page.changes| && forall i | 0 <= i < |changes| :: SameItem(page.changes[i], changes[i])
    requires forall ch | ch in page.changes :: ch in feed
    requires forall ch | ch in changes :: Finished(results, ch) || Holds(r, ch)
    ensures BehindCursor(log, page.next, r, handled + HandledBy(changes, results))
  {
    hide HandledBy, Finished;
    var more := handled + HandledBy(changes, results);
    assert forall n: nat :: IsPull(QueueKey(Pull, n)) && IsPull(QueueKey(PullDead, n));
    ReceivedGrows(log, log, pulled, q, r, handled, more);
    forall i: nat | i < page.next ensures ReceivedOrSuperseded(log, i, page.next, r, more) {
      if i < pulled {
        assert ReceivedOrSuperseded(log, i, pulled, r, more);
        var j :| i <= j < pulled <= |log| && log[j].key == log[i].key && Received(r, more, log[j].key, j + 1);
        assert j < page.next;
      } else {
        assert InPage(log, i, page.next, page.changes);
        var j :| i <= j < page.next <= |log| && log[j].key == log[i].key && ItemFor(page.changes, j + 1);
        ItemIsReceived(log, j, page, changes, results, r, more, feed);
      }
    }
  }

  lemma ItemIsReceived(
    log: seq<LogEntry>, j: nat, page: Page, changes: seq<Change>, results: seq<Result>, r: Queue, more: Handled,
    feed: set<Change>)
    requires j < |log| && ItemFor(page.changes, j + 1) && FeedOk(log, feed) && Whole(changes)
    requires |changes| == |page.changes| && forall i | 0 <= i < |changes| :: SameItem(page.changes[i], changes[i])
    requires forall ch | ch in page.changes :: ch in feed
    requires forall ch | ch in changes :: Finished(results, ch) || Holds(r, ch)
    requires HandledBy(changes, results) <= more
    ensures Received(r, more, log[j].key, j + 1)
  {
    hide HandledBy, Finished, Knows;
    var x :| 0 <= x < |page.changes| && page.changes[x].seqNo == Some(j + 1);
    var ch := changes[x];
    assert SameItem(page.changes[x], ch) && page.changes[x] in feed && ch in changes;
    assert KeyOf(ch) == log[j].key;
    if Finished(results, ch) {
      FinishedIsHandled(changes, results, ch);
      KnowsMore(HandledBy(changes, results), more, log[j].key, j + 1);
    }
  }

  lemma PullBatchKeepsIssues(w: World, c: Client, changes: seq<Change>, draws: nat -> Draw)
    ensures PullBatch(w, c, changes, draws).Running?
    ensures c.store.issues <= PullBatch(w, c, changes, draws).store.issues
  {
    hide Fold, Having, RefuseAll;
    FoldKeepsIssues(ClientSession(w), Running(c.store, map[], RefuseAll(Having(changes, None))), Ordered(changes),
      draws);
  }

  lemma ApplyPageKeepsCursor(w: World, s: Sys, h: Hist, draws: nat -> Draw)
    requires CursorInv(w, s, h) && Enabled(w, s, ApplyPage(draws))
    ensures CursorInv(w, Exec(w, s, ApplyPage(draws)), Record(w, s, h, ApplyPage(draws)))
  {
    hide Inv, PullBatch, SettlePage, WithBases, BehindCursor, PageComplete, DeadNoted, LogStored, HandledBy,
      AllFromFeed, FeedOk,
      RowStateKnown, SnapsKnown, HandledFromFeed, FeedCurrent, AuthorsLogged, Settles, SameItem, SeqsNameChanges,
        DistinctSeqs,
      NotDead, Finished, Holds, Whole;
    var c, log, page := s.client, s.server.store.log, s.page.value;
    var t := Exec(w, s, ApplyPage(draws));
    ActionKeepsSeen(w, s, h, ApplyPage(draws));
    PageChangesOk(w, s, h);
    PageFacts(w, s, h);
    var changes := WithBases(c.rowState, page.changes);
    var q := PullBatch(w, c, changes, draws);
    PullBatchKeepsIssues(w, c, changes, draws);
    FeedIsWhole(w, changes, h.feed, q.out.results);
    var mid := c.(store := q.store);
    hide SeenInv;
    MoreIssues(c.queue, c.store.issues, q.store.issues);
    if Addressed(changes) && SettlePage(mid, changes, q.out.results).Some? {
      var d := SettlePage(mid, changes, q.out.results).value;
      PageNoted(mid, changes, q.out.results);
      PageIsHeldOrFinished(mid, changes, q.out.results);
      SettlesParts(mid, d, changes);
      CursorMayPass(log, c.pulled, page, changes, q.out.results, c.queue, d.queue, h.handled, h.feed);
      assert t.client == d.(pulled := page.next);
      if t.client == c {
        assert page.next == c.pulled;
      }
    } else {
      assert t.client == c;
    }
    NoPageIsComplete(log, t.client.pulled);
  }

  lemma NoPageIsComplete(log: seq<LogEntry>, pulled: nat)
    ensures PageComplete(log, pulled, None)
  {
  }

  lemma PageFacts(w: World, s: Sys, h: Hist)
    requires SeenInv(w, s, h) && s.page.Some?
    ensures FeedOk(s.server.store.log, h.feed) && s.client.pulled <= s.page.value.next
    ensures forall ch | ch in s.page.value.changes :: ch in h.feed
  {
    hide ClientOk, NodeOk, ReceiptsDelivered, InboxOk, FeedOk, OutboxOk, RowStateKnown, SnapsKnown, HandledFromFeed,
      FeedCurrent, AuthorsLogged;
  }

  lemma RetryKeepsBehind(
    w: World, log: seq<LogEntry>, pulled: nat, c: Client, d: Client, changes: seq<Change>, results: seq<Result>,
    handled: Handled, feed: set<Change>)
    requires BehindCursor(log, pulled, c.queue, handled) && Retires(c, d, changes, results)
    requires FeedOk(log, feed) && AllFromFeed(w, changes, feed) && Whole(changes)
    ensures BehindCursor(log, pulled, d.queue, handled + HandledBy(changes, results))
  {
    hide HandledBy, Finished, OnlySettled, BehindCursor, NothingNew, RowOk;
    var more := handled + HandledBy(changes, results);
    assert forall n: nat :: IsPull(QueueKey(Pull, n)) && IsPull(QueueKey(PullDead, n));
    forall n: nat | n <= pulled && (QueueKey(Pull, n) in c.queue || QueueKey(PullDead, n) in c.queue)
      ensures QueueKey(Pull, n) in d.queue || QueueKey(PullDead, n) in d.queue
              || (0 < n <= |log| && Knows(more, log[n - 1].key, n))
    {
      if DoneFor(changes, results, n) {
        var ch :| ch in changes && ch.seqNo == Some(n) && Finished(results, ch);
        FinishedIsHandled(changes, results, ch);
        KnowsMore(HandledBy(changes, results), more, KeyOf(ch), n);
        assert InFeeds(w, Some(ch), feed);
      } else {
        var key := if QueueKey(Pull, n) in c.queue then QueueKey(Pull, n) else QueueKey(PullDead, n);
        assert Lives(c.queue, key, d.queue);
      }
    }
    ReceivedGrows(log, log, pulled, c.queue, d.queue, handled, more);
  }

  lemma RetryKeepsCursor(w: World, s: Sys, h: Hist, limit: nat, draws: nat -> Draw)
    requires CursorInv(w, s, h) && Enabled(w, s, RetryPulls(limit, draws))
    ensures CursorInv(w, Exec(w, s, RetryPulls(limit, draws)), Record(w, s, h, RetryPulls(limit, draws)))
  {
    hide Inv, PullBatch, SettleRetries, WithBases, ListRetries, BehindCursor, PageComplete, DeadNoted, LogStored,
      HandledBy,
      AllFromFeed, FeedOk, RowStateKnown, SnapsKnown, HandledFromFeed, FeedCurrent, AuthorsLogged, Retires, SameItem,
      SeqsNameChanges, Whole, InboxOk, ClientOk, NodeOk, OutboxOk, Names, OneFate;
    var c, log := s.client, s.server.store.log;
    var t := Exec(w, s, RetryPulls(limit, draws));
    ActionKeepsSeen(w, s, h, RetryPulls(limit, draws));
    NodesOk(w, s, h);
    InboxHasOneFate(w, c.queue, c.pulled, h.feed);
    RetryChangesOk(w, c, limit, h.feed);
    var changes := WithBases(c.rowState, ListRetries(c.queue, Pull, limit));
    var q := PullBatch(w, c, changes, draws);
    PullBatchKeepsIssues(w, c, changes, draws);
    FeedIsWhole(w, changes, h.feed, q.out.results);
    var mid := c.(store := q.store);
    hide SeenInv;
    MoreIssues(c.queue, c.store.issues, q.store.issues);
    if Addressed(changes) {
      var d := SettleRetries(mid, changes, q.out.results);
      RetriesRetire(mid, changes, q.out.results);
      RetryNames(c.queue, changes);
      RetriesNoted(mid, changes, q.out.results, changes);
      RetiresSettled(mid, d, changes, q.out.results);
      SettledStore(mid, d);
      RetryKeepsBehind(w, log, c.pulled, mid, d, changes, q.out.results, h.handled, h.feed);
      assert t.client == d;
    }
  }

  lemma RetryNames(q: Queue, changes: seq<Change>)
    requires forall ch | ch in changes ::
      ch.seqNo.Some? && QueueKey(Pull, ch.seqNo.value) in q && SameItem(q[QueueKey(Pull, ch.seqNo.value)], ch)
    ensures Names(q, changes)
  {
  }

  lemma ActionKeepsCursor(w: World, s: Sys, h: Hist, a: Action)
    requires CursorInv(w, s, h) && Enabled(w, s, a)
    ensures CursorInv(w, Exec(w, s, a), Record(w, s, h, a))
  {
    hide CursorInv;
    match a {
      case ServerEdit(_, _) => ServerKeepsCursor(w, s, h, a);
      case Deliver(_, _) => ServerKeepsCursor(w, s, h, a);
      case ApplyPage(draws) => ApplyPageKeepsCursor(w, s, h, draws);
      case RetryPulls(limit, draws) => RetryKeepsCursor(w, s, h, limit, draws);
      case ReadPage(limit) => ReadKeepsCursor(w, s, h, limit);
      case Collect(limit) => CollectKeepsCursor(w, s, h, limit);
      case Answer(reply) => AnswerKeepsCursor(w, s, h, reply);
      case ClientEdit(_, _) => LocalKeepsCursor(w, s, h, a);
      case Send(_, _) => LocalKeepsCursor(w, s, h, a);
      case Crash => LocalKeepsCursor(w, s, h, a);
    }
  }

  lemma {:induction false} RunKeepsCursor(w: World, acts: seq<Action>)
    requires IsRun(w, acts)
    ensures CursorInv(w, After(w, acts).0, After(w, acts).1)
  {
    hide CursorInv, SeenInv, Inv, Exec, Record, Enabled;
    if acts == [] {
      StartIsOk(w);
      StartSeenIsOk(w);
      StartCursorIsOk(w);
    } else {
      var n := |acts| - 1;
      PrefixIsRun(w, acts, n);
      RunKeepsCursor(w, acts[..n]);
      ActionKeepsCursor(w, After(w, acts[..n]).0, After(w, acts[..n]).1, acts[n]);
    }
  }

  lemma StartCursorIsOk(w: World)
    requires SeenInv(w, START, NO_HISTORY)
    ensures CursorInv(w, START, NO_HISTORY)
  {
    hide SeenInv;
  }

  // ------------------------------------------------------------------
  // The theorems
  // ------------------------------------------------------------------

  /** Behind the pull cursor every server seq was applied, skipped, is waiting in the inbox or is a dead
      letter, or gave way to a later seq of its row, also behind the cursor, for which this holds. */
  lemma NothingIsLostBehindCursor(w: World, acts: seq<Action>, i: nat)
    requires IsRun(w, acts) && i < SysAfter(w, acts).client.pulled
    ensures var s, h := SysAfter(w, acts), HistAfter(w, acts);
            && i < |s.server.store.log|
            && ReceivedOrSuperseded(s.server.store.log, i, s.client.pulled, s.client.queue, h.handled)
  {
    RunKeepsCursor(w, acts);
    hide SeenInv, PageComplete, DeadNoted, LogStored, After, IsRun;
  }

  /** Nothing is given up silently: each dead letter, of either direction, has its issue. */
  lemma DeadLettersAreReported(w: World, acts: seq<Action>, key: QueueKey)
    requires IsRun(w, acts) && key in SysAfter(w, acts).client.queue && IsDead(key)
    ensures var c := SysAfter(w, acts).client;
            c.queue[key].table.Some? && DeadLetterIssue(c.queue[key]) in c.store.issues
  {
    RunKeepsCursor(w, acts);
    hide SeenInv, PageComplete, BehindCursor, LogStored, After, IsRun;
  }

  lemma StepMovesMarksForward(w: World, s: Sys, h: Hist, a: Action)
    requires Inv(w, s, h) && Enabled(w, s, a)
    ensures s.client.pulled <= Exec(w, s, a).client.pulled && s.client.pushed <= Exec(w, s, a).client.pushed
  {
    hide Inv, Enabled, ApplyBatch, PullBatch, SettlePage, SettleRetries, ReadWindow, CollectWindow, EnqueueAll,
      ListRetries, WithBases, SettlePushed;
    match a {
      case ApplyPage(_) => PullsFrame(w, s, h, a); hide Exec;
      case RetryPulls(_, _) => PullsFrame(w, s, h, a); hide Exec;
      case Answer(reply) => AnswerMovesOneEntry(s.client, reply.seqNo, reply.answer);
      case _ =>
    }
  }

  /** Neither cursor ever moves back. */
  lemma {:induction false} MarksNeverMoveBack(w: World, acts: seq<Action>, i: nat)
    requires IsRun(w, acts) && i <= |acts|
    ensures SysAfter(w, acts[..i]).client.pulled <= SysAfter(w, acts).client.pulled
    ensures SysAfter(w, acts[..i]).client.pushed <= SysAfter(w, acts).client.pushed
  {
    hide Inv, Exec, Record, Enabled;
    if i == |acts| {
      assert acts[..i] == acts;
    } else {
      var n := |acts| - 1;
      var before := After(w, acts[..n]);
      PrefixIsRun(w, acts, n);
      assert acts[..n][..i] == acts[..i];
      MarksNeverMoveBack(w, acts[..n], i);
      RunKeepsInv(w, acts[..n]);
      StepMovesMarksForward(w, before.0, before.1, acts[n]);
    }
  }
}
