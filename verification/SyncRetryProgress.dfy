/** Retrying the inbox: what leaves it, and why a version is only logged when something does. */
module SyncRetryProgress {
  import opened SyncSchema
  import opened SyncStore
  import opened SyncApply
  import opened SyncApplyProofs
  import opened SyncEffectProofs
  import opened SyncBatch
  import opened SyncBatchProofs
  import opened SyncReceiptProofs
  import opened SyncQueue
  import opened SyncFeedProofs
  import opened SyncQueueProofs
  import opened TwoNode
  import opened SyncInvariants
  import opened SyncPullProofs
  import opened SyncSafety
  import opened SyncConvergence
  import opened SyncExactlyOnce
  import opened SyncCommits
  import opened SyncProgress

  /** The live inbox only loses entries, and loses each one that got a result other than deferred. */
  lemma {:induction false} RetriesRemove(c: Client, changes: seq<Change>, results: seq<Result>)
    requires forall ch | ch in changes :: ch.table.Some? && ch.seqNo.Some?
    ensures var d := SettleRetries(c, changes, results);
            && (forall key | key in d.queue && key.direction == Pull :: key in c.queue)
            && (forall ch | ch in changes && StatusFor(results, ch).Some? && StatusFor(results, ch) != Some(Deferred) ::
                  QueueKey(Pull, ch.seqNo.value) !in d.queue)
  {
    hide Remember, ResultFor;
    if changes != [] {
      var n := |changes| - 1;
      assert changes == changes[..n] + [changes[n]];
      RetriesRemove(c, changes[..n], results);
    }
  }

  lemma MultisetTwice(s: seq<Change>, i: nat, j: nat)
    requires i < j < |s| && s[i] == s[j]
    ensures multiset(s)[s[i]] >= 2
  {
    assert s == s[..j] + [s[j]] + s[j + 1..];
    assert s[..j] == s[..i] + [s[i]] + s[i + 1..j];
  }

  lemma {:induction false} MultisetOnce(s: seq<Change>, ch: Change)
    requires DistinctSeqs(s)
    ensures multiset(s)[ch] <= 1
  {
    if s != [] {
      var n := |s| - 1;
      assert s == s[..n] + [s[n]];
      MultisetOnce(s[..n], ch);
      assert s[n] == ch ==> ch !in s[..n] by {
        assert forall i | 0 <= i < n :: s[i].seqNo != s[n].seqNo;
      }
    }
  }

  /** Grouping by table keeps seqs distinct. */
  lemma OrderedIsDistinct(changes: seq<Change>)
    requires DistinctSeqs(changes) && SeqsNameChanges(changes) && forall ch | ch in changes :: ch.table.Some?
    ensures DistinctSeqs(Ordered(changes))
  {
    hide Having, Ordered;
    GroupsPartition(changes);
    NothingUnlisted(changes);
    var work := Ordered(changes);
    assert [] + work == work;
    forall i, j | 0 <= i < j < |work| ensures work[i].seqNo != work[j].seqNo {
      if work[i].seqNo == work[j].seqNo {
        assert work[i] in multiset(changes) && work[j] in multiset(changes);
        assert work[i] in changes && work[j] in changes;
        MultisetTwice(work, i, j);
        MultisetOnce(changes, work[i]);
      }
    }
  }

  ghost predicate Settled(status: Status) {
    status == Applied || status == Skipped
  }

  /** The result list of a fold: one per row, in order, under the row's seq. If the log changed, some memo
      row was applied or skipped. */
  ghost predicate FoldResults(p: Progress, q: Progress, work: seq<Change>) {
    && p.Running? && q.Running?
    && |q.out.results| == |p.out.results| + |work|
    && (forall j | 0 <= j < |work| :: q.out.results[|p.out.results| + j].seqNo == work[j].seqNo)
    && (q.store.log != p.store.log ==>
          exists j ::
              0 <= j < |work| && work[j].table == Some(Memos) && Settled(q.out.results[|p.out.results| + j].status))
  }

  lemma StepResults(x: Session, p: Progress, t: Table, ch: Change, d: Draw)
    requires p.Running? && x.applying && ch.table == Some(t)
    ensures var q := StepRow(x, None, p, t, ch, d);
            && FoldResults(p, q, [ch]) && p.out.results <= q.out.results
  {
    hide ApplyOne, EffectiveClock;
    var a := ApplyOne(x, p.store, t, ch, d);
    var q := StepRow(x, None, p, t, ch, d);
    if a.Done? {
      ApplyTouchesTwoRows(x, p.store, t, ch, d);
      hide SameAt, FreshVersion;
      if q.store.log != p.store.log {
        assert [ch][0].table == Some(Memos);
      }
    }
  }

  lemma FoldResultsTrans(p: Progress, b: Progress, q: Progress, work: seq<Change>, ch: Change)
    requires FoldResults(p, b, work) && FoldResults(b, q, [ch]) && b.out.results <= q.out.results
    ensures FoldResults(p, q, work + [ch])
  {
    var base, all := |p.out.results|, work + [ch];
    forall j | 0 <= j < |all| ensures q.out.results[base + j].seqNo == all[j].seqNo {
      if j == |work| { assert [ch][0] == ch; }
    }
    if b.store.log != p.store.log {
      var j :| 0 <= j < |work| && work[j].table == Some(Memos) && Settled(b.out.results[base + j].status);
      assert all[j].table == Some(Memos) && Settled(q.out.results[base + j].status);
    } else if q.store.log != b.store.log {
      var j :| 0 <= j < 1 && [ch][j].table == Some(Memos) && Settled(q.out.results[|b.out.results| + j].status);
      assert all[|work|].table == Some(Memos);
    }
  }

  lemma {:induction false} FoldHasResults(x: Session, p: Progress, work: seq<Change>, draws: nat -> Draw)
    requires p.Running? && x.applying && forall ch | ch in work :: ch.table.Some?
    ensures FoldResults(p, Fold(x, None, p, work, draws), work)
  {
    hide StepRow, FoldResults;
    if work == [] {
      NoResults(p);
    } else {
      var n := |work| - 1;
      FoldHasResults(x, p, work[..n], draws);
      var b := Fold(x, None, p, work[..n], draws);
      assert b.Running? by { FoldRuns(p, b, work[..n]); }
      StepResults(x, b, work[n].table.value, work[n], draws(n));
      FoldResultsTrans(p, b, StepRow(x, None, b, work[n].table.value, work[n], draws(n)), work[..n], work[n]);
      assert work == work[..n] + [work[n]];
    }
  }

  lemma NoResults(p: Progress)
    requires p.Running?
    ensures FoldResults(p, p, [])
  {
  }

  lemma FoldRuns(p: Progress, q: Progress, work: seq<Change>)
    requires FoldResults(p, q, work)
    ensures q.Running?
  {
  }

  lemma {:induction false} LastResult(results: seq<Result>, j: nat)
    requires j < |results| && forall i | j < i < |results| :: results[i].seqNo != results[j].seqNo
    ensures ResultFor(results, results[j].seqNo) == Some(results[j])
  {
    var n := |results| - 1;
    if j < n {
      LastResult(results[..n], j);
    }
  }

  /** If a pulled batch logged anything, one of its memo changes was applied or skipped. */
  lemma LoggedMeansFinished(w: World, c: Client, changes: seq<Change>, draws: nat -> Draw)
    requires DistinctSeqs(changes) && SeqsNameChanges(changes)
    requires forall ch | ch in changes :: ch.table.Some? && ch.seqNo.Some?
    ensures var q := PullBatch(w, c, changes, draws);
            && q.Running?
            && (q.store.log != c.store.log ==>
                  exists ch :: ch in changes && ch.table == Some(Memos) && Finished(q.out.results, ch))
  {
    hide Fold, Having, Ordered, FoldResults, DistinctSeqs, SeqsNameChanges, Finished;
    OrderedIsDistinct(changes);
    NothingUnlisted(changes);
    var work := Ordered(changes);
    var start := Running(c.store, map[], EMPTY_OUTCOME);
    FoldHasResults(ClientSession(w), start, work, draws);
    var q := PullBatch(w, c, changes, draws);
    assert q == Fold(ClientSession(w), None, start, work, draws);
    FoldRuns(start, q, work);
    if q.store.log != c.store.log {
      var ch := FinishedMemo(start, q, work);
      assert ch in changes;
    }
  }

  lemma FinishedMemo(p: Progress, q: Progress, work: seq<Change>) returns (ch: Change)
    requires FoldResults(p, q, work) && p.out.results == [] && DistinctSeqs(work) && q.store.log != p.store.log
    ensures ch in work && ch.table == Some(Memos) && Finished(q.out.results, ch)
  {
    var j :| 0 <= j < |work| && work[j].table == Some(Memos) && Settled(q.out.results[j].status);
    ch := work[j];
    forall i | j < i < |work| ensures q.out.results[i].seqNo != q.out.results[j].seqNo {
      assert q.out.results[|p.out.results| + i].seqNo == work[i].seqNo;
      assert q.out.results[|p.out.results| + j].seqNo == work[j].seqNo;
    }
    LastResult(q.out.results, j);
  }

  // ------------------------------------------------------------------
  // The measure
  // ------------------------------------------------------------------

  lemma RetryIsDistinct(w: World, s: Sys, h: Hist, limit: nat)
    requires InboxOk(w, s.client.queue, s.client.pulled, h.feed)
    ensures DistinctSeqs(WithBases(s.client.rowState, ListRetries(s.client.queue, Pull, limit)))
  {
    var c := s.client;
    var seqs := SortedPrefix(LiveSeqs(c.queue, Pull), limit);
    SortedPrefixAscends(LiveSeqs(c.queue, Pull), limit);
    hide SortedPrefix, InFeeds, OneFate;
    var listed := ListRetries(c.queue, Pull, limit);
    forall i | 0 <= i < |listed| ensures listed[i].seqNo == Some(seqs[i]) {
      assert seqs[i] in seqs;
      assert IsPull(QueueKey(Pull, seqs[i])) && QueueKey(Pull, seqs[i]) in c.queue;
    }
  }

  /** What a retry does to logs, marks and live queues. */
  lemma RetryEffect(w: World, s: Sys, h: Hist, limit: nat, draws: nat -> Draw)
    requires Inv(w, s, h) && Enabled(w, s, RetryPulls(limit, draws))
    ensures var t := Exec(w, s, RetryPulls(limit, draws));
            && t.server == s.server && s.client.store.log <= t.client.store.log
            && t.client.pushed == s.client.pushed && t.client.pulled == s.client.pulled
            && (forall i | |s.client.store.log| <= i < |t.client.store.log| ::
                 t.client.store.log[i].key.table == MemoVersions)
            && LiveSeqs(t.client.queue, Push) == LiveSeqs(s.client.queue, Push)
            && LiveSeqs(t.client.queue, Pull) <= LiveSeqs(s.client.queue, Pull)
            && (t.client.store.log != s.client.store.log ==>
                  exists n :: n in LiveSeqs(s.client.queue, Pull) && n !in LiveSeqs(t.client.queue, Pull)
                              && 0 < n <= |s.server.store.log| && s.server.store.log[n - 1].key.table == Memos)
    ensures var changes := WithBases(s.client.rowState, ListRetries(s.client.queue, Pull, limit));
            var q := PullBatch(w, s.client, changes, draws);
            forall ch | ch in changes ::
              && ch.seqNo.Some?
              && (q.Running? && StatusFor(q.out.results, ch).Some? && StatusFor(q.out.results, ch) != Some(Deferred) ==>
                    QueueKey(Pull, ch.seqNo.value) !in Exec(w, s, RetryPulls(limit, draws)).client.queue)
  {
    hide PullBatch, SettleRetries, WithBases, ListRetries, AllFromFeed, FeedOk, Retires, SameItem, SeqsNameChanges,
      DistinctSeqs, Inv, InboxOk, OneFate, StatusFor, Enabled;
    var c := s.client;
    InboxAndFeed(w, s, h);
    InboxHasOneFate(w, c.queue, c.pulled, h.feed);
    RetryChangesOk(w, c, limit, h.feed);
    RetryIsDistinct(w, s, h, limit);
    var changes := WithBases(c.rowState, ListRetries(c.queue, Pull, limit));
    AddressedRetries(w, changes, h.feed);
    PullLogs(w, c, changes, draws);
    LoggedMeansFinished(w, c, changes, draws);
    var q := PullBatch(w, c, changes, draws);
    var mid := c.(store := q.store);
    var d := SettleRetries(mid, changes, q.out.results);
    RetriesRetire(mid, changes, q.out.results);
    RetiresSettled(mid, d, changes, q.out.results);
    RetriesRemove(mid, changes, q.out.results);
    var t := Exec(w, s, RetryPulls(limit, draws));
    assert t == s.(client := d);
    hide Exec;
    OutboxLives(mid, d);
    if t.client.store.log != c.store.log {
      var ch :| ch in changes && ch.table == Some(Memos) && Finished(q.out.results, ch);
      assert StatusFor(q.out.results, ch).Some? && StatusFor(q.out.results, ch) != Some(Deferred);
      FeedNames(w, s.server.store.log, h.feed, changes, ch);
      var n := ch.seqNo.value;
      assert n in LiveSeqs(c.queue, Pull) && n !in LiveSeqs(d.queue, Pull);
    }
  }

  lemma OutboxLives(c: Client, d: Client)
    requires OnlySettled(c, d)
    ensures LiveSeqs(d.queue, Push) == LiveSeqs(c.queue, Push)
    ensures d.store.log == c.store.log && d.pushed == c.pushed && d.pulled == c.pulled
  {
    assert forall n :: !IsPull(QueueKey(Push, n));
  }

  lemma AddressedRetries(w: World, changes: seq<Change>, feed: set<Change>)
    requires AllFromFeed(w, changes, feed)
    ensures Addressed(changes)
  {
    hide InFeeds;
  }

  lemma FeedNames(w: World, log: seq<LogEntry>, feed: set<Change>, changes: seq<Change>, ch: Change)
    requires FeedOk(log, feed) && AllFromFeed(w, changes, feed) && ch in changes
    ensures ch.seqNo.Some? && 0 < ch.seqNo.value <= |log| && ch.table.Some? && KeyOf(ch) == log[ch.seqNo.value - 1].key
  {
    hide RowOk;
    assert InFeeds(w, Some(ch), feed);
  }

  lemma InboxAndFeed(w: World, s: Sys, h: Hist)
    requires Inv(w, s, h)
    ensures InboxOk(w, s.client.queue, s.client.pulled, h.feed) && FeedOk(s.server.store.log, h.feed)
  {
    hide ClientOk, NodeOk, ReceiptsDelivered, InboxOk, FeedOk;
  }

  lemma RetryWeights(s: Sys, t: Sys, versions: bool)
    requires t.server == s.server && s.client.store.log <= t.client.store.log
    requires t.client.pushed == s.client.pushed && t.client.pulled == s.client.pulled
    requires s.client.pushed <= |s.client.store.log|
    requires forall i | |s.client.store.log| <= i < |t.client.store.log| ::
               t.client.store.log[i].key.table == MemoVersions
    requires LiveSeqs(t.client.queue, Push) == LiveSeqs(s.client.queue, Push)
    requires forall n | n in LiveSeqs(s.client.queue, Push) :: n <= |s.client.store.log|
    requires LiveSeqs(t.client.queue, Pull) <= LiveSeqs(s.client.queue, Pull)
    requires !versions || t.client.store.log == s.client.store.log
    ensures Weight(t, versions) + Count(LiveSeqs(s.client.queue, Pull), s.server.store.log, versions)
         == Weight(s, versions) + Count(LiveSeqs(t.client.queue, Pull), s.server.store.log, versions)
  {
    var log, now := s.client.store.log, t.client.store.log;
    BeyondGrows(log, now, s.client.pushed);
    hide Count, LiveSeqs, Window, ReceiptedSeqs;
    var waiting, receipted := LiveSeqs(s.client.queue, Push), ReceiptedSeqs(s.server.receipts);
    CountStable(waiting, log, now, versions);
    CountStable(waiting - receipted, log, now, versions);
  }

  /** What a retry does, in terms of the seqs that are counted. */
  lemma RetryCounts(s: Sys, t: Sys)
    requires t.server == s.server && s.client.store.log <= t.client.store.log
    requires t.client.pushed == s.client.pushed && t.client.pulled == s.client.pulled
    requires s.client.pushed <= |s.client.store.log|
    requires forall i | |s.client.store.log| <= i < |t.client.store.log| ::
               t.client.store.log[i].key.table == MemoVersions
    requires LiveSeqs(t.client.queue, Push) == LiveSeqs(s.client.queue, Push)
    requires forall n | n in LiveSeqs(s.client.queue, Push) :: n <= |s.client.store.log|
    requires LiveSeqs(t.client.queue, Pull) <= LiveSeqs(s.client.queue, Pull)
    requires forall n | n in LiveSeqs(s.client.queue, Pull) :: 0 < n <= |s.server.store.log|
    requires t.client.store.log != s.client.store.log ==>
               exists n :: n in LiveSeqs(s.client.queue, Pull) && n !in LiveSeqs(t.client.queue, Pull)
                           && 0 < n <= |s.server.store.log| && s.server.store.log[n - 1].key.table == Memos
    ensures NoRise(s, t)
    ensures forall n | n in LiveSeqs(s.client.queue, Pull) && n !in LiveSeqs(t.client.queue, Pull) :: Falls(s, t)
  {
    hide Weight, Count, LiveSeqs;
    var a, b, slog := LiveSeqs(t.client.queue, Pull), LiveSeqs(s.client.queue, Pull), s.server.store.log;
    RetryWeights(s, t, false);
    CountSubset(a, b, slog, false);
    if t.client.store.log == s.client.store.log {
      RetryWeights(s, t, true);
      CountSubset(a, b, slog, true);
      forall n | n in b && n !in a ensures Falls(s, t) {
        CountLess(a, b, slog, n);
      }
    } else {
      var n :| n in b && n !in a && 0 < n <= |slog| && slog[n - 1].key.table == Memos;
      CountLess(a, b, slog, n);
    }
  }

  lemma RetryFalls(w: World, s: Sys, h: Hist, limit: nat, draws: nat -> Draw)
    requires Inv(w, s, h) && Enabled(w, s, RetryPulls(limit, draws))
    ensures var t := Exec(w, s, RetryPulls(limit, draws));
            && NoRise(s, t)
            && (forall n | n in LiveSeqs(s.client.queue, Pull) && n !in LiveSeqs(t.client.queue, Pull) :: Falls(s, t))
  {
    hide Inv, Enabled, Exec, NoRise, Falls, LiveSeqs, StatusFor, WithBases, ListRetries, PullBatch;
    RetryEffect(w, s, h, limit, draws);
    PullSeqsRead(w, s, h);
    InboxIsNumbered(w, s, h);
    RetryCounts(s, Exec(w, s, RetryPulls(limit, draws)));
  }

  lemma InboxIsNumbered(w: World, s: Sys, h: Hist)
    requires Inv(w, s, h)
    ensures forall n | n in LiveSeqs(s.client.queue, Pull) :: 0 < n <= |s.server.store.log|
  {
    hide Inv, RowOk, OneFate;
    InboxAndFeed(w, s, h);
    forall n | n in LiveSeqs(s.client.queue, Pull) ensures 0 < n <= |s.server.store.log| {
      var key := QueueKey(Pull, n);
      assert IsPull(key) && key in s.client.queue;
      assert InFeeds(w, Some(s.client.queue[key]), h.feed);
    }
  }
}
