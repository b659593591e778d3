/** Applying a pulled batch to the client: what every row of it keeps, and what its results mean. */
module SyncPullProofs {
  import opened SyncSchema
  import opened SyncStore
  import opened SyncApply
  import opened SyncApplyProofs
  import opened SyncBatch
  import opened SyncBatchProofs
  import opened SyncQueue
  import opened SyncFeedProofs
  import opened SyncQueueProofs
  import opened TwoNode
  import opened SyncInvariants

  ghost predicate Covered(c: Client, srv: Store, page: Option<Page>) {
    && ClientCovered(c, srv.rows)
    && ServerCovered(c.store.rows, c.queue, srv, c.pulled, [])
    && (page.Some? ==> ServerCovered(c.store.rows, c.queue, srv, page.value.next, page.value.changes))
  }

  /** The part of the invariant a client row write can disturb. */
  ghost predicate ClientOk(w: World, c: Client, srv: Store, h: Hist, page: Option<Page>) {
    && NodeOk(w, c.store.rows) && LogStored(c.store)
    && c.pushed <= |c.store.log|
    && SnapsBound(w, c.store.rows, srv.rows, h.snap)
    && FeedsBound(w, srv.rows, h.feed)
    && Covered(c, srv, page)
  }

  /** If the change carries the server's present row, the client no longer needs it. */
  ghost predicate Landed(cr: Rows, sr: Rows, ch: Change) {
    ch.table.Some? && KeyOf(ch) in sr && ch.row == Some(sr[KeyOf(ch)]) ==> !ServerAhead(cr, sr, KeyOf(ch))
  }

  ghost predicate NoFurtherBehind(was: Rows, now: Rows, sr: Rows) {
    forall k | ServerAhead(now, sr, k) :: ServerAhead(was, sr, k)
  }

  ghost predicate NeverOlder(was: Rows, now: Rows) {
    forall k | k in was :: k in now && Clk(now[k]) >= Clk(was[k])
  }

  lemma ClientStepKeepsOk(
    w: World, c: Client, now: Store, srv: Store, h: Hist, page: Option<Page>, arrived: Option<Change>)
    requires ClientOk(w, c, srv, h, page) && InFeeds(w, arrived, h.feed)
    requires Evolves(w, c.store, now, arrived, true)
    ensures ClientOk(w, c.(store := now), srv, h, page) && NoFurtherBehind(c.store.rows, now.rows, srv.rows)
    ensures NeverOlder(c.store.rows, now.rows)
  {
    hide SnapsBound, FeedsBound, InFeeds, ServerAhead, ClientCovered, LoggedIn, HeldDown, Delivers;
    EvolvesKeepsLogStored(w, c.store, now, arrived, true);
    ClientStepKeepsClocks(w, c.store, now, srv.rows, arrived, h.snap, h.feed);
    ClientStepKeepsCoverage(w, c, now, srv, arrived, h.feed);
    ClientStepNeverFallsBehind(w, c.store, now, srv.rows, arrived, h.feed);
  }

  lemma PullOneKeepsOk(w: World, c: Client, srv: Store, h: Hist, page: Option<Page>, ch: Change, d: Draw)
    requires ClientOk(w, c, srv, h, page) && InFeeds(w, Some(ch), h.feed) && d.id != ""
    requires ApplyOne(ClientSession(w), c.store, ch.table.value, ch, d).Done?
    ensures var a := ApplyOne(ClientSession(w), c.store, ch.table.value, ch, d);
            && ClientOk(w, c.(store := a.store), srv, h, page)
            && NoFurtherBehind(c.store.rows, a.store.rows, srv.rows)
            && NeverOlder(c.store.rows, a.store.rows)
            && c.store.log <= a.store.log
            && (a.out.status == Applied || a.out.status == Skipped ==> Landed(a.store.rows, srv.rows, ch))
  {
    var x := ClientSession(w);
    ApplyEvolves(w, x, c.store, ch, d);
    ApplyReplaces(w, x, c.store, ch, d);
    hide ApplyOne, WireOk, RowOk, Covered, SnapsBound, FeedsBound, NoFurtherBehind, NeverOlder;
    var a := ApplyOne(x, c.store, ch.table.value, ch, d);
    ClientStepKeepsOk(w, c, a.store, srv, h, page, Some(ch));
  }

  /** The i-th result answers the i-th row, and a finished row has landed. */
  ghost predicate ResultsLand(cr: Rows, sr: Rows, base: nat, work: seq<Change>, results: seq<Result>) {
    && |results| == base + |work|
    && forall j | 0 <= j < |work| ::
         && results[base + j].seqNo == work[j].seqNo
         && (results[base + j].status == Applied || results[base + j].status == Skipped ==> Landed(cr, sr, work[j]))
  }

  lemma ResultsStart(rows: Rows, sr: Rows, results: seq<Result>)
    ensures ResultsLand(rows, sr, |results|, [], results)
  {
  }

  lemma ResultsExtend(
    was: Rows, now: Rows, sr: Rows, base: nat, work: seq<Change>, results: seq<Result>, ch: Change, more: seq<Result>)
    requires ResultsLand(was, sr, base, work, results) && NoFurtherBehind(was, now, sr)
    requires ResultsLand(now, sr, |results|, [ch], more) && results <= more
    ensures ResultsLand(now, sr, base, work + [ch], more)
  {
    hide ServerAhead;
    forall j | 0 <= j < |work| ensures Landed(was, sr, work[j]) ==> Landed(now, sr, work[j]) {}
    assert [ch][0] == ch;
  }

  lemma BehindTrans(a: Rows, b: Rows, c: Rows, sr: Rows)
    ensures NoFurtherBehind(a, a, sr)
    ensures NoFurtherBehind(a, b, sr) && NoFurtherBehind(b, c, sr) ==> NoFurtherBehind(a, c, sr)
    ensures NeverOlder(a, a)
    ensures NeverOlder(a, b) && NeverOlder(b, c) ==> NeverOlder(a, c)
  {
  }

  lemma PullStepKeepsOk(w: World, c: Client, srv: Store, h: Hist, page: Option<Page>, p: Progress, ch: Change, d: Draw)
    requires p.Running? && ClientOk(w, c.(store := p.store), srv, h, page)
    requires ch.table.Some? && InFeeds(w, Some(ch), h.feed) && d.id != ""
    ensures var q := StepRow(ClientSession(w), None, p, ch.table.value, ch, d);
            && q.Running?
            && ClientOk(w, c.(store := q.store), srv, h, page)
            && NoFurtherBehind(p.store.rows, q.store.rows, srv.rows)
            && NeverOlder(p.store.rows, q.store.rows)
            && p.store.log <= q.store.log
            && ResultsLand(q.store.rows, srv.rows, |p.out.results|, [ch], q.out.results)
            && p.out.results <= q.out.results
  {
    hide ApplyOne, ClientOk, Landed, InFeeds, EffectiveClock, ServerAhead, Clk;
    var x := ClientSession(w);
    var q := StepRow(x, None, p, ch.table.value, ch, d);
    var a := ApplyOne(x, p.store, ch.table.value, ch, d);
    if a.Done? {
      PullOneKeepsOk(w, c.(store := p.store), srv, h, page, ch, d);
    }
  }

  ghost predicate AllFromFeed(w: World, work: seq<Change>, feed: set<Change>) {
    forall ch | ch in work :: ch.table.Some? && ch.seqNo.Some? && InFeeds(w, Some(ch), feed)
  }

  lemma {:induction false} PullFoldKeepsOk(
    w: World, c: Client, srv: Store, h: Hist, page: Option<Page>, p: Progress, work: seq<Change>, draws: nat -> Draw)
    requires p.Running? && ClientOk(w, c.(store := p.store), srv, h, page)
    requires AllFromFeed(w, work, h.feed) && forall i :: draws(i).id != ""
    ensures var q := Fold(ClientSession(w), None, p, work, draws);
            && q.Running?
            && ClientOk(w, c.(store := q.store), srv, h, page)
            && NoFurtherBehind(p.store.rows, q.store.rows, srv.rows)
            && NeverOlder(p.store.rows, q.store.rows)
            && p.store.log <= q.store.log
            && ResultsLand(q.store.rows, srv.rows, |p.out.results|, work, q.out.results)
  {
    hide StepRow, ClientOk, InFeeds, NoFurtherBehind, NeverOlder, ResultsLand, Balanced;
    BehindTrans(p.store.rows, p.store.rows, p.store.rows, srv.rows);
    ResultsStart(p.store.rows, srv.rows, p.out.results);
    if work != [] {
      var n := |work| - 1;
      PullFoldKeepsOk(w, c, srv, h, page, p, work[..n], draws);
      var b := Fold(ClientSession(w), None, p, work[..n], draws);
      PullStepKeepsOk(w, c, srv, h, page, b, work[n], draws(n));
      var q := Fold(ClientSession(w), None, p, work, draws);
      ResultsExtend(b.store.rows, q.store.rows, srv.rows, |p.out.results|, work[..n], b.out.results, work[n],
        q.out.results);
      BehindTrans(p.store.rows, b.store.rows, q.store.rows, srv.rows);
      assert work == work[..n] + [work[n]];
    }
  }

  lemma {:induction false} ResultForFinds(results: seq<Result>, seqNo: Option<nat>) returns (j: nat)
    requires ResultFor(results, seqNo).Some?
    ensures j < |results| && results[j] == ResultFor(results, seqNo).value && results[j].seqNo == seqNo
  {
    var n := |results| - 1;
    if results[n].seqNo == seqNo { j := n; } else { j := ResultForFinds(results[..n], seqNo); }
  }

  lemma {:induction false} NothingUnlisted(changes: seq<Change>)
    requires forall ch | ch in changes :: ch.table.Some?
    ensures Having(changes, None) == []
  {
    if changes != [] { NothingUnlisted(changes[..|changes| - 1]); }
  }

  ghost predicate SeqsNameChanges(changes: seq<Change>) {
    forall a, b | a in changes && b in changes && a.seqNo == b.seqNo :: a == b
  }

  /** The whole pulled batch: the client stays covered, and a change whose result is applied or skipped
      leaves the client not behind the row it carried. */
  lemma PullBatchKeepsOk(
    w: World, c: Client, srv: Store, h: Hist, page: Option<Page>, changes: seq<Change>, draws: nat -> Draw)
    requires ClientOk(w, c, srv, h, page)
    requires AllFromFeed(w, changes, h.feed) && SeqsNameChanges(changes) && forall i :: draws(i).id != ""
    ensures var q := PullBatch(w, c, changes, draws);
            && q.Running?
            && ClientOk(w, c.(store := q.store), srv, h, page)
            && c.store.log <= q.store.log
            && NeverOlder(c.store.rows, q.store.rows)
            && forall ch | ch in changes && Finished(q.out.results, ch) :: Landed(q.store.rows, srv.rows, ch)
  {
    hide ClientOk, InFeeds, Landed, Fold, Having;
    NothingUnlisted(changes);
    var start := Running(c.store, map[], EMPTY_OUTCOME);
    var work := Ordered(changes);
    PullFoldKeepsOk(w, c, srv, h, page, start, work, draws);
    var q := PullBatch(w, c, changes, draws);
    forall ch | ch in changes && Finished(q.out.results, ch) ensures Landed(q.store.rows, srv.rows, ch) {
      var j := ResultForFinds(q.out.results, ch.seqNo);
      assert work[j] in changes;
    }
  }
}
