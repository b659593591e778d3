/** Losing text survives every later step of a run: version contents are write-once on both nodes. A version stays
    with its memo exactly as long as no edit gives it to another one, as merging two memos does. */
module SyncTexts {
  import opened SyncSchema
  import opened SyncStore
  import opened SyncApply
  import opened SyncApplyProofs
  import opened SyncEffectProofs
  import opened SyncBatch
  import opened SyncQueue
  import opened SyncFeedProofs
  import opened SyncQueueProofs
  import opened TwoNode
  import opened SyncInvariants
  import opened SyncPullProofs
  import opened SyncSafety
  import opened SyncConvergence
  import opened SyncExactlyOnce
  import opened SyncCommits

  /** What a version id stands for: the text it was written with, and the memo it was first written under.
      Generated ids are unique, so there is one of each. `moved` ids may be found under another memo. */
  datatype Texts = Texts(content: Id -> Value, home: Id -> Value, moved: Id -> bool)

  predicate Consistent(texts: Texts, k: Key, row: Row) {
    k.table == MemoVersions ==>
      texts.content(k.id) == Get(row, Content) && (texts.moved(k.id) || texts.home(k.id) == Get(row, MemoId))
  }

  ghost predicate AllConsistent(texts: Texts, rows: Rows) {
    forall k | k in rows :: Consistent(texts, k, rows[k])
  }

  predicate ChangeConsistent(texts: Texts, ch: Change) {
    ch.table.Some? && ch.row.Some? ==> Consistent(texts, Key(ch.table.value, ch.rowId), ch.row.value)
  }

  ghost predicate TextsOk(texts: Texts, s: Sys, h: Hist) {
    && AllConsistent(texts, s.client.store.rows)
    && AllConsistent(texts, s.server.store.rows)
    && (forall n | n in h.snap :: ChangeConsistent(texts, h.snap[n]))
    && (forall f | f in h.feed :: ChangeConsistent(texts, f))
  }

  // ------------------------------------------------------------------
  // The hypothesis: a node never gives a new version an id that means something else
  // ------------------------------------------------------------------

  ghost predicate MintsOne(texts: Texts, x: Session, st: Store, ch: Change, d: Draw) {
    ch.table.Some? && ApplyOne(x, st, ch.table.value, ch, d).Done? ==>
      var a := ApplyOne(x, st, ch.table.value, ch, d);
      KeepsVersion(a.out) && VersionKey(d) in a.store.rows ==>
          Consistent(texts, VersionKey(d), a.store.rows[VersionKey(d)])
  }

  ghost predicate FoldMints(texts: Texts, x: Session, p: Progress, work: seq<Change>, draws: nat -> Draw)
    requires forall ch | ch in work :: ch.table.Some?
  {
    forall i: nat | i < |work| && Fold(x, None, p, work[..i], draws).Running? ::
      MintsOne(texts, x, Fold(x, None, p, work[..i], draws).store, work[i], draws(i))
  }

  /** The changes a pull step applies. */
  function Pulled(s: Sys, a: Action): seq<Change> {
    if a.ApplyPage? && s.page.Some? then WithBases(s.client.rowState, s.page.value.changes)
    else if a.RetryPulls? then WithBases(s.client.rowState, ListRetries(s.client.queue, Pull, a.limit))
    else []
  }

  function PullStart(c: Client, changes: seq<Change>): Progress {
    Running(c.store, map[], RefuseAll(Having(changes, None)))
  }

  ghost predicate OwnTexts(texts: Texts, w: World, s: Sys, a: Action) {
    match a
    case ClientEdit(k, row) => Consistent(texts, k, row)
    case ServerEdit(k, row) => Consistent(texts, k, row)
    case Deliver(m, d) => MintsOne(texts, ServerSession(w), s.server.store, m.change, d)
    case ApplyPage(draws) =>
      FoldMints(texts, ClientSession(w), PullStart(s.client, Pulled(s, a)), Ordered(Pulled(s, a)), draws)
    case RetryPulls(_, draws) =>
      FoldMints(texts, ClientSession(w), PullStart(s.client, Pulled(s, a)), Ordered(Pulled(s, a)), draws)
    case _ => true
  }

  ghost predicate IdsNameOneText(w: World, acts: seq<Action>, texts: Texts) {
    forall i | 0 <= i < |acts| :: OwnTexts(texts, w, SysAfter(w, acts[..i]), acts[i])
  }

  /** An edit that gives a version to another memo than its own. */
  predicate MovesVersion(a: Action, home: Id -> Value, id: Id) {
    (a.ClientEdit? || a.ServerEdit?) && a.key == Key(MemoVersions, id) && Get(a.row, MemoId) != home(id)
  }

  ghost predicate MovedAway(acts: seq<Action>, home: Id -> Value, id: Id) {
    exists i :: 0 <= i < |acts| && MovesVersion(acts[i], home, id)
  }

  ghost function TextsOf(acts: seq<Action>, content: Id -> Value, home: Id -> Value): Texts {
    Texts(content, home, id => MovedAway(acts, home, id))
  }

  /** Every write of a version, by an edit or for a conflict, has the text its id stands for, and a version
      kept for a conflict is written under its own memo. Edits may move versions between memos. */
  ghost predicate WriteOnce(w: World, acts: seq<Action>, content: Id -> Value, home: Id -> Value) {
    IdsNameOneText(w, acts, TextsOf(acts, content, home))
  }

  // ------------------------------------------------------------------
  // One row, one batch
  // ------------------------------------------------------------------

  /** Some version, of whatever memo, has the text; it is the given memo's unless it was moved. */
  ghost predicate StaysText(env: Env, rows: Rows, moved: Id -> bool, memo: Id, text: Value) {
    exists k :: k in rows && k.table == MemoVersions && SqlEqual(env, Get(rows[k], Content), text)
                && (IsVersionOf(rows, k, memo) || moved(k.id))
  }

  /** A kept version keeps its text, and its memo too if it is not moved. */
  lemma TextsStay(texts: Texts, env: Env, a: Rows, b: Rows, memo: Id, text: Value)
    requires AllConsistent(texts, a) && AllConsistent(texts, b) && a.Keys <= b.Keys
    requires StaysText(env, a, texts.moved, memo, text)
    ensures StaysText(env, b, texts.moved, memo, text)
  {
    hide SqlEqual;
    var k :| k in a && k.table == MemoVersions && SqlEqual(env, Get(a[k], Content), text)
             && (IsVersionOf(a, k, memo) || texts.moved(k.id));
    assert k in b && Consistent(texts, k, a[k]) && Consistent(texts, k, b[k]);
    assert SqlEqual(env, Get(b[k], Content), text) && (IsVersionOf(b, k, memo) || texts.moved(k.id));
  }

  lemma VersionTextStays(env: Env, rows: Rows, moved: Id -> bool, memo: Id, text: Value)
    requires HasVersionText(env, rows, memo, text)
    ensures StaysText(env, rows, moved, memo, text)
  {
    hide SqlEqual;
    var k :| k in rows && IsVersionOf(rows, k, memo) && SqlEqual(env, Get(rows[k], Content), text);
  }

  lemma ApplyKeepsTexts(w: World, texts: Texts, x: Session, st: Store, ch: Change, d: Draw)
    requires x.applying && NodeOk(w, st.rows) && WireOk(w, ch) && d.id != ""
    requires ApplyOne(x, st, ch.table.value, ch, d).Done?
    requires AllConsistent(texts, st.rows) && ChangeConsistent(texts, ch) && MintsOne(texts, x, st, ch, d)
    ensures var now := ApplyOne(x, st, ch.table.value, ch, d).store.rows;
            NodeOk(w, now) && AllConsistent(texts, now) && st.rows.Keys <= now.Keys
  {
    ApplyTouchesTwoRows(x, st, ch.table.value, ch, d);
    ApplyReplaces(w, x, st, ch, d);
    ApplyEvolves(w, x, st, ch, d);
    hide ApplyOne, NodeOk, RowOk, Arrives, FreshVersion, LoggedIn;
    var a := ApplyOne(x, st, ch.table.value, ch, d);
    var k, vk := KeyOf(ch), VersionKey(d);
    forall j | j in a.store.rows ensures Consistent(texts, j, a.store.rows[j]) {
      if j != k && j != vk {
        assert SameAt(st.rows, a.store.rows, j);
      } else if j == k && a.out.status != Applied {
        assert SameAt(st.rows, a.store.rows, k);
      }
    }
  }

  lemma StepKeepsTexts(w: World, texts: Texts, x: Session, p: Progress, ch: Change, d: Draw)
    requires p.Running? && x.applying && NodeOk(w, p.store.rows) && ch.table.Some? && WireOk(w, ch) && d.id != ""
    requires AllConsistent(texts, p.store.rows) && ChangeConsistent(texts, ch) && MintsOne(texts, x, p.store, ch, d)
    ensures var q := StepRow(x, None, p, ch.table.value, ch, d);
            q.Running? && NodeOk(w, q.store.rows) && AllConsistent(texts, q.store.rows)
              && p.store.rows.Keys <= q.store.rows.Keys
  {
    hide ApplyOne, NodeOk, WireOk, AllConsistent, EffectiveClock, Merge, MintsOne;
    if ApplyOne(x, p.store, ch.table.value, ch, d).Done? { ApplyKeepsTexts(w, texts, x, p.store, ch, d); }
  }

  ghost predicate AllWire(w: World, texts: Texts, work: seq<Change>) {
    forall ch | ch in work :: ch.table.Some? && WireOk(w, ch) && ChangeConsistent(texts, ch)
  }

  lemma PrefixMints(texts: Texts, x: Session, p: Progress, work: seq<Change>, draws: nat -> Draw, n: nat)
    requires n < |work| && forall ch | ch in work :: ch.table.Some?
    requires FoldMints(texts, x, p, work, draws)
    ensures FoldMints(texts, x, p, work[..n], draws)
    ensures var b := Fold(x, None, p, work[..n], draws); b.Running? ==> MintsOne(texts, x, b.store, work[n], draws(n))
  {
    hide MintsOne, Fold;
    assert forall i: nat | i < n :: work[..n][..i] == work[..i] && work[..n][i] == work[i];
  }

  ghost predicate TextStore(w: World, texts: Texts, p: Progress) {
    p.Running? && NodeOk(w, p.store.rows) && AllConsistent(texts, p.store.rows)
  }

  lemma {:induction false} FoldKeepsTexts(
    w: World, texts: Texts, x: Session, p: Progress, work: seq<Change>, draws: nat -> Draw)
    requires x.applying && TextStore(w, texts, p) && AllWire(w, texts, work)
    requires FoldMints(texts, x, p, work, draws) && forall i :: draws(i).id != ""
    ensures TextStore(w, texts, Fold(x, None, p, work, draws))
  {
    hide StepRow, NodeOk, WireOk, AllConsistent, MintsOne, ChangeConsistent, FoldMints;
    if work != [] {
      var n := |work| - 1;
      PrefixMints(texts, x, p, work, draws, n);
      FoldKeepsTexts(w, texts, x, p, work[..n], draws);
      StepKeepsTexts(w, texts, x, Fold(x, None, p, work[..n], draws), work[n], draws(n));
    }
  }

  lemma AllWireListed(w: World, texts: Texts, work: seq<Change>)
    requires AllWire(w, texts, work)
    ensures forall ch | ch in work :: ch.table.Some?
  {
    hide WireOk, ChangeConsistent;
  }

  lemma StepKeepsStore(w: World, texts: Texts, x: Session, p: Progress, ch: Change, d: Draw)
    requires x.applying && TextStore(w, texts, p) && ch.table.Some? && WireOk(w, ch) && d.id != ""
    requires ChangeConsistent(texts, ch) && MintsOne(texts, x, p.store, ch, d)
    ensures var q := StepRow(x, None, p, ch.table.value, ch, d);
            TextStore(w, texts, q) && p.store.rows.Keys <= q.store.rows.Keys
  {
    hide StepRow, NodeOk, WireOk, AllConsistent, MintsOne, ChangeConsistent;
    StepKeepsTexts(w, texts, x, p, ch, d);
  }

  lemma StoreRuns(w: World, texts: Texts, p: Progress)
    requires TextStore(w, texts, p)
    ensures p.Running?
  {
  }

  /** The first `j` rows of a batch already hold nothing the whole batch would lose. */
  lemma {:induction false} PrefixRowsStay(
    w: World, texts: Texts, x: Session, p: Progress, work: seq<Change>, draws: nat -> Draw, j: nat)
    requires x.applying && TextStore(w, texts, p) && AllWire(w, texts, work)
    requires FoldMints(texts, x, p, work, draws) && forall i :: draws(i).id != ""
    requires j <= |work|
    ensures TextStore(w, texts, Fold(x, None, p, work[..j], draws))
            && TextStore(w, texts, Fold(x, None, p, work, draws))
    ensures Fold(x, None, p, work[..j], draws).store.rows.Keys <= Fold(x, None, p, work, draws).store.rows.Keys
  {
    hide StepRow, WireOk, MintsOne, ChangeConsistent, FoldMints, AllWire, TextStore;
    AllWireListed(w, texts, work);
    StoreRuns(w, texts, p);
    FoldKeepsTexts(w, texts, x, p, work, draws);
    StoreRuns(w, texts, Fold(x, None, p, work, draws));
    if j == |work| {
      assert work[..j] == work;
    } else {
      var n := |work| - 1;
      WirePrefix(w, texts, work, n);
      PrefixMints(texts, x, p, work, draws, n);
      PrefixRowsStay(w, texts, x, p, work[..n], draws, j);
      assert work[..n][..j] == work[..j];
      StoreRuns(w, texts, Fold(x, None, p, work[..n], draws));
      StepKeepsStore(w, texts, x, Fold(x, None, p, work[..n], draws), work[n], draws(n));
    }
  }

  lemma WirePrefix(w: World, texts: Texts, work: seq<Change>, n: nat)
    requires AllWire(w, texts, work) && n < |work|
    ensures AllWire(w, texts, work[..n])
    ensures work[n].table.Some? && WireOk(w, work[n]) && ChangeConsistent(texts, work[n])
  {
    hide WireOk, ChangeConsistent;
  }

  // ------------------------------------------------------------------
  // Each action
  // ------------------------------------------------------------------

  lemma FeedIsConsistent(w: World, texts: Texts, changes: seq<Change>, feed: set<Change>)
    requires AllFromFeed(w, changes, feed) && forall f | f in feed :: ChangeConsistent(texts, f)
    ensures AllWire(w, texts, changes) && AllWire(w, texts, Ordered(changes))
    ensures Having(changes, None) == []
  {
    hide RowOk, Consistent, Ordered, Having;
    forall ch | ch in changes ensures WireOk(w, ch) && ChangeConsistent(texts, ch) {
      assert InFeeds(w, Some(ch), feed);
      var f :| f in feed && WireOk(w, f) && SameItem(f, ch);
      assert ChangeConsistent(texts, f);
    }
    NothingUnlisted(changes);
  }

  lemma PulledIsFromFeed(w: World, s: Sys, h: Hist, a: Action)
    requires Inv(w, s, h) && Enabled(w, s, a) && (a.ApplyPage? || a.RetryPulls?)
    ensures AllFromFeed(w, Pulled(s, a), h.feed)
  {
    hide WithBases, ListRetries, ClientOk, NodeOk, ReceiptsDelivered, AllFromFeed, DistinctSeqs, SeqsNameChanges,
      InboxOk, SameItem;
    if a.ApplyPage? { PageChangesOk(w, s, h); } else { RetryChangesOk(w, s.client, a.limit, h.feed); }
  }

  /** What a pull step leaves on the client is the whole fold over what it pulled. */
  lemma PullIsWholeFold(w: World, s: Sys, h: Hist, a: Action, draws: nat -> Draw)
    requires Inv(w, s, h) && Enabled(w, s, a)
    requires a == ApplyPage(draws) || (a.RetryPulls? && a.draws == draws)
    ensures var q := Fold(ClientSession(w), None, PullStart(s.client, Pulled(s, a)), Ordered(Pulled(s, a)), draws);
            q.Running? && Exec(w, s, a).client.store.rows == q.store.rows
    ensures forall i :: draws(i).id != ""
  {
    hide WithBases, ListRetries, ClientOk, NodeOk, ReceiptsDelivered, AllFromFeed, DistinctSeqs, SeqsNameChanges,
      InboxOk, SameItem,
      Fold, SettlePage, SettleRetries, Ordered, Having, Landed, NeverOlder, OneFate, Retires, NotDead, Settles,
        Finished, Holds;
    if a.ApplyPage? {
      PageCommits(w, s, h, draws);
      PageChangesOk(w, s, h);
      var changes := Pulled(s, a);
      var q := PullBatch(w, s.client, changes, draws);
      PageIsHeldOrFinished(s.client.(store := q.store), changes, q.out.results);
      SettlesParts(s.client.(store := q.store), SettlePage(s.client.(store := q.store), changes, q.out.results).value,
        changes);
    } else {
      var changes := Pulled(s, a);
      RetryChangesOk(w, s.client, a.limit, h.feed);
      PullBatchKeepsOk(w, s.client, s.server.store, h, s.page, changes, draws);
      AddressedFromFeed(w, changes, h.feed);
      var q := PullBatch(w, s.client, changes, draws);
      InboxHasOneFate(w, s.client.queue, s.client.pulled, h.feed);
      RetriesRetire(s.client.(store := q.store), changes, q.out.results);
      RetiresSettled(s.client.(store := q.store), SettleRetries(s.client.(store := q.store), changes, q.out.results),
        changes, q.out.results);
    }
  }

  lemma AddressedFromFeed(w: World, changes: seq<Change>, feed: set<Change>)
    requires AllFromFeed(w, changes, feed)
    ensures Addressed(changes)
  {
    hide InFeeds;
  }

  lemma PullKeepsTexts(w: World, texts: Texts, s: Sys, h: Hist, a: Action)
    requires Inv(w, s, h) && Enabled(w, s, a) && (a.ApplyPage? || a.RetryPulls?)
    requires TextsOk(texts, s, h) && OwnTexts(texts, w, s, a)
    ensures TextsOk(texts, Exec(w, s, a), Record(w, s, h, a))
  {
    hide WithBases, ListRetries, FoldMints, Fold, Ordered, Having, AllFromFeed, AllConsistent, NodeOk, AllWire;
    PulledIsFromFeed(w, s, h, a);
    FeedIsConsistent(w, texts, Pulled(s, a), h.feed);
    PullIsWholeFold(w, s, h, a, a.draws);
    PullsFrame(w, s, h, a);
    assert NodeOk(w, s.client.store.rows);
    FoldKeepsTexts(w, texts, ClientSession(w), PullStart(s.client, Pulled(s, a)), Ordered(Pulled(s, a)), a.draws);
    hide Inv, Enabled, PullBatch, HandledBy, NeverOlder, SettlePage, SettleRetries, Pulled, ExecApplyPage,
      ExecRetryPulls;
  }

  lemma DeliveredTexts(w: World, texts: Texts, st: Store, receipts: Receipts, m: Message, d: Draw)
    requires m.change.table.Some? && WireOk(w, m.change) && NodeOk(w, st.rows) && d.id != ""
    requires AllConsistent(texts, st.rows) && ChangeConsistent(texts, m.change)
    requires MintsOne(texts, ServerSession(w), st, m.change, d)
    ensures var q := ApplyBatch(ServerSession(w), Some(m.from), st, receipts, [m.change], i => d);
            q.Running? ==> AllConsistent(texts, q.store.rows) && st.rows.Keys <= q.store.rows.Keys
  {
    SingleBatch(ServerSession(w), Some(m.from), st, receipts, m.change, i => d);
    hide ApplyBatch, ApplyOne, EffectiveClock, Merge, PartOf, RefusedPart, AllConsistent, NodeOk, WireOk, MintsOne,
      ChangeConsistent;
    if ApplyOne(ServerSession(w), st, m.change.table.value, m.change, d).Done? {
      ApplyKeepsTexts(w, texts, ServerSession(w), st, m.change, d);
    }
  }

  lemma DeliverKeepsTexts(w: World, texts: Texts, s: Sys, h: Hist, m: Message, d: Draw)
    requires Inv(w, s, h) && Enabled(w, s, Deliver(m, d))
    requires TextsOk(texts, s, h) && OwnTexts(texts, w, s, Deliver(m, d))
    ensures TextsOk(texts, Exec(w, s, Deliver(m, d)), Record(w, s, h, Deliver(m, d)))
  {
    assert WireOk(w, m.change) && ChangeConsistent(texts, m.change) && NodeOk(w, s.server.store.rows) by {
      assert m.change == h.snap[m.change.seqNo.value];
      hide Consistent, AllConsistent, MintsOne;
    }
    hide Inv, AllConsistent, NodeOk, WireOk, MintsOne, ChangeConsistent, ApplyBatch, AuthorAfter;
    DeliveredTexts(w, texts, s.server.store, s.server.receipts, m, d);
  }

  lemma CollectedTexts(texts: Texts, c: Client, hi: nat)
    requires c.pushed <= hi <= |c.store.log| && AllConsistent(texts, c.store.rows)
    ensures forall ch | ch in CollectWindow(c.store, c.rowState, c.pushed, hi) :: ChangeConsistent(texts, ch)
  {
    CollectWindowItems(c.store, c.rowState, c.pushed, hi);
    hide CollectWindow, LastOfItsRow, Consistent;
    var items := CollectWindow(c.store, c.rowState, c.pushed, hi);
    forall ch | ch in items ensures ChangeConsistent(texts, ch) {
      var i :| c.pushed <= i < hi && LastOfItsRow(c.store.log, i, hi) && ch == LocalChange(c.store, c.rowState, i);
    }
  }

  lemma TakenTexts(texts: Texts, q: Queue, r: Queue, items: seq<Change>)
    requires Gains(q, r, items) && forall ch | ch in items :: ChangeConsistent(texts, ch)
    ensures forall n | n in Snapped(q, r) :: ChangeConsistent(texts, Snapped(q, r)[n])
  {
    hide ChangeConsistent;
  }

  lemma TakenAreConsistent(w: World, texts: Texts, s: Sys, h: Hist, limit: nat)
    requires Inv(w, s, h) && AllConsistent(texts, s.client.store.rows)
    ensures var taken := Snapped(s.client.queue, ExecCollect(s, limit).client.queue);
            forall n | n in taken :: ChangeConsistent(texts, taken[n])
    ensures ExecCollect(s, limit).client.store == s.client.store && ExecCollect(s, limit).server == s.server
  {
    hide Inv, CollectWindow, EnqueueAll, AllConsistent, ChangeConsistent, Gains, Snapped;
    var c := s.client;
    var hi := WindowEnd(c.store.log, c.pushed, limit);
    CollectCommits(w, s, h, limit);
    PushedIsLogged(w, s, h);
    CollectedTexts(texts, c, hi);
    var items := CollectWindow(c.store, c.rowState, c.pushed, hi);
    var r := EnqueueAll(c.queue, Push, items).value;
    GainsFromEnqueue(c.queue, items, r);
    TakenTexts(texts, c.queue, r, items);
  }

  lemma PushedIsLogged(w: World, s: Sys, h: Hist)
    requires Inv(w, s, h)
    ensures s.client.pushed <= |s.client.store.log|
  {
    hide Books, NodeOk, ReceiptsDelivered, SnapsBound, FeedsBound, LogStored, Covered;
  }

  lemma CollectKeepsTexts(w: World, texts: Texts, s: Sys, h: Hist, limit: nat)
    requires Inv(w, s, h) && TextsOk(texts, s, h)
    ensures TextsOk(texts, Exec(w, s, Collect(limit)), Record(w, s, h, Collect(limit)))
  {
    hide Inv, AllConsistent, ChangeConsistent, Snapped, ExecCollect;
    TakenAreConsistent(w, texts, s, h, limit);
  }

  lemma ReadKeepsTexts(w: World, texts: Texts, s: Sys, h: Hist, limit: nat)
    requires Inv(w, s, h) && TextsOk(texts, s, h)
    ensures TextsOk(texts, Exec(w, s, ReadPage(limit)), Record(w, s, h, ReadPage(limit)))
  {
    var st := s.server.store;
    var hi := WindowEnd(st.log, s.client.pulled, limit);
    assert s.client.pulled <= |st.log|;
    hide Inv, InFeed, Consistent;
    ReadWindowItems(st, w.account, s.client.pulled, hi);
    hide ReadWindow;
    forall ch | ch in ReadWindow(st, w.account, s.client.pulled, hi) ensures ChangeConsistent(texts, ch) {
      var i :| s.client.pulled <= i < hi && InFeed(st, w.account, i, hi) && ch == FeedChange(st, i);
      assert Consistent(texts, st.log[i].key, st.rows[st.log[i].key]);
    }
    hide AllConsistent, ChangeConsistent;
  }

  lemma AnswerKeepsTexts(w: World, texts: Texts, s: Sys, h: Hist, reply: Reply)
    requires TextsOk(texts, s, h)
    ensures TextsOk(texts, Exec(w, s, Answer(reply)), Record(w, s, h, Answer(reply)))
  {
    AnswerMovesOneEntry(s.client, reply.seqNo, reply.answer);
    hide SettlePushed, AllConsistent, ChangeConsistent, OutboxMove;
  }

  lemma LocalKeepsTexts(w: World, texts: Texts, s: Sys, h: Hist, a: Action)
    requires TextsOk(texts, s, h) && OwnTexts(texts, w, s, a)
    requires a.ClientEdit? || a.ServerEdit? || a.Send? || a.Crash?
    ensures TextsOk(texts, Exec(w, s, a), Record(w, s, h, a))
  {
    hide Consistent, ChangeConsistent, AuthorAfter;
  }

  lemma ActionKeepsTexts(w: World, texts: Texts, s: Sys, h: Hist, a: Action)
    requires Inv(w, s, h) && Enabled(w, s, a)
    requires TextsOk(texts, s, h) && OwnTexts(texts, w, s, a)
    ensures TextsOk(texts, Exec(w, s, a), Record(w, s, h, a))
  {
    hide TextsOk, Exec, Record, OwnTexts, Inv, Enabled;
    match a {
      case Deliver(m, d) => DeliverKeepsTexts(w, texts, s, h, m, d);
      case ApplyPage(_) => PullKeepsTexts(w, texts, s, h, a);
      case RetryPulls(_, _) => PullKeepsTexts(w, texts, s, h, a);
      case Collect(limit) => CollectKeepsTexts(w, texts, s, h, limit);
      case ReadPage(limit) => ReadKeepsTexts(w, texts, s, h, limit);
      case Answer(reply) => AnswerKeepsTexts(w, texts, s, h, reply);
      case _ => LocalKeepsTexts(w, texts, s, h, a);
    }
  }

  lemma {:induction false} RunKeepsTexts(w: World, acts: seq<Action>, texts: Texts)
    requires IsRun(w, acts) && IdsNameOneText(w, acts, texts)
    ensures TextsOk(texts, After(w, acts).0, After(w, acts).1)
  {
    hide Inv, Exec, Record, Enabled, OwnTexts, AllConsistent, ChangeConsistent;
    if acts == [] {
      assert AllConsistent(texts, map[]) by { EmptyIsConsistent(texts); }
    } else {
      var n := |acts| - 1;
      PrefixIsRun(w, acts, n);
      assert forall i | 0 <= i < n :: acts[..n][..i] == acts[..i];
      RunKeepsTexts(w, acts[..n], texts);
      RunKeepsInv(w, acts[..n]);
      hide TextsOk, IsRun;
      ActionKeepsTexts(w, texts, After(w, acts[..n]).0, After(w, acts[..n]).1, acts[n]);
    }
  }

  lemma EmptyIsConsistent(texts: Texts)
    ensures AllConsistent(texts, map[])
  {
  }

  // ------------------------------------------------------------------
  // The theorems
  // ------------------------------------------------------------------

  /** The text on the losing side of a diverging memo change. */
  ghost function LosingText(x: Session, st: Store, ch: Change): Value
    requires Diverges(x, st, Memos, ch)
  {
    var existing, incoming := st.rows[Key(Memos, ch.rowId)], FilterRow(Memos, ch.row.value);
    Get(if IncomingWins(ClockOf(incoming).value, ClockOf(existing), x.side) then existing else incoming, Content)
  }

  /** A row that was not rolled back leaves the losing text among the memo's versions. */
  lemma LoserIsKept(x: Session, st: Store, ch: Change, d: Draw)
    requires Reflexive(x.env) && Diverges(x, st, Memos, ch) && ApplyOne(x, st, Memos, ch, d).Done?
    ensures LosingText(x, st, ch) != Null ==>
              HasVersionText(x.env, ApplyOne(x, st, Memos, ch, d).store.rows, ch.rowId, LosingText(x, st, ch))
  {
    LosingTextSurvives(x, st, ch, d);
    hide FindDuplicates, ConstraintsHold, TrueDivergence, RowsEquivalent, IncomingWins, HasVersionText;
  }

  /** A text kept as a version of a memo stays the text of some version, on either node, for the rest of the
      run, and of a version of that memo unless an edit of the run moves it away. */
  lemma TextsStayInRun(
    w: World, acts: seq<Action>, content: Id -> Value, home: Id -> Value, i: nat, memo: Id, text: Value)
    requires IsRun(w, acts) && WriteOnce(w, acts, content, home) && i <= |acts|
    ensures var moved := (id: Id) => MovedAway(acts, home, id);
            && (HasVersionText(w.env, SysAfter(w, acts[..i]).server.store.rows, memo, text) ==>
                  StaysText(w.env, SysAfter(w, acts).server.store.rows, moved, memo, text))
            && (HasVersionText(w.env, SysAfter(w, acts[..i]).client.store.rows, memo, text) ==>
                  StaysText(w.env, SysAfter(w, acts).client.store.rows, moved, memo, text))
  {
    hide IsRun, IdsNameOneText, SysAfter, HasVersionText, StaysText;
    var texts := TextsOf(acts, content, home);
    var s := SysAfter(w, acts[..i]);
    if HasVersionText(w.env, s.server.store.rows, memo, text) {
      VersionTextStays(w.env, s.server.store.rows, texts.moved, memo, text);
    }
    if HasVersionText(w.env, s.client.store.rows, memo, text) {
      VersionTextStays(w.env, s.client.store.rows, texts.moved, memo, text);
    }
    StaysInRun(w, acts, texts, i, memo, text);
  }

  lemma StaysInRun(w: World, acts: seq<Action>, texts: Texts, i: nat, memo: Id, text: Value)
    requires IsRun(w, acts) && IdsNameOneText(w, acts, texts) && i <= |acts|
    ensures StaysText(w.env, SysAfter(w, acts[..i]).server.store.rows, texts.moved, memo, text) ==>
              StaysText(w.env, SysAfter(w, acts).server.store.rows, texts.moved, memo, text)
    ensures StaysText(w.env, SysAfter(w, acts[..i]).client.store.rows, texts.moved, memo, text) ==>
              StaysText(w.env, SysAfter(w, acts).client.store.rows, texts.moved, memo, text)
  {
    PrefixIsRun(w, acts, i);
    PrefixNames(w, acts, texts, i);
    RunKeepsTexts(w, acts, texts);
    RunKeepsTexts(w, acts[..i], texts);
    RunNeverGoesBack(w, acts, i);
    hide IsRun, IdsNameOneText, AllConsistent, After, StaysText;
    var s, t := SysAfter(w, acts[..i]), SysAfter(w, acts);
    if StaysText(w.env, s.server.store.rows, texts.moved, memo, text) {
      TextsStay(texts, w.env, s.server.store.rows, t.server.store.rows, memo, text);
    }
    if StaysText(w.env, s.client.store.rows, texts.moved, memo, text) {
      TextsStay(texts, w.env, s.client.store.rows, t.client.store.rows, memo, text);
    }
  }

  /** Where a version is stored, it is its own memo's. */
  ghost predicate AtHome(s: Sys, home: Id -> Value, id: Id) {
    var k := Key(MemoVersions, id);
    && (k in s.client.store.rows ==> Get(s.client.store.rows[k], MemoId) == home(id))
    && (k in s.server.store.rows ==> Get(s.server.store.rows[k], MemoId) == home(id))
  }

  /** A version is found under its own memo in every state of the run if and only if no edit moves it away. */
  lemma StaysHomeExactlyUnlessMoved(w: World, acts: seq<Action>, content: Id -> Value, home: Id -> Value, id: Id)
    requires IsRun(w, acts) && WriteOnce(w, acts, content, home)
    ensures (forall i | 0 <= i <= |acts| :: AtHome(SysAfter(w, acts[..i]), home, id)) <==> !MovedAway(acts, home, id)
  {
    hide IsRun, IdsNameOneText, SysAfter;
    var texts := TextsOf(acts, content, home);
    if MovedAway(acts, home, id) {
      hide AtHome;
      var i :| 0 <= i < |acts| && MovesVersion(acts[i], home, id);
      MoveIsSeen(w, acts, home, id, i);
      assert !AtHome(SysAfter(w, acts[..i + 1]), home, id);
    } else {
      forall i | 0 <= i <= |acts| ensures AtHome(SysAfter(w, acts[..i]), home, id) {
        PrefixIsRun(w, acts, i);
        PrefixNames(w, acts, texts, i);
        UnmovedIsHome(w, acts[..i], texts, id);
      }
    }
  }

  lemma UnmovedIsHome(w: World, acts: seq<Action>, texts: Texts, id: Id)
    requires IsRun(w, acts) && IdsNameOneText(w, acts, texts) && !texts.moved(id)
    ensures AtHome(SysAfter(w, acts), texts.home, id)
  {
    RunKeepsTexts(w, acts, texts);
    hide IsRun, IdsNameOneText, After;
    var k, s := Key(MemoVersions, id), SysAfter(w, acts);
    if k in s.client.store.rows { assert Consistent(texts, k, s.client.store.rows[k]); }
    if k in s.server.store.rows { assert Consistent(texts, k, s.server.store.rows[k]); }
  }

  lemma MoveIsSeen(w: World, acts: seq<Action>, home: Id -> Value, id: Id, i: nat)
    requires i < |acts| && MovesVersion(acts[i], home, id)
    ensures !AtHome(SysAfter(w, acts[..i + 1]), home, id)
  {
    assert acts[..i + 1][..i] == acts[..i];
    assert SysAfter(w, acts[..i + 1]) == Exec(w, SysAfter(w, acts[..i]), acts[i]);
  }

  lemma PrefixNames(w: World, acts: seq<Action>, texts: Texts, n: nat)
    requires IdsNameOneText(w, acts, texts) && n <= |acts|
    ensures IdsNameOneText(w, acts[..n], texts)
  {
    hide OwnTexts, After;
    assert forall i | 0 <= i < n :: acts[..n][..i] == acts[..i];
  }

  /** A fresh push that diverges from the server's memo: in every later state some version on the server has
      the text that lost, and it is that memo's version unless an edit of the run moves it away. */
  lemma PushedLoserSurvives(
    w: World, acts: seq<Action>, content: Id -> Value, home: Id -> Value, i: nat, m: Message, d: Draw)
    requires IsRun(w, acts) && WriteOnce(w, acts, content, home) && Reflexive(w.env)
    requires i < |acts| && acts[i] == Deliver(m, d) && m.change.table == Some(Memos) && m.change.seqNo.Some?
    requires var srv := SysAfter(w, acts[..i]).server;
             && ReceiptKey(m.from, m.change.seqNo.value) !in srv.receipts
             && Diverges(ServerSession(w), srv.store, Memos, m.change)
             && ApplyOne(ServerSession(w), srv.store, Memos, m.change, d).Done?
    ensures var text := LosingText(ServerSession(w), SysAfter(w, acts[..i]).server.store, m.change);
            text != Null ==>
              StaysText(w.env, SysAfter(w, acts).server.store.rows, id => MovedAway(acts, home, id), m.change.rowId,
                text)
  {
    var srv, ch := SysAfter(w, acts[..i]).server, m.change;
    LoserIsKept(ServerSession(w), srv.store, ch, d);
    DeliveredStore(w, SysAfter(w, acts[..i]), m, d);
    assert acts[..i + 1][..i] == acts[..i];
    assert SysAfter(w, acts[..i + 1]) == Exec(w, SysAfter(w, acts[..i]), acts[i]);
    hide Exec, ApplyOne, Diverges, IsRun, IdsNameOneText, SysAfter, LosingText, HasVersionText, StaysText;
    TextsStayInRun(w, acts, content, home, i + 1, ch.rowId, LosingText(ServerSession(w), srv.store, ch));
  }

  lemma DeliveredStore(w: World, s: Sys, m: Message, d: Draw)
    requires m.change.table.Some? && m.change.seqNo.Some?
    requires ReceiptKey(m.from, m.change.seqNo.value) !in s.server.receipts
    ensures var a := ApplyOne(ServerSession(w), s.server.store, m.change.table.value, m.change, d);
            a.Done? ==> Exec(w, s, Deliver(m, d)).server.store == a.store
  {
    hide ApplyBatch, ApplyOne, EffectiveClock, Merge, PartOf, RefusedPart;
    SingleBatch(ServerSession(w), Some(m.from), s.server.store, s.server.receipts, m.change, i => d);
  }

  /** A pulled memo change that diverges when its turn comes in the batch: in every later state some version on
      the client has the text that lost, and it is that memo's version unless an edit of the run moves it away. */
  lemma PulledLoserSurvives(
    w: World, acts: seq<Action>, content: Id -> Value, home: Id -> Value, i: nat, draws: nat -> Draw, j: nat)
    requires IsRun(w, acts) && WriteOnce(w, acts, content, home) && Reflexive(w.env) && i < |acts|
    requires acts[i] == ApplyPage(draws) || (acts[i].RetryPulls? && acts[i].draws == draws)
    requires var s := SysAfter(w, acts[..i]);
             var work := Ordered(Pulled(s, acts[i]));
             && j < |work| && work[j].table == Some(Memos)
             && (var before := Fold(ClientSession(w), None, PullStart(s.client, Pulled(s, acts[i])), work[..j], draws);
                 && before.Running?
                 && Diverges(ClientSession(w), before.store, Memos, work[j])
                 && ApplyOne(ClientSession(w), before.store, Memos, work[j], draws(j)).Done?)
    ensures var s := SysAfter(w, acts[..i]);
            var work := Ordered(Pulled(s, acts[i]));
            var before := Fold(ClientSession(w), None, PullStart(s.client, Pulled(s, acts[i])), work[..j], draws);
            var text := LosingText(ClientSession(w), before.store, work[j]);
            text != Null ==>
              StaysText(w.env, SysAfter(w, acts).client.store.rows, id => MovedAway(acts, home, id), work[j].rowId,
                text)
  {
    hide Fold, Diverges, LosingText, Ordered, Pulled, StaysText, Inv, TextsOk, SysAfter, HistAfter, IsRun,
      IdsNameOneText, Exec, Enabled, OwnTexts, ApplyOne;
    var texts := TextsOf(acts, content, home);
    RunStepFacts(w, acts, texts, i);
    var s, a := SysAfter(w, acts[..i]), acts[i];
    PulledLoserIsKept(w, texts, s, HistAfter(w, acts[..i]), a, draws, j);
    var work := Ordered(Pulled(s, a));
    var before := Fold(ClientSession(w), None, PullStart(s.client, Pulled(s, a)), work[..j], draws);
    StaysInRun(w, acts, texts, i + 1, work[j].rowId, LosingText(ClientSession(w), before.store, work[j]));
  }

  /** What the run's invariants and hypotheses say at step `i`. */
  lemma RunStepFacts(w: World, acts: seq<Action>, texts: Texts, i: nat)
    requires IsRun(w, acts) && IdsNameOneText(w, acts, texts) && i < |acts|
    ensures var s, h := SysAfter(w, acts[..i]), HistAfter(w, acts[..i]);
            && Inv(w, s, h) && TextsOk(texts, s, h) && Enabled(w, s, acts[i]) && OwnTexts(texts, w, s, acts[i])
            && SysAfter(w, acts[..i + 1]) == Exec(w, s, acts[i])
  {
    hide Inv, TextsOk, Enabled, OwnTexts, Exec, Record;
    PrefixIsRun(w, acts, i);
    PrefixNames(w, acts, texts, i);
    RunKeepsInv(w, acts[..i]);
    RunKeepsTexts(w, acts[..i], texts);
    assert acts[..i + 1][..i] == acts[..i];
  }

  lemma PulledLoserIsKept(w: World, texts: Texts, s: Sys, h: Hist, a: Action, draws: nat -> Draw, j: nat)
    requires Inv(w, s, h) && Enabled(w, s, a) && TextsOk(texts, s, h) && OwnTexts(texts, w, s, a) && Reflexive(w.env)
    requires a == ApplyPage(draws) || (a.RetryPulls? && a.draws == draws)
    requires var work := Ordered(Pulled(s, a));
             && j < |work| && work[j].table == Some(Memos)
             && (var before := Fold(ClientSession(w), None, PullStart(s.client, Pulled(s, a)), work[..j], draws);
                 && before.Running?
                 && Diverges(ClientSession(w), before.store, Memos, work[j])
                 && ApplyOne(ClientSession(w), before.store, Memos, work[j], draws(j)).Done?)
    ensures var work := Ordered(Pulled(s, a));
            var before := Fold(ClientSession(w), None, PullStart(s.client, Pulled(s, a)), work[..j], draws);
            var text := LosingText(ClientSession(w), before.store, work[j]);
            text != Null ==> StaysText(w.env, Exec(w, s, a).client.store.rows, texts.moved, work[j].rowId, text)
  {
    var x, start, work := ClientSession(w), PullStart(s.client, Pulled(s, a)), Ordered(Pulled(s, a));
    hide Ordered, Having, WithBases, ListRetries, NodeOk, Exec, AllConsistent, AllWire, AllFromFeed, Pulled, FoldMints,
      Diverges, LosingText, HasVersionText, StaysText, ApplyOne;
    PulledIsFromFeed(w, s, h, a);
    FeedIsConsistent(w, texts, Pulled(s, a), h.feed);
    PullIsWholeFold(w, s, h, a, draws);
    assert NodeOk(w, s.client.store.rows);
    hide Inv, Enabled;
    PrefixRowsStay(w, texts, x, start, work, draws, j + 1);
    var before := Fold(x, None, start, work[..j], draws);
    LoserIsKept(x, before.store, work[j], draws(j));
    assert work[..j + 1][..j] == work[..j];
    PrefixStep(x, start, work, draws, j);
    var text := LosingText(x, before.store, work[j]);
    hide Fold;
    if text != Null {
      VersionTextStays(w.env, Fold(x, None, start, work[..j + 1], draws).store.rows, texts.moved, work[j].rowId, text);
      TextsStay(texts, w.env, Fold(x, None, start, work[..j + 1], draws).store.rows,
                Fold(x, None, start, work, draws).store.rows, work[j].rowId, text);
    }
  }

  lemma PrefixStep(x: Session, p: Progress, work: seq<Change>, draws: nat -> Draw, j: nat)
    requires j < |work| && forall ch | ch in work :: ch.table.Some?
    requires Fold(x, None, p, work[..j], draws).Running?
    ensures var before, after := Fold(x, None, p, work[..j], draws), Fold(x, None, p, work[..j + 1], draws);
            var a := ApplyOne(x, before.store, work[j].table.value, work[j], draws(j));
            after.Running? && (a.Done? ==> after.store == a.store)
  {
    hide ApplyOne, EffectiveClock, Merge, PartOf, RefusedPart;
    assert work[..j + 1][..j] == work[..j];
  }
}
