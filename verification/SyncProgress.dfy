/** Termination without echo: no protocol step raises what is pending, and while something is pending and
    nothing was refused, some answered exchange lowers it. */
module SyncProgress {
  import opened SyncSchema
  import opened SyncStore
  import opened SyncApply
  import opened SyncApplyProofs
  import opened SyncEffectProofs
  import opened SyncBatch
  import opened SyncBatchProofs
  import opened SyncQueue
  import opened SyncFeedProofs
  import opened SyncQueueProofs
  import opened TwoNode
  import opened SyncInvariants
  import opened SyncPullProofs
  import opened SyncSafety
  import opened SyncConvergence
  import opened SyncExactlyOnce
  import opened SyncCommits

  // ------------------------------------------------------------------
  // The measure
  // ------------------------------------------------------------------

  predicate Within(n: nat, lo: nat, hi: nat) {
    lo < n <= hi
  }

  function Window(lo: nat, hi: nat): set<nat> {
    set n: nat | n <= hi && Within(n, lo, hi)
  }

  /** Seqs beyond a mark. */
  function Beyond(log: seq<LogEntry>, mark: nat): set<nat> {
    Window(mark, |log|)
  }

  /** Those of the seqs that are about versions, or are not. */
  function Kind(seqs: set<nat>, log: seq<LogEntry>, versions: bool): set<nat> {
    set n | n in seqs && 0 < n <= |log| && (log[n - 1].key.table == MemoVersions) == versions
  }

  function Count(seqs: set<nat>, log: seq<LogEntry>, versions: bool): nat {
    |Kind(seqs, log, versions)|
  }

  function ReceiptedSeqs(receipts: Receipts): set<nat> {
    set key | key in receipts :: key.seqNo
  }

  /** Work left: three steps for an unscanned local entry (collect, deliver, answer), two for an unread
      server entry (pull, retry), and what remains of those for the queued ones. */
  function Weight(s: Sys, versions: bool): nat {
    var c, srv := s.client, s.server;
    var waiting := LiveSeqs(c.queue, Push);
    3 * Count(Beyond(c.store.log, c.pushed), c.store.log, versions)
    + Count(waiting, c.store.log, versions)
    + Count(waiting - ReceiptedSeqs(srv.receipts), c.store.log, versions)
    + 2 * Count(Beyond(srv.store.log, c.pulled), srv.store.log, versions)
    + Count(LiveSeqs(c.queue, Pull), srv.store.log, versions)
  }

  /** The lexicographic order: a version may only be added when other pending work goes down. */
  predicate NoRise(s: Sys, t: Sys) {
    || Weight(t, false) < Weight(s, false)
    || (Weight(t, false) <= Weight(s, false) && Weight(t, true) <= Weight(s, true))
  }

  predicate Falls(s: Sys, t: Sys) {
    || Weight(t, false) < Weight(s, false)
    || (Weight(t, false) == Weight(s, false) && Weight(t, true) < Weight(s, true))
  }

  // ------------------------------------------------------------------
  // Counting
  // ------------------------------------------------------------------

  lemma Fewer(a: set<nat>, b: set<nat>)
    requires a <= b
    ensures |a| <= |b|
    ensures a < b ==> |a| < |b|
  {
    assert b == a + (b - a);
    assert a != b ==> b - a != {} by { if b - a == {} { assert b <= a; } }
  }

  lemma CountSubset(a: set<nat>, b: set<nat>, log: seq<LogEntry>, versions: bool)
    requires a <= b
    ensures Count(a, log, versions) <= Count(b, log, versions)
  {
    Fewer(Kind(a, log, versions), Kind(b, log, versions));
  }

  lemma CountLess(a: set<nat>, b: set<nat>, log: seq<LogEntry>, n: nat)
    requires a <= b && n in b && n !in a && 0 < n <= |log|
    ensures Count(a, log, log[n - 1].key.table == MemoVersions) < Count(b, log, log[n - 1].key.table == MemoVersions)
  {
    var v := log[n - 1].key.table == MemoVersions;
    assert n in Kind(b, log, v) && n !in Kind(a, log, v);
    Fewer(Kind(a, log, v), Kind(b, log, v));
  }

  lemma CountUnion(a: set<nat>, b: set<nat>, log: seq<LogEntry>, versions: bool)
    requires a !! b
    ensures Count(a + b, log, versions) == Count(a, log, versions) + Count(b, log, versions)
  {
    assert Kind(a + b, log, versions) == Kind(a, log, versions) + Kind(b, log, versions);
    assert Kind(a, log, versions) !! Kind(b, log, versions);
  }

  /** Old seqs keep their kind when the log grows. */
  lemma CountStable(seqs: set<nat>, log: seq<LogEntry>, now: seq<LogEntry>, versions: bool)
    requires log <= now && forall n | n in seqs :: n <= |log|
    ensures Count(seqs, now, versions) == Count(seqs, log, versions)
  {
    assert Kind(seqs, now, versions) == Kind(seqs, log, versions);
  }

  /** What lies beyond a mark once the log has grown: as before, plus versions. */
  lemma BeyondGrows(log: seq<LogEntry>, now: seq<LogEntry>, mark: nat)
    requires log <= now && mark <= |log|
    requires forall i | |log| <= i < |now| :: now[i].key.table == MemoVersions
    ensures Count(Beyond(now, mark), now, false) == Count(Beyond(log, mark), log, false)
  {
    assert Kind(Beyond(now, mark), now, false) == Kind(Beyond(log, mark), log, false);
  }

  lemma BeyondSplit(log: seq<LogEntry>, lo: nat, hi: nat, versions: bool)
    requires lo <= hi <= |log|
    ensures Count(Beyond(log, lo), log, versions)
         == Count(Window(lo, hi), log, versions) + Count(Beyond(log, hi), log, versions)
  {
    assert Beyond(log, lo) == Window(lo, hi) + Beyond(log, hi);
    CountUnion(Window(lo, hi), Beyond(log, hi), log, versions);
  }

  lemma WindowCounts(log: seq<LogEntry>, lo: nat, hi: nat, n: nat)
    requires lo < n <= hi <= |log|
    ensures Count(Window(lo, hi), log, log[n - 1].key.table == MemoVersions) > 0
  {
    assert n in Kind(Window(lo, hi), log, log[n - 1].key.table == MemoVersions);
  }

  lemma NoRiseTrans(a: Sys, b: Sys, c: Sys)
    requires NoRise(a, b) && NoRise(b, c)
    ensures NoRise(a, c) && (Falls(a, b) || Falls(b, c) ==> Falls(a, c))
  {
    hide Weight;
  }

  // ------------------------------------------------------------------
  // What the argument needs of every state
  // ------------------------------------------------------------------

  ghost predicate LiveOrReceipted(s: Sys, h: Hist) {
    forall n | n in h.snap :: QueueKey(Push, n) in s.client.queue || n in ReceiptedSeqs(s.server.receipts)
  }

  ghost predicate HasParent(rows: Rows, ch: Change) {
    ch.table.Some? && ch.row.Some? && ParentStored(rows, ch.table.value, ch.row.value)
  }

  /** The parent of every payload is on the node that sent it. */
  ghost predicate ParentsKnown(s: Sys, h: Hist) {
    && (forall n | n in h.snap :: HasParent(s.client.store.rows, h.snap[n]))
    && (forall f | f in h.feed :: HasParent(s.server.store.rows, f))
  }

  ghost predicate ProgInv(w: World, s: Sys, h: Hist) {
    Inv(w, s, h) && LiveOrReceipted(s, h) && ParentsKnown(s, h)
  }

  // ------------------------------------------------------------------
  // Delivery
  // ------------------------------------------------------------------

  lemma ReceiptedIsKeyed(w: World, s: Sys, h: Hist, m: Message)
    requires Inv(w, s, h) && m in s.sent
    ensures m.change.seqNo.Some?
    ensures m.change.seqNo.value in ReceiptedSeqs(s.server.receipts)
            <==> ReceiptKey(m.from, m.change.seqNo.value) in s.server.receipts
  {
    hide ClientOk, NodeOk, ReceiptsDelivered, ReceiptsOk, RepliesOk, InboxOk, OutboxOk, FeedOk, PageOk;
    var n := m.change.seqNo.value;
    if n in ReceiptedSeqs(s.server.receipts) {
      var key :| key in s.server.receipts && key.seqNo == n;
      assert key == ReceiptKey(m.from, n);
    }
  }

  lemma DeliveredLog(w: World, st: Store, receipts: Receipts, m: Message, d: Draw)
    requires m.change.table.Some? && m.change.seqNo.Some?
    ensures var q := ApplyBatch(ServerSession(w), Some(m.from), st, receipts, [m.change], i => d);
            q.Running? && q.store.log != st.log ==>
              && q.store.log == st.log + [LogEntry(VersionKey(d), Insert)] && m.change.table == Some(Memos)
              && ReceiptKey(m.from, m.change.seqNo.value) !in receipts
  {
    var ch := m.change;
    SingleBatch(ServerSession(w), Some(m.from), st, receipts, ch, i => d);
    hide ApplyBatch, ApplyOne, EffectiveClock, Merge, PartOf, RefusedPart, FreshVersion;
    if ApplyOne(ServerSession(w), st, ch.table.value, ch, d).Done? {
      ApplyTouchesTwoRows(ServerSession(w), st, ch.table.value, ch, d);
      hide SameAt;
    }
  }

  /** The server's log grows only by the version a conflicting memo leaves, and only on a first delivery. */
  lemma DeliveryLogs(w: World, s: Sys, h: Hist, m: Message, d: Draw)
    requires Inv(w, s, h) && m in s.sent
    ensures m.change.seqNo.Some?
    ensures var log, now := s.server.store.log, Exec(w, s, Deliver(m, d)).server.store.log;
            || now == log
            || (now == log + [LogEntry(VersionKey(d), Insert)] && m.change.table == Some(Memos)
                && ReceiptKey(m.from, m.change.seqNo.value) !in s.server.receipts)
  {
    hide Inv, ApplyBatch;
    SentIsWhole(w, s, h, m);
    SnapIsScanned(w, s, h, m.change.seqNo.value);
    DeliveredLog(w, s.server.store, s.server.receipts, m, d);
  }

  lemma SnapIsScanned(w: World, s: Sys, h: Hist, n: nat)
    requires Inv(w, s, h) && n in h.snap
    ensures 0 < n <= s.client.pushed <= |s.client.store.log|
    ensures h.snap[n].seqNo == Some(n) && h.snap[n].table.Some? && KeyOf(h.snap[n]) == s.client.store.log[n - 1].key
  {
    hide ClientOk, NodeOk, ReceiptsDelivered, ReceiptsMatch, RepliesOk, InboxOk, OutboxOk, FeedOk, PageOk, SentOk;
  }

  lemma ReceiptsGrow(a: Receipts, b: Receipts)
    requires forall r | r in a :: r in b
    ensures ReceiptedSeqs(a) <= ReceiptedSeqs(b)
  {
  }

  /** The weights of two states that differ only in what the server logged and receipted. */
  lemma ServerWeights(s: Sys, t: Sys)
    requires t.client == s.client && s.client.pulled <= |s.server.store.log|
    requires s.server.store.log <= t.server.store.log
    requires forall i | |s.server.store.log| <= i < |t.server.store.log| ::
               t.server.store.log[i].key.table == MemoVersions
    requires ReceiptedSeqs(s.server.receipts) <= ReceiptedSeqs(t.server.receipts)
    requires forall n | n in LiveSeqs(s.client.queue, Pull) :: n <= |s.server.store.log|
    ensures Weight(t, false) <= Weight(s, false)
    ensures t.server.store.log == s.server.store.log ==> Weight(t, true) <= Weight(s, true)
    ensures forall n: nat | n in LiveSeqs(s.client.queue, Push) && n !in ReceiptedSeqs(s.server.receipts)
                            && n in ReceiptedSeqs(t.server.receipts)
                            && 0 < n <= |s.client.store.log| && s.client.store.log[n - 1].key.table != MemoVersions ::
              Weight(t, false) < Weight(s, false)
  {
    var c, log, now := s.client, s.server.store.log, t.server.store.log;
    var waiting := LiveSeqs(c.queue, Push);
    var a, b := waiting - ReceiptedSeqs(s.server.receipts), waiting - ReceiptedSeqs(t.server.receipts);
    BeyondGrows(log, now, c.pulled);
    CountStable(LiveSeqs(c.queue, Pull), log, now, false);
    CountSubset(b, a, c.store.log, false);
    CountSubset(b, a, c.store.log, true);
    forall n: nat | n in a && n !in b && 0 < n <= |c.store.log| && c.store.log[n - 1].key.table != MemoVersions
      ensures Count(b, c.store.log, false) < Count(a, c.store.log, false)
    {
      CountLess(b, a, c.store.log, n);
    }
    hide Count, LiveSeqs, ReceiptedSeqs;
  }

  lemma PullSeqsRead(w: World, s: Sys, h: Hist)
    requires Inv(w, s, h)
    ensures s.client.pulled <= |s.server.store.log| && s.client.pushed <= |s.client.store.log|
    ensures forall n | n in LiveSeqs(s.client.queue, Pull) :: n <= s.client.pulled
    ensures forall n | n in LiveSeqs(s.client.queue, Push) :: 0 < n <= s.client.pushed
  {
    hide ClientOk, NodeOk, ReceiptsDelivered, ReceiptsMatch, RepliesOk, FeedOk, SentOk, InFeeds, OneFate;
    forall n | n in LiveSeqs(s.client.queue, Pull) ensures n <= s.client.pulled {
      assert IsPull(QueueKey(Pull, n)) && QueueKey(Pull, n) in s.client.queue;
    }
    forall n | n in LiveSeqs(s.client.queue, Push) ensures 0 < n <= s.client.pushed {
      assert !IsPull(QueueKey(Push, n)) && QueueKey(Push, n) in s.client.queue;
    }
  }

  lemma DeliverNoRise(w: World, s: Sys, h: Hist, m: Message, d: Draw)
    requires ProgInv(w, s, h) && Enabled(w, s, Deliver(m, d))
    ensures NoRise(s, Exec(w, s, Deliver(m, d)))
  {
    hide Inv, Exec, Weight, ParentsKnown;
    var t := Exec(w, s, Deliver(m, d));
    DeliveryIsReceipted(w, s, h, m, d);
    DeliveryLogs(w, s, h, m, d);
    ReceiptedIsKeyed(w, s, h, m);
    PullSeqsRead(w, s, h);
    var n := m.change.seqNo.value;
    assert n in h.snap && m.change == h.snap[n] by { SentIsWhole(w, s, h, m); }
    SnapIsScanned(w, s, h, n);
    ReceiptsGrow(s.server.receipts, t.server.receipts);
    ServerWeights(s, t);
    if t.server.store.log != s.server.store.log {
      assert t.server.store != s.server.store;
      assert ReceiptKey(m.from, n) in t.server.receipts;
      assert n in ReceiptedSeqs(t.server.receipts) && n in LiveSeqs(s.client.queue, Push);
    }
  }

  // ------------------------------------------------------------------
  // Collecting and answers
  // ------------------------------------------------------------------

  lemma CountAtMost(a: set<nat>, x: set<nat>, y: set<nat>, log: seq<LogEntry>, versions: bool)
    requires a <= x + y
    ensures Count(a, log, versions) <= Count(x, log, versions) + Count(y, log, versions)
  {
    hide Count;
    assert x + y == x + (y - x);
    CountUnion(x, y - x, log, versions);
    CountSubset(y - x, y, log, versions);
    CountSubset(a, x + y, log, versions);
  }

  /** The outbox takes over at most what the scan mark moves over. */
  lemma CollectWeights(s: Sys, t: Sys, hi: nat, versions: bool)
    requires t == s.(client := s.client.(queue := t.client.queue, pushed := hi))
    requires s.client.pushed <= hi <= |s.client.store.log|
    requires LiveSeqs(t.client.queue, Push) <= LiveSeqs(s.client.queue, Push) + Window(s.client.pushed, hi)
    requires LiveSeqs(t.client.queue, Pull) == LiveSeqs(s.client.queue, Pull)
    ensures Weight(t, versions)
            + Count(Window(s.client.pushed, hi), s.client.store.log, versions) <= Weight(s, versions)
  {
    hide Count, LiveSeqs, Window, ReceiptedSeqs;
    var c, log := s.client, s.client.store.log;
    var window, receipted := Window(c.pushed, hi), ReceiptedSeqs(s.server.receipts);
    BeyondSplit(log, c.pushed, hi, versions);
    CountAtMost(LiveSeqs(t.client.queue, Push), LiveSeqs(c.queue, Push), window, log, versions);
    CountAtMost(LiveSeqs(t.client.queue, Push) - receipted, LiveSeqs(c.queue, Push) - receipted, window, log, versions);
  }

  lemma CollectQueue(w: World, s: Sys, h: Hist, limit: nat)
    requires Inv(w, s, h)
    ensures var t, hi := ExecCollect(s, limit), WindowEnd(s.client.store.log, s.client.pushed, limit);
            && s.client.pushed <= hi <= |s.client.store.log|
            && t == s.(client := s.client.(queue := t.client.queue, pushed := hi))
            && LiveSeqs(t.client.queue, Push) <= LiveSeqs(s.client.queue, Push) + Window(s.client.pushed, hi)
            && LiveSeqs(t.client.queue, Pull) == LiveSeqs(s.client.queue, Pull)
  {
    CollectCommits(w, s, h, limit);
    hide Inv, CollectWindow, EnqueueAll;
    var c := s.client;
    var hi := WindowEnd(c.store.log, c.pushed, limit);
    var items := CollectWindow(c.store, c.rowState, c.pushed, hi);
    CollectWindowItems(c.store, c.rowState, c.pushed, hi);
    var r := EnqueueAll(c.queue, Push, items).value;
    EnqueueAllAdds(c.queue, items);
    forall n | n in LiveSeqs(r, Push) ensures n in LiveSeqs(c.queue, Push) + Window(c.pushed, hi) {
      if QueueKey(Push, n) !in c.queue {
        var ch :| ch in items && ch.seqNo == Some(n);
        assert Within(n, c.pushed, hi);
      }
    }
    assert forall n :: QueueKey(Pull, n) in r <==> QueueKey(Pull, n) in c.queue;
  }

  lemma CollectFalls(w: World, s: Sys, h: Hist, limit: nat)
    requires Inv(w, s, h)
    ensures NoRise(s, ExecCollect(s, limit))
    ensures limit > 0 && s.client.pushed < |s.client.store.log| ==> Falls(s, ExecCollect(s, limit))
  {
    CollectQueue(w, s, h, limit);
    var t := ExecCollect(s, limit);
    var c := s.client;
    var hi := WindowEnd(c.store.log, c.pushed, limit);
    hide Inv, ExecCollect, Weight, LiveSeqs;
    CollectWeights(s, t, hi, false);
    CollectWeights(s, t, hi, true);
    if c.pushed < hi { WindowCounts(c.store.log, c.pushed, hi, c.pushed + 1); }
    hide Count, Window;
  }

  lemma QueueWeights(s: Sys, t: Sys, n: nat)
    requires t.server == s.server && t.client.store.log == s.client.store.log
    requires t.client.pushed == s.client.pushed && t.client.pulled == s.client.pulled
    requires LiveSeqs(t.client.queue, Push) <= LiveSeqs(s.client.queue, Push)
    requires LiveSeqs(t.client.queue, Pull) <= LiveSeqs(s.client.queue, Pull)
    ensures NoRise(s, t)
    ensures n in LiveSeqs(s.client.queue, Push) && n !in LiveSeqs(t.client.queue, Push) && 0 < n <= |s.client.store.log|
            ==> Falls(s, t)
    ensures n in LiveSeqs(s.client.queue, Pull) && n !in LiveSeqs(t.client.queue, Pull) && 0 < n <= |s.server.store.log|
            ==> Falls(s, t)
  {
    hide Count, LiveSeqs, Window, ReceiptedSeqs;
    var log, slog, receipted := s.client.store.log, s.server.store.log, ReceiptedSeqs(s.server.receipts);
    var a, b := LiveSeqs(t.client.queue, Push), LiveSeqs(s.client.queue, Push);
    var d, e := LiveSeqs(t.client.queue, Pull), LiveSeqs(s.client.queue, Pull);
    CountSubset(a, b, log, false);
    CountSubset(a, b, log, true);
    CountSubset(a - receipted, b - receipted, log, false);
    CountSubset(a - receipted, b - receipted, log, true);
    CountSubset(d, e, slog, false);
    CountSubset(d, e, slog, true);
    if n in b && n !in a && 0 < n <= |log| { CountLess(a, b, log, n); }
    if n in e && n !in d && 0 < n <= |slog| { CountLess(d, e, slog, n); }
  }

  lemma AnswerFalls(w: World, s: Sys, h: Hist, reply: Reply)
    requires Inv(w, s, h) && Enabled(w, s, Answer(reply))
    ensures var t := Exec(w, s, Answer(reply));
            && NoRise(s, t)
            && (QueueKey(Push, reply.seqNo) in s.client.queue && QueueKey(Push, reply.seqNo) !in t.client.queue ==>
                 Falls(s, t))
  {
    hide Inv, SettlePushed, NoRise, Falls;
    var t := Exec(w, s, Answer(reply));
    PullSeqsRead(w, s, h);
    AnswerMovesOneEntry(s.client, reply.seqNo, reply.answer);
    assert LiveSeqs(t.client.queue, Push) <= LiveSeqs(s.client.queue, Push);
    assert LiveSeqs(t.client.queue, Pull) <= LiveSeqs(s.client.queue, Pull);
    var n := reply.seqNo;
    assert n in LiveSeqs(s.client.queue, Push) <==> QueueKey(Push, n) in s.client.queue;
    assert n in LiveSeqs(t.client.queue, Push) <==> QueueKey(Push, n) in t.client.queue;
    QueueWeights(s, t, n);
  }

  /** A terminal answer takes the entry out of the live outbox. */
  lemma TerminalAnswerRetires(c: Client, n: nat, answer: Outcome)
    requires answer.results != [] && answer.results[0].status != Deferred
    ensures QueueKey(Push, n) !in SettlePushed(c, n, answer).queue
  {
    hide Remember;
  }

  lemma OnlyTerminalAnswersRetire(c: Client, n: nat, answer: Outcome, m: nat)
    requires QueueKey(Push, m) in c.queue && QueueKey(Push, m) !in SettlePushed(c, n, answer).queue
    ensures m == n && answer.results != [] && answer.results[0].status != Deferred
  {
    hide Remember;
  }

  // ------------------------------------------------------------------
  // Pages
  // ------------------------------------------------------------------

  /** Rows, marks and outbox as they are after a page: only versions are logged, the inbox takes over at
      most what the pull mark moves over. */
  lemma PageWeights(s: Sys, t: Sys, next: nat, versions: bool)
    requires t.server == s.server && s.client.store.log <= t.client.store.log
    requires t.client.pushed == s.client.pushed && t.client.pulled == next
    requires s.client.pushed <= |s.client.store.log| && s.client.pulled <= next <= |s.server.store.log|
    requires forall i | |s.client.store.log| <= i < |t.client.store.log| ::
               t.client.store.log[i].key.table == MemoVersions
    requires LiveSeqs(t.client.queue, Push) == LiveSeqs(s.client.queue, Push)
    requires forall n | n in LiveSeqs(s.client.queue, Push) :: n <= |s.client.store.log|
    requires LiveSeqs(t.client.queue, Pull) <= LiveSeqs(s.client.queue, Pull) + Window(s.client.pulled, next)
    requires !versions || t.client.store.log == s.client.store.log
    ensures Weight(t, versions)
            + Count(Window(s.client.pulled, next), s.server.store.log, versions) <= Weight(s, versions)
  {
    var log, now, slog := s.client.store.log, t.client.store.log, s.server.store.log;
    BeyondGrows(log, now, s.client.pushed);
    hide Count, LiveSeqs, Window, ReceiptedSeqs;
    var waiting, receipted := LiveSeqs(s.client.queue, Push), ReceiptedSeqs(s.server.receipts);
    CountStable(waiting, log, now, versions);
    CountStable(waiting - receipted, log, now, versions);
    BeyondSplit(slog, s.client.pulled, next, versions);
    CountAtMost(LiveSeqs(t.client.queue, Pull), LiveSeqs(s.client.queue, Pull), Window(s.client.pulled, next), slog,
      versions);
  }

  /** A batch without memo changes logs nothing; any batch logs only versions. */
  lemma PullLogs(w: World, c: Client, changes: seq<Change>, draws: nat -> Draw)
    ensures var q := PullBatch(w, c, changes, draws);
            && q.Running? && c.store.log <= q.store.log
            && (forall i | |c.store.log| <= i < |q.store.log| :: q.store.log[i].key.table == MemoVersions)
            && ((forall ch | ch in changes :: ch.table != Some(Memos)) ==> q.store.log == c.store.log)
  {
    BatchDoesNotEcho(ClientSession(w), None, c.store, map[], changes, draws);
    hide ApplyBatch, KeptCount, RowsKeep;
  }

  lemma SettledLives(c: Client, d: Client, changes: seq<Change>, lo: nat, hi: nat)
    requires Settles(c, d, changes)
    requires forall key | key in d.queue && key.direction == Pull && key !in c.queue ::
      lo < key.seqNo <= hi
    ensures LiveSeqs(d.queue, Push) == LiveSeqs(c.queue, Push)
    ensures LiveSeqs(d.queue, Pull) <= LiveSeqs(c.queue, Pull) + Window(lo, hi)
  {
    hide Keeps, OneFate, InboxFrom;
    forall n | n in LiveSeqs(d.queue, Pull) ensures n in LiveSeqs(c.queue, Pull) + Window(lo, hi) {
      if QueueKey(Pull, n) !in c.queue { assert Within(n, lo, hi); }
    }
    assert forall n :: !IsPull(QueueKey(Push, n));
  }

  lemma {:induction false} NewPullsAreOfThePage(c: Client, changes: seq<Change>, results: seq<Result>, key: QueueKey)
    requires forall ch | ch in changes :: ch.table.Some? && ch.seqNo.Some?
    requires SettlePage(c, changes, results).Some?
    requires key.direction == Pull && key in SettlePage(c, changes, results).value.queue && key !in c.queue
    ensures exists ch :: ch in changes && ch.seqNo == Some(key.seqNo)
  {
    hide Remember, ResultFor;
    if changes != [] {
      var n := |changes| - 1;
      var b := SettlePage(c, changes[..n], results).value;
      if key in b.queue {
        NewPullsAreOfThePage(c, changes[..n], results, key);
        var ch :| ch in changes[..n] && ch.seqNo == Some(key.seqNo);
        assert ch in changes;
      } else {
        assert changes[n] in changes;
      }
    }
  }

  /** The batch's items are the page's, with the client's bases filled in. */
  ghost predicate SameItems(page: seq<Change>, changes: seq<Change>) {
    |changes| == |page| && forall i | 0 <= i < |changes| :: SameItem(page[i], changes[i])
  }

  lemma ItemOfPage(page: seq<Change>, changes: seq<Change>, ch: Change) returns (f: Change)
    requires SameItems(page, changes) && ch in changes
    ensures f in page && f.seqNo == ch.seqNo && f.table == ch.table && f.rowId == ch.rowId && f.row == ch.row
  {
    var i :| 0 <= i < |changes| && changes[i] == ch;
    f := page[i];
    SameItemParts(f, ch);
  }

  lemma PagedQueue(c: Client, page: seq<Change>, changes: seq<Change>, results: seq<Result>, lo: nat, hi: nat)
    requires SameItems(page, changes) && DistinctSeqs(changes)
    requires forall ch | ch in page :: ch.table.Some? && ch.seqNo.Some? && lo < ch.seqNo.value <= hi
    requires forall ch | ch in changes :: ch.table.Some? && ch.seqNo.Some? && NotDead(c.queue, ch)
    requires SettlePage(c, changes, results).Some?
    ensures var d := SettlePage(c, changes, results).value;
            && OnlySettled(c, d)
            && LiveSeqs(d.queue, Push) == LiveSeqs(c.queue, Push)
            && LiveSeqs(d.queue, Pull) <= LiveSeqs(c.queue, Pull) + Window(lo, hi)
  {
    hide SameItems, SettlePage, Settles, Finished, Holds, DistinctSeqs, OnlySettled, NotDead, LiveSeqs;
    var d := SettlePage(c, changes, results).value;
    PageIsHeldOrFinished(c, changes, results);
    forall key | key in d.queue && key.direction == Pull && key !in c.queue ensures lo < key.seqNo <= hi {
      NewPullsAreOfThePage(c, changes, results, key);
      var ch :| ch in changes && ch.seqNo == Some(key.seqNo);
      var f := ItemOfPage(page, changes, ch);
    }
    SettledLives(c, d, changes, lo, hi);
    SettlesParts(c, d, changes);
  }

  lemma PageBatch(w: World, s: Sys, h: Hist, draws: nat -> Draw)
    requires Inv(w, s, h) && Enabled(w, s, ApplyPage(draws))
    ensures var page := s.page.value;
            var changes := WithBases(s.client.rowState, page.changes);
            var q := PullBatch(w, s.client, changes, draws);
            && q.Running? && Addressed(changes)
            && SameItems(page.changes, changes) && DistinctSeqs(changes)
            && (forall ch | ch in changes :: NotDead(s.client.queue, ch))
            && SettlePage(s.client.(store := q.store), changes, q.out.results).Some?
            && Exec(w, s, ApplyPage(draws))
               == s.(client := SettlePage(s.client.(store := q.store), changes,
                 q.out.results).value.(pulled := page.next), page := None)
  {
    hide PullBatch, SettlePage, WithBases, AllFromFeed, SameItem, SeqsNameChanges, DistinctSeqs, NotDead, Inv;
    PageCommits(w, s, h, draws);
    PageChangesOk(w, s, h);
  }

  /** What applying a page does to logs, marks and live queues. */
  lemma PageEffect(w: World, s: Sys, h: Hist, draws: nat -> Draw)
    requires Inv(w, s, h) && Enabled(w, s, ApplyPage(draws))
    ensures var t, page := Exec(w, s, ApplyPage(draws)), s.page.value;
            && t.server == s.server && s.client.store.log <= t.client.store.log
            && t.client.pushed == s.client.pushed && t.client.pulled == page.next
            && (forall i | |s.client.store.log| <= i < |t.client.store.log| ::
                 t.client.store.log[i].key.table == MemoVersions)
            && LiveSeqs(t.client.queue, Push) == LiveSeqs(s.client.queue, Push)
            && LiveSeqs(t.client.queue, Pull) <= LiveSeqs(s.client.queue, Pull) + Window(s.client.pulled, page.next)
            && (t.client.store.log != s.client.store.log ==> exists ch :: ch in page.changes && ch.table == Some(Memos))
  {
    PageBatch(w, s, h, draws);
    PageWindow(w, s, h);
    hide PullBatch, SettlePage, WithBases, SameItems, DistinctSeqs, NotDead, Inv, Exec, LiveSeqs, Window, OnlySettled;
    var c, page := s.client, s.page.value;
    var changes := WithBases(c.rowState, page.changes);
    PullLogs(w, c, changes, draws);
    var q := PullBatch(w, c, changes, draws);
    var mid := c.(store := q.store);
    var d := SettlePage(mid, changes, q.out.results).value;
    PagedQueue(mid, page.changes, changes, q.out.results, c.pulled, page.next);
    SettledStore(mid, d);
    if d.store.log != c.store.log {
      var ch :| ch in changes && ch.table == Some(Memos);
      var f := ItemOfPage(page.changes, changes, ch);
    }
  }

  lemma SameItemParts(f: Change, ch: Change)
    requires SameItem(f, ch)
    ensures f.seqNo == ch.seqNo && f.table == ch.table && f.rowId == ch.rowId && f.row == ch.row
  {
  }

  lemma PageWindow(w: World, s: Sys, h: Hist)
    requires Inv(w, s, h) && s.page.Some?
    ensures s.client.pulled <= s.page.value.next <= |s.server.store.log|
    ensures forall ch | ch in s.page.value.changes ::
      && ch.seqNo.Some? && s.client.pulled < ch.seqNo.value <= s.page.value.next && ch.table.Some?
      && KeyOf(ch) == s.server.store.log[ch.seqNo.value - 1].key
  {
    hide ClientOk, NodeOk, ReceiptsDelivered, ReceiptsMatch, RepliesOk, InboxOk, OutboxOk, SnapsOk, SentOk;
  }

  lemma PageFalls(w: World, s: Sys, h: Hist, draws: nat -> Draw)
    requires Inv(w, s, h) && Enabled(w, s, ApplyPage(draws))
    ensures var t := Exec(w, s, ApplyPage(draws));
            NoRise(s, t) && (s.client.pulled < s.page.value.next ==> Falls(s, t))
  {
    hide Inv, Exec, Weight, Count, LiveSeqs, Window;
    PageEffect(w, s, h, draws);
    PageWindow(w, s, h);
    PullSeqsRead(w, s, h);
    var t, page, slog := Exec(w, s, ApplyPage(draws)), s.page.value, s.server.store.log;
    PageWeights(s, t, page.next, false);
    if t.client.store.log == s.client.store.log {
      PageWeights(s, t, page.next, true);
      if s.client.pulled < page.next { WindowCounts(slog, s.client.pulled, page.next, s.client.pulled + 1); }
    } else {
      var ch :| ch in page.changes && ch.table == Some(Memos);
      WindowCounts(slog, s.client.pulled, page.next, ch.seqNo.value);
    }
  }
}
