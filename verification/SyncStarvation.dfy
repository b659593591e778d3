/** Entries that could be delivered may wait for ever behind a full batch of entries that could not. */
module SyncStarvation {
  import opened SyncSchema
  import opened SyncStore
  import opened SyncApply
  import opened SyncBatch
  import opened SyncQueue
  import opened SyncFeedProofs
  import opened SyncQueueProofs
  import opened TwoNode
  import opened SyncInvariants
  import opened SyncConvergence
  import opened SyncProgress
  import opened SyncGate
  import opened SyncLiveness
  import opened SyncStandstill
  import opened SyncDaemonSteps
  import opened SyncSamples
  import opened SyncClocks

  const NEW_PROJECT := Key(Projects, "new")

  /** Names of different length for different memos. */
  function Name(i: nat): Id {
    seq(i + 1, j => 'm')
  }

  function Memo(i: nat): Key {
    Key(Memos, Name(i))
  }

  lemma MemosDiffer(i: nat, j: nat)
    ensures i != j ==> Memo(i) != Memo(j)
    ensures Name(i) != "" && Memo(i) != NEW_PROJECT && Memo(i) != PROJECT
  {
    assert |Name(i)| == i + 1 && |Name(j)| == j + 1;
  }

  // ------------------------------------------------------------------
  // The edits: `limit` memos, a new project, and every memo moved there
  // ------------------------------------------------------------------

  function EditKey(limit: nat, i: nat): Key {
    if i < limit then Memo(i) else if i == limit then NEW_PROJECT else Memo(i - limit - 1)
  }

  function EditRow(w: World, limit: nat, i: nat): Row {
    if i < limit then MemoRow("p", "memo", 1)
    else if i == limit then ProjectRow(w, "new", 1)
    else MemoRow("new", "memo", 2)
  }

  function Edits(w: World, limit: nat, n: nat): seq<Action> {
    seq(n, i requires 0 <= i < n => ClientEdit(EditKey(limit, i), EditRow(w, limit, i)))
  }

  /** What the first `n` edits have made of the client. */
  ghost predicate EditedTo(w: World, s: Sys, t: Sys, limit: nat, n: nat) {
    var was, st := s.client.store, t.client.store;
    && t == s.(client := s.client.(store := st))
    && |st.log| == |was.log| + n
    && (forall i | 0 <= i < n :: st.log[|was.log| + i].key == EditKey(limit, i))
    && PROJECT in st.rows
    && (n > limit ==> NEW_PROJECT in st.rows)
    && (NEW_PROJECT in st.rows ==> n > limit)
    && (forall i: nat | i < limit ::
          && (Memo(i) in st.rows <==> i < n)
          && (i < n ==>
               st.rows[Memo(i)] == if limit + 1 + i < n then MemoRow("new", "memo", 2) else MemoRow("p", "memo", 1)))
  }

  lemma NextIsAllowed(w: World, s: Sys, t: Sys, limit: nat, n: nat)
    requires EditedTo(w, s, t, limit, n) && n < 2 * limit + 1
    ensures EditAllowed(w, t.client.store.rows, EditKey(limit, n), EditRow(w, limit, n))
  {
    var rows := t.client.store.rows;
    if n < limit {
      MemosDiffer(n, n);
      MemoAllowed(w, rows, Name(n), "p", "memo", 1);
    } else if n == limit {
      ProjectAllowed(w, rows, "new", "new", 1);
    } else {
      var i := n - limit - 1;
      MemosDiffer(i, i);
      assert i < limit && rows[Memo(i)] == MemoRow("p", "memo", 1);
      assert Clk(MemoRow("p", "memo", 1)) == 1;
      MemoAllowed(w, rows, Name(i), "new", "memo", 2);
    }
  }

  lemma NextIsEdited(w: World, s: Sys, t: Sys, u: Sys, limit: nat, n: nat)
    requires EditedTo(w, s, t, limit, n) && n < 2 * limit + 1
    requires u == t.(client := t.client.(store := PutRow(t.client.store, false, EditKey(limit, n),
             EditRow(w, limit, n))))
    ensures EditedTo(w, s, u, limit, n + 1)
  {
    hide MemoRow, ProjectRow, Name;
    forall i: nat, j: nat ensures i != j ==> Memo(i) != Memo(j) {
      MemosDiffer(i, j);
    }
    var k := EditKey(limit, n);
    assert k != PROJECT by {
      MemosDiffer(n, n);
      if n > limit { MemosDiffer(n - limit - 1, 0); }
    }
  }

  /** The project is synced, and then the edits are made offline. */
  lemma {:induction false} EditsAreARun(w: World, d: Draw, limit: nat, n: nat)
    requires d.id != "" && n <= 2 * limit + 1
    ensures var acts := FirstPull(w, d) + Edits(w, limit, n);
            IsRun(w, acts) && EditedTo(w, SysAfter(w, FirstPull(w, d)), SysAfter(w, acts), limit, n)
  {
    hide IsRun, SysAfter, FirstPull, EditedTo, EditAllowed, EditRow;
    FirstPullRests(w, d);
    if n == 0 {
      assert FirstPull(w, d) + Edits(w, limit, 0) == FirstPull(w, d);
      NothingIsEdited(w, d, limit);
    } else {
      EditsAreARun(w, d, limit, n - 1);
      var prior := FirstPull(w, d) + Edits(w, limit, n - 1);
      assert FirstPull(w, d) + Edits(w, limit, n)
             == prior + [ClientEdit(EditKey(limit, n - 1), EditRow(w, limit, n - 1))];
      NextIsAllowed(w, SysAfter(w, FirstPull(w, d)), SysAfter(w, prior), limit, n - 1);
      ClientEditStep(w, prior, EditKey(limit, n - 1), EditRow(w, limit, n - 1));
      NextIsEdited(w, SysAfter(w, FirstPull(w, d)), SysAfter(w, prior),
                   SysAfter(w, FirstPull(w, d) + Edits(w, limit, n)), limit, n - 1);
    }
  }

  lemma NothingIsEdited(w: World, d: Draw, limit: nat)
    requires d.id != ""
    ensures var s := SysAfter(w, FirstPull(w, d)); EditedTo(w, s, s, limit, 0)
  {
    hide IsRun, SysAfter, FirstPull;
    FirstPullRests(w, d);
    forall i: nat ensures Memo(i) != PROJECT { MemosDiffer(i, i); }
  }

  // ------------------------------------------------------------------
  // Three scans with the same limit
  // ------------------------------------------------------------------

  function StarvingRun(w: World, d: Draw, limit: nat): seq<Action> {
    FirstPull(w, d) + Edits(w, limit, 2 * limit + 1) + [Collect(limit)] + [Collect(limit)] + [Collect(limit)]
  }

  /** The windows: the new memos, then the project with all moved memos but one, then the last moved memo. */
  lemma AllLastOfTheirRow(w: World, s: Sys, t: Sys, limit: nat, m: nat)
    requires EditedTo(w, s, t, limit, 2 * limit + 1) && limit > 0
    requires m == 0 || m == limit || m == 2 * limit
    ensures var b, log := |s.client.store.log|, t.client.store.log;
            var hi := WindowEnd(log, b + m, limit);
            && hi == b + (if m == 2 * limit then 2 * limit + 1 else m + limit)
            && hi <= |log|
            && (forall i | b + m <= i < hi :: LastOfItsRow(log, i, hi))
  {
    var b, log := |s.client.store.log|, t.client.store.log;
    var hi := WindowEnd(log, b + m, limit);
    forall i: nat, j: nat ensures i != j ==> Memo(i) != Memo(j) && Memo(i) != NEW_PROJECT {
      MemosDiffer(i, j);
    }
    hide Name;
    forall i, j | b + m <= i < j < hi ensures log[j].key != log[i].key {
      assert log[j].key == EditKey(limit, j - b) && log[i].key == EditKey(limit, i - b);
    }
  }

  /** A scan of a window in which every entry is its row's last queues exactly that window. */
  lemma WindowIsQueued(w: World, t: Sys, q: Queue, lo: nat, hi: nat)
    requires lo <= hi <= |t.client.store.log|
    requires forall i | lo <= i < hi :: LastOfItsRow(t.client.store.log, i, hi)
    requires EnqueueAll(t.client.queue, Push, CollectWindow(t.client.store, t.client.rowState, lo, hi)) == Some(q)
    ensures forall key | key in t.client.queue :: key in q && q[key] == t.client.queue[key]
    ensures forall key | key in q && key !in t.client.queue :: key.direction == Push && lo < key.seqNo <= hi
    ensures forall n: nat | lo < n <= hi ::
              QueueKey(Push, n) in q && q[QueueKey(Push, n)] == LocalChange(t.client.store, t.client.rowState, n - 1)
  {
    hide EnqueueAll, CollectWindow, LocalChange, LastOfItsRow;
    var items := CollectWindow(t.client.store, t.client.rowState, lo, hi);
    EnqueueAllAdds(t.client.queue, items);
    CollectWindowItems(t.client.store, t.client.rowState, lo, hi);
    forall key | key in q && key !in t.client.queue ensures key.direction == Push && lo < key.seqNo <= hi {
      var ch :| ch in items && ch.seqNo == Some(key.seqNo);
      var j :| 0 <= j < |items| && items[j] == ch;
    }
    forall n: nat | lo < n <= hi
      ensures QueueKey(Push, n) in q && q[QueueKey(Push, n)] == LocalChange(t.client.store, t.client.rowState, n - 1)
    {
      CollectWindowCovers(t.client.store, t.client.rowState, lo, hi, n - 1);
      LocalChangeSeq(t.client.store, t.client.rowState, n - 1);
    }
  }

  lemma LocalChangeSeq(st: Store, rs: map<Key, RowState>, i: nat)
    requires i < |st.log|
    ensures LocalChange(st, rs, i).seqNo == Some(i + 1)
  {
  }

  /** The outbox once the first `m` edits were scanned: one payload for each, with the row as it is by then. */
  ghost predicate Queued(s: Sys, t: Sys, m: nat) {
    var b, c := |s.client.store.log|, t.client;
    && t.server == s.server && c.pulled == s.client.pulled && c.pushed == b + m <= |c.store.log|
    && (forall key | key in c.queue :: key.direction == Push && b < key.seqNo <= b + m)
    && (forall n: nat | b < n <= b + m ::
          QueueKey(Push, n) in c.queue && c.queue[QueueKey(Push, n)] == LocalChange(c.store, c.rowState, n - 1))
  }

  lemma ScanQueues(w: World, acts: seq<Action>, s: Sys, limit: nat, m: nat)
    requires IsRun(w, acts) && Queued(s, SysAfter(w, acts), m)
    requires var b, log := |s.client.store.log|, SysAfter(w, acts).client.store.log;
             var hi := WindowEnd(log, b + m, limit);
             hi <= |log| && forall i | b + m <= i < hi :: LastOfItsRow(log, i, hi)
    ensures IsRun(w, acts + [Collect(limit)])
    ensures var t, u := SysAfter(w, acts), SysAfter(w, acts + [Collect(limit)]);
            && u.client.store == t.client.store
            && Queued(s, u, WindowEnd(t.client.store.log, |s.client.store.log| + m, limit) - |s.client.store.log|)
  {
    hide IsRun, SysAfter, EnqueueAll, CollectWindow, LocalChange, LastOfItsRow, ExecCollect;
    CollectTaken(w, acts, limit);
    var t, u := SysAfter(w, acts), SysAfter(w, acts + [Collect(limit)]);
    WindowIsQueued(w, t, u.client.queue, t.client.pushed, u.client.pushed);
  }

  lemma NothingQueuedYet(w: World, d: Draw, acts: seq<Action>, limit: nat)
    requires d.id != "" && EditedTo(w, SysAfter(w, FirstPull(w, d)), SysAfter(w, acts), limit, 2 * limit + 1)
    ensures Queued(SysAfter(w, FirstPull(w, d)), SysAfter(w, acts), 0)
  {
    hide IsRun, SysAfter, FirstPull, LocalChange;
    FirstPullRests(w, d);
  }

  lemma ScansQueueEverything(w: World, d: Draw, limit: nat)
    requires d.id != "" && limit > 0
    ensures IsRun(w, StarvingRun(w, d, limit))
    ensures Queued(SysAfter(w, FirstPull(w, d)), SysAfter(w, StarvingRun(w, d, limit)), 2 * limit + 1)
    ensures SysAfter(w, StarvingRun(w, d, limit)).client.store
            == SysAfter(w, FirstPull(w, d) + Edits(w, limit, 2 * limit + 1)).client.store
  {
    hide IsRun, SysAfter, FirstPull, LastOfItsRow, Edits, WindowEnd, LocalChange, Queued, EditedTo;
    EditsAreARun(w, d, limit, 2 * limit + 1);
    var acts := FirstPull(w, d) + Edits(w, limit, 2 * limit + 1);
    var s, t := SysAfter(w, FirstPull(w, d)), SysAfter(w, acts);
    NothingQueuedYet(w, d, acts, limit);
    AllLastOfTheirRow(w, s, t, limit, 0);
    ScanQueues(w, acts, s, limit, 0);
    AllLastOfTheirRow(w, s, t, limit, limit);
    ScanQueues(w, acts + [Collect(limit)], s, limit, limit);
    AllLastOfTheirRow(w, s, t, limit, 2 * limit);
    ScanQueues(w, acts + [Collect(limit)] + [Collect(limit)], s, limit, 2 * limit);
  }

  // ------------------------------------------------------------------
  // The state is starved
  // ------------------------------------------------------------------

  lemma MovedMemoWaits(w: World, st: Store, rs: map<Key, RowState>, rows: Rows, i: nat)
    requires i < |st.log| && st.log[i].key in st.rows && st.rows[st.log[i].key] == MemoRow("new", "memo", 2)
    requires st.log[i].key.table == Memos && NEW_PROJECT !in rows
    ensures !TakesNow(rows, LocalChange(st, rs, i))
  {
  }

  lemma NewProjectCouldGo(w: World, st: Store, rs: map<Key, RowState>, rows: Rows, i: nat)
    requires i < |st.log| && st.log[i].key == NEW_PROJECT && NEW_PROJECT in st.rows
    ensures TakesNow(rows, LocalChange(st, rs, i))
  {
  }

  lemma FirstAreBlocked(w: World, s: Sys, t: Sys, e: Sys, limit: nat)
    requires EditedTo(w, s, e, limit, 2 * limit + 1) && Queued(s, t, 2 * limit + 1) && t.client.store == e.client.store
    requires NEW_PROJECT !in s.server.store.rows
    ensures forall n: nat | |s.client.store.log| < n <= |s.client.store.log| + limit ::
              QueueKey(Push, n) in t.client.queue && !TakesNow(t.server.store.rows, t.client.queue[QueueKey(Push, n)])
  {
    hide TakesNow, LocalChange, MemoRow, ProjectRow, Name;
    var b, c := |s.client.store.log|, t.client;
    forall n: nat | b < n <= b + limit
      ensures QueueKey(Push, n) in c.queue && !TakesNow(t.server.store.rows, c.queue[QueueKey(Push, n)])
    {
      var i := n - b - 1;
      assert QueueKey(Push, n) in c.queue;
      assert c.store.log[b + i].key == EditKey(limit, i) && Memo(i) in c.store.rows;
      MovedMemoWaits(w, c.store, c.rowState, t.server.store.rows, b + i);
    }
  }

  /** Only the lowest seqs are listed. */
  lemma OnlyTheFirstAreListed(q: Queue, b: nat, limit: nat)
    requires forall key | key in q :: key.direction == Push && b < key.seqNo
    requires forall n: nat | b < n <= b + limit :: QueueKey(Push, n) in q
    ensures forall n | n in SortedPrefix(LiveSeqs(q, Push), limit) :: b < n <= b + limit
  {
    hide SortedPrefix;
    var live := LiveSeqs(q, Push);
    WindowSize(b, b + limit);
    forall n | n in SortedPrefix(live, limit) ensures b < n <= b + limit {
      ListedAreLowest(live, limit, n);
      if n > b + limit {
        forall m | m in Window(b, b + limit) ensures m in live && m < n {
          assert QueueKey(Push, m) in q;
        }
        SubsetSize(Window(b, b + limit), set m | m in live && m < n);
      }
    }
  }

  lemma {:induction false} WindowSize(lo: nat, hi: nat)
    requires lo <= hi
    ensures |Window(lo, hi)| == hi - lo
    decreases hi
  {
    if lo < hi {
      WindowSize(lo, hi - 1);
      assert Window(lo, hi) == Window(lo, hi - 1) + {hi};
    } else {
      assert Window(lo, hi) == {};
    }
  }

  lemma SubsetSize(a: set<nat>, b: set<nat>)
    requires a <= b
    ensures |a| <= |b|
  {
    assert b == a + (b - a);
  }

  /** For every batch limit there is a run, without dead letters, to a starved state: `limit` memos wait for a
      project whose own entry is the next one behind them, and no answered cycle changes that. It is so whether
      the peer defers such a memo or its endpoint refuses it. */
  lemma StarvationIsReachable(w: World, d: Draw, limit: nat, gate: Option<Id>)
    requires d.id != "" && limit > 0 && (gate.Some? ==> gate.value == w.account)
    ensures var acts := StarvingRun(w, d, limit);
            IsRun(w, acts) && NoDead(SysAfter(w, acts)) && Starved(SysAfter(w, acts), limit, gate)
  {
    hide IsRun, SysAfter, FirstPull, LocalChange, Edits, TakesNow, CanMove;
    FirstPullRests(w, d);
    EditsAreARun(w, d, limit, 2 * limit + 1);
    ScansQueueEverything(w, d, limit);
    var s, t := SysAfter(w, FirstPull(w, d)), SysAfter(w, StarvingRun(w, d, limit));
    var e := SysAfter(w, FirstPull(w, d) + Edits(w, limit, 2 * limit + 1));
    var b := |s.client.store.log|;
    FirstAreBlocked(w, s, t, e, limit);
    OnlyTheFirstAreListed(t.client.queue, b, limit);
    NothingListedTakes(t, limit, b);
    NothingMoves(t.client, t.server.store, limit, gate);
    assert e.client.store.log[b + limit].key == EditKey(limit, limit);
    NewProjectCouldGo(w, t.client.store, t.client.rowState, t.server.store.rows, b + limit);
    assert QueueKey(Push, b + limit + 1) in t.client.queue && b + limit + 1 in LiveSeqs(t.client.queue, Push);
  }

  lemma NothingListedTakes(t: Sys, limit: nat, b: nat)
    requires forall key | key in t.client.queue :: key.direction == Push
    requires forall n: nat | b < n <= b + limit ::
               QueueKey(Push, n) in t.client.queue && !TakesNow(t.server.store.rows, t.client.queue[QueueKey(Push, n)])
    requires forall n | n in SortedPrefix(LiveSeqs(t.client.queue, Push), limit) :: b < n <= b + limit
    ensures NoDead(t) && !ListedTakes(t.client.queue, Push, limit, t.server.store.rows)
    ensures !ListedTakes(t.client.queue, Pull, limit, t.client.store.rows)
  {
    hide TakesNow, SortedPrefix;
    assert LiveSeqs(t.client.queue, Pull) == {};
  }

  lemma NothingMoves(c: Client, srv: Store, limit: nat, gate: Option<Id>)
    requires c.pushed == |c.store.log| && c.pulled == |srv.log|
    requires !ListedTakes(c.queue, Push, limit, srv.rows) && !ListedTakes(c.queue, Pull, limit, c.store.rows)
    ensures !CanMove(c, srv, limit, gate)
  {
    hide TakesNow, Forbids, SortedPrefix;
  }
}
