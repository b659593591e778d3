/** What holds in every state of every run, and how single row writes keep it. */
module SyncInvariants {
  import opened SyncSchema
  import opened SyncStore
  import opened SyncApply
  import opened SyncApplyProofs
  import opened SyncEffectProofs
  import opened SyncBatch
  import opened SyncQueue
  import opened SyncFeedProofs
  import opened TwoNode

  type Rows = map<Key, Row>

  // ------------------------------------------------------------------
  // Well-formed rows and changes
  // ------------------------------------------------------------------

  ghost predicate RowOk(w: World, k: Key, row: Row) {
    && k.id != ""
    && row.Keys == Columns(k.table)
    && ClockOf(row).Some?
    && (k.table == Projects ==> Get(row, OwnerId) == Text(w.account))
  }

  ghost predicate NodeOk(w: World, rows: Rows) {
    RowsValid(rows) && forall k | k in rows :: RowOk(w, k, rows[k])
  }

  function KeyOf(ch: Change): Key
    requires ch.table.Some?
  {
    Key(ch.table.value, ch.rowId)
  }

  ghost predicate WireOk(w: World, ch: Change) {
    ch.seqNo.Some? && ch.table.Some? && ch.row.Some? && RowOk(w, KeyOf(ch), ch.row.value)
  }

  // ------------------------------------------------------------------
  // Clocks: copies in flight never outrun what they were taken from
  // ------------------------------------------------------------------

  ghost predicate SnapBound(cr: Rows, sr: Rows, k: Key, row: Row) {
    && k in cr && Clk(cr[k]) >= Clk(row)
    && (cr[k] == row || Clk(cr[k]) > Clk(row) || (k in sr && Clk(sr[k]) >= Clk(row)))
  }

  /** Every payload in the outbox, ever: the client's row is at least as late; if it is another row with
      the same clock, the server already has that clock. */
  ghost predicate SnapsBound(w: World, cr: Rows, sr: Rows, snap: map<nat, Change>) {
    forall n | n in snap :: WireOk(w, snap[n]) && SnapBound(cr, sr, KeyOf(snap[n]), snap[n].row.value)
  }

  ghost predicate FeedBound(sr: Rows, k: Key, row: Row) {
    k in sr && (sr[k] == row || Clk(sr[k]) > Clk(row))
  }

  /** Everything ever handed out by the server is still its row or older than its row. */
  ghost predicate FeedsBound(w: World, sr: Rows, feed: set<Change>) {
    forall ch | ch in feed :: WireOk(w, ch) && FeedBound(sr, KeyOf(ch), ch.row.value)
  }

  // ------------------------------------------------------------------
  // Coverage: a difference is always on its way
  // ------------------------------------------------------------------

  ghost predicate ClientAhead(cr: Rows, sr: Rows, k: Key) {
    k in cr && (k !in sr || Clk(cr[k]) > Clk(sr[k]))
  }

  ghost predicate ServerAhead(cr: Rows, sr: Rows, k: Key) {
    k in sr && !(k in cr && (Clk(cr[k]) > Clk(sr[k]) || cr[k] == sr[k]))
  }

  ghost predicate HeldUp(q: Queue, k: Key, row: Row) {
    exists key :: key in q && (key.direction == Push || key.direction == PushDead) && Carries(q[key], k, row)
  }

  ghost predicate HeldDown(q: Queue, k: Key, row: Row) {
    exists key :: key in q && (key.direction == Pull || key.direction == PullDead) && Carries(q[key], k, row)
  }

  ghost predicate ClientCovered(c: Client, sr: Rows) {
    forall k | ClientAhead(c.store.rows, sr, k) ::
      LoggedIn(c.store.log, c.pushed, |c.store.log|, k) || HeldUp(c.queue, k, c.store.rows[k])
  }

  ghost predicate ServerCovered(cr: Rows, q: Queue, srv: Store, from: nat, extra: seq<Change>) {
    forall k | ServerAhead(cr, srv.rows, k) ::
      LoggedIn(srv.log, from, |srv.log|, k) || HeldDown(q, k, srv.rows[k]) || Delivers(extra, k, srv.rows[k])
  }

  // ------------------------------------------------------------------
  // How a node's rows evolve
  // ------------------------------------------------------------------

  ghost predicate Arrives(ch: Change, st: Store, now: Store, k: Key, ties: bool) {
    && k in now.rows && Carries(ch, k, now.rows[k])
    && (k in st.rows ==> if ties then Clk(now.rows[k]) >= Clk(st.rows[k]) else Clk(now.rows[k]) > Clk(st.rows[k]))
  }

  /** No row is lost; a row that changes either is a new, later, logged write, or is the change that arrived. */
  ghost predicate Evolves(w: World, st: Store, now: Store, arrived: Option<Change>, ties: bool) {
    && st.log <= now.log
    && NodeOk(w, now.rows)
    && (forall k | k in st.rows :: k in now.rows)
    && (forall i | |st.log| <= i < |now.log| :: now.log[i].key in now.rows)
    && forall k | k in now.rows && (k !in st.rows || now.rows[k] != st.rows[k]) ::
         || (LoggedIn(now.log, |st.log|, |now.log|, k) && (k in st.rows ==> Clk(now.rows[k]) > Clk(st.rows[k])))
         || (arrived.Some? && Arrives(arrived.value, st, now, k, ties))
  }

  /** Without hard deletes, every row the log speaks of is still there. */
  ghost predicate LogStored(st: Store) {
    forall i | 0 <= i < |st.log| :: st.log[i].key in st.rows
  }

  lemma EvolvesKeepsLogStored(w: World, st: Store, now: Store, arrived: Option<Change>, ties: bool)
    requires LogStored(st) && Evolves(w, st, now, arrived, ties)
    ensures LogStored(now)
  {
    hide NodeOk, Arrives, LoggedIn;
    forall i | 0 <= i < |now.log| ensures now.log[i].key in now.rows {
      if i < |st.log| { assert now.log[i] == st.log[i]; }
    }
  }

  lemma EditEvolves(w: World, st: Store, k: Key, row: Row)
    requires NodeOk(w, st.rows) && EditAllowed(w, st.rows, k, row)
    ensures Evolves(w, st, PutRow(st, false, k, row), None, false)
  {
    hide ConstraintsHold, Columns, RowsValid, ClockOf, Get;
    var now := PutRow(st, false, k, row);
    StoringKeepsRowsValid(st.rows, k, row);
    assert now.log[|st.log|].key == k;
  }

  lemma WholeRowReplaces(t: Table, row: Row, was: Row, now: int)
    requires row.Keys == Columns(t)
    ensures FilterRow(t, row) == row
    ensures Defaults(t, now) + row == row
    ensures was.Keys == Columns(t) ==> was + row == row
  {
  }

  /** A complete row that is applied becomes the row; nothing else changes but a preserved version. */
  lemma ApplyReplaces(w: World, x: Session, st: Store, ch: Change, d: Draw)
    requires x.applying && NodeOk(w, st.rows) && WireOk(w, ch)
    requires ApplyOne(x, st, ch.table.value, ch, d).Done?
    ensures var a := ApplyOne(x, st, ch.table.value, ch, d);
            var k := KeyOf(ch);
            && (a.out.status == Applied ==>
                  k in a.store.rows && a.store.rows[k] == ch.row.value
                    && Arrives(ch, st, a.store, k, x.side == ServerSide))
            && (a.out.status != Applied ==> SameAt(st.rows, a.store.rows, k))
            && (a.out.status == Skipped ==>
                  k in st.rows && (Clk(st.rows[k]) > Clk(ch.row.value) || st.rows[k] == ch.row.value
                                   || (x.side == ClientSide && Clk(st.rows[k]) == Clk(ch.row.value))))
  {
    hide ApplyOne, ConstraintsHold, FilterRow, Defaults, Columns;
    var t, k := ch.table.value, KeyOf(ch);
    WholeRowReplaces(t, ch.row.value, if k in st.rows then st.rows[k] else map[], d.now);
    ApplyTouchesTwoRows(x, st, t, ch, d);
    ApplyDecidesByClock(x, st, t, ch, d);
    var a := ApplyOne(x, st, t, ch, d);
    if a.out.status == Skipped && RowsEquivalent(st.rows[k], ch.row.value) {
      assert st.rows[k].Keys == Columns(t);
      assert st.rows[k] == ch.row.value;
    }
  }

  lemma ApplyEvolves(w: World, x: Session, st: Store, ch: Change, d: Draw)
    requires x.applying && NodeOk(w, st.rows) && WireOk(w, ch) && d.id != ""
    requires ApplyOne(x, st, ch.table.value, ch, d).Done?
    ensures Evolves(w, st, ApplyOne(x, st, ch.table.value, ch, d).store, Some(ch), x.side == ServerSide)
  {
    hide ApplyOne, ConstraintsHold, RowsValid, RowOk, Arrives, FreshVersion;
    var t := ch.table.value;
    var k, vk := KeyOf(ch), VersionKey(d);
    var a := ApplyOne(x, st, t, ch, d);
    ApplyTouchesTwoRows(x, st, t, ch, d);
    ApplyReplaces(w, x, st, ch, d);
    ApplyKeepsRowsValid(x, st, t, ch, d);
    if KeepsVersion(a.out) {
      assert a.store.log[|st.log|].key == vk;
      FreshVersionOk(w, st.rows, a.store.rows[vk], vk, ch.rowId, d);
    }
    forall j | j in st.rows ensures j in a.store.rows {
      if j != k && j != vk { assert SameAt(st.rows, a.store.rows, j); }
    }
    forall j | j in a.store.rows ensures RowOk(w, j, a.store.rows[j]) {
      if j != k && j != vk { assert SameAt(st.rows, a.store.rows, j); }
    }
    forall j | j in a.store.rows && (j !in st.rows || a.store.rows[j] != st.rows[j])
      ensures j == k || (j == vk && KeepsVersion(a.out))
    {
      assert j != k && j != vk ==> SameAt(st.rows, a.store.rows, j);
    }
  }

  lemma FreshVersionOk(w: World, rows: Rows, row: Row, vk: Key, memo: Id, d: Draw)
    requires FreshVersion(rows, row, vk, memo, d) && vk.id != ""
    ensures RowOk(w, vk, row)
  {
  }

  // ------------------------------------------------------------------
  // Evolution keeps clocks and coverage
  // ------------------------------------------------------------------

  ghost predicate InSnap(ch: Option<Change>, snap: map<nat, Change>) {
    ch.Some? ==> exists n :: n in snap && snap[n] == ch.value
  }

  /** The same log entry and the same row; what was last agreed about the row may have been filled in. */
  ghost predicate SameItem(f: Change, ch: Change) {
    f.seqNo == ch.seqNo && f.table == ch.table && f.rowId == ch.rowId && f.row == ch.row
  }

  /** A change that carries the row of some feed item. */
  ghost predicate InFeeds(w: World, ch: Option<Change>, feed: set<Change>) {
    ch.Some? ==> WireOk(w, ch.value)
                 && exists f :: f in feed && WireOk(w, f) && SameItem(f, ch.value)
  }

  lemma ServerStepKeepsClocks(
    w: World, cr: Rows, st: Store, now: Store, arrived: Option<Change>, snap: map<nat, Change>, feed: set<Change>)
    requires NodeOk(w, st.rows) && Evolves(w, st, now, arrived, false)
    requires SnapsBound(w, cr, st.rows, snap) && FeedsBound(w, st.rows, feed)
    ensures SnapsBound(w, cr, now.rows, snap) && FeedsBound(w, now.rows, feed)
  {
    hide WireOk, NodeOk, Carries, LoggedIn;
    assert forall k | k in st.rows ::
             k in now.rows && (now.rows[k] == st.rows[k] || Clk(now.rows[k]) > Clk(st.rows[k]));
  }

  lemma ClientStepKeepsClocks(
    w: World, st: Store, now: Store, sr: Rows, arrived: Option<Change>, snap: map<nat, Change>, feed: set<Change>)
    requires NodeOk(w, st.rows) && Evolves(w, st, now, arrived, true)
    requires SnapsBound(w, st.rows, sr, snap) && FeedsBound(w, sr, feed) && InFeeds(w, arrived, feed)
    ensures SnapsBound(w, now.rows, sr, snap)
  {
    hide NodeOk, WireOk, InFeeds, FeedsBound, LoggedIn;
    ArrivedIsBound(w, sr, arrived, feed);
    assert forall k | k in st.rows ::
      k in now.rows && (now.rows[k] == st.rows[k] || Clk(now.rows[k]) > Clk(st.rows[k])
                        || (k in sr && Clk(now.rows[k]) == Clk(st.rows[k]) && Clk(sr[k]) >= Clk(now.rows[k])));
  }

  lemma ArrivedIsBound(w: World, sr: Rows, arrived: Option<Change>, feed: set<Change>)
    requires InFeeds(w, arrived, feed) && FeedsBound(w, sr, feed)
    ensures arrived.Some? ==> FeedBound(sr, KeyOf(arrived.value), arrived.value.row.value)
  {
  }

  /** The server's row for `k` changed to one the client is not ahead of only by a logged write. */
  lemma ServerStepKeepsCoverage(
    w: World, c: Client, st: Store, now: Store, arrived: Option<Change>, snap: map<nat, Change>,
    from: nat, extra: seq<Change>)
    requires NodeOk(w, st.rows) && Evolves(w, st, now, arrived, false) && InSnap(arrived, snap)
    requires SnapsBound(w, c.store.rows, st.rows, snap) && from <= |st.log|
    requires ClientCovered(c, st.rows) && ServerCovered(c.store.rows, c.queue, st, from, extra)
    ensures ClientCovered(c, now.rows) && ServerCovered(c.store.rows, c.queue, now, from, extra)
  {
    hide NodeOk, WireOk, Carries, HeldUp, HeldDown, Delivers, LoggedIn;
    var cr := c.store.rows;
    forall k | ClientAhead(cr, now.rows, k) ensures ClientAhead(cr, st.rows, k) {}
    forall k | ServerAhead(cr, now.rows, k)
      ensures LoggedIn(now.log, from, |now.log|, k) || HeldDown(c.queue, k, now.rows[k])
              || Delivers(extra, k, now.rows[k])
    {
      if k in st.rows && now.rows[k] == st.rows[k] {
        assert ServerAhead(cr, st.rows, k);
        if LoggedIn(st.log, from, |st.log|, k) { LogGrows(st.log, now.log, from, k); }
      } else if LoggedIn(now.log, |st.log|, |now.log|, k) {
        LogSuffix(now.log, from, |st.log|, k);
      } else {
        var n :| n in snap && snap[n] == arrived.value;
        ArrivedIsNotAhead(w, cr, st, now, arrived.value, k);
      }
    }
  }

  lemma ArrivedIsNotAhead(w: World, cr: Rows, st: Store, now: Store, ch: Change, k: Key)
    requires WireOk(w, ch) && Arrives(ch, st, now, k, false)
    requires SnapBound(cr, st.rows, KeyOf(ch), ch.row.value)
    ensures !ServerAhead(cr, now.rows, k)
  {
  }

  lemma LogGrows(log: seq<LogEntry>, now: seq<LogEntry>, from: nat, k: Key)
    requires log <= now && LoggedIn(log, from, |log|, k)
    ensures LoggedIn(now, from, |now|, k)
  {
    var i :| from <= i < |log| && log[i].key == k;
    assert now[i].key == k;
  }

  lemma LogSuffix(log: seq<LogEntry>, from: nat, lo: nat, k: Key)
    requires from <= lo && LoggedIn(log, lo, |log|, k)
    ensures LoggedIn(log, from, |log|, k)
  {
  }

  lemma ClientStepKeepsCoverage(
    w: World, c: Client, now: Store, srv: Store, arrived: Option<Change>, feed: set<Change>)
    requires NodeOk(w, c.store.rows) && Evolves(w, c.store, now, arrived, true) && InFeeds(w, arrived, feed)
    requires FeedsBound(w, srv.rows, feed) && c.pushed <= |c.store.log|
    requires ClientCovered(c, srv.rows)
    ensures ClientCovered(c.(store := now), srv.rows)
  {
    ArrivedIsBound(w, srv.rows, arrived, feed);
    hide NodeOk, WireOk, InFeeds, FeedsBound, HeldUp, LoggedIn;
    var st := c.store;
    forall k | ClientAhead(now.rows, srv.rows, k)
      ensures LoggedIn(now.log, c.pushed, |now.log|, k) || HeldUp(c.queue, k, now.rows[k])
    {
      if k in st.rows && now.rows[k] == st.rows[k] {
        assert ClientAhead(st.rows, srv.rows, k);
        if LoggedIn(st.log, c.pushed, |st.log|, k) { LogGrows(st.log, now.log, c.pushed, k); }
      } else if LoggedIn(now.log, |st.log|, |now.log|, k) {
        LogSuffix(now.log, c.pushed, |st.log|, k);
      }
    }
  }

  /** No client step puts the server ahead on a row where it was not. */
  lemma ClientStepNeverFallsBehind(
    w: World, st: Store, now: Store, sr: Rows, arrived: Option<Change>, feed: set<Change>)
    requires NodeOk(w, st.rows) && Evolves(w, st, now, arrived, true) && InFeeds(w, arrived, feed)
    requires FeedsBound(w, sr, feed)
    ensures forall k | ServerAhead(now.rows, sr, k) :: ServerAhead(st.rows, sr, k)
  {
    ArrivedIsBound(w, sr, arrived, feed);
    hide NodeOk, WireOk, InFeeds, FeedsBound, LoggedIn;
  }
}
