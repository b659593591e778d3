/** An edit of one node alone is no conflict: it is pulled without a version, an issue or an echo. */
module SyncOneSided {
  import opened SyncSchema
  import opened SyncStore
  import opened SyncApply
  import opened SyncApplyProofs
  import opened SyncFeedProofs
  import opened SyncBatch
  import opened SyncQueue
  import opened TwoNode
  import opened SyncInvariants
  import opened SyncSafety
  import opened SyncConvergence
  import opened SyncOutcome
  import opened SyncClocks

  /** The clock last agreed about the row is neither the client's nor the edit's. */
  ghost predicate Surprises(s: Sys, k: Key, row: Row)
    requires k in s.client.rowState && k in s.client.store.rows
  {
    && Get(s.client.store.rows[k], UpdatedAtUtc) != Num(s.client.rowState[k].clock)
    && Get(row, UpdatedAtUtc) != Num(s.client.rowState[k].clock)
  }

  /** From rest, a server edit is pulled as a conflict exactly when the client has forgotten what was agreed. */
  lemma ItemConflicts(w: World, s: Sys, k: Key, row: Row, d: Draw)
    requires AtRestOn(w, s, k) && Storable(w, s, k, row, d) && row != s.server.store.rows[k]
    ensures var st := s.client.store;
            var a := ApplyOne(ClientSession(w), st, k.table, FeedItem(s, k, row), d);
            && a.Done? && (a.out.status == Applied || a.out.status == Skipped)
            && (a.out.conflict.Some? <==> Surprises(s, k, row))
            && (a.out.conflict.None? ==>
                  && a.store.log == st.log
                  && a.store.rows == (if Clk(row) >= Clk(st.rows[k]) then st.rows[k := row] else st.rows)
                  && forall i | i in a.store.issues && i.kind == ConflictIssue :: i in st.issues)
  {
    hide AtRestOn, Storable, ApplyOne, Columns, Clk;
    ItemDecides(w, s, k, row, d);
    RestIsComplete(w, s, k, row, d);
    var st, ch := s.client.store, FeedItem(s, k, row);
    ConflictExactlyWhenBothChanged(ClientSession(w), st, k.table, ch, d);
    ApplyTouchesTwoRows(ClientSession(w), st, k.table, ch, d);
    SomeColumnIsNew(st.rows[k], row, k.table);
    var a := ApplyOne(ClientSession(w), st, k.table, ch, d);
    if a.out.conflict.None? {
      NoConflictNoIssue(ClientSession(w), st, k.table, ch, d);
      OnlyOneRow(st.rows, a.store.rows, k, a.store.rows[k]);
    }
  }

  lemma RestIsComplete(w: World, s: Sys, k: Key, row: Row, d: Draw)
    requires AtRestOn(w, s, k) && Storable(w, s, k, row, d) && row != s.server.store.rows[k]
    ensures k in s.client.rowState && k in s.client.store.rows && row.Keys == Columns(k.table) && k.id != ""
    ensures row != s.client.store.rows[k] && row.Keys == s.client.store.rows[k].Keys
    ensures Key(MemoVersions, d.id) !in s.client.store.rows
  {
    hide Columns, LatestSeq, Visible, ConstraintsHold;
  }

  lemma OnlyOneRow(was: map<Key, Row>, now: map<Key, Row>, k: Key, row: Row)
    requires k in was && k in now && now[k] == row && forall j | j != k :: SameAt(was, now, j)
    ensures now == was[k := row]
  {
    forall j ensures j in now <==> j in was {
      if j != k { assert SameAt(was, now, j); }
    }
    forall j | j in now ensures now[j] == was[k := row][j] {
      if j != k { assert SameAt(was, now, j); }
    }
  }

  lemma SomeColumnIsNew(stored: Row, row: Row, t: Table)
    requires stored.Keys == row.Keys == Columns(t) && stored != row
    ensures !Repeats(stored, row, t)
  {
    hide Columns;
    assert (forall c | c in row :: Get(stored, c) == row[c]) ==> stored == row;
  }

  lemma NoConflictNoIssue(x: Session, st: Store, t: Table, ch: Change, d: Draw)
    requires ApplyOne(x, st, t, ch, d).Done? && ApplyOne(x, st, t, ch, d).out.conflict.None?
    ensures forall i | i in ApplyOne(x, st, t, ch, d).store.issues && i.kind == ConflictIssue :: i in st.issues
  {
    hide ConstraintsHold, TrueDivergence, RowsEquivalent, IncomingWins, PreserveText;
  }

  lemma ItemIsPulledQuietly(w: World, s: Sys, c: Client, k: Key, row: Row, d: Draw)
    requires AtRestOn(w, s, k) && Storable(w, s, k, row, d) && row != s.server.store.rows[k] && c == s.client
    requires !Surprises(s, k, row)
    ensures var st, q := c.store, PullBatch(w, c, [FeedItem(s, k, row)], i => d);
            && q.Running? && q.out.conflicts == [] && q.store.log == st.log
            && q.store.rows == (if Clk(row) >= Clk(st.rows[k]) then st.rows[k := row] else st.rows)
            && (forall i | i in q.store.issues && i.kind == ConflictIssue :: i in st.issues)
            && |q.out.results| == 1 && q.out.results[0].seqNo == FeedItem(s, k, row).seqNo
            && (q.out.results[0].status == Applied || q.out.results[0].status == Skipped)
  {
    hide ApplyOne, EffectiveClock, AtRestOn, Storable, Surprises;
    RestIsComplete(w, s, k, row, d);
    ItemConflicts(w, s, k, row, d);
    SingleBatch(ClientSession(w), None, c.store, map[], FeedItem(s, k, row), i => d);
    hide ApplyBatch;
  }

  /** From rest, a server edit that the client may store, and about whose row the client remembers what it holds, is
      pulled without a conflict: no version is added, the client's log is as it was, so nothing is sent back, and
      no conflict is recorded. The row is the server's unless the edit was stamped earlier. */
  lemma OneSidedEditIsNoConflict(w: World, s: Sys, k: Key, row: Row, d: Draw)
    requires AtRestOn(w, s, k) && Storable(w, s, k, row, d) && row != s.server.store.rows[k]
    requires s.client.store.rows[k][UpdatedAtUtc] == Num(s.client.rowState[k].clock)
    ensures var was, now := s.client.store, ExecApplyPage(w, ReadAfter(w, s, k, row), i => d).client.store;
            && now.log == was.log
            && now.rows == (if Clk(row) >= Clk(was.rows[k]) then was.rows[k := row] else was.rows)
            && (forall i | i in now.issues && i.kind == ConflictIssue :: i in was.issues)
  {
    hide PullBatch, SettlePage, LatestSeq, Columns, ConstraintsHold, Visible, Clk;
    EditIsRead(w, s, k, row, d);
    ItemIsPulledQuietly(w, s, s.client, k, row, d);
    hide ReadAfter;
    var ch := FeedItem(s, k, row);
    assert WithBases(s.client.rowState, [ch.(baseClock := None)]) == [ch];
    var q := PullBatch(w, s.client, [ch], i => d);
    assert q.out.results == [q.out.results[0]];
    FinishedLeavesNothing(s.client.(store := q.store), ch, q.out.results[0]);
  }

  // ------------------------------------------------------------------
  // What is remembered afterwards
  // ------------------------------------------------------------------

  lemma FinishedIsRemembered(c: Client, ch: Change, r: Result)
    requires ch.table.Some? && ch.seqNo.Some? && ch.seqNo == r.seqNo && (r.status == Applied || r.status == Skipped)
    requires ch.rowId != "" && ch.row.Some? && ClockOf(ch.row.value).Some?
    ensures var d, k := SettlePage(c, [ch], [r]), Key(ch.table.value, ch.rowId);
            && d.Some? && k in d.value.rowState && Num(d.value.rowState[k].clock) == Get(ch.row.value, UpdatedAtUtc)
            && d.value.rowState[k].peerSeq >= ch.seqNo.value
  {
    assert [ch][..0] == [];
    assert SettlePage(c, [ch][..0], [r]) == Some(c);
  }

  /** After the pull the client remembers the clock and the seq of what it pulled. So where the edit was not stamped
      earlier, it remembers what it holds, and the next edit of one side is again no conflict. */
  lemma PulledEditIsRemembered(w: World, s: Sys, k: Key, row: Row, d: Draw)
    requires AtRestOn(w, s, k) && Storable(w, s, k, row, d) && row != s.server.store.rows[k]
    ensures var c := ExecApplyPage(w, ReadAfter(w, s, k, row), i => d).client;
            && k in c.rowState && Num(c.rowState[k].clock) == Get(row, UpdatedAtUtc)
            && c.rowState[k].peerSeq >= |s.server.store.log| + 1
            && (Clk(row) >= Clk(s.client.store.rows[k]) ==>
                  k in c.store.rows && Get(c.store.rows[k], UpdatedAtUtc) == Num(c.rowState[k].clock))
  {
    hide PullBatch, SettlePage, LatestSeq, Columns, ConstraintsHold, Visible, Clk;
    EditIsRead(w, s, k, row, d);
    ItemIsPulled(w, s, s.client, k, row, d);
    hide ReadAfter;
    var ch := FeedItem(s, k, row);
    assert WithBases(s.client.rowState, [ch.(baseClock := None)]) == [ch];
    var q := PullBatch(w, s.client, [ch], i => d);
    assert q.out.results == [q.out.results[0]];
    FinishedLeavesNothing(s.client.(store := q.store), ch, q.out.results[0]);
    FinishedIsRemembered(s.client.(store := q.store), ch, q.out.results[0]);
  }

  lemma FinalAnswerIsRemembered(c: Client, n: nat, answer: Outcome)
    requires answer.results != [] && answer.results[0].status in {Applied, Skipped}
    requires answer.results[0].table.Some? && answer.results[0].rowId != "" && answer.results[0].clock.Some?
    ensures var d, k := SettlePushed(c, n, answer), Key(answer.results[0].table.value, answer.results[0].rowId);
            k in d.rowState && d.rowState[k].clock == answer.results[0].clock.value
  {
  }

  lemma DeliveryAnswersClock(w: World, s: Sys, srv: Server, peer: Peer, k: Key, row: Row, d: Draw)
    requires AtRestOn(w, s, k) && Acceptable(s, k, row) && row != s.client.store.rows[k] && srv == s.server
    ensures var q := ApplyBatch(ServerSession(w), Some(peer), srv.store, srv.receipts, [Payload(s, k, row)], i => d);
            && q.Running? && k in q.store.rows && |q.out.results| == 1
            && (var r := q.out.results[0];
                && r.status in {Applied, Skipped} && r.table == Some(k.table) && r.rowId == k.id
                && r.clock.Some? && Get(q.store.rows[k], UpdatedAtUtc) == Num(r.clock.value))
  {
    hide ApplyOne, LatestSeq, Columns, ConstraintsHold;
    PayloadDecides(w, s, k, row, d);
    SingleBatch(ServerSession(w), Some(peer), srv.store, srv.receipts, Payload(s, k, row), i => d);
    hide ApplyBatch;
    var a := ApplyOne(ServerSession(w), srv.store, k.table, Payload(s, k, row), d);
    EmptyMerge(PartOf(k.table, Payload(s, k, row), a.out, a.store.rows));
  }

  /** After the exchange of an edit the client remembers the clock the server's row has. So where the edit was stamped
      later, it remembers what it holds. */
  lemma PushedEditIsRemembered(w: World, s: Sys, k: Key, row: Row, newEpoch: Id, d: Draw)
    requires AtRestOn(w, s, k) && Acceptable(s, k, row) && row != s.client.store.rows[k]
    ensures var t := Exchanged(w, s, k, row, newEpoch, d);
            && k in t.client.rowState && k in t.server.store.rows && k in t.client.store.rows
            && Get(t.server.store.rows[k], UpdatedAtUtc) == Num(t.client.rowState[k].clock)
            && (Clk(row) > Clk(s.server.store.rows[k]) ==>
                  Get(t.client.store.rows[k], UpdatedAtUtc) == Num(t.client.rowState[k].clock))
  {
    hide LatestSeq, Columns, ConstraintsHold, ApplyBatch, ExecCollect, SettlePushed;
    EditArrivesExactlyWhenLater(w, s, k, row, newEpoch, d);
    var n := |s.client.store.log| + 1;
    EditIsCollected(w, s, k, row);
    var sent := ExecSend(w, ExecCollect(Edited(s, k, row), 1), n, newEpoch);
    var peer := PeerOf(w, sent.client.epoch.value);
    DeliveryAnswersClock(w, s, sent.server, peer, k, row, d);
    var q := ApplyBatch(ServerSession(w), Some(peer), sent.server.store, sent.server.receipts, [Payload(s, k, row)],
      i => d);
    FinalAnswerIsRemembered(sent.client, n, q.out);
  }
}
