/** What applying one change can and cannot do to a node. */
module SyncApplyProofs {
  import opened SyncSchema
  import opened SyncStore
  import opened SyncApply

  /** The id under which a conflict's losing text would be stored. */
  function VersionKey(d: Draw): Key {
    Key(MemoVersions, d.id)
  }

  ghost predicate KeepsVersion(o: RowOutcome) {
    o.conflict.Some? && o.conflict.value.preserved.Some?
  }

  ghost predicate SameAt(a: map<Key, Row>, b: map<Key, Row>, k: Key) {
    (k in a <==> k in b) && (k in a ==> a[k] == b[k])
  }

  /** Preserving a text adds at most one row, fresh, valid and logged. */
  lemma PreserveAddsOneVersion(x: Session, st: Store, k: Key, loser: Row, side: Side, d: Draw)
    requires PreserveText(x, st, k, loser, side, d).Kept?
    ensures var p := PreserveText(x, st, k, loser, side, d);
            var vk := VersionKey(d);
            && p.store.issues == st.issues
            && (p.version.None? ==> p.store == st)
            && (p.version.Some? ==>
                  && k.table == Memos && vk !in st.rows
                  && p.store.rows == st.rows[vk := p.store.rows[vk]]
                  && p.store.log == st.log + [LogEntry(vk, Insert)]
                  && FreshVersion(st.rows, p.store.rows[vk], vk, k.id, d))
  {
  }

  ghost predicate FreshVersion(rows: map<Key, Row>, row: Row, vk: Key, memo: Id, d: Draw) {
    && vk.table == MemoVersions
    && Get(row, MemoId) == Text(memo)
    && ConstraintsHold(rows, vk, row)
    && row.Keys == Columns(MemoVersions)
    && ClockOf(row) == Some(d.now)
  }

  /** What a completed attempt on row `k` may have changed. */
  ghost predicate TwoRowsTouched(st: Store, a: Attempt, k: Key, vk: Key, d: Draw)
    requires a.Done?
  {
    && (forall j | j != k && j != vk :: SameAt(st.rows, a.store.rows, j))
    && (!KeepsVersion(a.out) ==> (vk != k ==> SameAt(st.rows, a.store.rows, vk)) && a.store.log == st.log)
    && (KeepsVersion(a.out) ==>
          && k.table == Memos && vk !in st.rows && vk in a.store.rows && k in st.rows
          && a.store.log == st.log + [LogEntry(vk, Insert)]
          && FreshVersion(st.rows, a.store.rows[vk], vk, k.id, d))
    && (a.out.status == Deferred || a.out.status == Rejected ==> a.store == st && a.out.conflict == None)
  }

  lemma OverTouchesTwoRows(x: Session, st: Store, k: Key, ch: Change, incoming: Row, clock: int, d: Draw)
    requires x.applying && k in st.rows && ApplyOver(x, st, k, ch, incoming, clock, d).Done?
    ensures TwoRowsTouched(st, ApplyOver(x, st, k, ch, incoming, clock, d), k, VersionKey(d), d)
  {
    hide FindDuplicates, ConstraintsHold, PreserveText, RowsEquivalent, TrueDivergence, IncomingWins, FreshVersion;
    var wins := IncomingWins(clock, ClockOf(st.rows[k]), x.side);
    var side := if wins then OtherSide(x.side) else x.side;
    var loser := if wins then st.rows[k] else incoming;
    if PreserveText(x, st, k, loser, side, d).Kept? {
      PreserveAddsOneVersion(x, st, k, loser, side, d);
    }
  }

  /** Only the named row and one fresh version row can change, and the log grows by that version's
      insert or not at all. */
  lemma ApplyTouchesTwoRows(x: Session, st: Store, t: Table, ch: Change, d: Draw)
    requires x.applying
    requires ApplyOne(x, st, t, ch, d).Done?
    ensures var a := ApplyOne(x, st, t, ch, d);
            var k, vk := Key(t, ch.rowId), VersionKey(d);
            && (forall j | j != k && j != vk :: SameAt(st.rows, a.store.rows, j))
            && (!KeepsVersion(a.out) ==> (vk != k ==> SameAt(st.rows, a.store.rows, vk)) && a.store.log == st.log)
            && (KeepsVersion(a.out) ==>
                  && t == Memos && vk !in st.rows && vk in a.store.rows && k in st.rows
                  && a.store.log == st.log + [LogEntry(vk, Insert)]
                  && FreshVersion(st.rows, a.store.rows[vk], vk, ch.rowId, d))
            && (a.out.status == Deferred || a.out.status == Rejected ==> a.store == st && a.out.conflict == None)
  {
    hide FindDuplicates, ConstraintsHold, ApplyOver, MissingParentOf, FilterRow, Defaults, FreshVersion;
    var k := Key(t, ch.rowId);
    if k in st.rows && ch.row.Some? {
      var incoming := FilterRow(t, ch.row.value);
      if ClockOf(incoming).Some? && ApplyOver(x, st, k, ch, incoming, ClockOf(incoming).value, d).Done? {
        OverTouchesTwoRows(x, st, k, ch, incoming, ClockOf(incoming).value, d);
      }
    }
  }

  /** The whole effect on the named row of a change that is not a hard delete. */
  lemma ApplyDecidesByClock(x: Session, st: Store, t: Table, ch: Change, d: Draw)
    requires x.applying
    requires ApplyOne(x, st, t, ch, d).Done?
    requires ch.row.Some?
    ensures var a := ApplyOne(x, st, t, ch, d);
            var k := Key(t, ch.rowId);
            var incoming := FilterRow(t, ch.row.value);
            && (a.out.status == Applied || a.out.status == Skipped ==> k in a.store.rows && ClockOf(incoming).Some?)
            && (a.out.status == Applied ==>
                  && ConstraintsHold(if t == Memos then a.store.rows else st.rows, k, a.store.rows[k])
                  && if k in st.rows then
                       && IncomingWins(ClockOf(incoming).value, ClockOf(st.rows[k]), x.side)
                       && a.store.rows[k] == st.rows[k] + incoming
                     else a.store.rows[k] == Defaults(t, d.now) + incoming)
            && (a.out.status == Skipped ==>
                  && k in st.rows && a.store.rows[k] == st.rows[k]
                  && (!IncomingWins(ClockOf(incoming).value, ClockOf(st.rows[k]), x.side)
                      || (ClockOf(st.rows[k]) == ClockOf(incoming) && RowsEquivalent(st.rows[k], incoming))))
  {
  }
}
