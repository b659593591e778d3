/** Echo, losing text, constraints and dependency order: the effects of a batch on the node's rows and log. */
module SyncEffectProofs {
  import opened SyncSchema
  import opened SyncStore
  import opened SyncApply
  import opened SyncApplyProofs
  import opened SyncBatch

  // ------------------------------------------------------------------
  // Losing text survives
  // ------------------------------------------------------------------

  ghost predicate Reflexive(env: Env) {
    forall s :: env.sqlEq(s, s)
  }

  /** What an existing row and a change to it disagree on, when they count as diverged. */
  ghost predicate Diverges(x: Session, st: Store, t: Table, ch: Change) {
    var k := Key(t, ch.rowId);
    && ch.rowId != "" && ch.row.Some? && k in st.rows
    && var incoming := FilterRow(t, ch.row.value);
    && ClockOf(incoming).Some?
    && MissingParentOf(st.rows, t, incoming).None?
    && !(ClockOf(st.rows[k]) == ClockOf(incoming) && RowsEquivalent(st.rows[k], incoming))
    && TrueDivergence(x, st.log, k, ch, ClockOf(incoming).value, ClockOf(st.rows[k]))
  }

  /** Whichever side loses a diverging memo change, its text is a version of that memo afterwards; a
      version added for it is numbered above all earlier ones and never repeats a text already kept.
      A conflict is reported exactly for the diverging changes. */
  lemma LosingTextSurvives(x: Session, st: Store, ch: Change, d: Draw)
    requires Reflexive(x.env)
    requires ApplyOne(x, st, Memos, ch, d).Done?
    ensures var a := ApplyOne(x, st, Memos, ch, d);
            && (a.out.conflict.Some? <==> Diverges(x, st, Memos, ch))
            && (a.out.conflict.Some? ==>
                  var k := Key(Memos, ch.rowId);
                  var loser := if a.out.conflict.value.incomingWon then st.rows[k] else FilterRow(Memos, ch.row.value);
                  var text := Get(loser, Content);
                  && (text != Null ==> HasVersionText(x.env, a.store.rows, ch.rowId, text))
                  && (a.out.conflict.value.preserved.Some? ==>
                        && !HasVersionText(x.env, st.rows, ch.rowId, text)
                        && forall n | n in VersionNumbers(st.rows, ch.rowId) ::
                             n < a.out.conflict.value.preserved.value))
  {
    hide FindDuplicates, ConstraintsHold, TrueDivergence, RowsEquivalent, IncomingWins;
    var k := Key(Memos, ch.rowId);
    var a := ApplyOne(x, st, Memos, ch, d);
    if a.out.conflict.Some? {
      var wins := a.out.conflict.value.incomingWon;
      var loser := if wins then st.rows[k] else FilterRow(Memos, ch.row.value);
      var text := Get(loser, Content);
      if text != Null {
        if HasVersionText(x.env, st.rows, ch.rowId, text) {
          var vk :| vk in st.rows && IsVersionOf(st.rows, vk, ch.rowId)
            && SqlEqual(x.env, Get(st.rows[vk], Content), text);
          assert vk in a.store.rows && IsVersionOf(a.store.rows, vk, ch.rowId);
        } else {
          var vk := VersionKey(d);
          assert vk in a.store.rows && IsVersionOf(a.store.rows, vk, ch.rowId);
          assert SqlEqual(x.env, Get(a.store.rows[vk], Content), text);
        }
      }
    }
  }

  /** On every table: a conflict is reported exactly for a diverging change, and names as loser the side
      whose value did not stay. */
  lemma ConflictExactlyOnDivergence(x: Session, st: Store, t: Table, ch: Change, d: Draw)
    requires x.applying && ApplyOne(x, st, t, ch, d).Done?
    ensures var a, k := ApplyOne(x, st, t, ch, d), Key(t, ch.rowId);
            && (a.out.conflict.Some? <==> Diverges(x, st, t, ch))
            && (a.out.conflict.Some? ==>
                  var conflict := a.out.conflict.value;
                  && conflict.ref == k && (conflict.incomingWon <==> a.out.status == Applied)
                  && conflict.loserSide == (if conflict.incomingWon then OtherSide(x.side) else x.side)
                  && (conflict.loserSide == x.side ==> SameAt(st.rows, a.store.rows, k))
                  && Issue(ConflictIssue, k, None) in a.store.issues)
  {
    hide FindDuplicates, ConstraintsHold, TrueDivergence, RowsEquivalent, IncomingWins, PreserveText, FreshVersion,
      FilterRow, Columns;
    ApplyTouchesTwoRows(x, st, t, ch, d);
    if ch.row.Some? { ApplyDecidesByClock(x, st, t, ch, d); }
  }

  // ------------------------------------------------------------------
  // No echo
  // ------------------------------------------------------------------

  function KeptCount(conflicts: seq<Conflict>): nat {
    if conflicts == [] then 0
    else KeptCount(conflicts[..|conflicts| - 1]) + if conflicts[|conflicts| - 1].preserved.Some? then 1 else 0
  }

  /** `now` is `before` followed by `n` inserts of version rows. */
  ghost predicate OnlyVersionsLogged(before: seq<LogEntry>, now: seq<LogEntry>, n: nat) {
    && before <= now && |now| == |before| + n
    && forall i | |before| <= i < |now| :: now[i].key.table == MemoVersions && now[i].op == Insert
  }

  /** The peer's receipt answers the change: nothing is applied for it. */
  predicate Replayed(receipts: Receipts, peer: Option<Peer>, ch: Change) {
    ReceiptOf(peer, ch).Some? && ReceiptOf(peer, ch).value in receipts
  }

  /** Whether applying this row preserves a losing text as a new version. */
  function RowKeeps(x: Session, peer: Option<Peer>, p: Progress, t: Table, ch: Change, d: Draw): nat
    requires p.Running?
  {
    if Replayed(p.receipts, peer, ch) then 0
    else
      match ApplyOne(x, p.store, t, ch, d)
      case Raised => 0
      case Done(_, o) => if o.conflict.Some? && o.conflict.value.preserved.Some? then 1 else 0
  }

  /** How many rows of the batch preserve a losing text and are not replayed. */
  function RowsKeep(x: Session, peer: Option<Peer>, p: Progress, work: seq<Change>, draw: nat -> Draw): nat
    requires forall ch | ch in work :: ch.table.Some?
  {
    if work == [] then 0
    else
      var n := |work| - 1;
      var before := Fold(x, peer, p, work[..n], draw);
      RowsKeep(x, peer, p, work[..n], draw)
      + if before.Aborted? then 0 else RowKeeps(x, peer, before, work[n].table.value, work[n], draw(n))
  }

  lemma StepLogs(x: Session, peer: Option<Peer>, p: Progress, t: Table, ch: Change, d: Draw)
    requires p.Running? && x.applying && StepRow(x, peer, p, t, ch, d).Running?
    ensures var q := StepRow(x, peer, p, t, ch, d);
            && OnlyVersionsLogged(p.store.log, q.store.log, RowKeeps(x, peer, p, t, ch, d))
            && (t != Memos ==> q.store.log == p.store.log)
            && (Replayed(p.receipts, peer, ch) ==> q.store == p.store)
  {
    hide EffectiveClock, PartOf, Merge, ApplyOne;
    if !Replayed(p.receipts, peer, ch) && ApplyOne(x, p.store, t, ch, d).Done? {
      ApplyTouchesTwoRows(x, p.store, t, ch, d);
    }
  }

  /** Without receipts every preserved text is reported with the batch. */
  lemma StepReports(x: Session, p: Progress, t: Table, ch: Change, d: Draw)
    requires p.Running?
    ensures var q := StepRow(x, None, p, t, ch, d);
            && q.Running?
            && KeptCount(q.out.conflicts) == KeptCount(p.out.conflicts) + RowKeeps(x, None, p, t, ch, d)
  {
    hide ApplyOne, EffectiveClock;
    var a := ApplyOne(x, p.store, t, ch, d);
    assert p.out.conflicts + [] == p.out.conflicts;
    if a.Done? && a.out.conflict.Some? {
      assert (p.out.conflicts + [a.out.conflict.value])[..|p.out.conflicts|] == p.out.conflicts;
    }
  }

  lemma {:induction false} FoldReports(x: Session, p: Progress, work: seq<Change>, draw: nat -> Draw)
    requires p.Running?
    requires forall ch | ch in work :: ch.table.Some?
    ensures var q := Fold(x, None, p, work, draw);
            && q.Running?
            && KeptCount(q.out.conflicts) == KeptCount(p.out.conflicts) + RowsKeep(x, None, p, work, draw)
  {
    hide StepRow, KeptCount, RowKeeps;
    if work != [] {
      var n := |work| - 1;
      FoldReports(x, p, work[..n], draw);
      StepReports(x, Fold(x, None, p, work[..n], draw), work[n].table.value, work[n], draw(n));
    }
  }

  lemma {:induction false} FoldLogs(x: Session, peer: Option<Peer>, p: Progress, work: seq<Change>, draw: nat -> Draw)
    requires p.Running? && x.applying
    requires forall ch | ch in work :: ch.table.Some?
    requires Fold(x, peer, p, work, draw).Running?
    ensures var q := Fold(x, peer, p, work, draw);
            && OnlyVersionsLogged(p.store.log, q.store.log, RowsKeep(x, peer, p, work, draw))
            && ((forall ch | ch in work :: ch.table != Some(Memos)) ==> q.store.log == p.store.log)
  {
    hide StepRow, RowKeeps, Replayed;
    if work != [] {
      var n := |work| - 1;
      FoldLogs(x, peer, p, work[..n], draw);
      assert forall ch | ch in work[..n] :: ch in work;
      StepLogs(x, peer, Fold(x, peer, p, work[..n], draw), work[n].table.value, work[n], draw(n));
    }
  }

  lemma {:induction false} FoldReplays(
    x: Session, peer: Option<Peer>, p: Progress, work: seq<Change>, draw: nat -> Draw)
    requires p.Running?
    requires forall ch | ch in work :: ch.table.Some? && Replayed(p.receipts, peer, ch)
    requires Fold(x, peer, p, work, draw).Running?
    ensures Fold(x, peer, p, work, draw).store == p.store && Fold(x, peer, p, work, draw).receipts == p.receipts
  {
    hide ApplyOne, EffectiveClock, PartOf, Merge;
    if work != [] {
      FoldReplays(x, peer, p, work[..|work| - 1], draw);
    }
  }

  lemma {:induction false} RefusalsHaveNoConflicts(unlisted: seq<Change>)
    ensures RefuseAll(unlisted).conflicts == []
  {
    if unlisted != [] { RefusalsHaveNoConflicts(unlisted[..|unlisted| - 1]); }
  }

  /** Applying a batch, pulled or pushed, logs one insert for each version that a row which is not replayed
      preserves, and nothing else; a batch without memo changes logs nothing, and a batch of replays leaves the
      whole store alone. Without receipts the count is that of the reported conflicts. What arrives is never sent
      back. */
  lemma BatchDoesNotEcho(
    x: Session, peer: Option<Peer>, st: Store, receipts: Receipts, changes: seq<Change>, draw: nat -> Draw)
    requires x.applying
    ensures var start := Running(st, receipts, RefuseAll(Having(changes, None)));
            var q := ApplyBatch(x, peer, st, receipts, changes, draw);
            var kept := RowsKeep(x, peer, start, Ordered(changes), draw);
            && (peer.None? ==> q.Running? && kept == KeptCount(q.out.conflicts))
            && (q.Running? ==>
                  && OnlyVersionsLogged(st.log, q.store.log, kept)
                  && ((forall ch | ch in changes :: ch.table != Some(Memos)) ==> q.store.log == st.log)
                  && ((forall ch | ch in changes && ch.table.Some? :: Replayed(receipts, peer, ch)) ==>
                        q.store == st && q.receipts == receipts))
  {
    hide Fold, Having, Ordered, RefuseAll, OnlyVersionsLogged, RowsKeep, KeptCount, Replayed;
    var start := Running(st, receipts, RefuseAll(Having(changes, None)));
    if peer.None? {
      RefusalsHaveNoConflicts(Having(changes, None));
      FoldReports(x, start, Ordered(changes), draw);
      assert KeptCount([]) == 0 by { NothingKept(); }
    }
    if Fold(x, peer, start, Ordered(changes), draw).Running? {
      FoldLogs(x, peer, start, Ordered(changes), draw);
      if forall ch | ch in changes && ch.table.Some? :: Replayed(receipts, peer, ch) {
        FoldReplays(x, peer, start, Ordered(changes), draw);
      }
    }
  }

  lemma NothingKept()
    ensures KeptCount([]) == 0
  {
  }

  // ------------------------------------------------------------------
  // Constraints
  // ------------------------------------------------------------------

  lemma StoringKeepsRowsValid(rows: map<Key, Row>, k: Key, row: Row)
    requires RowsValid(rows)
    requires ConstraintsHold(rows, k, row) && row.Keys == Columns(k.table) && ClockOf(row).Some?
    ensures RowsValid(rows[k := row])
  {
    hide Columns, MembershipUnique;
  }

  lemma OverKeepsRowsValid(x: Session, st: Store, k: Key, ch: Change, incoming: Row, clock: int, d: Draw)
    requires RowsValid(st.rows) && k in st.rows && ClockOf(incoming) == Some(clock) && incoming.Keys <= Columns(k.table)
    requires ApplyOver(x, st, k, ch, incoming, clock, d).Done?
    ensures RowsValid(ApplyOver(x, st, k, ch, incoming, clock, d).store.rows)
  {
    assert (st.rows[k] + incoming).Keys == Columns(k.table);
    hide FindDuplicates, ConstraintsHold, TrueDivergence, RowsEquivalent, IncomingWins, PreserveText, Columns,
      RowsValid;
    var wins := IncomingWins(clock, ClockOf(st.rows[k]), x.side);
    var side := if wins then OtherSide(x.side) else x.side;
    var loser := if wins then st.rows[k] else incoming;
    var p := PreserveText(x, st, k, loser, side, d);
    var row := st.rows[k] + incoming;
    if ConstraintsHold(st.rows, k, row) { StoringKeepsRowsValid(st.rows, k, row); }
    if p.Kept? {
      PreserveKeepsRowsValid(x, st, k, loser, side, d);
      if ConstraintsHold(p.store.rows, k, row) { StoringKeepsRowsValid(p.store.rows, k, row); }
    }
  }

  lemma ApplyKeepsRowsValid(x: Session, st: Store, t: Table, ch: Change, d: Draw)
    requires RowsValid(st.rows)
    requires ApplyOne(x, st, t, ch, d).Done?
    ensures RowsValid(ApplyOne(x, st, t, ch, d).store.rows)
  {
    hide FindDuplicates, ConstraintsHold, ApplyOver, HardDelete, MissingParentOf, RowsValid, Columns;
    var k := Key(t, ch.rowId);
    if ch.rowId == "" {
    } else if ch.op == Delete && ch.row.None? {
      HardDeleteKeepsRowsValid(x, st, k, d);
    } else if ch.row.Some? {
      var incoming := FilterRow(t, ch.row.value);
      if ClockOf(incoming).Some? && MissingParentOf(st.rows, t, incoming).None? {
        if k !in st.rows {
          var row := Defaults(t, d.now) + incoming;
          if ConstraintsHold(st.rows, k, row) { StoringKeepsRowsValid(st.rows, k, row); }
        } else {
          OverKeepsRowsValid(x, st, k, ch, incoming, ClockOf(incoming).value, d);
        }
      }
    }
  }

  lemma PreserveKeepsRowsValid(x: Session, st: Store, k: Key, loser: Row, side: Side, d: Draw)
    requires RowsValid(st.rows) && PreserveText(x, st, k, loser, side, d).Kept?
    ensures RowsValid(PreserveText(x, st, k, loser, side, d).store.rows)
    ensures k in st.rows && k.table != MemoVersions ==> k in PreserveText(x, st, k, loser, side, d).store.rows
  {
    hide ConstraintsHold;
    PreserveAddsOneVersion(x, st, k, loser, side, d);
    var p := PreserveText(x, st, k, loser, side, d);
    if p.version.Some? {
      StoringKeepsRowsValid(st.rows, VersionKey(d), p.store.rows[VersionKey(d)]);
    }
  }

  lemma ReplacingKeepsRowsValid(rows: map<Key, Row>, k: Key, row: Row)
    requires RowsValid(rows) && k in rows && row.Keys == rows[k].Keys && ClockOf(row).Some?
    requires ParentOf(k.table).Some? ==>
      Get(row, ParentOf(k.table).value.column) == Get(rows[k], ParentOf(k.table).value.column)
    ensures RowsValid(rows[k := row])
  {
    hide Columns;
  }

  /** Nothing points into the versions, so dropping one orphans nothing. */
  lemma DroppingVersionKeepsRowsValid(rows: map<Key, Row>, k: Key)
    requires RowsValid(rows) && k.table == MemoVersions
    ensures RowsValid(rows - {k})
  {
    hide Columns;
  }

  lemma HardDeleteKeepsRowsValid(x: Session, st: Store, k: Key, d: Draw)
    requires RowsValid(st.rows)
    requires HardDelete(x, st, k, d).Done?
    ensures RowsValid(HardDelete(x, st, k, d).store.rows)
  {
    if k in st.rows {
      assert st.rows[k].Keys == Columns(k.table);
      if DeletedAt in Columns(k.table) {
        var row := st.rows[k][DeletedAt := Num(d.now)][UpdatedAtUtc := Num(d.now)];
        assert UpdatedAtUtc in Columns(k.table);
        assert row.Keys == st.rows[k].Keys;
        hide RowsValid;
        ReplacingKeepsRowsValid(st.rows, k, row);
      } else {
        hide RowsValid;
        DroppingVersionKeepsRowsValid(st.rows, k);
      }
    }
  }

  /** No batch leaves a row without its parent, its clock or one of its columns. */
  lemma {:induction false} FoldKeepsRowsValid(
    x: Session, peer: Option<Peer>, p: Progress, work: seq<Change>, draw: nat -> Draw)
    requires p.Running? && RowsValid(p.store.rows)
    requires forall ch | ch in work :: ch.table.Some?
    ensures var q := Fold(x, peer, p, work, draw); q.Running? ==> RowsValid(q.store.rows)
  {
    hide ApplyOne, RowsValid, EffectiveClock, Merge;
    if work != [] {
      var n := |work| - 1;
      FoldKeepsRowsValid(x, peer, p, work[..n], draw);
      var before := Fold(x, peer, p, work[..n], draw);
      if before.Running? && ApplyOne(x, before.store, work[n].table.value, work[n], draw(n)).Done? {
        ApplyKeepsRowsValid(x, before.store, work[n].table.value, work[n], draw(n));
      }
    }
  }

  lemma StoringKeepsDistinct(rows: map<Key, Row>, k: Key, row: Row)
    requires MembershipsDistinct(rows) && MembershipUnique(rows, k, row)
    ensures MembershipsDistinct(rows[k := row])
  {
    forall o | o in rows && o != k ensures MembershipUnique(rows[k := row], o, rows[o]) {
      assert MembershipUnique(rows, o, rows[o]);
    }
  }

  lemma PreserveKeepsDistinct(x: Session, st: Store, k: Key, loser: Row, side: Side, d: Draw)
    requires MembershipsDistinct(st.rows) && PreserveText(x, st, k, loser, side, d).Kept?
    ensures MembershipsDistinct(PreserveText(x, st, k, loser, side, d).store.rows)
  {
    PreserveAddsOneVersion(x, st, k, loser, side, d);
    var p := PreserveText(x, st, k, loser, side, d);
    hide PreserveText, MembershipsDistinct;
    if p.version.Some? { StoringKeepsDistinct(st.rows, VersionKey(d), p.store.rows[VersionKey(d)]); }
  }

  lemma StoredKeepsDistinct(x: Session, st: Store, k: Key, row: Row, incoming: Row, conflict: Option<Conflict>)
    requires MembershipsDistinct(st.rows) && Stored(x, st, k, row, incoming, conflict).Done?
    ensures MembershipsDistinct(Stored(x, st, k, row, incoming, conflict).store.rows)
  {
    hide FindDuplicates, MembershipsDistinct;
    StoringKeepsDistinct(st.rows, k, row);
  }

  lemma HardDeleteKeepsDistinct(x: Session, st: Store, k: Key, d: Draw)
    requires MembershipsDistinct(st.rows) && HardDelete(x, st, k, d).Done?
    ensures MembershipsDistinct(HardDelete(x, st, k, d).store.rows)
  {
    if k in st.rows {
      var row := st.rows[k][DeletedAt := Num(d.now)][UpdatedAtUtc := Num(d.now)];
      assert MembershipUnique(st.rows, k, st.rows[k]);
      assert MembershipUnique(st.rows, k, row);
      StoringKeepsDistinct(st.rows, k, row);
      forall o | o in st.rows - {k} ensures MembershipUnique(st.rows - {k}, o, st.rows[o]) {
        assert MembershipUnique(st.rows, o, st.rows[o]);
      }
    }
  }

  lemma ApplyKeepsDistinct(x: Session, st: Store, t: Table, ch: Change, d: Draw)
    requires MembershipsDistinct(st.rows) && ApplyOne(x, st, t, ch, d).Done?
    ensures MembershipsDistinct(ApplyOne(x, st, t, ch, d).store.rows)
  {
    hide MembershipsDistinct, HardDelete, Stored, PreserveText, MissingParentOf, FilterRow, Defaults, TrueDivergence,
      RowsEquivalent, IncomingWins;
    var k := Key(t, ch.rowId);
    if ch.rowId != "" && ch.op == Delete && ch.row.None? {
      HardDeleteKeepsDistinct(x, st, k, d);
    } else {
      forall s: Store, row, incoming, conflict | MembershipsDistinct(s.rows)
        && Stored(x, s, k, row, incoming, conflict).Done?
        ensures MembershipsDistinct(Stored(x, s, k, row, incoming, conflict).store.rows)
      {
        StoredKeepsDistinct(x, s, k, row, incoming, conflict);
      }
      forall loser, side | PreserveText(x, st, k, loser, side, d).Kept?
        ensures MembershipsDistinct(PreserveText(x, st, k, loser, side, d).store.rows)
      {
        PreserveKeepsDistinct(x, st, k, loser, side, d);
      }
    }
  }

  /** No batch lets a project and a user share two memberships. */
  lemma {:induction false} FoldKeepsMembershipsDistinct(
    x: Session, peer: Option<Peer>, p: Progress, work: seq<Change>, draw: nat -> Draw)
    requires p.Running? && MembershipsDistinct(p.store.rows)
    requires forall ch | ch in work :: ch.table.Some?
    ensures var q := Fold(x, peer, p, work, draw); q.Running? ==> MembershipsDistinct(q.store.rows)
  {
    hide ApplyOne, MembershipsDistinct, EffectiveClock, Merge;
    if work != [] {
      var n := |work| - 1;
      FoldKeepsMembershipsDistinct(x, peer, p, work[..n], draw);
      var before := Fold(x, peer, p, work[..n], draw);
      if before.Running? && ApplyOne(x, before.store, work[n].table.value, work[n], draw(n)).Done? {
        ApplyKeepsDistinct(x, before.store, work[n].table.value, work[n], draw(n));
      }
    }
  }

  // ------------------------------------------------------------------
  // Dependency order
  // ------------------------------------------------------------------

  /** Rows of a table other children point into never disappear. */
  lemma ParentsStay(x: Session, st: Store, t: Table, ch: Change, d: Draw, k: Key)
    requires ApplyOne(x, st, t, ch, d).Done?
    requires k in st.rows && k.table != MemoVersions
    ensures k in ApplyOne(x, st, t, ch, d).store.rows
  {
    hide FindDuplicates, ConstraintsHold, TrueDivergence, RowsEquivalent, IncomingWins;
  }

  /** A parent row appears only by the application of its own change. */
  lemma ParentsComeFromTheirChange(x: Session, st: Store, t: Table, ch: Change, d: Draw, k: Key)
    requires ApplyOne(x, st, t, ch, d).Done?
    requires k !in st.rows && k.table != MemoVersions && k in ApplyOne(x, st, t, ch, d).store.rows
    ensures k == Key(t, ch.rowId) && ApplyOne(x, st, t, ch, d).out.status == Applied
  {
    hide FindDuplicates, ConstraintsHold, TrueDivergence, RowsEquivalent, IncomingWins;
  }

  /** The i-th row of the work is freshly applied and stores a row that was missing until then. */
  ghost predicate InsertsAt(
    x: Session, peer: Option<Peer>, p: Progress, work: seq<Change>, draw: nat -> Draw, i: nat, k: Key)
    requires i < |work| && forall ch | ch in work :: ch.table.Some?
  {
    var before, after := Fold(x, peer, p, work[..i], draw), Fold(x, peer, p, work[..i + 1], draw);
    && before.Running? && after.Running?
    && k !in before.store.rows && k in after.store.rows
    && work[i].table == Some(k.table) && work[i].rowId == k.id
  }

  /** One row of work: a parent row stays, and appears only by its own change. */
  lemma StepParents(x: Session, peer: Option<Peer>, p: Progress, ch: Change, d: Draw, k: Key)
    requires p.Running? && ch.table.Some? && k.table != MemoVersions
    requires StepRow(x, peer, p, ch.table.value, ch, d).Running?
    ensures var q := StepRow(x, peer, p, ch.table.value, ch, d);
            && (k in p.store.rows ==> k in q.store.rows)
            && (k !in p.store.rows && k in q.store.rows ==> ch.table == Some(k.table) && ch.rowId == k.id)
  {
    hide ApplyOne, EffectiveClock, Merge;
    var t := ch.table.value;
    if ApplyOne(x, p.store, t, ch, d).Done? {
      if k in p.store.rows {
        ParentsStay(x, p.store, t, ch, d, k);
      } else if k in ApplyOne(x, p.store, t, ch, d).store.rows {
        ParentsComeFromTheirChange(x, p.store, t, ch, d, k);
      }
    }
  }

  lemma InsertsInPrefix(
    x: Session, peer: Option<Peer>, p: Progress, work: seq<Change>, draw: nat -> Draw, n: nat, k: Key)
    requires n <= |work| && forall ch | ch in work :: ch.table.Some?
    ensures forall j | 0 <= j < n :: InsertsAt(x, peer, p, work, draw, j, k) <==>
              InsertsAt(x, peer, p, work[..n], draw, j, k)
  {
    hide Fold;
    forall j | 0 <= j < n
      ensures InsertsAt(x, peer, p, work, draw, j, k) <==> InsertsAt(x, peer, p, work[..n], draw, j, k)
    {
      assert work[..n][..j] == work[..j] && work[..n][..j + 1] == work[..j + 1];
    }
  }

  lemma {:induction false} StoredOrInsertedEarlier(
    x: Session, peer: Option<Peer>, p: Progress, work: seq<Change>, draw: nat -> Draw, k: Key)
    requires p.Running? && k.table != MemoVersions
    requires forall ch | ch in work :: ch.table.Some?
    requires Fold(x, peer, p, work, draw).Running?
    ensures k in Fold(x, peer, p, work, draw).store.rows <==>
            k in p.store.rows || exists j | 0 <= j < |work| :: InsertsAt(x, peer, p, work, draw, j, k)
  {
    hide StepRow;
    if work != [] {
      var n := |work| - 1;
      var before := Fold(x, peer, p, work[..n], draw);
      StoredOrInsertedEarlier(x, peer, p, work[..n], draw, k);
      InsertsInPrefix(x, peer, p, work, draw, n, k);
      assert work[..n + 1] == work;
      StepParents(x, peer, before, work[n], draw(n), k);
      assert k !in before.store.rows && k in Fold(x, peer, p, work, draw).store.rows
             <==> InsertsAt(x, peer, p, work, draw, n, k);
    }
  }

  /** A child with a clock and a parent id is deferred exactly when its parent was neither stored when
      the batch began nor inserted by an earlier row of the batch. */
  lemma DeferredExactlyWithoutParent(
    x: Session, peer: Option<Peer>, p: Progress, work: seq<Change>, draw: nat -> Draw, i: nat, parent: Key)
    requires p.Running? && forall ch | ch in work :: ch.table.Some?
    requires i < |work| && Fold(x, peer, p, work[..i], draw).Running?
    requires ApplyOne(x, Fold(x, peer, p, work[..i], draw).store, work[i].table.value, work[i], draw(i)).Done?
    requires work[i].rowId != "" && work[i].row.Some?
    requires ClockOf(FilterRow(work[i].table.value, work[i].row.value)).Some?
    requires ParentOf(work[i].table.value).Some? && parent.id != ""
    requires parent.table == ParentOf(work[i].table.value).value.table
    requires Get(FilterRow(work[i].table.value, work[i].row.value), ParentOf(work[i].table.value).value.column)
             == Text(parent.id)
    ensures ApplyOne(x, Fold(x, peer, p, work[..i], draw).store, work[i].table.value, work[i], draw(i)).out.status
            == Deferred
            <==> parent !in p.store.rows
                 && forall j | 0 <= j < i :: !InsertsAt(x, peer, p, work[..i], draw, j, parent)
  {
    hide FindDuplicates, ConstraintsHold, TrueDivergence, RowsEquivalent, IncomingWins, PreserveText, Fold;
    StoredOrInsertedEarlier(x, peer, p, work[..i], draw, parent);
  }

  lemma SwapKeepsGroup(u: seq<Change>, c: Change, e: Change, v: seq<Change>, t: Option<Table>)
    requires c.table != e.table
    ensures Having(u + [c, e] + v, t) == Having(u + [e, c] + v, t)
  {
    HavingConcat(u + [c, e], v, t);
    HavingConcat(u + [e, c], v, t);
    HavingConcat(u, [c, e], t);
    HavingConcat(u, [e, c], t);
    HavingConcat([c], [e], t);
    HavingConcat([e], [c], t);
    assert [c] + [e] == [c, e] && [e] + [c] == [e, c];
  }

  /** Swapping neighbours of different tables does not change a batch. */
  lemma SwapAcrossTables(
    x: Session, peer: Option<Peer>, st: Store, receipts: Receipts, draw: nat -> Draw,
    u: seq<Change>, c: Change, e: Change, v: seq<Change>)
    requires c.table != e.table
    ensures ApplyBatch(x, peer, st, receipts, u + [c, e] + v, draw)
         == ApplyBatch(x, peer, st, receipts, u + [e, c] + v, draw)
  {
    hide Having, ApplyBatch;
    var a, b := u + [c, e] + v, u + [e, c] + v;
    forall t ensures Having(a, t) == Having(b, t) {
      SwapKeepsGroup(u, c, e, v, t);
    }
    OrderAcrossTablesIsFree(x, peer, st, receipts, draw, a, b);
  }

  /** Only the order within each table matters: batches that agree table by table have one effect. */
  lemma OrderAcrossTablesIsFree(
    x: Session, peer: Option<Peer>, st: Store, receipts: Receipts, draw: nat -> Draw, a: seq<Change>, b: seq<Change>)
    requires forall t :: Having(a, t) == Having(b, t)
    ensures ApplyBatch(x, peer, st, receipts, a, draw) == ApplyBatch(x, peer, st, receipts, b, draw)
  {
    hide Having, Fold, RefuseAll;
  }

  lemma HavingOne(ch: Change)
    ensures forall t :: Having([ch], t) == if ch.table == t then [ch] else []
  {
    assert [ch][..0] == [];
  }

  lemma {:induction false} HavingConcat(a: seq<Change>, b: seq<Change>, t: Option<Table>)
    ensures Having(a + b, t) == Having(a, t) + Having(b, t)
  {
    if b == [] {
      assert a + b == a;
    } else {
      HavingConcat(a, b[..|b| - 1], t);
      assert (a + b)[..|a + b| - 1] == a + b[..|b| - 1];
    }
  }
}
