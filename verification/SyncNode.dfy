/** A node's database as the program uses it: rows and log updated in place, one savepoint per applied row. */
module SyncNode {
  import opened SyncSchema
  import opened SyncStore
  import opened SyncApply
  import opened SyncBatch
  import opened SyncQueue
  import opened SyncFeedProofs
  import opened SyncVisibility

  /** The counters and lists a batch accumulates. */
  class ApplyOutcome {
    var applied: nat
    var skipped: nat
    var deferred: seq<Refusal>
    var rejected: seq<Refusal>
    var conflicts: seq<Conflict>
    var duplicates: set<Issue>
    var appliedRefs: seq<Key>
    var results: seq<Result>

    function Value(): Outcome
      reads this
    {
      Outcome(applied, skipped, deferred, rejected, conflicts, duplicates, appliedRefs, results)
    }

    constructor ()
      ensures Value() == EMPTY_OUTCOME
    {
      applied, skipped := 0, 0;
      deferred, rejected, conflicts, duplicates, appliedRefs, results := [], [], [], {}, [], [];
    }

    method MergeFrom(part: Outcome)
      modifies this
      ensures Value() == Merge(old(Value()), part)
      ensures applied == old(applied) + part.applied && skipped == old(skipped) + part.skipped
      ensures deferred == old(deferred) + part.deferred && rejected == old(rejected) + part.rejected
      ensures conflicts == old(conflicts) + part.conflicts && duplicates == old(duplicates) + part.duplicates
      ensures appliedRefs == old(appliedRefs) + part.appliedRefs && results == old(results) + part.results
    {
      applied := applied + part.applied;
      skipped := skipped + part.skipped;
      deferred := deferred + part.deferred;
      rejected := rejected + part.rejected;
      conflicts := conflicts + part.conflicts;
      duplicates := duplicates + part.duplicates;
      appliedRefs := appliedRefs + part.appliedRefs;
      results := results + part.results;
    }
  }

  /** What one row adds to a batch, before its result is known. */
  function RowPart(t: Table, ch: Change, o: RowOutcome): Outcome {
    PartOf(t, ch, o, map[]).(results := [])
  }

  class Node {
    var rows: map<Key, Row>
    var log: seq<LogEntry>
    var issues: set<Issue>
    var receipts: Receipts
    var applying: bool

    function Data(): Store
      reads this
    {
      Store(rows, log, issues)
    }

    constructor ()
      ensures Data() == EMPTY_STORE && receipts == map[] && !applying
    {
      rows, log, issues, receipts, applying := map[], [], {}, map[], false;
    }

    // ----------------------------------------------------------------
    // Single writes, with the row trigger
    // ----------------------------------------------------------------

    method Write(k: Key, row: Row)
      modifies this
      ensures Data() == PutRow(old(Data()), applying, k, row)
      ensures receipts == old(receipts) && applying == old(applying)
    {
      var op := if k in rows then Update else Insert;
      rows := rows[k := row];
      if !applying {
        log := log + [LogEntry(k, op)];
      }
    }

    method Erase(k: Key)
      modifies this
      ensures Data() == DropRow(old(Data()), applying, k)
      ensures receipts == old(receipts) && applying == old(applying)
    {
      rows := rows - {k};
      if !applying {
        log := log + [LogEntry(k, Delete)];
      }
    }

    // ----------------------------------------------------------------
    // One change
    // ----------------------------------------------------------------

    /** Keeps the losing text as a version; the write is logged although the connection is applying. */
    method PreserveConflictContent(
      x: Session, k: Key, loser: Row, side: Side, d: Draw) returns (raised: bool, version: Option<int>)
      requires x.applying == applying
      modifies this
      ensures var p := PreserveText(x, old(Data()), k, loser, side, d);
              && raised == p.KeepFailed?
              && (p.Kept? ==> Data() == p.store && version == p.version)
      ensures receipts == old(receipts) && applying == old(applying)
    {
      hide HasVersionText, VersionNumbers, ConstraintsHold;
      raised, version := false, None;
      if ContentColumn(k.table).None? {
        return;
      }
      var text := Get(loser, ContentColumn(k.table).value);
      if text == Null || HasVersionText(x.env, rows, k.id, text) {
        return;
      }
      var number := MaxOrZero(VersionNumbers(rows, k.id)) + 1;
      var vk := Key(MemoVersions, d.id);
      var row := VersionRow(k.id, text, number, ConflictNote(side), d.now);
      var previous := applying;
      applying := false;
      if vk in rows || !ConstraintsHold(rows, vk, row) {
        raised := true;
      } else {
        Write(vk, row);
        version := Some(number);
      }
      applying := previous;
    }

    /** Compares the incoming name with every candidate's; a match is reported and recorded, never refused. */
    method DetectDuplicates(x: Session, k: Key, incoming: Row, out: ApplyOutcome)
      modifies this, out
      ensures Data() == old(Data()).(issues := issues)
      ensures out.Value() == old(out.Value()).(duplicates := out.duplicates)
      ensures forall issue :: issue in issues <==>
                issue in old(issues)
                || exists other ::
                     other in rows && IsDuplicateOf(x.env, rows, k, incoming, other)
                       && issue == DuplicateIssue(k, other)
      ensures forall issue :: issue in out.duplicates <==>
                issue in old(out.duplicates)
                || exists other ::
                     other in rows && IsDuplicateOf(x.env, rows, k, incoming, other)
                       && issue == DuplicateIssue(k, other)
      ensures receipts == old(receipts) && applying == old(applying)
    {
      if DuplicateAxisOf(k.table).None? || Get(incoming, DeletedAt) != Null {
        return;
      }
      var axis := DuplicateAxisOf(k.table).value;
      var name := NormalName(x.env, Get(incoming, axis.nameColumn));
      if name == "" {
        return;
      }
      var todo := set other | other in rows && IsCandidate(x.env, rows, k, incoming, axis, other);
      ghost var candidates := todo;
      while todo != {}
        invariant todo <= candidates && Data() == old(Data()).(issues := issues)
        invariant out.Value() == old(out.Value()).(duplicates := out.duplicates)
        invariant forall issue :: issue in issues <==>
                    issue in old(issues)
                    || exists other :: other in candidates - todo && IsDuplicateOf(x.env, rows, k, incoming, other)
                                       && issue == DuplicateIssue(k, other)
        invariant forall issue :: issue in out.duplicates <==>
                    issue in old(out.duplicates)
                    || exists other :: other in candidates - todo && IsDuplicateOf(x.env, rows, k, incoming, other)
                                       && issue == DuplicateIssue(k, other)
        invariant receipts == old(receipts) && applying == old(applying)
        decreases todo
      {
        var other :| other in todo;
        todo := todo - {other};
        if NormalName(x.env, Get(rows[other], axis.nameColumn)) == name {
          out.duplicates := out.duplicates + {DuplicateIssue(k, other)};
          issues := issues + {DuplicateIssue(k, other)};
        }
      }
    }

    method ApplyHardDelete(k: Key, out: ApplyOutcome, d: Draw)
      requires out.Value() == EMPTY_OUTCOME
      modifies this, out
      ensures forall x: Session | x.applying == old(applying) ::
        var a := HardDelete(x, old(Data()), k, d);
        a.Done? && Data() == a.store
        && forall ch: Change | ch.rowId == k.id :: out.Value() == RowPart(k.table, ch, a.out)
      ensures receipts == old(receipts) && applying == old(applying)
    {
      if k !in rows {
        out.skipped := out.skipped + 1;
        return;
      }
      if DeletedAt in Columns(k.table) {
        if Get(rows[k], DeletedAt) != Null {
          out.skipped := out.skipped + 1;
          return;
        }
        Write(k, rows[k][DeletedAt := Num(d.now)][UpdatedAtUtc := Num(d.now)]);
      } else {
        Erase(k);
      }
      out.applied := out.applied + 1;
      out.appliedRefs := out.appliedRefs + [k];
    }

    /** Stores a row the database accepts and looks for duplicates; a refused write raises. */
    method StoreRow(x: Session, k: Key, row: Row, incoming: Row, out: ApplyOutcome, ghost conflict: Option<Conflict>)
      returns (raised: bool)
      requires x.applying == applying
      requires out.applied == 0 && out.appliedRefs == [] && out.duplicates == {}
      modifies this, out
      ensures var a := Stored(x, old(Data()), k, row, incoming, conflict);
              && raised == a.Raised?
              && (a.Done? ==>
                    && Data() == a.store
                    && out.Value()
                       == old(out.Value()).(applied := 1, appliedRefs := [k], duplicates := a.out.duplicates))
      ensures receipts == old(receipts) && applying == old(applying)
    {
      raised := !ConstraintsHold(rows, k, row);
      if !raised {
        Write(k, row);
        out.applied := out.applied + 1;
        out.appliedRefs := out.appliedRefs + [k];
        ghost var before := issues;
        DetectDuplicates(x, k, incoming, out);
        assert issues == before + FindDuplicates(x.env, rows, k, incoming);
        assert out.duplicates == FindDuplicates(x.env, rows, k, incoming);
      }
    }

    /** Keeps the losing text, notes the conflict on the outcome and records it as an issue. */
    method RecordConflict(x: Session, k: Key, loser: Row, wins: bool, out: ApplyOutcome, d: Draw)
      returns (raised: bool, ghost conflict: Conflict)
      requires x.applying == applying && k in rows && out.Value() == EMPTY_OUTCOME
      modifies this, out
      ensures var side := if wins then OtherSide(x.side) else x.side;
              var p := PreserveText(x, old(Data()), k, loser, side, d);
              && raised == p.KeepFailed?
              && (p.Kept? ==>
                    && conflict == Conflict(k, wins, side, p.version)
                    && Data() == p.store.(issues := p.store.issues + {Issue(ConflictIssue, k, None)})
                    && out.Value() == EMPTY_OUTCOME.(conflicts := [conflict]))
      ensures receipts == old(receipts) && applying == old(applying)
    {
      hide PreserveText;
      var loserSide := if wins then OtherSide(x.side) else x.side;
      var version: Option<int>;
      raised, version := PreserveConflictContent(x, k, loser, loserSide, d);
      conflict := Conflict(k, wins, loserSide, version);
      if !raised {
        out.conflicts := out.conflicts + [Conflict(k, wins, loserSide, version)];
        issues := issues + {Issue(ConflictIssue, k, None)};
      }
    }

    method ApplyExisting(x: Session, k: Key, ch: Change, incoming: Row, clock: int, out: ApplyOutcome, d: Draw)
      returns (raised: bool)
      requires x.applying == applying && k in rows && k.id == ch.rowId && out.Value() == EMPTY_OUTCOME
      modifies this, out
      ensures var a := ApplyOver(x, old(Data()), k, ch, incoming, clock, d);
              && raised == a.Raised?
              && (a.Done? ==> Data() == a.store && out.Value() == RowPart(k.table, ch, a.out))
      ensures receipts == old(receipts) && applying == old(applying)
    {
      hide RowsEquivalent, PreserveText, TrueDivergence, IncomingWins, ClockOf, FindDuplicates, ConstraintsHold;
      raised := false;
      var existing := rows[k];
      var wins := IncomingWins(clock, ClockOf(existing), x.side);
      ghost var conflict: Option<Conflict> := None;
      if ClockOf(existing) == Some(clock) && RowsEquivalent(existing, incoming) {
        out.skipped := out.skipped + 1;
        return;
      }
      if TrueDivergence(x, log, k, ch, clock, ClockOf(existing)) {
        ghost var noted;
        raised, noted := RecordConflict(x, k, if wins then existing else incoming, wins, out, d);
        if raised {
          return;
        }
        conflict := Some(noted);
      }
      if !wins {
        out.skipped := out.skipped + 1;
        return;
      }
      raised := StoreRow(x, k, existing + incoming, incoming, out, conflict);
    }

    /** One change, written in place; a raise leaves whatever was written for the caller to roll back. */
    method ApplyRow(x: Session, t: Table, ch: Change, out: ApplyOutcome, d: Draw) returns (raised: bool)
      requires x.applying == applying && out.Value() == EMPTY_OUTCOME
      modifies this, out
      ensures var a := ApplyOne(x, old(Data()), t, ch, d);
              && raised == a.Raised?
              && (a.Done? ==> Data() == a.store && out.Value() == RowPart(t, ch, a.out))
      ensures receipts == old(receipts) && applying == old(applying)
    {
      hide FindDuplicates, ConstraintsHold, ApplyOver, FilterRow, Defaults;
      raised := false;
      var k := Key(t, ch.rowId);
      if ch.rowId == "" {
        out.rejected := out.rejected + [Refusal(Some(t), ch.rowId, MissingRowId)];
        return;
      }
      if ch.op == Delete && ch.row.None? {
        ApplyHardDelete(k, out, d);
        return;
      }
      var incoming := if ch.row.Some? then FilterRow(t, ch.row.value) else map[];
      if ClockOf(incoming).None? {
        out.rejected := out.rejected + [Refusal(Some(t), ch.rowId, MissingClock)];
        return;
      }
      var missing := MissingParentOf(rows, t, incoming);
      if missing.Some? {
        out.deferred := out.deferred + [Refusal(Some(t), ch.rowId, MissingParent(missing.value))];
        return;
      }
      if k !in rows {
        raised := StoreRow(x, k, Defaults(t, d.now) + incoming, incoming, out, None);
        return;
      }
      raised := ApplyExisting(x, k, ch, incoming, ClockOf(incoming).value, out, d);
    }

    // ----------------------------------------------------------------
    // A batch
    // ----------------------------------------------------------------

    /** Reads the row's status off its counters, and the row's clock as it is now. */
    method RowResult(t: Table, ch: Change, row: ApplyOutcome, ghost o: RowOutcome) returns (result: Result)
      requires row.Value() == RowPart(t, ch, o)
      requires o.status == Applied || o.status == Skipped ==> o.reason == NoReason
      ensures [result] == PartOf(t, ch, o, rows).results
    {
      var status, reason := Skipped, NoReason;
      if row.rejected != [] {
        status, reason := Rejected, row.rejected[0].reason;
      } else if row.deferred != [] {
        status, reason := Deferred, row.deferred[0].reason;
      } else if row.applied > 0 {
        status := Applied;
      }
      result := Result(ch.seqNo, Some(t), ch.rowId, status, reason, row.conflicts != [],
        EffectiveClock(rows, t, ch.rowId));
    }

    /** A row seen for the first time, under its savepoint: a raise is rolled back to it. */
    method ApplyFresh(x: Session, t: Table, ch: Change, d: Draw) returns (part: Outcome, terminal: bool)
      requires x.applying == applying
      modifies this
      ensures receipts == old(receipts) && applying == old(applying)
      ensures var a := ApplyOne(x, old(Data()), t, ch, d);
              && (a.Raised? ==> Data() == old(Data()) && part == RefusedPart(Some(t), ch, SqlError) && terminal)
              && (a.Done? ==>
                    Data() == a.store && part == PartOf(t, ch, a.out, a.store.rows)
                      && terminal == (a.out.status != Deferred))
    {
      hide ApplyOne, EffectiveClock;
      var savedRows, savedLog, savedIssues := rows, log, issues;
      var row := new ApplyOutcome();
      var raised := ApplyRow(x, t, ch, row, d);
      if raised {
        rows, log, issues := savedRows, savedLog, savedIssues;
        part, terminal := RefusedPart(Some(t), ch, SqlError), true;
        return;
      }
      ghost var o := ApplyOne(x, old(Data()), t, ch, d).out;
      ReasonOnlyOnRefusal(x, old(Data()), t, ch, d);
      var result := RowResult(t, ch, row, o);
      row.results := [result];
      part, terminal := row.Value(), result.status != Deferred;
    }

    /** A replayed seq is answered from its receipt; anything new and terminal leaves one. */
    method ApplyUnderSavepoint(x: Session, peer: Option<Peer>, t: Table, ch: Change, out: ApplyOutcome, d: Draw)
      returns (aborted: bool)
      requires x.applying == applying
      modifies this, out
      ensures applying == old(applying)
      ensures var q := StepRow(x, peer, Running(old(Data()), old(receipts), old(out.Value())), t, ch, d);
              && aborted == q.Aborted?
              && (q.Running? ==> Running(Data(), receipts, out.Value()) == q)
    {
      hide ApplyOne, EffectiveClock, Merge, PartOf, RefusedPart;
      aborted := false;
      var key := ReceiptOf(peer, ch);
      if key.Some? && key.value in receipts {
        var receipt := receipts[key.value];
        if receipt.payload != ch {
          aborted := true;
        } else {
          out.MergeFrom(receipt.part);
        }
        return;
      }
      var part, terminal := ApplyFresh(x, t, ch, d);
      out.MergeFrom(part);
      if terminal {
        receipts := WithReceipt(receipts, key, ch, part);
      }
    }

    /** Splits a batch by table, refusing what is outside the whitelist. */
    method GroupByTable(changes: seq<Change>, out: ApplyOutcome) returns (grouped: map<Table, seq<Change>>)
      requires out.Value() == EMPTY_OUTCOME
      modifies out
      ensures out.Value() == RefuseAll(Having(changes, None))
      ensures forall t :: t in grouped && grouped[t] == Having(changes, Some(t))
    {
      hide Having, RefuseAll, Merge, RefusedPart;
      grouped := map t | t in TABLE_ORDER :: [];
      forall t: Table ensures t in TABLE_ORDER { EveryTableIsOrdered(t); }
      HavingNone();
      for i := 0 to |changes|
        invariant out.Value() == RefuseAll(Having(changes[..i], None))
        invariant forall t :: t in grouped && grouped[t] == Having(changes[..i], Some(t))
      {
        var ch := changes[i];
        HavingOneMore(changes, i);
        if ch.table.None? {
          out.MergeFrom(RefusedPart(None, ch, UnknownTable));
        } else {
          grouped := grouped[ch.table.value := grouped[ch.table.value] + [ch]];
        }
      }
      assert changes[..|changes|] == changes;
    }

    /** The rows of one table, which sit at `work[at..]` of the ordered batch. */
    method ApplyGroup(
      x: Session, peer: Option<Peer>, t: Table, group: seq<Change>, out: ApplyOutcome, draw: nat -> Draw,
      at: nat, ghost start: Progress, ghost work: seq<Change>)
      returns (aborted: bool)
      requires x.applying == applying && start.Running?
      requires forall ch | ch in work :: ch.table.Some?
      requires forall ch | ch in group :: ch.table == Some(t)
      requires at + |group| <= |work| && work[at..at + |group|] == group
      requires Fold(x, peer, start, work[..at], draw) == Running(Data(), receipts, out.Value())
      modifies this, out
      ensures applying == old(applying)
      ensures var q := Fold(x, peer, start, work[..at + |group|], draw);
              if aborted then Fold(x, peer, start, work, draw).Aborted? else q == Running(Data(), receipts, out.Value())
    {
      hide Fold, StepRow;
      aborted := false;
      for i := 0 to |group|
        invariant applying == old(applying)
        invariant Fold(x, peer, start, work[..at + i], draw) == Running(Data(), receipts, out.Value())
      {
        assert work[at + i] == work[at..at + |group|][i] == group[i];
        assert group[i] in group;
        FoldOneMore(x, peer, start, work, draw, at + i);
        aborted := ApplyUnderSavepoint(x, peer, t, group[i], out, draw(at + i));
        if aborted {
          FoldStaysAborted(x, peer, start, work, draw, at + i + 1);
          return;
        }
      }
    }

    /** Groups by table in foreign-key order and applies row after row. */
    method ApplyChanges(x: Session, peer: Option<Peer>, changes: seq<Change>, draw: nat -> Draw)
      returns (aborted: bool, out: ApplyOutcome)
      requires x.applying == applying
      modifies this
      ensures fresh(out) && applying == old(applying)
      ensures var q := ApplyBatch(x, peer, old(Data()), old(receipts), changes, draw);
              && aborted == q.Aborted?
              && (q.Running? ==> Running(Data(), receipts, out.Value()) == q)
    {
      hide Fold, Having, RefuseAll;
      out := new ApplyOutcome();
      var grouped := GroupByTable(changes, out);
      ghost var start := Running(Data(), receipts, out.Value());
      ghost var work := Ordered(changes);
      hide Ordered;
      var done := 0;
      FoldOfNothing(x, peer, start, work, draw);
      GroupedIsPrefix(changes, 0);
      for n := 0 to |TABLE_ORDER|
        invariant fresh(out) && applying == old(applying)
        invariant done == |Grouped(changes, n)| <= |work|
        invariant Fold(x, peer, start, work[..done], draw) == Running(Data(), receipts, out.Value())
      {
        var group := grouped[TABLE_ORDER[n]];
        GroupIsSlice(changes, n);
        aborted := ApplyGroup(x, peer, TABLE_ORDER[n], group, out, draw, done, start, work);
        if aborted {
          return;
        }
        done := done + |group|;
      }
      GroupedIsPrefix(changes, |TABLE_ORDER|);
      assert work[..done] == work;
      aborted := false;
    }

    /** The push endpoint's transaction: a payload that contradicts its receipt rolls everything back. */
    method ReceivePush(env: Env, peer: Peer, changes: seq<Change>, draw: nat -> Draw) returns (answer: Option<Outcome>)
      requires !applying
      modifies this
      ensures !applying
      ensures var q := ApplyBatch(Session(env, ClientSide, true), Some(peer), old(Data()), old(receipts), changes,
              draw);
              && (q.Running? ==> answer == Some(q.out) && Data() == q.store && receipts == q.receipts)
              && (q.Aborted? ==> answer.None? && Data() == old(Data()) && receipts == old(receipts))
    {
      hide ApplyBatch;
      var rows0, log0, issues0, receipts0 := rows, log, issues, receipts;
      applying := true;
      var aborted, out := ApplyChanges(Session(env, ClientSide, true), Some(peer), changes, draw);
      if aborted {
        rows, log, issues, receipts := rows0, log0, issues0, receipts0;
        answer := None;
      } else {
        answer := Some(out.Value());
      }
      applying := false;
    }

    // ----------------------------------------------------------------
    // Feeds
    // ----------------------------------------------------------------

    /** The last entry of each row in the window. */
    method LatestEntries(lo: nat, hi: nat) returns (latest: map<Key, nat>)
      requires lo <= hi <= |log|
      ensures forall i | lo <= i < hi :: log[i].key in latest
      ensures forall i | lo <= i < hi :: latest[log[i].key] == i <==> LastOfItsRow(log, i, hi)
    {
      latest := map[];
      for i := lo to hi
        invariant forall k | k in latest :: lo <= latest[k] < i && log[latest[k]].key == k
        invariant forall j | lo <= j < i :: log[j].key in latest && j <= latest[log[j].key]
      {
        latest := latest[log[i].key := i];
      }
    }

    method ReadChanges(since: nat, limit: nat, account: Id) returns (changes: seq<Change>, next: nat)
      ensures next == WindowEnd(log, since, limit)
      ensures next > |log| ==> changes == []
      ensures next <= |log| ==> changes == ReadWindow(Data(), account, since, next)
      ensures next <= |log| && RowsValid(rows) ==>
                forall k, row :: Delivers(changes, k, row) <==>
                  LoggedIn(log, since, next, k) && k in rows && rows[k] == row && MaySee(rows, k, account)
    {
      hide ReadWindow, RowsValid, MaySee, Delivers, LoggedIn;
      next := WindowEnd(log, since, limit);
      if next <= since {
        changes := [];
        if next <= |log| { EmptyWindows(Data(), account, map[], next); }
      } else {
        changes := ReadEntries(since, next, account);
      }
      if next <= |log| && RowsValid(rows) {
        forall k, row
          ensures Delivers(changes, k, row) <==>
                    LoggedIn(log, since, next, k) && k in rows && rows[k] == row && MaySee(rows, k, account)
        {
          WindowDeliversToMembers(Data(), account, since, next, k, row);
        }
      }
    }

    /** The rows of a window that still exist and are visible, each once, in seq order. */
    method ReadEntries(lo: nat, hi: nat, account: Id) returns (changes: seq<Change>)
      requires lo < hi <= |log|
      ensures changes == ReadWindow(Data(), account, lo, hi)
    {
      hide ReadWindow, LastOfItsRow, HasMembership;
      var latest := LatestEntries(lo, hi);
      var visible := VisibleProjects(rows, account);
      hide VisibleProjects;
      changes := [];
      EmptyWindows(Data(), account, map[], hi);
      var i := hi;
      while i > lo
        invariant lo <= i <= hi
        invariant changes == ReadWindow(Data(), account, i, hi)
      {
        i := i - 1;
        ReadWindowStep(Data(), account, i, hi);
        var k := log[i].key;
        if latest[k] == i && k in rows {
          var project := ProjectOfRow(rows, k, rows[k]);
          if project.None? || project.value in visible {
            changes := [Change(Some(i + 1), Some(k.table), k.id, log[i].op, Some(rows[k]), None, None)] + changes;
          }
        }
      }
    }

    method CollectLocalChanges(
      rowState: map<Key, RowState>, since: nat, limit: nat) returns (changes: seq<Change>, next: nat)
      ensures next == WindowEnd(log, since, limit)
      ensures next > |log| ==> changes == []
      ensures next <= |log| ==> changes == CollectWindow(Data(), rowState, since, next)
    {
      hide CollectWindow;
      next := WindowEnd(log, since, limit);
      if next <= since {
        changes := [];
        if next <= |log| { EmptyWindows(Data(), "", rowState, next); }
      } else {
        changes := CollectEntries(rowState, since, next);
      }
    }

    /** The rows of a window, each once, in seq order, with what was last agreed about them. */
    method CollectEntries(rowState: map<Key, RowState>, lo: nat, hi: nat) returns (changes: seq<Change>)
      requires lo < hi <= |log|
      ensures changes == CollectWindow(Data(), rowState, lo, hi)
    {
      hide CollectWindow, LastOfItsRow;
      var latest := LatestEntries(lo, hi);
      changes := [];
      EmptyWindows(Data(), "", rowState, hi);
      var i := hi;
      while i > lo
        invariant lo <= i <= hi
        invariant changes == CollectWindow(Data(), rowState, i, hi)
      {
        i := i - 1;
        CollectWindowStep(Data(), rowState, i, hi);
        if latest[log[i].key] == i {
          changes := [LocalChange(Data(), rowState, i)] + changes;
        }
      }
    }
  }

  lemma HavingNone()
    ensures forall t :: Having([], t) == []
    ensures RefuseAll([]) == EMPTY_OUTCOME
  {
  }

  lemma HavingOneMore(changes: seq<Change>, i: nat)
    requires i < |changes|
    ensures forall t :: Having(changes[..i + 1], t)
                        == Having(changes[..i], t) + if changes[i].table == t then [changes[i]] else []
    ensures changes[i].table.Some? ==> Having(changes[..i + 1], None) == Having(changes[..i], None)
    ensures changes[i].table.None? ==>
              RefuseAll(Having(changes[..i + 1], None))
              == Merge(RefuseAll(Having(changes[..i], None)), RefusedPart(None, changes[i], UnknownTable))
  {
    assert changes[..i + 1][..i] == changes[..i];
    var before := Having(changes[..i], None);
    assert (before + [changes[i]])[..|before|] == before;
    hide Merge, RefusedPart;
  }

  lemma EveryTableIsOrdered(t: Table)
    ensures t in TABLE_ORDER
  {
    assert TABLE_ORDER[0] == Projects && TABLE_ORDER[1] == Memos && TABLE_ORDER[2] == MemoVersions
        && TABLE_ORDER[3] == ProjectMembers;
  }

  lemma EmptyWindows(st: Store, account: Id, rs: map<Key, RowState>, at: nat)
    requires at <= |st.log|
    ensures ReadWindow(st, account, at, at) == [] && CollectWindow(st, rs, at, at) == []
  {
  }

  lemma ReadWindowStep(st: Store, account: Id, i: nat, hi: nat)
    requires i < hi <= |st.log|
    ensures ReadWindow(st, account, i, hi)
         == (if InFeed(st, account, i, hi) then [FeedChange(st, i)] else []) + ReadWindow(st, account, i + 1, hi)
  {
  }

  lemma CollectWindowStep(st: Store, rs: map<Key, RowState>, i: nat, hi: nat)
    requires i < hi <= |st.log|
    ensures CollectWindow(st, rs, i, hi)
         == (if LastOfItsRow(st.log, i, hi) then [LocalChange(st, rs, i)] else []) + CollectWindow(st, rs, i + 1, hi)
  {
  }

  lemma ReasonOnlyOnRefusal(x: Session, st: Store, t: Table, ch: Change, d: Draw)
    requires ApplyOne(x, st, t, ch, d).Done?
    ensures var o := ApplyOne(x, st, t, ch, d).out; o.status == Applied || o.status == Skipped ==> o.reason == NoReason
  {
    hide FindDuplicates, ConstraintsHold, PreserveText, RowsEquivalent, IncomingWins, TrueDivergence;
  }

  // ------------------------------------------------------------------
  // Nested loops over groups are one loop over the ordered work
  // ------------------------------------------------------------------

  /** The groups of the first `n` tables, one after the other. */
  ghost function Grouped(changes: seq<Change>, n: nat): seq<Change>
    requires n <= |TABLE_ORDER|
  {
    if n == 0 then [] else Grouped(changes, n - 1) + Having(changes, Some(TABLE_ORDER[n - 1]))
  }

  lemma GroupedIsPrefix(changes: seq<Change>, n: nat)
    requires n <= |TABLE_ORDER|
    ensures |Grouped(changes, n)| <= |Ordered(changes)|
    ensures Grouped(changes, n) == Ordered(changes)[..|Grouped(changes, n)|]
    ensures n == |TABLE_ORDER| ==> Grouped(changes, n) == Ordered(changes)
  {
    assert Grouped(changes, 1) == Having(changes, Some(Projects));
    assert Grouped(changes, 2) == Grouped(changes, 1) + Having(changes, Some(Memos));
    assert Grouped(changes, 3) == Grouped(changes, 2) + Having(changes, Some(MemoVersions));
    assert Grouped(changes, 4) == Grouped(changes, 3) + Having(changes, Some(ProjectMembers));
    assert Ordered(changes) == Grouped(changes, 4);
    assert n == 0 || n == 1 || n == 2 || n == 3 || n == 4;
  }

  lemma GroupIsSlice(changes: seq<Change>, n: nat)
    requires n < |TABLE_ORDER|
    ensures var group, at := Having(changes, Some(TABLE_ORDER[n])), |Grouped(changes, n)|;
            && at + |group| <= |Ordered(changes)| && Ordered(changes)[at..at + |group|] == group
            && |Grouped(changes, n + 1)| == at + |group|
  {
    hide Having, Ordered;
    GroupedIsPrefix(changes, n + 1);
    var all := Grouped(changes, n + 1);
    assert all == Grouped(changes, n) + Having(changes, Some(TABLE_ORDER[n]));
    assert Ordered(changes)[..|all|][|Grouped(changes, n)|..] == Having(changes, Some(TABLE_ORDER[n]));
  }

  lemma FoldOfNothing(x: Session, peer: Option<Peer>, p: Progress, work: seq<Change>, draw: nat -> Draw)
    requires forall ch | ch in work :: ch.table.Some?
    ensures Fold(x, peer, p, work[..0], draw) == p
  {
  }

  lemma FoldOneMore(x: Session, peer: Option<Peer>, p: Progress, work: seq<Change>, draw: nat -> Draw, n: nat)
    requires n < |work| && p.Running? && forall ch | ch in work :: ch.table.Some?
    requires Fold(x, peer, p, work[..n], draw).Running?
    ensures Fold(x, peer, p, work[..n + 1], draw)
         == StepRow(x, peer, Fold(x, peer, p, work[..n], draw), work[n].table.value, work[n], draw(n))
  {
    hide StepRow;
    assert work[..n + 1][..n] == work[..n];
  }

  lemma {:induction false} FoldStaysAborted(
    x: Session, peer: Option<Peer>, p: Progress, work: seq<Change>, draw: nat -> Draw, n: nat)
    requires n <= |work| && p.Running? && forall ch | ch in work :: ch.table.Some?
    requires Fold(x, peer, p, work[..n], draw).Aborted?
    ensures Fold(x, peer, p, work, draw).Aborted?
  {
    hide StepRow;
    if n == |work| {
      assert work[..n] == work;
    } else {
      var m := |work| - 1;
      assert work[..m][..n] == work[..n];
      FoldStaysAborted(x, peer, p, work[..m], draw, n);
    }
  }
}
