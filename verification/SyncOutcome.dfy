/** What one change does to a node, said on columns, clocks and log entries alone. */
module SyncOutcome {
  import opened SyncSchema
  import opened SyncStore
  import opened SyncApply
  import opened SyncApplyProofs
  import opened SyncBatch

  // ------------------------------------------------------------------
  // Changes to stored rows
  // ------------------------------------------------------------------

  lemma SeqIsLogged(log: seq<LogEntry>, k: Key, since: nat)
    ensures LatestSeq(log, k) > since <==> exists i :: since <= i < |log| && log[i].key == k
  {
    LatestSeqIsLast(log, k);
  }

  /** The change repeats what is stored: the same clock, and no column with another value. */
  ghost predicate Repeats(stored: Row, sent: Row, t: Table) {
    && Get(stored, UpdatedAtUtc) == Get(sent, UpdatedAtUtc)
    && forall c | c in sent && c in Columns(t) :: Get(stored, c) == sent[c]
  }

  /** A change to a stored row is a conflict exactly when it does not repeat what is stored and both sides have
      changed the row since they last agreed. For a push with a base seq the server has changed it when its log has
      a later entry of the row. Otherwise the base clock decides: the receiver has changed the row when it is stored
      with another clock, and the sender when the change has another clock. Without any base both are assumed. */
  lemma ConflictExactlyWhenBothChanged(x: Session, st: Store, t: Table, ch: Change, d: Draw)
    requires Key(t, ch.rowId) in st.rows && ch.row.Some?
    requires var a := ApplyOne(x, st, t, ch, d); a.Done? && (a.out.status == Applied || a.out.status == Skipped)
    ensures var stored, sent := st.rows[Key(t, ch.rowId)], ch.row.value;
            ApplyOne(x, st, t, ch, d).out.conflict.Some?
            <==> && !Repeats(stored, sent, t)
                 && (if x.side == ClientSide && ch.basePeerSeq.Some? then
                       exists i :: ch.basePeerSeq.value <= i < |st.log| && st.log[i].key == Key(t, ch.rowId)
                     else if ch.baseClock.Some? then
                       && Get(stored, UpdatedAtUtc) != Num(ch.baseClock.value)
                       && Get(sent, UpdatedAtUtc) != Num(ch.baseClock.value)
                     else true)
  {
    hide FindDuplicates, ConstraintsHold, PreserveText, LatestSeq, IncomingWins;
    if ch.basePeerSeq.Some? {
      SeqIsLogged(st.log, Key(t, ch.rowId), ch.basePeerSeq.value);
    }
  }

  /** A change to a stored row is applied exactly when it does not repeat what is stored and its clock is later, or
      the same and the change is the server's; a row stored without a clock gives way to any. Then each column it
      names has its value; otherwise the row stays. */
  lemma AppliedExactlyWhenLater(x: Session, st: Store, t: Table, ch: Change, d: Draw)
    requires x.applying && Key(t, ch.rowId) in st.rows && ch.row.Some?
    requires var a := ApplyOne(x, st, t, ch, d); a.Done? && (a.out.status == Applied || a.out.status == Skipped)
    ensures var a := ApplyOne(x, st, t, ch, d);
            var k, sent := Key(t, ch.rowId), ch.row.value;
            var stored := st.rows[k];
            && Get(sent, UpdatedAtUtc).Num? && k in a.store.rows
            && (a.out.status == Applied <==>
                  && !Repeats(stored, sent, t)
                  && (Get(stored, UpdatedAtUtc).Num? ==>
                        || Get(sent, UpdatedAtUtc).n > Get(stored, UpdatedAtUtc).n
                        || (Get(sent, UpdatedAtUtc).n == Get(stored, UpdatedAtUtc).n && x.side == ServerSide)))
            && (forall c :: Get(a.store.rows[k], c)
                            == if a.out.status == Applied && c in sent && c in Columns(t) then sent[c]
                               else Get(stored, c))
  {
    hide FindDuplicates, ConstraintsHold, TrueDivergence, PreserveText;
    ApplyTouchesTwoRows(x, st, t, ch, d);
    ApplyDecidesByClock(x, st, t, ch, d);
    hide Columns;
  }

  // ------------------------------------------------------------------
  // New rows
  // ------------------------------------------------------------------

  lemma DefaultsAre(t: Table, now: int)
    ensures Defaults(t, now).Keys == Columns(t)
    ensures forall c | c in Columns(t) ::
              Defaults(t, now)[c] == if c == Status || c == IsSecret then Num(0)
                                     else if c == Role then Text("viewer")
                                     else if c == CreatedAt || c == UpdatedAt || c == InvitedAt then Num(now)
                                     else Null
  {
    hide Columns;
  }

  /** A new row has every column of its table: those of the change, and for the others what the database fills in. */
  lemma InsertFillsColumns(x: Session, st: Store, t: Table, ch: Change, d: Draw)
    requires Key(t, ch.rowId) !in st.rows && ch.row.Some?
    requires var a := ApplyOne(x, st, t, ch, d); a.Done? && a.out.status == Applied
    ensures var a := ApplyOne(x, st, t, ch, d);
            var k, sent := Key(t, ch.rowId), ch.row.value;
            && k in a.store.rows && a.store.rows == st.rows[k := a.store.rows[k]] && a.out.conflict == None
            && a.store.rows[k].Keys == Columns(t)
            && (forall c | c in Columns(t) ::
                  a.store.rows[k][c] == if c in sent then sent[c]
                                        else if c == Status || c == IsSecret then Num(0)
                                        else if c == Role then Text("viewer")
                                        else if c == CreatedAt || c == UpdatedAt || c == InvitedAt then Num(d.now)
                                        else Null)
  {
    hide FindDuplicates, ConstraintsHold, ApplyOver, MissingParentOf, Columns, Defaults, ColumnDefault;
    DefaultsAre(t, d.now);
  }

  /** The column names a row of its parent's table that is stored. */
  ghost predicate HasStoredParent(rows: map<Key, Row>, t: Table, sent: Row) {
    match t
    case Projects => true
    case Memos => Get(sent, ProjectId).Text? && Key(Projects, Get(sent, ProjectId).s) in rows
    case ProjectMembers => Get(sent, ProjectId).Text? && Key(Projects, Get(sent, ProjectId).s) in rows
    case MemoVersions => Get(sent, MemoId).Text? && Key(Memos, Get(sent, MemoId).s) in rows
  }

  ghost predicate NamesParent(t: Table, sent: Row) {
    match t
    case Projects => false
    case Memos => Get(sent, ProjectId) != Null && Get(sent, ProjectId) != Text("") && Get(sent, ProjectId) != Num(0)
    case ProjectMembers =>
      Get(sent, ProjectId) != Null && Get(sent, ProjectId) != Text("") && Get(sent, ProjectId) != Num(0)
    case MemoVersions => Get(sent, MemoId) != Null && Get(sent, MemoId) != Text("") && Get(sent, MemoId) != Num(0)
  }

  /** Without a row id or a clock a change is rejected; with both it is deferred exactly when it names a parent that
      is not stored. Either way nothing is written. */
  lemma MalformedIsRefused(x: Session, st: Store, t: Table, ch: Change, d: Draw)
    requires ch.rowId == "" || !(ch.op == Delete && ch.row.None?)
    ensures var a := ApplyOne(x, st, t, ch, d);
            var sent := if ch.row.Some? then ch.row.value else map[];
            var waits := NamesParent(t, sent) && !HasStoredParent(st.rows, t, sent);
            && (ch.rowId == "" ==> a == Done(st, RowOutcome(Rejected, MissingRowId, None, {})))
            && (ch.rowId != "" && !Get(sent, UpdatedAtUtc).Num? ==>
                  a == Done(st, RowOutcome(Rejected, MissingClock, None, {})))
            && (ch.rowId != "" && Get(sent, UpdatedAtUtc).Num? ==>
                  (a.Done? && a.out.status == Deferred <==> waits)
                  && (a.Done? ==> a.out.status != Rejected) && (waits ==> a.store == st))
  {
    hide FindDuplicates, ConstraintsHold, TrueDivergence, RowsEquivalent, IncomingWins, PreserveText, Defaults;
  }

  /** The columns no row of the table may leave empty. */
  ghost function Required(t: Table): set<Column> {
    match t
    case Projects => {Name, Icon, Status, CreatedAt, UpdatedAt, UpdatedAtUtc}
    case Memos => {ProjectId, Title, Status, CreatedAt, UpdatedAt, UpdatedAtUtc}
    case MemoVersions => {MemoId, Version, CreatedAt, UpdatedAtUtc}
    case ProjectMembers => {ProjectId, UserId, Role, InvitedAt, UpdatedAtUtc}
  }

  /** A row of the batch is stored only if no required column is empty, its parent is stored, and, for a membership,
      no other one is for the same project and user. Otherwise the database raises. */
  lemma StoredExactlyIfAccepted(x: Session, st: Store, t: Table, ch: Change, d: Draw)
    requires Key(t, ch.rowId) !in st.rows && ch.rowId != "" && ch.row.Some? && Get(ch.row.value, UpdatedAtUtc).Num?
    requires NamesParent(t, ch.row.value) ==> HasStoredParent(st.rows, t, ch.row.value)
    ensures var k, row := Key(t, ch.rowId), Defaults(t, d.now) + FilterRow(t, ch.row.value);
            ApplyOne(x, st, t, ch, d).Done?
            <==> && (forall c | c in Required(t) :: row[c] != Null)
                 && HasStoredParent(st.rows, t, row)
                 && (t == ProjectMembers ==>
                       forall m | m in st.rows && m.table == ProjectMembers ::
                         !(Get(st.rows[m], ProjectId) == row[ProjectId] && Get(st.rows[m], UserId) == row[UserId]))
  {
    hide FindDuplicates, ApplyOver, ConstraintsHold, Defaults, ColumnDefault, FilterRow, HasStoredParent;
    var k, row := Key(t, ch.rowId), Defaults(t, d.now) + FilterRow(t, ch.row.value);
    RowIsWhole(t, ch.row.value, d.now);
    AcceptedExactly(st.rows, k, row);
    MalformedIsRefused(x, st, t, ch, d);
  }

  lemma RowIsWhole(t: Table, sent: Row, now: int)
    ensures (Defaults(t, now) + FilterRow(t, sent)).Keys == Columns(t) && Required(t) <= Columns(t)
    ensures t == ProjectMembers ==> ProjectId in Columns(t) && UserId in Columns(t)
    ensures ClockOf(FilterRow(t, sent)).Some? <==> Get(sent, UpdatedAtUtc).Num?
  {
  }

  lemma AcceptedExactly(rows: map<Key, Row>, k: Key, row: Row)
    requires row.Keys == Columns(k.table)
    ensures Required(k.table) <= Columns(k.table)
    ensures k.table == ProjectMembers ==> ProjectId in Columns(k.table) && UserId in Columns(k.table)
    ensures ConstraintsHold(rows, k, row)
            <==> && (forall c | c in Required(k.table) :: row[c] != Null)
                 && HasStoredParent(rows, k.table, row)
                 && (k.table == ProjectMembers ==>
                       forall m | m in rows && m.table == ProjectMembers && m != k ::
                         !(Get(rows[m], ProjectId) == row[ProjectId] && Get(rows[m], UserId) == row[UserId]))
  {
    assert Required(k.table) == NotNull(k.table);
  }

  /** What a row adds to its batch's answer, by its status. */
  lemma PartSaysWhatHappened(t: Table, ch: Change, o: RowOutcome, rows: map<Key, Row>)
    ensures var part, k := PartOf(t, ch, o, rows), Key(t, ch.rowId);
            && part.applied == (if o.status == Applied then 1 else 0)
            && part.skipped == (if o.status == Skipped then 1 else 0)
            && part.deferred == (if o.status == Deferred then [Refusal(Some(t), ch.rowId, o.reason)] else [])
            && part.rejected == (if o.status == Rejected then [Refusal(Some(t), ch.rowId, o.reason)] else [])
            && part.conflicts == (if o.conflict.Some? then [o.conflict.value] else [])
            && part.duplicates == o.duplicates
            && part.appliedRefs == (if o.status == Applied then [k] else [])
            && part.results == [Result(ch.seqNo, Some(t), ch.rowId, o.status, o.reason, o.conflict.Some?,
                 if ch.rowId != "" && k in rows && Get(rows[k], UpdatedAtUtc).Num? then
                   Some(Get(rows[k], UpdatedAtUtc).n)
                 else None)]
  {
  }

  /** A refused row is answered under its own seq and id, and counts as rejected. */
  lemma RefusalSaysWhy(t: Option<Table>, ch: Change, reason: Reason)
    ensures RefusedPart(t, ch, reason)
            == Outcome(0, 0, [], [Refusal(t, ch.rowId, reason)], [], {}, [],
                       [Result(ch.seqNo, t, ch.rowId, Rejected, reason, false, None)])
  {
  }

  /** Each row for an unknown table is refused as such, in order. */
  lemma {:induction false} UnknownTablesAreRefused(unlisted: seq<Change>)
    ensures var out := RefuseAll(unlisted);
            && |out.results| == |out.rejected| == |unlisted|
            && out.applied == out.skipped == 0 && out.deferred == [] && out.appliedRefs == []
            && (forall i | 0 <= i < |unlisted| ::
                  && out.rejected[i] == Refusal(None, unlisted[i].rowId, UnknownTable)
                  && out.results[i]
                     == Result(unlisted[i].seqNo, None, unlisted[i].rowId, Rejected, UnknownTable, false, None))
  {
    if unlisted != [] {
      UnknownTablesAreRefused(unlisted[..|unlisted| - 1]);
      RefusalSaysWhy(None, unlisted[|unlisted| - 1], UnknownTable);
    }
  }

  // ------------------------------------------------------------------
  // Hard deletes
  // ------------------------------------------------------------------

  /** A hard delete takes a stored version away. In the other tables it marks a row that is not deleted yet as
      deleted now, and changes nothing else; anything else it skips. */
  lemma HardDeleteMarksOrDrops(x: Session, st: Store, t: Table, ch: Change, d: Draw)
    requires ch.rowId != "" && ch.op == Delete && ch.row.None?
    ensures var a, k := ApplyOne(x, st, t, ch, d), Key(t, ch.rowId);
            && a.Done? && a.out.conflict == None && a.store.issues == st.issues
            && (a.out.status == Applied <==> k in st.rows && (t == MemoVersions || Get(st.rows[k], DeletedAt) == Null))
            && (a.out.status != Applied ==> a.out.status == Skipped && a.store == st)
            && (forall j | j != k :: SameAt(st.rows, a.store.rows, j))
            && (a.out.status == Applied ==>
                  && a.store.log == (if x.applying then st.log
                                     else st.log + [LogEntry(k, if t == MemoVersions then Delete else Update)])
                  && (k in a.store.rows <==> t != MemoVersions)
                  && (t != MemoVersions ==>
                        forall c :: Get(a.store.rows[k], c)
                                    == if c == DeletedAt || c == UpdatedAtUtc then Num(d.now) else Get(st.rows[k], c)))
  {
  }

  // ------------------------------------------------------------------
  // Texts
  // ------------------------------------------------------------------

  /** The next number of a memo's versions: one above the highest, and 1 for the first. */
  ghost predicate IsNextNumber(rows: map<Key, Row>, memo: Id, n: int) {
    && (forall v | v in rows && v.table == MemoVersions && Get(rows[v], MemoId) == Text(memo)
                   && Get(rows[v], Version).Num? :: Get(rows[v], Version).n < n)
    && (n != 1 ==> exists v :: v in rows && v.table == MemoVersions && Get(rows[v], MemoId) == Text(memo)
                               && Get(rows[v], Version) == Num(n - 1))
  }

  lemma NextNumberIsOneAbove(rows: map<Key, Row>, memo: Id)
    ensures IsNextNumber(rows, memo, MaxOrZero(VersionNumbers(rows, memo)) + 1)
  {
    var numbers := VersionNumbers(rows, memo);
    forall v | v in rows && v.table == MemoVersions && Get(rows[v], MemoId) == Text(memo) && Get(rows[v], Version).Num?
      ensures Get(rows[v], Version).n < MaxOrZero(numbers) + 1
    {
      assert IsVersionOf(rows, v, memo) && Get(rows[v], Version).n in numbers;
    }
  }

  /** Some version of the memo has this text. */
  ghost predicate IsVersionText(env: Env, rows: map<Key, Row>, memo: Id, text: string) {
    exists v :: v in rows && v.table == MemoVersions && Get(rows[v], MemoId) == Text(memo)
                && Get(rows[v], Content).Text? && env.sqlEq(Get(rows[v], Content).s, text)
  }

  lemma PreservedIsAVersion(x: Session, st: Store, memo: Id, loser: Row, side: Side, d: Draw)
    requires (forall s :: x.env.sqlEq(s, s)) && PreserveText(x, st, Key(Memos, memo), loser, side, d).Kept?
    ensures var p := PreserveText(x, st, Key(Memos, memo), loser, side, d);
            var text, vk := Get(loser, Content), Key(MemoVersions, d.id);
            && (text.Text? ==> IsVersionText(x.env, p.store.rows, memo, text.s))
            && (p.version.None? ==> p.store == st)
            && (p.version.Some? ==>
                  && vk !in st.rows && IsNextNumber(st.rows, memo, p.version.value)
                  && p.store.rows
                     == st.rows[vk := map[MemoId := Text(memo), Content := text, Version := Num(p.version.value),
                          Note := Text(if side == ClientSide then "conflict: local" else "conflict: remote"),
                          CreatedAt := Num(d.now), UpdatedAtUtc := Num(d.now)]])
  {
    hide ConstraintsHold, IsNextNumber, VersionNumbers;
    NextNumberIsOneAbove(st.rows, memo);
    var p := PreserveText(x, st, Key(Memos, memo), loser, side, d);
    if p.version.Some? && Get(loser, Content).Text? {
      assert IsVersionOf(p.store.rows, Key(MemoVersions, d.id), memo);
    }
  }

  lemma ConflictPreserves(x: Session, st: Store, ch: Change, d: Draw)
    requires ch.row.Some? && Key(Memos, ch.rowId) in st.rows
    requires ApplyOne(x, st, Memos, ch, d).Done? && ApplyOne(x, st, Memos, ch, d).out.conflict.Some?
    ensures var a, k := ApplyOne(x, st, Memos, ch, d), Key(Memos, ch.rowId);
            var c := a.out.conflict.value;
            var p := PreserveText(x, st, k, if c.incomingWon then st.rows[k] else FilterRow(Memos, ch.row.value),
              c.loserSide, d);
            && p.Kept? && c.preserved == p.version
            && forall v: Key | v.table == MemoVersions :: SameAt(p.store.rows, a.store.rows, v)
  {
    hide FindDuplicates, ConstraintsHold, TrueDivergence, RowsEquivalent, IncomingWins, PreserveText, FilterRow;
  }

  lemma SameVersionsSameText(env: Env, a: map<Key, Row>, b: map<Key, Row>, memo: Id, text: string)
    requires IsVersionText(env, a, memo, text) && forall v: Key | v.table == MemoVersions :: SameAt(a, b, v)
    ensures IsVersionText(env, b, memo, text)
  {
    var v :| v in a && v.table == MemoVersions && Get(a[v], MemoId) == Text(memo)
             && Get(a[v], Content).Text? && env.sqlEq(Get(a[v], Content).s, text);
    assert SameAt(a, b, v);
  }

  /** When a conflict is reported for a memo, some version of that memo has the losing text. A version added for it
      has the next number, the time of the conflict and a note that names the losing side. */
  lemma LosingTextIsAVersion(x: Session, st: Store, ch: Change, d: Draw)
    requires (forall s :: x.env.sqlEq(s, s)) && ch.row.Some? && Key(Memos, ch.rowId) in st.rows
    requires ApplyOne(x, st, Memos, ch, d).Done? && ApplyOne(x, st, Memos, ch, d).out.conflict.Some?
    ensures var a := ApplyOne(x, st, Memos, ch, d);
            var c := a.out.conflict.value;
            var text := Get(if c.incomingWon then st.rows[Key(Memos, ch.rowId)] else ch.row.value, Content);
            var vk := Key(MemoVersions, d.id);
            && (text.Text? ==> IsVersionText(x.env, a.store.rows, ch.rowId, text.s))
            && (c.preserved.Some? <==> vk !in st.rows && vk in a.store.rows)
            && (c.preserved.Some? ==>
                  && IsNextNumber(st.rows, ch.rowId, c.preserved.value)
                  && a.store.rows[vk]
                     == map[MemoId := Text(ch.rowId), Content := text, Version := Num(c.preserved.value),
                            Note := Text(if c.loserSide == ClientSide then "conflict: local" else "conflict: remote"),
                            CreatedAt := Num(d.now), UpdatedAtUtc := Num(d.now)])
  {
    hide ApplyOne, PreserveText, IsNextNumber, IsVersionText, FilterRow;
    var a, k := ApplyOne(x, st, Memos, ch, d), Key(Memos, ch.rowId);
    var c := a.out.conflict.value;
    var loser := if c.incomingWon then st.rows[k] else FilterRow(Memos, ch.row.value);
    ContentIsKept(ch.row.value);
    ConflictPreserves(x, st, ch, d);
    PreservedIsAVersion(x, st, ch.rowId, loser, c.loserSide, d);
    var p, text := PreserveText(x, st, k, loser, c.loserSide, d), Get(loser, Content);
    assert SameAt(p.store.rows, a.store.rows, Key(MemoVersions, d.id));
    if text.Text? { SameVersionsSameText(x.env, p.store.rows, a.store.rows, ch.rowId, text.s); }
  }

  lemma ContentIsKept(row: Row)
    ensures Get(FilterRow(Memos, row), Content) == Get(row, Content)
  {
  }

  // ------------------------------------------------------------------
  // Duplicates
  // ------------------------------------------------------------------

  /** The column by which two rows of a table are duplicates of each other. */
  function NameOf(t: Table, row: Row): Value {
    if t == Projects then Get(row, Name) else Get(row, Title)
  }

  /** `other` is a live row of the same table, and for memos of the same project, with the same normal name. */
  ghost predicate IsNamesake(env: Env, rows: map<Key, Row>, k: Key, sent: Row, other: Key) {
    && other in rows && other != k && other.table == k.table && (k.table == Projects || k.table == Memos)
    && Get(sent, DeletedAt) == Null && Get(rows[other], DeletedAt) == Null
    && NameOf(k.table, sent).Text? && env.normalize(NameOf(k.table, sent).s) != ""
    && NameOf(k.table, rows[other]).Text?
    && env.normalize(NameOf(k.table, rows[other]).s) == env.normalize(NameOf(k.table, sent).s)
    && (k.table == Memos ==>
          match (Get(rows[other], ProjectId), Get(sent, ProjectId))
          case (Text(a), Text(b)) => env.sqlEq(a, b)
          case (Num(a), Num(b)) => a == b
          case _ => false)
  }

  lemma AppliedIsSearched(x: Session, st: Store, t: Table, ch: Change, d: Draw)
    requires ch.row.Some? && ApplyOne(x, st, t, ch, d).Done? && ApplyOne(x, st, t, ch, d).out.status == Applied
    ensures var a := ApplyOne(x, st, t, ch, d);
            && a.out.duplicates <= a.store.issues
            && a.out.duplicates == FindDuplicates(x.env, a.store.rows, Key(t, ch.rowId), FilterRow(t, ch.row.value))
  {
    hide ConstraintsHold, TrueDivergence, RowsEquivalent, IncomingWins, PreserveText, FindDuplicates, FilterRow,
      Defaults;
  }

  lemma SearchFindsNamesakes(env: Env, rows: map<Key, Row>, k: Key, sent: Row, other: Key)
    requires other in rows
    ensures IsDuplicateOf(env, rows, k, FilterRow(k.table, sent), other) <==> IsNamesake(env, rows, k, sent, other)
  {
  }

  lemma FoundAre(env: Env, rows: map<Key, Row>, k: Key, sent: Row, i: Issue)
    ensures i in FindDuplicates(env, rows, k, sent)
            <==> && i.peer.Some? && Key(k.table, i.peer.value) in rows
                 && IsDuplicateOf(env, rows, k, sent, Key(k.table, i.peer.value))
                 && i == Issue(if k.table == Projects then DuplicateProject else DuplicateMemo, k, i.peer)
  {
    hide NormalName, SqlEqual;
  }

  /** An applied change is reported as a duplicate of each of its namesakes, under its table's kind of issue, and of
      nothing else; every report is recorded. */
  lemma DuplicatesAreNamesakes(x: Session, st: Store, t: Table, ch: Change, d: Draw, i: Issue)
    requires ch.row.Some? && ApplyOne(x, st, t, ch, d).Done? && ApplyOne(x, st, t, ch, d).out.status == Applied
    ensures var a, k := ApplyOne(x, st, t, ch, d), Key(t, ch.rowId);
            && a.out.duplicates <= a.store.issues
            && (i in a.out.duplicates <==>
                  && i.kind == (if t == Projects then DuplicateProject else DuplicateMemo)
                  && i.ref == k && i.peer.Some?
                  && IsNamesake(x.env, a.store.rows, k, ch.row.value, Key(t, i.peer.value)))
  {
    hide ApplyOne, FindDuplicates, FilterRow, IsDuplicateOf, IsNamesake;
    var a, k := ApplyOne(x, st, t, ch, d), Key(t, ch.rowId);
    AppliedIsSearched(x, st, t, ch, d);
    FoundAre(x.env, a.store.rows, k, FilterRow(t, ch.row.value), i);
    if i.peer.Some? && Key(t, i.peer.value) in a.store.rows {
      SearchFindsNamesakes(x.env, a.store.rows, k, ch.row.value, Key(t, i.peer.value));
    } else if i.peer.Some? {
      NamesakesAreStored(x.env, a.store.rows, k, ch.row.value, Key(t, i.peer.value));
    }
  }

  lemma NamesakesAreStored(env: Env, rows: map<Key, Row>, k: Key, sent: Row, other: Key)
    ensures IsNamesake(env, rows, k, sent, other) ==> other in rows
  {
  }
}
