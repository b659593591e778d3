/** An accepted batch has a bounded frame: whatever it touches was and is in projects the account may act in. */
module SyncAuthorizeProofs {
  import opened SyncSchema
  import opened SyncStore
  import opened SyncApply
  import opened SyncApplyProofs
  import opened SyncEffectProofs
  import opened SyncBatch
  import opened SyncAuthorize

  /** The rows a batch starts from, the batch, and the account that sends it. */
  datatype Request = Request(rows: Rows, changes: seq<Change>, account: Id)

  predicate MayWrite(q: Request, project: Option<Id>) {
    project.Some? && MayActIn(q.rows, q.changes, q.account, project.value, WRITERS)
  }

  predicate MayOwn(q: Request, project: Option<Id>) {
    project.Some? && MayActIn(q.rows, q.changes, q.account, project.value, OWNERS)
  }

  ghost predicate Named(q: Request, t: Table, id: Id) {
    exists ch :: ch in q.changes && ch.table == Some(t) && ch.rowId == id
  }

  /** A memo the batch is authorised for by itself, or one that stays where the account may write. */
  ghost predicate Anchored(q: Request, memo: Id) {
    Named(q, Memos, memo) || (Key(Memos, memo) in q.rows && MayWrite(q, StoredProject(q.rows, Key(Memos, memo))))
  }

  predicate NoBlankParents(rows: Rows) {
    Key(Projects, "") !in rows && Key(Memos, "") !in rows
  }

  ghost predicate ProjectsFramed(q: Request, rows: Rows) {
    forall k: Key | k.table == Projects && !SameAt(q.rows, rows, k) ::
      MayOwn(q, Some(k.id)) && (k !in q.rows && k in rows ==> Get(rows[k], OwnerId) == Text(q.account))
  }

  ghost predicate MemosFramed(q: Request, rows: Rows) {
    && (forall k: Key | k.table == Memos && !SameAt(q.rows, rows, k) :: Named(q, Memos, k.id))
    && (forall k | k in rows && k.table == Memos && Named(q, Memos, k.id) :: MayWrite(q, StoredProject(rows, k)))
  }

  ghost predicate MembersFramed(q: Request, rows: Rows) {
    && (forall k: Key | k.table == ProjectMembers && !SameAt(q.rows, rows, k) :: Named(q, ProjectMembers, k.id))
    && (forall k | k in rows && k.table == ProjectMembers && Named(q, ProjectMembers, k.id) ::
         MayOwn(q, StoredProject(rows, k)))
  }

  ghost predicate VersionsFramed(q: Request, rows: Rows) {
    forall k: Key | k.table == MemoVersions && !SameAt(q.rows, rows, k) ::
      && (k in q.rows ==> MayWrite(q, StoredProject(q.rows, k)))
      && (k in rows ==> Get(rows[k], MemoId).Text? && Anchored(q, Get(rows[k], MemoId).s))
  }

  ghost predicate Framed(q: Request, rows: Rows) {
    && RowsValid(rows) && NoBlankParents(rows)
    && ProjectsFramed(q, rows) && MemosFramed(q, rows) && MembersFramed(q, rows) && VersionsFramed(q, rows)
  }

  ghost predicate Accepted(q: Request) {
    RowsValid(q.rows) && NoBlankParents(q.rows) && AllAllowed(q.rows, q.changes, q.account)
  }

  // ------------------------------------------------------------------
  // Stored rows have a project
  // ------------------------------------------------------------------

  lemma StoredHaveProject(rows: Rows, k: Key)
    requires RowsValid(rows) && NoBlankParents(rows) && k in rows
    ensures StoredProject(rows, k).Some?
    ensures k.table == Memos || k.table == ProjectMembers ==>
              Get(rows[k], ProjectId) == Text(StoredProject(rows, k).value)
    ensures k.table == MemoVersions ==>
      var memo := Get(rows[k], MemoId);
      memo.Text? && memo.s != "" && Key(Memos, memo.s) in rows
        && StoredProject(rows, k) == StoredProject(rows, Key(Memos, memo.s))
  {
    hide Columns;
    if k.table == MemoVersions {
      assert ParentStored(rows, k.table, rows[k]);
      var mk := Key(Memos, Get(rows[k], MemoId).s);
      assert ParentStored(rows, mk.table, rows[mk]);
    } else {
      assert ParentStored(rows, k.table, rows[k]);
    }
  }

  lemma StartIsFramed(q: Request)
    requires Accepted(q)
    ensures Framed(q, q.rows)
  {
    hide RowsValid, MayActIn;
    forall k | k in q.rows && k.table == Memos && Named(q, Memos, k.id) ensures MayWrite(q, StoredProject(q.rows, k)) {
      var ch :| ch in q.changes && ch.table == Some(Memos) && ch.rowId == k.id;
      StoredHaveProject(q.rows, k);
      assert Allowed(q.rows, q.changes, q.account, ch);
    }
    forall k | k in q.rows && k.table == ProjectMembers && Named(q, ProjectMembers, k.id)
      ensures MayOwn(q, StoredProject(q.rows, k))
    {
      var ch :| ch in q.changes && ch.table == Some(ProjectMembers) && ch.rowId == k.id;
      StoredHaveProject(q.rows, k);
      assert Allowed(q.rows, q.changes, q.account, ch);
    }
  }

  // ------------------------------------------------------------------
  // One change
  // ------------------------------------------------------------------

  /** Where the value of an identity column of the named row comes from. */
  lemma ColumnComesFrom(x: Session, st: Store, t: Table, ch: Change, d: Draw, c: Column)
    requires x.applying && ApplyOne(x, st, t, ch, d).Done? && ch.table == Some(t) && c in {ProjectId, MemoId, OwnerId}
    requires Key(t, ch.rowId) in ApplyOne(x, st, t, ch, d).store.rows
    ensures var k := Key(t, ch.rowId);
            var v := Get(ApplyOne(x, st, t, ch, d).store.rows[k], c);
            if k in st.rows then v == Get(st.rows[k], c) || (c in Wire(ch) && v == Get(Wire(ch), c))
            else v == Get(Wire(ch), c)
  {
    hide ApplyOne, ConstraintsHold, IncomingWins, RowsEquivalent, Columns, FreshVersion;
    assert ColumnDefault(c, d.now) == Null;
    if ch.row.Some? {
      ApplyTouchesTwoRows(x, st, t, ch, d);
      ApplyDecidesByClock(x, st, t, ch, d);
    } else {
      RowlessKeepsIdentity(x, st, t, ch, d, c);
    }
  }

  lemma RowlessKeepsIdentity(x: Session, st: Store, t: Table, ch: Change, d: Draw, c: Column)
    requires ApplyOne(x, st, t, ch, d).Done? && ch.row.None? && c in {ProjectId, MemoId, OwnerId}
    ensures var now := ApplyOne(x, st, t, ch, d).store.rows;
            var k := Key(t, ch.rowId);
            k in now ==> k in st.rows && Get(now[k], c) == Get(st.rows[k], c)
  {
    hide Columns;
  }

  ghost predicate ColumnFrom(a: Rows, b: Rows, k: Key, wire: Row, c: Column) {
    k in b ==>
      if k in a then Get(b[k], c) == Get(a[k], c) || (c in wire && Get(b[k], c) == Get(wire, c))
      else Get(b[k], c) == Get(wire, c)
  }

  /** How one applied change may move the rows from `a` to `b`. */
  ghost predicate Moves(a: Rows, b: Rows, k: Key, vk: Key, kept: bool, wire: Row) {
    && RowsValid(b) && NoBlankParents(b)
    && (forall j | j != k && j != vk :: SameAt(a, b, j))
    && (!kept && vk != k ==> SameAt(a, b, vk))
    && (kept ==>
         k.table == Memos && vk.table == MemoVersions && vk !in a && vk in b && Get(b[vk], MemoId) == Text(k.id))
    && (forall j | j in a && j.table != MemoVersions :: j in b)
    && (k.id == "" ==> SameAt(a, b, k))
    && ColumnFrom(a, b, k, wire, ProjectId) && ColumnFrom(a, b, k, wire, MemoId) && ColumnFrom(a, b, k, wire, OwnerId)
    && (k in b && k !in a ==> k.table == MemoVersions || k.id != "")
  }

  lemma ApplyMoves(x: Session, st: Store, t: Table, ch: Change, d: Draw)
    requires x.applying && RowsValid(st.rows) && NoBlankParents(st.rows) && ch.table == Some(t)
    requires ApplyOne(x, st, t, ch, d).Done?
    ensures var a := ApplyOne(x, st, t, ch, d);
            Moves(st.rows, a.store.rows, Key(t, ch.rowId), VersionKey(d), KeepsVersion(a.out), Wire(ch))
  {
    hide ApplyOne, RowsValid, FilterRow, Columns, ConstraintsHold;
    var a := ApplyOne(x, st, t, ch, d);
    ApplyKeepsRowsValid(x, st, t, ch, d);
    ApplyTouchesTwoRows(x, st, t, ch, d);
    forall j | j in st.rows && j.table != MemoVersions ensures j in a.store.rows {
      ParentsStay(x, st, t, ch, d, j);
    }
    if Key(t, ch.rowId) in a.store.rows {
      ColumnComesFrom(x, st, t, ch, d, ProjectId);
      ColumnComesFrom(x, st, t, ch, d, MemoId);
      ColumnComesFrom(x, st, t, ch, d, OwnerId);
    }
    BlankIsRejected(x, st, t, ch, d);
    assert NoBlankParents(a.store.rows) by {
      assert forall j: Key | j.id == "" && j.table != MemoVersions :: SameAt(st.rows, a.store.rows, j);
    }
  }

  lemma BlankIsRejected(x: Session, st: Store, t: Table, ch: Change, d: Draw)
    requires ApplyOne(x, st, t, ch, d).Done?
    ensures ch.rowId == "" ==> ApplyOne(x, st, t, ch, d).store == st
  {
  }

  // ------------------------------------------------------------------
  // A step keeps the frame
  // ------------------------------------------------------------------

  lemma AllowedOf(q: Request, ch: Change)
    requires Accepted(q) && ch in q.changes && ch.table.Some?
    ensures Allowed(q.rows, q.changes, q.account, ch)
  {
    hide Allowed, RowsValid;
  }

  /** What an accepted change to a project says about the account. */
  lemma ProjectChange(q: Request, ch: Change)
    requires Accepted(q) && ch in q.changes && ch.table == Some(Projects)
    ensures MayOwn(q, Some(ch.rowId))
    ensures Key(Projects, ch.rowId) !in q.rows ==> Get(Wire(ch), OwnerId) == Text(q.account)
  {
    hide RowsValid, Wire, IsRole, Creates, ProjectsAllowed, AllAllowed;
    AllowedOf(q, ch);
    if Key(Projects, ch.rowId) !in q.rows {
      OwnRowCreates(q.rows, q.changes, q.account, ch);
      AllMeansProjects(q.rows, q.changes, q.account);
    }
  }

  lemma ProjectsStayFramed(q: Request, a: Rows, b: Rows, ch: Change, vk: Key, kept: bool)
    requires Accepted(q) && ProjectsFramed(q, a) && ch in q.changes && ch.table.Some? && vk.table == MemoVersions
    requires Moves(a, b, Key(ch.table.value, ch.rowId), vk, kept, Wire(ch))
    ensures ProjectsFramed(q, b)
  {
    hide Accepted, RowsValid, Wire, MayOwn, NoBlankParents;
    var k := Key(ch.table.value, ch.rowId);
    if k.table == Projects { ProjectChange(q, ch); }
    forall j: Key | j.table == Projects && !SameAt(q.rows, b, j)
      ensures MayOwn(q, Some(j.id)) && (j !in q.rows && j in b ==> Get(b[j], OwnerId) == Text(q.account))
    {
      if j != k { assert SameAt(a, b, j); }
    }
  }

  /** The project a memo or membership row has after its own change. */
  lemma ProjectAfter(q: Request, a: Rows, b: Rows, ch: Change, vk: Key, kept: bool)
    requires ch.table == Some(Memos) || ch.table == Some(ProjectMembers)
    requires RowsValid(a) && NoBlankParents(a) && vk.table == MemoVersions
    requires Moves(a, b, Key(ch.table.value, ch.rowId), vk, kept, Wire(ch)) && Key(ch.table.value, ch.rowId) in b
    ensures var k := Key(ch.table.value, ch.rowId);
            && StoredProject(b, k).Some?
            && ((k in a && StoredProject(b, k) == StoredProject(a, k))
                || StoredProject(b, k) == IncomingProject(q.rows, q.changes, ch))
  {
    var k := Key(ch.table.value, ch.rowId);
    StoredHaveProject(b, k);
    if k in a { StoredHaveProject(a, k); }
    hide RowsValid, Wire;
  }

  lemma MemosStayFramed(q: Request, a: Rows, b: Rows, ch: Change, vk: Key, kept: bool)
    requires Accepted(q) && MemosFramed(q, a) && ch in q.changes && ch.table.Some? && vk.table == MemoVersions
    requires RowsValid(a) && NoBlankParents(a)
    requires Moves(a, b, Key(ch.table.value, ch.rowId), vk, kept, Wire(ch))
    ensures MemosFramed(q, b)
  {
    hide AllAllowed, RowsValid, Wire, MayActIn, IncomingProject;
    var k := Key(ch.table.value, ch.rowId);
    AllowedOf(q, ch);
    if k.table == Memos {
      assert Named(q, Memos, k.id);
      if k in b { ProjectAfter(q, a, b, ch, vk, kept); }
    }
    forall j: Key | j.table == Memos && !SameAt(q.rows, b, j) ensures Named(q, Memos, j.id) {
      if j != k { assert SameAt(a, b, j); }
    }
    forall j | j in b && j.table == Memos && Named(q, Memos, j.id) ensures MayWrite(q, StoredProject(b, j)) {
      if j != k { assert SameAt(a, b, j); }
    }
  }

  lemma MembersStayFramed(q: Request, a: Rows, b: Rows, ch: Change, vk: Key, kept: bool)
    requires Accepted(q) && MembersFramed(q, a) && ch in q.changes && ch.table.Some? && vk.table == MemoVersions
    requires RowsValid(a) && NoBlankParents(a)
    requires Moves(a, b, Key(ch.table.value, ch.rowId), vk, kept, Wire(ch))
    ensures MembersFramed(q, b)
  {
    hide AllAllowed, RowsValid, Wire, MayActIn, IncomingProject;
    var k := Key(ch.table.value, ch.rowId);
    AllowedOf(q, ch);
    if k.table == ProjectMembers {
      assert Named(q, ProjectMembers, k.id);
      if k in b { ProjectAfter(q, a, b, ch, vk, kept); }
    }
    forall j: Key | j.table == ProjectMembers && !SameAt(q.rows, b, j) ensures Named(q, ProjectMembers, j.id) {
      if j != k { assert SameAt(a, b, j); }
    }
    forall j | j in b && j.table == ProjectMembers && Named(q, ProjectMembers, j.id)
      ensures MayOwn(q, StoredProject(b, j))
    {
      if j != k { assert SameAt(a, b, j); }
    }
  }

  /** The memo a version hangs on after its own change is one the account may write to. */
  lemma VersionIsAnchored(q: Request, a: Rows, b: Rows, ch: Change, vk: Key)
    requires Accepted(q) && VersionsFramed(q, a) && MemosFramed(q, b) && ch in q.changes
             && ch.table == Some(MemoVersions)
    requires RowsValid(a) && NoBlankParents(a) && vk.table == MemoVersions
    requires Moves(a, b, Key(MemoVersions, ch.rowId), vk, false, Wire(ch)) && Key(MemoVersions, ch.rowId) in b
    ensures var k := Key(MemoVersions, ch.rowId); Get(b[k], MemoId).Text? && Anchored(q, Get(b[k], MemoId).s)
  {
    var k := Key(MemoVersions, ch.rowId);
    StoredHaveProject(b, k);
    var memo := Get(b[k], MemoId).s;
    AllowedOf(q, ch);
    if k in a && Get(b[k], MemoId) == Get(a[k], MemoId) {
      if SameAt(q.rows, a, k) {
        StoredHaveProject(q.rows, k);
        assert MayWrite(q, StoredProject(q.rows, Key(Memos, memo)));
      }
    } else {
      assert NonEmpty(Get(Wire(ch), MemoId)) == Some(memo);
      hide Wire, RowsValid, AllAllowed;
      LastRowIsOne(q.changes, Memos, memo);
      var mk := Key(Memos, memo);
      if LastRow(q.changes, Memos, memo).None? && mk in q.rows {
        StoredInRows(q, mk);
        assert IncomingProject(q.rows, q.changes, ch) == StoredProject(q.rows, mk);
      }
    }
  }

  lemma StoredInRows(q: Request, k: Key)
    requires Accepted(q) && k in q.rows
    ensures StoredProject(q.rows, k).Some?
  {
    StoredHaveProject(q.rows, k);
  }

  lemma VersionsStayFramed(q: Request, a: Rows, b: Rows, ch: Change, vk: Key, kept: bool)
    requires Accepted(q) && VersionsFramed(q, a) && MemosFramed(q, b) && ch in q.changes && ch.table.Some?
             && vk.table == MemoVersions
    requires RowsValid(a) && NoBlankParents(a)
    requires Moves(a, b, Key(ch.table.value, ch.rowId), vk, kept, Wire(ch))
    ensures VersionsFramed(q, b)
  {
    var k := Key(ch.table.value, ch.rowId);
    AllowedOf(q, ch);
    if k.table == MemoVersions {
      if k in b { VersionIsAnchored(q, a, b, ch, vk); }
      if k in q.rows { StoredInRows(q, k); }
    }
    hide AllAllowed, RowsValid, Wire, MayActIn, MemosFramed;
    assert kept ==> Named(q, Memos, k.id);
    forall j: Key | j.table == MemoVersions && !SameAt(q.rows, b, j)
      ensures j in q.rows ==> MayWrite(q, StoredProject(q.rows, j))
      ensures j in b ==> Get(b[j], MemoId).Text? && Anchored(q, Get(b[j], MemoId).s)
    {
      if j != k && !(kept && j == vk) { assert SameAt(a, b, j); }
    }
  }

  lemma StepStaysFramed(q: Request, x: Session, peer: Option<Peer>, p: Progress, ch: Change, d: Draw)
    requires Accepted(q) && x.applying && p.Running? && Framed(q, p.store.rows) && ch in q.changes && ch.table.Some?
    ensures var r := StepRow(x, peer, p, ch.table.value, ch, d); r.Running? ==> Framed(q, r.store.rows)
  {
    hide ApplyOne, EffectiveClock, Merge, PartOf, RefusedPart, Accepted, RowsValid, ProjectsFramed, MemosFramed,
      MembersFramed, VersionsFramed, Moves, Wire, NoBlankParents;
    var t := ch.table.value;
    var at := ApplyOne(x, p.store, t, ch, d);
    if at.Done? {
      var a, b, k, vk, kept := p.store.rows, at.store.rows, Key(t, ch.rowId), VersionKey(d), KeepsVersion(at.out);
      ApplyMoves(x, p.store, t, ch, d);
      ProjectsStayFramed(q, a, b, ch, vk, kept);
      MemosStayFramed(q, a, b, ch, vk, kept);
      MembersStayFramed(q, a, b, ch, vk, kept);
      VersionsStayFramed(q, a, b, ch, vk, kept);
      MovesValid(a, b, k, vk, kept, Wire(ch));
    }
  }

  lemma MovesValid(a: Rows, b: Rows, k: Key, vk: Key, kept: bool, wire: Row)
    requires Moves(a, b, k, vk, kept, wire)
    ensures RowsValid(b) && NoBlankParents(b)
  {
    hide RowsValid;
  }

  lemma {:induction false} FoldStaysFramed(
    q: Request, x: Session, peer: Option<Peer>, p: Progress, work: seq<Change>, draw: nat -> Draw)
    requires Accepted(q) && x.applying && p.Running? && Framed(q, p.store.rows)
    requires forall ch | ch in work :: ch.table.Some? && ch in q.changes
    ensures var r := Fold(x, peer, p, work, draw); r.Running? ==> Framed(q, r.store.rows)
  {
    hide StepRow, Framed, Accepted;
    if work != [] {
      var n := |work| - 1;
      FoldStaysFramed(q, x, peer, p, work[..n], draw);
      var b := Fold(x, peer, p, work[..n], draw);
      if b.Running? { StepStaysFramed(q, x, peer, b, work[n], draw(n)); }
    }
  }

  // ------------------------------------------------------------------
  // The theorem
  // ------------------------------------------------------------------

  predicate MayTouch(q: Request, t: Table, project: Option<Id>) {
    if t == Memos || t == MemoVersions then MayWrite(q, project) else MayOwn(q, project)
  }

  lemma FramedMeansBounded(q: Request, rows: Rows, k: Key)
    requires Accepted(q) && Framed(q, rows) && !SameAt(q.rows, rows, k)
    ensures k in q.rows ==> MayTouch(q, k.table, StoredProject(q.rows, k))
    ensures k in rows ==> MayTouch(q, k.table, StoredProject(rows, k))
  {
    StartIsFramed(q);
    if k in rows { StoredHaveProject(rows, k); }
    hide RowsValid, MayActIn, AllAllowed;
    if k.table == MemoVersions && k in rows {
      var mk := Key(Memos, Get(rows[k], MemoId).s);
      assert Anchored(q, mk.id) && mk in rows;
      if !Named(q, Memos, mk.id) { assert SameAt(q.rows, rows, mk); }
    }
  }

  /** If the batch is accepted, every row it then touches lay, and lies, in a project where the account held
      the role the table asks for, or in one the batch creates with the account as its owner. */
  lemma AcceptedBatchStaysInBounds(
    x: Session, peer: Option<Peer>, st: Store, receipts: Receipts, changes: seq<Change>, draw: nat -> Draw,
    account: Id, k: Key)
    requires x.applying && RowsValid(st.rows) && NoBlankParents(st.rows) && AllAllowed(st.rows, changes, account)
    requires var p := ApplyBatch(x, peer, st, receipts, changes, draw); p.Running? && !SameAt(st.rows, p.store.rows, k)
    ensures var q, now := Request(st.rows, changes, account),
            ApplyBatch(x, peer, st, receipts, changes, draw).store.rows;
            && (k in st.rows ==> MayTouch(q, k.table, StoredProject(st.rows, k)))
            && (k in now ==> MayTouch(q, k.table, StoredProject(now, k)))
  {
    hide RowsValid, AllAllowed, Fold, Having, RefuseAll, SameAt, MayTouch, Framed;
    var q := Request(st.rows, changes, account);
    StartIsFramed(q);
    FoldStaysFramed(q, x, peer, Running(st, receipts, RefuseAll(Having(changes, None))), Ordered(changes), draw);
    FramedMeansBounded(q, ApplyBatch(x, peer, st, receipts, changes, draw).store.rows, k);
  }

  /** A project the accepted batch brings into being belongs to the account. */
  lemma CreatedProjectIsOwned(
    x: Session, peer: Option<Peer>, st: Store, receipts: Receipts, changes: seq<Change>, draw: nat -> Draw,
    account: Id, k: Key)
    requires x.applying && RowsValid(st.rows) && NoBlankParents(st.rows) && AllAllowed(st.rows, changes, account)
    requires ApplyBatch(x, peer, st, receipts, changes, draw).Running? && k.table == Projects && k !in st.rows
    ensures var now := ApplyBatch(x, peer, st, receipts, changes, draw).store.rows;
            k in now ==> Get(now[k], OwnerId) == Text(account)
  {
    hide RowsValid, AllAllowed, Fold, Having, RefuseAll, MayOwn, MemosFramed, MembersFramed, VersionsFramed;
    var q := Request(st.rows, changes, account);
    StartIsFramed(q);
    FoldStaysFramed(q, x, peer, Running(st, receipts, RefuseAll(Having(changes, None))), Ordered(changes), draw);
  }

  /** The database an authorised batch may meet: its constraints hold, and nothing has an empty id. */
  predicate DatabaseOk(rows: Rows) {
    RowsValid(rows) && MembershipsDistinct(rows) && NoBlankParents(rows)
  }

  /** An accepted batch leaves a database the next one may meet. */
  lemma AcceptedBatchKeepsDatabase(
    x: Session, peer: Option<Peer>, st: Store, receipts: Receipts, changes: seq<Change>, draw: nat -> Draw, account: Id)
    requires x.applying && DatabaseOk(st.rows) && AllAllowed(st.rows, changes, account)
    ensures var p := ApplyBatch(x, peer, st, receipts, changes, draw); p.Running? ==> DatabaseOk(p.store.rows)
  {
    hide RowsValid, MembershipsDistinct, AllAllowed, Fold, Having, RefuseAll, ProjectsFramed, MemosFramed,
      MembersFramed, VersionsFramed;
    var q := Request(st.rows, changes, account);
    var start := Running(st, receipts, RefuseAll(Having(changes, None)));
    StartIsFramed(q);
    FoldStaysFramed(q, x, peer, start, Ordered(changes), draw);
    FoldKeepsMembershipsDistinct(x, peer, start, Ordered(changes), draw);
  }
}
