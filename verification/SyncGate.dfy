/** Which single pushes the endpoint's authorisation lets through, when every project is the account's own. */
module SyncGate {
  import opened SyncSchema
  import opened SyncStore
  import opened SyncApply
  import opened SyncBatch
  import opened TwoNode
  import opened SyncInvariants
  import SyncAuthorize
  import SyncAuthorizeProofs

  /** The parent of a change's row, when it names one that is not stored. */
  function Orphan(rows: Rows, ch: Change): Option<Key>
    requires ch.table.Some? && ch.row.Some?
  {
    MissingParentOf(rows, ch.table.value, ch.row.value)
  }

  /** The parent the change's row names, if any, is among the rows. */
  predicate TakesNow(rows: Rows, ch: Change) {
    ch.table.Some? && ch.row.Some? && Orphan(rows, ch).None?
  }

  /** The row of a child table names its parent. */
  predicate NamesParent(ch: Change) {
    && ch.table.Some? && ch.row.Some?
    && match ParentOf(ch.table.value)
       case None => true
       case Some(p) => Get(ch.row.value, p.column).Text? && Get(ch.row.value, p.column).s != ""
  }

  /** The endpoint refuses the change when it is pushed on its own. `gate` is the account it authorises for; a peer
      without authorisation has none. */
  predicate Forbids(gate: Option<Id>, rows: Rows, ch: Change) {
    gate.Some? && !SyncAuthorize.AllAllowed(rows, [ch], gate.value)
  }

  lemma OwnProjectIsOpen(w: World, rows: Rows, ch: Change, project: Id, roles: set<string>)
    requires NodeOk(w, rows) && Key(Projects, project) in rows && SyncAuthorize.OWNER in roles
    ensures SyncAuthorize.MayActIn(rows, [ch], w.account, project, roles)
  {
    hide RowsValid;
    assert RowOk(w, Key(Projects, project), rows[Key(Projects, project)]);
    assert SyncAuthorize.IsRole(rows, project, w.account, Some(SyncAuthorize.OWNER));
  }

  lemma NoSuchProject(rows: Rows, ch: Change, account: Id, project: Id, roles: set<string>)
    requires Key(Projects, project) !in rows && ch.table != Some(Projects)
    ensures !SyncAuthorize.MayActIn(rows, [ch], account, project, roles)
  {
    assert [ch][..0] == [];
    assert SyncAuthorize.LastRow([ch], Projects, project) == None;
  }

  /** A stored row belongs to a stored project. */
  lemma StoredIsInProject(w: World, rows: Rows, k: Key)
    requires NodeOk(w, rows) && k in rows
    ensures SyncAuthorize.StoredProject(rows, k).Some?
    ensures Key(Projects, SyncAuthorize.StoredProject(rows, k).value) in rows
  {
    NothingIsBlank(w, rows);
    hide RowOk, Columns;
    SyncAuthorizeProofs.StoredHaveProject(rows, k);
    assert ParentStored(rows, k.table, rows[k]);
    if k.table == MemoVersions {
      var mk := Key(Memos, Get(rows[k], MemoId).s);
      SyncAuthorizeProofs.StoredHaveProject(rows, mk);
      assert ParentStored(rows, mk.table, rows[mk]);
    }
  }

  lemma NothingIsBlank(w: World, rows: Rows)
    requires NodeOk(w, rows)
    ensures SyncAuthorizeProofs.NoBlankParents(rows)
  {
    hide RowsValid;
    assert forall k | k in rows :: RowOk(w, k, rows[k]);
  }

  lemma WireIsRow(w: World, ch: Change)
    requires WireOk(w, ch)
    ensures SyncAuthorize.Wire(ch) == ch.row.value && ch.rowId != ""
  {
    WholeRowReplaces(ch.table.value, ch.row.value, map[], 0);
  }

  lemma OnlyItself(rows: Rows, ch: Change, account: Id)
    requires ch.table.Some?
    ensures SyncAuthorize.AllAllowed(rows, [ch], account) <==> SyncAuthorize.Allowed(rows, [ch], account, ch)
  {
    assert ch in [ch];
  }

  lemma ProjectIsAllowed(w: World, rows: Rows, ch: Change)
    requires NodeOk(w, rows) && WireOk(w, ch) && ch.table == Some(Projects)
    ensures SyncAuthorize.AllAllowed(rows, [ch], w.account)
  {
    hide RowsValid, Columns;
    WireIsRow(w, ch);
    if KeyOf(ch) in rows {
      assert RowOk(w, KeyOf(ch), rows[KeyOf(ch)]);
      assert SyncAuthorize.IsRole(rows, ch.rowId, w.account, Some(SyncAuthorize.OWNER));
    }
  }

  /** A memo or a membership goes where its project is. */
  lemma ChildIsAllowed(w: World, rows: Rows, ch: Change)
    requires NodeOk(w, rows) && WireOk(w, ch) && NamesParent(ch)
    requires ch.table == Some(Memos) || ch.table == Some(ProjectMembers)
    ensures SyncAuthorize.AllAllowed(rows, [ch], w.account) <==> TakesNow(rows, ch)
  {
    hide NodeOk, RowOk, SyncAuthorize.MayActIn, SyncAuthorize.StoredProject, FilterRow;
    WireIsRow(w, ch);
    OnlyItself(rows, ch, w.account);
    var project := Get(ch.row.value, ProjectId).s;
    var roles := if ch.table == Some(Memos) then SyncAuthorize.WRITERS else SyncAuthorize.OWNERS;
    if Key(Projects, project) in rows {
      OwnProjectIsOpen(w, rows, ch, project, roles);
      if KeyOf(ch) in rows {
        StoredIsInProject(w, rows, KeyOf(ch));
        OwnProjectIsOpen(w, rows, ch, SyncAuthorize.StoredProject(rows, KeyOf(ch)).value, roles);
      } else {
        NotStored(rows, KeyOf(ch));
      }
    } else {
      NoSuchProject(rows, ch, w.account, project, roles);
    }
  }

  lemma NotStored(rows: Rows, k: Key)
    ensures k !in rows ==> SyncAuthorize.StoredProject(rows, k) == None
  {
  }

  lemma NoMemoInBatch(ch: Change, memo: Id)
    ensures ch.table != Some(Memos) ==> SyncAuthorize.LastRow([ch], Memos, memo) == None
  {
    assert [ch][..0] == [];
  }

  /** A version goes where its memo is, or, once stored, wherever it is stored. */
  lemma VersionIsAllowed(w: World, rows: Rows, ch: Change)
    requires NodeOk(w, rows) && WireOk(w, ch) && NamesParent(ch) && ch.table == Some(MemoVersions)
    ensures SyncAuthorize.AllAllowed(rows, [ch], w.account) <==> TakesNow(rows, ch) || KeyOf(ch) in rows
  {
    hide NodeOk, RowOk, SyncAuthorize.MayActIn, SyncAuthorize.StoredProject, FilterRow, SyncAuthorize.LastRow;
    WireIsRow(w, ch);
    OnlyItself(rows, ch, w.account);
    var mk := Key(Memos, Get(ch.row.value, MemoId).s);
    NoMemoInBatch(ch, mk.id);
    NotStored(rows, KeyOf(ch));
    NotStored(rows, mk);
    if mk in rows {
      StoredIsInProject(w, rows, mk);
      OwnProjectIsOpen(w, rows, ch, SyncAuthorize.StoredProject(rows, mk).value, SyncAuthorize.WRITERS);
    }
    if KeyOf(ch) in rows {
      StoredIsInProject(w, rows, KeyOf(ch));
      OwnProjectIsOpen(w, rows, ch, SyncAuthorize.StoredProject(rows, KeyOf(ch)).value, SyncAuthorize.WRITERS);
    }
  }

  /** Pushed on its own, a change whose parent the server lacks is refused, and no other is; but a version that the
      server already stores is let through to be deferred. */
  lemma OrphanPushIsForbidden(w: World, rows: Rows, ch: Change)
    requires NodeOk(w, rows) && WireOk(w, ch) && NamesParent(ch)
    ensures Forbids(Some(w.account), rows, ch)
            <==> !TakesNow(rows, ch) && !(ch.table == Some(MemoVersions) && KeyOf(ch) in rows)
  {
    hide NodeOk, RowOk, SyncAuthorize.AllAllowed, TakesNow;
    match ch.table.value {
      case Projects =>
        ProjectIsAllowed(w, rows, ch);
        assert TakesNow(rows, ch) by { RootsHaveNoParent(rows, ch); }
      case Memos => ChildIsAllowed(w, rows, ch);
      case ProjectMembers => ChildIsAllowed(w, rows, ch);
      case MemoVersions => VersionIsAllowed(w, rows, ch);
    }
  }

  lemma RootsHaveNoParent(rows: Rows, ch: Change)
    requires ch.table == Some(Projects) && ch.row.Some?
    ensures TakesNow(rows, ch)
  {
  }
}
