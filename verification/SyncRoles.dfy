/** Which role a push needs, said with the roles themselves on the owner and membership columns. */
module SyncRoles {
  import opened SyncSchema
  import opened SyncStore
  import opened SyncApply
  import opened SyncApplyProofs
  import opened SyncBatch
  import opened SyncEffectProofs
  import opened SyncVisibility
  import opened SyncAuthorize
  import opened SyncAuthorizeProofs

  /** The account has a membership of the project that is not deleted and has this role. */
  ghost predicate HasLiveRole(rows: Rows, project: Id, account: Id, role: string) {
    exists m :: m in rows && m.table == ProjectMembers && Get(rows[m], ProjectId) == Text(project)
                && Get(rows[m], UserId) == Text(account) && Get(rows[m], DeletedAt) == Null
                && Get(rows[m], Role) == Text(role)
  }

  ghost predicate IsOwner(rows: Rows, project: Id, account: Id) {
    Owns(rows, project, account) || HasLiveRole(rows, project, account, "owner")
  }

  ghost predicate IsEditor(rows: Rows, project: Id, account: Id) {
    IsOwner(rows, project, account) || HasLiveRole(rows, project, account, "editor")
  }

  lemma RoleIsLive(rows: Rows, project: Id, account: Id, role: string)
    requires Key(Projects, project) in rows && !Owns(rows, project, account)
    ensures IsRole(rows, project, account, Some(role)) <==> HasLiveRole(rows, project, account, role)
  {
    if HasLiveRole(rows, project, account, role) {
      var m :| m in rows && m.table == ProjectMembers && Get(rows[m], ProjectId) == Text(project)
               && Get(rows[m], UserId) == Text(account) && Get(rows[m], DeletedAt) == Null
               && Get(rows[m], Role) == Text(role);
      assert IsMembership(rows, m, project, account);
    }
  }

  /** In a stored project what the batch brings along counts for nothing: owners are its owner and the live members
      with the role "owner"; writers are these and the live members with the role "editor". */
  lemma RolesSuffice(rows: Rows, changes: seq<Change>, account: Id, project: Id)
    requires Key(Projects, project) in rows
    ensures MayActIn(rows, changes, account, project, OWNERS) <==> IsOwner(rows, project, account)
    ensures MayActIn(rows, changes, account, project, WRITERS) <==> IsEditor(rows, project, account)
  {
    hide IsRole, HasLiveRole;
    if Owns(rows, project, account) {
      assert IsRole(rows, project, account, Some("owner")) by { OwnerIsOwner(rows, project, account); }
    } else {
      RoleIsLive(rows, project, account, "owner");
      RoleIsLive(rows, project, account, "editor");
    }
  }

  lemma OwnerIsOwner(rows: Rows, project: Id, account: Id)
    requires Owns(rows, project, account)
    ensures IsRole(rows, project, account, Some("owner"))
  {
  }

  // ------------------------------------------------------------------
  // One change pushed on its own
  // ------------------------------------------------------------------

  /** The project is stored and the account may write to it, or for `owning` may change the project itself. */
  ghost predicate MayEdit(rows: Rows, project: Id, account: Id, owning: bool) {
    Key(Projects, project) in rows
    && if owning then IsOwner(rows, project, account) else IsEditor(rows, project, account)
  }

  lemma MayActMeans(rows: Rows, ch: Change, account: Id, project: Id)
    requires ch.table != Some(Projects)
    ensures MayActIn(rows, [ch], account, project, OWNERS) <==> MayEdit(rows, project, account, true)
    ensures MayActIn(rows, [ch], account, project, WRITERS) <==> MayEdit(rows, project, account, false)
  {
    hide IsOwner, IsEditor;
    assert [ch][..0] == [];
    assert LastRow([ch], Projects, project) == None;
    if Key(Projects, project) in rows { RolesSuffice(rows, [ch], account, project); }
  }

  lemma OnlyItself(rows: Rows, ch: Change, account: Id)
    requires ch.table.Some?
    ensures AllAllowed(rows, [ch], account) <==> Allowed(rows, [ch], account, ch)
  {
    assert ch in [ch];
  }

  /** A change to a stored project needs an owner, who may leave the owner column out but not fill in another. */
  lemma ProjectNeedsOwner(rows: Rows, ch: Change, account: Id)
    requires ch.table == Some(Projects) && ch.rowId != "" && Key(Projects, ch.rowId) in rows
    ensures AllAllowed(rows, [ch], account)
            <==> && IsOwner(rows, ch.rowId, account)
                 && (ch.row.Some? && Get(ch.row.value, OwnerId) != Null ==>
                       Get(ch.row.value, OwnerId) == Get(rows[Key(Projects, ch.rowId)], OwnerId))
  {
    hide IsOwner, IsRole;
    OnlyItself(rows, ch, account);
    RolesSuffice(rows, [], account, ch.rowId);
  }

  /** A new project has to name the account as its owner. */
  lemma NewProjectNeedsOwnName(rows: Rows, ch: Change, account: Id)
    requires ch.table == Some(Projects) && ch.rowId != "" && Key(Projects, ch.rowId) !in rows
    ensures AllAllowed(rows, [ch], account) <==> ch.row.Some? && Get(ch.row.value, OwnerId) == Text(account)
  {
    OnlyItself(rows, ch, account);
  }

  /** The project a memo or membership change puts its row into: the one it names, or else where the row is. */
  ghost predicate PutsInto(rows: Rows, ch: Change, project: Id)
    requires ch.table.Some?
  {
    var named := if ch.row.Some? then Get(ch.row.value, ProjectId) else Null;
    if named.Text? && named.s != "" then project == named.s
    else
      project != "" && Key(ch.table.value, ch.rowId) in rows
      && Get(rows[Key(ch.table.value, ch.rowId)], ProjectId) == Text(project)
  }

  /** A memo needs an editor or an owner where it is and where it goes, a membership an owner. */
  lemma ChildNeedsRole(rows: Rows, ch: Change, account: Id, project: Id)
    requires RowsValid(rows) && NoBlankParents(rows) && ch.rowId != ""
    requires ch.table == Some(Memos) || ch.table == Some(ProjectMembers)
    requires PutsInto(rows, ch, project)
    ensures var k := Key(ch.table.value, ch.rowId);
            AllAllowed(rows, [ch], account)
            <==> && MayEdit(rows, project, account, ch.table == Some(ProjectMembers))
                 && (forall p: Id | k in rows && Get(rows[k], ProjectId) == Text(p) ::
                       MayEdit(rows, p, account, ch.table == Some(ProjectMembers)))
  {
    hide RowsValid, NoBlankParents, MayActIn, MayEdit;
    var k := Key(ch.table.value, ch.rowId);
    OnlyItself(rows, ch, account);
    if k in rows { StoredHaveProject(rows, k); }
    forall p: Id
      ensures MayActIn(rows, [ch], account, p, OWNERS) <==> MayEdit(rows, p, account, true)
      ensures MayActIn(rows, [ch], account, p, WRITERS) <==> MayEdit(rows, p, account, false)
    {
      MayActMeans(rows, ch, account, p);
    }
    WireNames(ch);
    hide Wire;
  }

  lemma WireNames(ch: Change)
    requires ch.table.Some?
    ensures ch.table.value != Projects && ch.table.value != MemoVersions ==>
              Get(Wire(ch), ProjectId) == if ch.row.Some? then Get(ch.row.value, ProjectId) else Null
    ensures ch.table.value == MemoVersions ==>
              Get(Wire(ch), MemoId) == if ch.row.Some? then Get(ch.row.value, MemoId) else Null
  {
  }

  /** A version needs an editor or an owner of its memo's project, of the memo it hangs on and of the one it names. */
  lemma VersionNeedsRole(rows: Rows, ch: Change, account: Id)
    requires RowsValid(rows) && NoBlankParents(rows) && ch.rowId != "" && ch.table == Some(MemoVersions)
    ensures var k := Key(MemoVersions, ch.rowId);
            var named := if ch.row.Some? then Get(ch.row.value, MemoId) else Null;
            var mk := Key(Memos, if named.Text? then named.s else "");
            AllAllowed(rows, [ch], account)
            <==> && (k in rows || mk in rows)
                 && (forall p: Id | (k in rows && LiesIn(rows, k, p)) || (mk in rows && LiesIn(rows, mk, p)) ::
                       MayEdit(rows, p, account, false))
  {
    hide RowsValid, MayActIn, MayEdit;
    var k := Key(MemoVersions, ch.rowId);
    var named := if ch.row.Some? then Get(ch.row.value, MemoId) else Null;
    var mk := Key(Memos, if named.Text? then named.s else "");
    OnlyItself(rows, ch, account);
    WireNames(ch);
    hide Wire;
    assert [ch][..0] == [];
    assert LastRow([ch], Memos, mk.id) == None;
    forall p: Id ensures MayActIn(rows, [ch], account, p, WRITERS) <==> MayEdit(rows, p, account, false) {
      MayActMeans(rows, ch, account, p);
    }
    if k in rows { OneProject(rows, k); }
    if mk in rows { OneProject(rows, mk); }
    hide StoredProject, LiesIn;
  }

  lemma OneProject(rows: Rows, k: Key)
    requires RowsValid(rows) && NoBlankParents(rows) && k in rows
    ensures StoredProject(rows, k).Some?
    ensures forall p: Id :: LiesIn(rows, k, p) <==> StoredProject(rows, k) == Some(p)
  {
    StoredHaveProject(rows, k);
    hide RowsValid;
    if k.table == MemoVersions {
      StoredHaveProject(rows, Key(Memos, Get(rows[k], MemoId).s));
    }
  }

  // ------------------------------------------------------------------
  // What the batch itself brings along
  // ------------------------------------------------------------------

  /** The row the batch has for an id is the last one in it that is not empty. */
  lemma {:induction false} LastRowIsLast(changes: seq<Change>, t: Table, id: Id, i: nat)
    requires i < |changes| && changes[i].table == Some(t) && changes[i].rowId == id && Wire(changes[i]) != map[]
    requires forall j | i < j < |changes| ::
               !(changes[j].table == Some(t) && changes[j].rowId == id && Wire(changes[j]) != map[])
    ensures LastRow(changes, t, id) == Some(Wire(changes[i]))
  {
    hide Wire;
    if i < |changes| - 1 {
      LastRowIsLast(changes[..|changes| - 1], t, id, i);
    }
  }

  lemma OnlyRowIsLast(changes: seq<Change>, c: Change)
    requires c in changes && c.table.Some? && Wire(c) != map[]
    requires forall ch | ch in changes && ch.table == c.table && ch.rowId == c.rowId :: ch == c
    ensures LastRow(changes, c.table.value, c.rowId) == Some(Wire(c))
  {
    LastRowIsOne(changes, c.table.value, c.rowId);
  }

  lemma WireHas(ch: Change, c: Column, s: string)
    requires ch.table.Some? && c in Columns(ch.table.value) && ch.row.Some? && Get(ch.row.value, c) == Text(s)
    ensures Get(Wire(ch), c) == Text(s) && Wire(ch) != map[]
  {
    hide Columns;
    assert c in Wire(ch);
  }

  /** A new version of a memo that the batch moves to a stored project needs an editor or an owner there. */
  lemma VersionGoesWhereItsMemoGoes(rows: Rows, changes: seq<Change>, account: Id, ch: Change, mc: Change, project: Id)
    requires ch.table == Some(MemoVersions) && ch.rowId != "" && Key(MemoVersions, ch.rowId) !in rows
    requires ch.row.Some? && Get(ch.row.value, MemoId) == Text(mc.rowId) && mc.rowId != ""
    requires mc in changes && mc.table == Some(Memos) && mc.row.Some?
    requires Get(mc.row.value, ProjectId) == Text(project) && project != "" && Key(Projects, project) in rows
    requires forall other | other in changes && other.table == Some(Memos) && other.rowId == mc.rowId :: other == mc
    ensures Allowed(rows, changes, account, ch) <==> IsEditor(rows, project, account)
  {
    hide Wire, MayActIn, IsEditor, LastRow;
    WireHas(ch, MemoId, mc.rowId);
    WireHas(mc, ProjectId, project);
    OnlyRowIsLast(changes, mc);
    RolesSuffice(rows, changes, account, project);
  }

  /** A new project, a memo in it and a version of that memo, sent together in any order, are accepted exactly when
      the project names the account as its owner. */
  lemma NewTreeIsAccepted(rows: Rows, changes: seq<Change>, account: Id, pc: Change, mc: Change, vc: Change)
    requires pc in changes && mc in changes && vc in changes
    requires forall ch | ch in changes :: ch == pc || ch == mc || ch == vc
    requires pc.table == Some(Projects) && pc.rowId != "" && Key(Projects, pc.rowId) !in rows && pc.row.Some?
    requires mc.table == Some(Memos) && mc.rowId != "" && Key(Memos, mc.rowId) !in rows && mc.row.Some?
    requires vc.table == Some(MemoVersions) && vc.rowId != "" && Key(MemoVersions, vc.rowId) !in rows && vc.row.Some?
    requires Get(mc.row.value, ProjectId) == Text(pc.rowId) && Get(vc.row.value, MemoId) == Text(mc.rowId)
    ensures AllAllowed(rows, changes, account) <==> Get(pc.row.value, OwnerId) == Text(account)
  {
    ProjectOwnerOnWire(pc);
    WireHas(mc, ProjectId, pc.rowId);
    WireHas(vc, MemoId, mc.rowId);
    hide Wire, LastRow, HasRole;
    OnlyRowIsLast(changes, mc);
    if Get(pc.row.value, OwnerId) == Text(account) {
      WireHas(pc, OwnerId, account);
      OnlyRowIsLast(changes, pc);
      assert Allowed(rows, changes, account, pc);
      assert Allowed(rows, changes, account, mc);
      assert Allowed(rows, changes, account, vc);
    }
  }

  lemma ProjectOwnerOnWire(ch: Change)
    requires ch.table == Some(Projects) && ch.row.Some?
    ensures Get(Wire(ch), OwnerId) == Get(ch.row.value, OwnerId)
  {
  }

  // ------------------------------------------------------------------
  // A whole batch
  // ------------------------------------------------------------------

  /** What an accepted batch changes in a project that was stored before takes an owner, if it is the project or a
      membership, and an editor or an owner, if it is a memo or a version: where the row was and where it is now. */
  lemma AcceptedBatchNeedsRoles(
    x: Session, peer: Option<Peer>, st: Store, receipts: Receipts, changes: seq<Change>, draw: nat -> Draw,
    account: Id, k: Key, project: Id)
    requires x.applying && DatabaseOk(st.rows) && AllAllowed(st.rows, changes, account)
    requires Key(Projects, project) in st.rows
    requires var p := ApplyBatch(x, peer, st, receipts, changes, draw);
             && p.Running? && !SameAt(st.rows, p.store.rows, k)
             && ((k in st.rows && LiesIn(st.rows, k, project))
                || (k in p.store.rows && LiesIn(p.store.rows, k, project)))
    ensures if k.table == Memos || k.table == MemoVersions then IsEditor(st.rows, project, account)
            else IsOwner(st.rows, project, account)
  {
    hide RowsValid, AllAllowed, ApplyBatch, SameAt, LiesIn, MayActIn, IsOwner, IsEditor, MembershipsDistinct;
    var now := ApplyBatch(x, peer, st, receipts, changes, draw).store.rows;
    AcceptedBatchStaysInBounds(x, peer, st, receipts, changes, draw, account, k);
    AcceptedBatchKeepsDatabase(x, peer, st, receipts, changes, draw, account);
    RolesSuffice(st.rows, changes, account, project);
    if k in st.rows { OneProject(st.rows, k); }
    if k in now { OneProject(now, k); }
  }

  /** A batch with an account that is neither owner nor editor of a stored project leaves everything in it alone. */
  lemma OutsidersChangeNothing(
    x: Session, peer: Option<Peer>, st: Store, receipts: Receipts, changes: seq<Change>, draw: nat -> Draw,
    account: Id, k: Key, project: Id)
    requires x.applying && DatabaseOk(st.rows) && AllAllowed(st.rows, changes, account)
    requires ApplyBatch(x, peer, st, receipts, changes, draw).Running?
    requires Key(Projects, project) in st.rows && Get(st.rows[Key(Projects, project)], OwnerId) != Text(account)
    requires forall m | m in st.rows && m.table == ProjectMembers && Get(st.rows[m], ProjectId) == Text(project)
                        && Get(st.rows[m], UserId) == Text(account) && Get(st.rows[m], DeletedAt) == Null ::
               Get(st.rows[m], Role) != Text("owner") && Get(st.rows[m], Role) != Text("editor")
    ensures var now := ApplyBatch(x, peer, st, receipts, changes, draw).store.rows;
            && (k in st.rows && LiesIn(st.rows, k, project) ==> k in now && now[k] == st.rows[k])
            && (k in now && LiesIn(now, k, project) ==> k in st.rows && now[k] == st.rows[k])
  {
    hide DatabaseOk, AllAllowed, ApplyBatch, LiesIn;
    var now := ApplyBatch(x, peer, st, receipts, changes, draw).store.rows;
    if !SameAt(st.rows, now, k)
      && ((k in st.rows && LiesIn(st.rows, k, project)) || (k in now && LiesIn(now, k, project))) {
      AcceptedBatchNeedsRoles(x, peer, st, receipts, changes, draw, account, k, project);
      assert false;
    }
  }

  // ------------------------------------------------------------------
  // Owners
  // ------------------------------------------------------------------

  ghost predicate OwnerStays(was: Rows, now: Rows, pk: Key) {
    pk in was && pk in now && (Get(now[pk], OwnerId) == Get(was[pk], OwnerId) || Get(now[pk], OwnerId) == Null)
  }

  lemma StepKeepsOwner(q: Request, x: Session, peer: Option<Peer>, p: Progress, ch: Change, d: Draw, pk: Key)
    requires Accepted(q) && x.applying && p.Running? && RowsValid(p.store.rows) && NoBlankParents(p.store.rows)
    requires ch in q.changes && ch.table.Some? && pk.table == Projects && OwnerStays(q.rows, p.store.rows, pk)
    ensures var r := StepRow(x, peer, p, ch.table.value, ch, d);
            r.Running? ==>
                RowsValid(r.store.rows) && NoBlankParents(r.store.rows) && OwnerStays(q.rows, r.store.rows, pk)
  {
    hide ApplyOne, EffectiveClock, Merge, PartOf, RefusedPart, Accepted, RowsValid, Wire, NoBlankParents, Moves;
    var t := ch.table.value;
    var at := ApplyOne(x, p.store, t, ch, d);
    if at.Done? {
      ApplyMoves(x, p.store, t, ch, d);
      if Key(t, ch.rowId) == pk { OwnerColumnIsChecked(q, ch); }
      MoveKeepsOwner(q, p.store.rows, at.store.rows, Key(t, ch.rowId), VersionKey(d), KeepsVersion(at.out), Wire(ch),
        pk);
      MovesValid(p.store.rows, at.store.rows, Key(t, ch.rowId), VersionKey(d), KeepsVersion(at.out), Wire(ch));
    }
  }

  lemma MoveKeepsOwner(q: Request, a: Rows, b: Rows, k: Key, vk: Key, kept: bool, wire: Row, pk: Key)
    requires Moves(a, b, k, vk, kept, wire) && vk.table == MemoVersions && pk.table == Projects
    requires OwnerStays(q.rows, a, pk)
    requires k == pk ==> Get(wire, OwnerId) == Null || Get(wire, OwnerId) == Get(q.rows[pk], OwnerId)
    ensures OwnerStays(q.rows, b, pk)
  {
    hide RowsValid;
    if k != pk { assert SameAt(a, b, pk); }
  }

  lemma OwnerColumnIsChecked(q: Request, ch: Change)
    requires Accepted(q) && ch in q.changes && ch.table == Some(Projects) && Key(Projects, ch.rowId) in q.rows
    ensures Get(Wire(ch), OwnerId) == Null || Get(Wire(ch), OwnerId) == Get(q.rows[Key(Projects, ch.rowId)], OwnerId)
  {
    hide RowsValid, Wire, IsRole, AllAllowed;
    AllowedOf(q, ch);
  }

  lemma {:induction false} FoldKeepsOwner(
    q: Request, x: Session, peer: Option<Peer>, p: Progress, work: seq<Change>, draw: nat -> Draw, pk: Key)
    requires Accepted(q) && x.applying && p.Running? && RowsValid(p.store.rows) && NoBlankParents(p.store.rows)
    requires pk.table == Projects && OwnerStays(q.rows, p.store.rows, pk)
    requires forall ch | ch in work :: ch.table.Some? && ch in q.changes
    ensures var r := Fold(x, peer, p, work, draw);
            r.Running? ==>
                RowsValid(r.store.rows) && NoBlankParents(r.store.rows) && OwnerStays(q.rows, r.store.rows, pk)
  {
    hide StepRow, OwnerStays, Accepted, RowsValid, NoBlankParents;
    if work != [] {
      var n := |work| - 1;
      FoldKeepsOwner(q, x, peer, p, work[..n], draw, pk);
      var b := Fold(x, peer, p, work[..n], draw);
      if b.Running? { StepKeepsOwner(q, x, peer, b, work[n], draw(n), pk); }
    }
  }

  /** No accepted batch hands a stored project to another account: its owner column stays, or is emptied. */
  lemma ProjectsAreNotHandedOver(
    x: Session, peer: Option<Peer>, st: Store, receipts: Receipts, changes: seq<Change>, draw: nat -> Draw,
    account: Id, pk: Key)
    requires x.applying && DatabaseOk(st.rows) && AllAllowed(st.rows, changes, account)
    requires ApplyBatch(x, peer, st, receipts, changes, draw).Running? && pk.table == Projects && pk in st.rows
    ensures var now := ApplyBatch(x, peer, st, receipts, changes, draw).store.rows;
            pk in now && (Get(now[pk], OwnerId) == Get(st.rows[pk], OwnerId) || Get(now[pk], OwnerId) == Null)
  {
    hide RowsValid, MembershipsDistinct, AllAllowed, Fold, Having, RefuseAll, NoBlankParents;
    var q := Request(st.rows, changes, account);
    FoldKeepsOwner(q, x, peer, Running(st, receipts, RefuseAll(Having(changes, None))), Ordered(changes), draw, pk);
  }
}
