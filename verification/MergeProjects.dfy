/** Merging projects: memos move over, members are united, the loser and its memberships are tombstoned. */
module MergeProjects {
  import opened SyncSchema
  import opened SyncStore
  import opened SyncFeedProofs
  import opened SyncNode
  import opened Merge

  datatype ProjectReport = ProjectReport(movedMemos: nat, mergedMembers: nat)

  function LiveMembers(rows: Rows, project: Id): set<Key> {
    set k | k in rows && IsLiveMember(rows, k, project)
  }

  function LiveUsers(rows: Rows, project: Id): set<Value> {
    set k | k in LiveMembers(rows, project) :: Get(rows[k], UserId)
  }

  /** Members of the loser whose users are no live members of the winner. */
  function NewMembers(rows: Rows, loser: Id, winner: Id): set<Key> {
    set k | k in LiveMembers(rows, loser) && Get(rows[k], UserId) !in LiveUsers(rows, winner)
  }

  function MemosOf(rows: Rows, project: Id): set<Key> {
    set k | k in rows && k.table == Memos && Get(rows[k], ProjectId) == Text(project)
  }

  function Reparented(row: Row, project: Id, now: int): Row {
    row[ProjectId := Text(project)][UpdatedAtUtc := Num(now)]
  }

  /** A membership of the winner made from one of the loser. */
  function CopiedMember(row: Row, project: Id, now: int): Row {
    map[ProjectId := Text(project), UserId := Get(row, UserId), Username := Get(row, Username),
        DisplayName := Get(row, DisplayName), Email := Get(row, Email), Role := Get(row, Role),
        InvitedAt := Get(row, InvitedAt), UpdatedAtUtc := Num(now), DeletedAt := Null]
  }

  function Revived(row: Row, from: Row, now: int): Row {
    row[DeletedAt := Null][Role := Get(from, Role)][Username := Get(from, Username)]
       [DisplayName := Get(from, DisplayName)][Email := Get(from, Email)][UpdatedAtUtc := Num(now)]
  }

  // ------------------------------------------------------------------
  // One membership
  // ------------------------------------------------------------------

  /** The same user by the same names, with the same role. */
  ghost predicate Follows(row: Row, from: Row) {
    && Get(row, UserId) == Get(from, UserId) && Get(row, Role) == Get(from, Role)
    && Get(row, Username) == Get(from, Username) && Get(row, DisplayName) == Get(from, DisplayName)
    && Get(row, Email) == Get(from, Email)
  }

  /** A row that makes the user of `from` a live member of the winner with the same role. */
  ghost predicate Admits(row: Row, from: Row, winner: Id) {
    Get(row, ProjectId) == Text(winner) && Get(row, DeletedAt) == Null && Follows(row, from)
  }

  /** `t` is where the winner's membership of this user goes: nowhere yet, or in its tombstone. */
  predicate IsSlot(rows: Rows, t: Key, user: Value, winner: Id) {
    && t.table == ProjectMembers
    && if t in rows then
         IsMember(rows, t, winner) && Get(rows[t], UserId) == user && Get(rows[t], DeletedAt) != Null
       else forall k | k in rows && IsMember(rows, k, winner) :: Get(rows[k], UserId) != user
  }

  /** What has happened to the members when those in `todo` are still to be moved. */
  ghost predicate MembersFrame(mid: Rows, rows: Rows, loser: Id, winner: Id, todo: set<Key>) {
    && todo <= LiveMembers(mid, loser)
    && (forall k | k in mid :: k in rows)
    && (forall k | k in rows && k.table != ProjectMembers :: k in mid && rows[k] == mid[k])
    && (forall k | k in rows && k.table == ProjectMembers && k !in mid :: Get(rows[k], ProjectId) == Text(winner))
    && (forall k | k in mid && k.table == ProjectMembers ::
          Get(rows[k], ProjectId) == Get(mid[k], ProjectId) && Get(rows[k], UserId) == Get(mid[k], UserId))
    && (forall k | k in mid && k.table == ProjectMembers && !IsMember(mid, k, loser) && !IsMember(mid, k, winner) ::
          rows[k] == mid[k])
    && (forall k | k in todo :: rows[k] == mid[k])
    && (forall k | k in mid && IsMember(mid, k, loser) && k !in todo :: Get(rows[k], DeletedAt) != Null)
    && (forall k | k in mid && IsLiveMember(mid, k, winner) :: rows[k] == mid[k])
  }

  /** The moved user is a live member of the winner now, with the loser's role unless it was one before. */
  ghost predicate Taken(mid: Rows, rows: Rows, winner: Id, m: Key)
    requires m in mid
  {
    exists k ::
      && k in rows && IsLiveMember(rows, k, winner) && Get(rows[k], UserId) == Get(mid[m], UserId)
      && (IsLiveMember(mid, k, winner) || Get(rows[k], Role) == Get(mid[m], Role))
  }

  ghost predicate AllTaken(mid: Rows, rows: Rows, loser: Id, winner: Id, todo: set<Key>) {
    forall m | m in LiveMembers(mid, loser) && m !in todo :: Taken(mid, rows, winner, m)
  }

  /** Every live member of the winner was one before or is a moved user with the loser's role. */
  ghost predicate Justified(mid: Rows, rows: Rows, loser: Id, winner: Id, todo: set<Key>, k: Key)
    requires k in rows
  {
    || IsLiveMember(mid, k, winner)
    || exists m :: m in LiveMembers(mid, loser) && m !in todo && Follows(rows[k], mid[m])
  }

  ghost predicate AllJustified(mid: Rows, rows: Rows, loser: Id, winner: Id, todo: set<Key>) {
    forall k | k in rows && IsLiveMember(rows, k, winner) :: Justified(mid, rows, loser, winner, todo, k)
  }

  ghost predicate MovedSoFar(mid: Rows, rows: Rows, loser: Id, winner: Id, todo: set<Key>) {
    && MembersFrame(mid, rows, loser, winner, todo)
    && AllTaken(mid, rows, loser, winner, todo)
    && AllJustified(mid, rows, loser, winner, todo)
    && MembershipsDistinct(rows)
  }

  /** Closing a membership: same project, same user, not live. */
  predicate Closes(row: Row, was: Row) {
    Get(row, ProjectId) == Get(was, ProjectId) && Get(row, UserId) == Get(was, UserId) && Get(row, DeletedAt) != Null
  }

  lemma TombstoneCloses(row: Row, now: int)
    ensures Closes(Tombstone(row, now), row)
  {
  }

  lemma CopyAdmits(from: Row, winner: Id, now: int)
    ensures Admits(CopiedMember(from, winner, now), from, winner)
    ensures Get(CopiedMember(from, winner, now), UpdatedAtUtc) == Num(now)
    ensures Get(CopiedMember(from, winner, now), InvitedAt) == Get(from, InvitedAt)
  {
  }

  lemma RevivalAdmits(row: Row, from: Row, winner: Id, now: int)
    requires Get(row, ProjectId) == Text(winner) && Get(row, UserId) == Get(from, UserId)
    ensures Admits(Revived(row, from, now), from, winner)
    ensures Get(Revived(row, from, now), UpdatedAtUtc) == Num(now)
    ensures Get(Revived(row, from, now), InvitedAt) == Get(row, InvitedAt)
  {
  }

  lemma CloseKeepsFrame(mid: Rows, rows: Rows, loser: Id, winner: Id, todo: set<Key>, m: Key, row: Row)
    requires loser != winner && m in todo && MembersFrame(mid, rows, loser, winner, todo) && Closes(row, rows[m])
    ensures MembersFrame(mid, rows[m := row], loser, winner, todo - {m})
  {
    assert m in LiveMembers(mid, loser);
    assert rows[m] == mid[m];
  }

  lemma SlotKeepsFrame(mid: Rows, rows: Rows, loser: Id, winner: Id, todo: set<Key>, t: Key, user: Value, row: Row)
    requires loser != winner && MembersFrame(mid, rows, loser, winner, todo)
    requires IsSlot(rows, t, user, winner) && Get(row, ProjectId) == Text(winner) && Get(row, UserId) == user
    ensures MembersFrame(mid, rows[t := row], loser, winner, todo)
  {
    if t in mid {
      assert IsMember(mid, t, winner) && !IsMember(mid, t, loser);
      assert !IsLiveMember(mid, t, winner);
    }
  }

  lemma CloseKeepsDistinct(rows: Rows, m: Key, row: Row)
    requires MembershipsDistinct(rows) && m in rows && Closes(row, rows[m])
    ensures MembershipsDistinct(rows[m := row])
  {
  }

  lemma SlotKeepsDistinct(rows: Rows, t: Key, user: Value, winner: Id, row: Row)
    requires MembershipsDistinct(rows) && IsSlot(rows, t, user, winner)
    requires Get(row, ProjectId) == Text(winner) && Get(row, UserId) == user
    ensures MembershipsDistinct(rows[t := row])
  {
    forall k, j | k in rows[t := row] && j in rows[t := row] && k.table == ProjectMembers && j.table == ProjectMembers
      && j != k
      ensures Get(rows[t := row][j], ProjectId) != Get(rows[t := row][k], ProjectId)
              || Get(rows[t := row][j], UserId) != Get(rows[t := row][k], UserId)
    {
      if k != t && j != t { assert MembershipUnique(rows, k, rows[k]); }
      if t in rows { assert MembershipUnique(rows, t, rows[t]); }
    }
  }

  /** A live member of the winner that stays as it is still takes in whoever it took in. */
  lemma TakenStays(mid: Rows, rows: Rows, next: Rows, winner: Id, m: Key)
    requires m in mid && Taken(mid, rows, winner, m)
    requires forall k | k in rows && IsLiveMember(rows, k, winner) :: k in next && next[k] == rows[k]
    ensures Taken(mid, next, winner, m)
  {
    var k :| k in rows && IsLiveMember(rows, k, winner) && Get(rows[k], UserId) == Get(mid[m], UserId)
             && (IsLiveMember(mid, k, winner) || Get(rows[k], Role) == Get(mid[m], Role));
    assert IsLiveMember(next, k, winner);
  }

  lemma JustifiedStays(mid: Rows, rows: Rows, next: Rows, loser: Id, winner: Id, todo: set<Key>, rest: set<Key>, k: Key)
    requires k in rows && k in next && next[k] == rows[k] && rest <= todo
    requires Justified(mid, rows, loser, winner, todo, k)
    ensures Justified(mid, next, loser, winner, rest, k)
  {
  }

  /** Members of the loser have different users. */
  lemma LoserUsersDiffer(mid: Rows, rows: Rows, loser: Id, winner: Id, todo: set<Key>, a: Key, b: Key)
    requires MembersFrame(mid, rows, loser, winner, todo) && MembershipsDistinct(rows)
    requires a in LiveMembers(mid, loser) && b in LiveMembers(mid, loser) && a != b
    ensures Get(mid[a], UserId) != Get(mid[b], UserId)
  {
    assert MembershipUnique(rows, a, rows[a]);
  }

  /** A live member of the winner with the user of a member still to be moved was one from the start. */
  lemma WasMember(mid: Rows, rows: Rows, loser: Id, winner: Id, todo: set<Key>, m: Key, k: Key)
    requires m in todo && MovedSoFar(mid, rows, loser, winner, todo) && m in rows
    requires k in rows && IsLiveMember(rows, k, winner) && Get(rows[k], UserId) == Get(rows[m], UserId)
    ensures m in LiveMembers(mid, loser) && rows[m] == mid[m] && IsLiveMember(mid, k, winner)
    ensures Taken(mid, rows, winner, m)
  {
    assert m in LiveMembers(mid, loser) && rows[m] == mid[m];
    assert Justified(mid, rows, loser, winner, todo, k);
    forall o | o in LiveMembers(mid, loser) && o !in todo ensures Get(mid[o], UserId) != Get(mid[m], UserId) {
      LoserUsersDiffer(mid, rows, loser, winner, todo, m, o);
    }
  }

  /** The user is a live member of the winner already: only the loser's membership is closed. */
  lemma AlreadyMember(mid: Rows, rows: Rows, loser: Id, winner: Id, todo: set<Key>, m: Key, k: Key, row: Row)
    requires loser != winner && m in todo && MovedSoFar(mid, rows, loser, winner, todo) && m in rows
             && Closes(row, rows[m])
    requires k in rows && IsLiveMember(rows, k, winner) && Get(rows[k], UserId) == Get(rows[m], UserId)
    ensures MovedSoFar(mid, rows[m := row], loser, winner, todo - {m})
  {
    hide Taken, MembersFrame, MembershipsDistinct, Justified;
    var next, rest := rows[m := row], todo - {m};
    WasMember(mid, rows, loser, winner, todo, m, k);
    CloseKeepsFrame(mid, rows, loser, winner, todo, m, row);
    CloseKeepsDistinct(rows, m, row);
    assert !IsMember(rows, m, winner) && !IsMember(next, m, winner);
    forall o | o in LiveMembers(mid, loser) && o !in rest ensures Taken(mid, next, winner, o) {
      TakenStays(mid, rows, next, winner, o);
    }
    forall j | j in next && IsLiveMember(next, j, winner) ensures Justified(mid, next, loser, winner, rest, j) {
      JustifiedStays(mid, rows, next, loser, winner, todo, rest, j);
    }
  }

  /** A member still to be moved is new to the winner unless the winner has a live member with its user. */
  lemma WhoIsNew(mid: Rows, rows: Rows, loser: Id, winner: Id, todo: set<Key>, m: Key, target: Option<Key>)
    requires m in todo && MovedSoFar(mid, rows, loser, winner, todo) && m in rows
    requires target.Some? ==>
               IsMember(rows, target.value, winner) && Get(rows[target.value], UserId) == Get(rows[m], UserId)
    requires target.None? ==>
               forall k | k in rows && IsMember(rows, k, winner) :: Get(rows[k], UserId) != Get(rows[m], UserId)
    ensures m in NewMembers(mid, loser, winner) <==> target.None? || Get(rows[target.value], DeletedAt) != Null
  {
    hide AllTaken, AllJustified;
    assert m in LiveMembers(mid, loser) && rows[m] == mid[m];
    if Get(mid[m], UserId) in LiveUsers(mid, winner) {
      var k :| k in LiveMembers(mid, winner) && Get(mid[k], UserId) == Get(mid[m], UserId);
      assert k in rows && rows[k] == mid[k];
      assert MembershipUnique(rows, k, rows[k]);
      assert target == Some(k);
    } else if target.Some? && Get(rows[target.value], DeletedAt) == Null {
      WasLive(mid, rows, loser, winner, todo, m, target.value);
    }
  }

  lemma WasLive(mid: Rows, rows: Rows, loser: Id, winner: Id, todo: set<Key>, m: Key, k: Key)
    requires m in todo && MovedSoFar(mid, rows, loser, winner, todo) && m in rows
    requires k in rows && IsLiveMember(rows, k, winner) && Get(rows[k], UserId) == Get(rows[m], UserId)
    ensures Get(mid[m], UserId) in LiveUsers(mid, winner)
  {
    WasMember(mid, rows, loser, winner, todo, m, k);
    assert k in LiveMembers(mid, winner);
  }

  lemma NewAreLive(rows: Rows, loser: Id, winner: Id)
    ensures NewMembers(rows, loser, winner) <= LiveMembers(rows, loser)
  {
    hide LiveMembers;
  }

  lemma SlotIsElsewhere(mid: Rows, rows: Rows, loser: Id, winner: Id, todo: set<Key>, m: Key, t: Key, user: Value)
    requires loser != winner && m in todo && MembersFrame(mid, rows, loser, winner, todo)
             && IsSlot(rows, t, user, winner)
    ensures m in rows && m in LiveMembers(mid, loser) && rows[m] == mid[m] && m != t
    ensures t.table == ProjectMembers && !IsLiveMember(rows, t, winner) && !IsLiveMember(rows, m, winner)
  {
    assert m in LiveMembers(mid, loser);
  }

  lemma AdmittedFrame(
    mid: Rows, rows: Rows, loser: Id, winner: Id, todo: set<Key>, m: Key, t: Key, admitted: Row, row: Row)
    requires loser != winner && m in todo && MembersFrame(mid, rows, loser, winner, todo) && MembershipsDistinct(rows)
    requires m in rows && m != t && Closes(row, rows[m])
    requires IsSlot(rows, t, Get(rows[m], UserId), winner) && Admits(admitted, rows[m], winner)
    ensures var next := rows[t := admitted][m := row];
            MembersFrame(mid, next, loser, winner, todo - {m}) && MembershipsDistinct(next)
  {
    hide MembersFrame, MembershipsDistinct, IsSlot, Closes;
    var user := Get(rows[m], UserId);
    SlotKeepsFrame(mid, rows, loser, winner, todo, t, user, admitted);
    CloseKeepsFrame(mid, rows[t := admitted], loser, winner, todo, m, row);
    SlotKeepsDistinct(rows, t, user, winner, admitted);
    CloseKeepsDistinct(rows[t := admitted], m, row);
  }

  /** The user is admitted into a slot of the winner, with the loser's role, and the loser's membership is
      closed. */
  lemma Admitted(mid: Rows, rows: Rows, loser: Id, winner: Id, todo: set<Key>, m: Key, t: Key, admitted: Row, row: Row)
    requires loser != winner && m in todo && MovedSoFar(mid, rows, loser, winner, todo)
    requires m in rows && Closes(row, rows[m])
    requires IsSlot(rows, t, Get(rows[m], UserId), winner) && Admits(admitted, rows[m], winner)
    ensures m != t && MovedSoFar(mid, rows[t := admitted][m := row], loser, winner, todo - {m})
  {
    hide MembersFrame, MembershipsDistinct, Justified, Taken, IsSlot;
    var next, rest := rows[t := admitted][m := row], todo - {m};
    SlotIsElsewhere(mid, rows, loser, winner, todo, m, t, Get(rows[m], UserId));
    AdmittedFrame(mid, rows, loser, winner, todo, m, t, admitted, row);
    IsTakenIn(mid, next, loser, winner, rest, m, t);
    forall o | o in LiveMembers(mid, loser) && o !in rest ensures Taken(mid, next, winner, o) {
      if o != m { TakenStays(mid, rows, next, winner, o); }
    }
    forall j | j in next && IsLiveMember(next, j, winner) ensures Justified(mid, next, loser, winner, rest, j) {
      if j != t { JustifiedStays(mid, rows, next, loser, winner, todo, rest, j); }
    }
  }

  lemma IsTakenIn(mid: Rows, next: Rows, loser: Id, winner: Id, rest: set<Key>, m: Key, t: Key)
    requires m in LiveMembers(mid, loser) && m !in rest && t in next && IsLiveMember(next, t, winner)
    requires Follows(next[t], mid[m])
    ensures Taken(mid, next, winner, m) && Justified(mid, next, loser, winner, rest, t)
  {
  }

  lemma NothingMoved(mid: Rows, loser: Id, winner: Id)
    requires MembershipsDistinct(mid) && loser != winner
    ensures MovedSoFar(mid, mid, loser, winner, LiveMembers(mid, loser))
  {
  }

  // ------------------------------------------------------------------
  // The merge
  // ------------------------------------------------------------------

  /** The memos of the loser, live or not, belong to the winner; nothing else changed. */
  ghost predicate MemosMoved(was: Rows, now: Rows, loser: Id, winner: Id, done: set<Key>, clock: int) {
    && now.Keys == was.Keys
    && (forall k | k in was :: now[k] == if k in done then Reparented(was[k], winner, clock) else was[k])
  }

  class ProjectMergeService {
    const db: Node

    constructor (node: Node)
      ensures db == node
    {
      db := node;
    }

    method ReparentMemos(loser: Id, winner: Id, now: int) returns (moved: nat)
      requires !db.applying
      modifies db
      ensures !db.applying && |old(db.log)| <= |db.log|
      ensures MemosMoved(old(db.rows), db.rows, loser, winner, MemosOf(old(db.rows), loser), now)
      ensures Stamped(old(db.rows), db.rows, now)
      ensures ChangesLogged(old(db.rows), db.rows, db.log, |old(db.log)|)
      ensures moved == |MemosOf(old(db.rows), loser)|
      ensures loser != winner ==>
                forall k | k in db.rows && k.table == Memos :: Get(db.rows[k], ProjectId) != Text(loser)
    {
      hide ChangesLogged, Reparented, Stamped;
      ghost var was, from := db.rows, |db.log|;
      NothingLogged(was, db.log);
      NothingStamped(was, now);
      var todo := MemosOf(db.rows, loser);
      moved := |todo|;
      ghost var all := todo;
      while todo != {}
        invariant todo <= all && !db.applying && from <= |db.log|
        invariant MemosMoved(was, db.rows, loser, winner, all - todo, now)
        invariant ChangesLogged(was, db.rows, db.log, from) && Stamped(was, db.rows, now)
        decreases todo
      {
        var k :| k in todo;
        var row := Reparented(db.rows[k], winner, now);
        ReparentedIsStamped(db.rows[k], winner, now);
        WriteIsStamped(was, db.rows, k, row, now);
        WriteIsLogged(was, db.rows, db.log, from, k, row, Update);
        db.Write(k, row);
        todo := todo - {k};
      }
      assert all - todo == all;
      if loser != winner { NoneLeft(was, db.rows, loser, winner, now); }
    }

    method FindMember(project: Id, user: Value) returns (found: Option<Key>)
      ensures found.Some? ==> IsMember(db.rows, found.value, project) && Get(db.rows[found.value], UserId) == user
      ensures found.None? ==>
                forall k | k in db.rows && IsMember(db.rows, k, project) :: Get(db.rows[k], UserId) != user
    {
      var hits := set k | k in db.rows && IsMember(db.rows, k, project) && Get(db.rows[k], UserId) == user;
      if hits == {} {
        assert forall k | k in db.rows && IsMember(db.rows, k, project) && Get(db.rows[k], UserId) == user :: k in hits;
        return None;
      }
      var k :| k in hits;
      return Some(k);
    }

    /** One membership; `failed` when the generated id is taken. */
    method MoveMember(
      m: Key, loser: Id, winner: Id, newId: Id, now: int, ghost mid: Rows, ghost todo: set<Key>, ghost from: nat,
      ghost was: Rows)
      returns (failed: bool, merged: nat)
      requires !db.applying && loser != winner && m in todo && MovedSoFar(mid, db.rows, loser, winner, todo)
      requires from <= |db.log| && ChangesLogged(was, db.rows, db.log, from) && Stamped(was, db.rows, now)
      modifies db
      ensures !db.applying
      ensures !failed ==> MovedSoFar(mid, db.rows, loser, winner, todo - {m}) && Stamped(was, db.rows, now)
      ensures !failed ==> merged == if m in NewMembers(mid, loser, winner) then 1 else 0
      ensures !failed ==> from <= |db.log| && ChangesLogged(was, db.rows, db.log, from)
    {
      hide ChangesLogged, MovedSoFar, NewMembers, Stamped, CopiedMember, Revived, Tombstone, Closes, Admits;
      MemberInRows(mid, db.rows, loser, winner, todo, m);
      failed, merged := false, 0;
      ghost var rows := db.rows;
      var member := db.rows[m];
      var closed := Tombstone(member, now);
      TombstoneCloses(member, now);
      TombstoneIsStamped(member, now);
      var target := FindMember(winner, Get(member, UserId));
      WhoIsNew(mid, rows, loser, winner, todo, m, target);
      if target.None? {
        var t := Key(ProjectMembers, newId);
        if t in db.rows {
          return true, 0;
        }
        var row := CopiedMember(member, winner, now);
        CopyAdmits(member, winner, now);
        Admitted(mid, rows, loser, winner, todo, m, t, row, closed);
        WriteIsLogged(was, db.rows, db.log, from, t, row, Insert);
        WriteIsStamped(was, db.rows, t, row, now);
        db.Write(t, row);
        merged := 1;
      } else if Get(db.rows[target.value], DeletedAt) != Null {
        var t := target.value;
        var row := Revived(db.rows[t], member, now);
        RevivalAdmits(db.rows[t], member, winner, now);
        Admitted(mid, rows, loser, winner, todo, m, t, row, closed);
        WriteIsLogged(was, db.rows, db.log, from, t, row, Update);
        WriteIsStamped(was, db.rows, t, row, now);
        db.Write(t, row);
        merged := 1;
      } else {
        AlreadyMember(mid, rows, loser, winner, todo, m, target.value, closed);
      }
      WriteIsLogged(was, db.rows, db.log, from, m, closed, Update);
      WriteIsStamped(was, db.rows, m, closed, now);
      db.Write(m, closed);
    }

    /** All live memberships of the loser. */
    method MoveMembers(loser: Id, winner: Id, newIds: nat -> Id, now: int, ghost from: nat, ghost was: Rows)
      returns (failed: bool, merged: nat)
      requires !db.applying && loser != winner && MembershipsDistinct(db.rows)
      requires from <= |db.log| && ChangesLogged(was, db.rows, db.log, from) && Stamped(was, db.rows, now)
      modifies db
      ensures !db.applying
      ensures !failed ==>
                && MovedSoFar(old(db.rows), db.rows, loser, winner, {}) && Stamped(was, db.rows, now)
                && from <= |db.log| && ChangesLogged(was, db.rows, db.log, from)
                && merged == |NewMembers(old(db.rows), loser, winner)|
    {
      hide ChangesLogged, MovedSoFar, MembershipsDistinct, LiveMembers, NewMembers, Stamped;
      ghost var mid := db.rows;
      NothingMoved(mid, loser, winner);
      var todo := LiveMembers(db.rows, loser);
      var i := 0;
      failed, merged := false, 0;
      ghost var fresh0 := NewMembers(mid, loser, winner);
      NewAreLive(mid, loser, winner);
      assert fresh0 - todo == {};
      while todo != {}
        invariant !db.applying && from <= |db.log|
        invariant MovedSoFar(mid, db.rows, loser, winner, todo)
        invariant ChangesLogged(was, db.rows, db.log, from) && Stamped(was, db.rows, now)
        invariant merged == |fresh0 - todo|
        decreases todo
      {
        var m :| m in todo;
        var added;
        failed, added := MoveMember(m, loser, winner, newIds(i), now, mid, todo, from, was);
        if failed {
          return;
        }
        merged := merged + added;
        assert fresh0 - (todo - {m}) == (fresh0 - todo) + (if m in fresh0 then {m} else {});
        todo := todo - {m};
        i := i + 1;
      }
      assert fresh0 - todo == fresh0;
    }

    /** Reparents the memos, moves the live members and tombstones the loser, in one transaction. */
    method MergeProjects(loser: Id, winner: Id, newIds: nat -> Id, now: int) returns (merged: Merged<ProjectReport>)
      requires !db.applying && MembershipsDistinct(db.rows)
      modifies db
      ensures merged.Refused? ==> db.Data() == old(db.Data())
      ensures merged.Refused? && merged.error != WriteFailed <==>
                || loser == winner
                || Key(Projects, loser) !in old(db.rows) || Get(old(db.rows)[Key(Projects, loser)], DeletedAt) != Null
                || Key(Projects, winner) !in old(db.rows) || Get(old(db.rows)[Key(Projects, winner)], DeletedAt) != Null
      ensures merged.Merged? ==>
                && ProjectsMerged(old(db.rows), db.rows, loser, winner, now)
                && ChangesLogged(old(db.rows), db.rows, db.log, |old(db.log)|)
                && Stamped(old(db.rows), db.rows, now)
                && MemosOf(db.rows, loser) == {}
                && MemosOf(db.rows, winner) == MemosOf(old(db.rows), winner) + MemosOf(old(db.rows), loser)
                && merged.report.movedMemos == |MemosOf(old(db.rows), loser)|
                && merged.report.mergedMembers == |NewMembers(old(db.rows), loser, winner)|
    {
      hide ChangesLogged, MovedSoFar, MemosMoved, MembershipsDistinct, ProjectsMerged, LiveMembers, NewMembers,
        Tombstone, Stamped, MemosOf;
      if loser == winner {
        return Refused(SameId);
      }
      if !IsLive(db.rows, Key(Projects, loser)) {
        return Refused(LoserMissing);
      }
      if !IsLive(db.rows, Key(Projects, winner)) {
        return Refused(WinnerMissing);
      }
      var rows0, log0, issues0 := db.rows, db.log, db.issues;
      var movedMemos := ReparentMemos(loser, winner, now);
      ghost var mid := db.rows;
      MemosKeepMembers(rows0, mid, loser, winner, now);
      var failed, mergedMembers := MoveMembers(loser, winner, newIds, now, |log0|, rows0);
      if failed {
        db.rows, db.log, db.issues := rows0, log0, issues0;
        return Refused(WriteFailed);
      }
      SameNewMembers(rows0, mid, loser, winner, now);
      var pk := Key(Projects, loser);
      LoserStillThere(rows0, mid, db.rows, loser, winner, now);
      WriteIsLogged(rows0, db.rows, db.log, |log0|, pk, Tombstone(db.rows[pk], now), Update);
      TombstoneIsStamped(db.rows[pk], now);
      WriteIsStamped(rows0, db.rows, pk, Tombstone(db.rows[pk], now), now);
      ghost var moved := db.rows;
      db.Write(pk, Tombstone(db.rows[pk], now));
      MergeIsDone(rows0, mid, moved, db.rows, loser, winner, now);
      MemosChangeProject(rows0, db.rows, loser, winner, now);
      merged := Merged(ProjectReport(movedMemos, mergedMembers));
    }
  }

  ghost predicate MemosAfter(was: Rows, now: Rows, loser: Id, winner: Id, clock: int) {
    && (forall k: Key :: k.table == Memos ==> (k in now <==> k in was))
    && (forall k | k in was && k.table == Memos ::
          now[k] == if Get(was[k], ProjectId) == Text(loser) then Reparented(was[k], winner, clock) else was[k])
  }

  ghost predicate MembersAfter(was: Rows, now: Rows, loser: Id, winner: Id) {
    && LiveUsers(now, winner) == LiveUsers(was, winner) + LiveUsers(was, loser)
    && LiveMembers(now, loser) == {}
    && (forall k | k in now && IsLiveMember(now, k, winner) ::
          if Get(now[k], UserId) in LiveUsers(was, winner) then k in was && now[k] == was[k]
          else exists m :: m in LiveMembers(was, loser) && Follows(now[k], was[m]))
    && MembershipsDistinct(now)
    && (forall k | k in was && k.table == ProjectMembers && !IsMember(was, k, loser) && !IsMember(was, k, winner) ::
          k in now && now[k] == was[k])
  }

  /** The rows after a merge, said without the loops. */
  ghost predicate ProjectsMerged(was: Rows, now: Rows, loser: Id, winner: Id, clock: int) {
    && (forall k | k in was :: k in now)
    && MemosAfter(was, now, loser, winner, clock)
    && MembersAfter(was, now, loser, winner)
    && Key(Projects, loser) in was && now[Key(Projects, loser)] == Tombstone(was[Key(Projects, loser)], clock)
    && (forall k | k in was && k.table != Memos && k.table != ProjectMembers && k != Key(Projects, loser) ::
         now[k] == was[k])
  }

  lemma MemberInRows(mid: Rows, rows: Rows, loser: Id, winner: Id, todo: set<Key>, m: Key)
    requires MovedSoFar(mid, rows, loser, winner, todo) && m in todo
    ensures m in rows
  {
    assert m in LiveMembers(mid, loser);
  }

  lemma MemosKeepMembers(was: Rows, mid: Rows, loser: Id, winner: Id, now: int)
    requires MemosMoved(was, mid, loser, winner, MemosOf(was, loser), now) && MembershipsDistinct(was)
    ensures MembershipsDistinct(mid)
    ensures forall k | k in was && k.table != Memos :: k in mid && mid[k] == was[k]
    ensures LiveMembers(mid, loser) == LiveMembers(was, loser) && LiveMembers(mid, winner) == LiveMembers(was, winner)
  {
    hide Reparented, MembershipsDistinct, LiveMembers;
    assert forall k | k in was && k.table != Memos :: k in mid && mid[k] == was[k];
    assert SameMemberRows(was, mid);
    hide MemosMoved, MemosOf;
    SameLive(was, mid, loser);
    SameLive(was, mid, winner);
  }

  lemma SameNewMembers(was: Rows, mid: Rows, loser: Id, winner: Id, now: int)
    requires MemosMoved(was, mid, loser, winner, MemosOf(was, loser), now) && MembershipsDistinct(was)
    ensures NewMembers(mid, loser, winner) == NewMembers(was, loser, winner)
  {
    MemosKeepMembers(was, mid, loser, winner, now);
    hide LiveMembers, MembershipsDistinct;
    LiveAreMembers(was, loser);
    LiveAreMembers(was, winner);
  }

  lemma LiveAreMembers(rows: Rows, project: Id)
    ensures forall k | k in LiveMembers(rows, project) :: k in rows && k.table == ProjectMembers
  {
  }

  lemma LoserStillThere(was: Rows, mid: Rows, rows: Rows, loser: Id, winner: Id, now: int)
    requires MemosMoved(was, mid, loser, winner, MemosOf(was, loser), now) && MovedSoFar(mid, rows, loser, winner, {})
    requires Key(Projects, loser) in was
    ensures Key(Projects, loser) in rows && rows[Key(Projects, loser)] == was[Key(Projects, loser)]
  {
    hide Reparented, AllTaken, AllJustified, MembershipsDistinct;
  }

  lemma UsersUnited(mid: Rows, rows: Rows, loser: Id, winner: Id)
    requires loser != winner && MovedSoFar(mid, rows, loser, winner, {})
    ensures LiveUsers(rows, winner) == LiveUsers(mid, winner) + LiveUsers(mid, loser)
    ensures LiveMembers(rows, loser) == {}
  {
    hide MembershipsDistinct;
    forall u | u in LiveUsers(rows, winner) ensures u in LiveUsers(mid, winner) + LiveUsers(mid, loser) {
      var k :| k in LiveMembers(rows, winner) && Get(rows[k], UserId) == u;
      assert Justified(mid, rows, loser, winner, {}, k);
      if IsLiveMember(mid, k, winner) { assert k in LiveMembers(mid, winner); }
    }
    forall u | u in LiveUsers(mid, winner) ensures u in LiveUsers(rows, winner) {
      var k :| k in LiveMembers(mid, winner) && Get(mid[k], UserId) == u;
      assert k in LiveMembers(rows, winner);
    }
    forall u | u in LiveUsers(mid, loser) ensures u in LiveUsers(rows, winner) {
      var m :| m in LiveMembers(mid, loser) && Get(mid[m], UserId) == u;
      assert Taken(mid, rows, winner, m);
      var k :| k in rows && IsLiveMember(rows, k, winner) && Get(rows[k], UserId) == u;
      assert k in LiveMembers(rows, winner);
    }
    forall k ensures k !in LiveMembers(rows, loser) {
      if k in rows && IsMember(rows, k, loser) { assert k in mid && IsMember(mid, k, loser); }
    }
  }

  /** A live member of the winner either was one, unchanged, or is a moved user with the same names and role. */
  lemma RolesKept(mid: Rows, rows: Rows, loser: Id, winner: Id, k: Key)
    requires loser != winner && MovedSoFar(mid, rows, loser, winner, {})
    requires k in rows && IsLiveMember(rows, k, winner)
    ensures if Get(rows[k], UserId) in LiveUsers(mid, winner) then k in mid && rows[k] == mid[k]
            else exists m :: m in LiveMembers(mid, loser) && Follows(rows[k], mid[m])
  {
    assert Justified(mid, rows, loser, winner, {}, k);
    if Get(rows[k], UserId) in LiveUsers(mid, winner) {
      var j :| j in LiveMembers(mid, winner) && Get(mid[j], UserId) == Get(rows[k], UserId);
      assert MembershipUnique(rows, k, rows[k]);
      assert j == k;
    }
    assert IsLiveMember(mid, k, winner) ==> k in LiveMembers(mid, winner);
  }

  lemma MembersAreMoved(mid: Rows, rows: Rows, loser: Id, winner: Id)
    requires loser != winner && MovedSoFar(mid, rows, loser, winner, {})
    ensures MembersAfter(mid, rows, loser, winner)
  {
    hide IsLiveMember, Justified, Taken, MembershipUnique;
    UsersUnited(mid, rows, loser, winner);
    forall k | k in rows && IsLiveMember(rows, k, winner)
      ensures if Get(rows[k], UserId) in LiveUsers(mid, winner) then k in mid && rows[k] == mid[k]
              else exists m :: m in LiveMembers(mid, loser) && Follows(rows[k], mid[m])
    {
      RolesKept(mid, rows, loser, winner, k);
    }
  }

  /** Two sets of rows with the same memberships. */
  ghost predicate SameMemberRows(a: Rows, c: Rows) {
    forall k: Key | k.table == ProjectMembers :: (k in c <==> k in a) && (k in a ==> c[k] == a[k])
  }

  lemma SameLive(a: Rows, c: Rows, project: Id)
    requires SameMemberRows(a, c)
    ensures LiveMembers(c, project) == LiveMembers(a, project) && LiveUsers(c, project) == LiveUsers(a, project)
    ensures MembershipsDistinct(a) <==> MembershipsDistinct(c)
  {
    assert LiveMembers(c, project) == LiveMembers(a, project);
  }

  /** Members are read off the member rows alone. */
  lemma SameMembers(a: Rows, b: Rows, c: Rows, e: Rows, loser: Id, winner: Id)
    requires MembersAfter(a, b, loser, winner) && SameMemberRows(a, c) && SameMemberRows(b, e)
    ensures MembersAfter(c, e, loser, winner)
  {
    hide LiveUsers, MembershipsDistinct;
    SameLive(a, c, winner);
    SameLive(a, c, loser);
    SameLive(b, e, winner);
    SameLive(b, e, loser);
    forall k | k in e && IsLiveMember(e, k, winner)
      ensures if Get(e[k], UserId) in LiveUsers(c, winner) then k in c && e[k] == c[k]
              else exists m :: m in LiveMembers(c, loser) && Follows(e[k], c[m])
    {
      assert k in b && IsLiveMember(b, k, winner) && b[k] == e[k];
      if Get(e[k], UserId) !in LiveUsers(c, winner) {
        var m :| m in LiveMembers(a, loser) && Follows(b[k], a[m]);
        assert m in LiveMembers(c, loser) && c[m] == a[m];
      }
    }
  }

  lemma MembersOnly(mid: Rows, moved: Rows, loser: Id, winner: Id)
    requires MovedSoFar(mid, moved, loser, winner, {})
    ensures forall k | k in mid :: k in moved
    ensures forall k | k in moved && k.table != ProjectMembers :: k in mid && moved[k] == mid[k]
  {
    hide AllTaken, AllJustified, MembershipsDistinct;
  }

  lemma MemosAreMoved(was: Rows, mid: Rows, moved: Rows, now: Rows, loser: Id, winner: Id, clock: int)
    requires MemosMoved(was, mid, loser, winner, MemosOf(was, loser), clock)
    requires forall k | k in mid :: k in moved
    requires forall k | k in moved && k.table != ProjectMembers :: k in mid && moved[k] == mid[k]
    requires forall k: Key | k != Key(Projects, loser) ::
               (k in now <==> k in moved) && (k in now ==> now[k] == moved[k])
    ensures MemosAfter(was, now, loser, winner, clock)
    ensures forall k | k in was && k.table != Memos && k.table != ProjectMembers && k != Key(Projects, loser) ::
              k in now && now[k] == was[k]
  {
    hide Reparented;
  }

  lemma MergeIsDone(was: Rows, mid: Rows, moved: Rows, now: Rows, loser: Id, winner: Id, clock: int)
    requires loser != winner && MembershipsDistinct(was) && Key(Projects, loser) in was
    requires MemosMoved(was, mid, loser, winner, MemosOf(was, loser), clock)
             && MovedSoFar(mid, moved, loser, winner, {})
    requires Key(Projects, loser) in moved
    requires now == moved[Key(Projects, loser) := Tombstone(moved[Key(Projects, loser)], clock)]
    ensures ProjectsMerged(was, now, loser, winner, clock)
  {
    hide Reparented, Tombstone, MovedSoFar, MembersAfter, MembershipsDistinct, MemosAfter, MemosOf, MemosMoved;
    LoserStillThere(was, mid, moved, loser, winner, clock);
    MemosKeepMembers(was, mid, loser, winner, clock);
    MembersAreMoved(mid, moved, loser, winner);
    MembersOnly(mid, moved, loser, winner);
    MemosAreMoved(was, mid, moved, now, loser, winner, clock);
    SameKeys(was, mid, loser, winner, clock);
    SameMembers(mid, moved, was, now, loser, winner);
  }

  lemma SameKeys(was: Rows, mid: Rows, loser: Id, winner: Id, clock: int)
    requires MemosMoved(was, mid, loser, winner, MemosOf(was, loser), clock)
    ensures forall k: Key :: k in mid <==> k in was
    ensures forall k | k in was && k.table != Memos :: mid[k] == was[k]
  {
    hide Reparented;
  }

  lemma NoneLeft(was: Rows, now: Rows, loser: Id, winner: Id, clock: int)
    requires MemosMoved(was, now, loser, winner, MemosOf(was, loser), clock) && loser != winner
    ensures forall k | k in now && k.table == Memos :: Get(now[k], ProjectId) != Text(loser)
  {
  }

  lemma ReparentedIsStamped(row: Row, project: Id, now: int)
    ensures Get(Reparented(row, project, now), UpdatedAtUtc) == Num(now)
  {
  }

  // ------------------------------------------------------------------
  // What a merge comes to, column by column
  // ------------------------------------------------------------------

  ghost predicate IsMoved(now: Row, was: Row, winner: Id, clock: int) {
    && Get(now, ProjectId) == Text(winner) && Get(now, UpdatedAtUtc) == Num(clock)
    && forall c | c != ProjectId && c != UpdatedAtUtc :: Get(now, c) == Get(was, c)
  }

  /** Every memo of the loser, live or not, is the winner's, and no other memo is: each moved one differs in its
      project and its clock alone, and the others not at all. */
  lemma MemosChangeProject(was: Rows, now: Rows, loser: Id, winner: Id, clock: int)
    requires ProjectsMerged(was, now, loser, winner, clock) && loser != winner
    ensures MemosOf(now, loser) == {} && MemosOf(now, winner) == MemosOf(was, winner) + MemosOf(was, loser)
    ensures forall k | k in was && k.table == Memos ::
              k in now && if Get(was[k], ProjectId) == Text(loser) then IsMoved(now[k], was[k], winner, clock)
                          else now[k] == was[k]
    ensures forall k | k in now && k.table == Memos :: k in was
  {
    hide MembersAfter, Tombstone;
    forall k | k in was && k.table == Memos
      ensures k in now && if Get(was[k], ProjectId) == Text(loser) then IsMoved(now[k], was[k], winner, clock)
                          else now[k] == was[k]
    {
    }
    assert forall k: Key | k.table == Memos :: k in now <==> k in was;
  }

  /** The loser is marked as deleted and has no live member. Each member of either project is a live member of the
      winner: the winner's are as they were, and the loser's have kept their names and role. */
  lemma MembersChangeProject(was: Rows, now: Rows, loser: Id, winner: Id, clock: int, user: Value)
    requires ProjectsMerged(was, now, loser, winner, clock) && loser != winner
    ensures Key(Projects, loser) in now && Get(now[Key(Projects, loser)], DeletedAt) == Num(clock)
    ensures forall c | c != DeletedAt && c != UpdatedAtUtc ::
              Get(now[Key(Projects, loser)], c) == Get(was[Key(Projects, loser)], c)
    ensures forall k | k in now && k.table == ProjectMembers && Get(now[k], ProjectId) == Text(loser) ::
              Get(now[k], DeletedAt) != Null
    ensures (exists k :: k in now && k.table == ProjectMembers && Get(now[k], ProjectId) == Text(winner)
                         && Get(now[k], DeletedAt) == Null && Get(now[k], UserId) == user)
            <==> exists k :: k in was && k.table == ProjectMembers
                             && (Get(was[k], ProjectId) == Text(winner) || Get(was[k], ProjectId) == Text(loser))
                             && Get(was[k], DeletedAt) == Null && Get(was[k], UserId) == user
  {
    hide MemosAfter, MembershipsDistinct, Follows;
    LiveUsersAre(was, loser, user);
    LiveUsersAre(was, winner, user);
    LiveUsersAre(now, winner, user);
    hide LiveUsers;
    forall k | k in now && k.table == ProjectMembers && Get(now[k], ProjectId) == Text(loser)
      ensures Get(now[k], DeletedAt) != Null
    {
      assert k !in LiveMembers(now, loser);
    }
  }

  lemma LiveUsersAre(rows: Rows, project: Id, user: Value)
    ensures user in LiveUsers(rows, project)
            <==> exists k :: k in rows && k.table == ProjectMembers && Get(rows[k], ProjectId) == Text(project)
                             && Get(rows[k], DeletedAt) == Null && Get(rows[k], UserId) == user
  {
    if k :| k in rows && k.table == ProjectMembers && Get(rows[k], ProjectId) == Text(project)
            && Get(rows[k], DeletedAt) == Null && Get(rows[k], UserId) == user {
      assert k in LiveMembers(rows, project);
    }
    if user in LiveUsers(rows, project) {
      var k :| k in LiveMembers(rows, project) && Get(rows[k], UserId) == user;
      assert IsLiveMember(rows, k, project);
    }
  }
}
