/** Who may push what: the whole batch is checked against the account's roles before anything is applied. */
module SyncAuthorize {
  import opened SyncSchema
  import opened SyncStore
  import opened SyncApply
  import opened SyncBatch
  import opened SyncQueue

  type Rows = map<Key, Row>

  const OWNER := "owner"
  const EDITOR := "editor"

  const WRITERS: set<string> := {OWNER, EDITOR}
  const OWNERS: set<string> := {OWNER}

  // ------------------------------------------------------------------
  // Roles
  // ------------------------------------------------------------------

  /** The account's role in a stored project, if it has one. */
  predicate IsRole(rows: Rows, project: Id, account: Id, role: Option<string>) {
    var pk := Key(Projects, project);
    if pk !in rows then role == None
    else if Get(rows[pk], OwnerId) == Text(account) then role == Some(OWNER)
    else
      if exists k :: k in rows && IsMembership(rows, k, project, account) then
        exists k :: k in rows && IsMembership(rows, k, project, account)
                    && role == (if Get(rows[k], Role).Text? then Some(Get(rows[k], Role).s) else None)
      else role == None
  }

  /** The account holds one of the roles in a stored project. */
  predicate HasRole(rows: Rows, project: Id, account: Id, roles: set<string>) {
    exists role :: role in roles && IsRole(rows, project, account, Some(role))
  }

  /** Two live memberships of one account in one project cannot exist, so the role is unique. */
  lemma RoleIsUnique(rows: Rows, project: Id, account: Id, a: Option<string>, b: Option<string>)
    requires MembershipsDistinct(rows) && IsRole(rows, project, account, a) && IsRole(rows, project, account, b)
    ensures a == b
  {
    var pk := Key(Projects, project);
    if pk in rows && Get(rows[pk], OwnerId) != Text(account) {
      forall k, j | k in rows && j in rows && IsMembership(rows, k, project, account)
        && IsMembership(rows, j, project, account)
        ensures k == j
      {
        assert MembershipUnique(rows, k, rows[k]);
      }
    }
  }

  // ------------------------------------------------------------------
  // What the batch itself brings along
  // ------------------------------------------------------------------

  function Wire(ch: Change): Row {
    if ch.table.Some? && ch.row.Some? then FilterRow(ch.table.value, ch.row.value) else map[]
  }

  /** The last non-empty row the batch has for this table and id. */
  function LastRow(changes: seq<Change>, t: Table, id: Id): Option<Row> {
    if changes == [] then None
    else
      var ch := changes[|changes| - 1];
      if ch.table == Some(t) && ch.rowId == id && Wire(ch) != map[] then Some(Wire(ch))
      else LastRow(changes[..|changes| - 1], t, id)
  }

  /** The batch creates this project with the account as its owner. */
  predicate Creates(rows: Rows, changes: seq<Change>, account: Id, project: Id) {
    && Key(Projects, project) !in rows
    && var row := LastRow(changes, Projects, project);
       row.Some? && Get(row.value, OwnerId) == Text(account)
  }

  predicate MayActIn(rows: Rows, changes: seq<Change>, account: Id, project: Id, roles: set<string>) {
    Creates(rows, changes, account, project) || HasRole(rows, project, account, roles)
  }

  function NonEmpty(v: Value): Option<Id> {
    if v.Text? && v.s != "" then Some(v.s) else None
  }

  /** The project a stored row belongs to. */
  function StoredProject(rows: Rows, k: Key): Option<Id> {
    if k !in rows then None
    else
      match k.table
      case Projects => Some(k.id)
      case Memos => NonEmpty(Get(rows[k], ProjectId))
      case ProjectMembers => NonEmpty(Get(rows[k], ProjectId))
      case MemoVersions =>
        var memo := Get(rows[k], MemoId);
        if memo.Text? && Key(Memos, memo.s) in rows then NonEmpty(Get(rows[Key(Memos, memo.s)], ProjectId)) else None
  }

  function IncomingProject(rows: Rows, changes: seq<Change>, ch: Change): Option<Id>
    requires ch.table.Some?
  {
    var k := Key(ch.table.value, ch.rowId);
    match ch.table.value
    case Projects => Some(ch.rowId)
    case MemoVersions => MemoProject(rows, changes, NonEmpty(Get(Wire(ch), MemoId)))
    case _ =>
      var incoming := NonEmpty(Get(Wire(ch), ProjectId));
      if incoming.Some? then incoming else StoredProject(rows, k)
  }

  /** The project of a version's memo: where the batch puts the memo, or else where it is. */
  function MemoProject(rows: Rows, changes: seq<Change>, memo: Option<Id>): Option<Id> {
    if memo.None? then None
    else
      var incoming := LastRow(changes, Memos, memo.value);
      if incoming.Some? && NonEmpty(Get(incoming.value, ProjectId)).Some? then NonEmpty(Get(incoming.value, ProjectId))
      else StoredProject(rows, Key(Memos, memo.value))
  }

  predicate ProjectAllowed(rows: Rows, account: Id, id: Id, row: Row) {
    var k := Key(Projects, id);
    if k !in rows then Get(row, OwnerId) == Text(account)
    else
      && HasRole(rows, id, account, OWNERS)
      && (Get(row, OwnerId) == Null || Get(row, OwnerId) == Get(rows[k], OwnerId))
  }

  predicate BothAllowed(
    rows: Rows, changes: seq<Change>, account: Id, a: Option<Id>, b: Option<Id>, roles: set<string>) {
    && (a.Some? ==> MayActIn(rows, changes, account, a.value, roles))
    && (b.Some? ==> MayActIn(rows, changes, account, b.value, roles))
  }

  predicate Allowed(rows: Rows, changes: seq<Change>, account: Id, ch: Change)
    requires ch.table.Some?
  {
    var stored := StoredProject(rows, Key(ch.table.value, ch.rowId));
    var incoming := IncomingProject(rows, changes, ch);
    && ch.rowId != ""
    && match ch.table.value
       case Projects => ProjectAllowed(rows, account, ch.rowId, Wire(ch))
       case Memos => incoming.Some? && BothAllowed(rows, changes, account, stored, incoming, WRITERS)
       case MemoVersions => (stored.Some? || incoming.Some?)
         && BothAllowed(rows, changes, account, stored, incoming, WRITERS)
       case ProjectMembers => incoming.Some? && BothAllowed(rows, changes, account, stored, incoming, OWNERS)
  }

  predicate ProjectsAllowed(rows: Rows, changes: seq<Change>, account: Id) {
    forall ch | ch in changes && ch.table == Some(Projects) ::
        ch.rowId != "" && ProjectAllowed(rows, account, ch.rowId, Wire(ch))
  }

  predicate AllAllowed(rows: Rows, changes: seq<Change>, account: Id) {
    forall ch | ch in changes && ch.table.Some? :: Allowed(rows, changes, account, ch)
  }

  // ------------------------------------------------------------------
  // The check, with its role cache
  // ------------------------------------------------------------------

  /** What the code answers for a project: cached, created by the batch, or read. */
  predicate IsAnswer(rows: Rows, changes: seq<Change>, account: Id, project: Id, role: Option<string>) {
    if Creates(rows, changes, account, project) then role == Some(OWNER) else IsRole(rows, project, account, role)
  }

  /** A cached "owner" for a new project is right unless a later row of the batch names another owner. */
  ghost predicate CacheOk(rows: Rows, changes: seq<Change>, account: Id, cache: map<Id, Option<string>>) {
    forall p | p in cache :: IsAnswer(rows, changes, account, p, cache[p]) || !ProjectsAllowed(rows, changes, account)
  }

  class Authorizer {
    const rows: Rows
    const changes: seq<Change>
    const account: Id
    var cache: map<Id, Option<string>>

    constructor (stored: Rows, batch: seq<Change>, accountId: Id)
      ensures rows == stored && changes == batch && account == accountId && cache == map[]
    {
      rows, changes, account, cache := stored, batch, accountId, map[];
    }

    method ReadRole(project: Id) returns (role: Option<string>)
      ensures IsRole(rows, project, account, role)
    {
      var pk := Key(Projects, project);
      if pk !in rows {
        return None;
      }
      if Get(rows[pk], OwnerId) == Text(account) {
        return Some(OWNER);
      }
      var hits := set k | k in rows && IsMembership(rows, k, project, account);
      if hits == {} {
        assert forall k | k in rows && IsMembership(rows, k, project, account) :: k in hits;
        return None;
      }
      var k :| k in hits;
      role := if Get(rows[k], Role).Text? then Some(Get(rows[k], Role).s) else None;
    }

    method RoleFor(project: Id) returns (role: Option<string>)
      requires CacheOk(rows, changes, account, cache)
      modifies this`cache
      ensures CacheOk(rows, changes, account, cache)
      ensures IsAnswer(rows, changes, account, project, role) || !ProjectsAllowed(rows, changes, account)
    {
      hide ProjectsAllowed, Creates, IsRole;
      if project in cache {
        return cache[project];
      }
      var incoming := LastRow(changes, Projects, project);
      if Key(Projects, project) !in rows && incoming.Some? && Get(incoming.value, OwnerId) == Text(account) {
        assert Creates(rows, changes, account, project) by { CreatesWhen(rows, changes, account, project); }
        role := Some(OWNER);
      } else {
        assert !Creates(rows, changes, account, project) by { CreatesWhen(rows, changes, account, project); }
        role := ReadRole(project);
      }
      cache := cache[project := role];
    }

    /** Both projects, where given, must answer one of the roles. */
    method CheckBoth(a: Option<Id>, b: Option<Id>, roles: set<string>) returns (ok: bool)
      requires CacheOk(rows, changes, account, cache) && MembershipsDistinct(rows) && OWNER in roles
      modifies this`cache
      ensures CacheOk(rows, changes, account, cache)
      ensures ok == BothAllowed(rows, changes, account, a, b, roles) || !ProjectsAllowed(rows, changes, account)
    {
      hide ProjectsAllowed, CacheOk, MembershipsDistinct, IsAnswer, MayActIn;
      ok := true;
      if a.Some? {
        var role := RoleFor(a.value);
        AnswerDecides(rows, changes, account, a.value, role, roles);
        ok := role.Some? && role.value in roles;
      }
      if ok && b.Some? {
        var role := RoleFor(b.value);
        AnswerDecides(rows, changes, account, b.value, role, roles);
        ok := role.Some? && role.value in roles;
      }
    }

    method CheckProject(ch: Change) returns (ok: bool)
      requires CacheOk(rows, changes, account, cache) && MembershipsDistinct(rows) && ch in changes
               && ch.table == Some(Projects)
      requires ch.rowId != ""
      modifies this`cache
      ensures CacheOk(rows, changes, account, cache)
      ensures ok == ProjectAllowed(rows, account, ch.rowId, Wire(ch))
    {
      hide ProjectsAllowed, IsRole, MembershipsDistinct;
      var k, owner := Key(Projects, ch.rowId), Get(Wire(ch), OwnerId);
      if k !in rows {
        if owner != Text(account) {
          return false;
        }
        OwnRowCreates(rows, changes, account, ch);
        cache := cache[ch.rowId := Some(OWNER)];
        return true;
      }
      var role := ReadRole(ch.rowId);
      RoleDecides(rows, ch.rowId, account, role, OWNERS);
      ok := role == Some(OWNER) && (owner == Null || owner == Get(rows[k], OwnerId));
    }

    method CheckChange(ch: Change) returns (ok: bool)
      requires CacheOk(rows, changes, account, cache) && MembershipsDistinct(rows) && ch in changes && ch.table.Some?
      modifies this`cache
      ensures CacheOk(rows, changes, account, cache)
      ensures ok == Allowed(rows, changes, account, ch)
              || (ch.table != Some(Projects) && !ProjectsAllowed(rows, changes, account))
    {
      hide ProjectsAllowed, CacheOk, MembershipsDistinct, BothAllowed, ProjectAllowed, StoredProject, IncomingProject;
      if ch.rowId == "" {
        return false;
      }
      var stored := StoredProject(rows, Key(ch.table.value, ch.rowId));
      var incoming := IncomingProject(rows, changes, ch);
      match ch.table.value {
        case Projects => ok := CheckProject(ch);
        case Memos =>
          ok := CheckBoth(stored, incoming, WRITERS);
          ok := ok && incoming.Some?;
        case MemoVersions =>
          ok := CheckBoth(stored, incoming, WRITERS);
          ok := ok && (incoming.Some? || stored.Some?);
        case ProjectMembers =>
          ok := CheckBoth(stored, incoming, OWNERS);
          ok := ok && incoming.Some?;
      }
    }

    /** Walks the batch and stops at the first row out of bounds: accepted means every row is allowed. */
    method Authorize() returns (accepted: bool)
      requires MembershipsDistinct(rows) && cache == map[]
      modifies this`cache
      ensures accepted == AllAllowed(rows, changes, account)
    {
      hide Allowed, MembershipsDistinct, ProjectAllowed;
      for i := 0 to |changes|
        invariant CacheOk(rows, changes, account, cache)
        invariant forall j | 0 <= j < i && changes[j].table.Some? ::
          Allowed(rows, changes, account, changes[j])
          || (changes[j].table != Some(Projects) && !ProjectsAllowed(rows, changes, account))
      {
        if changes[i].table.Some? {
          var ok := CheckChange(changes[i]);
          if !ok {
            AllMeansProjects(rows, changes, account);
            assert changes[i] in changes;
            return false;
          }
        }
      }
      forall ch | ch in changes && ch.table == Some(Projects)
        ensures ch.rowId != "" && ProjectAllowed(rows, account, ch.rowId, Wire(ch))
      {
        AllowedProject(rows, changes, account, ch);
      }
      accepted := true;
    }
  }

  // ------------------------------------------------------------------
  // Why the cache decides like the rules
  // ------------------------------------------------------------------

  lemma CreatesWhen(rows: Rows, changes: seq<Change>, account: Id, project: Id)
    ensures Creates(rows, changes, account, project) <==>
              && Key(Projects, project) !in rows
              && LastRow(changes, Projects, project).Some?
              && Get(LastRow(changes, Projects, project).value, OwnerId) == Text(account)
  {
  }

  lemma RoleDecides(rows: Rows, project: Id, account: Id, role: Option<string>, roles: set<string>)
    requires MembershipsDistinct(rows) && IsRole(rows, project, account, role)
    ensures HasRole(rows, project, account, roles) <==> role.Some? && role.value in roles
  {
    hide IsRole, MembershipsDistinct;
    forall other | IsRole(rows, project, account, Some(other)) ensures role == Some(other) {
      RoleIsUnique(rows, project, account, role, Some(other));
    }
  }

  lemma AnswerDecides(
    rows: Rows, changes: seq<Change>, account: Id, project: Id, role: Option<string>, roles: set<string>)
    requires MembershipsDistinct(rows) && OWNER in roles
    ensures IsAnswer(rows, changes, account, project, role) ==>
              (MayActIn(rows, changes, account, project, roles) <==> role.Some? && role.value in roles)
  {
    hide IsRole, MembershipsDistinct, HasRole, Creates;
    if IsAnswer(rows, changes, account, project, role) && !Creates(rows, changes, account, project) {
      RoleDecides(rows, project, account, role, roles);
    }
  }

  lemma AllowedProject(rows: Rows, changes: seq<Change>, account: Id, ch: Change)
    requires ch.table == Some(Projects)
    ensures Allowed(rows, changes, account, ch) <==> ch.rowId != "" && ProjectAllowed(rows, account, ch.rowId, Wire(ch))
  {
  }

  lemma AllMeansProjects(rows: Rows, changes: seq<Change>, account: Id)
    ensures AllAllowed(rows, changes, account) ==> ProjectsAllowed(rows, changes, account)
  {
    hide ProjectAllowed, Allowed;
    forall ch | ch in changes && ch.table == Some(Projects)
      ensures Allowed(rows, changes, account, ch) <==>
                ch.rowId != "" && ProjectAllowed(rows, account, ch.rowId, Wire(ch))
    {
      AllowedProject(rows, changes, account, ch);
    }
  }

  lemma {:induction false} LastRowIsOne(changes: seq<Change>, t: Table, id: Id)
    ensures LastRow(changes, t, id).Some? ==>
              exists ch ::
                  ch in changes && ch.table == Some(t) && ch.rowId == id && Wire(ch) == LastRow(changes, t, id).value
    ensures forall ch | ch in changes && ch.table == Some(t) && ch.rowId == id && Wire(ch) != map[] ::
              LastRow(changes, t, id).Some?
  {
    hide Wire;
    if changes != [] {
      var n := |changes| - 1;
      LastRowIsOne(changes[..n], t, id);
      assert changes == changes[..n] + [changes[n]];
      if LastRow(changes, t, id).Some? {
        if changes[n].table == Some(t) && changes[n].rowId == id && Wire(changes[n]) != map[] {
          assert changes[n] in changes;
        } else {
          var ch :| ch in changes[..n] && ch.table == Some(t) && ch.rowId == id
            && Wire(ch) == LastRow(changes, t, id).value;
          assert ch in changes;
        }
      }
    }
  }

  /** A row naming the account as owner of a new project: either the batch creates it, or some row of the
      batch names another owner and the batch is refused. */
  lemma OwnRowCreates(rows: Rows, changes: seq<Change>, account: Id, ch: Change)
    requires ch in changes && ch.table == Some(Projects)
    requires Key(Projects, ch.rowId) !in rows && Get(Wire(ch), OwnerId) == Text(account)
    ensures Creates(rows, changes, account, ch.rowId) || !ProjectsAllowed(rows, changes, account)
  {
    LastRowIsOne(changes, Projects, ch.rowId);
    assert Wire(ch) != map[];
    var last :| last in changes && last.table == Some(Projects) && last.rowId == ch.rowId
                && Wire(last) == LastRow(changes, Projects, ch.rowId).value;
    hide Wire;
    assert Allowed(rows, changes, account, last) ==> Get(Wire(last), OwnerId) == Text(account);
  }
}
