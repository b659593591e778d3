/** Memo locks on a client node: while online they are the sync server's leases, remembered per socket with a
    local deadline. */
module Realtime {
  import opened SyncSchema
  import opened LockRegistry

  datatype User = User(userId: string, displayName: string)

  datatype Lease = Lease(token: string, until: real)

  /** What the node remembers about its sockets. */
  datatype Sockets = Sockets(
    users: map<Id, User>, memos: map<Id, set<Id>>, locks: map<Id, set<Id>>, tokens: map<(Id, Id), Lease>)

  /** The owner name under which the server knows a socket of this node. */
  function OwnerOf(clientId: string, sid: Id): string {
    "peer:" + clientId + ":" + sid
  }

  function AtLeastOne(t: real): real {
    if t > 1.0 then t else 1.0
  }

  /** How long a granted lease is trusted locally: three quarters of the server's, but at least a second. */
  function Deadline(ttl: real, now: real): real {
    now + AtLeastOne(ttl * 0.75)
  }

  function SetOf(m: map<Id, set<Id>>, k: Id): set<Id> {
    if k in m then m[k] else {}
  }

  /** The delegated answer to a lock request. */
  function Answered(s: Sockets, ttl: real, sid: Id, memo: Id, acquired: bool, token: string, now: real): Sockets {
    if !acquired then
      s.(locks := s.locks[sid := SetOf(s.locks, sid) - {memo}], tokens := s.tokens - {(sid, memo)})
    else if token == "" then
      s.(locks := s.locks[sid := SetOf(s.locks, sid) - {memo}])
    else
      s.(locks := s.locks[sid := SetOf(s.locks, sid) + {memo}],
        tokens := s.tokens[(sid, memo) := Lease(token, Deadline(ttl, now))])
  }

  function Forgotten(s: Sockets, sid: Id, memo: Id): Sockets {
    s.(locks := s.locks[sid := SetOf(s.locks, sid) - {memo}], tokens := s.tokens - {(sid, memo)})
  }

  predicate OwnsValidLease(s: Sockets, sid: Id, memo: Id, now: real) {
    && sid in s.users && memo in SetOf(s.memos, sid) && memo in SetOf(s.locks, sid)
    && (sid, memo) in s.tokens && s.tokens[(sid, memo)].until > now
  }

  // ------------------------------------------------------------------
  // The handlers
  // ------------------------------------------------------------------

  /** Whether a lock request goes to the server, is served locally or is refused. */
  datatype Route = Remote | Local | Refused

  /** How a delegated call ended. */
  datatype CallResult = Replied | Unreachable | PeerError

  class RealtimeServer {
    const ttl: real
    const clientId: string
    /** Whether this node is a sync client, and whether its peer is configured. */
    const runsDaemon: bool
    const peerConfigured: bool
    const registry: LockTable
    var users: map<Id, User>
    var memos: map<Id, set<Id>>
    var locks: map<Id, set<Id>>
    var tokens: map<(Id, Id), Lease>
    var online: bool
    var offlineEstablished: bool
    var quarantineUntil: real

    function Value(): Sockets
      reads this
    {
      Sockets(users, memos, locks, tokens)
    }

    constructor (ttlSeconds: real, id: string, daemon: bool, configured: bool, table: LockTable)
      ensures Value() == Sockets(map[], map[], map[], map[]) && ttl == ttlSeconds && quarantineUntil == 0.0
      ensures clientId == id && runsDaemon == daemon && peerConfigured == configured && registry == table
    {
      ttl, clientId, runsDaemon, peerConfigured, registry := ttlSeconds, id, daemon, configured, table;
      users, memos, locks, tokens := map[], map[], map[], map[];
      online, offlineEstablished, quarantineUntil := true, false, 0.0;
    }

    /** A node that is no client serves locks itself. A client asks its peer while online; offline, it serves
        them only once the outage is established and no delegated grant can still be running. */
    method ChooseRoute(now: real) returns (route: Route)
      ensures route == Remote <==> runsDaemon && online && peerConfigured
      ensures route == Local <==> !runsDaemon || (!online && offlineEstablished && now >= quarantineUntil)
    {
      if !runsDaemon {
        return Local;
      }
      if !online {
        if now < quarantineUntil || !offlineEstablished {
          return Refused;
        }
        return Local;
      }
      return if peerConfigured then Remote else Refused;
    }

    /** After an unreachable call a grant may exist that nobody heard of: local locks wait it out. */
    method AfterCall(result: CallResult, now: real)
      modifies this`online, this`quarantineUntil, this`offlineEstablished
      ensures result == Replied ==> online == old(online) && quarantineUntil == 0.0
      ensures result == Unreachable ==> !online && quarantineUntil == now + ttl
      ensures result == PeerError ==> online == old(online) && quarantineUntil == old(quarantineUntil)
    {
      match result {
        case Replied => quarantineUntil := 0.0;
        case Unreachable =>
          online, offlineEstablished := false, true;
          quarantineUntil := now + ttl;
        case PeerError =>
      }
    }

    /** What the node remembers about other sockets and other memos is as it was. */
    twostate predicate OthersKeepLeases(sid: Id, memo: Id)
      reads this
    {
      && (forall key | key != (sid, memo) :: key in tokens <==> key in old(tokens))
      && (forall key | key != (sid, memo) && key in tokens :: tokens[key] == old(tokens)[key])
      && (forall s, m | s != sid || m != memo :: m in SetOf(locks, s) <==> m in SetOf(old(locks), s))
    }

    method HandleAcquired(sid: Id, memo: Id, acquired: bool, token: string, now: real) returns (locked: bool)
      modifies this`locks, this`tokens
      ensures Value() == Answered(old(Value()), ttl, sid, memo, acquired, token, now)
      ensures locked == (acquired && token != "")
      ensures locked ==>
                && memo in SetOf(locks, sid) && (sid, memo) in tokens && tokens[(sid, memo)].token == token
                && tokens[(sid, memo)].until == now + (if ttl * 0.75 > 1.0 then ttl * 0.75 else 1.0)
      ensures !locked ==> memo !in SetOf(locks, sid)
      ensures !acquired ==> (sid, memo) !in tokens
      ensures acquired && token == "" ==> tokens == old(tokens)
      ensures OthersKeepLeases(sid, memo)
    {
      var held := if sid in locks then locks[sid] else {};
      if !acquired {
        locks := locks[sid := held - {memo}];
        tokens := tokens - {(sid, memo)};
        return false;
      }
      locks := locks[sid := held + {memo}];
      if token == "" {
        locks := locks[sid := locks[sid] - {memo}];
        assert held + {memo} - {memo} == held - {memo};
        return false;
      }
      tokens := tokens[(sid, memo) := Lease(token, Deadline(ttl, now))];
      return true;
    }

    /** After the release call: a socket that holds nothing has nothing to give up, and a delegation that failed
        leaves its lease; any answer makes the socket forget it. */
    method HandleReleased(sid: Id, memo: Id, delegationFailed: bool)
      modifies this`locks, this`tokens
      ensures Value() == if memo !in SetOf(old(locks), sid) || delegationFailed then old(Value())
                         else Forgotten(old(Value()), sid, memo)
      ensures memo in SetOf(old(locks), sid) && !delegationFailed ==>
                memo !in SetOf(locks, sid) && (sid, memo) !in tokens
      ensures OthersKeepLeases(sid, memo)
    {
      if memo !in SetOf(locks, sid) || delegationFailed {
        return;
      }
      locks := locks[sid := SetOf(locks, sid) - {memo}];
      tokens := tokens - {(sid, memo)};
    }

    /** The lease is recorded and within its local deadline; a node that is no client also asks its registry. */
    ghost predicate Owns(sid: Id, memo: Id, now: real)
      reads this, registry
    {
      && OwnsValidLease(Value(), sid, memo, now)
      && (runsDaemon
          || Validates(registry.Value(), memo, tokens[(sid, memo)].token, Some(users[sid].userId),
             Some(clientId + ":" + sid), now))
    }

    method SocketOwnsValidLease(sid: Id, memo: Id, now: real) returns (owns: bool)
      ensures owns == Owns(sid, memo, now)
      ensures owns <==>
                && sid in users && sid in memos && memo in memos[sid] && sid in locks && memo in locks[sid]
                && (sid, memo) in tokens && tokens[(sid, memo)].until > now
                && (!runsDaemon ==>
                      && tokens[(sid, memo)].token != "" && memo in registry.locks
                      && registry.locks[memo].expiresAt > now
                      && registry.locks[memo].token == tokens[(sid, memo)].token
                      && registry.locks[memo].userId == users[sid].userId
                      && registry.locks[memo].ownerKey == clientId + ":" + sid)
    {
      if sid !in users || memo !in SetOf(memos, sid) || memo !in SetOf(locks, sid) {
        return false;
      }
      if (sid, memo) !in tokens || tokens[(sid, memo)].until <= now {
        return false;
      }
      if runsDaemon {
        return true;
      }
      owns := registry.Validate(memo, tokens[(sid, memo)].token, Some(users[sid].userId), Some(clientId + ":" + sid),
        now);
    }

    /** A write over HTTP is covered by any socket of the same user that holds this token's lease. */
    method ValidateRestLease(memo: Id, user: string, token: string, now: real) returns (valid: bool)
      ensures valid <==> token != "" && exists sid :: sid in users && users[sid].userId == user && Owns(sid, memo, now)
                                                      && tokens[(sid, memo)].token == token
    {
      if token == "" {
        return false;
      }
      var todo := users.Keys;
      while todo != {}
        invariant todo <= users.Keys
        invariant forall sid | sid in users && sid !in todo ::
          !(users[sid].userId == user && Owns(sid, memo, now) && tokens[(sid, memo)].token == token)
        decreases todo
      {
        var sid :| sid in todo;
        if users[sid].userId == user {
          var owns := SocketOwnsValidLease(sid, memo, now);
          if owns && tokens[(sid, memo)].token == token {
            return true;
          }
        }
        todo := todo - {sid};
      }
      return false;
    }
  }

  // ------------------------------------------------------------------
  // Two nodes: the server's registry, this node's sockets, grants on their way
  // ------------------------------------------------------------------

  datatype Grant = Grant(owner: string, memo: Id, token: string, at: real)

  /** `ended`: tokens whose lease some release gave up. */
  datatype Nodes = Nodes(server: Registry, sockets: Sockets, grants: set<Grant>, ended: set<string>, clock: real)

  datatype Move =
    | ServerEvent(event: Event)
    | GrantArrives(sid: Id, grant: Grant, now: real)
    | Denied(sid: Id, memo: Id, now: real)
    | ReleaseArrives(sid: Id, memo: Id, now: real)
    | SocketsChange(users: map<Id, User>, memos: map<Id, set<Id>>, now: real)

  function TimeOf(m: Move): real {
    match m
    case ServerEvent(e) => e.now
    case GrantArrives(_, _, now) => now
    case Denied(_, _, now) => now
    case ReleaseArrives(_, _, now) => now
    case SocketsChange(_, _, now) => now
  }

  function GivenUp(r: Registry, e: Event): set<string> {
    match e
    case ReleaseEvent(memo, owner, force, now) =>
      if Releases(r, memo, owner, force, now) then {r.locks[memo].token} else {}
    case ReleaseAllEvent(owner, _) => set memo | memo in OwnedBy(r, owner) :: r.locks[memo].token
    case _ => {}
  }

  function NewGrants(r: Registry, now: Registry, e: Event): set<Grant> {
    if e.AcquireEvent? && Grants(r, e.memo, e.owner, e.now) && e.memo in now.locks then
      {Grant(e.owner, e.memo, now.locks[e.memo].token, e.now)}
    else {}
  }

  function Moved(clientId: string, ttl: real, s: Nodes, m: Move): Nodes {
    var t := s.(clock := TimeOf(m));
    match m
    case ServerEvent(e) =>
      var server := Step(ttl, s.server, e);
      t.(server := server, grants := s.grants + NewGrants(s.server, server, e), ended := s.ended + GivenUp(s.server, e))
    case GrantArrives(sid, g, now) => t.(sockets := Answered(s.sockets, ttl, sid, g.memo, true, g.token, now))
    case Denied(sid, memo, now) => t.(sockets := Answered(s.sockets, ttl, sid, memo, false, "", now))
    case ReleaseArrives(sid, memo, _) => t.(sockets := Forgotten(s.sockets, sid, memo))
    case SocketsChange(users, memos, _) => t.(sockets := s.sockets.(users := users, memos := memos))
  }

  /** Time passes; a grant that arrives was issued to that socket and is handled within a quarter of the TTL. */
  ghost predicate Possible(clientId: string, ttl: real, s: Nodes, m: Move) {
    && s.clock <= TimeOf(m)
    && (m.GrantArrives? ==>
         m.grant in s.grants && m.grant.owner == OwnerOf(clientId, m.sid) && m.now <= m.grant.at + ttl / 4.0)
  }

  const NOTHING := Nodes(EMPTY_REGISTRY, Sockets(map[], map[], map[], map[]), {}, {}, 0.0)

  function AfterMoves(clientId: string, ttl: real, moves: seq<Move>): Nodes {
    if moves == [] then NOTHING
    else Moved(clientId, ttl, AfterMoves(clientId, ttl, moves[..|moves| - 1]), moves[|moves| - 1])
  }

  ghost predicate IsHistory(clientId: string, ttl: real, moves: seq<Move>) {
    forall i | 0 <= i < |moves| :: Possible(clientId, ttl, AfterMoves(clientId, ttl, moves[..i]), moves[i])
  }

  /** The promise is over, was given up, or is kept by the server's present lease. */
  ghost predicate Backed(s: Nodes, owner: string, memo: Id, token: string, until: real) {
    || until <= s.clock
    || token in s.ended
    || (memo in s.server.locks && s.server.locks[memo].ownerKey == owner && s.server.locks[memo].token == token
        && s.server.locks[memo].expiresAt >= until)
  }

  ghost predicate AllBacked(clientId: string, ttl: real, s: Nodes) {
    && ExpiriesAhead(ttl, s.server, s.clock)
    && (forall g | g in s.grants :: Backed(s, g.owner, g.memo, g.token, g.at + ttl))
    && (forall key | key in s.sockets.tokens ::
          Backed(s, OwnerOf(clientId, key.0), key.1, s.sockets.tokens[key].token, s.sockets.tokens[key].until))
  }

  lemma PromiseSurvives(ttl: real, s: Nodes, t: Nodes, e: Event, owner: string, memo: Id, token: string, until: real)
    requires ttl > 0.0 && s.clock <= e.now && ExpiriesAhead(ttl, s.server, s.clock)
    requires t.server == Step(ttl, s.server, e) && t.ended == s.ended + GivenUp(s.server, e) && t.clock == e.now
    requires Backed(s, owner, memo, token, until)
    ensures Backed(t, owner, memo, token, until)
  {
    if until > e.now && token !in s.ended {
      var h := s.server.locks[memo];
      if !Ends(s.server, e, memo) {
        LeaseSurvivesStep(ttl, s.server, e, memo);
      } else {
        assert h.expiresAt > e.now;
        if e.ReleaseAllEvent? { assert memo in OwnedBy(s.server, e.owner); }
        assert token in GivenUp(s.server, e);
      }
    }
  }

  lemma ServerEventKeepsBacked(clientId: string, ttl: real, s: Nodes, e: Event)
    requires ttl > 0.0 && AllBacked(clientId, ttl, s) && s.clock <= e.now
    ensures AllBacked(clientId, ttl, Moved(clientId, ttl, s, ServerEvent(e)))
  {
    var t := Moved(clientId, ttl, s, ServerEvent(e));
    forall g | g in t.grants ensures Backed(t, g.owner, g.memo, g.token, g.at + ttl) {
      if g in s.grants { PromiseSurvives(ttl, s, t, e, g.owner, g.memo, g.token, g.at + ttl); }
    }
    forall key | key in t.sockets.tokens
      ensures Backed(t, OwnerOf(clientId, key.0), key.1, t.sockets.tokens[key].token, t.sockets.tokens[key].until)
    {
      PromiseSurvives(ttl, s, t, e, OwnerOf(clientId, key.0), key.1, s.sockets.tokens[key].token,
        s.sockets.tokens[key].until);
    }
  }

  lemma MoveKeepsBacked(clientId: string, ttl: real, s: Nodes, m: Move)
    requires ttl * 0.75 >= 1.0 && AllBacked(clientId, ttl, s) && Possible(clientId, ttl, s, m)
    ensures AllBacked(clientId, ttl, Moved(clientId, ttl, s, m))
  {
    match m {
      case ServerEvent(e) => ServerEventKeepsBacked(clientId, ttl, s, e);
      case GrantArrives(sid, g, now) =>
        DeadlineIsSafeExactly(ttl, g.at, now);
        hide OwnerOf, Deadline;
      case _ => hide OwnerOf;
    }
  }

  lemma {:induction false} HistoryKeepsBacked(clientId: string, ttl: real, moves: seq<Move>)
    requires ttl * 0.75 >= 1.0 && IsHistory(clientId, ttl, moves)
    ensures AllBacked(clientId, ttl, AfterMoves(clientId, ttl, moves))
  {
    hide AllBacked, Possible, Moved;
    if moves == [] {
      NothingIsBacked(clientId, ttl);
    } else {
      var n := |moves| - 1;
      assert forall i | 0 <= i < n :: moves[..n][..i] == moves[..i];
      HistoryKeepsBacked(clientId, ttl, moves[..n]);
      MoveKeepsBacked(clientId, ttl, AfterMoves(clientId, ttl, moves[..n]), moves[n]);
    }
  }

  lemma NothingIsBacked(clientId: string, ttl: real)
    ensures AllBacked(clientId, ttl, NOTHING)
  {
  }

  /** The local deadline stays within the server's lease exactly when the answer is handled early enough:
      within a quarter of the TTL where three quarters of it are at least a second. */
  lemma DeadlineIsSafeExactly(ttl: real, at: real, now: real)
    ensures Deadline(ttl, now) <= at + ttl <==> now - at <= ttl - AtLeastOne(ttl * 0.75)
    ensures ttl * 0.75 >= 1.0 ==> (Deadline(ttl, now) <= at + ttl <==> now <= at + ttl / 4.0)
  {
  }

  /** Whenever the node says a socket holds a valid lease that nobody released, the server's registry holds
      that owner and token, unexpired. */
  lemma DelegatedLeaseIsReal(clientId: string, ttl: real, moves: seq<Move>, sid: Id, memo: Id)
    requires ttl * 0.75 >= 1.0 && IsHistory(clientId, ttl, moves)
    requires var s := AfterMoves(clientId, ttl, moves);
             && OwnsValidLease(s.sockets, sid, memo, s.clock) && s.sockets.tokens[(sid, memo)].token !in s.ended
             && s.sockets.tokens[(sid, memo)].token != ""
    ensures var s := AfterMoves(clientId, ttl, moves);
            Validates(s.server, memo, s.sockets.tokens[(sid, memo)].token, None, Some(OwnerOf(clientId, sid)), s.clock)
  {
    hide AfterMoves, OwnerOf, IsHistory;
    HistoryKeepsBacked(clientId, ttl, moves);
  }

  /** A lease the node was told is released, or was refused, is no valid lease of that socket from then on; what other
      sockets hold stays. */
  lemma ReleasedIsForgotten(clientId: string, ttl: real, s: Nodes, m: Move, sid: Id, memo: Id, now: real)
    requires m.ReleaseArrives? || m.Denied?
    ensures var t := Moved(clientId, ttl, s, m).sockets;
            && !(m.memo in SetOf(t.locks, m.sid)) && (m.sid, m.memo) !in t.tokens
            && !OwnsValidLease(t, m.sid, m.memo, now)
            && (sid != m.sid || memo != m.memo ==>
                  (OwnsValidLease(t, sid, memo, now) <==> OwnsValidLease(s.sockets, sid, memo, now)))
  {
  }

  /** No two sockets of the node both hold an unreleased valid lease on one memo. */
  lemma OneValidSocket(clientId: string, ttl: real, moves: seq<Move>, sid: Id, other: Id, memo: Id)
    requires ttl * 0.75 >= 1.0 && IsHistory(clientId, ttl, moves)
    requires var s := AfterMoves(clientId, ttl, moves);
             && OwnsValidLease(s.sockets, sid, memo, s.clock) && OwnsValidLease(s.sockets, other, memo, s.clock)
             && s.sockets.tokens[(sid, memo)].token !in s.ended && s.sockets.tokens[(other, memo)].token !in s.ended
             && s.sockets.tokens[(sid, memo)].token != "" && s.sockets.tokens[(other, memo)].token != ""
    ensures sid == other
  {
    DelegatedLeaseIsReal(clientId, ttl, moves, sid, memo);
    DelegatedLeaseIsReal(clientId, ttl, moves, other, memo);
    var prefix := "peer:" + clientId + ":";
    assert (prefix + sid)[|prefix|..] == sid && (prefix + other)[|prefix|..] == other;
    hide AfterMoves, IsHistory;
  }
}
