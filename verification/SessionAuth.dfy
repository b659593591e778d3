/** Login sessions in memory: every method is one critical section, and refreshes, logouts, rejections and
    offline conversions interleave freely between them. */
module SessionAuth {
  import opened SyncSchema

  /** `uid` is the object's identity: a replacement is another object under the same id. */
  datatype Session = Session(
    uid: nat, refreshToken: string, expiresAt: Option<int>, account: Id, issuer: string, offline: bool)

  /** A token response of the authorisation server. */
  datatype Tokens = Tokens(refreshToken: string, expiresAt: int, account: Id, issuer: string)

  /** The identity cached at the last online login. */
  datatype Identity = Identity(account: Id, issuer: string)

  datatype Sessions = Sessions(live: map<Id, Session>, revoked: set<string>, nextUid: nat)

  const NO_SESSIONS := Sessions(map[], {}, 0)

  const REFRESH_MARGIN_SECONDS: int := 30

  function Online(uid: nat, t: Tokens): Session {
    Session(uid, t.refreshToken, Some(t.expiresAt), t.account, t.issuer, false)
  }

  // ------------------------------------------------------------------
  // What each critical section does
  // ------------------------------------------------------------------

  function LoggedIn(s: Sessions, id: Id, t: Tokens): Sessions {
    s.(live := s.live[id := Online(s.nextUid, t)], nextUid := s.nextUid + 1)
  }

  /** A refresh that ran for `id` on `token` may only replace the session it started from. */
  predicate Installs(s: Sessions, id: Id, token: string) {
    id in s.live && s.live[id].refreshToken == token
  }

  function Refreshed(s: Sessions, id: Id, token: string, t: Tokens): Sessions {
    if Installs(s, id, token) then LoggedIn(s, id, t)
    else s.(revoked := s.revoked + {t.refreshToken})
  }

  function RefreshRejected(s: Sessions, id: Id, token: string): Sessions {
    if Installs(s, id, token) then s.(live := s.live - {id}) else s
  }

  predicate MayGoOffline(current: Session, identity: Option<Identity>, syncAccount: Id) {
    && current.account != "" && (syncAccount != "" ==> current.account == syncAccount)
    && current.issuer != "" && identity == Some(Identity(current.account, current.issuer))
  }

  /** The object read before the identity lookup must still be the present one. */
  function WentOffline(s: Sessions, id: Id, current: Session, identity: Option<Identity>, syncAccount: Id): Sessions {
    if !MayGoOffline(current, identity, syncAccount) || id !in s.live || s.live[id].uid != current.uid then s
    else
      var offline := Session(s.nextUid, "", None, identity.value.account, current.issuer, true);
      s.(live := s.live[id := offline], nextUid := s.nextUid + 1)
  }

  function LoggedOut(s: Sessions, id: Id, token: string): Sessions {
    s.(live := s.live - {id}, revoked := if token != "" then s.revoked + {token} else s.revoked)
  }

  class TodoSessionService {
    var live: map<Id, Session>
    var revoked: set<string>
    var nextUid: nat

    function Value(): Sessions
      reads this
    {
      Sessions(live, revoked, nextUid)
    }

    constructor ()
      ensures Value() == NO_SESSIONS
    {
      live, revoked, nextUid := map[], {}, 0;
    }

    method StoreSession(id: Id, t: Tokens)
      modifies this
      ensures Value() == LoggedIn(old(Value()), id, t)
      ensures live == old(live)[id :=
                        Session(old(nextUid), t.refreshToken, Some(t.expiresAt), t.account, t.issuer, false)]
    {
      live := live[id := Online(nextUid, t)];
      nextUid := nextUid + 1;
    }

    /** The session, when present, and whether its access token is about to expire. */
    method GetForUse(id: Id, now: int) returns (current: Option<Session>, mustRefresh: bool)
      ensures current == if id in live then Some(live[id]) else None
      ensures mustRefresh <==>
                id in live && live[id].expiresAt.Some? && live[id].expiresAt.value - now <= 30
    {
      if id !in live {
        return None, false;
      }
      current := Some(live[id]);
      mustRefresh := live[id].expiresAt.Some? && live[id].expiresAt.value - now <= REFRESH_MARGIN_SECONDS;
    }

    /** The token request came back; if the session is gone or was replaced meanwhile the new refresh token
        is revoked instead of stored. */
    method FinishRefresh(id: Id, token: string, t: Tokens) returns (replaced: bool)
      modifies this
      ensures Value() == Refreshed(old(Value()), id, token, t)
      ensures replaced == Installs(old(Value()), id, token)
      ensures replaced <==> id in old(live) && old(live)[id].refreshToken == token
      ensures replaced ==>
                && revoked == old(revoked)
                && live == old(live)[id :=
                             Session(old(nextUid), t.refreshToken, Some(t.expiresAt), t.account, t.issuer, false)]
      ensures !replaced ==> revoked == old(revoked) + {t.refreshToken} && live == old(live)
    {
      replaced := id in live && live[id].refreshToken == token;
      if replaced {
        live := live[id := Online(nextUid, t)];
        nextUid := nextUid + 1;
      } else {
        revoked := revoked + {t.refreshToken};
      }
    }

    method DeleteIfRefreshToken(id: Id, token: string)
      modifies this
      ensures Value() == RefreshRejected(old(Value()), id, token)
      ensures id in old(live) && old(live)[id].refreshToken == token ==> live == old(live) - {id}
      ensures id !in old(live) || old(live)[id].refreshToken != token ==> live == old(live)
      ensures revoked == old(revoked)
    {
      if id !in live || live[id].refreshToken != token {
        return;
      }
      live := live - {id};
    }

    method ToOffline(id: Id, current: Session, identity: Option<Identity>, syncAccount: Id) returns (converted: bool)
      modifies this
      ensures Value() == WentOffline(old(Value()), id, current, identity, syncAccount)
      ensures converted <==>
                && current.account != "" && (syncAccount != "" ==> current.account == syncAccount)
                && current.issuer != "" && identity == Some(Identity(current.account, current.issuer))
                && id in old(live) && old(live)[id].uid == current.uid
      ensures converted ==>
                live == old(live)[id := Session(old(nextUid), "", None, current.account, current.issuer, true)]
      ensures !converted ==> live == old(live)
    {
      if current.account == "" || (syncAccount != "" && current.account != syncAccount) {
        return false;
      }
      if current.issuer == "" {
        return false;
      }
      if identity.None? || identity.value.account != current.account || identity.value.issuer != current.issuer {
        return false;
      }
      if id !in live || live[id].uid != current.uid {
        return false;
      }
      live := live[id := Session(nextUid, "", None, identity.value.account, current.issuer, true)];
      nextUid := nextUid + 1;
      converted := true;
    }

    /** Logout deletes whatever is stored under the id and revokes the token it had read. */
    method Delete(id: Id, token: string)
      modifies this
      ensures Value() == LoggedOut(old(Value()), id, token)
      ensures live == old(live) - {id}
      ensures revoked == if token == "" then old(revoked) else old(revoked) + {token}
    {
      live := live - {id};
      if token != "" {
        revoked := revoked + {token};
      }
    }
  }

  // ------------------------------------------------------------------
  // Interleavings: any section, with whatever was read at any earlier time
  // ------------------------------------------------------------------

  datatype Event =
    | Login(id: Id, tokens: Tokens)
    | RefreshEnds(id: Id, token: string, tokens: Tokens)
    | RejectionEnds(id: Id, token: string)
    | OfflineEnds(id: Id, current: Session, identity: Option<Identity>, syncAccount: Id)
    | Logout(id: Id, token: string)

  function Step(s: Sessions, e: Event): Sessions {
    match e
    case Login(id, t) => LoggedIn(s, id, t)
    case RefreshEnds(id, token, t) => Refreshed(s, id, token, t)
    case RejectionEnds(id, token) => RefreshRejected(s, id, token)
    case OfflineEnds(id, current, identity, syncAccount) => WentOffline(s, id, current, identity, syncAccount)
    case Logout(id, token) => LoggedOut(s, id, token)
  }

  function After(events: seq<Event>): Sessions {
    if events == [] then NO_SESSIONS else Step(After(events[..|events| - 1]), events[|events| - 1])
  }

  function LoginIds(events: seq<Event>): set<Id> {
    if events == [] then {}
    else LoginIds(events[..|events| - 1]) + if events[|events| - 1].Login? then {events[|events| - 1].id} else {}
  }

  function IssuedTokens(events: seq<Event>): set<string> {
    if events == [] then {""}
    else
      var e := events[|events| - 1];
      IssuedTokens(events[..|events| - 1]) + if e.Login? || e.RefreshEnds? then {e.tokens.refreshToken} else {}
  }

  /** Session ids are random. */
  ghost predicate IsRun(events: seq<Event>) {
    forall i | 0 <= i < |events| && events[i].Login? :: events[i].id !in LoginIds(events[..i])
  }

  /** The authorisation server rotates refresh tokens: it never issues one twice. */
  ghost predicate TokensRotate(events: seq<Event>) {
    forall i | 0 <= i < |events| && (events[i].Login? || events[i].RefreshEnds?) ::
      events[i].tokens.refreshToken !in IssuedTokens(events[..i])
  }

  lemma PrefixRotates(events: seq<Event>, n: nat)
    requires TokensRotate(events) && n <= |events|
    ensures TokensRotate(events[..n])
  {
    assert forall i | 0 <= i < n :: events[..n][..i] == events[..i];
  }

  lemma PrefixIsRun(events: seq<Event>, n: nat)
    requires IsRun(events) && n <= |events|
    ensures IsRun(events[..n])
  {
    assert forall i | 0 <= i < n :: events[..n][..i] == events[..i];
  }

  lemma {:induction false} LoginIdsGrow(events: seq<Event>, i: nat)
    requires i <= |events|
    ensures LoginIds(events[..i]) <= LoginIds(events)
    ensures IssuedTokens(events[..i]) <= IssuedTokens(events)
  {
    if i == |events| {
      assert events[..i] == events;
    } else {
      assert events[..|events| - 1][..i] == events[..i];
      LoginIdsGrow(events[..|events| - 1], i);
    }
  }

  lemma {:induction false} LiveLoggedIn(events: seq<Event>)
    ensures After(events).live.Keys <= LoginIds(events)
    ensures forall id | id in After(events).live :: After(events).live[id].refreshToken in IssuedTokens(events)
  {
    if events != [] {
      LiveLoggedIn(events[..|events| - 1]);
      EmptyIsIssued(events[..|events| - 1]);
    }
  }

  lemma {:induction false} EmptyIsIssued(events: seq<Event>)
    ensures "" in IssuedTokens(events)
  {
    if events != [] { EmptyIsIssued(events[..|events| - 1]); }
  }

  // ------------------------------------------------------------------
  // No resurrection
  // ------------------------------------------------------------------

  lemma OnlyLoginAdds(s: Sessions, e: Event, id: Id)
    requires id !in s.live && (e.Login? ==> e.id != id)
    ensures id !in Step(s, e).live
  {
  }

  /** Whatever refresh, rejection or conversion was still under way, a session that is gone stays gone. */
  lemma {:induction false} DeletedStaysDeleted(events: seq<Event>, i: nat, j: nat, id: Id)
    requires IsRun(events) && i <= j <= |events|
    requires id in After(events[..i]).live && id !in After(events[..j]).live
    ensures id !in After(events).live
    decreases |events|
  {
    hide Step, LoginIds, IssuedTokens;
    if j == |events| {
      assert events[..j] == events;
    } else {
      var n := |events| - 1;
      PrefixIsRun(events, n);
      assert events[..n][..i] == events[..i] && events[..n][..j] == events[..j];
      DeletedStaysDeleted(events[..n], i, j, id);
      LiveLoggedIn(events[..i]);
      LoginIdsGrow(events[..n], i);
      OnlyLoginAdds(After(events[..n]), events[n], id);
    }
  }

  /** After a logout the id is dead, and a refresh that ends later hands its new token to revocation. */
  lemma LateRefreshIsRevoked(events: seq<Event>, i: nat, j: nat)
    requires IsRun(events) && i < j < |events|
    requires events[i].Logout? && events[j].RefreshEnds? && events[j].id == events[i].id
    requires events[i].id in After(events[..i]).live
    ensures events[i].id !in After(events[..j + 1]).live
    ensures events[j].tokens.refreshToken in After(events[..j + 1]).revoked
  {
    hide IssuedTokens, LoginIds;
    var id := events[i].id;
    assert events[..i + 1][..i] == events[..i] && events[..j + 1][..j] == events[..j];
    assert events[..j][..i + 1] == events[..i + 1] && events[..j][..i] == events[..i];
    assert After(events[..i + 1]) == Step(After(events[..i]), events[i]);
    assert After(events[..j + 1]) == Step(After(events[..j]), events[j]);
    PrefixIsRun(events, j);
    hide IsRun, After;
    DeletedStaysDeleted(events[..j], i, i + 1, id);
  }

  /** When refresh tokens rotate, one read before is refreshed away at most once. */
  lemma OneRefreshPerToken(events: seq<Event>, i: nat, j: nat, id: Id, token: string)
    requires TokensRotate(events) && i < j < |events| && token in IssuedTokens(events[..i]) && token != ""
    requires events[i].RefreshEnds? && events[i].id == id && events[i].token == token
             && Installs(After(events[..i]), id, token)
    requires events[j].RefreshEnds? && events[j].id == id && events[j].token == token
    ensures !Installs(After(events[..j]), id, token)
  {
    assert events[..i + 1][..i] == events[..i];
    assert !Installs(After(events[..i + 1]), id, token);
    PrefixRotates(events, j);
    assert events[..j][..i + 1] == events[..i + 1];
    LoginIdsGrow(events[..i + 1], i);
    ReplacedTokenStaysReplaced(events[..j], i + 1, id, token);
  }

  lemma {:induction false} ReplacedTokenStaysReplaced(events: seq<Event>, i: nat, id: Id, token: string)
    requires TokensRotate(events) && i <= |events| && token in IssuedTokens(events[..i]) && token != ""
    requires !Installs(After(events[..i]), id, token)
    ensures !Installs(After(events), id, token)
  {
    if i == |events| {
      assert events[..i] == events;
    } else {
      var n := |events| - 1;
      PrefixRotates(events, n);
      assert events[..n][..i] == events[..i];
      ReplacedTokenStaysReplaced(events[..n], i, id, token);
      LoginIdsGrow(events[..n], i);
    }
  }

  /** A server that returns the same refresh token again lets two refreshes of it be installed. */
  lemma UnrotatedTokenIsRefreshedAgain(id: Id, tokens: Tokens)
    requires tokens.refreshToken != ""
    ensures var again := RefreshEnds(id, tokens.refreshToken, tokens);
            var events := [Login(id, tokens), again, again];
            && IsRun(events)
            && Installs(After(events[..1]), id, tokens.refreshToken)
            && Installs(After(events[..2]), id, tokens.refreshToken)
  {
    var again := RefreshEnds(id, tokens.refreshToken, tokens);
    var events := [Login(id, tokens), again, again];
    assert events[..0] == [] && events[..1] == [Login(id, tokens)] && events[..1][..0] == [];
    assert events[..2] == [Login(id, tokens), again] && events[..2][..1] == events[..1];
    assert After(events[..1]) == LoggedIn(NO_SESSIONS, id, tokens);
  }

  // ------------------------------------------------------------------
  // The account behind a session
  // ------------------------------------------------------------------

  /** The event installs a refreshed session of another account or issuer: the code does not compare them. */
  predicate SwitchesAccount(s: Sessions, e: Event, id: Id) {
    && e.RefreshEnds? && e.id == id && Installs(s, id, e.token)
    && (e.tokens.account != s.live[id].account || e.tokens.issuer != s.live[id].issuer)
  }

  /** Every session object read is the one that carried its uid: uids name objects. */
  ghost predicate ReadsAreReal(events: seq<Event>) {
    forall i | 0 <= i < |events| && events[i].OfflineEnds? ::
      exists k :: 0 <= k <= i && events[i].id in After(events[..k]).live
                  && After(events[..k]).live[events[i].id] == events[i].current
  }

  lemma {:induction false} UidsAreOld(events: seq<Event>)
    ensures forall id | id in After(events).live :: After(events).live[id].uid < After(events).nextUid
  {
    if events != [] { UidsAreOld(events[..|events| - 1]); }
  }

  lemma StepNamesObjects(s: Sessions, e: Event, id: Id)
    requires id in Step(s, e).live
    ensures (id in s.live && Step(s, e).live[id] == s.live[id]) || Step(s, e).live[id].uid == s.nextUid
  {
  }

  /** The same uid under the same id is the same session, at whatever two moments it is seen. */
  lemma {:induction false} SameUidSameSession(events: seq<Event>, i: nat, id: Id)
    requires i <= |events| && id in After(events[..i]).live && id in After(events).live
    requires After(events[..i]).live[id].uid == After(events).live[id].uid
    ensures After(events[..i]).live[id] == After(events).live[id]
  {
    if i == |events| {
      assert events[..i] == events;
    } else {
      var n := |events| - 1;
      assert events[..n][..i] == events[..i];
      UidsAreOld(events[..i]);
      UidsGrow(events[..n], i);
      hide Step;
      StepNamesObjects(After(events[..n]), events[n], id);
      if id in After(events[..n]).live && After(events).live[id] == After(events[..n]).live[id] {
        SameUidSameSession(events[..n], i, id);
      }
    }
  }

  lemma {:induction false} UidsGrow(events: seq<Event>, i: nat)
    requires i <= |events|
    ensures After(events[..i]).nextUid <= After(events).nextUid
  {
    if i == |events| {
      assert events[..i] == events;
    } else {
      assert events[..|events| - 1][..i] == events[..i];
      UidsGrow(events[..|events| - 1], i);
    }
  }

  predicate SameAccount(a: Session, b: Session) {
    a.account == b.account && a.issuer == b.issuer
  }

  /** A step on a living session keeps its account and issuer if and only if it does not install a refresh that
      names others. The conversion to an offline session always keeps them. */
  lemma AccountChangesExactlyOnSwitch(events: seq<Event>, i: nat, id: Id)
    requires IsRun(events) && ReadsAreReal(events) && i < |events|
    requires id in After(events[..i]).live && id in After(events[..i + 1]).live
    ensures SameAccount(After(events[..i]).live[id], After(events[..i + 1]).live[id])
            <==> !SwitchesAccount(After(events[..i]), events[i], id)
  {
    hide Step, LoginIds, IssuedTokens, Installs, SameAccount;
    var e, s := events[i], After(events[..i]);
    PrefixIsRun(events, i);
    LiveLoggedIn(events[..i]);
    assert events[..i + 1][..i] == events[..i];
    assert After(events[..i + 1]) == Step(s, e);
    if e.OfflineEnds? && e.id == id && s.live[id].uid == e.current.uid {
      var k :| 0 <= k <= i && id in After(events[..k]).live && After(events[..k]).live[id] == e.current;
      assert events[..i][..k] == events[..k];
      SameUidSameSession(events[..i], k, id);
    }
    StepChangesAccount(s, e, id);
  }

  lemma StepChangesAccount(s: Sessions, e: Event, id: Id)
    requires id in s.live && id in Step(s, e).live && (e.Login? ==> e.id != id)
    requires e.OfflineEnds? && e.id == id && s.live[id].uid == e.current.uid ==> s.live[id] == e.current
    ensures SameAccount(s.live[id], Step(s, e).live[id]) <==> !SwitchesAccount(s, e, id)
  {
  }

  /** As long as a session lives, online, refreshed or offline, it belongs to the account and issuer it had
      at any earlier moment, unless a refresh that names others was installed in between. */
  lemma {:induction false} AccountChangesOnlyBySwitch(events: seq<Event>, i: nat, id: Id)
    requires IsRun(events) && ReadsAreReal(events)
    requires i <= |events| && id in After(events[..i]).live && id in After(events).live
    ensures SameAccount(After(events[..i]).live[id], After(events).live[id])
            || exists k :: i <= k < |events| && SwitchesAccount(After(events[..k]), events[k], id)
  {
    hide SwitchesAccount, SameAccount, Step, LoginIds, IssuedTokens;
    if i == |events| {
      assert events[..i] == events;
      SameSession(After(events).live[id]);
    } else {
      var n := |events| - 1;
      if id !in After(events[..n]).live { DeletedStaysDeleted(events, i, n, id); }
      PrefixIsRun(events, n);
      PrefixReadsAreReal(events, n);
      assert events[..n][..i] == events[..i] && events[..n + 1] == events;
      AccountChangesOnlyBySwitch(events[..n], i, id);
      AccountChangesExactlyOnSwitch(events, n, id);
      if k :| i <= k < n && SwitchesAccount(After(events[..n][..k]), events[..n][k], id) {
        assert events[..n][..k] == events[..k];
      } else if !SwitchesAccount(After(events[..n]), events[n], id) {
        SameAccountTrans(After(events[..i]).live[id], After(events[..n]).live[id], After(events).live[id]);
      }
    }
  }

  lemma PrefixReadsAreReal(events: seq<Event>, n: nat)
    requires ReadsAreReal(events) && n <= |events|
    ensures ReadsAreReal(events[..n])
  {
    hide Step;
    assert forall k | 0 <= k <= n :: events[..n][..k] == events[..k];
  }

  lemma SameSession(a: Session)
    ensures SameAccount(a, a)
  {
  }

  lemma SameAccountTrans(a: Session, b: Session, c: Session)
    requires SameAccount(a, b) && SameAccount(b, c)
    ensures SameAccount(a, c)
  {
  }

  /** A refresh response that names another account is installed. */
  lemma RefreshMaySwitchAccount(id: Id, first: Tokens, second: Tokens)
    requires first.refreshToken != "" && first.account != second.account
    ensures var events := [Login(id, first), RefreshEnds(id, first.refreshToken, second)];
            && IsRun(events) && ReadsAreReal(events)
            && id in After(events).live && After(events).live[id].account == second.account
  {
    var events := [Login(id, first), RefreshEnds(id, first.refreshToken, second)];
    assert events[..0] == [] && events[..1] == [Login(id, first)] && events[..1][..0] == [];
    assert After(events[..1]) == LoggedIn(NO_SESSIONS, id, first);
  }
}
