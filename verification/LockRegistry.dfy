/** The lease registry: one holder per memo, generations that only grow, and expiry timers that may fire late,
    early, or for a lease that is already gone. */
module LockRegistry {
  import opened SyncSchema

  datatype LockHolder = LockHolder(
    ownerKey: string, userId: string, displayName: string, token: string, generation: nat, expiresAt: real)

  /** A scheduled expiry remembers the lease it was started for. */
  datatype Timer = Timer(ownerKey: string, expiresAt: real)

  datatype Registry = Registry(locks: map<Id, LockHolder>, generations: map<Id, nat>, timers: map<Id, Timer>)

  const EMPTY_REGISTRY := Registry(map[], map[], map[])

  // ------------------------------------------------------------------
  // What one call does
  // ------------------------------------------------------------------

  function LiveHolder(r: Registry, memo: Id, now: real): Option<LockHolder> {
    if memo in r.locks && r.locks[memo].expiresAt > now then Some(r.locks[memo]) else None
  }

  predicate Validates(r: Registry, memo: Id, token: string, user: Option<string>, owner: Option<string>, now: real) {
    && token != ""
    && var h := LiveHolder(r, memo, now);
    && h.Some? && h.value.token == token
    && (user.Some? ==> h.value.userId == user.value)
    && (owner.Some? ==> h.value.ownerKey == owner.value)
  }

  function NextGeneration(r: Registry, memo: Id): nat {
    (if memo in r.generations then r.generations[memo] else 0) + 1
  }

  function Install(r: Registry, memo: Id, holder: LockHolder): Registry {
    r.(locks := r.locks[memo := holder], timers := r.timers[memo := Timer(holder.ownerKey, holder.expiresAt)])
  }

  function Drop(r: Registry, memo: Id): Registry {
    r.(locks := r.locks - {memo}, timers := r.timers - {memo})
  }

  /** A heartbeat keeps token and generation and extends the lease; a free memo starts a new lease. */
  function Acquired(
    r: Registry, ttl: real, memo: Id, owner: string, user: string, name: string, token: string, now: real): Registry {
    match LiveHolder(r, memo, now)
    case Some(h) =>
      if h.ownerKey != owner then r
      else Install(r, memo, h.(expiresAt := now + ttl, userId := user, displayName := name))
    case None =>
      var generation := NextGeneration(r, memo);
      Install(r.(generations := r.generations[memo := generation]), memo,
              LockHolder(owner, user, name, token, generation, now + ttl))
  }

  predicate Grants(r: Registry, memo: Id, owner: string, now: real) {
    var h := LiveHolder(r, memo, now);
    h.None? || h.value.ownerKey == owner
  }

  /** Whatever timer fires, only the lease it was started for can end, and only once it has expired. */
  function Expired(r: Registry, memo: Id, owner: string, expiresAt: real, now: real): Registry {
    if memo in r.locks && r.locks[memo].ownerKey == owner && r.locks[memo].expiresAt == expiresAt then
      if r.locks[memo].expiresAt <= now then Drop(r, memo) else Install(r, memo, r.locks[memo])
    else r
  }

  predicate Releases(r: Registry, memo: Id, owner: Option<string>, force: bool, now: real) {
    var h := LiveHolder(r, memo, now);
    h.Some? && (force || owner.None? || h.value.ownerKey == owner.value)
  }

  function Released(r: Registry, memo: Id, owner: Option<string>, force: bool, now: real): Registry {
    if Releases(r, memo, owner, force, now) then Drop(r, memo) else r
  }

  function OwnedBy(r: Registry, owner: string): set<Id> {
    set memo | memo in r.locks && r.locks[memo].ownerKey == owner
  }

  function ReleasedAll(r: Registry, owner: string): Registry {
    r.(locks := r.locks - OwnedBy(r, owner), timers := r.timers - OwnedBy(r, owner))
  }

  // ------------------------------------------------------------------
  // The registry itself
  // ------------------------------------------------------------------

  class LockTable {
    const ttl: real
    var locks: map<Id, LockHolder>
    var generations: map<Id, nat>
    var timers: map<Id, Timer>

    function Value(): Registry
      reads this
    {
      Registry(locks, generations, timers)
    }

    constructor (ttlSeconds: real)
      ensures Value() == EMPTY_REGISTRY && ttl == ttlSeconds
    {
      ttl := ttlSeconds;
      locks, generations, timers := map[], map[], map[];
    }

    method FindLive(memo: Id, now: real) returns (holder: Option<LockHolder>)
      ensures holder == LiveHolder(Value(), memo, now)
      ensures holder == if memo in locks && locks[memo].expiresAt > now then Some(locks[memo]) else None
    {
      if memo !in locks {
        return None;
      }
      if locks[memo].expiresAt <= now {
        return None;
      }
      return Some(locks[memo]);
    }

    /** Cancels the memo's timer, if any, and starts one for this lease. */
    method ScheduleExpiry(memo: Id, holder: LockHolder)
      modifies this`timers
      ensures timers == old(timers)[memo := Timer(holder.ownerKey, holder.expiresAt)]
    {
      timers := timers - {memo};
      timers := timers[memo := Timer(holder.ownerKey, holder.expiresAt)];
    }

    method Acquire(memo: Id, owner: string, user: string, name: string, token: string, now: real)
      returns (acquired: bool, holder: LockHolder)
      modifies this
      ensures Value() == Acquired(old(Value()), ttl, memo, owner, user, name, token, now)
      ensures acquired == Grants(old(Value()), memo, owner, now)
      ensures memo in locks && holder == locks[memo]
      ensures acquired <==>
                !(memo in old(locks) && old(locks)[memo].expiresAt > now && old(locks)[memo].ownerKey != owner)
      ensures !acquired ==> locks == old(locks) && generations == old(generations) && timers == old(timers)
      ensures acquired ==>
                && holder.ownerKey == owner && holder.userId == user && holder.displayName == name
                && holder.expiresAt == now + ttl
                && locks == old(locks)[memo := holder] && timers == old(timers)[memo := Timer(owner, now + ttl)]
      ensures acquired && memo in old(locks) && old(locks)[memo].expiresAt > now ==>
                && holder.token == old(locks)[memo].token && holder.generation == old(locks)[memo].generation
                && generations == old(generations)
      ensures acquired && !(memo in old(locks) && old(locks)[memo].expiresAt > now) ==>
                && holder.token == token && generations == old(generations)[memo := holder.generation]
                && holder.generation == if memo in old(generations) then old(generations)[memo] + 1 else 1
    {
      var current := FindLive(memo, now);
      if current.Some? && current.value.ownerKey != owner {
        return false, current.value;
      }
      if current.Some? {
        holder := current.value.(expiresAt := now + ttl, userId := user, displayName := name);
      } else {
        var generation := (if memo in generations then generations[memo] else 0) + 1;
        generations := generations[memo := generation];
        holder := LockHolder(owner, user, name, token, generation, now + ttl);
      }
      locks := locks[memo := holder];
      ScheduleExpiry(memo, holder);
      acquired := true;
    }

    method Expire(memo: Id, owner: string, expiresAt: real, now: real) returns (expired: Option<LockHolder>)
      modifies this
      ensures Value() == Expired(old(Value()), memo, owner, expiresAt, now)
      ensures expired.Some? <==>
                memo in old(locks) && old(locks)[memo].ownerKey == owner
                  && old(locks)[memo].expiresAt == expiresAt <= now
      ensures expired.Some? ==>
                expired.value == old(locks)[memo] && locks == old(locks) - {memo} && timers == old(timers) - {memo}
      ensures expired.None? ==> locks == old(locks)
      ensures expired.None? && memo in locks && locks[memo].ownerKey == owner && locks[memo].expiresAt == expiresAt ==>
                timers == old(timers)[memo := Timer(owner, expiresAt)]
      ensures expired.None? && !(memo in locks && locks[memo].ownerKey == owner && locks[memo].expiresAt == expiresAt)
              ==> timers == old(timers)
    {
      expired := None;
      if memo in locks && locks[memo].ownerKey == owner && locks[memo].expiresAt == expiresAt {
        if locks[memo].expiresAt <= now {
          expired := Some(locks[memo]);
          locks := locks - {memo};
          timers := timers - {memo};
        } else {
          assert locks == locks[memo := locks[memo]];
          ScheduleExpiry(memo, locks[memo]);
        }
      }
    }

    method Release(memo: Id, owner: Option<string>, force: bool, now: real) returns (released: Option<LockHolder>)
      modifies this
      ensures Value() == Released(old(Value()), memo, owner, force, now)
      ensures released == if Releases(old(Value()), memo, owner, force, now) then Some(old(locks)[memo]) else None
      ensures released.Some? <==>
                && memo in old(locks) && old(locks)[memo].expiresAt > now
                && (force || owner.None? || owner.value == old(locks)[memo].ownerKey)
      ensures locks == (if released.Some? then old(locks) - {memo} else old(locks))
      ensures timers == (if released.Some? then old(timers) - {memo} else old(timers))
    {
      var current := FindLive(memo, now);
      if current.None? {
        return None;
      }
      if !force && owner.Some? && current.value.ownerKey != owner.value {
        return None;
      }
      locks := locks - {memo};
      timers := timers - {memo};
      released := current;
    }

    /** Everything an owner holds, expired or not. */
    method ReleaseAllForOwner(owner: string) returns (released: set<Id>)
      modifies this
      ensures Value() == ReleasedAll(old(Value()), owner) && released == OwnedBy(old(Value()), owner)
      ensures forall memo :: memo in released <==> memo in old(locks) && old(locks)[memo].ownerKey == owner
      ensures locks == old(locks) - released && timers == old(timers) - released
    {
      released := set memo | memo in locks && locks[memo].ownerKey == owner;
      var todo := released;
      while todo != {}
        invariant todo <= released && generations == old(generations)
        invariant locks == old(locks) - (released - todo) && timers == old(timers) - (released - todo)
        decreases todo
      {
        var memo :| memo in todo;
        locks := locks - {memo};
        timers := timers - {memo};
        todo := todo - {memo};
      }
      assert released - todo == released;
    }

    method Validate(
      memo: Id, token: string, user: Option<string>, owner: Option<string>, now: real) returns (valid: bool)
      ensures valid == Validates(Value(), memo, token, user, owner, now)
      ensures valid <==>
                && token != "" && memo in locks && locks[memo].expiresAt > now && locks[memo].token == token
                && (user.Some? ==> locks[memo].userId == user.value)
                && (owner.Some? ==> locks[memo].ownerKey == owner.value)
    {
      if token == "" {
        return false;
      }
      var h := FindLive(memo, now);
      valid := h.Some? && h.value.token == token
               && (user.None? || h.value.userId == user.value) && (owner.None? || h.value.ownerKey == owner.value);
    }

    method Snapshot(now: real) returns (live: map<Id, LockHolder>)
      ensures forall memo :: memo in live <==> memo in locks && locks[memo].expiresAt > now
      ensures forall memo | memo in live :: live[memo] == locks[memo]
    {
      live := map[];
      var todo := locks.Keys;
      while todo != {}
        invariant todo <= locks.Keys
        invariant forall memo :: (memo in live <==> memo !in todo && LiveHolder(Value(), memo, now).Some?)
                                 && (memo in live ==> Some(live[memo]) == LiveHolder(Value(), memo, now))
        decreases todo
      {
        var memo :| memo in todo;
        var h := FindLive(memo, now);
        if h.Some? {
          live := live[memo := h.value];
        }
        todo := todo - {memo};
      }
    }
  }

  // ------------------------------------------------------------------
  // Runs
  // ------------------------------------------------------------------

  datatype Event =
    | AcquireEvent(memo: Id, owner: string, user: string, name: string, token: string, now: real)
    | ExpireEvent(memo: Id, owner: string, expiresAt: real, now: real)
    | ReleaseEvent(memo: Id, releasedBy: Option<string>, force: bool, now: real)
    | ReleaseAllEvent(owner: string, now: real)

  function Step(ttl: real, r: Registry, e: Event): Registry {
    match e
    case AcquireEvent(memo, owner, user, name, token, now) => Acquired(r, ttl, memo, owner, user, name, token, now)
    case ExpireEvent(memo, owner, expiresAt, now) => Expired(r, memo, owner, expiresAt, now)
    case ReleaseEvent(memo, owner, force, now) => Released(r, memo, owner, force, now)
    case ReleaseAllEvent(owner, _) => ReleasedAll(r, owner)
  }

  function After(ttl: real, events: seq<Event>): Registry {
    if events == [] then EMPTY_REGISTRY
    else Step(ttl, After(ttl, events[..|events| - 1]), events[|events| - 1])
  }

  /** Every token a request brought along, granted or not. */
  function Issued(events: seq<Event>): set<string> {
    if events == [] then {}
    else
      var e := events[|events| - 1];
      Issued(events[..|events| - 1]) + if e.AcquireEvent? then {e.token} else {}
  }

  /** The clock does not go back, and every token generated is new and non-empty. */
  ghost predicate IsRun(events: seq<Event>) {
    && (forall i, j | 0 <= i <= j < |events| :: events[i].now <= events[j].now)
    && (forall j | 0 <= j < |events| && events[j].AcquireEvent? ::
          events[j].token != "" && events[j].token !in Issued(events[..j]))
  }

  lemma PrefixIsRun(events: seq<Event>, n: nat)
    requires IsRun(events) && n <= |events|
    ensures IsRun(events[..n])
  {
    assert forall j | 0 <= j < n :: events[..n][..j] == events[..j];
  }

  ghost predicate Wellformed(r: Registry, issued: set<string>) {
    && r.locks.Keys == r.timers.Keys
    && (forall memo | memo in r.locks ::
          && memo in r.generations && r.generations[memo] == r.locks[memo].generation && r.locks[memo].generation > 0
          && r.timers[memo] == Timer(r.locks[memo].ownerKey, r.locks[memo].expiresAt)
          && r.locks[memo].token in issued)
  }

  lemma InstallKeepsWellformed(r: Registry, memo: Id, holder: LockHolder, issued: set<string>)
    requires Wellformed(r, issued) && holder.generation > 0 && holder.token in issued
    ensures Wellformed(Install(r.(generations := r.generations[memo := holder.generation]), memo, holder), issued)
  {
  }

  lemma DropKeepsWellformed(r: Registry, gone: set<Id>, issued: set<string>)
    requires Wellformed(r, issued)
    ensures Wellformed(r.(locks := r.locks - gone, timers := r.timers - gone), issued)
  {
  }

  lemma StepKeepsWellformed(ttl: real, r: Registry, e: Event, issued: set<string>, now: set<string>)
    requires Wellformed(r, issued) && issued <= now && (e.AcquireEvent? ==> e.token in now)
    ensures Wellformed(Step(ttl, r, e), now)
  {
    assert Wellformed(r, now);
    if e.AcquireEvent? || e.ExpireEvent? {
      var memo := e.memo;
      DropKeepsWellformed(r, {memo}, now);
      var r2 := Step(ttl, r, e);
      if memo in r2.locks && r2 != r {
        var holder := r2.locks[memo];
        assert r2.generations == r.generations[memo := holder.generation];
        hide Wellformed;
        InstallKeepsWellformed(r, memo, holder, now);
        assert r2 == Install(r.(generations := r.generations[memo := holder.generation]), memo, holder);
      } else {
        hide Wellformed;
      }
    } else if e.ReleaseEvent? {
      hide Wellformed;
      DropKeepsWellformed(r, {e.memo}, now);
    } else {
      hide Wellformed;
      DropKeepsWellformed(r, OwnedBy(r, e.owner), now);
    }
  }

  /** In every state the lock and timer maps have the same keys, each timer is the one for the present
      lease, and a lease carries its memo's newest generation. */
  lemma {:induction false} RegistryStaysWellformed(ttl: real, events: seq<Event>)
    ensures Wellformed(After(ttl, events), Issued(events))
  {
    if events != [] {
      hide Wellformed, Step;
      var n := |events| - 1;
      RegistryStaysWellformed(ttl, events[..n]);
      StepKeepsWellformed(ttl, After(ttl, events[..n]), events[n], Issued(events[..n]), Issued(events));
    }
  }

  // ------------------------------------------------------------------
  // Exclusion
  // ------------------------------------------------------------------

  /** The event gives up or outlives the memo's present lease. */
  predicate Ends(r: Registry, e: Event, memo: Id)
    requires memo in r.locks
  {
    var h := r.locks[memo];
    || h.expiresAt <= e.now
    || (e.ReleaseEvent? && e.memo == memo && (e.force || e.releasedBy.None? || e.releasedBy.value == h.ownerKey))
    || (e.ReleaseAllEvent? && e.owner == h.ownerKey)
  }

  /** The same lease: owner, token and generation; it may have been extended. */
  predicate SameLease(a: LockHolder, b: LockHolder) {
    a.ownerKey == b.ownerKey && a.token == b.token && a.generation == b.generation && a.expiresAt <= b.expiresAt
  }

  /** Nothing but its own end takes a lease away: not another owner's request, and no timer, whether late,
      early or left over from an earlier lease. A heartbeat extends it and keeps token and generation. */
  lemma LeaseSurvivesStep(ttl: real, r: Registry, e: Event, memo: Id)
    requires memo in r.locks && !Ends(r, e, memo) && ttl > 0.0
    requires e.AcquireEvent? ==> e.now + ttl >= r.locks[memo].expiresAt
    ensures memo in Step(ttl, r, e).locks && SameLease(r.locks[memo], Step(ttl, r, e).locks[memo])
    ensures e.AcquireEvent? && e.memo == memo && e.owner != r.locks[memo].ownerKey ==>
              !Grants(r, memo, e.owner, e.now) && Step(ttl, r, e) == r
  {
  }

  ghost predicate ExpiriesAhead(ttl: real, r: Registry, now: real) {
    forall memo | memo in r.locks :: r.locks[memo].expiresAt <= now + ttl
  }

  lemma {:induction false} ExpiriesStayAhead(ttl: real, events: seq<Event>, now: real)
    requires IsRun(events) && forall i | 0 <= i < |events| :: events[i].now <= now
    ensures ExpiriesAhead(ttl, After(ttl, events), now)
  {
    if events != [] {
      var n := |events| - 1;
      PrefixIsRun(events, n);
      ExpiriesStayAhead(ttl, events[..n], now);
    }
  }

  /** Some event from `i` on gave up or outlived the lease the memo had at that point. */
  ghost predicate EndedBetween(ttl: real, events: seq<Event>, i: nat, memo: Id) {
    exists k ::
        i <= k < |events| && memo in After(ttl, events[..k]).locks && Ends(After(ttl, events[..k]), events[k], memo)
  }

  lemma EndedInPrefix(ttl: real, events: seq<Event>, i: nat, memo: Id)
    requires events != [] && EndedBetween(ttl, events[..|events| - 1], i, memo)
    ensures EndedBetween(ttl, events, i, memo)
  {
    hide Ends, After;
    var prior := events[..|events| - 1];
    var k :| i <= k < |prior| && memo in After(ttl, prior[..k]).locks && Ends(After(ttl, prior[..k]), prior[k], memo);
    assert prior[..k] == events[..k] && prior[k] == events[k];
  }

  /** Between a grant and its expiry or release nobody else gets the memo: the lease is the same one,
      perhaps extended, unless some event on the way released or outlived it. */
  lemma {:induction false} LeaseIsExclusive(ttl: real, events: seq<Event>, i: nat, memo: Id)
    requires IsRun(events) && ttl > 0.0 && i <= |events|
    requires memo in After(ttl, events[..i]).locks
    ensures EndedBetween(ttl, events, i, memo)
            || (memo in After(ttl, events).locks
               && SameLease(After(ttl, events[..i]).locks[memo], After(ttl, events).locks[memo]))
  {
    hide Ends, Step, EndedBetween, IsRun, Issued;
    if i == |events| {
      assert events[..i] == events;
    } else {
      var n := |events| - 1;
      var prior := events[..n];
      PrefixIsRun(events, n);
      assert prior[..i] == events[..i];
      LeaseIsExclusive(ttl, prior, i, memo);
      if EndedBetween(ttl, prior, i, memo) {
        EndedInPrefix(ttl, events, i, memo);
      } else if Ends(After(ttl, prior), events[n], memo) {
        EndedLast(ttl, events, i, memo);
      } else {
        ClockOfRun(events);
        ExpiriesStayAhead(ttl, prior, events[n].now);
        LeaseSurvivesStep(ttl, After(ttl, prior), events[n], memo);
      }
    }
  }

  lemma EndedLast(ttl: real, events: seq<Event>, i: nat, memo: Id)
    requires i < |events| && memo in After(ttl, events[..|events| - 1]).locks
    requires Ends(After(ttl, events[..|events| - 1]), events[|events| - 1], memo)
    ensures EndedBetween(ttl, events, i, memo)
  {
    hide Ends, After;
  }

  lemma ClockOfRun(events: seq<Event>)
    requires IsRun(events) && events != []
    ensures var prior := events[..|events| - 1]; forall i | 0 <= i < |prior| :: prior[i].now <= events[|events| - 1].now
  {
  }

  // ------------------------------------------------------------------
  // Fencing
  // ------------------------------------------------------------------

  predicate NewGrant(r: Registry, e: Event) {
    e.AcquireEvent? && LiveHolder(r, e.memo, e.now).None?
  }

  lemma StepGenerations(ttl: real, r: Registry, e: Event, memo: Id)
    requires memo in r.generations
    ensures memo in Step(ttl, r, e).generations && r.generations[memo] <= Step(ttl, r, e).generations[memo]
  {
  }

  lemma {:induction false} GenerationsGrow(ttl: real, events: seq<Event>, i: nat, memo: Id)
    requires i <= |events| && memo in After(ttl, events[..i]).generations
    ensures memo in After(ttl, events).generations
    ensures After(ttl, events[..i]).generations[memo] <= After(ttl, events).generations[memo]
  {
    if i == |events| {
      assert events[..i] == events;
    } else {
      var n := |events| - 1;
      assert events[..n][..i] == events[..i];
      hide Step;
      GenerationsGrow(ttl, events[..n], i, memo);
      StepGenerations(ttl, After(ttl, events[..n]), events[n], memo);
    }
  }

  /** Each new grant of a memo carries a generation above those of all earlier grants. */
  lemma GrantsAreFenced(ttl: real, events: seq<Event>, i: nat, j: nat)
    requires i < j < |events|
    requires NewGrant(After(ttl, events[..i]), events[i]) && NewGrant(After(ttl, events[..j]), events[j])
    requires events[i].memo == events[j].memo
    ensures var a, b := After(ttl, events[..i + 1]).locks, After(ttl, events[..j + 1]).locks;
            var memo := events[i].memo;
            memo in a && memo in b && a[memo].generation < b[memo].generation
  {
    var memo := events[i].memo;
    assert events[..i + 1][..i] == events[..i] && events[..j + 1][..j] == events[..j];
    assert events[..j][..i + 1] == events[..i + 1];
    GenerationsGrow(ttl, events[..j], i + 1, memo);
  }

  lemma TokenNeverRevivesStep(ttl: real, r: Registry, e: Event, memo: Id, token: string, before: real)
    requires before <= e.now && !Validates(r, memo, token, None, None, before)
    requires e.AcquireEvent? ==> e.token != token
    ensures !Validates(Step(ttl, r, e), memo, token, None, None, e.now)
  {
  }

  lemma {:induction false} IssuedGrows(events: seq<Event>, i: nat)
    requires i <= |events|
    ensures Issued(events[..i]) <= Issued(events)
  {
    if i == |events| {
      assert events[..i] == events;
    } else {
      assert events[..|events| - 1][..i] == events[..i];
      IssuedGrows(events[..|events| - 1], i);
    }
  }

  /** A token that was issued and no longer validates never validates again. */
  lemma {:induction false} EndedTokenStaysInvalid(
    ttl: real, events: seq<Event>, i: nat, memo: Id, token: string, before: real, now: real)
    requires IsRun(events) && i <= |events| && before <= now && token in Issued(events[..i])
    requires forall k | i <= k < |events| :: before <= events[k].now <= now
    requires !Validates(After(ttl, events[..i]), memo, token, None, None, before)
    ensures !Validates(After(ttl, events), memo, token, None, None, now)
  {
    hide Validates, Step, Issued;
    if i == |events| {
      assert events[..i] == events;
      LaterIsNoBetter(After(ttl, events), memo, token, before, now);
    } else {
      var n := |events| - 1;
      PrefixIsRun(events, n);
      assert events[..n][..i] == events[..i];
      EndedTokenStaysInvalid(ttl, events[..n], i, memo, token, before, events[n].now);
      IssuedGrows(events[..n], i);
      TokenNeverRevivesStep(ttl, After(ttl, events[..n]), events[n], memo, token, events[n].now);
      LaterIsNoBetter(After(ttl, events), memo, token, events[n].now, now);
    }
  }

  lemma LaterIsNoBetter(r: Registry, memo: Id, token: string, before: real, now: real)
    requires before <= now && !Validates(r, memo, token, None, None, before)
    ensures !Validates(r, memo, token, None, None, now)
  {
  }

  // ------------------------------------------------------------------
  // Timers
  // ------------------------------------------------------------------

  /** The timer on record ends its lease when it fires after the expiry; any other firing changes no lease. */
  lemma TimerEndsOnlyItsLease(ttl: real, events: seq<Event>, memo: Id, owner: string, expiresAt: real, now: real)
    ensures var r := After(ttl, events);
            var fired := Expired(r, memo, owner, expiresAt, now);
            && (memo in r.locks && memo in r.timers && r.timers[memo] == Timer(owner, expiresAt) && expiresAt <= now ==>
                 memo !in fired.locks)
            && (memo in fired.locks || (memo in r.locks ==> r.locks[memo].expiresAt <= now))
            && (forall other | other in r.locks && r.locks[other].expiresAt > now ::
                  other in fired.locks && fired.locks[other] == r.locks[other])
  {
    RegistryStaysWellformed(ttl, events);
  }
}
