/** The client's sync cycle. Its loops move cursors and empty queues; each database transaction and each
    message is recorded as a step of the two-node protocol, so what holds of every run holds of the cycle.
    Users of both nodes may write between any two of its transactions. */
module SyncDaemon {
  import opened SyncSchema
  import opened SyncStore
  import opened SyncApply
  import opened SyncApplyProofs
  import opened SyncBatch
  import opened SyncBatchProofs
  import opened SyncQueue
  import opened SyncFeedProofs
  import opened SyncQueueProofs
  import opened TwoNode
  import opened SyncInvariants
  import opened SyncPullProofs
  import opened SyncSafety
  import opened SyncConvergence
  import opened SyncExactlyOnce
  import opened SyncOverwrite
  import opened SyncCursor
  import opened SyncCommits
  import opened SyncProgress
  import opened SyncRetryProgress
  import opened SyncTermination
  import opened SyncGate
  import opened SyncLiveness
  import opened SyncStandstill
  import opened SyncDaemonSteps
  import opened SyncVisibility
  import opened SyncNode
  import SyncAuthorize
  import SyncAuthorizeProofs
  import SyncEndpoint

  /** What becomes of one request: it is answered, never arrives, or its response never does. */
  datatype Net = Answered | RequestLost | ResponseLost

  const MAX_ROUNDS_PER_CYCLE: nat := 20

  class SyncDaemon {
    const w: World
    const db: Node
    const peer: Node
    /** The peer's push endpoint, and the account it authorises for; a peer that only applies has none. */
    const endpoint: SyncEndpoint.Endpoint
    const gate: Option<Id>
    var queue: Queue
    var rowState: map<Key, RowState>
    var lastPushed: nat
    var lastPulled: nat
    var epoch: Option<Id>
    /** The edits users make between the loop's transactions, one list for each gap. */
    var users: seq<seq<Action>>
    ghost var sent: set<Message>
    ghost var replies: set<Reply>
    ghost var page: Option<Page>
    ghost var trace: seq<Action>

    function Local(): Client
      reads this, db
    {
      Client(db.Data(), queue, rowState, lastPushed, lastPulled, epoch)
    }

    ghost function State(): Sys
      reads this, db, peer
    {
      Sys(Local(), Server(peer.Data(), peer.receipts), sent, replies, page)
    }

    /** The state is the one the recorded steps lead to. */
    ghost predicate Valid()
      reads this, db, peer
    {
      && db != peer && !db.applying && !peer.applying
      && endpoint.db == peer && endpoint.env == w.env && (gate.Some? ==> gate.value == w.account)
      && IsRun(w, trace) && State() == SysAfter(w, trace)
    }

    constructor (
      world: World, client: Node, server: Node, push: SyncEndpoint.Endpoint, authorises: bool,
      edits: seq<seq<Action>>)
      requires push.db == server && push.env == world.env
      requires client != server && !client.applying && !server.applying
      requires client.Data() == EMPTY_STORE && server.Data() == EMPTY_STORE && server.receipts == map[]
      ensures Valid() && trace == [] && db == client && peer == server && w == world && users == edits
      ensures gate == if authorises then Some(world.account) else None
    {
      w, db, peer, endpoint := world, client, server, push;
      gate := if authorises then Some(world.account) else None;
      queue, rowState, lastPushed, lastPulled, epoch, users := map[], map[], 0, 0, None, edits;
      sent, replies, page, trace := {}, {}, None, [];
    }

    // ----------------------------------------------------------------
    // Users
    // ----------------------------------------------------------------

    /** No more edits are to come. */
    ghost predicate Quiet()
      reads this
    {
      forall edits | edits in users :: edits == []
    }

    /** The rows and logs of both nodes, and the recorded steps, only grow. */
    twostate predicate Grows()
      reads this, db, peer
    {
      && old(trace) <= trace
      && old(db.rows).Keys <= db.rows.Keys && old(peer.rows).Keys <= peer.rows.Keys
      && old(db.log) <= db.log && old(peer.log) <= peer.log
    }

    /** They grow, and while users are quiet only protocol steps are taken. */
    twostate predicate GoesOn()
      reads this, db, peer
    {
      Grows() && (old(Quiet()) ==> Quiet() && AllProtocol(trace[|old(trace)|..]))
    }

    /** One edit, if the database accepts it. */
    method MakeEdit(a: Action)
      requires Valid()
      modifies this`trace, db, peer
      ensures Valid() && Grows()
    {
      hide Inv, IsRun, SysAfter, EditAllowed;
      match a {
        case ClientEdit(k, row) =>
          if EditAllowed(w, db.rows, k, row) {
            EditTaken(w, trace, a);
            db.Write(k, row);
            trace := trace + [a];
          }
        case ServerEdit(k, row) =>
          if EditAllowed(w, peer.rows, k, row) {
            EditTaken(w, trace, a);
            peer.Write(k, row);
            trace := trace + [a];
          }
        case _ =>
      }
    }

    /** What users do between two transactions. */
    method Interlude()
      requires Valid()
      modifies this`users, this`trace, db, peer
      ensures Valid() && GoesOn()
      ensures old(Quiet()) ==> State() == old(State()) && trace == old(trace)
    {
      hide Inv, IsRun, SysAfter;
      if users == [] {
        return;
      }
      var edits := users[0];
      assert edits in users && forall later | later in users[1..] :: later in users;
      users := users[1..];
      for i := 0 to |edits|
        invariant Valid() && Grows()
        invariant i == 0 ==> State() == old(State()) && trace == old(trace)
        modifies this`trace, db, peer
      {
        MakeEdit(edits[i]);
      }
    }

    // ----------------------------------------------------------------
    // Collecting
    // ----------------------------------------------------------------

    /** One scan: queues the payloads and moves the mark, or leaves everything as it was. */
    method CollectOnce(limit: nat) returns (collected: nat)
      requires Valid()
      modifies this
      ensures Valid() && trace == old(trace) + [Collect(limit)]
      ensures State() == ExecCollect(old(State()), limit)
      ensures collected == 0 <==> lastPushed == old(lastPushed)
      ensures lastPulled == old(lastPulled) && users == old(users)
    {
      hide Inv, IsRun, SysAfter, EnqueueAll, CollectWindow, ExecCollect;
      CollectTaken(w, trace, limit);
      var changes, next := db.CollectLocalChanges(rowState, lastPushed, limit);
      CollectsIffLogged(db.Data(), rowState, lastPushed, next);
      var q := queue;
      EnqueueNothing(queue, changes);
      for i := 0 to |changes|
        invariant EnqueueAll(queue, Push, changes[..i]) == Some(q)
        modifies {}
      {
        EnqueueStep(queue, changes, i);
        var key := QueueKey(Push, changes[i].seqNo.value);
        q := q[key := changes[i]];
      }
      assert changes[..|changes|] == changes;
      queue, lastPushed := q, next;
      trace := trace + [Collect(limit)];
      collected := |changes|;
    }

    // ----------------------------------------------------------------
    // Pushing
    // ----------------------------------------------------------------

    /** Everything but the client's own tables is as before. */
    twostate predicate OnlyLocal()
      reads this, db, peer
    {
      && peer.Data() == old(peer.Data()) && peer.receipts == old(peer.receipts) && peer.applying == old(peer.applying)
      && sent == old(sent) && replies == old(replies) && page == old(page) && trace == old(trace)
      && db.applying == old(db.applying) && db.receipts == old(db.receipts) && users == old(users)
    }

    method RememberClock(k: Key, clock: Option<int>, peerSeq: nat)
      modifies this`rowState
      ensures rowState == Remember(old(rowState), k, clock, peerSeq)
      ensures clock.Some? && k.id != "" ==>
                && k in rowState && rowState[k].clock == clock.value && rowState[k].peerSeq >= peerSeq
                && (k in old(rowState) ==> rowState[k].peerSeq >= old(rowState)[k].peerSeq)
      ensures forall other | other != k || clock.None? || k.id == "" ::
                (other in rowState <==> other in old(rowState))
                && (other in rowState ==> rowState[other] == old(rowState)[other])
    {
      if clock.Some? && k.id != "" {
        var kept := peerSeq;
        if k in rowState && rowState[k].peerSeq > peerSeq {
          kept := rowState[k].peerSeq;
        }
        rowState := rowState[k := RowState(clock.value, kept)];
      }
    }

    method MarkDead(direction: Direction, seqNo: nat)
      modifies this`queue
      ensures queue == Bury(old(queue), direction, seqNo)
    {
      var live := QueueKey(direction, seqNo);
      if live in queue {
        var change := queue[live];
        var dead := if direction == Push then PushDead else PullDead;
        queue := (queue - {live})[QueueKey(dead, seqNo) := change];
      }
    }

    method MirrorRemoteIssues(answer: Outcome)
      modifies db
      ensures db.Data() == old(db.Data()).(issues := old(db.issues) + answer.duplicates
                + set i | 0 <= i < |answer.conflicts| :: Issue(ConflictIssue, answer.conflicts[i].ref, None))
      ensures db.receipts == old(db.receipts) && db.applying == old(db.applying)
    {
      var mirrored: set<Issue> := {};
      for i := 0 to |answer.conflicts|
        invariant mirrored == set j | 0 <= j < i :: Issue(ConflictIssue, answer.conflicts[j].ref, None)
        modifies {}
      {
        mirrored := mirrored + {Issue(ConflictIssue, answer.conflicts[i].ref, None)};
      }
      db.issues := db.issues + answer.duplicates + mirrored;
    }

    /** The response to one pushed change: a terminal answer leaves the outbox, a refusal becomes a dead
        letter, anything else waits for the next cycle. */
    method SettleAnswer(seqNo: nat, answer: Outcome)
      requires db != peer
      modifies this, db
      ensures OnlyLocal() && Local() == SettlePushed(old(Local()), seqNo, answer)
    {
      hide Remember;
      MirrorRemoteIssues(answer);
      if answer.results != [] {
        var result := answer.results[0];
        if result.status == Applied || result.status == Skipped {
          queue := queue - {QueueKey(Push, seqNo)};
          if result.table.Some? {
            RememberClock(Key(result.table.value, result.rowId), result.clock, 0);
          }
        } else if result.status == Rejected {
          if QueueKey(Push, seqNo) in queue && queue[QueueKey(Push, seqNo)].table.Some? {
            db.issues := db.issues + {DeadLetterIssue(queue[QueueKey(Push, seqNo)])};
          }
          MarkDead(Push, seqNo);
        }
      }
    }

    /** The request leaves; the first one fixes the client's epoch. */
    method SendEntry(seqNo: nat, newEpoch: Id) returns (delivery: Peer, change: Change)
      requires Valid() && QueueKey(Push, seqNo) in queue
      modifies this`epoch, this`sent, this`trace
      ensures Valid() && trace == old(trace) + [Send(seqNo, newEpoch)] && AllProtocol(trace[|old(trace)|..])
      ensures State() == ExecSend(w, old(State()), seqNo, newEpoch) && SameHeld(old(State()), State())
      ensures change == queue[QueueKey(Push, seqNo)] && change.seqNo == Some(seqNo) && Message(delivery, change) in sent
      ensures delivery.account == w.account
    {
      hide Inv, IsRun, SysAfter;
      SendTaken(w, trace, seqNo, newEpoch);
      change := queue[QueueKey(Push, seqNo)];
      if epoch.None? {
        epoch := Some(newEpoch);
      }
      delivery := Peer(w.account, w.clientId + ":" + epoch.value);
      sent := sent + {Message(delivery, change)};
      trace := trace + [Send(seqNo, newEpoch)];
    }

    /** The response arrives. */
    method TakeAnswer(seqNo: nat, answer: Outcome)
      requires Valid() && Reply(seqNo, answer) in replies
      modifies this, db
      ensures Valid() && trace == old(trace) + [Answer(Reply(seqNo, answer))] && AllProtocol(trace[|old(trace)|..])
      ensures users == old(users)
      ensures State() == old(State()).(client := SettlePushed(old(Local()), seqNo, answer))
      ensures forall n | n != seqNo && QueueKey(Push, n) in old(queue) ::
        QueueKey(Push, n) in queue && queue[QueueKey(Push, n)] == old(queue)[QueueKey(Push, n)]
      ensures lastPushed == old(lastPushed) && lastPulled == old(lastPulled) && peer.Data() == old(peer.Data())
      ensures db.rows == old(db.rows) && db.log == old(db.log)
    {
      hide Inv, IsRun, SysAfter, SettlePushed;
      AnswerTaken(w, trace, Reply(seqNo, answer));
      SettleAnswer(seqNo, answer);
      trace := trace + [Answer(Reply(seqNo, answer))];
    }

    /** The request and what becomes of it. Without an answer nothing is settled. */
    method Exchange(seqNo: nat, net: Net, newEpoch: Id, d: Draw) returns (end: End, answer: Outcome)
      requires Valid() && QueueKey(Push, seqNo) in queue && d.id != ""
      modifies this`epoch, this`users, this`sent, this`replies, this`trace, db, peer
      ensures Valid() && GoesOn() && (end == Cut <==> !net.Answered?)
      ensures end == Completed ==> Reply(seqNo, answer) in replies
      ensures old(Quiet()) && net.Answered? ==>
                (end == Refused <==> Forbids(gate, old(peer.rows), old(queue)[QueueKey(Push, seqNo)]))
      ensures old(Quiet()) && end == Refused ==> SameHeld(old(State()), State())
      ensures old(Quiet()) && !TakesNow(old(peer.rows), old(queue)[QueueKey(Push, seqNo)]) ==>
                && SameHeld(old(State()), State())
                && (end == Completed ==> SettlePushed(Local(), seqNo, answer) == Local())
      ensures old(Quiet()) && TakesNow(old(peer.rows), old(queue)[QueueKey(Push, seqNo)]) && end == Completed ==>
                Falls(old(State()), State().(client := SettlePushed(Local(), seqNo, answer)))
    {
      hide Inv, IsRun, SysAfter, ExecSend, ExecDeliver, ApplyBatch, SettlePushed, Falls, TakesNow, AllProtocol, Forbids;
      ghost var trace0 := trace;
      answer := EMPTY_OUTCOME;
      var delivery, change := SendEntry(seqNo, newEpoch);
      if net.RequestLost? {
        return Cut, answer;
      }
      Interlude();
      ghost var trace1 := trace;
      var response := Request(delivery, change, d);
      if old(Quiet()) && response.Some? {
        MoreProtocol(trace0, trace1, trace);
        ExchangeDecides(w, trace0, seqNo, newEpoch, Message(delivery, change), d, response.value);
      }
      if net.ResponseLost? {
        return Cut, answer;
      }
      if response.None? {
        return Refused, answer;
      }
      return Completed, response.value;
    }

    /** One request of the push loop. A lost or refused request or a lost response leaves the entry queued. */
    method PushEntry(seqNo: nat, net: Net, newEpoch: Id, d: Draw) returns (end: End)
      requires Valid() && QueueKey(Push, seqNo) in queue && d.id != ""
      modifies this, db, peer
      ensures Valid() && GoesOn() && lastPushed == old(lastPushed) && lastPulled == old(lastPulled)
      ensures end == Cut <==> !net.Answered?
      ensures forall n | n != seqNo && QueueKey(Push, n) in old(queue) ::
        QueueKey(Push, n) in queue && queue[QueueKey(Push, n)] == old(queue)[QueueKey(Push, n)]
      ensures old(Quiet()) ==> EntryDone(old(State()), State(), gate, seqNo, end)
    {
      hide Inv, IsRun, SysAfter, SettlePushed, Falls, TakesNow, AllProtocol, Forbids;
      ghost var trace0 := trace;
      var answer;
      end, answer := Exchange(seqNo, net, newEpoch, d);
      if end != Completed {
        return;
      }
      ghost var trace1 := trace;
      Interlude();
      TakeAnswer(seqNo, answer);
      if old(Quiet()) { MoreProtocol(trace0, trace1, trace); }
    }

    /** The message was applied: the step it is, and what the peer answers. */
    twostate predicate Delivered(m: Message, d: Draw, answer: Outcome)
      reads this, db, peer
    {
      && m.change.seqNo.Some?
      && trace == old(trace) + [Deliver(m, d)]
      && State() == ExecDeliver(w, old(State()), m, d)
      && Reply(m.change.seqNo.value, answer) in replies
      && var q := ApplyBatch(ServerSession(w), Some(m.from), old(peer.Data()), old(peer.receipts), [m.change], i => d);
         q.Running? && q.out == answer
    }

    /** The peer's own transaction: the endpoint authorises before it applies and refuses what is out of bounds. */
    method Serve(delivery: Peer, change: Change, d: Draw) returns (answer: Option<Outcome>)
      requires Valid() && Message(delivery, change) in sent && delivery.account == w.account && d.id != ""
      modifies peer
      ensures answer.None? <==> Forbids(gate, old(peer.rows), change)
      ensures answer.None? ==> peer.Data() == old(peer.Data()) && peer.receipts == old(peer.receipts)
      ensures answer.Some? ==>
                var q := ApplyBatch(ServerSession(w), Some(delivery), old(peer.Data()), old(peer.receipts), [change],
                                    i => d);
                q == Running(peer.Data(), peer.receipts, answer.value)
      ensures !peer.applying
    {
      hide Inv, IsRun, SysAfter, ApplyBatch, SyncAuthorizeProofs.DatabaseOk, SyncAuthorize.AllAllowed;
      DeliverTaken(w, trace, Message(delivery, change), d);
      if gate.None? {
        answer := peer.ReceivePush(w.env, delivery, [change], i => d);
        return;
      }
      RunKeepsDatabase(w, trace);
      var response := endpoint.Push(delivery.account, delivery.client, [change], i => d);
      answer := if response.Forbidden? then None else Some(response.outcome);
    }

    /** The peer receives a message that was sent; what it answers may or may not come back. */
    method Request(delivery: Peer, change: Change, d: Draw) returns (answer: Option<Outcome>)
      requires Valid() && Message(delivery, change) in sent && delivery.account == w.account && d.id != ""
      modifies this`replies, this`trace, peer
      ensures answer.None? <==> Forbids(gate, old(peer.rows), change)
      ensures Valid() && Grows() && AllProtocol(trace[|old(trace)|..])
      ensures answer.None? ==> State() == old(State()) && trace == old(trace)
      ensures answer.Some? ==> Delivered(Message(delivery, change), d, answer.value)
    {
      hide Inv, IsRun, SysAfter, ApplyBatch, Forbids;
      DeliverTaken(w, trace, Message(delivery, change), d);
      answer := Serve(delivery, change, d);
      if answer.Some? {
        replies := replies + {Reply(change.seqNo.value, answer.value)};
        trace := trace + [Deliver(Message(delivery, change), d)];
      }
    }

    /** Sends every listed entry in seq order; the first request that is lost or refused ends the cycle. */
    method RetryPushQueue(limit: nat, net: nat -> Net, newEpoch: Id, draws: nat -> Draw) returns (end: End)
      requires Valid() && forall i :: draws(i).id != ""
      modifies this, db, peer
      ensures Valid() && GoesOn() && lastPushed == old(lastPushed) && lastPulled == old(lastPulled)
      ensures old(Quiet()) ==> PushesDone(old(State()), State(), limit, gate, end)
      ensures LiveSeqs(old(queue), Push) == {} ==> State() == old(State()) && end == Completed
    {
      hide Inv, IsRun, SysAfter, Falls, NoRise, LiveSeqs, AllProtocol, Takes, EntryDone, PushesDone, SoFar;
      ghost var s0 := State();
      var seqs := SortedPrefix(LiveSeqs(queue, Push), limit);
      ListingOf(w, trace, limit, gate);
      NothingSoFar(s0, limit, gate, seqs);
      assert LiveSeqs(queue, Push) == {} ==> seqs == [];
      hide SortedPrefix;
      IsNoProtocol(trace);
      end := Completed;
      ghost var moved := false;
      for i := 0 to |seqs|
        invariant Valid() && GoesOn() && lastPushed == old(lastPushed) && lastPulled == old(lastPulled)
        invariant end == Completed && (i == 0 ==> State() == s0)
        invariant forall j | i <= j < |seqs| :: QueueKey(Push, seqs[j]) in queue
        invariant old(Quiet()) ==> SoFar(s0, State(), limit, gate, seqs, i, moved)
      {
        ghost var before, trace1 := State(), trace;
        end := PushEntry(seqs[i], net(i), newEpoch, draws(i));
        if old(Quiet()) {
          RunNoRise(w, trace1, trace);
          MoreProtocol(old(trace), trace1, trace);
          EntryMoves(s0, before, State(), limit, gate, seqs, i, moved, end);
        }
        if end != Completed {
          return;
        }
        moved := moved || Takes(s0, seqs[i]);
      }
      if old(Quiet()) {
        AllPassed(s0, State(), limit, gate, seqs, moved);
      }
    }

    /** Fixes the payloads of what was logged since the mark, until a scan is not full or the rounds are used up. */
    method CollectRounds(limit: nat)
      requires Valid()
      modifies this, db, peer
      ensures Valid() && GoesOn() && lastPulled == old(lastPulled)
      ensures old(Quiet()) && limit > 0 && old(lastPushed) < |old(db.log)| ==> Falls(old(State()), State())
      ensures old(Quiet()) && old(lastPushed) == |old(db.log)| ==> State() == old(State())
    {
      hide Inv, IsRun, SysAfter, Falls, NoRise, ExecCollect;
      ghost var s0, trace0, quiet := State(), trace, Quiet();
      SameStateNoRise(s0);
      var round, more := 0, true;
      while round < MAX_ROUNDS_PER_CYCLE && more
        invariant Valid() && GoesOn() && lastPulled == old(lastPulled)
        invariant quiet ==> NoRise(s0, State())
        invariant quiet && s0.client.pushed == |s0.client.store.log| ==> State() == s0
        invariant round == 0 ==> State() == s0 && more
        invariant quiet && round > 0 && limit > 0 && s0.client.pushed < |s0.client.store.log| ==> Falls(s0, State())
        decreases MAX_ROUNDS_PER_CYCLE - round
      {
        Interlude();
        ghost var before, trace1 := State(), trace;
        CollectLowers(w, trace, limit);
        var collected := CollectOnce(limit);
        if quiet {
          NoRiseTrans(s0, before, State());
          MoreProtocol(trace0, trace1, trace);
        }
        more := collected > 0 && collected >= limit;
        round := round + 1;
      }
    }

    /** Retries the outbox, fixes the payloads of everything logged since, and sends those. */
    method PushRounds(limit: nat, net: nat -> nat -> Net, newEpoch: Id, draws: nat -> nat -> Draw) returns (end: End)
      requires Valid() && forall n, i :: draws(n)(i).id != ""
      modifies this, db, peer
      ensures Valid() && GoesOn() && lastPulled == old(lastPulled)
      ensures old(Quiet()) ==> RoundsDone(old(State()), State(), limit, gate, end)
    {
      hide Inv, IsRun, SysAfter, Falls, NoRise, AllProtocol, PushesDone, RoundsDone;
      ghost var s0, trace0, quiet := State(), trace, Quiet();
      end := RetryPushQueue(limit, net(0), newEpoch, draws(0));
      if end != Completed {
        if quiet { FirstPassOnly(s0, State(), limit, gate, end); }
        return;
      }
      ghost var trace1 := trace;
      CollectRounds(limit);
      Interlude();
      ghost var trace2 := trace;
      end := RetryPushQueue(limit, net(1), newEpoch, draws(1));
      if quiet {
        PassesAddUp(w, trace0, trace1, trace2, trace, limit, gate, end);
      }
    }

    // ----------------------------------------------------------------
    // Pulling
    // ----------------------------------------------------------------

    /** Fills in what was last agreed about each row, where the change does not say. */
    method AddPullBases(changes: seq<Change>) returns (based: seq<Change>)
      ensures based == WithBases(rowState, changes)
    {
      based := [];
      for i := 0 to |changes|
        invariant |based| == i && forall j | 0 <= j < i :: based[j] == WithBase(rowState, changes[j])
      {
        var ch := changes[i];
        if ch.baseClock.None? && ch.table.Some? && ch.rowId != "" && Key(ch.table.value, ch.rowId) in rowState {
          ch := ch.(baseClock := Some(rowState[Key(ch.table.value, ch.rowId)].clock));
        }
        based := based + [ch];
      }
    }

    method ResultsBySeq(results: seq<Result>) returns (bySeq: map<nat, Result>)
      ensures forall n: nat :: (n in bySeq <==> ResultFor(results, Some(n)).Some?)
                               && (n in bySeq ==> ResultFor(results, Some(n)) == Some(bySeq[n]))
    {
      bySeq := map[];
      for i := 0 to |results|
        invariant forall n: nat :: (n in bySeq <==> ResultFor(results[..i], Some(n)).Some?)
                                   && (n in bySeq ==> ResultFor(results[..i], Some(n)) == Some(bySeq[n]))
      {
        assert results[..i + 1][..i] == results[..i];
        if results[i].seqNo.Some? {
          bySeq := bySeq[results[i].seqNo.value := results[i]];
        }
      }
      assert results[..|results|] == results;
    }

    /** One pulled change after its page was applied: finished rows are remembered, the rest is queued. */
    method SettlePulled(ch: Change, r: Option<Result>)
      requires db != peer && ch.table.Some? && ch.seqNo.Some? && SettlePaged(Local(), ch, r).Some?
      modifies this, db
      ensures OnlyLocal() && Some(Local()) == SettlePaged(old(Local()), ch, r)
    {
      hide Remember;
      if r.None? || r.value.status == Deferred || r.value.status == Rejected {
        queue := queue[QueueKey(Pull, ch.seqNo.value) := ch];
        if r.Some? && r.value.status == Rejected {
          MarkDead(Pull, ch.seqNo.value);
          db.issues := db.issues + {DeadLetterIssue(ch)};
        }
      } else {
        var clock := if ch.row.Some? && ClockOf(ch.row.value).Some? then ClockOf(ch.row.value) else r.value.clock;
        RememberClock(Key(ch.table.value, ch.rowId), clock, ch.seqNo.value);
      }
    }

    /** One queued pull after its retry. */
    method SettleQueued(ch: Change, r: Option<Result>)
      requires db != peer && ch.table.Some? && ch.seqNo.Some?
      modifies this, db
      ensures OnlyLocal() && Local() == SettleRetried(old(Local()), ch, r)
    {
      hide Remember;
      if r.Some? && (r.value.status == Applied || r.value.status == Skipped) {
        queue := queue - {QueueKey(Pull, ch.seqNo.value)};
        var clock := if ch.row.Some? && ClockOf(ch.row.value).Some? then ClockOf(ch.row.value) else r.value.clock;
        RememberClock(Key(ch.table.value, ch.rowId), clock, ch.seqNo.value);
      } else if r.Some? && r.value.status == Rejected {
        MarkDead(Pull, ch.seqNo.value);
        db.issues := db.issues + {DeadLetterIssue(ch)};
      }
    }

    /** Applies a pulled batch without logging it. */
    method ApplyPulled(changes: seq<Change>, draws: nat -> Draw) returns (results: seq<Result>)
      requires db != peer && !db.applying
      modifies db
      ensures !db.applying && db.receipts == old(db.receipts)
      ensures var q := PullBatch(w, old(Local()), changes, draws);
              q.Running? && db.Data() == q.store && results == q.out.results
    {
      hide PullBatch, ApplyBatch;
      PullBatchIgnoresReceipts(w, Local(), db.receipts, changes, draws);
      db.applying := true;
      var aborted, out := db.ApplyChanges(ClientSession(w), None, changes, draws);
      results := out.results;
      db.applying := false;
    }

    /** A page is applied, settled and passed in one transaction. */
    method CommitPage(changes: seq<Change>, next: nat, draws: nat -> Draw)
      requires Valid() && page == Some(Page(changes, next)) && forall i :: draws(i).id != ""
      modifies this, db
      ensures Valid() && trace == old(trace) + [ApplyPage(draws)] && peer.Data() == old(peer.Data())
      ensures lastPulled == next && users == old(users)
      ensures old(db.rows).Keys <= db.rows.Keys && old(db.log) <= db.log
    {
      hide Inv, IsRun, SysAfter, PullBatch, SettlePage, WithBases, SettlePaged, ResultFor;
      PageTaken(w, trace, draws);
      PageGrows(w, trace, draws);
      ghost var s0 := State();
      var based := AddPullBases(changes);
      var results := ApplyPulled(based, draws);
      var bySeq := ResultsBySeq(results);
      ghost var mid := Local();
      SettleNothing(mid, based, results);
      for i := 0 to |based|
        invariant OnlyLocalSince(s0) && !db.applying && !peer.applying && trace == old(trace) && users == old(users)
        invariant Some(Local()) == SettlePage(mid, based[..i], results)
      {
        SettleStep(mid, based, results, i);
        var n := based[i].seqNo.value;
        var r := if n in bySeq then Some(bySeq[n]) else None;
        SettlePulled(based[i], r);
      }
      assert based[..|based|] == based;
      lastPulled, page := next, None;
      trace := trace + [ApplyPage(draws)];
    }

    /** Nothing outside the client's own tables differs from state `s`. */
    ghost predicate OnlyLocalSince(s: Sys)
      reads this, db, peer
    {
      Server(peer.Data(), peer.receipts) == s.server && sent == s.sent && replies == s.replies && page == s.page
    }

    /** The inbox, oldest first, retried in one transaction. */
    method RetryPullQueue(limit: nat, draws: nat -> Draw)
      requires Valid() && forall i :: draws(i).id != ""
      modifies this, db
      ensures Valid() && peer.Data() == old(peer.Data()) && lastPulled == old(lastPulled) && users == old(users)
      ensures old(db.rows).Keys <= db.rows.Keys && old(db.log) <= db.log
      ensures if SortedPrefix(LiveSeqs(old(queue), Pull), limit) == [] then
                State() == old(State()) && trace == old(trace)
              else
                && State() == ExecRetryPulls(w, old(State()), limit, draws)
                && trace == old(trace) + [RetryPulls(limit, draws)]
    {
      hide Inv, IsRun, SysAfter, PullBatch, SettleRetries, WithBases, SettleRetried, ResultFor, ExecRetryPulls;
      ghost var s0 := State();
      var seqs := SortedPrefix(LiveSeqs(queue, Pull), limit);
      if seqs == [] {
        return;
      }
      RetryTaken(w, trace, limit, draws);
      RetryGrows(w, trace, limit, draws);
      var listed := ChangesAt(queue, Pull, seqs);
      var based := AddPullBases(listed);
      var results := ApplyPulled(based, draws);
      var bySeq := ResultsBySeq(results);
      ghost var mid := Local();
      SettleNothing(mid, based, results);
      for i := 0 to |based|
        invariant OnlyLocalSince(s0) && !db.applying && !peer.applying && trace == old(trace) && users == old(users)
        invariant Local() == SettleRetries(mid, based[..i], results)
      {
        RetrySettleStep(mid, based, results, i);
        var n := based[i].seqNo.value;
        var r := if n in bySeq then Some(bySeq[n]) else None;
        SettleQueued(based[i], r);
      }
      assert based[..|based|] == based;
      trace := trace + [RetryPulls(limit, draws)];
    }

    /** One page: read, and committed unless it brings nothing. */
    method PullOnce(limit: nat, draws: nat -> Draw) returns (more: bool)
      requires Valid() && forall i :: draws(i).id != ""
      modifies this, db, peer
      ensures Valid() && GoesOn()
      ensures old(Quiet()) ==> peer.Data() == old(peer.Data())
      ensures old(Quiet()) && limit > 0 && old(lastPulled) < |old(peer.log)| ==> Falls(old(State()), State())
      ensures old(Quiet()) && old(lastPulled) == |old(peer.log)| ==> SameHeld(old(State()), State()) && !more
    {
      hide Inv, IsRun, SysAfter, Falls, NoRise, ReadWindow, RowsValid, Delivers, LoggedIn, MaySee;
      ghost var quiet := Quiet();
      ReadTaken(w, trace, limit);
      NothingToRead(peer.Data(), w.account, limit);
      var changes, next := peer.ReadChanges(lastPulled, limit, w.account);
      more := false;
      PageLowers(w, trace, limit, draws);
      page := Some(Page(changes, next));
      trace := trace + [ReadPage(limit)];
      var maxSeq := |peer.log|;
      if changes != [] || next > lastPulled {
        Interlude();
        CommitPage(changes, next, draws);
        more := next < maxSeq;
      }
    }

    /** Reads and commits pages until the feed is read, the rounds are used up or a request is not answered. */
    method PullPages(limit: nat, net: nat -> Net, draws: nat -> nat -> Draw) returns (end: End)
      requires Valid() && forall n, i :: draws(n)(i).id != ""
      modifies this, db, peer
      ensures Valid() && GoesOn()
      ensures old(Quiet()) && end != Cut && limit > 0 && old(lastPulled) < |old(peer.log)| ==>
                Falls(old(State()), State())
      ensures old(Quiet()) && old(lastPulled) == |old(peer.log)| ==> SameHeld(old(State()), State())
    {
      hide Inv, IsRun, SysAfter, Falls, NoRise;
      ghost var s0, trace0, quiet := State(), trace, Quiet();
      SameStateNoRise(s0);
      var round, more := 0, true;
      end := Completed;
      while round < MAX_ROUNDS_PER_CYCLE && more
        invariant Valid() && GoesOn()
        invariant quiet ==> NoRise(s0, State()) && peer.Data() == old(peer.Data())
        invariant quiet && s0.client.pulled == |s0.server.store.log| ==> SameHeld(s0, State())
        invariant round == 0 ==> State() == s0 && more
        invariant quiet && round > 0 && limit > 0 && s0.client.pulled < |s0.server.store.log| ==> Falls(s0, State())
        decreases MAX_ROUNDS_PER_CYCLE - round
      {
        if !net(round).Answered? {
          end := Cut;
          return;
        }
        Interlude();
        ghost var before, trace1 := State(), trace;
        more := PullOnce(limit, draws(round));
        if quiet {
          RunNoRise(w, trace1, trace);
          NoRiseTrans(s0, before, State());
          MoreProtocol(trace0, trace1, trace);
        }
        round := round + 1;
      }
    }

    /** Retries the inbox, then pulls pages. */
    method PullRounds(limit: nat, net: nat -> Net, draws: nat -> nat -> Draw) returns (end: End)
      requires Valid() && forall n, i :: draws(n)(i).id != ""
      modifies this, db, peer
      ensures Valid() && GoesOn()
      ensures old(Quiet()) && end != Cut && limit > 0
              && (old(lastPulled) < |old(peer.log)| || ListedTakes(old(queue), Pull, limit, old(db.rows)))
              ==> Falls(old(State()), State())
      ensures old(Quiet()) && old(lastPulled) == |old(peer.log)|
              && !ListedTakes(old(queue), Pull, limit, old(db.rows)) ==>
                SameHeld(old(State()), State())
    {
      hide Inv, IsRun, SysAfter, Falls, NoRise, ListedTakes, LiveSeqs, ExecRetryPulls, SortedPrefix;
      ghost var s0, trace0, quiet := State(), trace, Quiet();
      RetryDecides(w, trace, limit, draws(0));
      RetryPullQueue(limit, draws(0));
      ghost var s1, trace1 := State(), trace;
      Interlude();
      end := PullPages(limit, net, i => draws(i + 1));
      if quiet {
        RunNoRise(w, trace0, trace1);
        RunNoRise(w, trace1, trace);
        NoRiseTrans(s0, s1, State());
        MoreProtocol(trace0, trace1, trace);
      }
    }

    // ----------------------------------------------------------------
    // The cycle
    // ----------------------------------------------------------------

    /** Push, then pull. Whatever requests are lost and whatever users do meanwhile, the cycle is a list of
        steps of the two-node system. While users are quiet, a cycle that loses nothing lowers what is pending if
        and only if something can move: a listed push before the first refused one, or, with no listed push
        refused, anything unscanned, unread, or listed in the inbox and takeable. Otherwise it leaves both nodes
        and the queues as they are, and a refused push keeps it from pulling at all; an idle client stays idle. */
    method Cycle(limit: nat, net: nat -> nat -> nat -> Net, newEpoch: Id, draws: nat -> nat -> nat -> Draw)
      returns (end: End)
      requires Valid() && forall a, n, i :: draws(a)(n)(i).id != ""
      modifies this, db, peer
      ensures Valid() && GoesOn()
      ensures old(Quiet()) && end != Cut && limit > 0 ==>
                (Falls(old(State()), State()) <==> CanMove(old(Local()), old(peer.Data()), limit, gate))
      ensures old(Quiet()) && !CanMove(old(Local()), old(peer.Data()), limit, gate) ==>
                SameHeld(old(State()), State())
      ensures old(Quiet()) && !PushMoves(old(queue), limit, gate, old(peer.rows))
              && ListedForbids(old(queue), limit, gate, old(peer.rows))
              ==> end != Completed
      ensures old(Quiet()) && Idle(old(State())) ==> Idle(State())
    {
      hide Inv, IsRun, SysAfter, Falls, NoRise, ListedTakes, ListedForbids, PushMoves, LiveSeqs, SortedPrefix;
      ghost var s0, trace0, quiet := State(), trace, Quiet();
      MarksAreBounded(w, trace);
      IdleListsNothing(queue, limit, gate, peer.rows, db.rows);
      end := PushRounds(limit, net(0), newEpoch, draws(0));
      if quiet && SameHeld(s0, State()) { SameHeldNeverFalls(s0, State()); }
      if end != Completed {
        return;
      }
      if quiet { RunNoRise(w, trace0, trace); }
      ghost var s1, trace1 := State(), trace;
      Interlude();
      end := PullRounds(limit, net(1)(0), draws(1));
      if quiet {
        RunNoRise(w, trace1, trace);
        NoRiseTrans(s0, s1, State());
        MoreProtocol(trace0, trace1, trace);
        if SameHeld(s0, State()) { SameHeldNeverFalls(s0, State()); }
      }
    }

    /** Cycle after cycle until nothing can move or a request is lost. Where it stops with nothing lost, the nodes
        agree unless something is dead-lettered, a listed push is refused, or more entries wait than one batch
        lists. */
    method CycleToRest(
      limit: nat, net: nat -> nat -> nat -> nat -> Net, newEpoch: Id, draws: nat -> nat -> nat -> nat -> Draw)
      returns (lost: bool)
      requires Valid() && Quiet() && limit > 0 && forall c, a, n, i :: draws(c)(a)(n)(i).id != ""
      modifies this, db, peer
      ensures Valid() && GoesOn()
      ensures !lost ==> Resting(State()) || Starved(State(), limit, gate)
      ensures !lost && |LiveSeqs(queue, Push)| <= limit && |LiveSeqs(queue, Pull)| <= limit
              && !ListedForbids(queue, limit, gate, peer.rows)
              ==> Resting(State())
      ensures !lost && Resting(State()) ==>
                && (forall k | !SameAt(db.rows, peer.rows, k) :: Blocked(State(), k))
                && (NoDead(State()) ==> Quiescent(State()) && db.rows == peer.rows)
    {
      hide Inv, IsRun, SysAfter, Falls, ListedTakes, ListedForbids, PushMoves, LiveSeqs, SortedPrefix, Weight, Resting,
        Blocked, SameAt, NoDead, Quiescent;
      lost := false;
      var cycle := 0;
      while !lost && CanMove(Local(), peer.Data(), limit, gate)
        invariant Valid() && Quiet() && GoesOn()
        decreases Weight(State(), false), Weight(State(), true), !lost
      {
        ghost var s, before := State(), trace;
        var end := Cycle(limit, net(cycle), newEpoch, draws(cycle));
        RunNoRise(w, before, trace);
        NoRiseMeans(s, State());
        FallsMeans(s, State());
        MoreProtocol(old(trace), before, trace);
        lost := end == Cut;
        cycle := cycle + 1;
      }
      if !lost && !Resting(State()) {
        StarvedQueueIsLongOrRefused(w, trace, limit, gate);
      }
      if Resting(State()) {
        RestIsBlockedOrEqual(w, trace);
      }
    }
  }
}
