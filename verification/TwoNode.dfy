/** The two-node protocol: every database transaction and every message is one atomic step. Requests and
    responses may be lost, delayed, repeated and reordered; the client may crash between any two steps. */
module TwoNode {
  import opened SyncSchema
  import opened SyncStore
  import opened SyncApply
  import opened SyncBatch
  import opened SyncQueue

  /** One account, one client node. */
  datatype World = World(env: Env, account: Id, clientId: Id)

  datatype Message = Message(from: Peer, change: Change)

  datatype Reply = Reply(seqNo: nat, answer: Outcome)

  datatype Page = Page(changes: seq<Change>, next: nat)

  /** `sent` and `replies` only grow: a message that is lost is one no step ever picks. `page` is the
      client's memory between reading a page and committing it. */
  datatype Sys = Sys(client: Client, server: Server, sent: set<Message>, replies: set<Reply>, page: Option<Page>)

  const START := Sys(Client(EMPTY_STORE, map[], map[], 0, 0, None), Server(EMPTY_STORE, map[]), {}, {}, None)

  datatype Action =
    | ClientEdit(key: Key, row: Row)
    | ServerEdit(key: Key, row: Row)
    | Collect(limit: nat)
    | Send(seqNo: nat, newEpoch: Id)
    | Deliver(message: Message, draw: Draw)
    | Answer(reply: Reply)
    | ReadPage(limit: nat)
    | ApplyPage(draws: nat -> Draw)
    | RetryPulls(limit: nat, draws: nat -> Draw)
    | Crash

  function ServerSession(w: World): Session {
    Session(w.env, ClientSide, true)
  }

  function ClientSession(w: World): Session {
    Session(w.env, ServerSide, true)
  }

  function PeerOf(w: World, epoch: Id): Peer {
    Peer(w.account, w.clientId + ":" + epoch)
  }

  /** What the application may write: a complete row the database accepts, stamped later than the row it
      replaces. Projects belong to the account. */
  predicate EditAllowed(w: World, rows: map<Key, Row>, k: Key, row: Row) {
    && k.id != ""
    && row.Keys == Columns(k.table)
    && ClockOf(row).Some?
    && ConstraintsHold(rows, k, row)
    && (k in rows ==> Clk(row) > Clk(rows[k]))
    && (k.table == Projects ==> Get(row, OwnerId) == Text(w.account))
  }

  function Clk(row: Row): int {
    if ClockOf(row).Some? then ClockOf(row).value else 0
  }

  ghost predicate Enabled(w: World, s: Sys, a: Action) {
    match a
    case ClientEdit(k, row) => EditAllowed(w, s.client.store.rows, k, row)
    case ServerEdit(k, row) => EditAllowed(w, s.server.store.rows, k, row)
    case Send(n, _) => QueueKey(Push, n) in s.client.queue
    case Deliver(m, d) => m in s.sent && d.id != ""
    case Answer(reply) => reply in s.replies
    case ApplyPage(draws) => s.page.Some? && forall i :: draws(i).id != ""
    case RetryPulls(_, draws) => forall i :: draws(i).id != ""
    case _ => true
  }

  predicate Addressed(changes: seq<Change>) {
    forall ch | ch in changes :: ch.table.Some? && ch.seqNo.Some?
  }

  function ExecCollect(s: Sys, limit: nat): Sys {
    var c := s.client;
    var hi := WindowEnd(c.store.log, c.pushed, limit);
    if hi > |c.store.log| then s
    else
      match EnqueueAll(c.queue, Push, CollectWindow(c.store, c.rowState, c.pushed, hi))
      case None => s
      case Some(q) => s.(client := c.(queue := q, pushed := hi))
  }

  function ExecSend(w: World, s: Sys, n: nat, newEpoch: Id): Sys {
    if QueueKey(Push, n) !in s.client.queue then s
    else
      var epoch := if s.client.epoch.Some? then s.client.epoch.value else newEpoch;
      s.(client := s.client.(epoch := Some(epoch)),
         sent := s.sent + {Message(PeerOf(w, epoch), s.client.queue[QueueKey(Push, n)])})
  }

  function ExecDeliver(w: World, s: Sys, m: Message, d: Draw): Sys {
    match ApplyBatch(ServerSession(w), Some(m.from), s.server.store, s.server.receipts, [m.change], i => d)
    case Aborted => s
    case Running(store, receipts, out) =>
      s.(server := Server(store, receipts),
         replies := if m.change.seqNo.Some? then s.replies + {Reply(m.change.seqNo.value, out)} else s.replies)
  }

  function ExecReadPage(w: World, s: Sys, limit: nat): Sys {
    var hi := WindowEnd(s.server.store.log, s.client.pulled, limit);
    if hi > |s.server.store.log| then s
    else s.(page := Some(Page(ReadWindow(s.server.store, w.account, s.client.pulled, hi), hi)))
  }

  /** The rows of a pulled batch applied to the client, under one transaction. */
  function PullBatch(w: World, c: Client, changes: seq<Change>, draws: nat -> Draw): Progress {
    ApplyBatch(ClientSession(w), None, c.store, map[], changes, draws)
  }

  function ExecApplyPage(w: World, s: Sys, draws: nat -> Draw): Sys {
    if s.page.None? then s
    else
      var changes := WithBases(s.client.rowState, s.page.value.changes);
      var q := PullBatch(w, s.client, changes, draws);
      if q.Aborted? || !Addressed(changes) then s.(page := None)
      else
        match SettlePage(s.client.(store := q.store), changes, q.out.results)
        case None => s.(page := None)
        case Some(c) => s.(client := c.(pulled := s.page.value.next), page := None)
  }

  function ExecRetryPulls(w: World, s: Sys, limit: nat, draws: nat -> Draw): Sys {
    var changes := WithBases(s.client.rowState, ListRetries(s.client.queue, Pull, limit));
    var q := PullBatch(w, s.client, changes, draws);
    if q.Aborted? || !Addressed(changes) then s
    else s.(client := SettleRetries(s.client.(store := q.store), changes, q.out.results))
  }

  function Exec(w: World, s: Sys, a: Action): Sys {
    match a
    case ClientEdit(k, row) => s.(client := s.client.(store := PutRow(s.client.store, false, k, row)))
    case ServerEdit(k, row) => s.(server := s.server.(store := PutRow(s.server.store, false, k, row)))
    case Collect(limit) => ExecCollect(s, limit)
    case Send(n, newEpoch) => ExecSend(w, s, n, newEpoch)
    case Deliver(m, d) => ExecDeliver(w, s, m, d)
    case Answer(reply) => s.(client := SettlePushed(s.client, reply.seqNo, reply.answer))
    case ReadPage(limit) => ExecReadPage(w, s, limit)
    case ApplyPage(draws) => ExecApplyPage(w, s, draws)
    case RetryPulls(limit, draws) => ExecRetryPulls(w, s, limit, draws)
    case Crash => s.(page := None)
  }

  // ------------------------------------------------------------------
  // Runs, with the history the theorems speak about
  // ------------------------------------------------------------------

  /** `snap[n]`: the payload fixed for log seq n, and `seenAt[n]`: what the client had handled by then.
      `handled`: server seq, row and value of every pulled change that was applied or skipped.
      `feed`: everything the server ever handed out. `effects`: the delivered messages that changed the server,
      in order. `author`: which side wrote the server's current row. */
  datatype Hist = Hist(
    snap: map<nat, Change>, seenAt: map<nat, set<(nat, Key, Row)>>,
    feed: set<Change>, handled: set<(nat, Key, Row)>,
    effects: seq<ReceiptKey>, author: map<Key, Side>)

  const NO_HISTORY := Hist(map[], map[], {}, {}, [], map[])

  function Snapped(before: Queue, now: Queue): map<nat, Change> {
    map n | n in LiveSeqs(now, Push) && QueueKey(Push, n) !in before :: now[QueueKey(Push, n)]
  }

  function HandledBy(changes: seq<Change>, results: seq<Result>): set<(nat, Key, Row)> {
    set i | 0 <= i < |changes| && changes[i].seqNo.Some? && changes[i].table.Some? && changes[i].row.Some?
            && ResultFor(results, changes[i].seqNo).Some?
            && ResultFor(results, changes[i].seqNo).value.status in {Applied, Skipped}
      :: (changes[i].seqNo.value, Key(changes[i].table.value, changes[i].rowId), changes[i].row.value)
  }

  /** A logged write is the server's own; an unlogged one came from the client. */
  ghost function AuthorAfter(author: map<Key, Side>, before: Store, now: Store): map<Key, Side> {
    author + map k | k in now.rows && (k !in before.rows || before.rows[k] != now.rows[k]) ::
      if exists i :: |before.log| <= i < |now.log| && now.log[i].key == k then ServerSide else ClientSide
  }

  ghost function Record(w: World, s: Sys, h: Hist, a: Action): Hist {
    var t := Exec(w, s, a);
    match a
    case Collect(_) =>
      var taken := Snapped(s.client.queue, t.client.queue);
      h.(snap := h.snap + taken, seenAt := h.seenAt + map n | n in taken :: h.handled)
    case ReadPage(_) =>
      if t.page.None? then h else h.(feed := h.feed + set ch | ch in t.page.value.changes)
    case ServerEdit(_, _) => h.(author := AuthorAfter(h.author, s.server.store, t.server.store))
    case Deliver(m, _) =>
      h.(author := AuthorAfter(h.author, s.server.store, t.server.store),
         effects := if t.server.store != s.server.store && m.change.seqNo.Some?
                    then h.effects + [ReceiptKey(m.from, m.change.seqNo.value)] else h.effects)
    case ApplyPage(draws) =>
      if t.client == s.client || s.page.None? then h
      else
        var changes := WithBases(s.client.rowState, s.page.value.changes);
        h.(handled := h.handled + HandledBy(changes, ResultsOf(PullBatch(w, s.client, changes, draws))))
    case RetryPulls(limit, draws) =>
      if t.client == s.client then h
      else
        var changes := WithBases(s.client.rowState, ListRetries(s.client.queue, Pull, limit));
        h.(handled := h.handled + HandledBy(changes, ResultsOf(PullBatch(w, s.client, changes, draws))))
    case _ => h
  }

  function ResultsOf(q: Progress): seq<Result> {
    if q.Running? then q.out.results else []
  }

  /** A run is its list of actions; each must be enabled in the state it meets. */
  ghost predicate IsRun(w: World, acts: seq<Action>) {
    forall i | 0 <= i < |acts| :: Enabled(w, After(w, acts[..i]).0, acts[i])
  }

  ghost function After(w: World, acts: seq<Action>): (Sys, Hist) {
    if acts == [] then (START, NO_HISTORY)
    else
      var before := After(w, acts[..|acts| - 1]);
      (Exec(w, before.0, acts[|acts| - 1]), Record(w, before.0, before.1, acts[|acts| - 1]))
  }
}
