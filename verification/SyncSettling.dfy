/** What an answer, a pulled change and a retried one do to the client's books, entry by entry. */
module SyncSettling {
  import opened SyncSchema
  import opened SyncStore
  import opened SyncApply
  import opened SyncBatch
  import opened SyncQueue

  /** The client remembers this clock for the row, and the later of both seqs; about other rows what it did. */
  ghost predicate Remembers(was: map<Key, RowState>, now: map<Key, RowState>, k: Key, clock: int, peerSeq: nat) {
    && k in now && now[k].clock == clock
    && now[k].peerSeq == (if k in was && was[k].peerSeq > peerSeq then was[k].peerSeq else peerSeq)
    && now.Keys == was.Keys + {k}
    && forall other | other in was && other != k :: now[other] == was[other]
  }

  /** The entry has left the queue; a dead one is found under its dead direction. All others are as they were. */
  ghost predicate Leaves(was: Queue, now: Queue, live: QueueKey, dead: Option<QueueKey>) {
    && now.Keys == was.Keys - {live} + (if dead.Some? && live in was then {dead.value} else {})
    && (dead.Some? && live in was ==> now[dead.value] == was[live])
    && forall key | key in was && key != live && dead != Some(key) :: now[key] == was[key]
  }

  ghost predicate IsDeadLetterOf(i: Issue, ch: Change) {
    ch.table.Some? && i == Issue(DeadLetter, Key(ch.table.value, ch.rowId), None)
  }

  /** An answer leaves rows, log and marks alone. Its conflicts and duplicates are recorded. An applied or skipped
      entry leaves the outbox and its row's clock is remembered; a rejected one becomes a dead letter with an issue;
      a deferred one stays. */
  lemma AnswerSettles(c: Client, n: nat, answer: Outcome)
    requires answer.results != []
    ensures var d, r := SettlePushed(c, n, answer), answer.results[0];
            var live, dead := QueueKey(Push, n), QueueKey(PushDead, n);
            && d.store.rows == c.store.rows && d.store.log == c.store.log
            && d.pushed == c.pushed && d.pulled == c.pulled && d.epoch == c.epoch
            && (forall i :: i in d.store.issues <==>
                  || i in c.store.issues || i in answer.duplicates
                  || (exists j ::
                        0 <= j < |answer.conflicts| && i == Issue(ConflictIssue, answer.conflicts[j].ref, None))
                  || (r.status == Rejected && live in c.queue && IsDeadLetterOf(i, c.queue[live])))
            && (match r.status
                case Deferred => d.queue == c.queue
                case Rejected => Leaves(c.queue, d.queue, live, Some(dead))
                case _ => Leaves(c.queue, d.queue, live, None))
            && (if (r.status == Applied || r.status == Skipped) && r.table.Some? && r.rowId != "" && r.clock.Some?
                then Remembers(c.rowState, d.rowState, Key(r.table.value, r.rowId), r.clock.value, 0)
                else d.rowState == c.rowState)
  {
  }

  /** A pulled change that was applied or skipped is remembered with its clock and seq. Any other is queued, a
      rejected one as a dead letter with an issue. */
  lemma PulledSettles(c: Client, ch: Change, r: Option<Result>)
    requires ch.table.Some? && ch.seqNo.Some? && ch.rowId != "" && SettlePaged(c, ch, r).Some?
    requires ch.row.Some? && Get(ch.row.value, UpdatedAtUtc).Num?
    ensures var d, k := SettlePaged(c, ch, r).value, Key(ch.table.value, ch.rowId);
            var live, dead := QueueKey(Pull, ch.seqNo.value), QueueKey(PullDead, ch.seqNo.value);
            && d.store.rows == c.store.rows && d.store.log == c.store.log
            && d.pushed == c.pushed && d.pulled == c.pulled && d.epoch == c.epoch
            && (if r.Some? && (r.value.status == Applied || r.value.status == Skipped) then
                  && d.queue == c.queue && d.store.issues == c.store.issues
                  && Remembers(c.rowState, d.rowState, k, Get(ch.row.value, UpdatedAtUtc).n, ch.seqNo.value)
                else if r.Some? && r.value.status == Rejected then
                  && Leaves(c.queue[live := ch], d.queue, live, Some(dead)) && d.rowState == c.rowState
                  && d.store.issues == c.store.issues + {Issue(DeadLetter, k, None)}
                else d.queue == c.queue[live := ch] && d.rowState == c.rowState && d.store.issues == c.store.issues)
  {
  }

  /** A retried change that was applied or skipped leaves the inbox and is remembered; a rejected one becomes a dead
      letter with an issue; any other stays. */
  lemma RetriedSettles(c: Client, ch: Change, r: Option<Result>)
    requires ch.table.Some? && ch.seqNo.Some? && ch.rowId != ""
    requires ch.row.Some? && Get(ch.row.value, UpdatedAtUtc).Num?
    ensures var d, k := SettleRetried(c, ch, r), Key(ch.table.value, ch.rowId);
            var live, dead := QueueKey(Pull, ch.seqNo.value), QueueKey(PullDead, ch.seqNo.value);
            && d.store.rows == c.store.rows && d.store.log == c.store.log
            && d.pushed == c.pushed && d.pulled == c.pulled && d.epoch == c.epoch
            && (if r.Some? && (r.value.status == Applied || r.value.status == Skipped) then
                  && Leaves(c.queue, d.queue, live, None) && d.store.issues == c.store.issues
                  && Remembers(c.rowState, d.rowState, k, Get(ch.row.value, UpdatedAtUtc).n, ch.seqNo.value)
                else if r.Some? && r.value.status == Rejected then
                  && Leaves(c.queue, d.queue, live, Some(dead)) && d.rowState == c.rowState
                  && d.store.issues == c.store.issues + {Issue(DeadLetter, k, None)}
                else d == c)
  {
  }

  /** A change can be queued unless it has no seq or another payload is queued under it. */
  lemma QueuedUnlessDifferent(q: Queue, direction: Direction, ch: Change)
    ensures Enqueue(q, direction, ch)
            == if ch.seqNo.Some? && (QueueKey(direction, ch.seqNo.value) in q ==>
                   q[QueueKey(direction, ch.seqNo.value)] == ch)
               then Some(q[QueueKey(direction, ch.seqNo.value) := ch]) else None
  {
  }

  /** A pulled change without a base takes the clock that is remembered for its row. */
  lemma BaseIsRemembered(rs: map<Key, RowState>, ch: Change)
    requires ch.table.Some? && ch.rowId != ""
    ensures var k := Key(ch.table.value, ch.rowId);
            WithBase(rs, ch)
            == ch.(baseClock := if ch.baseClock.Some? then ch.baseClock
                                else if k in rs then Some(rs[k].clock) else None)
  {
  }
}
