/** What settling a batch does to the client's queue. */
module SyncQueueProofs {
  import opened SyncSchema
  import opened SyncStore
  import opened SyncApply
  import opened SyncBatch
  import opened SyncBatchProofs
  import opened SyncQueue
  import opened SyncFeedProofs
  import opened SyncInvariants

  // ------------------------------------------------------------------
  // Outbox
  // ------------------------------------------------------------------

  /** Exactly the collected changes are added, each under its own seq. */
  lemma {:induction false} EnqueueAllAdds(q: Queue, changes: seq<Change>)
    requires EnqueueAll(q, Push, changes).Some?
    ensures var r := EnqueueAll(q, Push, changes).value;
            && (forall key | key in q :: key in r && r[key] == q[key])
            && (forall key | key in r && key !in q ::
                  key.direction == Push && exists ch :: ch in changes && ch.seqNo == Some(key.seqNo) && r[key] == ch)
            && (forall ch | ch in changes ::
                  ch.seqNo.Some? && QueueKey(Push, ch.seqNo.value) in r && r[QueueKey(Push, ch.seqNo.value)] == ch)
  {
    if changes != [] {
      var n := |changes| - 1;
      EnqueueAllAdds(q, changes[..n]);
      assert changes == changes[..n] + [changes[n]];
    }
  }

  // ------------------------------------------------------------------
  // Inbox
  // ------------------------------------------------------------------

  function StatusFor(results: seq<Result>, ch: Change): Option<Status> {
    var r := ResultFor(results, ch.seqNo);
    if r.Some? then Some(r.value.status) else None
  }

  ghost predicate Finished(results: seq<Result>, ch: Change) {
    StatusFor(results, ch) == Some(Applied) || StatusFor(results, ch) == Some(Skipped)
  }

  ghost predicate IsPull(key: QueueKey) {
    key.direction == Pull || key.direction == PullDead
  }

  /** Everything but the queue, the row states and the recorded issues is as before. */
  ghost predicate OnlySettled(c: Client, d: Client) {
    && d.store.rows == c.store.rows && d.store.log == c.store.log
    && d.pushed == c.pushed && d.pulled == c.pulled && d.epoch == c.epoch
    && (forall key | key in c.queue && !IsPull(key) :: key in d.queue && d.queue[key] == c.queue[key])
    && (forall key | key in d.queue && !IsPull(key) :: key in c.queue)
  }

  /** Inbox entries are kept or are changes of the batch, under their own seq. */
  ghost predicate InboxFrom(q: Queue, r: Queue, changes: seq<Change>) {
    forall key | key in r && IsPull(key) ::
      || (key in q && r[key] == q[key])
      || (exists ch :: ch in changes && ch.seqNo == Some(key.seqNo) && r[key] == ch)
  }

  ghost predicate Keeps(q: Queue, r: Queue) {
    forall key | key in q && IsPull(key) ::
      exists other :: other in r && IsPull(other) && other.seqNo == key.seqNo && r[other] == q[key]
  }

  ghost predicate Holds(q: Queue, ch: Change) {
    ch.seqNo.Some? && exists key :: key in q && IsPull(key) && key.seqNo == ch.seqNo.value && q[key] == ch
  }

  /** No seq is both waiting and given up. */
  ghost predicate OneFate(q: Queue) {
    forall n :: !(QueueKey(Pull, n) in q && QueueKey(PullDead, n) in q)
  }

  ghost predicate NotDead(q: Queue, ch: Change) {
    ch.seqNo.Some? ==> QueueKey(PullDead, ch.seqNo.value) !in q
  }

  /** The entry is queued: nothing else in the inbox changes. */
  lemma QueuedInbox(q: Queue, n: nat, ch: Change)
    requires ch.seqNo == Some(n) && (QueueKey(Pull, n) in q ==> q[QueueKey(Pull, n)] == ch)
             && QueueKey(PullDead, n) !in q
    ensures var r := q[QueueKey(Pull, n) := ch];
            InboxFrom(q, r, [ch]) && Keeps(q, r) && (OneFate(q) ==> OneFate(r)) && Holds(r, ch)
  {
    var r := q[QueueKey(Pull, n) := ch];
    assert ch in [ch] && forall key | key in q :: r[key] == q[key];
  }

  /** The entry is queued and buried at once. */
  lemma BuriedInbox(q: Queue, n: nat, ch: Change)
    requires ch.seqNo == Some(n) && (QueueKey(Pull, n) in q ==> q[QueueKey(Pull, n)] == ch)
             && QueueKey(PullDead, n) !in q
    ensures var r := (q - {QueueKey(Pull, n)})[QueueKey(PullDead, n) := ch];
            InboxFrom(q, r, [ch]) && Keeps(q, r) && (OneFate(q) ==> OneFate(r)) && Holds(r, ch)
  {
    var live, dead := QueueKey(Pull, n), QueueKey(PullDead, n);
    var r := (q - {live})[dead := ch];
    assert ch in [ch] && dead in r && r[dead] == ch;
    forall key | key in q && IsPull(key)
      ensures exists other :: other in r && IsPull(other) && other.seqNo == key.seqNo && r[other] == q[key]
    {
      assert if key == live then r[dead] == q[key] else r[key] == q[key];
    }
  }

  lemma SameInbox(q: Queue, changes: seq<Change>)
    ensures InboxFrom(q, q, changes) && Keeps(q, q)
  {
  }

  lemma SettlePagedOne(c: Client, ch: Change, r: Option<Result>)
    requires ch.table.Some? && ch.seqNo.Some? && NotDead(c.queue, ch)
    requires SettlePaged(c, ch, r).Some?
    ensures var d := SettlePaged(c, ch, r).value;
            && Settles(c, d, [ch])
            && (r.None? || r.value.status == Deferred || r.value.status == Rejected ==> Holds(d.queue, ch))
  {
    hide Remember, InboxFrom, Keeps, OneFate, Holds;
    var n := ch.seqNo.value;
    var d := SettlePaged(c, ch, r).value;
    if r.None? || r.value.status == Deferred || r.value.status == Rejected {
      QueuedInbox(c.queue, n, ch);
      BuriedInbox(c.queue, n, ch);
      var q := c.queue[QueueKey(Pull, n) := ch];
      assert q - {QueueKey(Pull, n)} == c.queue - {QueueKey(Pull, n)};
    } else {
      SameInbox(c.queue, [ch]);
    }
  }

  ghost predicate Settles(c: Client, d: Client, changes: seq<Change>) {
    && OnlySettled(c, d) && InboxFrom(c.queue, d.queue, changes) && Keeps(c.queue, d.queue)
    && (OneFate(c.queue) ==> OneFate(d.queue))
  }

  lemma SettlesTrans(a: Client, b: Client, c: Client, prior: seq<Change>, ch: Change)
    requires Settles(a, b, prior) && Settles(b, c, [ch])
    ensures Settles(a, c, prior + [ch])
  {
    forall key | key in c.queue && IsPull(key)
      ensures (key in a.queue && c.queue[key] == a.queue[key])
              || exists other :: other in prior + [ch] && other.seqNo == Some(key.seqNo) && c.queue[key] == other
    {
      if key !in b.queue || c.queue[key] != b.queue[key] { assert ch in prior + [ch]; }
    }
  }

  lemma StillNotDead(a: Client, b: Client, prior: seq<Change>, ch: Change)
    requires Settles(a, b, prior) && NotDead(a.queue, ch) && DistinctSeqs(prior + [ch])
    ensures NotDead(b.queue, ch)
  {
    forall i | 0 <= i < |prior| ensures prior[i].seqNo != ch.seqNo {
      assert (prior + [ch])[i] == prior[i] && (prior + [ch])[|prior|] == ch;
    }
  }

  lemma KeepsHolds(a: Queue, b: Queue, ch: Change)
    requires Keeps(a, b) && Holds(a, ch)
    ensures Holds(b, ch)
  {
  }

  ghost predicate DistinctSeqs(changes: seq<Change>) {
    forall i, j | 0 <= i < j < |changes| :: changes[i].seqNo != changes[j].seqNo
  }

  lemma DistinctPrefix(prior: seq<Change>, ch: Change)
    requires DistinctSeqs(prior + [ch])
    ensures DistinctSeqs(prior)
  {
    assert forall i | 0 <= i < |prior| :: (prior + [ch])[i] == prior[i];
  }

  /** After a page is settled, whatever was not applied or skipped is in the inbox, live or dead. */
  lemma {:induction false} PageIsHeldOrFinished(c: Client, changes: seq<Change>, results: seq<Result>)
    requires forall ch | ch in changes :: ch.table.Some? && ch.seqNo.Some?
    requires forall ch | ch in changes :: NotDead(c.queue, ch)
    requires DistinctSeqs(changes)
    requires SettlePage(c, changes, results).Some?
    ensures var d := SettlePage(c, changes, results).value;
            && Settles(c, d, changes)
            && (forall ch | ch in changes :: Finished(results, ch) || Holds(d.queue, ch))
  {
    if changes != [] {
      hide Settles, Holds, NotDead, DistinctSeqs, SettlePaged, ResultFor, Finished;
      var n := |changes| - 1;
      var prior, ch := changes[..n], changes[n];
      assert changes == prior + [ch];
      DistinctPrefix(prior, ch);
      PageIsHeldOrFinished(c, prior, results);
      SettleOneMore(c, SettlePage(c, prior, results).value, prior, ch, results);
    }
  }

  lemma SettleOneMore(c: Client, b: Client, prior: seq<Change>, ch: Change, results: seq<Result>)
    requires Settles(c, b, prior) && forall other | other in prior :: Finished(results, other) || Holds(b.queue, other)
    requires ch.table.Some? && ch.seqNo.Some? && NotDead(c.queue, ch) && DistinctSeqs(prior + [ch])
    requires SettlePaged(b, ch, ResultFor(results, ch.seqNo)).Some?
    ensures var d := SettlePaged(b, ch, ResultFor(results, ch.seqNo)).value;
            && Settles(c, d, prior + [ch])
            && (forall other | other in prior + [ch] :: Finished(results, other) || Holds(d.queue, other))
  {
    hide Settles, Holds, NotDead, DistinctSeqs, SettlePaged, ResultFor;
    var d := SettlePaged(b, ch, ResultFor(results, ch.seqNo)).value;
    StillNotDead(c, b, prior, ch);
    SettlePagedOne(b, ch, ResultFor(results, ch.seqNo));
    SettlesTrans(c, b, d, prior, ch);
    SettlesKeeps(b, d, ch);
    forall other | other in prior + [ch] ensures Finished(results, other) || Holds(d.queue, other) {
      if other in prior && Holds(b.queue, other) { KeepsHolds(b.queue, d.queue, other); }
    }
  }

  lemma SettlesKeeps(b: Client, d: Client, ch: Change)
    requires Settles(b, d, [ch])
    ensures Keeps(b.queue, d.queue)
  {
  }

  // ------------------------------------------------------------------
  // Retrying the inbox
  // ------------------------------------------------------------------

  ghost predicate DoneFor(changes: seq<Change>, results: seq<Result>, n: nat) {
    exists ch :: ch in changes && ch.seqNo == Some(n) && Finished(results, ch)
  }

  /** The entry `q[key]` is somewhere in the inbox `r`, live or dead. */
  ghost predicate Lives(q: Queue, key: QueueKey, r: Queue)
    requires key in q
  {
    exists other :: other in r && IsPull(other) && other.seqNo == key.seqNo && r[other] == q[key]
  }

  ghost predicate SurvivesRetry(q: Queue, r: Queue, changes: seq<Change>, results: seq<Result>) {
    forall key | key in q && IsPull(key) ::
      Lives(q, key, r) || DoneFor(changes, results, key.seqNo)
  }

  ghost predicate NothingNew(q: Queue, r: Queue) {
    forall key | key in r && IsPull(key) :: Lives(r, key, q)
  }

  /** Inbox entries only move to the dead letters, or leave once their change is finished. */
  ghost predicate Retires(c: Client, d: Client, changes: seq<Change>, results: seq<Result>) {
    && OnlySettled(c, d)
    && NothingNew(c.queue, d.queue)
    && SurvivesRetry(c.queue, d.queue, changes, results)
    && OneFate(d.queue)
  }

  lemma LivesAs(q: Queue, key: QueueKey, r: Queue, other: QueueKey)
    requires key in q && other in r && IsPull(other) && other.seqNo == key.seqNo && r[other] == q[key]
    ensures Lives(q, key, r)
  {
  }

  lemma BuriedRetires(q: Queue, n: nat, changes: seq<Change>, results: seq<Result>)
    requires OneFate(q) && QueueKey(Pull, n) in q
    ensures var r := (q - {QueueKey(Pull, n)})[QueueKey(PullDead, n) := q[QueueKey(Pull, n)]];
            NothingNew(q, r) && SurvivesRetry(q, r, changes, results) && OneFate(r)
  {
    hide Lives, DoneFor;
    var live, dead := QueueKey(Pull, n), QueueKey(PullDead, n);
    var r := (q - {live})[dead := q[live]];
    forall key | key in q && IsPull(key) ensures Lives(q, key, r) {
      LivesAs(q, key, r, if key == live then dead else key);
    }
    forall key | key in r && IsPull(key) ensures Lives(r, key, q) {
      LivesAs(r, key, q, if key == dead then live else key);
    }
  }

  lemma FinishedRetires(q: Queue, n: nat, changes: seq<Change>, results: seq<Result>)
    requires OneFate(q) && DoneFor(changes, results, n)
    ensures var r := q - {QueueKey(Pull, n)};
            NothingNew(q, r) && SurvivesRetry(q, r, changes, results) && OneFate(r)
  {
    hide DoneFor;
    var r := q - {QueueKey(Pull, n)};
    forall key | key in q && IsPull(key) && key != QueueKey(Pull, n) ensures Lives(q, key, r) {
      assert r[key] == q[key];
    }
    forall key | key in r && IsPull(key) ensures Lives(r, key, q) {
      assert q[key] == r[key];
    }
  }

  lemma SameRetires(q: Queue, changes: seq<Change>, results: seq<Result>)
    ensures NothingNew(q, q) && SurvivesRetry(q, q, changes, results)
  {
    hide DoneFor;
    assert forall key | key in q && IsPull(key) :: q[key] == q[key] && Lives(q, key, q);
  }

  lemma SettleRetriedOne(c: Client, ch: Change, results: seq<Result>)
    requires ch.table.Some? && ch.seqNo.Some? && OneFate(c.queue)
    ensures Retires(c, SettleRetried(c, ch, ResultFor(results, ch.seqNo)), [ch], results)
  {
    hide Remember, ResultFor, NothingNew, SurvivesRetry, OneFate;
    var r, n := ResultFor(results, ch.seqNo), ch.seqNo.value;
    SameRetires(c.queue, [ch], results);
    if r.Some? && r.value.status == Rejected && QueueKey(Pull, n) in c.queue {
      BuriedRetires(c.queue, n, [ch], results);
    } else if r.Some? && (r.value.status == Applied || r.value.status == Skipped) {
      assert ch in [ch];
      assert DoneFor([ch], results, n);
      FinishedRetires(c.queue, n, [ch], results);
    }
  }

  lemma DoneForMore(prior: seq<Change>, ch: Change, results: seq<Result>, n: nat)
    ensures DoneFor(prior, results, n) || DoneFor([ch], results, n) ==> DoneFor(prior + [ch], results, n)
  {
    hide Finished;
    assert forall other | other in prior || other == ch :: other in prior + [ch];
  }

  lemma LivesTrans(a: Queue, key: QueueKey, b: Queue, c: Queue, changes: seq<Change>, results: seq<Result>)
    requires key in a && Lives(a, key, b) && SurvivesRetry(b, c, changes, results)
    requires IsPull(key)
    ensures Lives(a, key, c) || DoneFor(changes, results, key.seqNo)
  {
  }

  lemma RetiresTrans(a: Client, b: Client, c: Client, prior: seq<Change>, ch: Change, results: seq<Result>)
    requires Retires(a, b, prior, results) && Retires(b, c, [ch], results)
    requires OneFate(a.queue)
    ensures Retires(a, c, prior + [ch], results)
  {
    hide DoneFor, OneFate;
    forall key | key in c.queue && IsPull(key) ensures Lives(c.queue, key, a.queue) {
      assert Lives(c.queue, key, b.queue);
    }
    forall key | key in a.queue && IsPull(key)
      ensures Lives(a.queue, key, c.queue) || DoneFor(prior + [ch], results, key.seqNo)
    {
      DoneForMore(prior, ch, results, key.seqNo);
      if Lives(a.queue, key, b.queue) { LivesTrans(a.queue, key, b.queue, c.queue, [ch], results); }
    }
  }

  /** After a retry, an inbox entry is gone only if its change was applied or skipped. */
  lemma {:induction false} RetriesRetire(c: Client, changes: seq<Change>, results: seq<Result>)
    requires forall ch | ch in changes :: ch.table.Some? && ch.seqNo.Some?
    requires OneFate(c.queue)
    ensures Retires(c, SettleRetries(c, changes, results), changes, results)
  {
    hide SettleRetried, ResultFor, Finished;
    if changes != [] {
      var n := |changes| - 1;
      RetriesRetire(c, changes[..n], results);
      var b := SettleRetries(c, changes[..n], results);
      SettleRetriedOne(b, changes[n], results);
      RetiresTrans(c, b, SettleRetries(c, changes, results), changes[..n], changes[n], results);
      assert changes == changes[..n] + [changes[n]];
    }
  }
}
