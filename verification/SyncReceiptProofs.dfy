/** Receipts: a replay changes nothing, and a reused seq with another payload stops the batch. */
module SyncReceiptProofs {
  import opened SyncSchema
  import opened SyncStore
  import opened SyncApply
  import opened SyncBatch
  import opened SyncBatchProofs

  ghost predicate Extends(a: Receipts, b: Receipts) {
    forall key | key in a :: key in b && b[key] == a[key]
  }

  /** The receipt a peer's change would be found under holds this change and this one result. */
  ghost predicate Recorded(receipts: Receipts, peer: Peer, ch: Change, r: Result) {
    ch.seqNo.Some? ==>
      var key := ReceiptKey(peer, ch.seqNo.value);
      key in receipts && receipts[key].payload == ch && receipts[key].part.results == [r]
  }

  /** A row that is refused or deferred leaves every table but the receipts alone,
      and a deferred one leaves those alone too. */
  lemma RefusedRowWritesNothing(x: Session, peer: Option<Peer>, p: Progress, t: Table, ch: Change, d: Draw)
    requires p.Running? && StepRow(x, peer, p, t, ch, d).Running?
    requires ch.table == Some(t) && ReceiptsOk(p.receipts)
    ensures var q := StepRow(x, peer, p, t, ch, d);
            && q.out.results != []
            && (var r := q.out.results[|q.out.results| - 1];
                && (r.status == Rejected || r.status == Deferred ==> q.store == p.store)
                && (r.status == Deferred ==> q.receipts == p.receipts))
  {
    hide ApplyOne, EffectiveClock;
    var key := ReceiptOf(peer, ch);
    if key.Some? && key.value in p.receipts {
      assert PartAnswers(p.receipts[key.value].part, p.receipts[key.value].payload);
      assert |Answered(p.receipts[key.value].part.results)| == 1;
    } else if ApplyOne(x, p.store, t, ch, d).Done? {
      RefusalWritesNothing(x, p.store, t, ch, d);
    }
  }

  lemma RefusalWritesNothing(x: Session, st: Store, t: Table, ch: Change, d: Draw)
    requires ApplyOne(x, st, t, ch, d).Done?
    ensures var a := ApplyOne(x, st, t, ch, d);
            a.out.status == Rejected || a.out.status == Deferred ==> a.store == st
  {
    hide PreserveText, ConstraintsHold, FindDuplicates, TrueDivergence, RowsEquivalent, IncomingWins;
  }

  lemma StepRecords(x: Session, peer: Peer, p: Progress, t: Table, ch: Change, d: Draw)
    requires p.Running? && StepRow(x, Some(peer), p, t, ch, d).Running?
    requires ch.table == Some(t) && ReceiptsOk(p.receipts)
    ensures var q := StepRow(x, Some(peer), p, t, ch, d);
            && Extends(p.receipts, q.receipts)
            && |q.out.results| == |p.out.results| + 1
            && (var r := q.out.results[|p.out.results|];
                r.status != Deferred ==> Recorded(q.receipts, peer, ch, r))
  {
    hide ApplyOne, EffectiveClock;
    var key := ReceiptKey(peer, if ch.seqNo.Some? then ch.seqNo.value else 0);
    if ch.seqNo.Some? && key in p.receipts {
      assert PartAnswers(p.receipts[key].part, p.receipts[key].payload);
      assert |Answered(p.receipts[key].part.results)| == 1;
    }
  }

  lemma {:induction false} FoldRecords(
    x: Session, peer: Peer, p: Progress, work: seq<Change>, draw: nat -> Draw, i: nat)
    requires p.Running? && ReceiptsOk(p.receipts) && Balanced(p.out)
    requires forall ch | ch in work :: ch.table.Some?
    requires Fold(x, Some(peer), p, work, draw).Running?
    requires i < |work|
    ensures var q := Fold(x, Some(peer), p, work, draw);
            && Extends(p.receipts, q.receipts)
            && |q.out.results| == |p.out.results| + |work|
            && (var r := q.out.results[|p.out.results| + i];
                r.status != Deferred ==> Recorded(q.receipts, peer, work[i], r))
  {
    hide StepRow, Balanced, Recorded, ReceiptsOk, Extends;
    var n := |work| - 1;
    var before := Fold(x, Some(peer), p, work[..n], draw);
    FoldAccounts(x, Some(peer), p, work[..n], draw);
    FoldAccounts(x, Some(peer), p, work, draw);
    assert |Answered(before.out.results)| == |before.out.results|;
    StepRecords(x, peer, before, work[n].table.value, work[n], draw(n));
    if n > 0 {
      FoldRecords(x, peer, p, work[..n], draw, if i < n then i else 0);
    }
    if i < n {
      StepKeepsEarlierResults(x, Some(peer), before, work[n].table.value, work[n], draw(n));
    }
    StillRecorded(p.receipts, before.receipts, Fold(x, Some(peer), p, work, draw).receipts, peer);
  }

  lemma StillRecorded(a: Receipts, b: Receipts, c: Receipts, peer: Peer)
    ensures Extends(a, a)
    ensures Extends(a, b) && Extends(b, c) ==> Extends(a, c)
    ensures Extends(b, c) ==> forall ch, r | Recorded(b, peer, ch, r) :: Recorded(c, peer, ch, r)
  {
  }

  lemma StepKeepsEarlierResults(x: Session, peer: Option<Peer>, p: Progress, t: Table, ch: Change, d: Draw)
    requires p.Running? && StepRow(x, peer, p, t, ch, d).Running?
    ensures p.out.results <= StepRow(x, peer, p, t, ch, d).out.results
  {
    hide ApplyOne, EffectiveClock;
  }

  lemma RecordedReplays(x: Session, peer: Peer, receipts: Receipts, p: Progress, ch: Change, r: Result, d: Draw)
    requires Recorded(receipts, peer, ch, r) && ch.seqNo.Some? && ch.table.Some?
    requires p.Running? && Extends(receipts, p.receipts)
    ensures var again := StepRow(x, Some(peer), p, ch.table.value, ch, d);
            && again.Running? && again.store == p.store && again.receipts == p.receipts
            && again.out.results == p.out.results + [r]
  {
    hide ApplyOne, EffectiveClock;
  }

  /** Re-sending any change of a committed batch whose result was not deferred, in any later state,
      returns that result and writes neither rows, log, issues nor receipts. */
  lemma ReplayIsInert(
    x: Session, peer: Peer, st: Store, receipts: Receipts, changes: seq<Change>, draw: nat -> Draw, i: nat,
    later: Session, p: Progress, d: Draw)
    requires ReceiptsOk(receipts)
    requires ApplyBatch(x, Some(peer), st, receipts, changes, draw).Running?
    requires i < |Ordered(changes)| && Ordered(changes)[i].seqNo.Some?
    requires p.Running? && Extends(ApplyBatch(x, Some(peer), st, receipts, changes, draw).receipts, p.receipts)
    ensures var out := ApplyBatch(x, Some(peer), st, receipts, changes, draw).out;
            var ch := Ordered(changes)[i];
            var n := |Having(changes, None)|;
            && n + i < |out.results|
            && (out.results[n + i].status != Deferred ==>
                  var again := StepRow(later, Some(peer), p, ch.table.value, ch, d);
                  && again.Running? && again.store == p.store && again.receipts == p.receipts
                  && again.out.results == p.out.results + [out.results[n + i]])
  {
    hide ApplyOne, Fold, StepRow, Ordered, Having, RefuseAll, Recorded, Balanced, ReceiptsOk;
    var unlisted := Having(changes, None);
    RefusalsAccount(unlisted);
    assert |Answered(RefuseAll(unlisted).results)| == |Idents(unlisted)| == |unlisted|;
    FoldRecords(x, peer, Running(st, receipts, RefuseAll(unlisted)), Ordered(changes), draw, i);
    var q := ApplyBatch(x, Some(peer), st, receipts, changes, draw);
    var r := q.out.results[|unlisted| + i];
    if r.status != Deferred {
      RecordedReplays(later, peer, q.receipts, p, Ordered(changes)[i], r, d);
    }
  }

  // ------------------------------------------------------------------
  // Payload mismatch
  // ------------------------------------------------------------------

  ghost predicate Contradicts(receipts: Receipts, peer: Peer, ch: Change) {
    && ch.seqNo.Some?
    && ReceiptKey(peer, ch.seqNo.value) in receipts
    && receipts[ReceiptKey(peer, ch.seqNo.value)].payload != ch
  }

  lemma StepAborts(x: Session, peer: Peer, p: Progress, t: Table, ch: Change, d: Draw)
    requires p.Running?
    ensures StepRow(x, Some(peer), p, t, ch, d).Aborted? <==> Contradicts(p.receipts, peer, ch)
  {
    hide ApplyOne, EffectiveClock, Merge, PartOf, RefusedPart;
  }

  ghost predicate Undeferred(q: Progress) {
    q.Running? && q.out.results != [] && q.out.results[|q.out.results| - 1].status != Deferred
  }

  /** No receipt is lost or changed, and the only one added is the row's own, which an undeferred row leaves. */
  ghost predicate Leaves(before: Receipts, q: Progress, peer: Peer, ch: Change) {
    && q.Running? && Extends(before, q.receipts)
    && (forall key | key in q.receipts && key !in before :: key.peer == peer && ch.seqNo == Some(key.seqNo))
    && (ch.seqNo.Some? && ReceiptKey(peer, ch.seqNo.value) !in before && ReceiptKey(peer, ch.seqNo.value) in q.receipts
        ==> Undeferred(q))
    && (ch.seqNo.Some? && (Undeferred(q) || ReceiptKey(peer, ch.seqNo.value) in q.receipts) ==>
          && ReceiptKey(peer, ch.seqNo.value) in q.receipts
          && q.receipts[ReceiptKey(peer, ch.seqNo.value)].payload == ch)
  }

  lemma StepLeaves(x: Session, peer: Peer, p: Progress, t: Table, ch: Change, d: Draw)
    requires p.Running? && StepRow(x, Some(peer), p, t, ch, d).Running?
    ensures Leaves(p.receipts, StepRow(x, Some(peer), p, t, ch, d), peer, ch)
  {
    hide ApplyOne, EffectiveClock;
  }

  /** The outcome of the first `n` rows. */
  ghost function Upto(x: Session, peer: Peer, p: Progress, work: seq<Change>, draw: nat -> Draw, n: nat): Progress
    requires n <= |work| && forall ch | ch in work :: ch.table.Some?
  {
    Fold(x, Some(peer), p, work[..n], draw)
  }

  lemma OneMore(x: Session, peer: Peer, p: Progress, work: seq<Change>, draw: nat -> Draw, n: nat)
    requires n < |work| && p.Running? && forall ch | ch in work :: ch.table.Some?
    ensures Upto(x, peer, p, work, draw, 0) == p
    ensures var before := Upto(x, peer, p, work, draw, n);
            Upto(x, peer, p, work, draw, n + 1)
            == if before.Aborted? then Aborted
               else StepRow(x, Some(peer), before, work[n].table.value, work[n], draw(n))
  {
    hide StepRow;
    assert work[..n + 1][..n] == work[..n] && work[..0] == [];
  }

  /** Row `j` is reached with this seq, and its result is not deferred. */
  ghost predicate LeavesReceipt(
    x: Session, peer: Peer, p: Progress, work: seq<Change>, draw: nat -> Draw, j: nat, seqNo: nat)
    requires j < |work| && forall ch | ch in work :: ch.table.Some?
  {
    work[j].seqNo == Some(seqNo) && Undeferred(Upto(x, peer, p, work, draw, j + 1))
  }

  /** The receipts after `n` rows are those held before and those the undeferred ones among the rows left. */
  ghost predicate LeftBy(
    x: Session, peer: Peer, p: Progress, work: seq<Change>, draw: nat -> Draw, n: nat, now: Receipts)
    requires p.Running? && n <= |work| && forall ch | ch in work :: ch.table.Some?
  {
    && Extends(p.receipts, now)
    && (forall key | key in now && key !in p.receipts ::
          key.peer == peer && exists j :: 0 <= j < n && LeavesReceipt(x, peer, p, work, draw, j, key.seqNo)
                                          && now[key].payload == work[j])
    && (forall j, seqNo: nat | 0 <= j < n && LeavesReceipt(x, peer, p, work, draw, j, seqNo) ::
          ReceiptKey(peer, seqNo) in now && now[ReceiptKey(peer, seqNo)].payload == work[j])
  }

  lemma RowLeaves(x: Session, peer: Peer, p: Progress, work: seq<Change>, draw: nat -> Draw, i: nat)
    requires p.Running? && i < |work| && forall ch | ch in work :: ch.table.Some?
    requires var before, q := Upto(x, peer, p, work, draw, i), Upto(x, peer, p, work, draw, i + 1);
             && before.Running? && q.Running? && LeftBy(x, peer, p, work, draw, i, before.receipts)
             && Leaves(before.receipts, q, peer, work[i])
    ensures LeftBy(x, peer, p, work, draw, i + 1, Upto(x, peer, p, work, draw, i + 1).receipts)
  {
    hide Upto, Undeferred;
    var before, q := Upto(x, peer, p, work, draw, i).receipts, Upto(x, peer, p, work, draw, i + 1).receipts;
    forall key | key in q && key !in p.receipts
      ensures key.peer == peer && exists j :: 0 <= j < i + 1 && LeavesReceipt(x, peer, p, work, draw, j, key.seqNo)
                                              && q[key].payload == work[j]
    {
      if key !in before {
        assert LeavesReceipt(x, peer, p, work, draw, i, key.seqNo);
      }
    }
  }

  lemma {:induction false} RowsLeave(x: Session, peer: Peer, p: Progress, work: seq<Change>, draw: nat -> Draw, n: nat)
    requires p.Running? && n <= |work| && forall ch | ch in work :: ch.table.Some?
    requires Upto(x, peer, p, work, draw, n).Running?
    ensures LeftBy(x, peer, p, work, draw, n, Upto(x, peer, p, work, draw, n).receipts)
  {
    if n == 0 {
      assert work[..0] == [];
    } else {
      hide StepRow, LeftBy, Upto, Leaves;
      var i := n - 1;
      OneMore(x, peer, p, work, draw, i);
      RowsLeave(x, peer, p, work, draw, i);
      StepLeaves(x, peer, Upto(x, peer, p, work, draw, i), work[i].table.value, work[i], draw(i));
      RowLeaves(x, peer, p, work, draw, i);
    }
  }

  /** Row `i` reuses a seq for another payload: one held before, or one of an earlier row that was not deferred. */
  ghost predicate Mismatched(x: Session, peer: Peer, p: Progress, work: seq<Change>, draw: nat -> Draw, i: nat)
    requires p.Running? && i < |work| && forall ch | ch in work :: ch.table.Some?
  {
    || Contradicts(p.receipts, peer, work[i])
    || (work[i].seqNo.Some?
        && exists j :: 0 <= j < i && LeavesReceipt(x, peer, p, work, draw, j, work[i].seqNo.value)
                       && work[j] != work[i])
  }

  lemma MismatchIsContradiction(
    x: Session, peer: Peer, p: Progress, work: seq<Change>, draw: nat -> Draw, i: nat)
    requires p.Running? && i < |work| && forall ch | ch in work :: ch.table.Some?
    requires Upto(x, peer, p, work, draw, i).Running?
    ensures Mismatched(x, peer, p, work, draw, i)
            <==> Contradicts(Upto(x, peer, p, work, draw, i).receipts, peer, work[i])
  {
    RowsLeave(x, peer, p, work, draw, i);
    hide LeavesReceipt, Upto;
  }

  lemma OneMoreAborts(x: Session, peer: Peer, p: Progress, work: seq<Change>, draw: nat -> Draw, i: nat)
    requires p.Running? && i < |work| && forall ch | ch in work :: ch.table.Some?
    ensures Upto(x, peer, p, work, draw, i + 1).Aborted?
            <==> Upto(x, peer, p, work, draw, i).Running? ==> Mismatched(x, peer, p, work, draw, i)
  {
    hide StepRow, Mismatched, Contradicts, Upto;
    OneMore(x, peer, p, work, draw, i);
    var before := Upto(x, peer, p, work, draw, i);
    if before.Running? {
      StepAborts(x, peer, before, work[i].table.value, work[i], draw(i));
      MismatchIsContradiction(x, peer, p, work, draw, i);
    }
  }

  ghost predicate AnyMismatched(x: Session, peer: Peer, p: Progress, work: seq<Change>, draw: nat -> Draw, n: nat)
    requires p.Running? && n <= |work| && forall ch | ch in work :: ch.table.Some?
  {
    exists i :: 0 <= i < n && Mismatched(x, peer, p, work, draw, i)
  }

  lemma AnyOneMore(x: Session, peer: Peer, p: Progress, work: seq<Change>, draw: nat -> Draw, n: nat)
    requires p.Running? && n < |work| && forall ch | ch in work :: ch.table.Some?
    ensures AnyMismatched(x, peer, p, work, draw, n + 1)
            <==> AnyMismatched(x, peer, p, work, draw, n) || Mismatched(x, peer, p, work, draw, n)
  {
    hide Mismatched;
  }

  lemma NothingYet(x: Session, peer: Peer, p: Progress, work: seq<Change>, draw: nat -> Draw)
    requires p.Running? && forall ch | ch in work :: ch.table.Some?
    ensures Upto(x, peer, p, work, draw, 0) == p && !AnyMismatched(x, peer, p, work, draw, 0)
  {
    hide StepRow, Mismatched;
    assert work[..0] == [];
  }

  lemma {:induction false} RowsAbort(x: Session, peer: Peer, p: Progress, work: seq<Change>, draw: nat -> Draw, n: nat)
    requires p.Running? && n <= |work| && forall ch | ch in work :: ch.table.Some?
    ensures Upto(x, peer, p, work, draw, n).Aborted? <==> AnyMismatched(x, peer, p, work, draw, n)
  {
    hide Mismatched, Upto, AnyMismatched;
    if n == 0 {
      NothingYet(x, peer, p, work, draw);
    } else {
      RowsAbort(x, peer, p, work, draw, n - 1);
      AnyOneMore(x, peer, p, work, draw, n - 1);
      OneMoreAborts(x, peer, p, work, draw, n - 1);
    }
  }

  /** A batch begins with its unknown tables refused. */
  ghost function Start(st: Store, receipts: Receipts, changes: seq<Change>): (p: Progress)
    ensures p.Running? && p.store == st && p.receipts == receipts
  {
    Running(st, receipts, RefuseAll(Having(changes, None)))
  }

  lemma BatchIsUpto(x: Session, peer: Peer, st: Store, receipts: Receipts, changes: seq<Change>, draw: nat -> Draw)
    ensures var start, work := Start(st, receipts, changes), Ordered(changes);
            ApplyBatch(x, Some(peer), st, receipts, changes, draw) == Upto(x, peer, start, work, draw, |work|)
  {
    hide Having, RefuseAll, Ordered, Fold;
    assert Ordered(changes)[..|Ordered(changes)|] == Ordered(changes);
  }

  /** A batch aborts exactly when a row reuses a seq for another payload than the receipt held before the batch, or
      than an earlier row of it that was reached and not deferred. A deferred row leaves its seq free. */
  lemma BatchAbortsExactlyOnMismatch(
    x: Session, peer: Peer, st: Store, receipts: Receipts, changes: seq<Change>, draw: nat -> Draw)
    ensures var start, work := Start(st, receipts, changes), Ordered(changes);
            ApplyBatch(x, Some(peer), st, receipts, changes, draw).Aborted?
            <==> exists i :: 0 <= i < |work| && Mismatched(x, peer, start, work, draw, i)
  {
    hide Start, Ordered, ApplyBatch, Mismatched, Upto;
    var start, work := Start(st, receipts, changes), Ordered(changes);
    BatchIsUpto(x, peer, st, receipts, changes, draw);
    RowsAbort(x, peer, start, work, draw, |work|);
  }

  ghost predicate SameSeqSamePayload(work: seq<Change>) {
    forall i, j | 0 <= i < |work| && 0 <= j < |work| && work[i].seqNo.Some? && work[i].seqNo == work[j].seqNo ::
      work[i] == work[j]
  }

  lemma OnlyHeldReceipts(
    x: Session, peer: Peer, p: Progress, work: seq<Change>, draw: nat -> Draw, i: nat)
    requires p.Running? && i < |work| && forall ch | ch in work :: ch.table.Some?
    requires SameSeqSamePayload(work)
    ensures Mismatched(x, peer, p, work, draw, i) <==> Contradicts(p.receipts, peer, work[i])
  {
    hide Upto, Undeferred, Contradicts;
    forall j | 0 <= j < i && work[i].seqNo.Some? && LeavesReceipt(x, peer, p, work, draw, j, work[i].seqNo.value)
      ensures work[j] == work[i]
    {
    }
  }

  /** When each seq names one payload within the batch, only the receipts held before decide. */
  lemma ConsistentBatchAbortsOnHeldReceipt(
    x: Session, peer: Peer, st: Store, receipts: Receipts, changes: seq<Change>, draw: nat -> Draw)
    requires SameSeqSamePayload(Ordered(changes))
    ensures ApplyBatch(x, Some(peer), st, receipts, changes, draw).Aborted? <==>
            exists ch :: ch in Ordered(changes) && Contradicts(receipts, peer, ch)
  {
    hide Start, Ordered, ApplyBatch, Mismatched, Contradicts, SameSeqSamePayload;
    var start, work := Start(st, receipts, changes), Ordered(changes);
    BatchAbortsExactlyOnMismatch(x, peer, st, receipts, changes, draw);
    forall i | 0 <= i < |work|
      ensures Mismatched(x, peer, start, work, draw, i) <==> Contradicts(receipts, peer, work[i])
    {
      OnlyHeldReceipts(x, peer, start, work, draw, i);
    }
    if ch :| ch in work && Contradicts(receipts, peer, ch) {
      var i :| 0 <= i < |work| && work[i] == ch;
      assert Mismatched(x, peer, start, work, draw, i);
    }
    if i :| 0 <= i < |work| && Mismatched(x, peer, start, work, draw, i) {
      assert work[i] in work;
    }
  }
}
