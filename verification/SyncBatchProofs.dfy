/** Accounting, savepoints, receipts and echo: what holds of every batch. */
module SyncBatchProofs {
  import opened SyncSchema
  import opened SyncStore
  import opened SyncApply
  import opened SyncApplyProofs
  import opened SyncBatch

  // ------------------------------------------------------------------
  // Accounting
  // ------------------------------------------------------------------

  /** Which input change a result answers. */
  datatype Ident = Ident(seqNo: Option<nat>, table: Option<Table>, rowId: Id)

  function Idents(changes: seq<Change>): seq<Ident> {
    seq(|changes|, i requires 0 <= i < |changes| => Ident(changes[i].seqNo, changes[i].table, changes[i].rowId))
  }

  function Answered(results: seq<Result>): seq<Ident> {
    seq(|results|, i requires 0 <= i < |results| => Ident(results[i].seqNo, results[i].table, results[i].rowId))
  }

  ghost predicate Balanced(o: Outcome) {
    o.applied + o.skipped + |o.deferred| + |o.rejected| == |o.results|
  }

  /** A stored part is the balanced, undeferred answer to its own payload. */
  ghost predicate PartAnswers(part: Outcome, ch: Change) {
    Balanced(part) && Answered(part.results) == Idents([ch]) && part.results[0].status != Deferred
  }

  ghost predicate ReceiptsOk(receipts: Receipts) {
    forall key | key in receipts ::
      receipts[key].payload.seqNo == Some(key.seqNo) && PartAnswers(receipts[key].part, receipts[key].payload)
  }

  /** `q` is what a run started in `p` becomes after answering `work`, in order. */
  ghost predicate Accounted(p: Progress, q: Progress, work: seq<Change>)
    requires p.Running?
  {
    q.Running? ==>
      ReceiptsOk(q.receipts) && Balanced(q.out) && Answered(q.out.results) == Answered(p.out.results) + Idents(work)
  }

  lemma MergeAccounts(a: Outcome, b: Outcome)
    requires Balanced(a) && Balanced(b)
    ensures Balanced(Merge(a, b)) && Answered(Merge(a, b).results) == Answered(a.results) + Answered(b.results)
  {
  }

  lemma StepAccounts(x: Session, peer: Option<Peer>, p: Progress, t: Table, ch: Change, d: Draw)
    requires p.Running? && ReceiptsOk(p.receipts) && Balanced(p.out)
    requires ch.table == Some(t)
    ensures Accounted(p, StepRow(x, peer, p, t, ch, d), [ch])
  {
    hide ApplyOne, Merge, EffectiveClock;
    var key := ReceiptOf(peer, ch);
    if key.Some? && key.value in p.receipts {
      if p.receipts[key.value].payload == ch {
        MergeAccounts(p.out, p.receipts[key.value].part);
      }
    } else {
      var attempt := ApplyOne(x, p.store, t, ch, d);
      var part := if attempt.Raised? then RefusedPart(Some(t), ch, SqlError)
                  else PartOf(t, ch, attempt.out, attempt.store.rows);
      assert Balanced(part);
      assert Answered(part.results) == Idents([ch]);
      MergeAccounts(p.out, part);
    }
  }

  lemma IdentsConcat(a: seq<Change>, b: seq<Change>)
    ensures Idents(a + b) == Idents(a) + Idents(b)
  {
  }

  lemma {:induction false} FoldAccounts(
    x: Session, peer: Option<Peer>, p: Progress, work: seq<Change>, draw: nat -> Draw)
    requires p.Running? && ReceiptsOk(p.receipts) && Balanced(p.out)
    requires forall ch | ch in work :: ch.table.Some?
    ensures Accounted(p, Fold(x, peer, p, work, draw), work)
  {
    hide StepRow, ReceiptsOk, Balanced;
    if work == [] {
      assert Answered(p.out.results) + Idents(work) == Answered(p.out.results);
    } else {
      var n := |work| - 1;
      FoldAccounts(x, peer, p, work[..n], draw);
      var before := Fold(x, peer, p, work[..n], draw);
      if before.Running? {
        StepAccounts(x, peer, before, work[n].table.value, work[n], draw(n));
        IdentsConcat(work[..n], [work[n]]);
        assert work == work[..n] + [work[n]];
      }
    }
  }

  lemma {:induction false} RefusalsAccount(unlisted: seq<Change>)
    requires forall ch | ch in unlisted :: ch.table == None
    ensures Balanced(RefuseAll(unlisted)) && Answered(RefuseAll(unlisted).results) == Idents(unlisted)
  {
    if unlisted != [] {
      var n := |unlisted| - 1;
      RefusalsAccount(unlisted[..n]);
      assert Idents(unlisted) == Idents(unlisted[..n]) + Idents([unlisted[n]]);
    }
  }

  lemma GroupGrows(changes: seq<Change>, t: Option<Table>)
    requires changes != []
    ensures multiset(Having(changes, t))
         == multiset(Having(changes[..|changes| - 1], t))
            + (if changes[|changes| - 1].table == t then multiset{changes[|changes| - 1]} else multiset{})
  {
    var rest := Having(changes[..|changes| - 1], t);
    assert multiset(rest + [changes[|changes| - 1]]) == multiset(rest) + multiset{changes[|changes| - 1]};
  }

  lemma OrderedMultiset(changes: seq<Change>)
    ensures multiset(Ordered(changes))
         == multiset(Having(changes, Some(Projects))) + multiset(Having(changes, Some(Memos)))
            + multiset(Having(changes, Some(MemoVersions))) + multiset(Having(changes, Some(ProjectMembers)))
  {
  }

  ghost function Groups(changes: seq<Change>): multiset<Change> {
    multiset(Having(changes, None)) + multiset(Ordered(changes))
  }

  lemma CountInGroups(changes: seq<Change>, ch: Change)
    ensures Groups(changes)[ch] == multiset(Having(changes, ch.table))[ch]
  {
    OrderedMultiset(changes);
    HavingElsewhere(changes, ch, None);
    HavingElsewhere(changes, ch, Some(Projects));
    HavingElsewhere(changes, ch, Some(Memos));
    HavingElsewhere(changes, ch, Some(MemoVersions));
    HavingElsewhere(changes, ch, Some(ProjectMembers));
    match ch.table {
      case None =>
      case Some(t) => match t { case Projects => case Memos => case MemoVersions => case ProjectMembers => }
    }
  }

  lemma HavingElsewhere(changes: seq<Change>, ch: Change, t: Option<Table>)
    ensures ch.table != t ==> multiset(Having(changes, t))[ch] == 0
  {
    if multiset(Having(changes, t))[ch] > 0 {
      assert ch in Having(changes, t);
    }
  }

  lemma {:induction false} HavingCounts(changes: seq<Change>, ch: Change)
    ensures multiset(Having(changes, ch.table))[ch] == multiset(changes)[ch]
  {
    if changes != [] {
      HavingCounts(changes[..|changes| - 1], ch);
      GroupGrows(changes, ch.table);
      assert changes == changes[..|changes| - 1] + [changes[|changes| - 1]];
      assert multiset(changes) == multiset(changes[..|changes| - 1]) + multiset{changes[|changes| - 1]};
    }
  }

  /** Grouping by table neither loses nor repeats a change. */
  lemma GroupsPartition(changes: seq<Change>)
    ensures multiset(Having(changes, None) + Ordered(changes)) == multiset(changes)
  {
    forall ch ensures Groups(changes)[ch] == multiset(changes)[ch] {
      CountInGroups(changes, ch);
      HavingCounts(changes, ch);
    }
    assert Groups(changes) == multiset(changes);
  }

  lemma {:induction false} IdentsOfPermutation(a: seq<Change>, b: seq<Change>)
    requires multiset(a) == multiset(b)
    ensures multiset(Idents(a)) == multiset(Idents(b))
  {
    if a == [] {
      assert |multiset(b)| == 0;
    } else {
      var ch := a[0];
      assert ch in multiset(b);
      var i :| 0 <= i < |b| && b[i] == ch;
      assert a == [ch] + a[1..];
      assert b == b[..i] + [ch] + b[i + 1..];
      assert multiset(a) == multiset{ch} + multiset(a[1..]);
      assert multiset(b) == multiset(b[..i]) + multiset{ch} + multiset(b[i + 1..]);
      assert multiset(a[1..]) == multiset(a) - multiset{ch};
      assert multiset(b[..i] + b[i + 1..]) == multiset(b) - multiset{ch};
      IdentsOfPermutation(a[1..], b[..i] + b[i + 1..]);
      IdentsConcat([ch], a[1..]);
      IdentsConcat(b[..i], b[i + 1..]);
      IdentsConcat(b[..i] + [ch], b[i + 1..]);
      IdentsConcat(b[..i], [ch]);
    }
  }

  /** Every change gets exactly one result, and the four counters add up to the number of results. */
  lemma BatchAccounts(
    x: Session, peer: Option<Peer>, st: Store, receipts: Receipts, changes: seq<Change>, draw: nat -> Draw)
    requires ReceiptsOk(receipts)
    requires ApplyBatch(x, peer, st, receipts, changes, draw).Running?
    ensures var q := ApplyBatch(x, peer, st, receipts, changes, draw);
            && Balanced(q.out) && ReceiptsOk(q.receipts)
            && |q.out.results| == |changes|
            && multiset(Answered(q.out.results)) == multiset(Idents(changes))
  {
    hide Fold, ReceiptsOk, Balanced, Ordered;
    var unlisted := Having(changes, None);
    RefusalsAccount(unlisted);
    var start := Running(st, receipts, RefuseAll(unlisted));
    FoldAccounts(x, peer, start, Ordered(changes), draw);
    GroupsPartition(changes);
    IdentsOfPermutation(unlisted + Ordered(changes), changes);
    IdentsConcat(unlisted, Ordered(changes));
    var out := ApplyBatch(x, peer, st, receipts, changes, draw).out;
    assert Answered(out.results) == Idents(unlisted + Ordered(changes));
    assert |multiset(Answered(out.results))| == |multiset(Idents(changes))|;
  }

  function Turn(t: Table): nat {
    match t
    case Projects => 0
    case Memos => 1
    case MemoVersions => 2
    case ProjectMembers => 3
  }

  /** A batch is applied projects first, then memos, versions and memberships, whatever order it came in: nothing
      comes before a row that could be its parent. */
  lemma ParentsComeFirst(changes: seq<Change>, i: nat, j: nat)
    requires i < j < |Ordered(changes)|
    ensures Turn(Ordered(changes)[i].table.value) <= Turn(Ordered(changes)[j].table.value)
  {
    var a, b := Having(changes, Some(Projects)), Having(changes, Some(Memos));
    var c, d := Having(changes, Some(MemoVersions)), Having(changes, Some(ProjectMembers));
    forall n | 0 <= n < |Ordered(changes)|
      ensures Ordered(changes)[n].table
              == Some(if n < |a| then Projects else if n < |a| + |b| then Memos
                      else if n < |a| + |b| + |c| then MemoVersions else ProjectMembers)
    {
      var group := if n < |a| then a else if n < |a| + |b| then b else if n < |a| + |b| + |c| then c else d;
      assert Ordered(changes)[n] in group;
    }
  }
}
