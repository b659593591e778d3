/** Merging duplicates: the loser's texts, memos and members move to the winner, nothing is dropped. */
module Merge {
  import opened SyncSchema
  import opened SyncStore
  import opened SyncApply
  import opened SyncFeedProofs
  import opened SyncNode

  type Rows = map<Key, Row>

  datatype MergeError = SameId | LoserMissing | WinnerMissing | WriteFailed

  datatype Merged<T> = Merged(report: T) | Refused(error: MergeError)

  predicate IsLive(rows: Rows, k: Key) {
    k in rows && Get(rows[k], DeletedAt) == Null
  }

  function Tombstone(row: Row, now: int): Row {
    row[DeletedAt := Num(now)][UpdatedAtUtc := Num(now)]
  }

  /** Every row that differs is in the log, so the peer will read it. */
  ghost predicate ChangesLogged(was: Rows, now: Rows, log: seq<LogEntry>, from: nat) {
    forall k | k in now && (k !in was || now[k] != was[k]) :: LoggedIn(log, from, |log|, k)
  }

  lemma WriteIsLogged(was: Rows, now: Rows, log: seq<LogEntry>, from: nat, k: Key, row: Row, op: Op)
    requires ChangesLogged(was, now, log, from) && from <= |log|
    ensures ChangesLogged(was, now[k := row], log + [LogEntry(k, op)], from)
  {
    var log2 := log + [LogEntry(k, op)];
    assert log2[|log|].key == k;
    forall j | LoggedIn(log, from, |log|, j) ensures LoggedIn(log2, from, |log2|, j) {
      var i :| from <= i < |log| && log[i].key == j;
      assert log2[i].key == j;
    }
    hide LoggedIn;
  }

  /** Every row that differs carries the time of the change, by which it wins over what it replaced. */
  ghost predicate Stamped(was: Rows, now: Rows, clock: int) {
    forall k | k in now && (k !in was || now[k] != was[k]) :: Get(now[k], UpdatedAtUtc) == Num(clock)
  }

  lemma WriteIsStamped(was: Rows, now: Rows, k: Key, row: Row, clock: int)
    requires Stamped(was, now, clock) && Get(row, UpdatedAtUtc) == Num(clock)
    ensures Stamped(was, now[k := row], clock)
  {
  }

  lemma NothingStamped(rows: Rows, clock: int)
    ensures Stamped(rows, rows, clock)
  {
  }

  lemma TombstoneIsStamped(row: Row, clock: int)
    ensures Get(Tombstone(row, clock), UpdatedAtUtc) == Num(clock)
  {
  }

  // ------------------------------------------------------------------
  // Memos
  // ------------------------------------------------------------------

  datatype MemoReport = MemoReport(movedContent: Option<int>, movedVersions: nat, latest: int)

  function NumberOf(v: Value): int {
    if v.Num? then v.n else 0
  }

  predicate IsVersion(rows: Rows, id: Id, memo: Id) {
    Key(MemoVersions, id) in rows && IsVersionOf(rows, Key(MemoVersions, id), memo)
  }

  function VersionIds(rows: Rows, memo: Id): set<Id> {
    set k | k in rows && IsVersionOf(rows, k, memo) :: k.id
  }

  function RowAt(rows: Rows, id: Id): Row {
    if Key(MemoVersions, id) in rows then rows[Key(MemoVersions, id)] else map[]
  }

  predicate Before(rows: Rows, a: Id, b: Id) {
    var x, y := RowAt(rows, a), RowAt(rows, b);
    || NumberOf(Get(x, Version)) < NumberOf(Get(y, Version))
    || (NumberOf(Get(x, Version)) == NumberOf(Get(y, Version))
       && NumberOf(Get(x, CreatedAt)) <= NumberOf(Get(y, CreatedAt)))
  }

  /** All versions of the memo, once each, by number and then by creation time. */
  ghost predicate IsListing(rows: Rows, memo: Id, ids: seq<Id>) {
    && (forall id :: id in ids <==> IsVersion(rows, id, memo))
    && (forall i, j | 0 <= i < j < |ids| :: ids[i] != ids[j] && Before(rows, ids[i], ids[j]))
  }

  lemma {:induction false} EarliestExists(rows: Rows, ids: set<Id>) returns (first: Id)
    requires ids != {}
    ensures first in ids && forall id | id in ids :: Before(rows, first, id)
  {
    assert exists x :: x in ids by {
      assert (forall x :: x !in ids) ==> ids == {};
    }
    var x :| x in ids;
    if ids == {x} {
      first := x;
    } else {
      var rest := EarliestExists(rows, ids - {x});
      assert ids == ids - {x} + {x};
      first := if Before(rows, x, rest) then x else rest;
    }
  }

  /** The winner's number for the loser's i-th version. */
  function NewNumber(base: int, i: nat): int {
    base + 1 + i
  }

  function MovedRow(row: Row, winner: Id, number: int, note: string, now: int): Row {
    row[MemoId := Text(winner)][Version := Num(number)]
       [Note := if Truthy(Get(row, Note)) then Get(row, Note) else Text(note)][UpdatedAtUtc := Num(now)]
  }

  /** Whether the loser's own text becomes a version of the winner. */
  predicate MovesContent(env: Env, rows: Rows, loser: Id, winner: Id)
    requires Key(Memos, loser) in rows
  {
    var text := Get(rows[Key(Memos, loser)], Content);
    Truthy(text) && !HasVersionText(env, rows, winner, text)
  }

  /** The rows after a merge, column by column. */
  ghost predicate MemosMerged(
    env: Env, was: Rows, now: Rows, loser: Id, winner: Id, ids: seq<Id>, d: Draw, note: string, report: MemoReport)
    requires Key(Memos, loser) in was
  {
    var last := MaxOrZero(VersionNumbers(was, winner));
    var moves := MovesContent(env, was, loser, winner);
    var base := if moves then last + 1 else last;
    var vk, lk := Key(MemoVersions, d.id), Key(Memos, loser);
    && (moves ==> vk !in was && vk in now
                  && now[vk] == VersionRow(winner, Get(was[lk], Content), last + 1, note, d.now))
    && now.Keys == was.Keys + (if moves then {vk} else {})
    && (forall i | 0 <= i < |ids| ::
          Key(MemoVersions, ids[i]) in was && Key(MemoVersions, ids[i]) in now
          && now[Key(MemoVersions, ids[i])]
             == MovedRow(was[Key(MemoVersions, ids[i])], winner, NewNumber(base, i), note, d.now))
    && now[lk] == Tombstone(was[lk], d.now)
    && (forall k | k in was && k != lk && !(k.table == MemoVersions && k.id in ids) :: now[k] == was[k])
    && report == MemoReport(if moves then Some(last + 1) else None, |ids|, base + |ids|)
  }

  class MergeService {
    const db: Node

    constructor (node: Node)
      ensures db == node
    {
      db := node;
    }

    method ListVersions(memo: Id) returns (ids: seq<Id>)
      ensures IsListing(db.rows, memo, ids)
    {
      ids := [];
      var todo := VersionIds(db.rows, memo);
      forall id ensures id in todo <==> IsVersion(db.rows, id, memo) {
        if IsVersion(db.rows, id, memo) { assert IsVersionOf(db.rows, Key(MemoVersions, id), memo); }
      }
      ghost var all := todo;
      while todo != {}
        invariant todo <= all && forall id :: id in ids <==> id in all - todo
        invariant forall i, j | 0 <= i < j < |ids| :: ids[i] != ids[j]
        invariant forall i, j | 0 <= i < j < |ids| :: Before(db.rows, ids[i], ids[j])
        invariant forall i, id | 0 <= i < |ids| && id in todo :: Before(db.rows, ids[i], id)
        decreases todo
      {
        assert exists id :: id in todo && forall other | other in todo :: Before(db.rows, id, other) by {
          var first := EarliestExists(db.rows, todo);
        }
        var first :| first in todo && forall other | other in todo :: Before(db.rows, first, other);
        assert forall i | 0 <= i < |ids| :: ids[i] in ids && Before(db.rows, ids[i], first);
        ids := ids + [first];
        todo := todo - {first};
      }
    }

    /** The loser's own text becomes the winner's next version, unless it is empty or already there. */
    method MoveContent(env: Env, loser: Id, winner: Id, d: Draw, note: string, ghost from: nat)
      returns (failed: bool, moved: Option<int>)
      requires !db.applying && Key(Memos, loser) in db.rows && from == |db.log|
      modifies db
      ensures !db.applying && from <= |db.log| && ChangesLogged(old(db.rows), db.rows, db.log, from)
      ensures var moves := MovesContent(env, old(db.rows), loser, winner);
              var next := MaxOrZero(VersionNumbers(old(db.rows), winner)) + 1;
              && failed == (moves && Key(MemoVersions, d.id) in old(db.rows))
              && (!failed && moves ==>
                    && moved == Some(next)
                    && db.rows == old(db.rows)[Key(MemoVersions, d.id) :=
                         VersionRow(winner, Get(old(db.rows)[Key(Memos, loser)], Content), next, note, d.now)])
              && (failed || !moves ==> moved == None && db.Data() == old(db.Data()))
    {
      hide HasVersionText, VersionNumbers, ChangesLogged, VersionRow;
      failed, moved := false, None;
      NothingLogged(db.rows, db.log);
      var text := Get(db.rows[Key(Memos, loser)], Content);
      if Truthy(text) && !HasVersionText(env, db.rows, winner, text) {
        var next := MaxOrZero(VersionNumbers(db.rows, winner)) + 1;
        var vk := Key(MemoVersions, d.id);
        if vk in db.rows {
          return true, None;
        }
        var row := VersionRow(winner, text, next, note, d.now);
        WriteIsLogged(db.rows, db.rows, db.log, from, vk, row, Insert);
        db.Write(vk, row);
        moved := Some(next);
      }
    }

    /** Moves the listed versions over, numbering on from `base`. */
    method MoveVersions(ids: seq<Id>, winner: Id, base: int, note: string, now: int, ghost was: Rows, ghost from: nat)
      returns (last: int)
      requires !db.applying && from <= |db.log| && ChangesLogged(was, db.rows, db.log, from)
      requires forall j | 0 <= j < |ids| :: Key(MemoVersions, ids[j]) in was
      requires forall j, k | 0 <= j < k < |ids| :: ids[j] != ids[k]
      requires forall k | k in was :: k in db.rows && (k.table == MemoVersions ==> db.rows[k] == was[k])
      modifies db
      ensures !db.applying && from <= |db.log| && ChangesLogged(was, db.rows, db.log, from)
      ensures db.rows == Renumbered(was, old(db.rows), winner, ids, base, note, now) && last == base + |ids|
    {
      hide ChangesLogged, MovedRow, Renumbered;
      ghost var mid := db.rows;
      last := base;
      NothingRenumbered(was, mid, winner, base, note, now);
      for i := 0 to |ids|
        invariant !db.applying && from <= |db.log| && last == base + i
        invariant db.rows == Renumbered(was, mid, winner, ids[..i], base, note, now)
        invariant ChangesLogged(was, db.rows, db.log, from)
      {
        var k := Key(MemoVersions, ids[i]);
        RenumberOneMore(was, mid, winner, ids, i, base, note, now);
        last := last + 1;
        var row := MovedRow(db.rows[k], winner, last, note, now);
        WriteIsLogged(was, db.rows, db.log, from, k, row, Update);
        db.Write(k, row);
      }
      assert ids[..|ids|] == ids;
    }

    /** The loser's text, then its versions in order, become the winner's next versions; the loser is
        tombstoned. A refusal leaves everything as it was. */
    method MergeMemos(env: Env, loser: Id, winner: Id, d: Draw, note: string)
      returns (merged: Merged<MemoReport>, ghost ids: seq<Id>)
      requires !db.applying
      modifies db
      ensures merged.Refused? ==> db.Data() == old(db.Data())
      ensures merged.Refused? && merged.error != WriteFailed <==>
                || loser == winner
                || Key(Memos, loser) !in old(db.rows) || Get(old(db.rows)[Key(Memos, loser)], DeletedAt) != Null
                || Key(Memos, winner) !in old(db.rows) || Get(old(db.rows)[Key(Memos, winner)], DeletedAt) != Null
      ensures merged.Merged? ==>
                && IsListing(old(db.rows), loser, ids)
                && MemosMerged(env, old(db.rows), db.rows, loser, winner, ids, d, note, merged.report)
                && ChangesLogged(old(db.rows), db.rows, db.log, |old(db.log)|)
    {
      hide IsListing, MemosMerged, MovesContent, VersionNumbers, ChangesLogged, MovedRow, Tombstone, VersionRow,
        Renumbered;
      ids := [];
      if loser == winner {
        return Refused(SameId), ids;
      }
      if !IsLive(db.rows, Key(Memos, loser)) {
        return Refused(LoserMissing), ids;
      }
      if !IsLive(db.rows, Key(Memos, winner)) {
        return Refused(WinnerMissing), ids;
      }
      ghost var was, from := db.rows, |db.log|;
      var lk := Key(Memos, loser);
      var last := MaxOrZero(VersionNumbers(db.rows, winner));
      var listed := ListVersions(loser);
      ListedRows(was, loser, listed);
      ids := listed;
      var failed, movedContent := MoveContent(env, loser, winner, d, note, from);
      if failed {
        return Refused(WriteFailed), ids;
      }
      ghost var mid := db.rows;
      var base := if movedContent.Some? then movedContent.value else last;
      var latest := MoveVersions(listed, winner, base, note, d.now, was, from);
      RenumberedRows(was, mid, winner, listed, base, note, d.now);
      WriteIsLogged(was, db.rows, db.log, from, lk, Tombstone(db.rows[lk], d.now), Update);
      db.Write(lk, Tombstone(db.rows[lk], d.now));
      merged := Merged(MemoReport(movedContent, |listed|, latest));
      RowsOfMerge(env, was, mid, db.rows, loser, winner, listed, d, note, merged.report);
    }
  }

  lemma NothingRenumbered(was: Rows, mid: Rows, winner: Id, base: int, note: string, now: int)
    ensures Renumbered(was, mid, winner, [], base, note, now) == mid
  {
  }

  lemma NothingLogged(rows: Rows, log: seq<LogEntry>)
    ensures ChangesLogged(rows, rows, log, |log|)
  {
  }

  lemma ListedRows(rows: Rows, memo: Id, ids: seq<Id>)
    requires IsListing(rows, memo, ids)
    ensures forall i | 0 <= i < |ids| :: Key(MemoVersions, ids[i]) in rows
    ensures forall i, j | 0 <= i < j < |ids| :: ids[i] != ids[j]
  {
    forall i | 0 <= i < |ids| ensures Key(MemoVersions, ids[i]) in rows {
      assert ids[i] in ids && IsVersion(rows, ids[i], memo);
    }
  }

  /** `mid` with the listed versions moved to the winner, numbered from `base + 1`. */
  ghost function Renumbered(was: Rows, mid: Rows, winner: Id, ids: seq<Id>, base: int, note: string, now: int): Rows {
    if ids == [] then mid
    else
      var n := |ids| - 1;
      var k := Key(MemoVersions, ids[n]);
      var before := Renumbered(was, mid, winner, ids[..n], base, note, now);
      if k in was then before[k := MovedRow(was[k], winner, NewNumber(base, n), note, now)] else before
  }

  lemma {:induction false} RenumberedRows(
    was: Rows, mid: Rows, winner: Id, ids: seq<Id>, base: int, note: string, now: int)
    requires forall i | 0 <= i < |ids| :: Key(MemoVersions, ids[i]) in was
    requires forall i, j | 0 <= i < j < |ids| :: ids[i] != ids[j]
    requires forall k | k in was :: k in mid
    ensures var rows := Renumbered(was, mid, winner, ids, base, note, now);
            && rows.Keys == mid.Keys
            && (forall i | 0 <= i < |ids| ::
                  rows[Key(MemoVersions, ids[i])]
                  == MovedRow(was[Key(MemoVersions, ids[i])], winner, NewNumber(base, i), note, now))
            && (forall k | k in mid && !(k.table == MemoVersions && k.id in ids) :: rows[k] == mid[k])
  {
    hide MovedRow;
    if ids != [] {
      var n := |ids| - 1;
      RenumberedRows(was, mid, winner, ids[..n], base, note, now);
      assert ids == ids[..n] + [ids[n]];
    }
  }

  lemma RenumberOneMore(was: Rows, mid: Rows, winner: Id, ids: seq<Id>, i: nat, base: int, note: string, now: int)
    requires i < |ids|
    requires forall j | 0 <= j < |ids| :: Key(MemoVersions, ids[j]) in was
    requires forall j, k | 0 <= j < k < |ids| :: ids[j] != ids[k]
    requires forall k | k in was :: k in mid && (k.table == MemoVersions ==> mid[k] == was[k])
    ensures var before := Renumbered(was, mid, winner, ids[..i], base, note, now);
            var k := Key(MemoVersions, ids[i]);
            && k in before && before[k] == was[k]
            && Renumbered(was, mid, winner, ids[..i + 1], base, note, now)
               == before[k := MovedRow(was[k], winner, NewNumber(base, i), note, now)]
  {
    hide MovedRow;
    RenumberedRows(was, mid, winner, ids[..i], base, note, now);
    assert ids[..i + 1][..i] == ids[..i];
    assert ids[i] !in ids[..i];
  }

  lemma RowsOfMerge(
    env: Env, was: Rows, mid: Rows, now: Rows, loser: Id, winner: Id, ids: seq<Id>, d: Draw, note: string,
    report: MemoReport)
    requires Key(Memos, loser) in was && IsListing(was, loser, ids)
    requires var last := MaxOrZero(VersionNumbers(was, winner));
             var moves := MovesContent(env, was, loser, winner);
             var base := if moves then last + 1 else last;
             var vk, lk := Key(MemoVersions, d.id), Key(Memos, loser);
             && (if moves then vk !in was
                && mid == was[vk := VersionRow(winner, Get(was[lk], Content), last + 1, note, d.now)]
                 else mid == was)
             && (var rows := Renumbered(was, mid, winner, ids, base, note, d.now);
                 lk in rows && now == rows[lk := Tombstone(rows[lk], d.now)])
             && report == MemoReport(if moves then Some(last + 1) else None, |ids|, base + |ids|)
    ensures MemosMerged(env, was, now, loser, winner, ids, d, note, report)
  {
    hide MovedRow, Tombstone, HasVersionText, VersionNumbers, MovesContent, VersionRow, Renumbered, IsListing;
    var last := MaxOrZero(VersionNumbers(was, winner));
    var base := if MovesContent(env, was, loser, winner) then last + 1 else last;
    ListedRows(was, loser, ids);
    RenumberedRows(was, mid, winner, ids, base, note, d.now);
    assert MovesContent(env, was, loser, winner) ==> d.id !in ids by {
      assert forall i | 0 <= i < |ids| :: Key(MemoVersions, ids[i]) in was;
    }
    MergedFrame(was, mid, Renumbered(was, mid, winner, ids, base, note, d.now), now, loser, ids, d);
  }

  /** Rows outside the moved versions, the new version and the loser are as they were. */
  lemma MergedFrame(was: Rows, mid: Rows, rows: Rows, now: Rows, loser: Id, ids: seq<Id>, d: Draw)
    requires forall k | k in was :: k in mid && mid[k] == was[k]
    requires rows.Keys == mid.Keys && forall k | k in mid && !(k.table == MemoVersions && k.id in ids) ::
               rows[k] == mid[k]
    requires Key(Memos, loser) in rows && Key(Memos, loser) in now
             && now == rows[Key(Memos, loser) := now[Key(Memos, loser)]]
    ensures now.Keys == mid.Keys
    ensures forall k | k in was && k != Key(Memos, loser) && !(k.table == MemoVersions && k.id in ids) ::
              now[k] == was[k]
  {
  }

  // ------------------------------------------------------------------
  // What a memo merge conserves
  // ------------------------------------------------------------------

  function BaseOf(env: Env, was: Rows, loser: Id, winner: Id): int
    requires Key(Memos, loser) in was
  {
    MaxOrZero(VersionNumbers(was, winner)) + if MovesContent(env, was, loser, winner) then 1 else 0
  }

  /** Where each version of the merged rows comes from. */
  lemma VersionMemos(
    env: Env, was: Rows, now: Rows, loser: Id, winner: Id, ids: seq<Id>, d: Draw, note: string, report: MemoReport,
    id: Id)
    requires Key(Memos, loser) in was && loser != winner && IsListing(was, loser, ids)
    requires MemosMerged(env, was, now, loser, winner, ids, d, note, report)
    ensures !IsVersion(now, id, loser)
    ensures IsVersion(now, id, winner) <==>
              IsVersion(was, id, winner) || id in ids || (MovesContent(env, was, loser, winner) && id == d.id)
    ensures IsVersion(was, id, winner) ==> now[Key(MemoVersions, id)] == was[Key(MemoVersions, id)]
    ensures id in ids || (MovesContent(env, was, loser, winner) && id == d.id) ==> Key(MemoVersions, id) in now
  {
    hide HasVersionText, VersionNumbers, MovesContent;
    assert id in ids <==> IsVersion(was, id, loser);
    if id in ids {
      var i :| 0 <= i < |ids| && ids[i] == id;
    }
  }

  lemma VersionContents(
    env: Env, was: Rows, now: Rows, loser: Id, winner: Id, ids: seq<Id>, d: Draw, note: string, report: MemoReport,
    id: Id)
    requires Key(Memos, loser) in was && loser != winner && IsListing(was, loser, ids)
    requires MemosMerged(env, was, now, loser, winner, ids, d, note, report)
    requires id in ids || (MovesContent(env, was, loser, winner) && id == d.id) ==> Key(MemoVersions, id) in now
    ensures forall i | 0 <= i < |ids| && ids[i] == id ::
              && Get(now[Key(MemoVersions, id)], Version) == Num(NewNumber(BaseOf(env, was, loser, winner), i))
              && Key(MemoVersions, id) in was
              && Get(now[Key(MemoVersions, id)], Content) == Get(was[Key(MemoVersions, id)], Content)
    ensures MovesContent(env, was, loser, winner) && id == d.id ==>
              id !in ids && Get(now[Key(MemoVersions, id)], Version) == Num(BaseOf(env, was, loser, winner))
              && Get(now[Key(MemoVersions, id)], Content) == Get(was[Key(Memos, loser)], Content)
  {
    hide HasVersionText, VersionNumbers, MovesContent;
    assert id in ids <==> IsVersion(was, id, loser);
  }

  lemma VersionOrigins(
    env: Env, was: Rows, now: Rows, loser: Id, winner: Id, ids: seq<Id>, d: Draw, note: string, report: MemoReport,
    id: Id)
    requires Key(Memos, loser) in was && loser != winner && IsListing(was, loser, ids)
    requires MemosMerged(env, was, now, loser, winner, ids, d, note, report)
    ensures !IsVersion(now, id, loser)
    ensures IsVersion(now, id, winner) <==>
              IsVersion(was, id, winner) || id in ids || (MovesContent(env, was, loser, winner) && id == d.id)
    ensures IsVersion(was, id, winner) ==> now[Key(MemoVersions, id)] == was[Key(MemoVersions, id)]
    ensures id in ids || (MovesContent(env, was, loser, winner) && id == d.id) ==> Key(MemoVersions, id) in now
    ensures forall i | 0 <= i < |ids| && ids[i] == id ::
              && Get(now[Key(MemoVersions, id)], Version) == Num(NewNumber(BaseOf(env, was, loser, winner), i))
              && Key(MemoVersions, id) in was
              && Get(now[Key(MemoVersions, id)], Content) == Get(was[Key(MemoVersions, id)], Content)
    ensures MovesContent(env, was, loser, winner) && id == d.id ==>
              id !in ids && Get(now[Key(MemoVersions, id)], Version) == Num(BaseOf(env, was, loser, winner))
              && Get(now[Key(MemoVersions, id)], Content) == Get(was[Key(Memos, loser)], Content)
  {
    hide IsListing, MemosMerged, MovesContent, IsVersion, BaseOf;
    VersionMemos(env, was, now, loser, winner, ids, d, note, report, id);
    VersionContents(env, was, now, loser, winner, ids, d, note, report, id);
  }

  /** No version is left with the loser, the winner's are untouched, and every moved text is one of the
      winner's afterwards; the loser's own text too, unless it was empty. */
  lemma MergedTextsSurvive(
    env: Env, was: Rows, now: Rows, loser: Id, winner: Id, ids: seq<Id>, d: Draw, note: string, report: MemoReport)
    requires Key(Memos, loser) in was && loser != winner && IsListing(was, loser, ids)
    requires MemosMerged(env, was, now, loser, winner, ids, d, note, report)
    requires forall t :: env.sqlEq(t, t)
    ensures VersionIds(now, loser) == {}
    ensures forall id | IsVersion(was, id, winner) ::
              IsVersion(now, id, winner) && now[Key(MemoVersions, id)] == was[Key(MemoVersions, id)]
    ensures forall id | IsVersion(was, id, loser) ::
              IsVersion(now, id, winner)
              && Get(now[Key(MemoVersions, id)], Content) == Get(was[Key(MemoVersions, id)], Content)
    ensures var text := Get(was[Key(Memos, loser)], Content);
            Truthy(text) ==> HasVersionText(env, now, winner, text)
    ensures forall k | k in was && k.table == Memos && k.id != loser :: k in now && now[k] == was[k]
  {
    hide IsListing, MemosMerged;
    forall id ensures !IsVersion(now, id, loser)
      ensures IsVersion(was, id, winner) ==>
                IsVersion(now, id, winner) && now[Key(MemoVersions, id)] == was[Key(MemoVersions, id)]
      ensures IsVersion(was, id, loser) ==>
                (IsVersion(now, id, winner)
                 && Get(now[Key(MemoVersions, id)], Content) == Get(was[Key(MemoVersions, id)], Content))
    {
      VersionOrigins(env, was, now, loser, winner, ids, d, note, report, id);
      ListedAt(was, loser, ids, id);
    }
    forall id ensures id !in VersionIds(now, loser) { IdIsVersion(now, loser, id); }
    LoserTextSurvives(env, was, now, loser, winner, ids, d, note, report);
    OtherMemosStay(env, was, now, loser, winner, ids, d, note, report);
  }

  lemma IdIsVersion(rows: Rows, memo: Id, id: Id)
    ensures id in VersionIds(rows, memo) <==> IsVersion(rows, id, memo)
  {
    if IsVersion(rows, id, memo) { assert IsVersionOf(rows, Key(MemoVersions, id), memo); }
  }

  lemma ListedAt(rows: Rows, memo: Id, ids: seq<Id>, id: Id)
    requires IsListing(rows, memo, ids)
    ensures IsVersion(rows, id, memo) ==> exists i :: 0 <= i < |ids| && ids[i] == id
  {
    hide IsVersion, Before;
    assert id in ids <==> IsVersion(rows, id, memo);
  }

  lemma LoserTextSurvives(
    env: Env, was: Rows, now: Rows, loser: Id, winner: Id, ids: seq<Id>, d: Draw, note: string, report: MemoReport)
    requires Key(Memos, loser) in was && loser != winner && IsListing(was, loser, ids)
    requires MemosMerged(env, was, now, loser, winner, ids, d, note, report)
    requires forall t :: env.sqlEq(t, t)
    ensures var text := Get(was[Key(Memos, loser)], Content);
            Truthy(text) ==> HasVersionText(env, now, winner, text)
  {
    hide IsListing, MemosMerged, VersionNumbers;
    var text := Get(was[Key(Memos, loser)], Content);
    if Truthy(text) {
      if HasVersionText(env, was, winner, text) {
        var k :| k in was && IsVersionOf(was, k, winner) && SqlEqual(env, Get(was[k], Content), text);
        VersionOrigins(env, was, now, loser, winner, ids, d, note, report, k.id);
        assert IsVersion(was, k.id, winner);
        assert k in now && IsVersionOf(now, k, winner);
      } else {
        VersionOrigins(env, was, now, loser, winner, ids, d, note, report, d.id);
        var k := Key(MemoVersions, d.id);
        assert k in now && IsVersionOf(now, k, winner);
        assert SqlEqual(env, Get(now[k], Content), text);
      }
    }
  }

  lemma OtherMemosStay(
    env: Env, was: Rows, now: Rows, loser: Id, winner: Id, ids: seq<Id>, d: Draw, note: string, report: MemoReport)
    requires Key(Memos, loser) in was && MemosMerged(env, was, now, loser, winner, ids, d, note, report)
    ensures forall k | k in was && k.table == Memos && k.id != loser :: k in now && now[k] == was[k]
  {
    hide HasVersionText, VersionNumbers, MovedRow, VersionRow, Tombstone;
  }

  ghost predicate NumbersDistinct(rows: Rows, memo: Id) {
    forall a, b | IsVersion(rows, a, memo) && IsVersion(rows, b, memo) && a != b ::
      Get(rows[Key(MemoVersions, a)], Version) != Get(rows[Key(MemoVersions, b)], Version)
  }

  /** Every version number of the memo is a number. */
  ghost predicate Numbered(rows: Rows, memo: Id) {
    forall id | IsVersion(rows, id, memo) :: Get(rows[Key(MemoVersions, id)], Version).Num?
  }

  /** The number of each winner version after the merge. */
  lemma NumberAfter(
    env: Env, was: Rows, now: Rows, loser: Id, winner: Id, ids: seq<Id>, d: Draw, note: string, report: MemoReport,
    id: Id)
    returns (i: int)
    requires Key(Memos, loser) in was && loser != winner && IsListing(was, loser, ids) && Numbered(was, winner)
    requires MemosMerged(env, was, now, loser, winner, ids, d, note, report)
    requires IsVersion(now, id, winner)
    ensures Get(now[Key(MemoVersions, id)], Version).Num?
    ensures var last, n := MaxOrZero(VersionNumbers(was, winner)), Get(now[Key(MemoVersions, id)], Version).n;
            if IsVersion(was, id, winner) then n <= last && Get(was[Key(MemoVersions, id)], Version) == Num(n)
            else last < n <= report.latest
                 && (if id in ids then 0 <= i < |ids| && ids[i] == id
                    && n == NewNumber(BaseOf(env, was, loser, winner), i)
                     else id == d.id && n == BaseOf(env, was, loser, winner) == last + 1)
  {
    VersionOrigins(env, was, now, loser, winner, ids, d, note, report, id);
    ReportIs(env, was, now, loser, winner, ids, d, note, report);
    hide MemosMerged, MovesContent;
    i := 0;
    assert id in ids <==> IsVersion(was, id, loser);
    if IsVersion(was, id, winner) {
      var k := Key(MemoVersions, id);
      assert IsVersionOf(was, k, winner) && Get(was[k], Version).n in VersionNumbers(was, winner);
    } else if id in ids {
      i :| 0 <= i < |ids| && ids[i] == id;
    }
  }

  lemma ReportIs(
    env: Env, was: Rows, now: Rows, loser: Id, winner: Id, ids: seq<Id>, d: Draw, note: string, report: MemoReport)
    requires Key(Memos, loser) in was && MemosMerged(env, was, now, loser, winner, ids, d, note, report)
    ensures report.latest == BaseOf(env, was, loser, winner) + |ids|
    ensures report.movedContent.Some? <==> MovesContent(env, was, loser, winner)
  {
    hide MovesContent, VersionNumbers;
  }

  /** Distinct version numbers of the winner stay distinct, and the moved ones are numbered in their order. */
  lemma MergedNumbersStayDistinct(
    env: Env, was: Rows, now: Rows, loser: Id, winner: Id, ids: seq<Id>, d: Draw, note: string, report: MemoReport)
    requires Key(Memos, loser) in was && loser != winner && IsListing(was, loser, ids)
    requires Numbered(was, winner) && NumbersDistinct(was, winner)
    requires MemosMerged(env, was, now, loser, winner, ids, d, note, report)
    ensures NumbersDistinct(now, winner)
  {
    hide MemosMerged, IsListing;
    forall a, b | IsVersion(now, a, winner) && IsVersion(now, b, winner) && a != b
      ensures Get(now[Key(MemoVersions, a)], Version) != Get(now[Key(MemoVersions, b)], Version)
    {
      var i := NumberAfter(env, was, now, loser, winner, ids, d, note, report, a);
      var j := NumberAfter(env, was, now, loser, winner, ids, d, note, report, b);
    }
  }

  /** After the merge the winner has exactly its old numbers and the block from the next one to `latest`. */
  lemma MergedNumbersAreABlock(
    env: Env, was: Rows, now: Rows, loser: Id, winner: Id, ids: seq<Id>, d: Draw, note: string, report: MemoReport,
    n: int)
    requires Key(Memos, loser) in was && loser != winner && IsListing(was, loser, ids) && Numbered(was, winner)
    requires MemosMerged(env, was, now, loser, winner, ids, d, note, report)
    ensures n in VersionNumbers(now, winner) <==>
              n in VersionNumbers(was, winner) || MaxOrZero(VersionNumbers(was, winner)) < n <= report.latest
  {
    hide MemosMerged, IsListing, MovesContent;
    ReportIs(env, was, now, loser, winner, ids, d, note, report);
    var last := MaxOrZero(VersionNumbers(was, winner));
    if n in VersionNumbers(now, winner) {
      var k :| k in now && IsVersionOf(now, k, winner) && Get(now[k], Version) == Num(n);
      assert IsVersion(now, k.id, winner);
      var i := NumberAfter(env, was, now, loser, winner, ids, d, note, report, k.id);
      if IsVersion(was, k.id, winner) { assert IsVersionOf(was, k, winner); }
    }
    if n in VersionNumbers(was, winner) {
      var k :| k in was && IsVersionOf(was, k, winner) && Get(was[k], Version) == Num(n);
      VersionOrigins(env, was, now, loser, winner, ids, d, note, report, k.id);
      assert IsVersion(was, k.id, winner) && IsVersionOf(now, k, winner);
    }
    if last < n <= report.latest {
      var base := BaseOf(env, was, loser, winner);
      var id := if n <= base then d.id else ids[n - base - 1];
      VersionOrigins(env, was, now, loser, winner, ids, d, note, report, id);
      var k := Key(MemoVersions, id);
      assert IsVersion(now, id, winner);
      assert IsVersionOf(now, k, winner) && Get(now[k], Version) == Num(n);
    }
  }
}
