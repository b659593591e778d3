/** What merging two memos comes to, column by column. */
module MergeOutcome {
  import opened SyncSchema
  import opened SyncStore
  import opened SyncApply
  import opened SyncOutcome
  import opened Merge

  /** A version of the memo is stored under this id. */
  ghost predicate HangsOn(rows: Rows, id: Id, memo: Id) {
    var k := Key(MemoVersions, id);
    k in rows && Get(rows[k], MemoId) == Text(memo)
  }

  /** The row of a version was listed before the other's: a lower number, or the same and created earlier. */
  ghost predicate CameFirst(x: Row, y: Row) {
    && Get(x, Version).Num? && Get(y, Version).Num? && Get(x, CreatedAt).Num? && Get(y, CreatedAt).Num?
    && (Get(x, Version).n < Get(y, Version).n
        || (Get(x, Version).n == Get(y, Version).n && Get(x, CreatedAt).n < Get(y, CreatedAt).n))
  }

  /** The loser's versions keep their order: one that came before another still has the lower number. */
  lemma VersionsKeepTheirOrder(
    env: Env, was: Rows, now: Rows, loser: Id, winner: Id, ids: seq<Id>, d: Draw, note: string, report: MemoReport,
    a: Id, b: Id)
    requires Key(Memos, loser) in was && loser != winner && IsListing(was, loser, ids)
    requires MemosMerged(env, was, now, loser, winner, ids, d, note, report)
    requires HangsOn(was, a, loser) && HangsOn(was, b, loser)
    requires CameFirst(was[Key(MemoVersions, a)], was[Key(MemoVersions, b)])
    ensures HangsOn(now, a, winner) && HangsOn(now, b, winner)
    ensures var x, y := Get(now[Key(MemoVersions, a)], Version), Get(now[Key(MemoVersions, b)], Version);
            x.Num? && y.Num? && x.n < y.n
  {
    hide MemosMerged, IsListing, MovesContent;
    assert IsVersion(was, a, loser) && IsVersion(was, b, loser);
    VersionOrigins(env, was, now, loser, winner, ids, d, note, report, a);
    VersionOrigins(env, was, now, loser, winner, ids, d, note, report, b);
    ListedAt(was, loser, ids, a);
    ListedAt(was, loser, ids, b);
    var i :| 0 <= i < |ids| && ids[i] == a;
    var j :| 0 <= j < |ids| && ids[j] == b;
    ListedInOrder(was, loser, ids, i, j);
    assert IsVersion(now, a, winner) && IsVersion(now, b, winner) by { assert a in ids && b in ids; }
  }

  lemma ListedInOrder(rows: Rows, memo: Id, ids: seq<Id>, i: nat, j: nat)
    requires IsListing(rows, memo, ids) && i < |ids| && j < |ids|
    requires Key(MemoVersions, ids[i]) in rows && Key(MemoVersions, ids[j]) in rows
    requires CameFirst(rows[Key(MemoVersions, ids[i])], rows[Key(MemoVersions, ids[j])])
    ensures i < j
  {
  }

  /** The winner's row for a version that moved over: text and creation time are kept, and the note if there is one. */
  ghost predicate IsMovedVersion(now: Row, was: Row, winner: Id, note: string, clock: int) {
    && Get(now, MemoId) == Text(winner) && Get(now, UpdatedAtUtc) == Num(clock)
    && Get(now, Note) == (match Get(was, Note)
                          case Null => Text(note)
                          case Text(s) => if s == "" then Text(note) else Text(s)
                          case Num(n) => if n == 0 then Text(note) else Num(n))
    && forall c | c != MemoId && c != UpdatedAtUtc && c != Note && c != Version :: Get(now, c) == Get(was, c)
  }

  lemma MovedRowIs(row: Row, winner: Id, number: int, note: string, clock: int)
    ensures IsMovedVersion(MovedRow(row, winner, number, note, clock), row, winner, note, clock)
  {
  }

  lemma VersionsMoveWhole(
    env: Env, was: Rows, now: Rows, loser: Id, winner: Id, ids: seq<Id>, d: Draw, note: string, report: MemoReport,
    id: Id)
    requires Key(Memos, loser) in was && loser != winner && IsListing(was, loser, ids)
    requires MemosMerged(env, was, now, loser, winner, ids, d, note, report)
    requires HangsOn(was, id, loser)
    ensures var k := Key(MemoVersions, id); k in now && IsMovedVersion(now[k], was[k], winner, note, d.now)
  {
    hide MemosMerged, IsListing, MovesContent, NewNumber, MovedRow, IsMovedVersion, BaseOf;
    assert IsVersion(was, id, loser);
    ListedAt(was, loser, ids, id);
    var i :| 0 <= i < |ids| && ids[i] == id;
    ListedIsMoved(env, was, now, loser, winner, ids, d, note, report, i);
    MovedRowIs(was[Key(MemoVersions, id)], winner, NewNumber(BaseOf(env, was, loser, winner), i), note, d.now);
  }

  lemma ListedIsMoved(
    env: Env, was: Rows, now: Rows, loser: Id, winner: Id, ids: seq<Id>, d: Draw, note: string, report: MemoReport,
    i: nat)
    requires Key(Memos, loser) in was && i < |ids| && MemosMerged(env, was, now, loser, winner, ids, d, note, report)
    ensures var k := Key(MemoVersions, ids[i]);
            && k in was && k in now
            && now[k] == MovedRow(was[k], winner, NewNumber(BaseOf(env, was, loser, winner), i), note, d.now)
  {
    hide MovesContent, VersionNumbers, MovedRow, VersionRow, Tombstone, NewNumber;
  }

  /** The loser's own text becomes a version of the winner exactly when it is not empty and no version of the winner
      has it: the next one, made now. */
  lemma TextMovesExactlyWhenNew(
    env: Env, was: Rows, now: Rows, loser: Id, winner: Id, ids: seq<Id>, d: Draw, note: string, report: MemoReport,
    text: string)
    requires Key(Memos, loser) in was && MemosMerged(env, was, now, loser, winner, ids, d, note, report)
    requires Get(was[Key(Memos, loser)], Content) == Text(text)
    ensures var k := Key(MemoVersions, d.id);
            && (k !in was && k in now <==> text != "" && !IsVersionText(env, was, winner, text))
            && (k !in was && k in now ==>
                  && IsNextNumber(was, winner, Get(now[k], Version).n)
                  && now[k] == map[MemoId := Text(winner), Content := Text(text), Version := Get(now[k], Version),
                                   Note := Text(note), CreatedAt := Num(d.now), UpdatedAtUtc := Num(d.now)])
  {
    hide MovedRow, Tombstone, VersionNumbers, IsNextNumber;
    NextNumberIsOneAbove(was, winner);
    SameQuestion(env, was, winner, text);
    hide HasVersionText, IsVersionText;
  }

  lemma SameQuestion(env: Env, rows: Rows, memo: Id, text: string)
    ensures HasVersionText(env, rows, memo, Text(text)) <==> IsVersionText(env, rows, memo, text)
  {
    if IsVersionText(env, rows, memo, text) {
      var v :| v in rows && v.table == MemoVersions && Get(rows[v], MemoId) == Text(memo)
               && Get(rows[v], Content).Text? && env.sqlEq(Get(rows[v], Content).s, text);
      assert IsVersionOf(rows, v, memo) && SqlEqual(env, Get(rows[v], Content), Text(text));
    }
  }

  /** The loser is marked as deleted; whatever differs afterwards carries the time of the merge, so it wins over
      what the peer has. */
  lemma MergeIsStamped(
    env: Env, was: Rows, now: Rows, loser: Id, winner: Id, ids: seq<Id>, d: Draw, note: string, report: MemoReport)
    requires Key(Memos, loser) in was && MemosMerged(env, was, now, loser, winner, ids, d, note, report)
    ensures Key(Memos, loser) in now && Get(now[Key(Memos, loser)], DeletedAt) == Num(d.now)
    ensures forall c | c != DeletedAt && c != UpdatedAtUtc ::
              Get(now[Key(Memos, loser)], c) == Get(was[Key(Memos, loser)], c)
    ensures Stamped(was, now, d.now)
  {
    hide MovesContent, VersionNumbers;
    forall k | k in now && (k !in was || now[k] != was[k]) ensures Get(now[k], UpdatedAtUtc) == Num(d.now) {
      if k in was && k.table == MemoVersions && k.id in ids {
        var i :| 0 <= i < |ids| && ids[i] == k.id;
        ListedIsMoved(env, was, now, loser, winner, ids, d, note, report, i);
      }
    }
  }
}
