/** Saving a memo: compare-and-set on its revision, and the replaced text kept as the next version. */
module MemoHistory {
  import opened SyncSchema
  import opened SyncStore
  import opened SyncApply
  import opened SyncApplyProofs
  import opened SyncOutcome
  import opened SyncNode

  type Rows = map<Key, Row>

  /** The opaque revision: its hash is injective, so what is hashed stands for it. */
  datatype Revision = Revision(memo: Id, content: Value, clock: Option<int>)

  /** A save as the request brings it: role and lease have been looked up, the id is freshly generated. */
  datatype Save = Save(
    memo: Id, content: string, base: Option<Revision>, mayWrite: bool, leased: bool, versionId: Id, wall: int, now: int)

  datatype Verdict = NotFound | AccessDenied | LeaseMissing | StaleBase(current: Revision) | WriteFailed | Saved

  function RevisionOf(rows: Rows, memo: Id): Revision
    requires Key(Memos, memo) in rows
  {
    var row := rows[Key(Memos, memo)];
    Revision(memo, Get(row, Content), ClockOf(row))
  }

  function Judge(rows: Rows, s: Save): Verdict {
    var k := Key(Memos, s.memo);
    if k !in rows || Get(rows[k], DeletedAt) != Null then NotFound
    else if !s.mayWrite then AccessDenied
    else if !s.leased then LeaseMissing
    else if s.base.Some? && s.base.value != RevisionOf(rows, s.memo) then StaleBase(RevisionOf(rows, s.memo))
    else if Truthy(Get(rows[k], Content)) && Key(MemoVersions, s.versionId) in rows then WriteFailed
    else Saved
  }

  function NextNumber(rows: Rows, memo: Id): int {
    MaxOrZero(VersionNumbers(rows, memo)) + 1
  }

  function PlainVersion(memo: Id, text: Value, number: int, wall: int, now: int): Row {
    map[MemoId := Text(memo), Content := text, Version := Num(number), Note := Null,
        CreatedAt := Num(wall), UpdatedAtUtc := Num(now)]
  }

  function WithVersion(rows: Rows, s: Save): Rows
    requires Key(Memos, s.memo) in rows
  {
    var text := Get(rows[Key(Memos, s.memo)], Content);
    if Truthy(text) then
      rows[Key(MemoVersions, s.versionId) := PlainVersion(s.memo, text, NextNumber(rows, s.memo), s.wall, s.now)]
    else rows
  }

  function SavedRow(row: Row, s: Save): Row {
    row[Content := Text(s.content)][UpdatedAt := Num(s.wall)][UpdatedAtUtc := Num(s.now)]
  }

  function AfterSave(rows: Rows, s: Save): Rows {
    if Judge(rows, s) != Saved then rows
    else WithVersion(rows, s)[Key(Memos, s.memo) := SavedRow(rows[Key(Memos, s.memo)], s)]
  }

  /** What a save answers, in the order the code asks. */
  ghost predicate Answers(rows: Rows, s: Save, verdict: Verdict) {
    var k := Key(Memos, s.memo);
    var row := if k in rows then rows[k] else map[];
    var clock := match Get(row, UpdatedAtUtc) case Num(n) => Some(n) case _ => None;
    match verdict
    case NotFound => k !in rows || Get(row, DeletedAt) != Null
    case AccessDenied => k in rows && Get(row, DeletedAt) == Null && !s.mayWrite
    case LeaseMissing => k in rows && Get(row, DeletedAt) == Null && s.mayWrite && !s.leased
    case StaleBase(current) =>
      && k in rows && Get(row, DeletedAt) == Null && s.mayWrite && s.leased
      && current == Revision(s.memo, Get(row, Content), clock) && s.base.Some? && s.base != Some(current)
    case WriteFailed =>
      && k in rows && Get(row, DeletedAt) == Null && s.mayWrite && s.leased
      && (s.base.Some? ==> s.base.value == Revision(s.memo, Get(row, Content), clock))
      && IsText(Get(row, Content)) && Key(MemoVersions, s.versionId) in rows
    case Saved =>
      && k in rows && Get(row, DeletedAt) == Null && s.mayWrite && s.leased
      && (s.base.Some? ==> s.base.value == Revision(s.memo, Get(row, Content), clock))
      && (IsText(Get(row, Content)) ==> Key(MemoVersions, s.versionId) !in rows)
  }

  /** A text that is worth a version: neither missing nor empty. */
  ghost predicate IsText(v: Value) {
    v != Null && v != Text("") && v != Num(0)
  }

  /** The memo has the new text, and a replaced text is its next version. Nothing else differs. */
  ghost predicate IsSaved(was: Rows, now: Rows, s: Save) {
    var k, vk := Key(Memos, s.memo), Key(MemoVersions, s.versionId);
    && k in was && k in now
    && Get(now[k], Content) == Text(s.content)
    && Get(now[k], UpdatedAt) == Num(s.wall) && Get(now[k], UpdatedAtUtc) == Num(s.now)
    && (forall c | c != Content && c != UpdatedAt && c != UpdatedAtUtc :: Get(now[k], c) == Get(was[k], c))
    && (IsText(Get(was[k], Content)) ==>
          && vk !in was && vk in now && Get(now[vk], Version).Num?
          && IsNextNumber(was, s.memo, Get(now[vk], Version).n)
          && now[vk] == map[MemoId := Text(s.memo), Content := Get(was[k], Content), Version := Get(now[vk], Version),
                            Note := Null, CreatedAt := Num(s.wall), UpdatedAtUtc := Num(s.now)])
    && (forall j | j != k && (j != vk || !IsText(Get(was[k], Content))) :: SameAt(was, now, j))
  }

  lemma JudgeAnswers(rows: Rows, s: Save)
    ensures Answers(rows, s, Judge(rows, s))
  {
  }

  lemma TextIsTruthy(v: Value)
    ensures IsText(v) <==> Truthy(v)
  {
  }

  lemma SavedColumns(row: Row, s: Save)
    ensures var now := SavedRow(row, s);
            && Get(now, Content) == Text(s.content)
            && Get(now, UpdatedAt) == Num(s.wall) && Get(now, UpdatedAtUtc) == Num(s.now)
            && (forall c | c != Content && c != UpdatedAt && c != UpdatedAtUtc :: Get(now, c) == Get(row, c))
  {
  }

  lemma JudgedSaved(rows: Rows, s: Save)
    requires Judge(rows, s) == Saved
    ensures Key(Memos, s.memo) in rows
    ensures Truthy(Get(rows[Key(Memos, s.memo)], Content)) ==> Key(MemoVersions, s.versionId) !in rows
  {
  }

  lemma SaveIsWritten(rows: Rows, s: Save)
    ensures Judge(rows, s) == Saved ==> IsSaved(rows, AfterSave(rows, s), s)
    ensures Judge(rows, s) != Saved ==> AfterSave(rows, s) == rows
  {
    hide VersionNumbers, IsNextNumber, SavedRow, Truthy, IsText, Judge;
    NextNumberIsOneAbove(rows, s.memo);
    if Judge(rows, s) == Saved {
      JudgedSaved(rows, s);
      SavedColumns(rows[Key(Memos, s.memo)], s);
      TextIsTruthy(Get(rows[Key(Memos, s.memo)], Content));
    }
  }

  class MemoService {
    const db: Node

    constructor (node: Node)
      ensures db == node
    {
      db := node;
    }

    /** The row is locked for the whole transaction, so the check and the write see one state. */
    method UpdateMemo(s: Save) returns (verdict: Verdict)
      requires !db.applying
      modifies db
      ensures verdict == Judge(old(db.rows), s) && db.rows == AfterSave(old(db.rows), s)
      ensures Answers(old(db.rows), s, verdict)
      ensures verdict == Saved ==> IsSaved(old(db.rows), db.rows, s)
      ensures verdict != Saved ==> db.Data() == old(db.Data())
      ensures verdict == Saved ==>
                var replaced := Get(old(db.rows)[Key(Memos, s.memo)], Content);
                db.log == old(db.log)
                          + (if Truthy(replaced) then [LogEntry(Key(MemoVersions, s.versionId), Insert)] else [])
                          + [LogEntry(Key(Memos, s.memo), Update)]
    {
      hide VersionNumbers, PlainVersion, SavedRow, Answers, IsSaved;
      JudgeAnswers(db.rows, s);
      SaveIsWritten(db.rows, s);
      var k := Key(Memos, s.memo);
      if k !in db.rows || Get(db.rows[k], DeletedAt) != Null {
        return NotFound;
      }
      if !s.mayWrite {
        return AccessDenied;
      }
      if !s.leased {
        return LeaseMissing;
      }
      var current := RevisionOf(db.rows, s.memo);
      if s.base.Some? && s.base.value != current {
        return StaleBase(current);
      }
      var text := Get(db.rows[k], Content);
      if Truthy(text) {
        var vk := Key(MemoVersions, s.versionId);
        var next := MaxOrZero(VersionNumbers(db.rows, s.memo)) + 1;
        if vk in db.rows {
          return WriteFailed;
        }
        db.Write(vk, PlainVersion(s.memo, text, next, s.wall, s.now));
      }
      db.Write(k, SavedRow(db.rows[k], s));
      return Saved;
    }
  }

  // ------------------------------------------------------------------
  // Runs
  // ------------------------------------------------------------------

  /** Saves, and writes to memo rows from elsewhere: neither drops or adds versions unseen. */
  datatype Event = SaveEvent(save: Save) | OtherWrite(memo: Id, row: Row)

  function Step(rows: Rows, e: Event): Rows {
    match e
    case SaveEvent(s) => AfterSave(rows, s)
    case OtherWrite(memo, row) => rows[Key(Memos, memo) := row]
  }

  function After(rows: Rows, events: seq<Event>): Rows {
    if events == [] then rows else Step(After(rows, events[..|events| - 1]), events[|events| - 1])
  }

  predicate Later(rows: Rows, k: Key, clock: Option<int>) {
    clock.Some? && (k in rows && ClockOf(rows[k]).Some? ==> clock.value > ClockOf(rows[k]).value)
  }

  /** Every write to a memo is stamped later than the row it replaces. */
  ghost predicate StrictClocks(rows: Rows, events: seq<Event>) {
    forall i | 0 <= i < |events| ::
      var before := After(rows, events[..i]);
      match events[i]
      case SaveEvent(s) => Judge(before, s) == Saved ==> Later(before, Key(Memos, s.memo), Some(s.now))
      case OtherWrite(memo, row) => Later(before, Key(Memos, memo), ClockOf(row))
  }

  lemma StrictPrefix(rows: Rows, events: seq<Event>, n: nat)
    requires StrictClocks(rows, events) && n <= |events|
    ensures StrictClocks(rows, events[..n])
  {
    assert forall i | 0 <= i < n :: events[..n][..i] == events[..i];
  }

  ghost predicate Behind(rows: Rows, memo: Id, clock: int) {
    var k := Key(Memos, memo);
    k in rows && ClockOf(rows[k]).Some? && clock < ClockOf(rows[k]).value
  }

  lemma StepStaysBehind(rows: Rows, e: Event, memo: Id, clock: int)
    requires Behind(rows, memo, clock)
    requires match e
             case SaveEvent(s) => Judge(rows, s) == Saved ==> Later(rows, Key(Memos, s.memo), Some(s.now))
             case OtherWrite(m, row) => Later(rows, Key(Memos, m), ClockOf(row))
    ensures Behind(Step(rows, e), memo, clock)
  {
    hide VersionNumbers;
  }

  lemma {:induction false} StaysBehind(rows: Rows, events: seq<Event>, i: nat, memo: Id, clock: int)
    requires StrictClocks(rows, events) && i <= |events| && Behind(After(rows, events[..i]), memo, clock)
    ensures Behind(After(rows, events), memo, clock)
  {
    hide Behind, Step, Later, Judge;
    if i == |events| {
      assert events[..i] == events;
    } else {
      var n := |events| - 1;
      StrictPrefix(rows, events, n);
      assert events[..n][..i] == events[..i];
      StaysBehind(rows, events[..n], i, memo, clock);
      StepStaysBehind(After(rows, events[..n]), events[n], memo, clock);
    }
  }

  /** The save at `i` named a base and was accepted. */
  ghost predicate AcceptedOn(rows: Rows, events: seq<Event>, i: nat, base: Revision)
    requires i < |events|
  {
    events[i].SaveEvent? && events[i].save.base == Some(base)
      && Judge(After(rows, events[..i]), events[i].save) == Saved
  }

  /** Lost updates are impossible: no two accepted saves were based on the same revision. */
  lemma BasesAreUsedOnce(rows: Rows, events: seq<Event>, i: nat, j: nat, base: Revision)
    requires StrictClocks(rows, events) && i < j < |events| && base.clock.Some?
    requires AcceptedOn(rows, events, i, base)
    ensures !AcceptedOn(rows, events, j, base)
  {
    hide StrictClocks, VersionNumbers;
    var s := events[i].save;
    assert events[..i + 1][..i] == events[..i] && events[..i + 1][i] == events[i];
    assert Later(After(rows, events[..i]), Key(Memos, s.memo), Some(s.now)) by { StrictAt(rows, events, i); }
    assert Behind(After(rows, events[..i + 1]), s.memo, base.clock.value);
    StrictPrefix(rows, events, j);
    assert events[..j][..i + 1] == events[..i + 1];
    hide Behind;
    StaysBehind(rows, events[..j], i + 1, s.memo, base.clock.value);
    NotItsRevision(After(rows, events[..j]), s.memo, base);
  }

  lemma StrictAt(rows: Rows, events: seq<Event>, i: nat)
    requires StrictClocks(rows, events) && i < |events| && events[i].SaveEvent?
    ensures var before := After(rows, events[..i]);
            Judge(before, events[i].save) == Saved ==>
                Later(before, Key(Memos, events[i].save.memo), Some(events[i].save.now))
  {
  }

  lemma NotItsRevision(rows: Rows, memo: Id, base: Revision)
    requires Behind(rows, memo, if base.clock.Some? then base.clock.value else 0) && base.clock.Some?
             && base.memo == memo
    ensures RevisionOf(rows, memo) != base
  {
  }

  // ------------------------------------------------------------------
  // The version history
  // ------------------------------------------------------------------

  /** The texts of `memo` that accepted saves replaced, in order, empty ones left out. */
  function Replaced(rows: Rows, events: seq<Event>, memo: Id): seq<Value> {
    if events == [] then []
    else
      var n := |events| - 1;
      var before := After(rows, events[..n]);
      var prior := Replaced(rows, events[..n], memo);
      var e := events[n];
      if e.SaveEvent? && e.save.memo == memo && Judge(before, e.save) == Saved
        && Truthy(Get(before[Key(Memos, memo)], Content))
      then prior + [Get(before[Key(Memos, memo)], Content)] else prior
  }

  /** Version `n` of the memo holds this text. */
  ghost predicate HasVersion(rows: Rows, memo: Id, n: int, text: Value) {
    exists k ::
        k in rows && IsVersionOf(rows, k, memo) && Get(rows[k], Version) == Num(n) && Get(rows[k], Content) == text
  }

  /** The old versions as they were, and then one for each text of the history, numbered on. */
  ghost predicate HistoryKept(was: Rows, now: Rows, memo: Id, history: seq<Value>) {
    var last := MaxOrZero(VersionNumbers(was, memo));
    && (forall k | k in was && k.table == MemoVersions :: k in now && now[k] == was[k])
    && (forall i | 0 <= i < |history| :: HasVersion(now, memo, last + 1 + i, history[i]))
    && (forall n :: n in VersionNumbers(now, memo) <==> n in VersionNumbers(was, memo) || last < n <= last + |history|)
  }

  lemma KeptNumbers(was: Rows, now: Rows, memo: Id, history: seq<Value>)
    requires HistoryKept(was, now, memo, history)
    ensures NextNumber(now, memo) == MaxOrZero(VersionNumbers(was, memo)) + |history| + 1
  {
    hide VersionNumbers, HasVersion;
    var last := MaxOrZero(VersionNumbers(was, memo));
    if |history| > 0 {
      assert last + |history| in VersionNumbers(now, memo);
    } else {
      var a, b := VersionNumbers(now, memo), VersionNumbers(was, memo);
      assert forall n :: n in a <==> n in b || last < n <= last + |history|;
      assert a == b;
    }
  }

  /** A version row added to a memo adds its number, and nothing else about other memos. */
  lemma AddedVersion(rows: Rows, vk: Key, row: Row, owner: Id, memo: Id)
    requires vk !in rows && vk.table == MemoVersions && Get(row, MemoId) == Text(owner) && Get(row, Version).Num?
    ensures VersionNumbers(rows[vk := row], memo)
         == VersionNumbers(rows, memo) + if owner == memo then {Get(row, Version).n} else {}
    ensures forall n, text | HasVersion(rows, memo, n, text) :: HasVersion(rows[vk := row], memo, n, text)
    ensures owner == memo ==> HasVersion(rows[vk := row], memo, Get(row, Version).n, Get(row, Content))
  {
    var now := rows[vk := row];
    forall n ensures n in VersionNumbers(now, memo) <==>
        n in VersionNumbers(rows, memo) || (owner == memo && n == Get(row, Version).n) {
      if n in VersionNumbers(rows, memo) {
        var k :| k in rows && IsVersionOf(rows, k, memo) && Get(rows[k], Version) == Num(n);
        assert k in now && IsVersionOf(now, k, memo);
      }
      if owner == memo && n == Get(row, Version).n { assert IsVersionOf(now, vk, memo); }
    }
    forall n, text | HasVersion(rows, memo, n, text) ensures HasVersion(now, memo, n, text) {
      var k :| k in rows && IsVersionOf(rows, k, memo) && Get(rows[k], Version) == Num(n)
        && Get(rows[k], Content) == text;
      assert k in now && IsVersionOf(now, k, memo);
    }
    if owner == memo { assert IsVersionOf(now, vk, memo); }
  }

  /** Writes to a memo row leave the versions alone. */
  lemma MemoWriteKeepsVersions(rows: Rows, k: Key, row: Row, memo: Id)
    requires k.table == Memos
    ensures VersionNumbers(rows[k := row], memo) == VersionNumbers(rows, memo)
    ensures forall n, text | HasVersion(rows, memo, n, text) :: HasVersion(rows[k := row], memo, n, text)
  {
    var now := rows[k := row];
    assert forall j: Key | j.table == MemoVersions :: (j in now <==> j in rows) && (j in now ==> now[j] == rows[j]);
    forall n, text | HasVersion(rows, memo, n, text) ensures HasVersion(now, memo, n, text) {
      var j :| j in rows && IsVersionOf(rows, j, memo) && Get(rows[j], Version) == Num(n)
        && Get(rows[j], Content) == text;
      assert j in now && IsVersionOf(now, j, memo);
    }
  }

  /** Writing a memo row leaves the history as it is. */
  lemma MemoWriteKeepsHistory(was: Rows, now: Rows, memo: Id, history: seq<Value>, k: Key, row: Row)
    requires HistoryKept(was, now, memo, history) && k.table == Memos
    ensures HistoryKept(was, now[k := row], memo, history)
  {
    hide VersionNumbers, HasVersion;
    MemoWriteKeepsVersions(now, k, row, memo);
  }

  /** A version with the next number lengthens its memo's history by its text, and no other's. */
  lemma VersionLengthensHistory(was: Rows, now: Rows, memo: Id, history: seq<Value>, vk: Key, row: Row, owner: Id)
    requires HistoryKept(was, now, memo, history)
    requires vk !in now && vk.table == MemoVersions && Get(row, MemoId) == Text(owner)
    requires Get(row, Version) == Num(NextNumber(now, owner))
    ensures HistoryKept(was, now[vk := row], memo, if owner == memo then history + [Get(row, Content)] else history)
  {
    hide VersionNumbers, HasVersion;
    KeptNumbers(was, now, memo, history);
    AddedVersion(now, vk, row, owner, memo);
  }

  lemma StepKeepsHistory(was: Rows, now: Rows, memo: Id, history: seq<Value>, e: Event)
    requires HistoryKept(was, now, memo, history)
    ensures var adds := e.SaveEvent? && e.save.memo == memo && Judge(now, e.save) == Saved
                            && Truthy(Get(now[Key(Memos, memo)], Content));
            HistoryKept(was, Step(now, e), memo,
                        if adds then history + [Get(now[Key(Memos, memo)], Content)] else history)
  {
    hide HistoryKept, NextNumber;
    match e {
      case OtherWrite(m, row) => MemoWriteKeepsHistory(was, now, memo, history, Key(Memos, m), row);
      case SaveEvent(s) =>
        if Judge(now, s) == Saved {
          var text := Get(now[Key(Memos, s.memo)], Content);
          var k, row := Key(Memos, s.memo), SavedRow(now[Key(Memos, s.memo)], s);
          if Truthy(text) {
            var version := PlainVersion(s.memo, text, NextNumber(now, s.memo), s.wall, s.now);
            VersionLengthensHistory(was, now, memo, history, Key(MemoVersions, s.versionId), version, s.memo);
            MemoWriteKeepsHistory(
              was, WithVersion(now, s), memo, if s.memo == memo then history + [text] else history, k, row);
          } else {
            MemoWriteKeepsHistory(was, now, memo, history, k, row);
          }
        }
    }
  }

  /** After any run the versions added to a memo are exactly the non-empty texts that accepted saves
      replaced, in order, numbered consecutively from the old maximum. */
  lemma {:induction false} HistoryIsTheReplacedTexts(rows: Rows, events: seq<Event>, memo: Id)
    ensures HistoryKept(rows, After(rows, events), memo, Replaced(rows, events, memo))
  {
    hide HistoryKept, Step, Judge;
    if events == [] {
      NoHistory(rows, memo);
    } else {
      var n := |events| - 1;
      HistoryIsTheReplacedTexts(rows, events[..n], memo);
      StepKeepsHistory(rows, After(rows, events[..n]), memo, Replaced(rows, events[..n], memo), events[n]);
    }
  }

  lemma NoHistory(rows: Rows, memo: Id)
    ensures HistoryKept(rows, rows, memo, [])
  {
  }

  // ------------------------------------------------------------------
  // The texts that were saved
  // ------------------------------------------------------------------

  /** What the accepted saves of the memo brought, in order. */
  function SavedTexts(rows: Rows, events: seq<Event>, memo: Id): seq<Value> {
    if events == [] then []
    else
      var n := |events| - 1;
      var e := events[n];
      SavedTexts(rows, events[..n], memo)
      + if e.SaveEvent? && e.save.memo == memo && Judge(After(rows, events[..n]), e.save) == Saved
        then [Text(e.save.content)] else []
  }

  /** The texts worth a version among these. */
  function WorthKeeping(texts: seq<Value>): seq<Value> {
    if texts == [] then []
    else
      var n := |texts| - 1;
      WorthKeeping(texts[..n])
      + if texts[n] != Null && texts[n] != Text("") && texts[n] != Num(0) then [texts[n]] else []
  }

  ghost predicate OnlySaves(events: seq<Event>, memo: Id) {
    forall e | e in events && e.OtherWrite? :: e.memo != memo
  }

  /** The memo's first text and then the saved ones. */
  function TextsOf(rows: Rows, events: seq<Event>, memo: Id): seq<Value>
    requires Key(Memos, memo) in rows
  {
    [Get(rows[Key(Memos, memo)], Content)] + SavedTexts(rows, events, memo)
  }

  lemma StepWritesText(rows: Rows, e: Event, memo: Id)
    requires Key(Memos, memo) in rows && (e.OtherWrite? ==> e.memo != memo)
    ensures var k := Key(Memos, memo);
            && k in Step(rows, e)
            && Get(Step(rows, e)[k], Content)
               == if e.SaveEvent? && e.save.memo == memo && Judge(rows, e.save) == Saved then Text(e.save.content)
                  else Get(rows[k], Content)
  {
    hide Judge, VersionNumbers, PlainVersion, NextNumber;
  }

  /** While nobody writes the memo in any other way, its text is that of the last accepted save, or the first one. */
  lemma {:induction false} TextIsTheLastSaved(rows: Rows, events: seq<Event>, memo: Id)
    requires Key(Memos, memo) in rows && OnlySaves(events, memo)
    ensures var k, texts := Key(Memos, memo), TextsOf(rows, events, memo);
            k in After(rows, events) && Get(After(rows, events)[k], Content) == texts[|texts| - 1]
  {
    hide Step, Judge;
    if events != [] {
      var n := |events| - 1;
      assert events[n] in events && forall e | e in events[..n] :: e in events;
      TextIsTheLastSaved(rows, events[..n], memo);
      StepWritesText(After(rows, events[..n]), events[n], memo);
    }
  }

  lemma KeepingOneMore(texts: seq<Value>, n: nat)
    requires n < |texts|
    ensures WorthKeeping(texts[..n + 1]) == WorthKeeping(texts[..n]) + if Truthy(texts[n]) then [texts[n]] else []
  {
    assert texts[..n + 1][..n] == texts[..n];
  }

  lemma {:induction false} ReplacedWereSaved(rows: Rows, events: seq<Event>, memo: Id)
    requires Key(Memos, memo) in rows && OnlySaves(events, memo)
    ensures var texts := TextsOf(rows, events, memo); Replaced(rows, events, memo) == WorthKeeping(texts[..|texts| - 1])
  {
    hide Step, Judge, WorthKeeping, Truthy;
    var texts := TextsOf(rows, events, memo);
    if events == [] {
      assert texts[..0] == [] && WorthKeeping([]) == [] by { NothingWorthKeeping(); }
    } else {
      var n := |events| - 1;
      assert forall e | e in events[..n] :: e in events;
      ReplacedWereSaved(rows, events[..n], memo);
      TextIsTheLastSaved(rows, events[..n], memo);
      var before := TextsOf(rows, events[..n], memo);
      if |texts| > |before| {
        assert texts[..|texts| - 1] == before && before[..|before|] == before;
        KeepingOneMore(before, |before| - 1);
      } else {
        assert texts == before;
      }
    }
  }

  lemma NothingWorthKeeping()
    ensures WorthKeeping([]) == []
  {
  }

  /** While nobody writes the memo in any other way, the versions added to it are its first text and all saved texts
      but the last, the empty ones left out, in order and numbered on from the old maximum. */
  lemma HistoryIsTheSavedTexts(rows: Rows, events: seq<Event>, memo: Id)
    requires Key(Memos, memo) in rows && OnlySaves(events, memo)
    ensures var texts := TextsOf(rows, events, memo);
            HistoryKept(rows, After(rows, events), memo, WorthKeeping(texts[..|texts| - 1]))
  {
    hide HistoryKept, WorthKeeping, After, Replaced;
    HistoryIsTheReplacedTexts(rows, events, memo);
    ReplacedWereSaved(rows, events, memo);
  }
}
