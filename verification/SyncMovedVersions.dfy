/** A run in which merging two memos takes a version from one to the other: its text stays, its memo does not. */
module SyncMovedVersions {
  import opened SyncSchema
  import opened SyncStore
  import opened SyncApply
  import opened SyncEffectProofs
  import opened TwoNode
  import opened SyncInvariants
  import opened SyncConvergence
  import opened SyncTexts
  import opened SyncSamples

  const PROJECT := Key(Projects, "p")
  const LOSER := Key(Memos, "loser")
  const WINNER := Key(Memos, "winner")
  const VERSION := Key(MemoVersions, "v")

  /** Two memos, one of them with a version. */
  function TwoMemos(w: World): seq<Action> {
    [ServerEdit(PROJECT, ProjectRow(w, "project", 1)), ServerEdit(LOSER, MemoRow("p", "loser", 1)),
     ServerEdit(WINNER, MemoRow("p", "winner", 1)), ServerEdit(VERSION, SampleVersion("loser", "then", 1))]
  }

  function MemosOf(w: World): Rows {
    map[PROJECT := ProjectRow(w, "project", 1), LOSER := MemoRow("p", "loser", 1), WINNER := MemoRow("p", "winner", 1)]
  }

  /** What the merge does to the version. */
  function Moving(): Action {
    ServerEdit(VERSION, SampleVersion("winner", "then", 2))
  }

  lemma TwoMemosRun(w: World)
    ensures IsRun(w, TwoMemos(w)[..3]) && SysAfter(w, TwoMemos(w)[..3]).server.store.rows == MemosOf(w)
  {
    hide IsRun, SysAfter, EditAllowed, ProjectRow, MemoRow;
    EmptyRun(w);
    var acts := TwoMemos(w);
    ProjectAllowed(w, map[], "p", "project", 1);
    ServerEditStep(w, [], PROJECT, ProjectRow(w, "project", 1));
    assert [] + [acts[0]] == acts[..1];
    MemoAllowed(w, SysAfter(w, acts[..1]).server.store.rows, "loser", "p", "loser", 1);
    ServerEditStep(w, acts[..1], LOSER, MemoRow("p", "loser", 1));
    assert acts[..1] + [acts[1]] == acts[..2];
    MemoAllowed(w, SysAfter(w, acts[..2]).server.store.rows, "winner", "p", "winner", 1);
    ServerEditStep(w, acts[..2], WINNER, MemoRow("p", "winner", 1));
    assert acts[..2] + [acts[2]] == acts[..3];
  }

  lemma MovingRun(w: World)
    ensures IsRun(w, TwoMemos(w)) && IsRun(w, TwoMemos(w) + [Moving()])
    ensures SysAfter(w, TwoMemos(w)).server.store.rows == MemosOf(w)[VERSION := SampleVersion("loser", "then", 1)]
    ensures SysAfter(w, TwoMemos(w) + [Moving()]).server.store.rows
            == MemosOf(w)[VERSION := SampleVersion("winner", "then", 2)]
  {
    hide IsRun, SysAfter, EditAllowed;
    TwoMemosRun(w);
    var acts := TwoMemos(w);
    VersionAllowed(w, MemosOf(w), "v", "loser", "then", 1);
    ServerEditStep(w, acts[..3], VERSION, SampleVersion("loser", "then", 1));
    assert acts[..3] + [acts[3]] == acts;
    VersionAllowed(w, SysAfter(w, acts).server.store.rows, "v", "winner", "then", 2);
    ServerEditStep(w, acts, VERSION, SampleVersion("winner", "then", 2));
  }

  function ThenText(): Id -> Value {
    id => Text("then")
  }

  function LoserHome(): Id -> Value {
    id => Text("loser")
  }

  lemma MoveIsWriteOnce(w: World)
    ensures WriteOnce(w, TwoMemos(w) + [Moving()], ThenText(), LoserHome())
    ensures MovedAway(TwoMemos(w) + [Moving()], LoserHome(), "v")
  {
    hide SysAfter;
    var acts := TwoMemos(w) + [Moving()];
    assert MovesVersion(acts[4], LoserHome(), "v");
  }

  /** The run satisfies the hypothesis under which texts survive. Before its last step the text is a version of
      the losing memo; afterwards that memo has none with it, and the moved version still has the text. */
  lemma MergeMovesTheVersion(w: World)
    requires Reflexive(w.env)
    ensures var acts := TwoMemos(w) + [Moving()];
            var rows := SysAfter(w, acts).server.store.rows;
            && IsRun(w, acts) && WriteOnce(w, acts, ThenText(), LoserHome())
            && HasVersionText(w.env, SysAfter(w, TwoMemos(w)).server.store.rows, "loser", Text("then"))
            && !HasVersionText(w.env, rows, "loser", Text("then"))
            && HasVersionText(w.env, rows, "winner", Text("then"))
            && MovedAway(acts, LoserHome(), "v")
  {
    hide IsRun, SysAfter, WriteOnce, MovedAway;
    MovingRun(w);
    MoveIsWriteOnce(w);
    var before := MemosOf(w)[VERSION := SampleVersion("loser", "then", 1)];
    var after := MemosOf(w)[VERSION := SampleVersion("winner", "then", 2)];
    assert IsVersionOf(before, VERSION, "loser") && IsVersionOf(after, VERSION, "winner");
    assert forall k | k in after && k.table == MemoVersions :: k == VERSION;
  }
}
