/** Complete rows for the runs that show what a hypothesis excludes. */
module SyncSamples {
  import opened SyncSchema
  import opened SyncStore
  import opened SyncApply
  import opened TwoNode
  import opened SyncInvariants
  import opened SyncConvergence
  import opened SyncExactlyOnce
  import opened SyncGate
  import opened SyncLiveness

  function ProjectRow(w: World, name: string, clock: int): Row {
    map[OwnerId := Text(w.account), Name := Text(name), Icon := Text(""), Status := Num(0), IsSecret := Num(0),
        CreatedAt := Num(1), UpdatedAt := Num(1), UpdatedAtUtc := Num(clock), DeletedAt := Null]
  }

  function MemoRow(project: Id, title: string, clock: int): Row {
    map[ProjectId := Text(project), CreatedBy := Null, Title := Text(title), Content := Null, Status := Num(0),
        CreatedAt := Num(1), UpdatedAt := Num(1), UpdatedAtUtc := Num(clock), DeletedAt := Null]
  }

  function SampleVersion(memo: Id, text: string, clock: int): Row {
    map[MemoId := Text(memo), Content := Text(text), Version := Num(1), Note := Null, CreatedAt := Num(1),
        UpdatedAtUtc := Num(clock)]
  }

  predicate IsLater(rows: Rows, k: Key, clock: int) {
    k.id != "" && (k in rows ==> clock > Clk(rows[k]))
  }

  lemma ProjectAllowed(w: World, rows: Rows, id: Id, name: string, clock: int)
    requires IsLater(rows, Key(Projects, id), clock)
    ensures EditAllowed(w, rows, Key(Projects, id), ProjectRow(w, name, clock))
  {
  }

  lemma MemoAllowed(w: World, rows: Rows, id: Id, project: Id, title: string, clock: int)
    requires IsLater(rows, Key(Memos, id), clock) && Key(Projects, project) in rows
    ensures EditAllowed(w, rows, Key(Memos, id), MemoRow(project, title, clock))
  {
  }

  lemma VersionAllowed(w: World, rows: Rows, id: Id, memo: Id, text: string, clock: int)
    requires IsLater(rows, Key(MemoVersions, id), clock) && Key(Memos, memo) in rows
    ensures EditAllowed(w, rows, Key(MemoVersions, id), SampleVersion(memo, text, clock))
  {
  }

  lemma EmptyRun(w: World)
    ensures IsRun(w, []) && SysAfter(w, []) == START
  {
  }

  lemma ServerEditStep(w: World, acts: seq<Action>, k: Key, row: Row)
    requires IsRun(w, acts) && EditAllowed(w, SysAfter(w, acts).server.store.rows, k, row)
    ensures IsRun(w, acts + [ServerEdit(k, row)])
    ensures var s := SysAfter(w, acts);
            SysAfter(w, acts + [ServerEdit(k, row)])
              == s.(server := s.server.(store := PutRow(s.server.store, false, k, row)))
  {
    hide IsRun, SysAfter, HistAfter, EditAllowed, Record, PutRow;
    Extend(w, acts, ServerEdit(k, row));
  }

  lemma ClientEditStep(w: World, acts: seq<Action>, k: Key, row: Row)
    requires IsRun(w, acts) && EditAllowed(w, SysAfter(w, acts).client.store.rows, k, row)
    ensures IsRun(w, acts + [ClientEdit(k, row)])
    ensures var s := SysAfter(w, acts);
            SysAfter(w, acts + [ClientEdit(k, row)])
              == s.(client := s.client.(store := PutRow(s.client.store, false, k, row)))
  {
    hide IsRun, SysAfter, HistAfter, EditAllowed, Record, PutRow;
    Extend(w, acts, ClientEdit(k, row));
  }
}
