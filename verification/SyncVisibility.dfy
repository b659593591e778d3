/** Whose rows a feed delivers, said on the owner and membership columns alone. */
module SyncVisibility {
  import opened SyncSchema
  import opened SyncStore
  import opened SyncQueue
  import opened SyncFeedProofs

  type Rows = map<Key, Row>

  /** The stored row lies in this project: it is the project, names it, or is a version of a memo that names it. */
  ghost predicate LiesIn(rows: Rows, k: Key, project: Id)
    requires k in rows
  {
    match k.table
    case Projects => k.id == project
    case Memos => Get(rows[k], ProjectId) == Text(project)
    case ProjectMembers => Get(rows[k], ProjectId) == Text(project)
    case MemoVersions =>
      exists m :: m in rows && m.table == Memos && Get(rows[k], MemoId) == Text(m.id)
                  && Get(rows[m], ProjectId) == Text(project)
  }

  /** The account owns the project. */
  ghost predicate Owns(rows: Rows, project: Id, account: Id) {
    Key(Projects, project) in rows && Get(rows[Key(Projects, project)], OwnerId) == Text(account)
  }

  /** The account has a membership of the project that is not deleted. */
  ghost predicate TakesPart(rows: Rows, project: Id, account: Id) {
    exists m :: m in rows && m.table == ProjectMembers && Get(rows[m], ProjectId) == Text(project)
                && Get(rows[m], UserId) == Text(account) && Get(rows[m], DeletedAt) == Null
  }

  ghost predicate MaySee(rows: Rows, k: Key, account: Id)
    requires k in rows
  {
    exists project :: LiesIn(rows, k, project) && (Owns(rows, project, account) || TakesPart(rows, project, account))
  }

  lemma LiesInOne(rows: Rows, k: Key, project: Id)
    requires RowsValid(rows) && k in rows
    ensures LiesIn(rows, k, project) <==> ProjectOfRow(rows, k, rows[k]) == Some(project)
    ensures LiesIn(rows, k, project) ==> Key(Projects, project) in rows
    ensures ProjectOfRow(rows, k, rows[k]).Some?
  {
    hide Columns;
    assert ParentStored(rows, k.table, rows[k]);
    if k.table == MemoVersions {
      var m := Key(Memos, Get(rows[k], MemoId).s);
      assert m in rows && ParentStored(rows, m.table, rows[m]);
    }
  }

  lemma VisibleExactlyToMembers(st: Store, k: Key, account: Id)
    requires RowsValid(st.rows) && k in st.rows
    ensures Visible(st, k, account) <==> MaySee(st.rows, k, account)
  {
    hide RowsValid, LiesIn, ProjectOfRow;
    forall project ensures LiesIn(st.rows, k, project) <==> ProjectOfRow(st.rows, k, st.rows[k]) == Some(project)
      ensures LiesIn(st.rows, k, project) ==> Key(Projects, project) in st.rows
    {
      LiesInOne(st.rows, k, project);
    }
    LiesInOne(st.rows, k, "");
    forall project: Id ensures HasMembership(st.rows, project, account) <==> TakesPart(st.rows, project, account) {
      TakesPartMeans(st.rows, project, account);
    }
  }

  /** Whatever the database holds, a row is kept from an account exactly when it lies in a project that is not stored,
      or that the account neither owns nor takes part in. */
  lemma HiddenExactlyIfForeign(st: Store, k: Key, account: Id)
    requires k in st.rows
    ensures Visible(st, k, account)
            <==> forall project: Id | LiesIn(st.rows, k, project) ::
                   Key(Projects, project) in st.rows
                   && (Owns(st.rows, project, account) || TakesPart(st.rows, project, account))
  {
    hide LiesIn, ProjectOfRow;
    forall project ensures LiesIn(st.rows, k, project) <==> ProjectOfRow(st.rows, k, st.rows[k]) == Some(project) {
      LiesInThat(st.rows, k, project);
    }
    forall project: Id ensures HasMembership(st.rows, project, account) <==> TakesPart(st.rows, project, account) {
      TakesPartMeans(st.rows, project, account);
    }
    var project := ProjectOfRow(st.rows, k, st.rows[k]);
    if project.Some? { assert LiesIn(st.rows, k, project.value); }
  }

  lemma LiesInThat(rows: Rows, k: Key, project: Id)
    requires k in rows
    ensures LiesIn(rows, k, project) <==> ProjectOfRow(rows, k, rows[k]) == Some(project)
  {
    if k.table == MemoVersions && Get(rows[k], MemoId).Text? {
      var m := Key(Memos, Get(rows[k], MemoId).s);
      assert m in rows ==> m.table == Memos && Get(rows[k], MemoId) == Text(m.id);
    }
  }

  lemma TakesPartMeans(rows: Rows, project: Id, account: Id)
    ensures HasMembership(rows, project, account) <==> TakesPart(rows, project, account)
  {
    if TakesPart(rows, project, account) {
      var m :| m in rows && m.table == ProjectMembers && Get(rows[m], ProjectId) == Text(project)
               && Get(rows[m], UserId) == Text(account) && Get(rows[m], DeletedAt) == Null;
      assert IsMembership(rows, m, project, account);
    }
  }

  /** A window delivers a row exactly when the row is logged there, stored with that value, and lies in a project
      the account owns or is a live member of. */
  lemma WindowDeliversToMembers(st: Store, account: Id, lo: nat, hi: nat, k: Key, row: Row)
    requires lo <= hi <= |st.log| && RowsValid(st.rows)
    ensures Delivers(ReadWindow(st, account, lo, hi), k, row)
            <==> LoggedIn(st.log, lo, hi, k) && k in st.rows && st.rows[k] == row && MaySee(st.rows, k, account)
  {
    hide Visible, ReadWindow, RowsValid, MaySee, LoggedIn, Delivers;
    WindowDeliversExactly(st, account, lo, hi, k, row);
    if k in st.rows { VisibleExactlyToMembers(st, k, account); }
  }

  /** The same for all pages of a feed together. */
  lemma PagesDeliverToMembers(st: Store, account: Id, since: nat, limits: seq<nat>, k: Key, row: Row)
    requires since <= |st.log| && RowsValid(st.rows)
    ensures var d := Drain(st, account, since, limits);
            Delivers(d.0, k, row)
            <==> LoggedIn(st.log, since, d.1, k) && k in st.rows && st.rows[k] == row && MaySee(st.rows, k, account)
  {
    hide Visible, Drain, RowsValid, MaySee, LoggedIn, Delivers;
    PagesDeliverEverything(st, account, since, limits, k, row);
    if k in st.rows { VisibleExactlyToMembers(st, k, account); }
  }

  /** An account that owns no project and has no live membership is sent nothing. */
  lemma StrangersSeeNothing(st: Store, account: Id, lo: nat, hi: nat)
    requires lo <= hi <= |st.log| && RowsValid(st.rows)
    requires forall p | p in st.rows && p.table == Projects :: Get(st.rows[p], OwnerId) != Text(account)
    requires forall m | m in st.rows && m.table == ProjectMembers && Get(st.rows[m], UserId) == Text(account) ::
               Get(st.rows[m], DeletedAt) != Null
    ensures ReadWindow(st, account, lo, hi) == []
  {
    hide RowsValid, ReadWindow, Visible, LastOfItsRow, LiesIn;
    ReadWindowItems(st, account, lo, hi);
    var feed := ReadWindow(st, account, lo, hi);
    if feed != [] {
      assert feed[0] in feed;
      var i :| lo <= i < hi && InFeed(st, account, i, hi) && feed[0] == FeedChange(st, i);
      SeenIsVisible(st, account, i, hi);
      VisibleExactlyToMembers(st, st.log[i].key, account);
      assert false;
    }
  }

  lemma SeenIsVisible(st: Store, account: Id, i: nat, hi: nat)
    requires i < hi <= |st.log| && InFeed(st, account, i, hi)
    ensures st.log[i].key in st.rows && Visible(st, st.log[i].key, account)
  {
    hide Visible;
  }

  /** A window names each row once, under its last seq there. */
  lemma WindowNamesRowsOnce(st: Store, account: Id, lo: nat, hi: nat, i: nat, j: nat)
    requires lo <= hi <= |st.log| && i < j < |ReadWindow(st, account, lo, hi)|
    ensures var feed := ReadWindow(st, account, lo, hi);
            (feed[i].table, feed[i].rowId) != (feed[j].table, feed[j].rowId)
  {
    hide ReadWindow, Visible;
    ReadWindowItems(st, account, lo, hi);
    var feed := ReadWindow(st, account, lo, hi);
    assert feed[i] in feed && feed[j] in feed;
    var m :| lo <= m < hi && InFeed(st, account, m, hi) && feed[i] == FeedChange(st, m);
    var n :| lo <= n < hi && InFeed(st, account, n, hi) && feed[j] == FeedChange(st, n);
    assert m < n;
  }
}
