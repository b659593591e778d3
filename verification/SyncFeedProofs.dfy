/** What a change feed delivers. */
module SyncFeedProofs {
  import opened SyncSchema
  import opened SyncStore
  import opened SyncQueue

  ghost predicate LoggedIn(log: seq<LogEntry>, lo: nat, hi: nat, k: Key) {
    exists i :: lo <= i < hi <= |log| && log[i].key == k
  }

  /** The change carries row `k` with this value. */
  ghost predicate Carries(ch: Change, k: Key, row: Row) {
    ch.table == Some(k.table) && ch.rowId == k.id && ch.row == Some(row)
  }

  ghost predicate Delivers(changes: seq<Change>, k: Key, row: Row) {
    exists ch :: ch in changes && Carries(ch, k, row)
  }

  ghost predicate Ascending(changes: seq<Change>, lo: nat, hi: nat) {
    && (forall i | 0 <= i < |changes| :: changes[i].seqNo.Some? && lo < changes[i].seqNo.value <= hi)
    && (forall i, j | 0 <= i < j < |changes| :: changes[i].seqNo.value < changes[j].seqNo.value)
  }

  lemma {:induction false} LastEntry(log: seq<LogEntry>, i: nat, hi: nat) returns (last: nat)
    requires i < hi <= |log|
    ensures i <= last < hi && log[last].key == log[i].key && LastOfItsRow(log, last, hi)
    decreases hi - i
  {
    if LastOfItsRow(log, i, hi) {
      last := i;
    } else {
      var j :| i < j < hi && log[j].key == log[i].key;
      last := LastEntry(log, j, hi);
    }
  }

  /** Each feed item answers one log entry of the window with the row's current value. */
  lemma {:induction false} ReadWindowItems(st: Store, account: Id, lo: nat, hi: nat)
    requires lo <= hi <= |st.log|
    ensures Ascending(ReadWindow(st, account, lo, hi), lo, hi)
    ensures forall ch | ch in ReadWindow(st, account, lo, hi) ::
      exists i :: lo <= i < hi && InFeed(st, account, i, hi) && ch == FeedChange(st, i)
    decreases hi - lo
  {
    if lo < hi {
      ReadWindowItems(st, account, lo + 1, hi);
      var rest := ReadWindow(st, account, lo + 1, hi);
      assert ReadWindow(st, account, lo, hi)
          == (if InFeed(st, account, lo, hi) then [FeedChange(st, lo)] else []) + rest;
      hide InFeed, ReadWindow;
    }
  }

  lemma {:induction false} ReadWindowCovers(st: Store, account: Id, lo: nat, hi: nat, i: nat)
    requires lo <= i < hi <= |st.log| && InFeed(st, account, i, hi)
    ensures FeedChange(st, i) in ReadWindow(st, account, lo, hi)
    decreases hi - lo
  {
    hide InFeed;
    if i != lo {
      ReadWindowCovers(st, account, lo + 1, hi, i);
    }
  }

  /** Exactly the rows logged in the window that still exist and are visible, each as it is now. */
  lemma WindowDeliversExactly(st: Store, account: Id, lo: nat, hi: nat, k: Key, row: Row)
    requires lo <= hi <= |st.log|
    ensures Delivers(ReadWindow(st, account, lo, hi), k, row)
            <==> LoggedIn(st.log, lo, hi, k) && k in st.rows && st.rows[k] == row && Visible(st, k, account)
  {
    hide Visible, ReadWindow;
    ReadWindowItems(st, account, lo, hi);
    if LoggedIn(st.log, lo, hi, k) && k in st.rows && st.rows[k] == row && Visible(st, k, account) {
      var i :| lo <= i < hi && st.log[i].key == k;
      var last := LastEntry(st.log, i, hi);
      ReadWindowCovers(st, account, lo, hi, last);
      assert Carries(FeedChange(st, last), k, row);
    }
  }

  // ------------------------------------------------------------------
  // Reading to the end
  // ------------------------------------------------------------------

  /** Successive pages of the given limits from an unchanging server. */
  function Drain(st: Store, account: Id, since: nat, limits: seq<nat>): (seq<Change>, nat)
    requires since <= |st.log|
    decreases |limits|
  {
    if limits == [] then ([], since)
    else
      var end := WindowEnd(st.log, since, limits[0]);
      var rest := Drain(st, account, end, limits[1..]);
      (ReadWindow(st, account, since, end) + rest.0, rest.1)
  }

  /** Pages of any limits scan every seq between the two cursors once, and together deliver exactly the
      current value of every visible row logged there. A positive limit makes progress until the end. */
  lemma {:induction false} PagesDeliverEverything(
    st: Store, account: Id, since: nat, limits: seq<nat>, k: Key, row: Row)
    requires since <= |st.log|
    ensures var d := Drain(st, account, since, limits);
            && since <= d.1 <= |st.log|
            && (Delivers(d.0, k, row)
                <==> LoggedIn(st.log, since, d.1, k) && k in st.rows && st.rows[k] == row && Visible(st, k, account))
            && Ascending(d.0, since, d.1)
            && (d.1 == |st.log| || d.1 >= since + Total(limits))
    decreases |limits|
  {
    hide Visible, ReadWindow;
    if limits != [] {
      var end := WindowEnd(st.log, since, limits[0]);
      var d := Drain(st, account, end, limits[1..]);
      PagesDeliverEverything(st, account, end, limits[1..], k, row);
      WindowDeliversExactly(st, account, since, end, k, row);
      ReadWindowItems(st, account, since, end);
      var page := ReadWindow(st, account, since, end);
      assert Delivers(page + d.0, k, row) <==> Delivers(page, k, row) || Delivers(d.0, k, row);
      assert LoggedIn(st.log, since, d.1, k) <==> LoggedIn(st.log, since, end, k) || LoggedIn(st.log, end, d.1, k);
    }
  }

  function Total(limits: seq<nat>): nat {
    if limits == [] then 0 else limits[0] + Total(limits[1..])
  }

  // ------------------------------------------------------------------
  // Collecting
  // ------------------------------------------------------------------

  lemma {:induction false} CollectWindowItems(st: Store, rs: map<Key, RowState>, lo: nat, hi: nat)
    requires lo <= hi <= |st.log|
    ensures Ascending(CollectWindow(st, rs, lo, hi), lo, hi)
    ensures forall ch | ch in CollectWindow(st, rs, lo, hi) ::
      exists i :: lo <= i < hi && LastOfItsRow(st.log, i, hi) && ch == LocalChange(st, rs, i)
    decreases hi - lo
  {
    if lo < hi {
      CollectWindowItems(st, rs, lo + 1, hi);
      var rest := CollectWindow(st, rs, lo + 1, hi);
      assert CollectWindow(st, rs, lo, hi)
          == (if LastOfItsRow(st.log, lo, hi) then [LocalChange(st, rs, lo)] else []) + rest;
      hide LastOfItsRow, CollectWindow, LocalChange;
    }
  }

  lemma {:induction false} CollectWindowCovers(st: Store, rs: map<Key, RowState>, lo: nat, hi: nat, i: nat)
    requires lo <= i < hi <= |st.log| && LastOfItsRow(st.log, i, hi)
    ensures LocalChange(st, rs, i) in CollectWindow(st, rs, lo, hi)
    decreases hi - lo
  {
    hide LastOfItsRow, LocalChange;
    if i != lo {
      CollectWindowCovers(st, rs, lo + 1, hi, i);
    }
  }
}
