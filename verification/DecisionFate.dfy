/** The decision cache, row by row and in full: when a decision is kept, taken over or made again, read off
    the marks, the decision log, the profile and the versions. */
module DecisionFate {
  import opened Common
  import opened DecisionRefresh

  /** The last decision that the log holds on a key. */
  ghost predicate Newest(log: seq<(Key, Decision)>, key: Key, d: Decision) {
    exists i :: 0 <= i < |log| && log[i] == (key, d) && forall j | i < j < |log| :: log[j].0 != key
  }

  lemma {:induction false} LatestMeans(log: seq<(Key, Decision)>, key: Key, d: Decision)
    ensures Latest(log, key) == Some(d) <==> Newest(log, key, d)
  {
    if log != [] {
      var n := |log| - 1;
      LatestMeans(log[..n], key, d);
      if Newest(log[..n], key, d) && log[n].0 != key {
        var i :| 0 <= i < n && log[..n][i] == (key, d) && forall j | i < j < n :: log[..n][j].0 != key;
        assert log[i] == (key, d) && forall j | i < j < n :: log[j] == log[..n][j];
      }
      if Newest(log, key, d) && log[n].0 != key {
        var i :| 0 <= i < |log| && log[i] == (key, d) && forall j | i < j < |log| :: log[j].0 != key;
        assert log[..n][i] == (key, d) && forall j | i < j < n :: log[j] == log[..n][j];
      }
      if log[n] == (key, d) {
        assert Newest(log, key, d);
      }
    }
  }

  /** The key is marked with what the row, the profile and the versions are now. */
  predicate UpToDate(s: Setting, t: Tables, account: Text, r: Row) {
    var key := (account, r.source, r.externalId);
    && key in t.marks && t.marks[key].material == r.material && t.marks[key].profile == s.profile(account)
    && t.marks[key].matcher == s.matcher && t.marks[key].rule == s.rule
  }

  /** The key was never marked, but its last decision is dated, was made by the current rule, and not before
      the profile was last edited. */
  ghost predicate TakenOver(s: Setting, t: Tables, account: Text, r: Row) {
    var key := (account, r.source, r.externalId);
    key !in t.marks
    && exists d :: Newest(t.log, key, d) && d.rule == s.rule && d.decidedAt != 0
                   && (s.profileUpdated(account) != 0 ==> s.profileUpdated(account) <= d.decidedAt)
  }

  ghost predicate MadeAgain(s: Setting, t: Tables, account: Text, r: Row) {
    r.source != 0 && r.externalId != 0 && !UpToDate(s, t, account, r) && !TakenOver(s, t, account, r)
  }

  ghost function MadeAgainBefore(s: Setting, t: Tables, account: Text, rows: seq<Row>): nat {
    if rows == [] then 0
    else
      MadeAgainBefore(s, t, account, rows[..|rows| - 1]) + if MadeAgain(s, t, account, rows[|rows| - 1]) then 1 else 0
  }

  lemma StatusInFull(s: Setting, t: Tables, account: Text, r: Row)
    ensures IsFresh(s, t, account, r) <==> UpToDate(s, t, account, r)
    ensures IsSeedable(s, t, account, r) <==> TakenOver(s, t, account, r)
    ensures IsStale(s, t, account, r) <==> MadeAgain(s, t, account, r)
  {
    var key := (account, r.source, r.externalId);
    hide Newest;
    forall d ensures Latest(t.log, key) == Some(d) <==> Newest(t.log, key, d) {
      LatestMeans(t.log, key, d);
    }
    hide Latest;
  }

  lemma {:induction false} CountInFull(s: Setting, t: Tables, account: Text, rows: seq<Row>)
    ensures StaleCount(s, t, account, rows) == MadeAgainBefore(s, t, account, rows)
  {
    if rows != [] {
      CountInFull(s, t, account, rows[..|rows| - 1]);
      StatusInFull(s, t, account, rows[|rows| - 1]);
    }
    hide IsStale, MadeAgain;
  }

  ghost predicate SameKey(t: Tables, u: Tables, key: Key) {
    && (key in u.marks <==> key in t.marks)
    && (key in t.marks ==> u.marks[key] == t.marks[key])
    && forall d :: Newest(u.log, key, d) <==> Newest(t.log, key, d)
  }

  lemma SameKeyInFull(t: Tables, u: Tables, key: Key)
    requires SameAt(t, u, key)
    ensures SameKey(t, u, key)
  {
    forall d ensures Newest(u.log, key, d) <==> Newest(t.log, key, d) {
      LatestMeans(t.log, key, d);
      LatestMeans(u.log, key, d);
    }
    hide Newest, Latest;
  }

  /** The outcome of a call for every row of every account, in full: a row that is up to date, or without a
      source or an identifier, is left alone; one whose decision counts as current is marked and keeps it; any
      other is decided by the scoring function, dated by the call and marked, if fewer of the account's rows
      before it were than the limit allows, and is left alone otherwise. */
  lemma CallInFull(s: Setting, t: Tables, accounts: seq<Text>, a: nat, i: nat)
    requires Distinct(s.rows) && DistinctTexts(accounts) && a < |accounts| && accounts[a] != 0 && i < |s.rows|
    ensures
      var u, account, r := AfterAccounts(s, t, accounts).tables, accounts[a], s.rows[i];
      var key := (account, r.source, r.externalId);
      if r.source == 0 || r.externalId == 0 || UpToDate(s, t, account, r) then SameKey(t, u, key)
      else if TakenOver(s, t, account, r) then
        UpToDate(s, u, account, r) && forall d :: Newest(u.log, key, d) <==> Newest(t.log, key, d)
      else if MadeAgainBefore(s, t, account, s.rows[..i]) < Max(1, s.limit) then
        && UpToDate(s, u, account, r)
        && Newest(u.log, key, Decision(s.evaluate(r.material, s.profile(account)), s.now, s.rule))
      else SameKey(t, u, key)
  {
    var u, account, r := AfterAccounts(s, t, accounts).tables, accounts[a], s.rows[i];
    var key := (account, r.source, r.externalId);
    CallFate(s, t, accounts, a, i);
    StatusInFull(s, t, account, r);
    StatusInFull(s, u, account, r);
    CountInFull(s, t, account, s.rows[..i]);
    LatestMeans(u.log, key, s.Score(account, r));
    hide AfterAccounts, StaleCount, MadeAgainBefore, IsFresh, IsSeedable, UpToDate, TakenOver, Newest, Latest;
    if SameAt(t, u, key) {
      SameKeyInFull(t, u, key);
    } else if Latest(u.log, key) == Latest(t.log, key) {
      SameNewest(t.log, u.log, key);
    }
  }

  lemma SameNewest(a: seq<(Key, Decision)>, b: seq<(Key, Decision)>, key: Key)
    requires Latest(a, key) == Latest(b, key)
    ensures forall d :: Newest(b, key, d) <==> Newest(a, key, d)
  {
    forall d ensures Newest(b, key, d) <==> Newest(a, key, d) {
      LatestMeans(a, key, d);
      LatestMeans(b, key, d);
    }
    hide Newest, Latest;
  }
}
