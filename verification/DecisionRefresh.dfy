/** The decision cache: a fingerprint of what a decision depends on decides whether it is made
    again, and a limit per account spreads the work over calls. */
module DecisionRefresh {
  import opened Common

  /** One opportunity of the latest sync; `material` stands for its commercial fields. */
  datatype Row = Row(source: Text, externalId: Text, material: int)

  /** Everything the digest is taken of; digests are taken to be injective. */
  datatype Fingerprint = Fingerprint(material: int, profile: int, matcher: Text, rule: Text)

  datatype Decision = Decision(outcome: int, decidedAt: Text, rule: Text)

  type Key = (Text, Text, Text)   // account, source, external id

  /** The fingerprint table and the append-only decision log. */
  datatype Tables = Tables(marks: map<Key, Fingerprint>, log: seq<(Key, Decision)>)

  /** What a call is given: profiles per account, when each was last edited, the rule and matcher
      versions, the limit, the scoring function and the time stamp of its decisions. */
  datatype Setting = Setting(rows: seq<Row>, profile: Text -> int, profileUpdated: Text -> Text, rule: Text, matcher: Text,
                             limit: int, evaluate: (int, int) -> int, now: Text)
  {
    function RefreshLimit(): (n: nat)
      ensures n >= 1
    {
      Max(1, limit)
    }

    function FingerprintOf(account: Text, r: Row): Fingerprint {
      Fingerprint(r.material, profile(account), matcher, rule)
    }

    function Score(account: Text, r: Row): Decision {
      Decision(evaluate(r.material, profile(account)), now, rule)
    }
  }

  predicate Named(r: Row) {
    r.source != 0 && r.externalId != 0
  }

  function KeyOf(account: Text, r: Row): Key {
    (account, r.source, r.externalId)
  }

  /** The newest decision on a key. */
  function Latest(log: seq<(Key, Decision)>, key: Key): Option<Decision> {
    if log == [] then None
    else if log[|log| - 1].0 == key then Some(log[|log| - 1].1)
    else Latest(log[..|log| - 1], key)
  }

  predicate IsFresh(s: Setting, t: Tables, account: Text, r: Row) {
    KeyOf(account, r) in t.marks && t.marks[KeyOf(account, r)] == s.FingerprintOf(account, r)
  }

  /** A decision from before the fingerprint table that counts as current: made by this rule, and
      not before the profile was last edited. */
  predicate IsSeedable(s: Setting, t: Tables, account: Text, r: Row) {
    && KeyOf(account, r) !in t.marks
    && var d := Latest(t.log, KeyOf(account, r));
    && d.Some? && d.value.rule == s.rule && d.value.decidedAt != 0
    && (s.profileUpdated(account) == 0 || d.value.decidedAt >= s.profileUpdated(account))
  }

  predicate IsStale(s: Setting, t: Tables, account: Text, r: Row) {
    Named(r) && !IsFresh(s, t, account, r) && !IsSeedable(s, t, account, r)
  }

  function Mark(s: Setting, t: Tables, account: Text, r: Row): Tables {
    t.(marks := t.marks[KeyOf(account, r) := s.FingerprintOf(account, r)])
  }

  function Decide(s: Setting, t: Tables, account: Text, r: Row): Tables {
    t.(log := t.log + [(KeyOf(account, r), s.Score(account, r))])
  }

  datatype Work = Work(tables: Tables, rescored: nat)

  function AfterRow(s: Setting, w: Work, account: Text, r: Row): Work {
    if !Named(r) || IsFresh(s, w.tables, account, r) then w
    else if IsSeedable(s, w.tables, account, r) then w.(tables := Mark(s, w.tables, account, r))
    else if w.rescored >= s.RefreshLimit() then w
    else Work(Mark(s, Decide(s, w.tables, account, r), account, r), w.rescored + 1)
  }

  function AfterRows(s: Setting, t: Tables, account: Text, rows: seq<Row>): Work {
    if rows == [] then Work(t, 0)
    else AfterRow(s, AfterRows(s, t, account, rows[..|rows| - 1]), account, rows[|rows| - 1])
  }

  function AfterAccounts(s: Setting, t: Tables, accounts: seq<Text>): Work {
    if accounts == [] then Work(t, 0)
    else
      var before, account := AfterAccounts(s, t, accounts[..|accounts| - 1]), accounts[|accounts| - 1];
      if account == 0 then before
      else
        var own := AfterRows(s, before.tables, account, s.rows);
        Work(own.tables, before.rescored + own.rescored)
  }

  /** The tenders table holds one row per source and identifier. */
  ghost predicate Distinct(rows: seq<Row>) {
    forall i, j | 0 <= i < j < |rows| :: (rows[i].source, rows[i].externalId) != (rows[j].source, rows[j].externalId)
  }

  ghost predicate DistinctTexts(accounts: seq<Text>) {
    forall i, j | 0 <= i < j < |accounts| :: accounts[i] != accounts[j]
  }

  /** No mark without a decision behind it. */
  ghost predicate Backed(t: Tables) {
    forall key | key in t.marks :: Latest(t.log, key).Some?
  }

  /** The database connection: a working state, and what has been committed so far. */
  class DecisionStore {
    var working: Tables
    var commits: seq<Tables>

    constructor (t: Tables)
      ensures working == t && commits == [t]
    {
      working, commits := t, [t];
    }

    method Commit()
      modifies this`commits
      ensures commits == old(commits) + [working]
    {
      commits := commits + [working];
    }

    ghost predicate Committed()
      reads this
    {
      commits != [] && commits[|commits| - 1] == working
    }

    ghost predicate AllBacked()
      reads this
    {
      Backed(working) && forall i | 0 <= i < |commits| :: Backed(commits[i])
    }

    /** One account's rows: the local copy of its fingerprints and the counters the source keeps. */
    method RefreshAccount(s: Setting, account: Text, commitLimit: int, pending0: nat) returns (rescored: nat, pending: nat)
      requires commitLimit >= 1 && Distinct(s.rows)
      requires AllBacked() && commits != []
      requires pending0 == 0 ==> Committed()
      modifies this
      ensures Work(working, rescored) == AfterRows(s, old(working), account, s.rows)
      ensures AllBacked() && commits != [] && (pending == 0 ==> Committed())
    {
      hide Latest, IsSeedable, IsFresh;
      ghost var t := working;
      var latest := working.log;
      rescored, pending := 0, pending0;
      for i := 0 to |s.rows|
        invariant Work(working, rescored) == AfterRows(s, t, account, s.rows[..i])
        invariant AllBacked() && commits != [] && (pending == 0 ==> Committed())
      {
        var r := s.rows[i];
        assert s.rows[..i + 1][..i] == s.rows[..i];
        RowKeepsBacking(s, Work(working, rescored), account, r);
        RowsTouchThemselves(s, t, account, s.rows[..i], KeyOf(account, r));
        SnapshotIsCurrent(s, t, working, account, r);
        if !Named(r) || IsFresh(s, working, account, r) {
          continue;
        }
        if IsSeedable(s, working.(log := latest), account, r) {
          working := Mark(s, working, account, r);
          pending := pending + 1;
          if pending >= commitLimit {
            Commit();
            pending := 0;
          }
          continue;
        }
        if rescored >= s.RefreshLimit() {
          continue;
        }
        working := Decide(s, working, account, r);
        working := Mark(s, working, account, r);
        rescored := rescored + 1;
        pending := pending + 2;
        if pending >= commitLimit {
          Commit();
          pending := 0;
        }
      }
      assert s.rows[..|s.rows|] == s.rows;
    }

    /** A whole call: at return everything is committed, and no commit on the way, nor a crash
        after it, leaves a mark without its decision. */
    method RecordAccountDecisions(s: Setting, accounts: seq<Text>, finished: bool, commitChunk: int) returns (recorded: nat)
      requires Distinct(s.rows) && AllBacked() && Committed()
      modifies this
      ensures if finished then Work(working, recorded) == AfterAccounts(s, old(working), accounts)
              else recorded == 0 && working == old(working)
      ensures AllBacked() && Committed()
    {
      hide AfterRows, Backed;
      recorded := 0;
      if !finished {
        return;
      }
      var pending, commitLimit := 0, Max(1, commitChunk);
      for i := 0 to |accounts|
        invariant Work(working, recorded) == AfterAccounts(s, old(working), accounts[..i])
        invariant AllBacked() && commits != [] && (pending == 0 ==> Committed())
      {
        assert accounts[..i + 1][..i] == accounts[..i];
        if accounts[i] == 0 {
          continue;
        }
        var rescored;
        rescored, pending := RefreshAccount(s, accounts[i], commitLimit, pending);
        recorded := recorded + rescored;
      }
      assert accounts[..|accounts|] == accounts;
      if pending > 0 {
        Commit();
      }
    }
  }

  /** The decisions read before the loop still say what the log says about a row not yet reached. */
  lemma SnapshotIsCurrent(s: Setting, t: Tables, u: Tables, account: Text, r: Row)
    requires SameAt(t, u, KeyOf(account, r))
    ensures IsSeedable(s, u.(log := t.log), account, r) <==> IsSeedable(s, u, account, r)
  {
  }

  lemma RowKeepsBacking(s: Setting, w: Work, account: Text, r: Row)
    requires Backed(w.tables)
    ensures Backed(AfterRow(s, w, account, r).tables)
  {
    var after := AfterRow(s, w, account, r);
    forall key | key in after.tables.marks ensures Latest(after.tables.log, key).Some? {
      Appended(w.tables.log, (KeyOf(account, r), s.Score(account, r)), key);
    }
  }

  lemma Appended(log: seq<(Key, Decision)>, entry: (Key, Decision), key: Key)
    ensures Latest(log + [entry], key) == if entry.0 == key then Some(entry.1) else Latest(log, key)
  {
    assert (log + [entry])[..|log|] == log;
  }

  // ---- one account's rows ---------------------------------------------------------------------------

  /** What a row's status and decision depend on. */
  ghost predicate SameAt(t: Tables, u: Tables, key: Key) {
    && (key in t.marks <==> key in u.marks)
    && (key in t.marks ==> t.marks[key] == u.marks[key])
    && Latest(t.log, key) == Latest(u.log, key)
  }

  lemma SameStatus(s: Setting, t: Tables, u: Tables, account: Text, r: Row)
    requires SameAt(t, u, KeyOf(account, r))
    ensures IsFresh(s, t, account, r) <==> IsFresh(s, u, account, r)
    ensures IsSeedable(s, t, account, r) <==> IsSeedable(s, u, account, r)
    ensures IsStale(s, t, account, r) <==> IsStale(s, u, account, r)
  {
  }

  lemma RowTouchesItself(s: Setting, w: Work, account: Text, r: Row, key: Key)
    requires key != KeyOf(account, r)
    ensures SameAt(w.tables, AfterRow(s, w, account, r).tables, key)
  {
    Appended(w.tables.log, (KeyOf(account, r), s.Score(account, r)), key);
  }

  lemma {:induction false} RowsTouchThemselves(s: Setting, t: Tables, account: Text, rows: seq<Row>, key: Key)
    requires forall i | 0 <= i < |rows| :: KeyOf(account, rows[i]) != key
    ensures SameAt(t, AfterRows(s, t, account, rows).tables, key)
  {
    if rows != [] {
      var init, r := rows[..|rows| - 1], rows[|rows| - 1];
      RowsTouchThemselves(s, t, account, init, key);
      RowTouchesItself(s, AfterRows(s, t, account, init), account, r, key);
      hide AfterRow, Latest;
    }
  }

  function StaleCount(s: Setting, t: Tables, account: Text, rows: seq<Row>): nat {
    if rows == [] then 0
    else StaleCount(s, t, account, rows[..|rows| - 1]) + if IsStale(s, t, account, rows[|rows| - 1]) then 1 else 0
  }

  lemma {:induction false} StaleCountIsLocal(s: Setting, t: Tables, u: Tables, account: Text, rows: seq<Row>)
    requires forall i | 0 <= i < |rows| :: SameAt(t, u, KeyOf(account, rows[i]))
    ensures StaleCount(s, t, account, rows) == StaleCount(s, u, account, rows)
  {
    if rows != [] {
      StaleCountIsLocal(s, t, u, account, rows[..|rows| - 1]);
      SameStatus(s, t, u, account, rows[|rows| - 1]);
    }
  }

  /** What becomes of a row: nothing while it is fresh, a mark and no new decision when it can be
      seeded, a mark and its direct evaluation while the budget lasts, nothing beyond it. */
  ghost predicate Fate(s: Setting, t: Tables, u: Tables, account: Text, r: Row, rank: nat) {
    var key := KeyOf(account, r);
    if !Named(r) || IsFresh(s, t, account, r) then SameAt(t, u, key)
    else if IsSeedable(s, t, account, r) then IsFresh(s, u, account, r) && Latest(u.log, key) == Latest(t.log, key)
    else if rank < s.RefreshLimit() then IsFresh(s, u, account, r) && Latest(u.log, key) == Some(s.Score(account, r))
    else SameAt(t, u, key)
  }

  /** The budget is spent on the first stale rows, and on nothing else. */
  lemma {:induction false} BudgetGoesToTheFirstStale(s: Setting, t: Tables, account: Text, rows: seq<Row>)
    requires Distinct(rows)
    ensures AfterRows(s, t, account, rows).rescored == Min(s.RefreshLimit(), StaleCount(s, t, account, rows))
    ensures |AfterRows(s, t, account, rows).tables.log| == |t.log| + AfterRows(s, t, account, rows).rescored
  {
    if rows != [] {
      var init, r := rows[..|rows| - 1], rows[|rows| - 1];
      BudgetGoesToTheFirstStale(s, t, account, init);
      RowsTouchThemselves(s, t, account, init, KeyOf(account, r));
      SameStatus(s, t, AfterRows(s, t, account, init).tables, account, r);
      hide IsFresh, IsSeedable, SameAt, Latest;
    }
  }

  /** The exact outcome of a call for each row of an account. */
  lemma {:induction false} EveryRowsFate(s: Setting, t: Tables, account: Text, rows: seq<Row>, i: nat)
    requires Distinct(rows) && i < |rows|
    ensures Fate(s, t, AfterRows(s, t, account, rows).tables, account, rows[i], StaleCount(s, t, account, rows[..i]))
  {
    var init, r := rows[..|rows| - 1], rows[|rows| - 1];
    var w := AfterRows(s, t, account, init);
    if i < |rows| - 1 {
      EveryRowsFate(s, t, account, init, i);
      assert init[..i] == rows[..i];
      RowTouchesItself(s, w, account, r, KeyOf(account, rows[i]));
      var rank := StaleCount(s, t, account, rows[..i]);
      hide AfterRow, AfterRows, StaleCount;
      FateCarries(s, t, w.tables, AfterRow(s, w, account, r).tables, account, rows[i], rank);
    } else {
      RowsTouchThemselves(s, t, account, init, KeyOf(account, r));
      BudgetGoesToTheFirstStale(s, t, account, init);
      FateOfTheLast(s, t, w, account, r, StaleCount(s, t, account, init));
    }
  }

  lemma FateCarries(s: Setting, t: Tables, u: Tables, v: Tables, account: Text, r: Row, rank: nat)
    requires Fate(s, t, u, account, r, rank) && SameAt(u, v, KeyOf(account, r))
    ensures Fate(s, t, v, account, r, rank)
  {
    hide Latest, IsSeedable;
  }

  lemma FateOfTheLast(s: Setting, t: Tables, w: Work, account: Text, r: Row, rank: nat)
    requires SameAt(t, w.tables, KeyOf(account, r)) && w.rescored == Min(s.RefreshLimit(), rank)
    ensures Fate(s, t, AfterRow(s, w, account, r).tables, account, r, rank)
  {
    SameStatus(s, t, w.tables, account, r);
    Appended(w.tables.log, (KeyOf(account, r), s.Score(account, r)), KeyOf(account, r));
    hide Latest, IsSeedable;
  }

  // ---- all accounts -----------------------------------------------------------------------------------

  lemma {:induction false} AccountsTouchThemselves(s: Setting, t: Tables, accounts: seq<Text>, key: Key)
    requires key.0 !in accounts
    ensures SameAt(t, AfterAccounts(s, t, accounts).tables, key)
  {
    if accounts != [] {
      var init, account := accounts[..|accounts| - 1], accounts[|accounts| - 1];
      AccountsTouchThemselves(s, t, init, key);
      var before := AfterAccounts(s, t, init).tables;
      hide AfterRows, Latest;
      assert account in accounts;
      RowsTouchThemselves(s, before, account, s.rows, key);
    }
  }

  /** The exact outcome of a whole call, for every row of every account. */
  lemma {:induction false} CallFate(s: Setting, t: Tables, accounts: seq<Text>, a: nat, i: nat)
    requires Distinct(s.rows) && DistinctTexts(accounts) && a < |accounts| && accounts[a] != 0 && i < |s.rows|
    ensures Fate(s, t, AfterAccounts(s, t, accounts).tables, accounts[a], s.rows[i],
                 StaleCount(s, t, accounts[a], s.rows[..i]))
  {
    var init, account := accounts[..|accounts| - 1], accounts[|accounts| - 1];
    var before, r := AfterAccounts(s, t, init).tables, s.rows[i];
    var rank := StaleCount(s, t, accounts[a], s.rows[..i]);
    if a < |accounts| - 1 {
      CallFate(s, t, init, a, i);
      hide AfterRows, StaleCount, Fate;
      if account != 0 {
        RowsTouchThemselves(s, before, account, s.rows, KeyOf(accounts[a], r));
        FateCarries(s, t, before, AfterRows(s, before, account, s.rows).tables, accounts[a], r, rank);
      }
    } else {
      forall j | 0 <= j < |s.rows| ensures SameAt(t, before, KeyOf(account, s.rows[j])) {
        AccountsTouchThemselves(s, t, init, KeyOf(account, s.rows[j]));
      }
      StaleCountIsLocal(s, t, before, account, s.rows[..i]);
      EveryRowsFate(s, before, account, s.rows, i);
      hide AfterRows, StaleCount;
      FateFrom(s, t, before, AfterRows(s, before, account, s.rows).tables, account, r, rank);
    }
  }

  lemma FateFrom(s: Setting, t: Tables, t': Tables, u: Tables, account: Text, r: Row, rank: nat)
    requires SameAt(t, t', KeyOf(account, r)) && Fate(s, t', u, account, r, rank)
    ensures Fate(s, t, u, account, r, rank)
  {
    SameStatus(s, t, t', account, r);
    hide IsSeedable, Latest;
  }

  lemma StaleAfterFate(s: Setting, t: Tables, u: Tables, account: Text, r: Row, rank: nat)
    requires Fate(s, t, u, account, r, rank)
    ensures IsStale(s, u, account, r) <==> IsStale(s, t, account, r) && rank >= s.RefreshLimit()
    ensures Named(r) && !IsStale(s, u, account, r) ==> IsFresh(s, u, account, r)
  {
    if SameAt(t, u, KeyOf(account, r)) {
      SameStatus(s, t, u, account, r);
    }
    hide Latest;
  }

  /** Each call makes exactly the limit's worth of an account's stale rows fresh, or all of them. */
  lemma {:induction false} CallLeavesStale(s: Setting, t: Tables, accounts: seq<Text>, a: nat, n: nat)
    requires Distinct(s.rows) && DistinctTexts(accounts) && a < |accounts| && accounts[a] != 0 && n <= |s.rows|
    ensures var before := StaleCount(s, t, accounts[a], s.rows[..n]);
            StaleCount(s, AfterAccounts(s, t, accounts).tables, accounts[a], s.rows[..n])
            == before - Min(s.RefreshLimit(), before)
  {
    if n > 0 {
      CallLeavesStale(s, t, accounts, a, n - 1);
      CallFate(s, t, accounts, a, n - 1);
      assert s.rows[..n][..n - 1] == s.rows[..n - 1];
      var u := AfterAccounts(s, t, accounts).tables;
      hide AfterAccounts;
      StaleAfterFate(s, t, u, accounts[a], s.rows[n - 1], StaleCount(s, t, accounts[a], s.rows[..n - 1]));
      hide IsStale, Fate;
    }
  }

  // ---- a sequence of calls ----------------------------------------------------------------------------

  function AfterCalls(s: Setting, t: Tables, accounts: seq<Text>, calls: nat): Tables {
    if calls == 0 then t else AfterAccounts(s, AfterCalls(s, t, accounts, calls - 1), accounts).tables
  }

  lemma {:induction false} StaleAfterCalls(s: Setting, t: Tables, accounts: seq<Text>, a: nat, calls: nat)
    requires Distinct(s.rows) && DistinctTexts(accounts) && a < |accounts| && accounts[a] != 0
    ensures StaleCount(s, AfterCalls(s, t, accounts, calls), accounts[a], s.rows)
         == Max(0, StaleCount(s, t, accounts[a], s.rows) - calls * s.RefreshLimit())
  {
    if calls > 0 {
      StaleAfterCalls(s, t, accounts, a, calls - 1);
      CallLeavesStale(s, AfterCalls(s, t, accounts, calls - 1), accounts, a, |s.rows|);
      assert s.rows[..|s.rows|] == s.rows;
      hide StaleCount, AfterAccounts;
      assert calls * s.RefreshLimit() == (calls - 1) * s.RefreshLimit() + s.RefreshLimit();
    }
  }

  /** Where a row can stand after some calls, given where it stood before them. */
  ghost predicate Progressed(s: Setting, t: Tables, u: Tables, account: Text, r: Row, calls: nat) {
    var key := KeyOf(account, r);
    if !Named(r) || IsFresh(s, t, account, r) then SameAt(t, u, key)
    else if IsSeedable(s, t, account, r) then
      if calls == 0 then SameAt(t, u, key) else IsFresh(s, u, account, r) && Latest(u.log, key) == Latest(t.log, key)
    else SameAt(t, u, key) || (IsFresh(s, u, account, r) && Latest(u.log, key) == Some(s.Score(account, r)))
  }

  lemma ProgressByFate(s: Setting, t: Tables, u: Tables, v: Tables, account: Text, r: Row, calls: nat, rank: nat)
    requires Progressed(s, t, u, account, r, calls) && Fate(s, u, v, account, r, rank)
    ensures Progressed(s, t, v, account, r, calls + 1)
  {
    if SameAt(t, u, KeyOf(account, r)) {
      SameStatus(s, t, u, account, r);
    }
    hide Latest, IsSeedable;
  }

  lemma {:induction false} RowOverCalls(s: Setting, t: Tables, accounts: seq<Text>, a: nat, i: nat, calls: nat)
    requires Distinct(s.rows) && DistinctTexts(accounts) && a < |accounts| && accounts[a] != 0 && i < |s.rows|
    ensures Progressed(s, t, AfterCalls(s, t, accounts, calls), accounts[a], s.rows[i], calls)
  {
    if calls > 0 {
      var before := AfterCalls(s, t, accounts, calls - 1);
      RowOverCalls(s, t, accounts, a, i, calls - 1);
      CallFate(s, before, accounts, a, i);
      hide Progressed, Fate, AfterAccounts, StaleCount;
      ProgressByFate(s, t, before, AfterCalls(s, t, accounts, calls), accounts[a], s.rows[i], calls - 1,
                     StaleCount(s, before, accounts[a], s.rows[..i]));
    }
  }

  lemma {:induction false} NoneStale(s: Setting, t: Tables, account: Text, rows: seq<Row>, i: nat)
    requires i < |rows| && StaleCount(s, t, account, rows) == 0
    ensures !IsStale(s, t, account, rows[i])
  {
    if i < |rows| - 1 {
      NoneStale(s, t, account, rows[..|rows| - 1], i);
    }
  }

  /** Convergence: once the calls cover the stale rows at the limit per call, every row of the
      account is fresh, a row that was stale has its direct evaluation as its latest decision, and
      every other row has the decision it had. */
  lemma CacheConverges(s: Setting, t: Tables, accounts: seq<Text>, a: nat, i: nat, calls: nat)
    requires Distinct(s.rows) && DistinctTexts(accounts) && a < |accounts| && accounts[a] != 0 && i < |s.rows|
    requires Named(s.rows[i]) && calls >= 1
    requires calls * s.RefreshLimit() >= StaleCount(s, t, accounts[a], s.rows)
    ensures
      var u, r, key := AfterCalls(s, t, accounts, calls), s.rows[i], KeyOf(accounts[a], s.rows[i]);
      && IsFresh(s, u, accounts[a], r)
      && Latest(u.log, key) == if IsStale(s, t, accounts[a], r) then Some(s.Score(accounts[a], r)) else Latest(t.log, key)
  {
    var u := AfterCalls(s, t, accounts, calls);
    StaleAfterCalls(s, t, accounts, a, calls);
    RowOverCalls(s, t, accounts, a, i, calls);
    NoneStale(s, u, accounts[a], s.rows, i);
    hide AfterCalls, StaleCount;
    if SameAt(t, u, KeyOf(accounts[a], s.rows[i])) {
      SameStatus(s, t, u, accounts[a], s.rows[i]);
    }
    hide Latest;
  }

  ghost predicate AllFresh(s: Setting, t: Tables, account: Text) {
    forall i | 0 <= i < |s.rows| :: Named(s.rows[i]) ==> IsFresh(s, t, account, s.rows[i])
  }

  lemma {:induction false} FreshRowsAreQuiet(s: Setting, t: Tables, account: Text, rows: seq<Row>)
    requires forall i | 0 <= i < |rows| :: Named(rows[i]) ==> IsFresh(s, t, account, rows[i])
    ensures AfterRows(s, t, account, rows) == Work(t, 0)
  {
    if rows != [] {
      FreshRowsAreQuiet(s, t, account, rows[..|rows| - 1]);
    }
  }

  lemma {:induction false} FreshAccountsAreQuiet(s: Setting, t: Tables, accounts: seq<Text>)
    requires forall a | 0 <= a < |accounts| :: accounts[a] != 0 ==> AllFresh(s, t, accounts[a])
    ensures AfterAccounts(s, t, accounts) == Work(t, 0)
  {
    if accounts != [] {
      FreshAccountsAreQuiet(s, t, accounts[..|accounts| - 1]);
      var account := accounts[|accounts| - 1];
      if account != 0 {
        assert AllFresh(s, t, account);
        FreshRowsAreQuiet(s, t, account, s.rows);
      }
    }
  }

  /** A call writes nothing exactly when every row of every account is fresh. */
  lemma QuietExactlyWhenFresh(s: Setting, t: Tables, accounts: seq<Text>)
    requires Distinct(s.rows) && DistinctTexts(accounts)
    ensures AfterAccounts(s, t, accounts).tables == t
       <==> forall a | 0 <= a < |accounts| :: accounts[a] != 0 ==> AllFresh(s, t, accounts[a])
  {
    if AfterAccounts(s, t, accounts).tables == t {
      forall a: nat | a < |accounts| && accounts[a] != 0 ensures AllFresh(s, t, accounts[a]) {
        forall i: nat | i < |s.rows| && Named(s.rows[i]) ensures IsFresh(s, t, accounts[a], s.rows[i]) {
          CallLeavesStale(s, t, accounts, a, |s.rows|);
          assert s.rows[..|s.rows|] == s.rows;
          NoneStale(s, t, accounts[a], s.rows, i);
          CallFate(s, t, accounts, a, i);
          hide AfterAccounts, StaleCount, Latest;
        }
      }
    } else if forall a | 0 <= a < |accounts| :: accounts[a] != 0 ==> AllFresh(s, t, accounts[a]) {
      FreshAccountsAreQuiet(s, t, accounts);
    }
  }

  /** What a converged row shows is the direct evaluation exactly when it was stale, or when the
      decision that was taken over from before already agreed with it. */
  lemma LatestIsDirectExactly(s: Setting, t: Tables, accounts: seq<Text>, a: nat, i: nat, calls: nat)
    requires Distinct(s.rows) && DistinctTexts(accounts) && a < |accounts| && accounts[a] != 0 && i < |s.rows|
    requires Named(s.rows[i]) && calls >= 1
    requires calls * s.RefreshLimit() >= StaleCount(s, t, accounts[a], s.rows)
    ensures
      var u, r, key := AfterCalls(s, t, accounts, calls), s.rows[i], KeyOf(accounts[a], s.rows[i]);
      var direct := s.evaluate(r.material, s.profile(accounts[a]));
      (Latest(u.log, key).Some? && Latest(u.log, key).value.outcome == direct)
      <==> IsStale(s, t, accounts[a], r) || (Latest(t.log, key).Some? && Latest(t.log, key).value.outcome == direct)
  {
    CacheConverges(s, t, accounts, a, i, calls);
    hide AfterCalls, StaleCount, Latest, IsStale;
  }

  /** The migration shortcut can keep an outdated decision for good: an opportunity edited between
      its decision and the first fingerprint is marked as evaluated without being evaluated. */
  lemma SeedingCanKeepAnOutdatedDecision()
    ensures
      var s := Setting([Row(1, 1, 8)], x => 0, x => 0, 5, 6, 100, (m: int, p: int) => m, 10);
      var t := Tables(map[], [((3, 1, 1), Decision(7, 9, 5))]);
      forall calls: nat | calls >= 1 ::
        Latest(AfterCalls(s, t, [3], calls).log, (3, 1, 1)) == Some(Decision(7, 9, 5)) && s.evaluate(8, 0) != 7
  {
    var s := Setting([Row(1, 1, 8)], x => 0, x => 0, 5, 6, 100, (m: int, p: int) => m, 10);
    var t := Tables(map[], [((3, 1, 1), Decision(7, 9, 5))]);
    var r := s.rows[0];
    assert Latest(t.log, (3, 1, 1)) == Some(Decision(7, 9, 5));
    assert IsSeedable(s, t, 3, r);
    assert s.rows[..0] == [];
    assert StaleCount(s, t, 3, s.rows[..0]) == 0 && StaleCount(s, t, 3, s.rows) == 0;
    forall calls: nat | calls >= 1
      ensures Latest(AfterCalls(s, t, [3], calls).log, (3, 1, 1)) == Some(Decision(7, 9, 5))
    {
      assert calls * s.RefreshLimit() >= 0;
      CacheConverges(s, t, [3], 0, 0, calls);
    }
  }

  // ---- calls under changing rows, profiles and rules --------------------------------------------------

  datatype Call = Call(setting: Setting, accounts: seq<Text>)

  function AfterHistory(t: Tables, history: seq<Call>): Tables {
    if history == [] then t
    else
      var call := history[|history| - 1];
      AfterAccounts(call.setting, AfterHistory(t, history[..|history| - 1]), call.accounts).tables
  }

  /** The versions in a fingerprint change whenever the scoring does: one function of the whole
      fingerprint gives every score of every call. */
  ghost predicate ScoredBy(s: Setting, score: Fingerprint -> int) {
    forall material, profile :: s.evaluate(material, profile) == score(Fingerprint(material, profile, s.matcher, s.rule))
  }

  ghost predicate AllScoredBy(history: seq<Call>, score: Fingerprint -> int) {
    forall i | 0 <= i < |history| :: ScoredBy(history[i].setting, score)
  }

  /** The newest decision on a marked key is the score of its mark, and an unmarked key has none. */
  ghost predicate Honest(t: Tables, key: Key, score: Fingerprint -> int) {
    var newest := Latest(t.log, key);
    if key in t.marks then newest.Some? && newest.value.outcome == score(t.marks[key]) else newest.None?
  }

  /** What one row does to the honesty of a key: keeps it, and otherwise keeps the newest decision
      until it restores it. */
  ghost predicate NoLessHonest(t: Tables, u: Tables, key: Key, score: Fingerprint -> int) {
    && (Honest(t, key, score) ==> Honest(u, key, score))
    && (Honest(u, key, score) || Latest(u.log, key) == Latest(t.log, key))
  }

  lemma RowKeepsHonesty(s: Setting, w: Work, account: Text, r: Row, key: Key, score: Fingerprint -> int)
    requires ScoredBy(s, score)
    ensures NoLessHonest(w.tables, AfterRow(s, w, account, r).tables, key, score)
  {
    var t, own := w.tables, KeyOf(account, r);
    Appended(t.log, (own, s.Score(account, r)), key);
    if key == own && Named(r) && !IsFresh(s, t, account, r) && !IsSeedable(s, t, account, r) && w.rescored < s.RefreshLimit() {
      var u := Mark(s, Decide(s, t, account, r), account, r);
      assert u.marks[key] == s.FingerprintOf(account, r);
      assert Latest(u.log, key) == Some(s.Score(account, r));
    }
    hide Latest;
  }

  lemma HonestyTwice(t: Tables, u: Tables, v: Tables, key: Key, score: Fingerprint -> int)
    requires NoLessHonest(t, u, key, score) && NoLessHonest(u, v, key, score)
    ensures NoLessHonest(t, v, key, score)
  {
    hide Honest, Latest;
  }

  lemma {:induction false} RowsKeepHonesty(s: Setting, t: Tables, account: Text, rows: seq<Row>, key: Key, score: Fingerprint -> int)
    requires ScoredBy(s, score)
    ensures NoLessHonest(t, AfterRows(s, t, account, rows).tables, key, score)
  {
    if rows != [] {
      var init, r := rows[..|rows| - 1], rows[|rows| - 1];
      RowsKeepHonesty(s, t, account, init, key, score);
      var w := AfterRows(s, t, account, init);
      hide AfterRow, NoLessHonest, ScoredBy;
      RowKeepsHonesty(s, w, account, r, key, score);
      HonestyTwice(t, w.tables, AfterRow(s, w, account, r).tables, key, score);
    }
  }

  lemma {:induction false} CallKeepsHonesty(s: Setting, t: Tables, accounts: seq<Text>, key: Key, score: Fingerprint -> int)
    requires ScoredBy(s, score)
    ensures NoLessHonest(t, AfterAccounts(s, t, accounts).tables, key, score)
  {
    if accounts != [] {
      var init, account := accounts[..|accounts| - 1], accounts[|accounts| - 1];
      CallKeepsHonesty(s, t, init, key, score);
      hide AfterRows, NoLessHonest, ScoredBy;
      if account != 0 {
        var before := AfterAccounts(s, t, init).tables;
        RowsKeepHonesty(s, before, account, s.rows, key, score);
        HonestyTwice(t, before, AfterRows(s, before, account, s.rows).tables, key, score);
      }
    }
  }

  lemma {:induction false} HistoryKeepsHonesty(t: Tables, history: seq<Call>, key: Key, score: Fingerprint -> int)
    requires AllScoredBy(history, score)
    ensures NoLessHonest(t, AfterHistory(t, history), key, score)
  {
    if history != [] {
      var init, call := history[..|history| - 1], history[|history| - 1];
      HistoryKeepsHonesty(t, init, key, score);
      var before := AfterHistory(t, init);
      hide AfterAccounts, NoLessHonest, ScoredBy;
      CallKeepsHonesty(call.setting, before, call.accounts, key, score);
      HonestyTwice(t, before, AfterAccounts(call.setting, before, call.accounts).tables, key, score);
    }
  }

  /** Fresh means up to date: over any sequence of calls with changing rows, profiles, rules and
      limits, an honest key stays honest, so whenever its row is fresh the newest decision is the
      direct evaluation of the row under the profile of that moment. */
  lemma FreshMeansUpToDate(t: Tables, history: seq<Call>, s: Setting, account: Text, r: Row, score: Fingerprint -> int)
    requires AllScoredBy(history, score) && ScoredBy(s, score)
    requires Honest(t, KeyOf(account, r), score)
    ensures var u, key := AfterHistory(t, history), KeyOf(account, r);
            && Honest(u, key, score)
            && (IsFresh(s, u, account, r) ==>
                  Latest(u.log, key).Some? && Latest(u.log, key).value.outcome == s.evaluate(r.material, s.profile(account)))
  {
    hide AfterHistory;
    HistoryKeepsHonesty(t, history, KeyOf(account, r), score);
  }

  /** A decision taken over from before the marks stays the newest one until the key is scored
      again, and from then on the key is honest. */
  lemma TakenOverUntilScored(t: Tables, history: seq<Call>, key: Key, score: Fingerprint -> int)
    requires AllScoredBy(history, score)
    ensures var u := AfterHistory(t, history);
            Latest(u.log, key) == Latest(t.log, key) || Honest(u, key, score)
  {
    hide AfterHistory, Honest, Latest;
    HistoryKeepsHonesty(t, history, key, score);
  }
}
