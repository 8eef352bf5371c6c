/** How old a key can be when the verifier returns it, measured at the last clock reading that the
    answering thread made.  The times of a key set are stored one step after the set itself, and the
    lock-free fast path reads the set and its expiry at different moments, so the age checks hold
    with exactly two exceptions. */
module JwtKeyAge {
  import opened Common
  import opened JwtKeyCache

  /** A state with what it does not remember itself: the instants at which the times of the key sets
      were stored, by the number of their refresh; the newest set so dated; and for each thread the
      expiry that stood when it read the keys, or None if their times were not stored yet. */
  datatype Dated = Dated(s: State, times: map<nat, int>, newest: Option<nat>, met: map<Thread, Option<int>>)

  predicate Storing(s: State) {
    s.v.lock.Some? && PcOf(s, s.v.lock.value).KeysStored?
  }

  function DoDated(c: Config, d: Dated, a: Action): Dated {
    var after := Do(c, d.s, a);
    if a.StoreTimes? && PcOf(d.s, a.t).KeysStored? then
      var version := PcOf(d.s, a.t).keys.version;
      Dated(after, d.times[version := d.s.clock], Some(version), d.met)
    else if a.ReadKeys? && PcOf(d.s, a.t).Timed? then
      Dated(after, d.times, d.newest, d.met[a.t := if Storing(d.s) then None else Some(d.s.v.expiresAt)])
    else Dated(after, d.times, d.newest, d.met)
  }

  function RunDated(c: Config, d: Dated, actions: seq<Action>): Dated {
    if actions == [] then d
    else DoDated(c, RunDated(c, d, actions[..|actions| - 1]), actions[|actions| - 1])
  }

  /** The verifier as constructed: a bootstrap key set is dated by its construction. */
  function Fresh(s: State): Dated {
    if s.v.keys.Some? then
      Dated(s, map[s.v.keys.value.version := s.v.fetchedAt], Some(s.v.keys.value.version), map[])
    else Dated(s, map[], None, map[])
  }

  ghost predicate Constructed(c: Config, s: State) {
    Initial(c, s) && (s.v.keys.Some? ==> s.v.expiresAt == s.v.fetchedAt + c.cacheSeconds)
  }

  /** The dates are only an observation: the run is the run of the verifier. */
  lemma {:induction false} SameRun(c: Config, d: Dated, actions: seq<Action>)
    ensures RunDated(c, d, actions).s == Run(c, d.s, actions)
  {
    hide Do;
    if actions != [] {
      SameRun(c, d, actions[..|actions| - 1]);
    }
  }

  // ---- the invariant ----------------------------------------------------------------------------

  function VersionOf(keys: Option<Keys>): int {
    if keys.Some? then keys.value.version else -1
  }

  function NewestOf(d: Dated): int {
    if d.newest.Some? then d.newest.value else -1
  }

  /** The stored times are those of the newest dated set; only while a refresh is between storing
      its keys and their times is the current set newer than that. */
  ghost predicate DatesOfSets(c: Config, d: Dated) {
    && (forall version | version in d.times :: version <= NewestOf(d))
    && (d.newest.Some? ==> d.newest.value in d.times && d.s.v.fetchedAt == d.times[d.newest.value]
                           && d.s.v.expiresAt == d.s.v.fetchedAt + c.cacheSeconds)
    && NewestOf(d) <= VersionOf(d.s.v.keys) <= d.s.successes
    && (Storing(d.s) <==> NewestOf(d) < VersionOf(d.s.v.keys))
  }

  ghost predicate Dates(c: Config, d: Dated) {
    DatesOfSets(c, d) && forall t: Thread :: DatedPc(c, d, t)
  }

  ghost predicate DatedPc(c: Config, d: Dated, t: Thread) {
    match PcOf(d.s, t)
    case Timed(_, now) => now <= d.s.clock
    case SawKeys(_, now, seen) => now <= d.s.clock && (seen.Some? ==> Seen(c, d, t, now, seen.value))
    case SawGeneration(_, now, seen, _) => now <= d.s.clock && (seen.Some? ==> Seen(c, d, t, now, seen.value))
    case Fetching(_, before) => before == d.s.v.keys
    case KeysStored(_, keys) => d.s.v.keys == Some(keys)
    case TimesStored(_, keys) => d.s.v.keys == Some(keys)
    case _ => true
  }

  /** The expiry a thread met dates the keys it read; if it met none, they were fetched after its
      clock reading. */
  ghost predicate Seen(c: Config, d: Dated, t: Thread, now: int, keys: Keys) {
    && t in d.met
    && match d.met[t]
       case None => keys.version in d.times ==> now <= d.times[keys.version]
       case Some(expiry) => keys.version in d.times && d.times[keys.version] + c.cacheSeconds == expiry
  }

  lemma DatesStay(c: Config, d: Dated, a: Action)
    requires Exclusive(d.s) && Dates(c, d)
    ensures Dates(c, DoDated(c, d, a))
  {
    SetDatesStay(c, d, a);
    hide DoDated, DatedPc, DatesOfSets, Exclusive;
    forall t: Thread ensures DatedPc(c, DoDated(c, d, a), t) {
      PcStaysDated(c, d, a, t);
    }
  }

  lemma PcStaysDated(c: Config, d: Dated, a: Action, t: Thread)
    requires Exclusive(d.s) && Dates(c, d)
    ensures DatedPc(c, DoDated(c, d, a), t)
  {
    var actor := if a.Tick? then 0 else a.t;
    assert DatedPc(c, d, t) && DatedPc(c, d, actor);
    assert UnderLock(PcOf(d.s, t)) <==> d.s.v.lock == Some(t);
    assert UnderLock(PcOf(d.s, actor)) <==> d.s.v.lock == Some(actor);
    hide Exclusive, DatedPc, DatesOfSets, DoDated;
    if a.Tick? || a.t != t {
      OtherStaysDated(c, d, a, t);
    } else {
      ActorStaysDated(c, d, a, t);
    }
  }

  lemma OtherStaysDated(c: Config, d: Dated, a: Action, t: Thread)
    requires a.Tick? || (a.t != t && DatedPc(c, d, a.t))
    requires UnderLock(PcOf(d.s, t)) <==> d.s.v.lock == Some(t)
    requires !a.Tick? ==> (UnderLock(PcOf(d.s, a.t)) <==> d.s.v.lock == Some(a.t))
    requires DatedPc(c, d, t) && DatesOfSets(c, d)
    ensures DatedPc(c, DoDated(c, d, a), t)
  {
  }

  lemma ActorStaysDated(c: Config, d: Dated, a: Action, t: Thread)
    requires !a.Tick? && a.t == t && DatedPc(c, d, t) && DatesOfSets(c, d)
    ensures DatedPc(c, DoDated(c, d, a), t)
  {
  }

  lemma SetDatesStay(c: Config, d: Dated, a: Action)
    requires Exclusive(d.s) && Dates(c, d)
    ensures DatesOfSets(c, DoDated(c, d, a))
  {
    var actor := if a.Tick? then 0 else a.t;
    assert DatedPc(c, d, actor);
    assert UnderLock(PcOf(d.s, actor)) <==> d.s.v.lock == Some(actor);
  }

  lemma {:induction false} DatesHold(c: Config, s: State, actions: seq<Action>)
    requires Constructed(c, s)
    ensures Exclusive(RunDated(c, Fresh(s), actions).s) && Dates(c, RunDated(c, Fresh(s), actions))
  {
    if actions != [] {
      var init, a := actions[..|actions| - 1], actions[|actions| - 1];
      DatesHold(c, s, init);
      hide Exclusive, Dates, DoDated;
      var before := RunDated(c, Fresh(s), init);
      DatesStay(c, before, a);
      ExclusiveAfter(c, before, a);
    }
  }

  lemma ExclusiveAfter(c: Config, d: Dated, a: Action)
    requires Exclusive(d.s)
    ensures Exclusive(DoDated(c, d, a).s)
  {
    ExclusiveStays(c, d.s, a);
    hide Exclusive, Do;
  }

  // ---- the age of an answer --------------------------------------------------------------------------

  /** The key set was fetched at least `bound` before the instant; one whose times are not stored yet
      has just been fetched. */
  predicate AtLeast(d: Dated, keys: Keys, now: int, bound: int) {
    keys.version in d.times && now - d.times[keys.version] >= bound
  }

  /** The last clock reading of the thread that takes an answering step: at entry on the fast path,
      under the lock for the check, after the fetch otherwise, where a success stored its reading. */
  function LastReading(s: State, a: Action): int {
    match a
    case Decide(t) => if PcOf(s, t).SawGeneration? then PcOf(s, t).now else s.clock
    case Finish(_) => s.v.fetchedAt
    case _ => s.clock
  }

  /** A key of the fast path has to be unexpired; any other is allowed to be stale, but no older
      than `staleMax`. */
  predicate TooOld(c: Config, d: Dated, a: Action, keys: Keys) {
    && AtLeast(d, keys, LastReading(d.s, a), c.cacheSeconds)
    && (a.Decide? || AtLeast(d, keys, LastReading(d.s, a), c.staleMax + 1))
  }

  /** What lets a key through that is too old: on the fast path, an expiry that was past when the
      thread read the keys and had been renewed when it decided; under the lock, a generation that
      has moved since the thread looked, in which branch no age is checked. */
  predicate LetThrough(c: Config, d: Dated, a: Action) {
    match a
    case Decide(t) =>
      PcOf(d.s, t).SawGeneration? && t in d.met && d.met[t].Some? && d.met[t].value <= PcOf(d.s, t).now < d.s.v.expiresAt
    case Check(t) =>
      && PcOf(d.s, t).Holding? && PcOf(d.s, t).caller.Request? && d.s.v.generation != PcOf(d.s, t).caller.generation
      && d.s.clock - d.s.v.fetchedAt >= c.cacheSeconds && d.s.clock - d.s.v.fetchedAt > c.staleMax
    case _ => false
  }

  /** The step answers with a key of this set. */
  predicate Returns(c: Config, s: State, a: Action, t: Thread, kid: Text, keys: Keys) {
    Do(c, s, a).answers == s.answers + [(t, Key(kid, keys))]
  }

  /** Only four steps answer, each for the thread that takes it. */
  lemma WhoAnswers(c: Config, s: State, a: Action, t: Thread, kid: Text, keys: Keys)
    requires Returns(c, s, a, t, kid, keys)
    ensures (a.Decide? || a.Check? || a.FetchFails? || a.Finish?) && a.t == t
  {
    var answers := Do(c, s, a).answers;
    assert answers[|s.answers|] == (t, Key(kid, keys));
  }

  lemma FastAnswerAge(c: Config, d: Dated, t: Thread, kid: Text, keys: Keys)
    requires c.cacheSeconds > 0 && Dates(c, d) && Returns(c, d.s, Decide(t), t, kid, keys)
    ensures TooOld(c, d, Decide(t), keys) <==> LetThrough(c, d, Decide(t))
  {
    assert DatedPc(c, d, t);
    assert Do(c, d.s, Decide(t)).answers[|d.s.answers|] == (t, Key(kid, keys));
  }

  /** Whoever holds the lock and is not storing meets the date of the current keys. */
  lemma HolderMeetsTheDate(c: Config, d: Dated, t: Thread, keys: Keys)
    requires Exclusive(d.s) && Dates(c, d) && UnderLock(PcOf(d.s, t)) && !PcOf(d.s, t).KeysStored?
    requires d.s.v.keys == Some(keys)
    ensures keys.version in d.times && d.times[keys.version] == d.s.v.fetchedAt
    ensures d.s.v.expiresAt == d.s.v.fetchedAt + c.cacheSeconds
  {
  }

  lemma LockedAnswerAge(c: Config, d: Dated, t: Thread, kid: Text, keys: Keys)
    requires Exclusive(d.s) && Dates(c, d) && Returns(c, d.s, Check(t), t, kid, keys)
    ensures TooOld(c, d, Check(t), keys) <==> LetThrough(c, d, Check(t))
  {
    assert Do(c, d.s, Check(t)).answers[|d.s.answers|] == (t, Key(kid, keys));
    assert d.s.v.keys == Some(keys);
    HolderMeetsTheDate(c, d, t, keys);
    hide Exclusive, Dates;
  }

  /** A key returned because a fetch failed is at most `staleMax` old. */
  lemma FailedFetchAnswerAge(c: Config, d: Dated, t: Thread, kid: Text, keys: Keys)
    requires Exclusive(d.s) && Dates(c, d) && Returns(c, d.s, FetchFails(t), t, kid, keys)
    ensures d.s.v.keys == Some(keys) && keys.version in d.times && d.s.clock - d.times[keys.version] <= c.staleMax
  {
    assert Do(c, d.s, FetchFails(t)).answers[|d.s.answers|] == (t, Key(kid, keys));
    assert DatedPc(c, d, t);
    HolderMeetsTheDate(c, d, t, keys);
    hide Exclusive, Dates;
  }

  /** A key returned after a fetch is one of the set just fetched. */
  lemma FetchedAnswerAge(c: Config, d: Dated, t: Thread, kid: Text, keys: Keys)
    requires Exclusive(d.s) && Dates(c, d) && Returns(c, d.s, Finish(t), t, kid, keys)
    ensures d.s.v.keys == Some(keys) && keys.version in d.times && d.s.v.fetchedAt == d.times[keys.version]
  {
    assert Do(c, d.s, Finish(t)).answers[|d.s.answers|] == (t, Key(kid, keys));
    assert DatedPc(c, d, t);
    HolderMeetsTheDate(c, d, t, keys);
    hide Exclusive, Dates;
  }

  /** For every interleaving and every step that returns a key: the key is too old at the last clock
      reading of the thread exactly when one of the two exceptions let it through.  A key returned
      after a failed or a successful fetch is never too old. */
  lemma AnswerAge(c: Config, s: State, actions: seq<Action>, a: Action, t: Thread, kid: Text, keys: Keys)
    requires Constructed(c, s)
    requires Returns(c, Run(c, s, actions), a, t, kid, keys)
    ensures var d := RunDated(c, Fresh(s), actions);
            && d.s == Run(c, s, actions)
            && (TooOld(c, d, a, keys) <==> LetThrough(c, d, a))
  {
    DatesHold(c, s, actions);
    SameRun(c, Fresh(s), actions);
    var d := RunDated(c, Fresh(s), actions);
    hide RunDated, Run, Exclusive, Dates, Returns;
    WhoAnswers(c, d.s, a, t, kid, keys);
    match a
    case Decide(_) => FastAnswerAge(c, d, t, kid, keys);
    case Check(_) => LockedAnswerAge(c, d, t, kid, keys);
    case FetchFails(_) => FailedFetchAnswerAge(c, d, t, kid, keys);
    case Finish(_) => FetchedAnswerAge(c, d, t, kid, keys);
    case _ =>
  }

  // ---- the two exceptions happen --------------------------------------------------------------------------

  const SMALL := Keys({1}, 0)

  function OldVerifier(): State {
    State(Verifier(Some(SMALL), 300, 0, 0, 0, false, None), map[], 0, [], [], 0, {SMALL}, [])
  }

  /** Thread 0 reads the bootstrap keys, thread 1 refreshes them, and thread 0 then meets the new
      expiry: it returns a withdrawn key that is 100000 seconds old. */
  function Racing(): seq<Action> {
    [Tick(100_000), Begin(0, 1), ReadKeys(0), ReadGeneration(0),
     BeginWarmup(1), Acquire(1), Check(1), FetchSucceeds(1, {2}), StoreTimes(1), Decide(0)]
  }

  lemma WithdrawnKeyIsReturned()
    ensures var c, end := JwtKeyCache.Config(300, 3600), Run(JwtKeyCache.Config(300, 3600), OldVerifier(), Racing());
            && Constructed(c, OldVerifier())
            && end.answers == [(0, Key(1, SMALL))] && end.clock == 100_000 && end.v.keys == Some(Keys({2}, 1))
  {
    var c := JwtKeyCache.Config(300, 3600);
    var s, p := OldVerifier(), Racing();
    hide Run;
    RunNext(c, s, p, 0);
    RunNext(c, s, p, 1);
    RunNext(c, s, p, 2);
    RunNext(c, s, p, 3);
    assert PcOf(Run(c, s, p[..4]), 0) == SawGeneration(1, 100_000, Some(SMALL), 0);
    RunNext(c, s, p, 4);
    RunNext(c, s, p, 5);
    RunNext(c, s, p, 6);
    assert PcOf(Run(c, s, p[..7]), 1) == Fetching(Warmup, Some(SMALL));
    RunNext(c, s, p, 7);
    assert PcOf(Run(c, s, p[..8]), 1) == KeysStored(Warmup, Keys({2}, 1));
    RunNext(c, s, p, 8);
    assert PcOf(Run(c, s, p[..9]), 0) == SawGeneration(1, 100_000, Some(SMALL), 0);
    assert Run(c, s, p[..9]).v.expiresAt == 100_300;
    RunNext(c, s, p, 9);
    assert p[..10] == p;
  }

  /** Thread 0 waits for the lock while thread 1 refreshes, and is held up long enough for the new
      keys to age: the moved generation lets it return them unchecked, 900000 seconds old. */
  function Waits(): seq<Action> {
    [Tick(100_000), Begin(0, 1), ReadKeys(0), ReadGeneration(0), Decide(0), BeginWarmup(1), Acquire(1), Check(1)]
  }

  function Starves(): seq<Action> {
    [FetchSucceeds(1, {1}), StoreTimes(1), JwtKeyCache.Finish(1), Tick(1_000_000), Acquire(0), Check(0)]
  }

  /** Thread 0 waits with generation 0 and thread 1 fetches. */
  ghost predicate Halfway(s: State) {
    && PcOf(s, 0) == Waiting(Request(1, 0)) && PcOf(s, 1) == Fetching(Warmup, Some(SMALL))
    && s.v == Verifier(Some(SMALL), 300, 0, 0, 0, false, Some(1))
    && s.clock == 100_000 && s.successes == 0 && s.answers == []
  }

  lemma WaitingTakesHalf()
    ensures Halfway(Run(JwtKeyCache.Config(300, 3600), OldVerifier(), Waits()))
  {
    var c := JwtKeyCache.Config(300, 3600);
    var s, p := OldVerifier(), Waits();
    hide Run;
    RunNext(c, s, p, 0);
    RunNext(c, s, p, 1);
    RunNext(c, s, p, 2);
    RunNext(c, s, p, 3);
    RunNext(c, s, p, 4);
    assert PcOf(Run(c, s, p[..5]), 0) == Waiting(Request(1, 0));
    RunNext(c, s, p, 5);
    RunNext(c, s, p, 6);
    RunNext(c, s, p, 7);
    assert p[..8] == p;
  }

  lemma StarvingTakesTheRest(s: State)
    requires Halfway(s)
    ensures var end := Run(JwtKeyCache.Config(300, 3600), s, Starves());
            && end.answers == [(1, Warmed), (0, Key(1, Keys({1}, 1)))]
            && end.clock - end.v.fetchedAt == 900_000
  {
    var c := JwtKeyCache.Config(300, 3600);
    var p := Starves();
    hide Run;
    RunNext(c, s, p, 0);
    RunNext(c, s, p, 1);
    RunNext(c, s, p, 2);
    assert PcOf(Run(c, s, p[..3]), 0) == Waiting(Request(1, 0));
    assert Run(c, s, p[..3]).v == Verifier(Some(Keys({1}, 1)), 100_300, 100_000, 0, 1, false, None);
    RunNext(c, s, p, 3);
    RunNext(c, s, p, 4);
    RunNext(c, s, p, 5);
    assert p[..6] == p;
  }

  lemma UncheckedKeyIsReturned()
    ensures var c, end := JwtKeyCache.Config(300, 3600), Run(JwtKeyCache.Config(300, 3600), OldVerifier(), Waits() + Starves());
            && Constructed(c, OldVerifier())
            && end.answers == [(1, Warmed), (0, Key(1, Keys({1}, 1)))]
            && end.clock - end.v.fetchedAt == 900_000
  {
    hide Run, Waits, Starves, Halfway;
    var c := JwtKeyCache.Config(300, 3600);
    WaitingTakesHalf();
    StarvingTakesTheRest(Run(c, OldVerifier(), Waits()));
    RunInPieces(c, OldVerifier(), Waits(), Starves());
  }

  lemma RunNext(c: Config, s: State, p: seq<Action>, i: nat)
    requires i < |p|
    ensures Run(c, s, p[..i + 1]) == Do(c, Run(c, s, p[..i]), p[i])
    ensures i == 0 ==> Run(c, s, p[..i]) == s
  {
    hide Do;
    assert p[..i + 1][..i] == p[..i];
  }
}
