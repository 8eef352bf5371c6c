/** Austria: no gap over whole histories.  Over any sequence of runs, with any failures, any
    catalogue and lists that grow, every item between the first window of a list and the stamp
    stored for the list has been folded in a committed run, but for those so recent that they may
    not be listed yet; and from the freezing of a catch-up to its completion nothing is released. */
module AustriaHistory {
  import opened Common
  import opened Lifecycle
  import opened Sorting
  import opened AustriaState
  import opened AustriaCatchup
  import opened AustriaBudget
  import opened AustriaCycle
  import opened AustriaNoSkip
  import opened AustriaRuns
  import opened AustriaSchedules

  // ---- the log is only a record --------------------------------------------------------------------

  ghost function Preceded(s: Sweep, log: seq<(Text, Item)>): Sweep {
    s.(log := log + s.log)
  }

  lemma {:induction false} AdvanceIgnoresTheLog(s: Sweep, url: Text, items: seq<Item>, log: seq<(Text, Item)>)
    requires url in s.kdqs && |items| <= s.budget
    ensures AdvanceAll(Preceded(s, log), url, items) == Preceded(AdvanceAll(s, url, items), log)
  {
    hide FoldStates;
    if items != [] {
      AdvanceIgnoresTheLog(s, url, items[..|items| - 1], log);
      var before := AdvanceAll(s, url, items[..|items| - 1]);
      assert (log + before.log) + [(url, items[|items| - 1])] == log + (before.log + [(url, items[|items| - 1])]);
    }
  }

  lemma VisitIgnoresTheLog(s: Sweep, url: Text, world: World, through: Time, log: seq<(Text, Item)>)
    requires url in s.kdqs
    ensures var plain, preceded := Visit(s, url, world, through), Visit(Preceded(s, log), url, world, through);
            plain.Some? == preceded.Some? && (plain.Some? ==> preceded.value == Preceded(plain.value, log))
  {
    hide Selected, AdvanceAll, Hydrated;
    var p := s.kdqs[url];
    if !p.done && s.budget > 0 && p.dataset != 0 && p.from.Some? && world.listing(url).Some? {
      var selected := Selected(world.listing(url).value, p.from.value, through, Checkpoint(p));
      var batch := AustriaCatchup.Batch(selected, s.budget);
      HydratedIsAPrefix(url, batch, world.fails);
      AdvanceIgnoresTheLog(s, url, batch[..Hydrated(url, batch, world.fails)], log);
    }
  }

  lemma {:induction false} SweepIgnoresTheLog(s: Sweep, urls: seq<Text>, world: World, through: Time, log: seq<(Text, Item)>)
    requires forall i | 0 <= i < |urls| :: urls[i] in s.kdqs
    ensures var plain, preceded := VisitAll(s, urls, world, through), VisitAll(Preceded(s, log), urls, world, through);
            plain.Some? == preceded.Some? && (plain.Some? ==> preceded.value == Preceded(plain.value, log))
  {
    hide Visit;
    if urls != [] {
      var init := urls[..|urls| - 1];
      SweepIgnoresTheLog(s, init, world, through, log);
      if VisitAll(s, init, world, through).Some? {
        VisitIgnoresTheLog(VisitAll(s, init, world, through).value, urls[|urls| - 1], world, through, log);
      }
    }
  }

  // ---- the chronicle of a history --------------------------------------------------------------------

  /** A system with every item folded in a committed run, and the start of each list's first window. */
  datatype Chronicle = Chronicle(sys: System, log: seq<(Text, Item)>, firsts: map<Text, Time>)

  function WindowStart(c: Catchup, u: Text): Time
    requires u in c.kdqs
  {
    if c.kdqs[u].from.Some? then c.kdqs[u].from.value else 0
  }

  function FirstsWith(firsts: map<Text, Time>, c: Catchup): map<Text, Time> {
    map u | u in firsts.Keys + c.kdqs.Keys :: if u in firsts then firsts[u] else WindowStart(c, u)
  }

  /** A run that raises is not recorded: it commits nothing. */
  function StepRecorded(settings: Settings, ch: Chronicle, a: Attempt): Chronicle {
    var r := Run(settings, a.budget, ch.sys.cursor, a.input);
    if r.Err? then ch
    else
      var c := Resumed(settings, ch.sys.cursor, a.input).value;
      var s := Swept(ch.sys.cursor, c, a.input.world, a.budget).value;
      Chronicle(Step(settings, ch.sys, a), ch.log + s.log, FirstsWith(ch.firsts, c))
  }

  function Recorded(settings: Settings, history: seq<Attempt>): Chronicle {
    if history == [] then Chronicle(System(EMPTY, map[], 0), [], map[])
    else StepRecorded(settings, Recorded(settings, history[..|history| - 1]), history[|history| - 1])
  }

  /** The record is only an observation: the system is the one of the history. */
  lemma {:induction false} RecordedSystem(settings: Settings, history: seq<Attempt>)
    ensures Recorded(settings, history).sys == AustriaRuns.After(settings, history)
  {
    if history != [] {
      RecordedSystem(settings, history[..|history| - 1]);
      hide Run, Resumed, Swept;
    }
  }

  // ---- the invariant ----------------------------------------------------------------------------------

  /** An item is listed at the latest `delay` after its modification time, in every run from then on
      that reaches the list. */
  ghost predicate Timely(a: Attempt, listing: Text -> set<Item>, delay: Time) {
    Publishes(a.input.world, Settled(listing, a.input.now - delay))
  }

  /** The items modified up to an instant. */
  ghost function Settled(listing: Text -> set<Item>, until: Time): Text -> set<Item> {
    (u: Text) => set item | item in listing(u) && AustriaCatchup.KeyOf(item).time <= until
  }

  /** Every item from the first window of a list up to its stamp has been folded, except for what may
      have been listed too late. */
  ghost predicate Covered(log: seq<(Text, Item)>, firsts: map<Text, Time>, observed: map<Text, Time>,
                          listing: Text -> set<Item>, delay: Time) {
    && (forall u | u in observed :: u in firsts)
    && (forall u, item | u in observed && item in listing(u)
          && firsts[u] <= AustriaCatchup.KeyOf(item).time <= observed[u] - delay :: (u, item) in log)
  }

  /** An unfinished window starts at the list's first start, or not after what is already covered. */
  predicate Continues(p: Progress, u: Text, firsts: map<Text, Time>, observed: map<Text, Time>, delay: Time) {
    && p.from.Some? && u in firsts
    && (p.done ==> u in observed)
    && (!p.done ==> p.from.value <= firsts[u] || (u in observed && p.from.value <= observed[u] - delay))
  }

  /** The lists of a catch-up continue what is covered, and their progress claims only folded items. */
  ghost predicate Continuous(c: Catchup, log: seq<(Text, Item)>, firsts: map<Text, Time>, observed: map<Text, Time>,
                             listing: Text -> set<Item>, delay: Time) {
    && c.through.Some?
    && (forall u | u in c.kdqs :: Continues(c.kdqs[u], u, firsts, observed, delay))
    && NoSkip(Sweep(c.kdqs, map[], map[], 0, 0, 0, 0, log), Settled(listing, c.through.value - delay), c.through.value)
    && (forall u | u in firsts :: u in observed || u in c.kdqs)
  }

  /** What is stored is covered, and a catch-up under way was frozen no later than `clock`. */
  ghost predicate Faithful(ch: Chronicle, listing: Text -> set<Item>, delay: Time, clock: Time) {
    var cursor := ch.sys.cursor;
    && Covered(ch.log, ch.firsts, cursor.kdqObserved, listing, delay)
    && (if cursor.catchup.Some? then
          && Continuous(cursor.catchup.value, ch.log, ch.firsts, cursor.kdqObserved, listing, delay)
          && cursor.catchup.value.through.value <= clock
        else forall u | u in ch.firsts :: u in cursor.kdqObserved)
  }

  lemma FreezingContinues(settings: Settings, cursor: Cursor, lists: map<Text, Text>, now: Time, log: seq<(Text, Item)>,
                          firsts: map<Text, Time>, listing: Text -> set<Item>, delay: Time)
    requires 0 <= delay <= settings.overlap
    requires (forall u | u in cursor.kdqObserved :: u in firsts) && (forall u | u in firsts :: u in cursor.kdqObserved)
    ensures var c := NewCatchup(settings, cursor, lists, now);
            Continuous(c, log, FirstsWith(firsts, c), cursor.kdqObserved, listing, delay)
  {
    var c := NewCatchup(settings, cursor, lists, now);
    NewCatchupSkipsNothing(Sweep(c.kdqs, map[], map[], 0, 0, 0, 0, log), Settled(listing, c.through.value - delay), c.through.value);
    hide NoSkip;
    forall u | u in c.kdqs ensures Continues(c.kdqs[u], u, FirstsWith(firsts, c), cursor.kdqObserved, delay) {
    }
  }

  lemma CoveredMoreFirsts(log: seq<(Text, Item)>, firsts: map<Text, Time>, c: Catchup, observed: map<Text, Time>,
                          listing: Text -> set<Item>, delay: Time)
    requires Covered(log, firsts, observed, listing, delay)
    ensures Covered(log, FirstsWith(firsts, c), observed, listing, delay)
  {
  }

  lemma ResumingContinues(c: Catchup, log: seq<(Text, Item)>, firsts: map<Text, Time>, observed: map<Text, Time>,
                          listing: Text -> set<Item>, delay: Time)
    requires Continuous(c, log, firsts, observed, listing, delay)
    ensures FirstsWith(firsts, c) == firsts
  {
    assert forall u | u in c.kdqs :: Continues(c.kdqs[u], u, firsts, observed, delay);
  }

  /** What a sweep does to the coverage: the lists it finishes are stamped with the horizon. */
  lemma SweepCovers(c: Catchup, t: Sweep, log: seq<(Text, Item)>, firsts: map<Text, Time>, observed: map<Text, Time>,
                    listing: Text -> set<Item>, delay: Time)
    requires delay >= 0 && Continuous(c, log, firsts, observed, listing, delay) && Covered(log, firsts, observed, listing, delay)
    requires NoSkip(t, Settled(listing, c.through.value - delay), c.through.value) && log <= t.log
    requires t.kdqs.Keys == c.kdqs.Keys
    requires forall u | u in c.kdqs :: t.kdqs[u].from == c.kdqs[u].from && (c.kdqs[u].done ==> t.kdqs[u].done)
    requires t.observed == observed + NewStamps(c.kdqs, t.kdqs, c.through.value)
    ensures Covered(t.log, firsts, t.observed, listing, delay)
    ensures Continuous(c.(kdqs := t.kdqs), t.log, firsts, t.observed, listing, delay)
    ensures AllListsDone(t.kdqs) ==> forall u | u in firsts :: u in t.observed
  {
    forall u | u in c.kdqs ensures Continues(t.kdqs[u], u, firsts, t.observed, delay) {
      assert Continues(c.kdqs[u], u, firsts, observed, delay);
    }
    assert NoSkip(Sweep(t.kdqs, map[], map[], 0, 0, 0, 0, t.log), Settled(listing, c.through.value - delay), c.through.value);
    forall u, item | u in t.observed && item in listing(u) && firsts[u] <= AustriaCatchup.KeyOf(item).time <= t.observed[u] - delay
      ensures (u, item) in t.log
    {
      if u in NewStamps(c.kdqs, t.kdqs, c.through.value) {
        assert Continues(c.kdqs[u], u, firsts, observed, delay);
        StampedListIsCovered(c, t, log, firsts, observed, listing, delay, u, item);
      } else {
        assert (u, item) in log;
      }
    }
  }

  lemma StampedListIsCovered(c: Catchup, t: Sweep, log: seq<(Text, Item)>, firsts: map<Text, Time>, observed: map<Text, Time>,
                             listing: Text -> set<Item>, delay: Time, u: Text, item: Item)
    requires delay >= 0 && c.through.Some? && u in c.kdqs && Continues(c.kdqs[u], u, firsts, observed, delay) && !c.kdqs[u].done
    requires Covered(log, firsts, observed, listing, delay)
    requires NoSkip(t, Settled(listing, c.through.value - delay), c.through.value) && log <= t.log
    requires u in t.kdqs && t.kdqs[u].from == c.kdqs[u].from && t.kdqs[u].done
    requires item in listing(u) && firsts[u] <= AustriaCatchup.KeyOf(item).time <= WholeSecond(c.through.value) - delay
    ensures (u, item) in t.log
  {
    if c.kdqs[u].from.value <= AustriaCatchup.KeyOf(item).time {
      assert Passed(t.kdqs[u], item);
    } else {
      assert (u, item) in log;
    }
  }

  /** The sweep of a run, with everything folded before it on record. */
  lemma RunCovers(settings: Settings, ch: Chronicle, a: Attempt, listing: Text -> set<Item>, delay: Time, c: Catchup, s: Sweep)
    requires delay >= 0 && c.through.Some? && Publishes(a.input.world, Settled(listing, c.through.value - delay))
    requires Continuous(c, ch.log, ch.firsts, ch.sys.cursor.kdqObserved, listing, delay)
    requires Covered(ch.log, ch.firsts, ch.sys.cursor.kdqObserved, listing, delay)
    requires VisitAll(StartOf(ch.sys.cursor, c, a.budget), Listed(c.kdqs.Keys), a.input.world, c.through.value) == Some(s)
    ensures Covered(ch.log + s.log, ch.firsts, s.observed, listing, delay)
    ensures Continuous(c.(kdqs := s.kdqs), ch.log + s.log, ch.firsts, s.observed, listing, delay)
    ensures AllListsDone(s.kdqs) ==> forall u | u in ch.firsts :: u in s.observed
  {
    hide VisitAll, Listed, NoSkip, Covered, Continues, Publishes, AllListsDone, NewStamps, Settled;
    var s0, urls, through := StartOf(ch.sys.cursor, c, a.budget), Listed(c.kdqs.Keys), c.through.value;
    var settled := Settled(listing, through - delay);
    var t := Preceded(s, ch.log);
    SweepIgnoresTheLog(s0, urls, a.input.world, through, ch.log);
    SweepStamps(s0, urls, a.input.world, through);
    NoSkipLooksAtProgress(Preceded(s0, ch.log), Sweep(c.kdqs, map[], map[], 0, 0, 0, 0, ch.log), settled, through);
    SweepSkipsNothing(Preceded(s0, ch.log), urls, a.input.world, through, settled);
    SweepCovers(c, t, ch.log, ch.firsts, ch.sys.cursor.kdqObserved, listing, delay);
  }

  lemma NoSkipLooksAtProgress(s: Sweep, t: Sweep, listing: Text -> set<Item>, through: Time)
    requires s.kdqs == t.kdqs && s.log == t.log
    ensures NoSkip(s, listing, through) <==> NoSkip(t, listing, through)
  {
  }

  /** What is old enough to be listed at the clock is so at the horizon frozen before. */
  lemma ListedByTheHorizon(a: Attempt, listing: Text -> set<Item>, delay: Time, through: Time)
    requires Timely(a, listing, delay) && through <= a.input.now
    ensures Publishes(a.input.world, Settled(listing, through - delay))
  {
    var world := a.input.world;
    forall u | world.listing(u).Some? ensures Lists(world.listing(u).value, Settled(listing, through - delay)(u)) {
      assert Lists(world.listing(u).value, Settled(listing, a.input.now - delay)(u));
    }
  }

  lemma StepStaysFaithful(settings: Settings, ch: Chronicle, a: Attempt, listing: Text -> set<Item>, delay: Time, clock: Time)
    requires 0 <= delay <= settings.overlap && Faithful(ch, listing, delay, clock)
    requires clock <= a.input.now && Timely(a, listing, delay)
    ensures Faithful(StepRecorded(settings, ch, a), listing, delay, a.input.now)
  {
    hide Covered, Continuous, Publishes, Settled, Timely, VisitAll, Listed, ReconcileRecords, Reconciled, FirstsWith;
    if Run(settings, a.budget, ch.sys.cursor, a.input).Ok? {
      var cursor := ch.sys.cursor;
      var c, s := RunParts(settings, a.budget, cursor, a.input);
      StartIsContinuous(settings, ch, a, listing, delay, c);
      FrozenBefore(settings, ch, a, listing, delay, clock, c);
      ListedByTheHorizon(a, listing, delay, c.through.value);
      var known := Chronicle(ch.sys, ch.log, FirstsWith(ch.firsts, c));
      CoveredMoreFirsts(ch.log, ch.firsts, c, cursor.kdqObserved, listing, delay);
      RunCovers(settings, known, a, listing, delay, c, s);
      PendingIsNoMatter(c, s, ch.log + s.log, known.firsts, s.observed, listing, delay);
    }
  }

  /** With a clock that does not go back, the horizon is never ahead of a run that works towards it. */
  lemma FrozenBefore(settings: Settings, ch: Chronicle, a: Attempt, listing: Text -> set<Item>, delay: Time, clock: Time,
                     c: Catchup)
    requires Faithful(ch, listing, delay, clock) && clock <= a.input.now
    requires Resumed(settings, ch.sys.cursor, a.input) == Some(c)
    ensures c.through.Some? && c.through.value <= a.input.now
  {
    hide Covered;
  }

  lemma PendingIsNoMatter(c: Catchup, s: Sweep, log: seq<(Text, Item)>, firsts: map<Text, Time>, observed: map<Text, Time>,
                          listing: Text -> set<Item>, delay: Time)
    requires Continuous(c.(kdqs := s.kdqs), log, firsts, observed, listing, delay)
    ensures Continuous(c.(kdqs := s.kdqs, pending := s.pending), log, firsts, observed, listing, delay)
  {
    hide NoSkip;
  }

  /** Frozen or resumed, the catch-up a run works on continues what is covered. */
  lemma StartIsContinuous(settings: Settings, ch: Chronicle, a: Attempt, listing: Text -> set<Item>, delay: Time, c: Catchup)
    requires 0 <= delay <= settings.overlap && Faithful(ch, listing, delay, a.input.now)
    requires Resumed(settings, ch.sys.cursor, a.input) == Some(c)
    ensures Continuous(c, ch.log, FirstsWith(ch.firsts, c), ch.sys.cursor.kdqObserved, listing, delay)
  {
    if ch.sys.cursor.catchup.Some? {
      hide Continuous, FirstsWith;
      ResumingContinues(c, ch.log, ch.firsts, ch.sys.cursor.kdqObserved, listing, delay);
    } else {
      assert forall u | u in ch.sys.cursor.kdqObserved :: u in ch.firsts;
      hide Continuous, FirstsWith, Covered;
      FreezingContinues(settings, ch.sys.cursor, a.input.catalogue.value, a.input.now, ch.log, ch.firsts, listing, delay);
    }
  }

  /** The clock does not go back from run to run. */
  ghost predicate ClockGoesOn(history: seq<Attempt>) {
    forall i, j | 0 <= i < j < |history| :: history[i].input.now <= history[j].input.now
  }

  lemma {:induction false} HistoryStaysFaithful(settings: Settings, history: seq<Attempt>, listing: Text -> set<Item>,
                                                delay: Time, clock: Time)
    requires 0 <= delay <= settings.overlap && ClockGoesOn(history)
    requires forall i | 0 <= i < |history| :: Timely(history[i], listing, delay) && history[i].input.now <= clock
    ensures Faithful(Recorded(settings, history), listing, delay, clock)
  {
    if history != [] {
      var init, a := history[..|history| - 1], history[|history| - 1];
      HistoryStaysFaithful(settings, init, listing, delay, a.input.now);
      hide StepRecorded, Timely;
      StepStaysFaithful(settings, Recorded(settings, init), a, listing, delay, a.input.now);
    }
  }

  /** No gap over any history of whole runs, whatever failed in them, whatever the catalogues were,
      and although lists grow behind the connector's back: if an item is listed at most `delay` after
      its modification time, and the overlap is no shorter, then every item of a list between the
      start of its first window and `delay` before the stamp stored for it was folded in a committed
      run; a later one lies in the list's next window. */
  lemma HistorySkipsNothing(settings: Settings, history: seq<Attempt>, listing: Text -> set<Item>, delay: Time, ch: Chronicle,
                            u: Text, item: Item)
    requires 0 <= delay <= settings.overlap && ClockGoesOn(history)
    requires forall i | 0 <= i < |history| :: Timely(history[i], listing, delay)
    requires ch == Recorded(settings, history) && u in ch.sys.cursor.kdqObserved && item in listing(u)
    ensures ch.sys == AustriaRuns.After(settings, history)
    ensures var stamp := ch.sys.cursor.kdqObserved[u];
            && u in ch.firsts
            && (ch.firsts[u] <= AustriaCatchup.KeyOf(item).time <= stamp - delay ==> (u, item) in ch.log)
            && WholeSecond(stamp - settings.overlap) <= stamp - delay
  {
    var clock := LatestClock(history);
    hide *;
    HistoryStaysFaithful(settings, history, listing, delay, clock);
    RecordedSystem(settings, history);
    FaithfulMeans(settings, ch, listing, delay, clock, u, item);
  }

  lemma LatestClock(history: seq<Attempt>) returns (clock: Time)
    requires ClockGoesOn(history)
    ensures forall i | 0 <= i < |history| :: history[i].input.now <= clock
  {
    clock := if history == [] then 0 else history[|history| - 1].input.now;
  }

  lemma FaithfulMeans(settings: Settings, ch: Chronicle, listing: Text -> set<Item>, delay: Time, clock: Time, u: Text, item: Item)
    requires Faithful(ch, listing, delay, clock) && delay <= settings.overlap
    requires u in ch.sys.cursor.kdqObserved && item in listing(u)
    ensures var stamp := ch.sys.cursor.kdqObserved[u];
            && u in ch.firsts
            && (ch.firsts[u] <= AustriaCatchup.KeyOf(item).time <= stamp - delay ==> (u, item) in ch.log)
            && WholeSecond(stamp - settings.overlap) <= stamp - delay
  {
    hide Continuous;
  }

  // ---- where windows start and end ------------------------------------------------------------------------

  /** The start of a list's first window is the look-back before a run of the history that found the list. */
  ghost predicate StartsAt(settings: Settings, history: seq<Attempt>, u: Text, start: Time) {
    exists k :: 0 <= k < |history| && FoundAt(history[k], u) && start == WholeSecond(history[k].input.now - settings.lookback)
  }

  ghost predicate FoundAt(a: Attempt, u: Text) {
    a.input.catalogue.Some? && u in a.input.catalogue.value
  }

  /** An instant, in whole seconds, at which a run of the history was started. */
  ghost predicate StartedAt(history: seq<Attempt>, stamp: Time) {
    exists k :: 0 <= k < |history| && stamp == WholeSecond(history[k].input.now)
  }

  /** Windows start a look-back before a run that found the list, and horizons and stamps are instants of runs. */
  ghost predicate Timed(settings: Settings, history: seq<Attempt>, ch: Chronicle) {
    && (forall u | u in ch.firsts :: StartsAt(settings, history, u, ch.firsts[u]))
    && (forall u | u in ch.sys.cursor.kdqObserved :: u in ch.firsts && StartedAt(history, ch.sys.cursor.kdqObserved[u]))
    && (ch.sys.cursor.catchup.Some? ==>
          var c := ch.sys.cursor.catchup.value;
          c.through.Some? && StartedAt(history, c.through.value) && forall u | u in c.kdqs :: u in ch.firsts)
  }

  lemma LongerHistory(settings: Settings, history: seq<Attempt>, a: Attempt)
    ensures forall u, start | StartsAt(settings, history, u, start) :: StartsAt(settings, history + [a], u, start)
    ensures forall stamp | StartedAt(history, stamp) :: StartedAt(history + [a], stamp)
    ensures forall u | FoundAt(a, u) :: StartsAt(settings, history + [a], u, WholeSecond(a.input.now - settings.lookback))
    ensures StartedAt(history + [a], WholeSecond(a.input.now))
  {
    var all, n := history + [a], |history|;
    hide FoundAt;
    assert all[n] == a;
    forall u, start | StartsAt(settings, history, u, start) ensures StartsAt(settings, all, u, start) {
      var k :| 0 <= k < n && FoundAt(history[k], u) && start == WholeSecond(history[k].input.now - settings.lookback);
      assert all[k] == history[k];
    }
    forall stamp | StartedAt(history, stamp) ensures StartedAt(all, stamp) {
      var k :| 0 <= k < n && stamp == WholeSecond(history[k].input.now);
      assert all[k] == history[k];
    }
  }

  /** The windows of a newly frozen catch-up. */
  lemma FrozenWindows(settings: Settings, ch: Chronicle, a: Attempt, c: Catchup, u: Text)
    requires a.input.catalogue.Some? && c == NewCatchup(settings, ch.sys.cursor, a.input.catalogue.value, a.input.now)
    requires u in c.kdqs && u !in ch.sys.cursor.kdqObserved
    ensures FoundAt(a, u) && WindowStart(c, u) == WholeSecond(a.input.now - settings.lookback)
  {
  }

  /** The catch-up a run works on, frozen now or before. */
  lemma WorkedOnIsTimed(settings: Settings, history: seq<Attempt>, ch: Chronicle, a: Attempt, c: Catchup)
    requires Timed(settings, history, ch) && Resumed(settings, ch.sys.cursor, a.input) == Some(c)
    ensures c.through.Some? && StartedAt(history + [a], c.through.value)
    ensures forall u | u in FirstsWith(ch.firsts, c) :: StartsAt(settings, history + [a], u, FirstsWith(ch.firsts, c)[u])
    ensures forall u | u in ch.firsts || u in c.kdqs :: u in FirstsWith(ch.firsts, c)
  {
    LongerHistory(settings, history, a);
    hide StartsAt, StartedAt, WholeSecond, FoundAt;
    forall u | u in FirstsWith(ch.firsts, c) ensures StartsAt(settings, history + [a], u, FirstsWith(ch.firsts, c)[u]) {
      if u !in ch.firsts {
        FrozenWindows(settings, ch, a, c, u);
      }
    }
  }

  lemma StepStaysTimed(settings: Settings, history: seq<Attempt>, ch: Chronicle, a: Attempt)
    requires Timed(settings, history, ch)
    ensures Timed(settings, history + [a], StepRecorded(settings, ch, a))
  {
    LongerHistory(settings, history, a);
    if Run(settings, a.budget, ch.sys.cursor, a.input).Ok? {
      var c, s := RunParts(settings, a.budget, ch.sys.cursor, a.input);
      StoredParts(settings, ch, a, c, s);
      hide *;
      WorkedOnIsTimed(settings, history, ch, a, c);
      SweepStamps(StartOf(ch.sys.cursor, c, a.budget), Listed(c.kdqs.Keys), a.input.world, c.through.value);
      TwiceTruncated(history + [a], c.through.value);
      TimedParts(settings, history, ch);
      StampsAreTimed(settings, history, a, ch, c, s);
      TimedAgain(settings, history + [a], ch, StepRecorded(settings, ch, a), c, s);
    } else {
      hide StartsAt, StartedAt, Run;
    }
  }

  /** What a committed run leaves in the chronicle. */
  lemma StoredParts(settings: Settings, ch: Chronicle, a: Attempt, c: Catchup, s: Sweep)
    requires Run(settings, a.budget, ch.sys.cursor, a.input).Ok? && Resumed(settings, ch.sys.cursor, a.input) == Some(c)
    requires c.through.Some? && Run(settings, a.budget, ch.sys.cursor, a.input) == Settle(ch.sys.cursor, c, s, a.input.now)
    ensures var after := StepRecorded(settings, ch, a);
            && after.firsts == FirstsWith(ch.firsts, c) && after.sys.cursor.kdqObserved == s.observed
            && (after.sys.cursor.catchup.Some? ==>
                  after.sys.cursor.catchup.value.through == c.through && after.sys.cursor.catchup.value.kdqs == s.kdqs)
  {
    hide Run, Resumed, Swept, ReconcileRecords, Reconciled, FirstsWith, Folded;
  }

  lemma TimedParts(settings: Settings, history: seq<Attempt>, ch: Chronicle)
    requires Timed(settings, history, ch)
    ensures forall u | u in ch.sys.cursor.kdqObserved :: u in ch.firsts && StartedAt(history, ch.sys.cursor.kdqObserved[u])
  {
  }

  lemma StampsAreTimed(settings: Settings, history: seq<Attempt>, a: Attempt, ch: Chronicle, c: Catchup, s: Sweep)
    requires c.through.Some? && StartedAt(history + [a], c.through.value) && WholeSecond(c.through.value) == c.through.value
    requires Stamped(StartOf(ch.sys.cursor, c, a.budget), s, c.through.value)
    requires forall u | u in ch.sys.cursor.kdqObserved :: u in ch.firsts && StartedAt(history + [a], ch.sys.cursor.kdqObserved[u])
    requires forall u | u in ch.firsts || u in c.kdqs :: u in FirstsWith(ch.firsts, c)
    ensures s.kdqs.Keys == c.kdqs.Keys
    ensures forall u | u in s.observed :: u in FirstsWith(ch.firsts, c) && StartedAt(history + [a], s.observed[u])
  {
    hide StartedAt, FirstsWith, WholeSecond;
  }

  lemma TimedAgain(settings: Settings, history: seq<Attempt>, ch: Chronicle, after: Chronicle, c: Catchup, s: Sweep)
    requires after.firsts == FirstsWith(ch.firsts, c) && after.sys.cursor.kdqObserved == s.observed
    requires after.sys.cursor.catchup.Some? ==>
               after.sys.cursor.catchup.value.through == c.through && after.sys.cursor.catchup.value.kdqs == s.kdqs
    requires c.through.Some? && StartedAt(history, c.through.value) && s.kdqs.Keys == c.kdqs.Keys
    requires forall u | u in FirstsWith(ch.firsts, c) :: StartsAt(settings, history, u, FirstsWith(ch.firsts, c)[u])
    requires forall u | u in ch.firsts || u in c.kdqs :: u in FirstsWith(ch.firsts, c)
    requires forall u | u in s.observed :: u in FirstsWith(ch.firsts, c) && StartedAt(history, s.observed[u])
    ensures Timed(settings, history, after)
  {
    hide StartsAt, StartedAt, FirstsWith;
  }

  lemma TwiceTruncated(history: seq<Attempt>, stamp: Time)
    requires StartedAt(history, stamp)
    ensures WholeSecond(stamp) == stamp
  {
  }

  lemma {:induction false} HistoryIsTimed(settings: Settings, history: seq<Attempt>)
    ensures Timed(settings, history, Recorded(settings, history))
  {
    if history != [] {
      var init, a := history[..|history| - 1], history[|history| - 1];
      HistoryIsTimed(settings, init);
      hide StepRecorded, Timed;
      StepStaysTimed(settings, init, Recorded(settings, init), a);
      assert init + [a] == history;
    }
  }

  /** Over any history, the first window of a list starts the configured look-back before a run that found the
      list, and every stored stamp is the instant of a run: both in whole seconds. */
  lemma WindowsAreTimed(settings: Settings, history: seq<Attempt>, ch: Chronicle, u: Text)
    requires ch == Recorded(settings, history) && u in ch.sys.cursor.kdqObserved
    ensures ch.sys == AustriaRuns.After(settings, history)
    ensures u in ch.firsts && StartsAt(settings, history, u, ch.firsts[u])
    ensures StartedAt(history, ch.sys.cursor.kdqObserved[u])
  {
    HistoryIsTimed(settings, history);
    RecordedSystem(settings, history);
    hide Recorded, AustriaRuns.After, StartsAt, StartedAt;
  }

  // ---- from freezing to completion -----------------------------------------------------------------------

  /** As long as the catch-up frozen after a history is unfinished, whatever runs follow, the consumer's
      table, the tracked states and the mark stay what they were before it was frozen. */
  lemma {:induction false} NothingIsReleasedMeanwhile(settings: Settings, history: seq<Attempt>, more: seq<Attempt>)
    requires forall k | 0 < k <= |more| :: AustriaRuns.After(settings, history + more[..k]).cursor.catchup.Some?
    ensures var before, after := AustriaRuns.After(settings, history), AustriaRuns.After(settings, history + more);
            && after.rows == before.rows
            && after.cursor.tracked == before.cursor.tracked
            && after.cursor.observed == before.cursor.observed
            && after.reconciledAt == before.reconciledAt
  {
    hide *;
    if more == [] {
      assert history + more == history;
    } else {
      var n := |more| - 1;
      forall k | 0 < k <= n ensures AustriaRuns.After(settings, history + more[..n][..k]).cursor.catchup.Some? {
        assert more[..n][..k] == more[..k];
      }
      NothingIsReleasedMeanwhile(settings, history, more[..n]);
      assert history + more == (history + more[..n]) + [more[n]];
      assert more[..|more|] == more;
      AfterOneMore(settings, history + more[..n], more[n]);
      UnfinishedRunReleasesNothing(settings, AustriaRuns.After(settings, history + more[..n]), more[n]);
    }
  }

  lemma AfterOneMore(settings: Settings, history: seq<Attempt>, a: Attempt)
    ensures AustriaRuns.After(settings, history + [a]) == Step(settings, AustriaRuns.After(settings, history), a)
  {
    hide Step;
    assert (history + [a])[..|history|] == history;
  }

  lemma UnfinishedRunReleasesNothing(settings: Settings, sys: System, a: Attempt)
    requires Step(settings, sys, a).cursor.catchup.Some?
    ensures var after := Step(settings, sys, a);
            && after.rows == sys.rows && after.cursor.tracked == sys.cursor.tracked
            && after.cursor.observed == sys.cursor.observed && after.reconciledAt == sys.reconciledAt
  {
    if Run(settings, a.budget, sys.cursor, a.input).Ok? {
      NothingIsReleasedEarly(settings, a.budget, sys.cursor, a.input);
      NothingFolded(sys.rows, a.input.now);
      hide Run;
    }
  }
}
