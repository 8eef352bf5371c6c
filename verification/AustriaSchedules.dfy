/** Austria: budget independence of whole runs.  However a frozen catch-up is spread over runs,
    the run that completes it returns the very observations and cursor of one unbounded run. */
module AustriaSchedules {
  import opened Common
  import opened Lifecycle
  import opened Sorting
  import opened AustriaState
  import opened AustriaCatchup
  import opened AustriaBudget
  import opened AustriaCycle
  import opened AustriaRuns

  // ---- stamps: lists marked done are stamped with the horizon ---------------------------------

  function NewStamps(before: map<Text, Progress>, after: map<Text, Progress>, through: Time): map<Text, Time> {
    map u | u in after && after[u].done && !(u in before && before[u].done) :: WholeSecond(through)
  }

  ghost predicate Stamped(s: Sweep, t: Sweep, through: Time) {
    && SameWindows(s, t)
    && t.observed == s.observed + NewStamps(s.kdqs, t.kdqs, through)
  }

  lemma StampedTwice(s: Sweep, t: Sweep, u: Sweep, through: Time)
    requires Stamped(s, t, through) && Stamped(t, u, through)
    ensures Stamped(s, u, through)
  {
  }

  lemma AdvanceStamps(s: Sweep, t: Sweep, url: Text, items: seq<Item>, through: Time)
    requires url in s.kdqs && AdvancedBy(s, t, url, items)
    ensures Stamped(s, t, through)
  {
    hide FoldItems, Tagged;
  }

  lemma MarkStamps(s: Sweep, url: Text, through: Time)
    requires url in s.kdqs && !s.kdqs[url].done
    ensures Stamped(s, MarkDone(s, url, through), through)
  {
  }

  lemma ConsumeStamps(s: Sweep, url: Text, selected: seq<Item>, fails: (Text, Item) -> bool, through: Time)
    requires url in s.kdqs && !s.kdqs[url].done
    ensures Stamped(s, Consume(s, url, selected, fails, through), through)
  {
    var batch := AustriaCatchup.Batch(selected, s.budget);
    HydratedIsAPrefix(url, batch, fails);
    var folded := batch[..Hydrated(url, batch, fails)];
    var after := AdvanceAll(s, url, folded);
    AdvanceAllMeans(s, url, folded);
    AdvanceStamps(s, after, url, folded, through);
    assert !after.kdqs[url].done;
    MarkStamps(after, url, through);
    StampedTwice(s, after, MarkDone(after, url, through), through);
    hide AdvanceAll, Hydrated, AdvancedBy, MarkDone;
    assert Stamped(s, Failed(after), through);
  }

  lemma VisitStamps(s: Sweep, url: Text, world: World, through: Time)
    requires url in s.kdqs && Visit(s, url, world, through).Some?
    ensures Stamped(s, Visit(s, url, world, through).value, through)
  {
    hide Selected, Consume;
    var p := s.kdqs[url];
    if !p.done && s.budget > 0 && world.listing(url).Some? && Readable(world.listing(url).value) {
      ConsumeStamps(s, url, Selected(world.listing(url).value, p.from.value, through, Checkpoint(p)), world.fails, through);
    }
  }

  lemma {:induction false} SweepStamps(s: Sweep, urls: seq<Text>, world: World, through: Time)
    requires forall i | 0 <= i < |urls| :: urls[i] in s.kdqs
    requires VisitAll(s, urls, world, through).Some?
    ensures Stamped(s, VisitAll(s, urls, world, through).value, through)
  {
    hide Visit;
    if urls != [] {
      var t := VisitAll(s, urls[..|urls| - 1], world, through).value;
      SweepStamps(s, urls[..|urls| - 1], world, through);
      VisitStamps(t, urls[|urls| - 1], world, through);
      StampedTwice(s, t, Visit(t, urls[|urls| - 1], world, through).value, through);
    }
  }

  // ---- the outcome a frozen catch-up is heading for ----------------------------------------------

  ghost predicate Resumable(cursor: Cursor, world: World) {
    && cursor.catchup.Some? && cursor.catchup.value.through.Some?
    && var c := cursor.catchup.value;
       var s, urls, through := StartOf(cursor, c, 0), Listed(c.kdqs.Keys), c.through.value;
       Frozen(s, urls, world, through) && Exact(s, urls, world, through)
  }

  /** The work left to the frozen catch-up of a cursor. */
  function WorkOf(cursor: Cursor, world: World): seq<(Text, Item)>
    requires cursor.catchup.Some? && cursor.catchup.value.through.Some?
  {
    var c := cursor.catchup.value;
    Remaining(StartOf(cursor, c, 0), Listed(c.kdqs.Keys), world, c.through.value)
  }

  function Stamps(kdqs: map<Text, Progress>, through: Time): map<Text, Time> {
    map u | u in kdqs && !kdqs[u].done :: WholeSecond(through)
  }

  function FinalOutcome(cursor: Cursor, world: World, now: Time): Outcome
    requires cursor.catchup.Some? && cursor.catchup.value.through.Some?
  {
    var c := cursor.catchup.value;
    var pending := FoldItems(c.pending, WorkOf(cursor, world));
    Outcome(ReconcileRecords(cursor.tracked, pending, now),
            Cursor(Some(WholeSecond(c.through.value)), c.lists, cursor.kdqObserved + Stamps(c.kdqs, c.through.value),
                   Reconciled(cursor.tracked, pending, now), None))
  }

  lemma AllListsAreListed(kdqs: map<Text, Progress>, s: Sweep)
    requires s.kdqs == kdqs
    ensures AllListsDone(kdqs) <==> AllDone(s, Listed(kdqs.Keys))
  {
    forall u | u in kdqs ensures u in Listed(kdqs.Keys) {
    }
  }

  lemma ResumableHasCatchup(cursor: Cursor, world: World)
    requires Resumable(cursor, world)
    ensures cursor.catchup.Some? && cursor.catchup.value.through.Some?
  {
  }

  lemma ExactAfter(s: Sweep, t: Sweep, urls: seq<Text>, world: World, through: Time)
    requires Frozen(s, urls, world, through) && Exact(s, urls, world, through) && SameWindows(s, t)
    ensures Frozen(t, urls, world, through) && Exact(t, urls, world, through)
  {
    hide SoundList, ExactButLast;
  }

  lemma StartIsReady(cursor: Cursor, world: World, budget: nat)
    requires Resumable(cursor, world)
    ensures var c := cursor.catchup.value;
            var start, urls, through := StartOf(cursor, c, budget), Listed(c.kdqs.Keys), c.through.value;
            && Frozen(start, urls, world, through) && Exact(start, urls, world, through)
            && Remaining(start, urls, world, through) == WorkOf(cursor, world)
            && (forall i | 0 <= i < |urls| :: urls[i] in c.kdqs)
  {
    hide SoundList, ExactButLast, Remaining;
    var c := cursor.catchup.value;
    var zero, start, urls, through := StartOf(cursor, c, 0), StartOf(cursor, c, budget), Listed(c.kdqs.Keys), c.through.value;
    ExactAfter(zero, start, urls, world, through);
    OnlyOwnProgressMatters(zero, start, urls, world, through);
  }

  /** Everything about the sweep of one run over a resumable catch-up. */
  ghost predicate GoodSweep(cursor: Cursor, world: World, budget: nat, s: Sweep)
    requires cursor.catchup.Some? && cursor.catchup.value.through.Some?
  {
    var c := cursor.catchup.value;
    var start, urls, through := StartOf(cursor, c, budget), Listed(c.kdqs.Keys), c.through.value;
    && VisitAll(start, urls, world, through) == Some(s)
    && SweptTo(start, s, urls, world, through) && Stamped(start, s, through)
    && Remaining(start, urls, world, through) == WorkOf(cursor, world)
    && Frozen(s, urls, world, through) && Exact(s, urls, world, through)
  }

  lemma ResumableSweep(cursor: Cursor, world: World, budget: nat) returns (s: Sweep)
    requires Resumable(cursor, world)
    ensures GoodSweep(cursor, world, budget, s)
    ensures Swept(cursor, cursor.catchup.value, world, budget) == Some(s)
  {
    var c := cursor.catchup.value;
    var start, urls, through := StartOf(cursor, c, budget), Listed(c.kdqs.Keys), c.through.value;
    StartIsReady(cursor, world, budget);
    SweepConserves(start, urls, world, through);
    s := VisitAll(start, urls, world, through).value;
    SweepStamps(start, urls, world, through);
    hide VisitAll, Remaining, Moved, Frozen, Exact;
    assert SameWindows(start, s);
    ExactAfter(start, s, urls, world, through);
  }

  lemma ResumedRun(settings: Settings, cursor: Cursor, world: World, budget: nat, now: Time)
    requires Resumable(cursor, world) && Run(settings, budget, cursor, Input(None, world, now)).Ok?
    requires Swept(cursor, cursor.catchup.value, world, budget).Some?
    ensures Run(settings, budget, cursor, Input(None, world, now))
         == Settle(cursor, cursor.catchup.value, Swept(cursor, cursor.catchup.value, world, budget).value, now)
  {
    hide Swept, Settle, Frozen, Exact;
  }

  lemma DoneMoved(start: Sweep, s: Sweep, urls: seq<Text>, world: World, through: Time)
    requires SweptTo(start, s, urls, world, through) && AllDone(s, urls)
    ensures s.pending == FoldItems(start.pending, Remaining(start, urls, world, through))
  {
    DoneLeavesNothing(s, urls, world, through);
    hide Remaining, FoldItems, AllDone;
    var work := Remaining(start, urls, world, through);
    assert work[..|work|] == work;
  }

  lemma DoneStamps(start: Sweep, s: Sweep, through: Time)
    requires Stamped(start, s, through) && AllListsDone(s.kdqs)
    ensures s.observed == start.observed + Stamps(start.kdqs, through)
  {
    assert NewStamps(start.kdqs, s.kdqs, through) == Stamps(start.kdqs, through);
  }

  lemma DoneSweep(cursor: Cursor, world: World, budget: nat, s: Sweep)
    requires cursor.catchup.Some? && cursor.catchup.value.through.Some? && GoodSweep(cursor, world, budget, s)
    requires AllListsDone(s.kdqs)
    ensures s.pending == FoldItems(cursor.catchup.value.pending, WorkOf(cursor, world))
    ensures s.observed == cursor.kdqObserved + Stamps(cursor.catchup.value.kdqs, cursor.catchup.value.through.value)
  {
    hide VisitAll, Remaining, FoldItems, WorkOf, Frozen, Exact, SweptTo, Stamped, Listed, AllDone, Stamps;
    var c := cursor.catchup.value;
    var start, urls, through := StartOf(cursor, c, budget), Listed(c.kdqs.Keys), c.through.value;
    DoneStamps(start, s, through);
    StampedKeepsKeys(start, s, through);
    AllListsAreListed(s.kdqs, s);
    DoneMoved(start, s, urls, world, through);
  }

  lemma StampedKeepsKeys(s: Sweep, t: Sweep, through: Time)
    requires Stamped(s, t, through)
    ensures t.kdqs.Keys == s.kdqs.Keys
  {
  }

  /** A run that completes the catch-up returns the outcome it was heading for. */
  lemma CompletingRun(settings: Settings, budget: nat, cursor: Cursor, world: World, now: Time)
    requires Resumable(cursor, world)
    requires Run(settings, budget, cursor, Input(None, world, now)).Ok?
    requires Run(settings, budget, cursor, Input(None, world, now)).value.cursor.catchup.None?
    ensures Run(settings, budget, cursor, Input(None, world, now)).value == FinalOutcome(cursor, world, now)
  {
    hide Run, Swept, FoldItems, ReconcileRecords, Reconciled, Frozen, Exact, WorkOf, GoodSweep, Stamps;
    var s := ResumableSweep(cursor, world, budget);
    ResumedRun(settings, cursor, world, budget, now);
    DoneSweep(cursor, world, budget, s);
  }

  /** The cursor a partial run leaves. */
  function NextCursor(cursor: Cursor, s: Sweep): Cursor
    requires cursor.catchup.Some?
  {
    var c := cursor.catchup.value;
    Cursor(cursor.observed, c.lists, s.observed, cursor.tracked, Some(c.(kdqs := s.kdqs, pending := s.pending)))
  }

  lemma PartialSweepWork(cursor: Cursor, world: World, budget: nat, s: Sweep)
    requires Resumable(cursor, world) && GoodSweep(cursor, world, budget, s)
    ensures var next, work := NextCursor(cursor, s), WorkOf(cursor, world);
            var k := Min(budget, |work|);
            && Resumable(next, world)
            && WorkOf(next, world) == work[k..]
            && s.pending == FoldItems(cursor.catchup.value.pending, work[..k])
            && s.kdqs.Keys == cursor.catchup.value.kdqs.Keys
            && (budget > |work| ==> AllListsDone(s.kdqs))
  {
    var c := cursor.catchup.value;
    var start, urls, through := StartOf(cursor, c, budget), Listed(c.kdqs.Keys), c.through.value;
    var next := NextCursor(cursor, s);
    hide VisitAll, Remaining, FoldItems, SoundList, ExactButLast;
    var zero := StartOf(next, next.catchup.value, 0);
    ExactAfter(s, zero, urls, world, through);
    OnlyOwnProgressMatters(s, zero, urls, world, through);
    AllListsAreListed(s.kdqs, s);
  }

  lemma PartialSweepHeading(cursor: Cursor, world: World, budget: nat, s: Sweep, later: Time)
    requires Resumable(cursor, world) && GoodSweep(cursor, world, budget, s)
    requires NextCursor(cursor, s).catchup.value.through.Some?
    ensures FinalOutcome(NextCursor(cursor, s), world, later) == FinalOutcome(cursor, world, later)
  {
    hide *;
    ResumableHasCatchup(cursor, world);
    var c, work, next := cursor.catchup.value, WorkOf(cursor, world), NextCursor(cursor, s);
    MinIs(budget, |work|);
    var k := Min(budget, |work|);
    PartialSweepWork(cursor, world, budget, s);
    FoldItemsInPieces(c.pending, work[..k], work[k..]);
    assert work[..k] + work[k..] == work;
    GoodSweepStamps(cursor, world, budget, s);
    StampsAddUp(cursor.kdqObserved, c.kdqs, s.kdqs, c.through.value);
    SameHeading(cursor, s, world, later, FoldItems(c.pending, work));
  }

  lemma SameHeading(cursor: Cursor, s: Sweep, world: World, later: Time, pending: States)
    requires cursor.catchup.Some? && cursor.catchup.value.through.Some?
    requires NextCursor(cursor, s).catchup.value.through.Some?
    requires pending == FoldItems(cursor.catchup.value.pending, WorkOf(cursor, world))
    requires pending == FoldItems(s.pending, WorkOf(NextCursor(cursor, s), world))
    requires s.observed + Stamps(s.kdqs, cursor.catchup.value.through.value)
          == cursor.kdqObserved + Stamps(cursor.catchup.value.kdqs, cursor.catchup.value.through.value)
    ensures FinalOutcome(NextCursor(cursor, s), world, later) == FinalOutcome(cursor, world, later)
  {
    hide FoldItems, WorkOf, Stamps, ReconcileRecords, Reconciled;
  }

  lemma GoodSweepStamps(cursor: Cursor, world: World, budget: nat, s: Sweep)
    requires cursor.catchup.Some? && cursor.catchup.value.through.Some? && GoodSweep(cursor, world, budget, s)
    ensures var kdqs := cursor.catchup.value.kdqs;
            && kdqs.Keys == s.kdqs.Keys && (forall u | u in kdqs && kdqs[u].done :: s.kdqs[u].done)
            && s.observed == cursor.kdqObserved + NewStamps(kdqs, s.kdqs, cursor.catchup.value.through.value)
  {
    hide VisitAll, SweptTo, Frozen, Exact, Remaining, WorkOf;
  }

  /** A run that does not complete it leaves a cursor heading for the same outcome. */
  lemma PartialRun(settings: Settings, budget: nat, cursor: Cursor, world: World, now: Time, later: Time)
    requires Resumable(cursor, world)
    requires Run(settings, budget, cursor, Input(None, world, now)).Ok?
    requires Run(settings, budget, cursor, Input(None, world, now)).value.cursor.catchup.Some?
    ensures var next := Run(settings, budget, cursor, Input(None, world, now)).value.cursor;
            && Resumable(next, world)
            && next.observed == cursor.observed && next.catchup.value.through == cursor.catchup.value.through
            && next.catchup.value.kdqs.Keys == cursor.catchup.value.kdqs.Keys
            && |WorkOf(next, world)| == |WorkOf(cursor, world)| - budget
            && budget <= |WorkOf(cursor, world)|
            && FinalOutcome(next, world, later) == FinalOutcome(cursor, world, later)
  {
    hide Run, Swept, FoldItems, Frozen, Exact, WorkOf, GoodSweep, FinalOutcome;
    var s := ResumableSweep(cursor, world, budget);
    ResumedRun(settings, cursor, world, budget, now);
    PartialSweepWork(cursor, world, budget, s);
    PartialSweepHeading(cursor, world, budget, s, later);
  }

  lemma StampsAddUp(observed: map<Text, Time>, before: map<Text, Progress>, after: map<Text, Progress>, through: Time)
    requires before.Keys == after.Keys
    requires forall u | u in before && before[u].done :: after[u].done
    ensures observed + NewStamps(before, after, through) + Stamps(after, through) == observed + Stamps(before, through)
  {
  }

  // ---- chains of runs -----------------------------------------------------------------------------

  datatype Turn = Turn(budget: nat, now: Time)

  /** Runs over one world until one completes the catch-up: its outcome and its instant. */
  function Chain(settings: Settings, cursor: Cursor, world: World, turns: seq<Turn>): Option<(Outcome, Time)>
    decreases |turns|
  {
    if turns == [] then None
    else
      var r := Run(settings, turns[0].budget, cursor, Input(None, world, turns[0].now));
      if r.Err? then None
      else if r.value.cursor.catchup.None? then Some((r.value, turns[0].now))
      else Chain(settings, r.value.cursor, world, turns[1..])
  }

  /** The clock checks a run makes before it resumes a catch-up. */
  ghost predicate ClockAllows(cursor: Cursor, now: Time) {
    && cursor.catchup.Some? && cursor.catchup.value.through.Some? && cursor.catchup.value.kdqs.Keys != {}
    && (cursor.observed.Some? ==> cursor.observed.value <= now + 5 * MINUTE)
    && cursor.catchup.value.through.value <= now + 5 * MINUTE
  }

  lemma SuccessfulRunHadAClock(settings: Settings, budget: nat, cursor: Cursor, world: World, now: Time)
    requires cursor.catchup.Some? && Run(settings, budget, cursor, Input(None, world, now)).Ok?
    ensures ClockAllows(cursor, now)
  {
    hide Swept, Settle;
  }

  lemma {:induction false} ChainReachesTheFinalOutcome(settings: Settings, cursor: Cursor, world: World, turns: seq<Turn>)
    requires Resumable(cursor, world) && Chain(settings, cursor, world, turns).Some?
    ensures var (out, now) := Chain(settings, cursor, world, turns).value;
            out == FinalOutcome(cursor, world, now) && ClockAllows(cursor, now)
    decreases |turns|
  {
    hide Resumable, FinalOutcome, Run;
    ResumableHasCatchup(cursor, world);
    var budget, at := turns[0].budget, turns[0].now;
    var r := Run(settings, budget, cursor, Input(None, world, at));
    if r.value.cursor.catchup.None? {
      CompletingRun(settings, budget, cursor, world, at);
      SuccessfulRunHadAClock(settings, budget, cursor, world, at);
    } else {
      var (out, now) := Chain(settings, cursor, world, turns).value;
      PartialRun(settings, budget, cursor, world, at, now);
      ChainReachesTheFinalOutcome(settings, r.value.cursor, world, turns[1..]);
      SuccessfulRunHadAClock(settings, budget, cursor, world, at);
    }
  }

  /** Error-free runs never raise, and one with room for all the work completes. */
  lemma AllowedRunSucceeds(settings: Settings, budget: nat, cursor: Cursor, world: World, now: Time)
    requires Resumable(cursor, world) && ClockAllows(cursor, now)
    ensures Run(settings, budget, cursor, Input(None, world, now)).Ok?
    ensures budget > |WorkOf(cursor, world)| ==>
              Run(settings, budget, cursor, Input(None, world, now)).value.cursor.catchup.None?
  {
    hide Swept, WorkOf, Frozen, Exact, FoldItems, ReconcileRecords, Reconciled, GoodSweep;
    var s := ResumableSweep(cursor, world, budget);
    PartialSweepWork(cursor, world, budget, s);
    NoErrors(cursor, world, budget, s);
  }

  lemma NoErrors(cursor: Cursor, world: World, budget: nat, s: Sweep)
    requires Resumable(cursor, world) && GoodSweep(cursor, world, budget, s)
    ensures s.errors == 0
  {
    hide Frozen, Exact, VisitAll, Remaining, FoldItems, Stamped;
  }

  /** Budget independence of runs: whatever budgets and instants the chain used, the run that
      completes it returns what one run with room for all the work would return at that instant. */
  lemma ScheduleDoesNotMatter(settings: Settings, cursor: Cursor, world: World, turns: seq<Turn>, unbounded: nat)
    requires Resumable(cursor, world) && Chain(settings, cursor, world, turns).Some?
    requires unbounded > |WorkOf(cursor, world)|
    ensures var (out, now) := Chain(settings, cursor, world, turns).value;
            Run(settings, unbounded, cursor, Input(None, world, now)) == Ok(out)
  {
    var (out, now) := Chain(settings, cursor, world, turns).value;
    ResumableHasCatchup(cursor, world);
    hide Resumable, FinalOutcome, Run, WorkOf, Chain, ClockAllows;
    ChainReachesTheFinalOutcome(settings, cursor, world, turns);
    AllowedRunSucceeds(settings, unbounded, cursor, world, now);
    CompletingRun(settings, unbounded, cursor, world, now);
  }

  /** With a clock that never falls behind the horizon, a chain of runs of budget B over N items
      completes within floor(N/B)+1 runs. */
  lemma ChainCompletes(settings: Settings, cursor: Cursor, world: World, turns: seq<Turn>, budget: nat)
    requires Resumable(cursor, world)
    requires forall i | 0 <= i < |turns| :: turns[i].budget == budget && ClockAllows(cursor, turns[i].now)
    requires budget >= 1 && |turns| >= |WorkOf(cursor, world)| / budget + 1
    ensures Chain(settings, cursor, world, turns).Some?
  {
    hide Resumable, WorkOf, Chain, ClockAllows;
    ResumableHasCatchup(cursor, world);
    RunsSuffice(|WorkOf(cursor, world)|, budget, |turns|);
    ChainHasRoom(settings, cursor, world, turns, budget);
  }

  lemma {:induction false} ChainHasRoom(settings: Settings, cursor: Cursor, world: World, turns: seq<Turn>, budget: nat)
    requires Resumable(cursor, world)
    requires forall i | 0 <= i < |turns| :: turns[i].budget == budget && ClockAllows(cursor, turns[i].now)
    requires |turns| * budget > |WorkOf(cursor, world)|
    ensures Chain(settings, cursor, world, turns).Some?
    decreases |turns|
  {
    hide Resumable, Run, WorkOf, FinalOutcome;
    ResumableHasCatchup(cursor, world);
    var work := |WorkOf(cursor, world)|;
    OneBudgetSpent(work, budget, |turns|);
    AllowedRunSucceeds(settings, budget, cursor, world, turns[0].now);
    var next := Run(settings, budget, cursor, Input(None, world, turns[0].now)).value.cursor;
    if next.catchup.Some? {
      PartialRun(settings, budget, cursor, world, turns[0].now, 0);
      ResumableHasCatchup(next, world);
      var rest := turns[1..];
      forall i | 0 <= i < |rest| ensures rest[i].budget == budget && ClockAllows(next, rest[i].now) {
        assert rest[i] == turns[i + 1];
        assert ClockAllows(cursor, turns[i + 1].now);
      }
      ChainHasRoom(settings, next, world, rest, budget);
    }
  }

  /** The run that freezes a catch-up behaves as if the frozen catch-up had been stored before it,
      so the theorems above start at the first run of a cycle. */
  lemma FreezingIsResuming(settings: Settings, budget: nat, cursor: Cursor, lists: map<Text, Text>, world: World, now: Time)
    requires cursor.catchup.None?
    ensures Run(settings, budget, cursor, Input(Some(lists), world, now))
         == Run(settings, budget, cursor.(catchup := Some(NewCatchup(settings, cursor, lists, now))), Input(None, world, now))
  {
    hide VisitAll, ReconcileRecords, Reconciled, NewCatchup, Listed;
    var frozen := cursor.(catchup := Some(NewCatchup(settings, cursor, lists, now)));
    assert Resumed(settings, frozen, Input(None, world, now)) == Resumed(settings, cursor, Input(Some(lists), world, now));
  }
}
