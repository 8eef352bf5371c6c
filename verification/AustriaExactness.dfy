/** Austria: exactly when the truncated checkpoints are good enough.  A frozen catch-up completes
    under every budget if and only if every in-window item but the last of each list carries a
    whole-second modification time; otherwise a budget of one notice per run never completes. */
module AustriaExactness {
  import opened Common
  import opened Sorting
  import opened AustriaState
  import opened AustriaCatchup
  import opened AustriaBudget
  import opened AustriaCycle

  /** A newly frozen catch-up: no checkpoint yet, nothing done. */
  ghost predicate Unstarted(s: Sweep, urls: seq<Text>) {
    forall i | 0 <= i < |urls| :: urls[i] in s.kdqs && !s.kdqs[urls[i]].done && s.kdqs[urls[i]].after.None?
  }

  ghost predicate CompletesIn(s: Sweep, urls: seq<Text>, world: World, through: Time, budget: nat, runs: nat)
    requires forall i | 0 <= i < |urls| :: urls[i] in s.kdqs
  {
    var r := Cycle(s, urls, world, through, Repeat(budget, runs));
    r.Some? && AllDone(r.value, urls)
  }

  ghost predicate Completes(s: Sweep, urls: seq<Text>, world: World, through: Time, budget: nat)
    requires forall i | 0 <= i < |urls| :: urls[i] in s.kdqs
  {
    exists runs :: CompletesIn(s, urls, world, through, budget, runs)
  }

  // ---- a fraction that is lost blocks the list ---------------------------------------------

  /** List u cannot pass key x: it is not done and its checkpoint stays below x. */
  ghost predicate Stuck(s: Sweep, u: Text, start: Time, x: Key) {
    && u in s.kdqs && !s.kdqs[u].done && s.kdqs[u].dataset != 0 && s.kdqs[u].from == Some(start)
    && (s.kdqs[u].after.Some? ==> Less(s.kdqs[u].after.value, x))
  }

  /** Item i of the window has a fraction and a successor. */
  ghost predicate Blocks(world: World, u: Text, start: Time, through: Time, i: nat) {
    && SoundList(world, u)
    && var all := InWindow(world.listing(u).value, start, through);
       i + 1 < |all| && !WholeSeconds(all[i])
  }

  lemma StoredStaysBelow(first: Key, x: Key)
    requires AtMost(first, x) && x.time % SECOND != 0
    ensures Less(Stored(first), x)
  {
  }

  /** With the blocking item still to do, at least two items are selected and the first is not beyond it. */
  lemma BlockedSelection(world: World, u: Text, start: Time, through: Time, i: nat, checkpoint: Option<Key>)
    requires Blocks(world, u, start, through, i)
    requires checkpoint.Some? ==> Less(checkpoint.value, KeyOf(InWindow(world.listing(u).value, start, through)[i]))
    ensures var selected := Selected(world.listing(u).value, start, through, checkpoint);
            |selected| >= 2 && AtMost(KeyOf(selected[0]), KeyOf(InWindow(world.listing(u).value, start, through)[i]))
  {
    var items := world.listing(u).value;
    var all, selected := InWindow(items, start, through), Selected(items, start, through, checkpoint);
    SelectionMeans(items, start, through, None);
    SelectionMeans(items, start, through, checkpoint);
    assert all[i] in all && all[i + 1] in all && Less(KeyOf(all[i]), KeyOf(all[i + 1]));
    assert all[i] in selected && all[i + 1] in selected;
    var a :| 0 <= a < |selected| && selected[a] == all[i];
    var b :| 0 <= b < |selected| && selected[b] == all[i + 1];
    assert a != b;
  }

  lemma VisitLeavesStuck(s: Sweep, url: Text, world: World, through: Time, u: Text, start: Time, i: nat)
    requires url in s.kdqs && ReadyEntry(s.kdqs[url]) && SoundList(world, url) && s.budget <= 1
    requires Blocks(world, u, start, through, i)
    requires Stuck(s, u, start, KeyOf(InWindow(world.listing(u).value, start, through)[i]))
    ensures Visit(s, url, world, through).Some?
    ensures var t := Visit(s, url, world, through).value;
            t.budget <= 1 && SameWindows(s, t)
            && Stuck(t, u, start, KeyOf(InWindow(world.listing(u).value, start, through)[i]))
  {
    hide Consume, Selected, FoldItems, Tagged;
    var p := s.kdqs[url];
    if !p.done && s.budget > 0 {
      var items := world.listing(url).value;
      var selected := Selected(items, p.from.value, through, Checkpoint(p));
      ConsumeMoves(s, url, selected, world.fails, through);
      if url == u {
        BlockedSelection(world, u, start, through, i, Checkpoint(p));
        StoredStaysBelow(KeyOf(selected[0]), KeyOf(InWindow(items, start, through)[i]));
      }
    }
  }

  lemma {:induction false} SweepLeavesStuck(s: Sweep, urls: seq<Text>, world: World, through: Time, u: Text, start: Time, i: nat)
    requires Frozen(s, urls, world, through) && s.budget <= 1
    requires Blocks(world, u, start, through, i)
    requires Stuck(s, u, start, KeyOf(InWindow(world.listing(u).value, start, through)[i]))
    ensures VisitAll(s, urls, world, through).Some?
    ensures var t := VisitAll(s, urls, world, through).value;
            t.budget <= 1 && SameWindows(s, t)
            && Stuck(t, u, start, KeyOf(InWindow(world.listing(u).value, start, through)[i]))
  {
    hide Visit, Stuck, Blocks, InWindow, SoundList;
    if urls != [] {
      var init := urls[..|urls| - 1];
      SweepLeavesStuck(s, init, world, through, u, start, i);
      var t := VisitAll(s, init, world, through).value;
      VisitLeavesStuck(t, urls[|urls| - 1], world, through, u, start, i);
    }
  }

  lemma FrozenAfter(s: Sweep, t: Sweep, urls: seq<Text>, world: World, through: Time)
    requires Frozen(s, urls, world, through) && SameWindows(s, t)
    ensures Frozen(t, urls, world, through)
  {
  }

  lemma {:induction false} NeverCompletes(s: Sweep, urls: seq<Text>, world: World, through: Time, u: Text, start: Time, i: nat,
                                          runs: nat)
    requires Frozen(s, urls, world, through) && u in urls
    requires Blocks(world, u, start, through, i)
    requires Stuck(s, u, start, KeyOf(InWindow(world.listing(u).value, start, through)[i]))
    ensures !CompletesIn(s, urls, world, through, 1, runs)
    decreases runs
  {
    if runs == 0 {
      StuckIsNotDone(s, urls, world, through, u, start, KeyOf(InWindow(world.listing(u).value, start, through)[i]));
    } else {
      var r := Restarted(s, 1);
      StuckAgain(s, u, start, KeyOf(InWindow(world.listing(u).value, start, through)[i]));
      FrozenAfter(s, r, urls, world, through);
      hide *;
      SweepLeavesStuck(r, urls, world, through, u, start, i);
      var t := VisitAll(r, urls, world, through).value;
      FrozenAfter(r, t, urls, world, through);
      NeverCompletes(t, urls, world, through, u, start, i, runs - 1);
      CompletionStep(s, urls, world, through, runs);
    }
  }

  lemma StuckIsNotDone(s: Sweep, urls: seq<Text>, world: World, through: Time, u: Text, start: Time, x: Key)
    requires Frozen(s, urls, world, through) && u in urls && Stuck(s, u, start, x)
    ensures !CompletesIn(s, urls, world, through, 1, 0)
  {
    hide VisitAll;
  }

  lemma StuckAgain(s: Sweep, u: Text, start: Time, x: Key)
    requires Stuck(s, u, start, x)
    ensures Stuck(Restarted(s, 1), u, start, x) && Restarted(s, 1).budget <= 1 && SameWindows(s, Restarted(s, 1))
  {
  }

  lemma CompletionStep(s: Sweep, urls: seq<Text>, world: World, through: Time, runs: nat)
    requires Frozen(s, urls, world, through) && runs > 0
    requires VisitAll(Restarted(s, 1), urls, world, through).Some?
    requires Frozen(VisitAll(Restarted(s, 1), urls, world, through).value, urls, world, through)
    ensures CompletesIn(s, urls, world, through, 1, runs)
       <==> CompletesIn(VisitAll(Restarted(s, 1), urls, world, through).value, urls, world, through, 1, runs - 1)
  {
    hide VisitAll, Cycle, SoundList;
    RepeatStep(1, runs);
    CycleStep(s, urls, world, through, Repeat(1, runs));
  }

  // ---- the theorem ----------------------------------------------------------------------------

  lemma CompletesIfExact(s: Sweep, urls: seq<Text>, world: World, through: Time, budget: nat)
    requires Frozen(s, urls, world, through) && Exact(s, urls, world, through) && budget >= 1
    ensures Completes(s, urls, world, through, budget)
  {
    hide Frozen, Exact, Cycle, AllDone, Remaining;
    var work := |Remaining(s, urls, world, through)|;
    var runs := work / budget + 1;
    assert runs * budget > work;
    FinishesInTime(s, urls, world, through, budget, runs);
    assert CompletesIn(s, urls, world, through, budget, runs);
  }

  /** The list and the item at which a catch-up that is not exact gets stuck. */
  lemma FindBlock(s: Sweep, urls: seq<Text>, world: World, through: Time) returns (u: Text, start: Time, i: nat)
    requires Frozen(s, urls, world, through) && Unstarted(s, urls) && !Exact(s, urls, world, through)
    ensures u in urls && Blocks(world, u, start, through, i)
    ensures Stuck(s, u, start, KeyOf(InWindow(world.listing(u).value, start, through)[i]))
  {
    hide InWindow;
    var m :| 0 <= m < |urls|
      && !ExactButLast(world.listing(urls[m]).value, s.kdqs[urls[m]].from.value, through);
    u, start := urls[m], s.kdqs[urls[m]].from.value;
    var all := InWindow(world.listing(u).value, start, through);
    i :| 0 <= i < |all| - 1 && !WholeSeconds(all[i]);
  }

  /** Completion under every budget is exactly the absence of a lost fraction before the last item. */
  lemma CompletesUnderEveryBudgetIffExact(s: Sweep, urls: seq<Text>, world: World, through: Time)
    requires Frozen(s, urls, world, through) && Unstarted(s, urls)
    ensures (forall budget: nat | budget >= 1 :: Completes(s, urls, world, through, budget)) <==> Exact(s, urls, world, through)
  {
    assert forall i | 0 <= i < |urls| :: urls[i] in s.kdqs;
    hide Frozen, Exact, Unstarted, Blocks, Stuck, CompletesIn;
    if Exact(s, urls, world, through) {
      forall budget: nat | budget >= 1 ensures Completes(s, urls, world, through, budget) {
        CompletesIfExact(s, urls, world, through, budget);
      }
    } else {
      var u, start, i := FindBlock(s, urls, world, through);
      forall runs: nat ensures !CompletesIn(s, urls, world, through, 1, runs) {
        NeverCompletes(s, urls, world, through, u, start, i, runs);
      }
      assert !Completes(s, urls, world, through, 1);
    }
  }

  // ---- an input that never completes --------------------------------------------------------------

  const HALF_PAST := Item(1, Some(SECOND + SECOND / 2), [])
  const AFTERWARDS := Item(2, Some(3 * SECOND), [])

  function TwoItems(): World {
    World((u: Text) => Some([HALF_PAST, AFTERWARDS]), (u: Text, item: Item) => false)
  }

  function JustFrozen(): Sweep {
    Sweep(map[1 := Progress(1, Some(0), None, false)], map[], map[], 0, 0, 0, 0, [])
  }

  lemma BothAreInTheWindow()
    ensures InWindow([HALF_PAST, AFTERWARDS], 0, 10 * SECOND) == [HALF_PAST, AFTERWARDS]
  {
    var wants := Wants(0, 10 * SECOND, None);
    assert wants(HALF_PAST) && wants(AFTERWARDS);
    assert [HALF_PAST, AFTERWARDS][1..] == [AFTERWARDS] && [AFTERWARDS][1..] == [];
    assert Keep([AFTERWARDS], wants) == [AFTERWARDS];
    assert Keep([HALF_PAST, AFTERWARDS], wants) == [HALF_PAST, AFTERWARDS];
    assert Sort([AFTERWARDS], InOrder()) == [AFTERWARDS];
    assert InOrder()(HALF_PAST, AFTERWARDS);
    assert Sort([HALF_PAST, AFTERWARDS], InOrder()) == [HALF_PAST, AFTERWARDS];
  }

  /** One list with an item modified at 1.5 s and one at 3 s: the checkpoint of the first is stored
      as 1 s, the item is selected again, and runs of one notice fetch it for ever. */
  lemma HalfASecondBlocksTheList()
    ensures
      var s, world, through := JustFrozen(), TwoItems(), 10 * SECOND;
      && Frozen(s, [1], world, through) && Unstarted(s, [1])
      && (forall runs: nat :: !CompletesIn(s, [1], world, through, 1, runs))
      && !Completes(s, [1], world, through, 1)
  {
    var s, world, through := JustFrozen(), TwoItems(), 10 * SECOND;
    BothAreInTheWindow();
    assert DistinctKeys([HALF_PAST, AFTERWARDS]);
    assert SoundList(world, 1);
    assert !WholeSeconds(HALF_PAST);
    assert Blocks(world, 1, 0, through, 0);
    hide Blocks, InWindow, CompletesIn;
    forall runs: nat ensures !CompletesIn(s, [1], world, through, 1, runs) {
      NeverCompletes(s, [1], world, through, 1, 0, 0, runs);
    }
  }
}
