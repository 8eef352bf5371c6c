/** Austria: the chain of runs that share one frozen horizon. */
module AustriaCycle {
  import opened Common
  import opened Sorting
  import opened AustriaState
  import opened AustriaCatchup
  import opened AustriaBudget

  function Restarted(s: Sweep, budget: nat): Sweep {
    s.(budget := budget, progressed := 0, completed := 0, errors := 0)
  }

  /** One sweep per run, each with its own budget, over the same world. */
  function Cycle(s: Sweep, urls: seq<Text>, world: World, through: Time, budgets: seq<nat>): (r: Option<Sweep>)
    requires forall i | 0 <= i < |urls| :: urls[i] in s.kdqs
    ensures r.Some? ==> r.value.kdqs.Keys == s.kdqs.Keys
    decreases |budgets|
  {
    if budgets == [] then Some(s)
    else
      var t := VisitAll(Restarted(s, budgets[0]), urls, world, through);
      if t.None? then None else Cycle(t.value, urls, world, through, budgets[1..])
  }

  function Sum(budgets: seq<nat>): nat {
    if budgets == [] then 0 else budgets[0] + Sum(budgets[1..])
  }

  function Repeat(budget: nat, n: nat): (r: seq<nat>)
    ensures |r| == n
  {
    if n == 0 then [] else [budget] + Repeat(budget, n - 1)
  }

  // ---- conservation along the chain ---------------------------------------------------------

  /** After folding the first k items of the remaining work. */
  ghost predicate After(s: Sweep, t: Sweep, urls: seq<Text>, world: World, through: Time, k: nat) {
    var work := Remaining(s, urls, world, through);
    && k <= |work|
    && SameWindows(s, t)
    && t.log == s.log + work[..k]
    && t.pending == FoldItems(s.pending, work[..k])
    && Remaining(t, urls, world, through) == work[k..]
  }

  lemma RestartKeepsWork(s: Sweep, budget: nat, urls: seq<Text>, world: World, through: Time)
    requires forall i | 0 <= i < |urls| :: urls[i] in s.kdqs
    ensures Remaining(Restarted(s, budget), urls, world, through) == Remaining(s, urls, world, through)
  {
    OnlyOwnProgressMatters(s, Restarted(s, budget), urls, world, through);
  }

  lemma OneRun(s: Sweep, urls: seq<Text>, world: World, through: Time, budget: nat)
    requires Frozen(s, urls, world, through) && Exact(s, urls, world, through)
    ensures VisitAll(Restarted(s, budget), urls, world, through).Some?
    ensures var t := VisitAll(Restarted(s, budget), urls, world, through).value;
            var work := Remaining(s, urls, world, through);
            && After(s, t, urls, world, through, Min(budget, |work|))
            && (|work| < budget ==> AllDone(t, urls))
            && Frozen(t, urls, world, through) && Exact(t, urls, world, through)
  {
    RestartKeepsWork(s, budget, urls, world, through);
    SweepConserves(Restarted(s, budget), urls, world, through);
    hide VisitAll, Remaining, FoldItems, SoundList, ExactButLast;
  }

  lemma AfterTwice(s: Sweep, t: Sweep, u: Sweep, urls: seq<Text>, world: World, through: Time, j: nat, k: nat)
    requires After(s, t, urls, world, through, j) && After(t, u, urls, world, through, k)
    ensures After(s, u, urls, world, through, j + k)
  {
    hide Remaining, FoldItems;
    var work := Remaining(s, urls, world, through);
    assert work[..j] + work[j..][..k] == work[..j + k];
    FoldItemsInPieces(s.pending, work[..j], work[j..][..k]);
  }

  lemma CycleStep(s: Sweep, urls: seq<Text>, world: World, through: Time, budgets: seq<nat>)
    requires forall i | 0 <= i < |urls| :: urls[i] in s.kdqs
    requires budgets != [] && VisitAll(Restarted(s, budgets[0]), urls, world, through).Some?
    ensures Cycle(s, urls, world, through, budgets)
         == Cycle(VisitAll(Restarted(s, budgets[0]), urls, world, through).value, urls, world, through, budgets[1..])
    ensures Sum(budgets) == budgets[0] + Sum(budgets[1..])
  {
  }

  lemma NoRuns(s: Sweep, urls: seq<Text>, world: World, through: Time)
    requires forall i | 0 <= i < |urls| :: urls[i] in s.kdqs
    ensures Cycle(s, urls, world, through, []) == Some(s) && Sum([]) == 0
    ensures After(s, s, urls, world, through, 0)
  {
  }

  lemma FrozenListsAreHeld(s: Sweep, urls: seq<Text>, world: World, through: Time)
    requires Frozen(s, urls, world, through)
    ensures forall i | 0 <= i < |urls| :: urls[i] in s.kdqs
    ensures forall b :: Restarted(s, b).kdqs == s.kdqs
  {
  }

  lemma {:induction false} CycleConserves(s: Sweep, urls: seq<Text>, world: World, through: Time, budgets: seq<nat>)
    requires Frozen(s, urls, world, through) && Exact(s, urls, world, through)
    ensures Cycle(s, urls, world, through, budgets).Some?
    ensures After(s, Cycle(s, urls, world, through, budgets).value, urls, world, through,
                  Min(Sum(budgets), |Remaining(s, urls, world, through)|))
    decreases |budgets|
  {
    hide *;
    FrozenListsAreHeld(s, urls, world, through);
    if budgets == [] {
      NoRuns(s, urls, world, through);
      MinIs(0, |Remaining(s, urls, world, through)|);
    } else {
      var work := |Remaining(s, urls, world, through)|;
      MinIs(budgets[0], work);
      MinIs(Sum(budgets), work);
      OneRun(s, urls, world, through, budgets[0]);
      var t := VisitAll(Restarted(s, budgets[0]), urls, world, through).value;
      FrozenListsAreHeld(t, urls, world, through);
      CycleConserves(t, urls, world, through, budgets[1..]);
      CycleStep(s, urls, world, through, budgets);
      AfterMeans(s, t, urls, world, through, Min(budgets[0], work));
      var left := |Remaining(t, urls, world, through)|;
      MinIs(Sum(budgets[1..]), left);
      AfterTwice(s, t, Cycle(t, urls, world, through, budgets[1..]).value, urls, world, through,
                 Min(budgets[0], work), Min(Sum(budgets[1..]), left));
    }
  }

  lemma AfterMeans(s: Sweep, t: Sweep, urls: seq<Text>, world: World, through: Time, k: nat)
    requires After(s, t, urls, world, through, k)
    ensures |Remaining(t, urls, world, through)| == |Remaining(s, urls, world, through)| - k
  {
  }

  lemma AllButLastDone(s: Sweep, urls: seq<Text>)
    requires AllDone(s, urls) && urls != []
    ensures AllDone(s, urls[..|urls| - 1])
    ensures urls[|urls| - 1] in s.kdqs && s.kdqs[urls[|urls| - 1]].done
  {
    var init := urls[..|urls| - 1];
    assert forall i | 0 <= i < |init| :: init[i] == urls[i];
  }

  lemma {:induction false} DoneLeavesNothing(s: Sweep, urls: seq<Text>, world: World, through: Time)
    requires AllDone(s, urls)
    ensures Remaining(s, urls, world, through) == []
  {
    if urls != [] {
      AllButLastDone(s, urls);
      DoneLeavesNothing(s, urls[..|urls| - 1], world, through);
    }
  }

  /** Budget independence.  Whatever the budgets, a finished chain has folded all the work that
      was left, each item once, in its order, and holds the pending states that follow from it. */
  lemma FinishedChainFoldedEverything(s: Sweep, urls: seq<Text>, world: World, through: Time, budgets: seq<nat>)
    requires Frozen(s, urls, world, through) && Exact(s, urls, world, through)
    ensures Cycle(s, urls, world, through, budgets).Some?
    ensures var t := Cycle(s, urls, world, through, budgets).value;
            var work := Remaining(s, urls, world, through);
            AllDone(t, urls) ==> t.log == s.log + work && t.pending == FoldItems(s.pending, work)
  {
    CycleConserves(s, urls, world, through, budgets);
    var t := Cycle(s, urls, world, through, budgets).value;
    if AllDone(t, urls) {
      DoneLeavesNothing(t, urls, world, through);
      var work := Remaining(s, urls, world, through);
      assert work[..|work|] == work;
    }
  }

  // ---- the number of runs -------------------------------------------------------------------

  lemma {:induction false} DoneStaysDone(s: Sweep, urls: seq<Text>, world: World, through: Time)
    requires AllDone(s, urls)
    ensures VisitAll(s, urls, world, through) == Some(s)
  {
    if urls != [] {
      AllButLastDone(s, urls);
      DoneStaysDone(s, urls[..|urls| - 1], world, through);
    }
  }

  lemma {:induction false} DoneChainStaysDone(s: Sweep, urls: seq<Text>, world: World, through: Time, budgets: seq<nat>)
    requires AllDone(s, urls)
    ensures Cycle(s, urls, world, through, budgets).Some?
    ensures AllDone(Cycle(s, urls, world, through, budgets).value, urls)
    decreases |budgets|
  {
    if budgets != [] {
      var t := Restarted(s, budgets[0]);
      assert AllDone(t, urls);
      DoneStaysDone(t, urls, world, through);
      DoneChainStaysDone(t, urls, world, through, budgets[1..]);
    }
  }

  lemma RepeatStep(budget: nat, n: nat)
    requires n > 0
    ensures Repeat(budget, n) != [] && Repeat(budget, n)[0] == budget && Repeat(budget, n)[1..] == Repeat(budget, n - 1)
  {
  }

  lemma OneBudgetSpent(work: nat, budget: nat, n: nat)
    requires n * budget > work
    ensures n > 0
    ensures work >= budget ==> (n - 1) * budget > work - budget
  {
    assert n > 0;
    assert (n - 1) * budget == n * budget - budget;
  }

  lemma {:induction false} EnoughBudget(s: Sweep, urls: seq<Text>, world: World, through: Time, budget: nat, n: nat)
    requires Frozen(s, urls, world, through) && Exact(s, urls, world, through)
    requires n * budget > |Remaining(s, urls, world, through)|
    ensures Cycle(s, urls, world, through, Repeat(budget, n)).Some?
    ensures AllDone(Cycle(s, urls, world, through, Repeat(budget, n)).value, urls)
    decreases n
  {
    hide *;
    FrozenListsAreHeld(s, urls, world, through);
    var work := |Remaining(s, urls, world, through)|;
    OneBudgetSpent(work, budget, n);
    MinIs(budget, work);
    OneRun(s, urls, world, through, budget);
    var t := VisitAll(Restarted(s, budget), urls, world, through).value;
    AfterMeans(s, t, urls, world, through, Min(budget, work));
    RepeatStep(budget, n);
    CycleStep(s, urls, world, through, Repeat(budget, n));
    if work < budget {
      DoneChainStaysDone(t, urls, world, through, Repeat(budget, n - 1));
    } else {
      EnoughBudget(t, urls, world, through, budget, n - 1);
    }
  }

  lemma RunsSuffice(work: nat, budget: nat, n: nat)
    requires budget >= 1 && n >= work / budget + 1
    ensures n * budget > work
  {
    var q := work / budget;
    assert work == q * budget + work % budget;
    OneMore(q, budget);
    MultiplyKeepsOrder(q + 1, n, budget);
  }

  /** Under a constant budget B, a chain with N items left is finished after floor(N/B)+1 runs. */
  lemma FinishesInTime(s: Sweep, urls: seq<Text>, world: World, through: Time, budget: nat, n: nat)
    requires Frozen(s, urls, world, through) && Exact(s, urls, world, through)
    requires budget >= 1 && n >= |Remaining(s, urls, world, through)| / budget + 1
    ensures Cycle(s, urls, world, through, Repeat(budget, n)).Some?
    ensures AllDone(Cycle(s, urls, world, through, Repeat(budget, n)).value, urls)
  {
    RunsSuffice(|Remaining(s, urls, world, through)|, budget, n);
    EnoughBudget(s, urls, world, through, budget, n);
  }

  // ---- the order of the work ---------------------------------------------------------------------

  ghost predicate BeforeInWork(a: (Text, Item), b: (Text, Item)) {
    a.0 < b.0 || (a.0 == b.0 && Less(KeyOf(a.1), KeyOf(b.1)))
  }

  ghost predicate InWork(s: Sweep, u: Text, item: Item, world: World, through: Time) {
    u in s.kdqs && !s.kdqs[u].done && s.kdqs[u].from.Some? && world.listing(u).Some? && item in world.listing(u).value
    && Wanted(item, s.kdqs[u].from.value, through, Checkpoint(s.kdqs[u]))
  }

  lemma OwnWorkHolds(s: Sweep, u: Text, item: Item, world: World, through: Time)
    ensures item in RemainingOf(s, u, world, through) <==> InWork(s, u, item, world, through)
  {
    if u in s.kdqs && s.kdqs[u].from.Some? && world.listing(u).Some? {
      SelectionMeans(world.listing(u).value, s.kdqs[u].from.value, through, Checkpoint(s.kdqs[u]));
    }
  }

  /** The work of a frozen catch-up is every in-window item beyond its list's checkpoint ... */
  lemma {:induction false} WorkHolds(s: Sweep, urls: seq<Text>, world: World, through: Time, u: Text, item: Item)
    ensures (u, item) in Remaining(s, urls, world, through) <==> u in urls && InWork(s, u, item, world, through)
  {
    hide RemainingOf, InWork, Tagged;
    if urls != [] {
      var n := |urls| - 1;
      var init, url := urls[..n], urls[n];
      WorkHolds(s, init, world, through, u, item);
      assert urls == init + [url];
      OwnWorkHolds(s, url, item, world, through);
      TaggedHolds(url, RemainingOf(s, url, world, through), u, item);
    }
  }

  lemma TaggedHolds(url: Text, items: seq<Item>, u: Text, item: Item)
    ensures (u, item) in Tagged(url, items) <==> u == url && item in items
  {
    if u == url && item in items {
      var i :| 0 <= i < |items| && items[i] == item;
      assert Tagged(url, items)[i] == (u, item);
    }
  }

  ghost predicate WorkInOrder(work: seq<(Text, Item)>) {
    forall i, j | 0 <= i < j < |work| :: BeforeInWork(work[i], work[j])
  }

  lemma OrderedListAppends(first: seq<(Text, Item)>, url: Text, own: seq<Item>)
    requires WorkInOrder(first) && Increasing(own)
    requires forall i | 0 <= i < |first| :: first[i].0 < url
    ensures WorkInOrder(first + Tagged(url, own))
  {
    var last := Tagged(url, own);
    var work := first + last;
    assert forall j | 0 <= j < |own| :: last[j] == (url, own[j]);
    forall i, j | 0 <= i < j < |work| ensures BeforeInWork(work[i], work[j]) {
      if |first| <= j {
        assert work[j] == last[j - |first|];
        if |first| <= i {
          assert work[i] == last[i - |first|];
          assert Less(KeyOf(own[i - |first|]), KeyOf(own[j - |first|]));
        }
      }
    }
  }

  lemma OwnWorkIncreases(s: Sweep, url: Text, world: World, through: Time)
    requires SoundList(world, url)
    ensures Increasing(RemainingOf(s, url, world, through))
  {
    if url in s.kdqs && s.kdqs[url].from.Some? {
      SelectionMeans(world.listing(url).value, s.kdqs[url].from.value, through, Checkpoint(s.kdqs[url]));
    }
  }

  /** ... each once, by address, then modification time, then item id. */
  lemma {:induction false} WorkIsOrdered(s: Sweep, urls: seq<Text>, world: World, through: Time)
    requires Frozen(s, urls, world, through) && Ascending(urls)
    ensures WorkInOrder(Remaining(s, urls, world, through))
  {
    if urls != [] {
      var n := |urls| - 1;
      var init, url := urls[..n], urls[n];
      WorkIsOrdered(s, init, world, through);
      OwnWorkIncreases(s, url, world, through);
      var first := Remaining(s, init, world, through);
      hide Selected, SoundList, RemainingOf;
      forall i | 0 <= i < |first| ensures first[i].0 < url {
        assert (first[i].0, first[i].1) in first;
        WorkHolds(s, init, world, through, first[i].0, first[i].1);
        var m :| 0 <= m < n && init[m] == first[i].0;
        assert urls[m] < urls[n];
      }
      OrderedListAppends(first, url, RemainingOf(s, url, world, through));
    }
  }
}
