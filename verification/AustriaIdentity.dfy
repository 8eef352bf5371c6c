/** Austria: identity by publication alias over whole runs.  Started from nothing, every legacy
    alias is owned by at most one lot at every moment, in the tracked states and in a pending
    catch-up, so a later notice with a known alias always finds its lot. */
module AustriaIdentity {
  import opened Common
  import opened Sorting
  import opened AustriaState
  import opened AustriaCatchup
  import opened AustriaBudget
  import opened AustriaRuns

  // ---- what a sweep folds ----------------------------------------------------------------------

  ghost predicate YieldedBy(world: World, state: State) {
    exists u, item :: world.listing(u).Some? && item in world.listing(u).value && state in item.states
  }

  lemma {:induction false} FoldStatesInPieces(pending: States, first: seq<State>, second: seq<State>)
    ensures FoldStates(pending, first + second) == FoldStates(FoldStates(pending, first), second)
  {
    if second == [] {
      assert first + second == first;
    } else {
      var n := |second| - 1;
      FoldStatesInPieces(pending, first, second[..n]);
      assert (first + second)[..|first + second| - 1] == first + second[..n];
    }
  }

  lemma {:induction false} BatchFolds(s: Sweep, url: Text, items: seq<Item>, world: World) returns (states: seq<State>)
    requires url in s.kdqs && |items| <= s.budget && world.listing(url).Some?
    requires forall item | item in items :: item in world.listing(url).value
    ensures AdvanceAll(s, url, items).pending == FoldStates(s.pending, states)
    ensures forall st | st in states :: YieldedBy(world, st)
  {
    states := [];
    if items != [] {
      var n := |items| - 1;
      assert forall item | item in items[..n] :: item in items;
      var before := BatchFolds(s, url, items[..n], world);
      assert items[n] in items;
      FoldStatesInPieces(s.pending, before, items[n].states);
      states := before + items[n].states;
    }
  }

  lemma VisitFolds(s: Sweep, url: Text, world: World, through: Time) returns (states: seq<State>)
    requires url in s.kdqs && Visit(s, url, world, through).Some?
    ensures Visit(s, url, world, through).value.pending == FoldStates(s.pending, states)
    ensures forall st | st in states :: YieldedBy(world, st)
  {
    var p := s.kdqs[url];
    states := [];
    if !p.done && s.budget > 0 && world.listing(url).Some? && Readable(world.listing(url).value) {
      var items := world.listing(url).value;
      var selected := Selected(items, p.from.value, through, Checkpoint(p));
      SelectionMeans(items, p.from.value, through, Checkpoint(p));
      var batch := Batch(selected, s.budget);
      HydratedIsAPrefix(url, batch, world.fails);
      var folded := batch[..Hydrated(url, batch, world.fails)];
      forall item | item in folded ensures item in items {
        assert item in selected;
      }
      states := BatchFolds(s, url, folded, world);
      hide Selected, AdvanceAll, Hydrated;
    }
  }

  /** A sweep folds, in some order, states that the publishers' notices yield. */
  lemma {:induction false} SweepFolds(s: Sweep, urls: seq<Text>, world: World, through: Time) returns (states: seq<State>)
    requires forall i | 0 <= i < |urls| :: urls[i] in s.kdqs
    requires VisitAll(s, urls, world, through).Some?
    ensures VisitAll(s, urls, world, through).value.pending == FoldStates(s.pending, states)
    ensures forall st | st in states :: YieldedBy(world, st)
  {
    hide Visit, YieldedBy;
    states := [];
    if urls != [] {
      var before := SweepFolds(s, urls[..|urls| - 1], world, through);
      var t := VisitAll(s, urls[..|urls| - 1], world, through).value;
      var own := VisitFolds(t, urls[|urls| - 1], world, through);
      FoldStatesInPieces(s.pending, before, own);
      states := before + own;
    }
  }

  // ---- ownership through a sweep and a reconcile ---------------------------------------------------

  ghost predicate ParsedWorld(world: World, legacyKey: Text -> bool) {
    forall st | YieldedBy(world, st) :: Parsed(st, legacyKey)
  }

  ghost predicate OwnedWithin(tracked: States, pending: States) {
    forall a | a != 0 :: Owners(tracked, a) <= Owners(pending, a)
  }

  /** The states tracked and pending agree on identities, and no alias has two owners. */
  ghost predicate Identified(tracked: States, pending: States, legacyKey: Text -> bool) {
    && Keyed(tracked, legacyKey) && Keyed(pending, legacyKey)
    && UniqueOwnership(pending) && OwnedWithin(tracked, pending)
  }

  lemma SweepKeepsIdentities(tracked: States, s: Sweep, urls: seq<Text>, world: World, through: Time, legacyKey: Text -> bool)
    requires forall i | 0 <= i < |urls| :: urls[i] in s.kdqs
    requires VisitAll(s, urls, world, through).Some? && ParsedWorld(world, legacyKey)
    requires Identified(tracked, s.pending, legacyKey)
    ensures Identified(tracked, VisitAll(s, urls, world, through).value.pending, legacyKey)
  {
    hide VisitAll;
    var states := SweepFolds(s, urls, world, through);
    forall i | 0 <= i < |states| ensures Parsed(states[i], legacyKey) {
      assert states[i] in states;
    }
    OwnershipIsStable(s.pending, states, legacyKey);
    hide FoldStates;
    var pending := FoldStates(s.pending, states);
    forall a | a != 0 ensures Owners(tracked, a) <= Owners(pending, a) {
      if Owners(tracked, a) != {} {
        var key :| key in Owners(tracked, a);
        assert key in Owners(s.pending, a);
      }
    }
  }

  lemma ReconciledLot(previous: Option<State>, pending: Option<State>, now: Time, x: Text, legacyKey: Text -> bool, a: Text)
    requires previous.Some? ==> previous.value.externalId == x && (previous.value.legacy <==> legacyKey(x))
    requires pending.Some? ==> pending.value.externalId == x && (pending.value.legacy <==> legacyKey(x))
    requires a != 0
    ensures var kept := ReconcileOne(previous, pending, now).1;
            kept.Some? ==> kept.value.externalId == x && (kept.value.legacy <==> legacyKey(x))
                           && (a in kept.value.aliases ==> (previous.Some? && a in previous.value.aliases)
                                                           || (pending.Some? && a in pending.value.aliases))
  {
    if pending.Some? {
      MergedAliases(previous, pending.value, a);
      hide Merged;
    }
  }

  lemma ReconcileKeepsIdentities(baseline: States, pending: States, now: Time, legacyKey: Text -> bool)
    requires Identified(baseline, pending, legacyKey)
    ensures var tracked := Reconciled(baseline, pending, now); Identified(tracked, tracked, legacyKey)
  {
    var tracked := Reconciled(baseline, pending, now);
    hide ReconcileOne;
    forall x | x in tracked ensures tracked[x].externalId == x && (tracked[x].legacy <==> legacyKey(x)) {
      ReconciledLot(Get(baseline, x), Get(pending, x), now, x, legacyKey, 1);
    }
    forall a, x | a != 0 && x in Owners(tracked, a) ensures x in Owners(pending, a) {
      ReconciledLot(Get(baseline, x), Get(pending, x), now, x, legacyKey, a);
      if x in baseline && a in baseline[x].aliases {
        assert x in Owners(baseline, a);
      }
    }
  }

  // ---- every run ---------------------------------------------------------------------------------------

  lemma RunKeepsIdentities(settings: Settings, sys: System, a: Attempt, legacyKey: Text -> bool)
    requires Identified(sys.cursor.tracked, PendingOf(sys.cursor), legacyKey) && ParsedWorld(a.input.world, legacyKey)
    ensures var after := Step(settings, sys, a); Identified(after.cursor.tracked, PendingOf(after.cursor), legacyKey)
  {
    if Run(settings, a.budget, sys.cursor, a.input).Ok? {
      hide Run, Settle, Identified, VisitAll, ReconcileRecords, Reconciled, ParsedWorld;
      var c, s := RunParts(settings, a.budget, sys.cursor, a.input);
      SettleParts(sys.cursor, c, s, a.input.now);
      SweepKeepsIdentities(sys.cursor.tracked, StartOf(sys.cursor, c, a.budget), Listed(c.kdqs.Keys), a.input.world,
                           c.through.value, legacyKey);
      if AllListsDone(s.kdqs) {
        ReconcileKeepsIdentities(sys.cursor.tracked, s.pending, a.input.now, legacyKey);
      }
    }
  }

  /** Alias identity is stable over any history of runs: ownership stays unique in the tracked and
      in the pending states, which is what KnownAliasMergesIntoItsOwner needs of every fold. */
  lemma {:induction false} AliasesKeepOneOwner(settings: Settings, history: seq<Attempt>, legacyKey: Text -> bool)
    requires forall i | 0 <= i < |history| :: ParsedWorld(history[i].input.world, legacyKey)
    ensures var sys := After(settings, history);
            && Identified(sys.cursor.tracked, PendingOf(sys.cursor), legacyKey)
            && UniqueOwnership(sys.cursor.tracked) && UniqueOwnership(PendingOf(sys.cursor))
  {
    if history == [] {
    } else {
      hide Step, ParsedWorld;
      AliasesKeepOneOwner(settings, history[..|history| - 1], legacyKey);
      RunKeepsIdentities(settings, After(settings, history[..|history| - 1]), history[|history| - 1], legacyKey);
    }
  }
}
