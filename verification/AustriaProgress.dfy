/** Austria: when a run raises instead of storing its progress.  It does exactly when work is left and every
    list with work left is blocked: unreachable, unreadable, or stuck at its first item. */
module AustriaProgress {
  import opened Common
  import opened Sorting
  import opened AustriaState
  import opened AustriaCatchup
  import opened AustriaBudget
  import opened AustriaRuns

  /** Nothing can be read of a list: it cannot be reached, an item has no readable time, or its first item
      that is due cannot be fetched or parsed. */
  ghost predicate Blocked(p: Progress, url: Text, world: World, through: Time)
    requires p.from.Some?
  {
    var items := world.listing(url);
    || items.None?
    || (exists i :: 0 <= i < |items.value| && items.value[i].lastmod.None?)
    || var due := Selected(items.value, p.from.value, through, Checkpoint(p)); due != [] && world.fails(url, due[0])
  }

  ghost predicate Ready(kdqs: map<Text, Progress>) {
    forall u | u in kdqs :: kdqs[u].dataset != 0 && kdqs[u].from.Some?
  }

  /** What a sweep has done so far is counted. */
  ghost predicate Idle(s: Sweep) {
    s.progressed == 0 && s.completed == 0
  }

  lemma BlockedVisitFails(s: Sweep, url: Text, world: World, through: Time)
    requires url in s.kdqs && Ready(s.kdqs) && s.budget > 0 && !s.kdqs[url].done
    requires Blocked(s.kdqs[url], url, world, through)
    ensures Visit(s, url, world, through) == Some(Failed(s))
  {
    var p, items := s.kdqs[url], world.listing(url);
    if items.Some? && Readable(items.value) {
      var due := Selected(items.value, p.from.value, through, Checkpoint(p));
      var batch := Batch(due, s.budget);
      assert batch[0] == due[0] && Hydrated(url, batch, world.fails) == 0;
      AdvanceNone(s, url, batch);
    }
    hide Selected, AdvanceAll;
  }

  lemma OpenVisitProgresses(s: Sweep, url: Text, world: World, through: Time)
    requires url in s.kdqs && Ready(s.kdqs) && s.budget > 0 && !s.kdqs[url].done
    requires !Blocked(s.kdqs[url], url, world, through)
    ensures Visit(s, url, world, through).Some? && !Idle(Visit(s, url, world, through).value)
  {
    var p, items := s.kdqs[url], world.listing(url).value;
    assert Readable(items);
    var due := Selected(items, p.from.value, through, Checkpoint(p));
    var batch := Batch(due, s.budget);
    HydratedIsAPrefix(url, batch, world.fails);
    var n := Hydrated(url, batch, world.fails);
    if due != [] {
      assert batch[0] == due[0];
      assert n > 0;
    }
    AdvanceAllCounts(s, url, batch[..n]);
    hide Selected, AdvanceAll, Hydrated;
  }

  lemma {:induction false} AdvanceAllCounts(s: Sweep, url: Text, items: seq<Item>)
    requires url in s.kdqs && |items| <= s.budget
    ensures var r := AdvanceAll(s, url, items); r.progressed == s.progressed + |items| && r.completed == s.completed
    ensures AdvanceAll(s, url, items).errors == s.errors
  {
    if items != [] {
      AdvanceAllCounts(s, url, items[..|items| - 1]);
    }
  }

  lemma VisitCounts(s: Sweep, url: Text, world: World, through: Time)
    requires url in s.kdqs && Visit(s, url, world, through).Some?
    ensures var t := Visit(s, url, world, through).value; t.progressed >= s.progressed && t.completed >= s.completed
    ensures s.kdqs[url].done ==> Visit(s, url, world, through).value == s
  {
    var p := s.kdqs[url];
    if !p.done && s.budget > 0 && world.listing(url).Some? && Readable(world.listing(url).value) {
      var batch := Batch(Selected(world.listing(url).value, p.from.value, through, Checkpoint(p)), s.budget);
      HydratedIsAPrefix(url, batch, world.fails);
      AdvanceAllCounts(s, url, batch[..Hydrated(url, batch, world.fails)]);
    }
    hide Selected, AdvanceAll, Hydrated;
  }

  /** A list of the sweep with work left, and not blocked. */
  ghost predicate Works(s: Sweep, url: Text, world: World, through: Time)
    requires url in s.kdqs && s.kdqs[url].from.Some?
  {
    !s.kdqs[url].done && !Blocked(s.kdqs[url], url, world, through)
  }

  ghost predicate SomeWorks(s: Sweep, urls: seq<Text>, world: World, through: Time)
    requires Ready(s.kdqs) && forall i | 0 <= i < |urls| :: urls[i] in s.kdqs
  {
    exists i :: 0 <= i < |urls| && Works(s, urls[i], world, through)
  }

  ghost predicate SomeIsLeft(s: Sweep, urls: seq<Text>)
    requires forall i | 0 <= i < |urls| :: urls[i] in s.kdqs
  {
    exists i :: 0 <= i < |urls| && !s.kdqs[urls[i]].done
  }

  lemma OneMoreList(s: Sweep, urls: seq<Text>, world: World, through: Time)
    requires urls != [] && Ready(s.kdqs) && forall i | 0 <= i < |urls| :: urls[i] in s.kdqs
    ensures var init, url := urls[..|urls| - 1], urls[|urls| - 1];
            && (SomeWorks(s, urls, world, through) <==> SomeWorks(s, init, world, through) || Works(s, url, world, through))
            && (SomeIsLeft(s, urls) <==> SomeIsLeft(s, init) || !s.kdqs[url].done)
  {
    hide Works;
    var init, n := urls[..|urls| - 1], |urls| - 1;
    assert forall i | 0 <= i < n :: urls[i] == init[i];
    if SomeWorks(s, init, world, through) {
      var i :| 0 <= i < n && Works(s, init[i], world, through);
      assert Works(s, urls[i], world, through);
    }
    if SomeIsLeft(s, init) {
      var i :| 0 <= i < n && !s.kdqs[init[i]].done;
      assert !s.kdqs[urls[i]].done;
    }
  }

  /** Until a list works, a sweep only counts errors, one for each blocked list. */
  lemma {:induction false} SweepWorksOrFails(s: Sweep, urls: seq<Text>, world: World, through: Time)
    requires forall i | 0 <= i < |urls| :: urls[i] in s.kdqs
    requires Ready(s.kdqs) && s.budget > 0 && Idle(s) && VisitAll(s, urls, world, through).Some?
    ensures var t := VisitAll(s, urls, world, through).value;
            if SomeWorks(s, urls, world, through) then !Idle(t)
            else t == s.(errors := t.errors) && t.errors >= s.errors && (t.errors > s.errors <==> SomeIsLeft(s, urls))
  {
    if urls != [] {
      var init, url := urls[..|urls| - 1], urls[|urls| - 1];
      VisitAllUnfolds(s, urls, world, through);
      OneMoreList(s, urls, world, through);
      hide SomeWorks, SomeIsLeft, VisitAll, Visit, Works, Ready;
      SweepWorksOrFails(s, init, world, through);
      var t := VisitAll(s, init, world, through).value;
      VisitCounts(t, url, world, through);
      if !SomeWorks(s, init, world, through) {
        OneMoreVisit(s, t, url, world, through);
      }
    }
  }

  lemma VisitAllUnfolds(s: Sweep, urls: seq<Text>, world: World, through: Time)
    requires urls != [] && (forall i | 0 <= i < |urls| :: urls[i] in s.kdqs)
    ensures var before := VisitAll(s, urls[..|urls| - 1], world, through);
            VisitAll(s, urls, world, through) == if before.None? then None else Visit(before.value, urls[|urls| - 1], world, through)
  {
    hide Visit;
  }

  lemma OneMoreVisit(s: Sweep, t: Sweep, url: Text, world: World, through: Time)
    requires url in s.kdqs && Ready(s.kdqs) && s.budget > 0 && Idle(s) && t == s.(errors := t.errors)
    requires Visit(t, url, world, through).Some?
    ensures var u := Visit(t, url, world, through).value;
            if Works(s, url, world, through) then !Idle(u)
            else u == s.(errors := u.errors) && u.errors == t.errors + if s.kdqs[url].done then 0 else 1
  {
    hide Visit, Blocked;
    if s.kdqs[url].done {
      VisitCounts(t, url, world, through);
    } else if Works(s, url, world, through) {
      OpenVisitProgresses(t, url, world, through);
    } else {
      BlockedVisitFails(t, url, world, through);
    }
  }

  /** A run with room for at least one notice, over a catch-up whose entries are valid, raises exactly when some
      list is not done and every list that is not done is blocked; otherwise its progress is stored. */
  lemma BlockedRunRaises(cursor: Cursor, c: Catchup, world: World, budget: nat, now: Time)
    requires budget >= 1 && c.through.Some? && Ready(c.kdqs) && Swept(cursor, c, world, budget).Some?
    ensures Settle(cursor, c, Swept(cursor, c, world, budget).value, now).Err?
       <==> (exists u :: u in c.kdqs && !c.kdqs[u].done)
            && forall u | u in c.kdqs && !c.kdqs[u].done :: Blocked(c.kdqs[u], u, world, c.through.value)
  {
    var s0, urls, through := StartOf(cursor, c, budget), Listed(c.kdqs.Keys), c.through.value;
    var t := Swept(cursor, c, world, budget).value;
    SweepWorksOrFails(s0, urls, world, through);
    EveryListIsVisited(s0, c, urls, world);
    hide VisitAll, Blocked, ReconcileRecords, Reconciled, SomeWorks, SomeIsLeft, Listed, Ready;
    if !SomeWorks(s0, urls, world, through) && SomeIsLeft(s0, urls) {
      assert t.kdqs == c.kdqs && t.errors > 0 && !AllListsDone(t.kdqs);
    } else if !SomeIsLeft(s0, urls) {
      assert forall u | u in c.kdqs :: c.kdqs[u].done;
    }
  }

  lemma EveryListIsVisited(s: Sweep, c: Catchup, urls: seq<Text>, world: World)
    requires Ready(c.kdqs) && s.kdqs == c.kdqs && c.through.Some? && forall u :: u in urls <==> u in c.kdqs
    ensures forall i | 0 <= i < |urls| :: urls[i] in s.kdqs
    ensures SomeIsLeft(s, urls) <==> exists u :: u in c.kdqs && !c.kdqs[u].done
    ensures !SomeWorks(s, urls, world, c.through.value)
       <==> forall u | u in c.kdqs && !c.kdqs[u].done :: Blocked(c.kdqs[u], u, world, c.through.value)
  {
    hide Blocked;
    assert forall i | 0 <= i < |urls| :: urls[i] in urls;
    forall u | u in c.kdqs ensures exists i :: 0 <= i < |urls| && urls[i] == u {
      assert u in urls;
    }
    if u :| u in c.kdqs && !c.kdqs[u].done && !Blocked(c.kdqs[u], u, world, c.through.value) {
      var i :| 0 <= i < |urls| && urls[i] == u;
      assert Works(s, urls[i], world, c.through.value);
    }
  }

  lemma {:induction false} ReadySweepIsNotAbandoned(s: Sweep, urls: seq<Text>, world: World, through: Time)
    requires forall i | 0 <= i < |urls| :: urls[i] in s.kdqs
    requires Ready(s.kdqs)
    ensures VisitAll(s, urls, world, through).Some? && Ready(VisitAll(s, urls, world, through).value.kdqs)
  {
    if urls != [] {
      var t := VisitAll(s, urls[..|urls| - 1], world, through);
      ReadySweepIsNotAbandoned(s, urls[..|urls| - 1], world, through);
      ReadyVisit(t.value, urls[|urls| - 1], world, through);
    }
    hide Visit;
  }

  lemma ReadyVisit(s: Sweep, url: Text, world: World, through: Time)
    requires url in s.kdqs && Ready(s.kdqs)
    ensures Visit(s, url, world, through).Some? && Ready(Visit(s, url, world, through).value.kdqs)
  {
    var p := s.kdqs[url];
    if !p.done && s.budget > 0 && world.listing(url).Some? && Readable(world.listing(url).value) {
      var batch := Batch(Selected(world.listing(url).value, p.from.value, through, Checkpoint(p)), s.budget);
      HydratedIsAPrefix(url, batch, world.fails);
      ReadyAdvance(s, url, batch[..Hydrated(url, batch, world.fails)]);
    }
    hide Selected, AdvanceAll, Hydrated;
  }

  lemma {:induction false} ReadyAdvance(s: Sweep, url: Text, items: seq<Item>)
    requires url in s.kdqs && |items| <= s.budget && Ready(s.kdqs)
    ensures Ready(AdvanceAll(s, url, items).kdqs)
  {
    if items != [] {
      ReadyAdvance(s, url, items[..|items| - 1]);
    }
  }

  /** The catch-up a run works on: the stored one, or one that is frozen now. */
  function WorkedOn(settings: Settings, cursor: Cursor, input: Input): Option<Catchup> {
    if cursor.catchup.Some? then cursor.catchup
    else if input.catalogue.None? then None
    else Some(NewCatchup(settings, cursor, input.catalogue.value, input.now))
  }

  ghost predicate EveryListIsBlocked(c: Catchup, world: World)
    requires c.through.Some? && Ready(c.kdqs)
  {
    && (exists u :: u in c.kdqs && !c.kdqs[u].done)
    && forall u | u in c.kdqs && !c.kdqs[u].done :: Blocked(c.kdqs[u], u, world, c.through.value)
  }

  /** When a run raises: the cursor or the horizon is more than five minutes ahead of the clock, there is no
      catalogue to freeze, no list to read, or every list with work left is blocked; and in no other case. */
  lemma RunRaisesExactly(settings: Settings, budget: nat, cursor: Cursor, input: Input)
    requires budget >= 1
    requires cursor.catchup.Some? ==> Ready(cursor.catchup.value.kdqs)
    requires input.catalogue.Some? ==> forall u | u in input.catalogue.value :: input.catalogue.value[u] != 0
    ensures
      var c := WorkedOn(settings, cursor, input);
      && (c.Some? ==> Ready(c.value.kdqs))
      && (Run(settings, budget, cursor, input).Err?
          <==> || (cursor.observed.Some? && cursor.observed.value > input.now + 300_000_000)
               || c.None? || c.value.through.None? || c.value.through.value > input.now + 300_000_000
               || c.value.kdqs == map[] || EveryListIsBlocked(c.value, input.world))
  {
    WorkedOnIsReady(settings, cursor, input);
    ResumedIs(settings, cursor, input);
    hide *;
    var c := WorkedOn(settings, cursor, input);
    RunIs(settings, budget, cursor, input);
    if c.Some? && c.value.through.Some? {
      NothingAbandoned(cursor, c.value, budget, input.world);
      BlockedRunRaises(cursor, c.value, input.world, budget, input.now);
      BlockedMeans(c.value, input.world);
    }
  }

  lemma BlockedMeans(c: Catchup, world: World)
    requires c.through.Some? && Ready(c.kdqs)
    ensures EveryListIsBlocked(c, world)
       <==> (exists u :: u in c.kdqs && !c.kdqs[u].done)
            && forall u | u in c.kdqs && !c.kdqs[u].done :: Blocked(c.kdqs[u], u, world, c.through.value)
  {
    hide Blocked;
  }

  lemma WorkedOnIsReady(settings: Settings, cursor: Cursor, input: Input)
    requires cursor.catchup.Some? ==> Ready(cursor.catchup.value.kdqs)
    requires input.catalogue.Some? ==> forall u | u in input.catalogue.value :: input.catalogue.value[u] != 0
    ensures var c := WorkedOn(settings, cursor, input); c.Some? ==> Ready(c.value.kdqs)
  {
  }

  lemma ResumedIs(settings: Settings, cursor: Cursor, input: Input)
    ensures var c := WorkedOn(settings, cursor, input);
            && (Resumed(settings, cursor, input).None?
                <==> || (cursor.observed.Some? && cursor.observed.value > input.now + 300_000_000)
                     || c.None? || c.value.through.None? || c.value.through.value > input.now + 300_000_000
                     || c.value.kdqs == map[])
            && (Resumed(settings, cursor, input).Some? ==> Resumed(settings, cursor, input) == c)
  {
    hide NewCatchup;
  }

  lemma RunIs(settings: Settings, budget: nat, cursor: Cursor, input: Input)
    ensures var c := Resumed(settings, cursor, input);
            && (c.None? ==> Run(settings, budget, cursor, input).Err?)
            && (c.Some? ==>
                  && c.value.through.Some?
                  && var s := Swept(cursor, c.value, input.world, budget);
                  && (s.Some? ==> Run(settings, budget, cursor, input) == Settle(cursor, c.value, s.value, input.now)))
  {
    hide Swept, Settle, NewCatchup;
  }

  lemma NothingAbandoned(cursor: Cursor, c: Catchup, budget: nat, world: World)
    requires c.through.Some? && Ready(c.kdqs)
    ensures Swept(cursor, c, world, budget).Some?
  {
    ReadySweepIsNotAbandoned(StartOf(cursor, c, budget), Listed(c.kdqs.Keys), world, c.through.value);
    hide VisitAll;
  }
}
