/** Austria: nothing is skipped, whatever fails.  Lists may be unreachable, notices may fail, and
    lists may change in any run; still every item that is listed throughout has been folded once it
    lies at or below a checkpoint, or in the window of a list marked done. */
module AustriaNoSkip {
  import opened Common
  import opened Sorting
  import opened AustriaState
  import opened AustriaCatchup
  import opened AustriaBudget
  import opened AustriaCycle

  /** A list holds these items, whatever else it holds, and orders its items strictly. */
  ghost predicate Lists(items: seq<Item>, least: set<Item>) {
    DistinctKeys(items) && forall item | item in least :: item in items
  }

  /** In a run a list is either unreachable or holds at least the given items; what else it holds,
      and which notices fail, is arbitrary. */
  ghost predicate Publishes(world: World, listing: Text -> set<Item>) {
    forall u :: world.listing(u).None? || Lists(world.listing(u).value, listing(u))
  }

  ghost predicate Passed(p: Progress, item: Item) {
    p.done || (Checkpoint(p).Some? && AtMost(KeyOf(item), Checkpoint(p).value))
  }

  /** Every in-window item that a list's progress claims to have passed is in the log. */
  ghost predicate NoSkip(s: Sweep, listing: Text -> set<Item>, through: Time) {
    forall u, item | u in s.kdqs && s.kdqs[u].from.Some? && item in listing(u)
      && s.kdqs[u].from.value <= KeyOf(item).time <= through && Passed(s.kdqs[u], item) :: (u, item) in s.log
  }

  /** The pending states are the fold of what was logged since s. */
  ghost predicate Accounted(s: Sweep, t: Sweep) {
    s.log <= t.log && t.pending == FoldItems(s.pending, t.log[|s.log|..])
  }

  lemma AccountedTwice(s: Sweep, t: Sweep, u: Sweep)
    requires Accounted(s, t) && Accounted(t, u)
    ensures Accounted(s, u)
  {
    FoldItemsInPieces(s.pending, t.log[|s.log|..], u.log[|t.log|..]);
    assert u.log[|s.log|..] == t.log[|s.log|..] + u.log[|t.log|..];
  }

  lemma TruncatedIsNoLater(key: Key, item: Item)
    ensures AtMost(KeyOf(item), Stored(key)) ==> AtMost(KeyOf(item), key)
  {
  }

  /** A folded prefix of a selection contains every selected item up to its last one. */
  lemma PrefixHasTheSmaller(selected: seq<Item>, n: nat, item: Item)
    requires Increasing(selected) && 0 < n <= |selected| && item in selected
    requires AtMost(KeyOf(item), KeyOf(selected[n - 1]))
    ensures item in selected[..n]
  {
    var j :| 0 <= j < |selected| && selected[j] == item;
    assert j < n;
    assert selected[..n][j] == item;
  }

  /** One list: the log grows by a prefix of its selection, and the new progress claims no more. */
  lemma ConsumeSkipsNothing(s: Sweep, url: Text, items: seq<Item>, world: World, through: Time, item: Item)
    requires url in s.kdqs && !s.kdqs[url].done && s.kdqs[url].from.Some? && DistinctKeys(items)
    requires item in items && s.kdqs[url].from.value <= KeyOf(item).time <= through
    requires Passed(s.kdqs[url], item) ==> (url, item) in s.log
    ensures var p := s.kdqs[url];
            var t := Consume(s, url, Selected(items, p.from.value, through, Checkpoint(p)), world.fails, through);
            Passed(t.kdqs[url], item) ==> (url, item) in t.log
  {
    var p := s.kdqs[url];
    var selected := Selected(items, p.from.value, through, Checkpoint(p));
    SelectionMeans(items, p.from.value, through, Checkpoint(p));
    var t := Consume(s, url, selected, world.fails, through);
    hide Selected, Consume;
    var n := ConsumeFoldsAPrefix(s, url, selected, world, through);
    if Passed(t.kdqs[url], item) && !Passed(p, item) {
      assert item in selected;
      if t.kdqs[url].done {
        assert selected[..n] == selected;
      } else {
        TruncatedIsNoLater(KeyOf(selected[n - 1]), item);
        PrefixHasTheSmaller(selected, n, item);
      }
    }
  }

  /** What consuming a selection folds, and how far its new progress claims to be. */
  lemma ConsumeFoldsAPrefix(s: Sweep, url: Text, selected: seq<Item>, world: World, through: Time) returns (n: nat)
    requires url in s.kdqs && !s.kdqs[url].done
    ensures n <= |selected|
    ensures var p, t := s.kdqs[url], Consume(s, url, selected, world.fails, through);
            && url in t.kdqs && s.log <= t.log
            && (forall item | item in selected[..n] :: (url, item) in t.log)
            && (t.kdqs[url].done ==> n == |selected|)
            && t.kdqs[url].after == if n == 0 then p.after else Some(Stored(KeyOf(selected[n - 1])))
  {
    var batch := Batch(selected, s.budget);
    HydratedIsAPrefix(url, batch, world.fails);
    n := Hydrated(url, batch, world.fails);
    AdvanceAllMeans(s, url, batch[..n]);
    assert batch[..n] == selected[..n];
    forall item | item in selected[..n] ensures (url, item) in Tagged(url, selected[..n]) {
      TaggedHolds(url, selected[..n], url, item);
    }
    hide AdvanceAll, Hydrated, FoldItems, Tagged;
  }

  lemma ConsumeAccounts(s: Sweep, url: Text, selected: seq<Item>, world: World, through: Time)
    requires url in s.kdqs
    ensures var t := Consume(s, url, selected, world.fails, through);
            Accounted(s, t) && SameWindows(s, t) && forall u | u in s.kdqs && u != url :: t.kdqs[u] == s.kdqs[u]
  {
    var batch := Batch(selected, s.budget);
    HydratedIsAPrefix(url, batch, world.fails);
    AdvanceAllMeans(s, url, batch[..Hydrated(url, batch, world.fails)]);
    hide AdvanceAll, Hydrated, FoldItems, Tagged;
  }

  lemma VisitSkipsNothing(s: Sweep, url: Text, world: World, through: Time, listing: Text -> set<Item>)
    requires url in s.kdqs && Publishes(world, listing) && NoSkip(s, listing, through)
    requires Visit(s, url, world, through).Some?
    ensures var t := Visit(s, url, world, through).value; NoSkip(t, listing, through) && Accounted(s, t) && SameWindows(s, t)
  {
    hide Consume, Selected, FoldItems;
    var p := s.kdqs[url];
    var t := Visit(s, url, world, through).value;
    if p.done || s.budget == 0 || world.listing(url).None? || !Readable(world.listing(url).value) {
      AccountedForItself(s);
    } else {
      var items := world.listing(url).value;
      var selected := Selected(items, p.from.value, through, Checkpoint(p));
      assert Lists(items, listing(url));
      ConsumeAccounts(s, url, selected, world, through);
      forall u, item | u in t.kdqs && t.kdqs[u].from.Some? && item in listing(u)
        && t.kdqs[u].from.value <= KeyOf(item).time <= through && Passed(t.kdqs[u], item)
        ensures (u, item) in t.log
      {
        if u == url {
          ConsumeSkipsNothing(s, url, items, world, through, item);
        }
      }
    }
  }

  /** Whatever the lists hold, the pending states follow the log. */
  lemma {:induction false} SweepAccounts(s: Sweep, urls: seq<Text>, world: World, through: Time)
    requires forall i | 0 <= i < |urls| :: urls[i] in s.kdqs
    requires VisitAll(s, urls, world, through).Some?
    ensures Accounted(s, VisitAll(s, urls, world, through).value)
  {
    hide Consume, Selected, Accounted, Readable, FoldItems;
    if urls == [] {
      AccountedForItself(s);
    } else {
      var init, url := urls[..|urls| - 1], urls[|urls| - 1];
      SweepAccounts(s, init, world, through);
      var t := VisitAll(s, init, world, through).value;
      VisitAccounts(t, url, world, through);
      AccountedTwice(s, t, Visit(t, url, world, through).value);
    }
  }

  lemma VisitAccounts(s: Sweep, url: Text, world: World, through: Time)
    requires url in s.kdqs && Visit(s, url, world, through).Some?
    ensures Accounted(s, Visit(s, url, world, through).value)
  {
    hide Consume, Selected, FoldItems;
    var p := s.kdqs[url];
    AccountedForItself(s);
    if !p.done && s.budget > 0 && world.listing(url).Some? && Readable(world.listing(url).value) {
      ConsumeAccounts(s, url, Selected(world.listing(url).value, p.from.value, through, Checkpoint(p)), world, through);
    }
  }

  lemma AccountedForItself(s: Sweep)
    ensures Accounted(s, s)
  {
  }

  lemma {:induction false} SweepSkipsNothing(s: Sweep, urls: seq<Text>, world: World, through: Time, listing: Text -> set<Item>)
    requires forall i | 0 <= i < |urls| :: urls[i] in s.kdqs
    requires Publishes(world, listing) && NoSkip(s, listing, through)
    requires VisitAll(s, urls, world, through).Some?
    ensures var t := VisitAll(s, urls, world, through).value;
            NoSkip(t, listing, through) && Accounted(s, t) && SameWindows(s, t)
  {
    hide Visit, NoSkip, Accounted, Publishes;
    if urls == [] {
      AccountedForItself(s);
    } else {
      var init, url := urls[..|urls| - 1], urls[|urls| - 1];
      SweepSkipsNothing(s, init, world, through, listing);
      var t := VisitAll(s, init, world, through).value;
      VisitSkipsNothing(t, url, world, through, listing);
      AccountedTwice(s, t, Visit(t, url, world, through).value);
    }
  }

  // ---- a whole catch-up with failures ------------------------------------------------------------

  datatype Trial = Trial(world: World, budget: nat)

  /** The runs of one catch-up; a run abandoned over an invalid entry ends the chain. */
  function Attempts(s: Sweep, urls: seq<Text>, through: Time, attempts: seq<Trial>): (r: Option<Sweep>)
    requires forall i | 0 <= i < |urls| :: urls[i] in s.kdqs
    ensures r.Some? ==> r.value.kdqs.Keys == s.kdqs.Keys
    decreases |attempts|
  {
    if attempts == [] then Some(s)
    else
      var t := VisitAll(Restarted(s, attempts[0].budget), urls, attempts[0].world, through);
      if t.None? then None else Attempts(t.value, urls, through, attempts[1..])
  }

  lemma RestartSkipsNothing(s: Sweep, budget: nat, listing: Text -> set<Item>, through: Time)
    requires NoSkip(s, listing, through)
    ensures NoSkip(Restarted(s, budget), listing, through) && Accounted(s, Restarted(s, budget))
  {
  }

  /** Over any sequence of runs with any failures over changing lists, no item listed throughout has
      been skipped at or below a checkpoint or in a finished list, and the pending states are the
      fold of the log. */
  lemma {:induction false} NothingIsSkipped(s: Sweep, urls: seq<Text>, through: Time, attempts: seq<Trial>,
                                            listing: Text -> set<Item>)
    requires forall i | 0 <= i < |urls| :: urls[i] in s.kdqs
    requires NoSkip(s, listing, through)
    requires forall i | 0 <= i < |attempts| :: Publishes(attempts[i].world, listing)
    requires Attempts(s, urls, through, attempts).Some?
    ensures var t := Attempts(s, urls, through, attempts).value;
            NoSkip(t, listing, through) && Accounted(s, t) && SameWindows(s, t)
    decreases |attempts|
  {
    hide VisitAll, NoSkip, Accounted, Publishes;
    if attempts == [] {
      AccountedForItself(s);
    } else {
      var r := Restarted(s, attempts[0].budget);
      RestartSkipsNothing(s, attempts[0].budget, listing, through);
      SweepSkipsNothing(r, urls, attempts[0].world, through, listing);
      var t := VisitAll(r, urls, attempts[0].world, through).value;
      NothingIsSkipped(t, urls, through, attempts[1..], listing);
      AccountedTwice(s, r, t);
      AccountedTwice(s, t, Attempts(t, urls, through, attempts[1..]).value);
    }
  }

  /** A newly frozen catch-up claims nothing, so the invariant holds from its start. */
  lemma NewCatchupSkipsNothing(s: Sweep, listing: Text -> set<Item>, through: Time)
    requires forall u | u in s.kdqs :: !s.kdqs[u].done && s.kdqs[u].after.None?
    ensures NoSkip(s, listing, through)
  {
  }
}
