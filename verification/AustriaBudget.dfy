/** Austria: budget independence of the frozen catch-up.  Without failures a sweep moves a prefix
    of the remaining work into the log and loses nothing, so every schedule of budgets folds the
    same items in the same order; and that conservation holds exactly when the stored, truncated
    checkpoints can tell the items apart. */
module AustriaBudget {
  import opened Common
  import opened Sorting
  import opened AustriaState
  import opened AustriaCatchup

  // ---- lists -----------------------------------------------------------------------------

  /** A list as the property assumes it: served, readable, with distinct keys and real ids. */
  ghost predicate SoundList(world: World, url: Text) {
    && world.listing(url).Some?
    && Readable(world.listing(url).value)
    && DistinctKeys(world.listing(url).value)
    && (forall i | 0 <= i < |world.listing(url).value| :: world.listing(url).value[i].id != 0)
    && (forall item :: !world.fails(url, item))
  }

  ghost predicate DistinctKeys(items: seq<Item>) {
    forall i, j | 0 <= i < j < |items| :: KeyOf(items[i]) != KeyOf(items[j])
  }

  ghost predicate Increasing(items: seq<Item>) {
    forall i, j | 0 <= i < j < |items| :: Less(KeyOf(items[i]), KeyOf(items[j]))
  }

  /** The items of a window in folding order. */
  function InWindow(items: seq<Item>, start: Time, through: Time): seq<Item> {
    Selected(items, start, through, None)
  }

  lemma OrderIsTotal()
    ensures Orders(InOrder())
  {
  }

  lemma {:induction false} KeepStaysDistinct(items: seq<Item>, p: Item -> bool)
    requires DistinctKeys(items)
    ensures DistinctKeys(Keep(items, p))
  {
    if items != [] {
      KeepStaysDistinct(items[1..], p);
      KeepMembers(items[1..], p);
      var rest := Keep(items[1..], p);
      forall i | 0 <= i < |rest| ensures KeyOf(rest[i]) != KeyOf(items[0]) {
        assert rest[i] in items[1..];
      }
    }
  }

  lemma {:induction false} InsertIncreases(item: Item, items: seq<Item>)
    requires Increasing(items) && forall i | 0 <= i < |items| :: KeyOf(items[i]) != KeyOf(item)
    ensures Increasing(Insert(item, items, InOrder()))
  {
    if items == [] || InOrder()(item, items[0]) {
    } else {
      InsertIncreases(item, items[1..]);
      InsertKeeps(item, items[1..], InOrder());
      var tail := Insert(item, items[1..], InOrder());
      forall i | 0 <= i < |tail| ensures Less(KeyOf(items[0]), KeyOf(tail[i])) {
        assert tail[i] == item || tail[i] in items[1..];
      }
    }
  }

  lemma {:induction false} SortIncreases(items: seq<Item>)
    requires DistinctKeys(items)
    ensures Increasing(Sort(items, InOrder()))
  {
    if items != [] {
      SortIncreases(items[1..]);
      SortKeeps(items[1..], InOrder());
      var rest := Sort(items[1..], InOrder());
      forall i | 0 <= i < |rest| ensures KeyOf(rest[i]) != KeyOf(items[0]) {
        assert rest[i] in items[1..];
      }
      InsertIncreases(items[0], rest);
    }
  }

  /** A selection is increasing and holds exactly the wanted items. */
  lemma SelectionMeans(items: seq<Item>, start: Time, through: Time, checkpoint: Option<Key>)
    ensures forall item :: item in Selected(items, start, through, checkpoint)
                           <==> item in items && Wanted(item, start, through, checkpoint)
    ensures DistinctKeys(items) ==> Increasing(Selected(items, start, through, checkpoint))
  {
    var p := Wants(start, through, checkpoint);
    KeepMembers(items, p);
    SortKeeps(Keep(items, p), InOrder());
    if DistinctKeys(items) {
      KeepStaysDistinct(items, p);
      SortIncreases(Keep(items, p));
    }
  }

  lemma {:induction false} KeepTwice(items: seq<Item>, p: Item -> bool, q: Item -> bool)
    requires forall item :: p(item) ==> q(item)
    ensures Keep(Keep(items, q), p) == Keep(items, p)
  {
    if items != [] {
      KeepTwice(items[1..], p, q);
      if q(items[0]) {
        assert ([items[0]] + Keep(items[1..], q))[1..] == Keep(items[1..], q);
      }
    }
  }

  lemma {:induction false} KeepAll(items: seq<Item>, p: Item -> bool)
    requires forall item :: item in items ==> p(item)
    ensures Keep(items, p) == items
  {
    if items != [] {
      KeepAll(items[1..], p);
    }
  }

  lemma {:induction false} KeepSuffix(items: seq<Item>, p: Item -> bool, k: nat)
    requires k <= |items|
    requires forall i | 0 <= i < |items| :: p(items[i]) <==> i >= k
    ensures Keep(items, p) == items[k..]
  {
    if k == 0 {
      KeepAll(items, p);
    } else {
      KeepSuffix(items[1..], p, k - 1);
      assert items[1..][k - 1..] == items[k..];
    }
  }

  /** A later checkpoint selects from what an earlier one had selected. */
  lemma LaterSelection(items: seq<Item>, start: Time, through: Time, before: Option<Key>, after: Key)
    requires before.Some? ==> AtMost(before.value, after)
    ensures Selected(items, start, through, Some(after))
         == Keep(Selected(items, start, through, before), Wants(start, through, Some(after)))
  {
    var p, q := Wants(start, through, Some(after)), Wants(start, through, before);
    KeepTwice(items, p, q);
    OrderIsTotal();
    SortThenKeep(Keep(items, q), InOrder(), p);
  }

  /** Once the first k items are folded, an exact checkpoint selects precisely the others. */
  lemma ExactCheckpointDropsThePrefix(items: seq<Item>, start: Time, through: Time, before: Option<Key>, k: nat)
    requires DistinctKeys(items) && 0 < k <= |Selected(items, start, through, before)|
    ensures var selected := Selected(items, start, through, before);
            Selected(items, start, through, Some(KeyOf(selected[k - 1]))) == selected[k..]
  {
    var selected := Selected(items, start, through, before);
    SelectionMeans(items, start, through, before);
    var after := KeyOf(selected[k - 1]);
    assert selected[k - 1] in selected;
    LaterSelection(items, start, through, before, after);
    var p := Wants(start, through, Some(after));
    forall i | 0 <= i < |selected| ensures p(selected[i]) <==> i >= k {
      assert selected[i] in selected;
    }
    KeepSuffix(selected, p, k);
  }

  // ---- when a stored checkpoint is exact ------------------------------------------------------

  predicate WholeSeconds(item: Item) {
    KeyOf(item).time % SECOND == 0
  }

  /** Every in-window item but the last carries a whole-second modification time. */
  ghost predicate ExactButLast(items: seq<Item>, start: Time, through: Time) {
    forall i | 0 <= i < |InWindow(items, start, through)| - 1 :: WholeSeconds(InWindow(items, start, through)[i])
  }

  /** An item is selected again after its own checkpoint exactly when that checkpoint lost a fraction. */
  lemma OwnCheckpoint(item: Item)
    ensures Less(Stored(KeyOf(item)), KeyOf(item)) <==> !WholeSeconds(item)
    ensures AtMost(Stored(KeyOf(item)), KeyOf(item))
  {
  }

  lemma InnerItemIsExact(items: seq<Item>, start: Time, through: Time, before: Option<Key>, k: nat)
    requires DistinctKeys(items) && ExactButLast(items, start, through)
    requires 0 < k < |Selected(items, start, through, before)|
    ensures WholeSeconds(Selected(items, start, through, before)[k - 1])
  {
    var selected, all := Selected(items, start, through, before), InWindow(items, start, through);
    SelectionMeans(items, start, through, before);
    SelectionMeans(items, start, through, None);
    assert selected[k - 1] in selected && selected[k] in selected;
    assert selected[k - 1] in all && selected[k] in all;
    var i :| 0 <= i < |all| && all[i] == selected[k - 1];
    var j :| 0 <= j < |all| && all[j] == selected[k];
    assert i < j;
  }

  // ---- remaining work -----------------------------------------------------------------------------

  function Tagged(url: Text, items: seq<Item>): seq<(Text, Item)> {
    seq(|items|, i requires 0 <= i < |items| => (url, items[i]))
  }

  function RemainingOf(s: Sweep, url: Text, world: World, through: Time): seq<Item> {
    if url !in s.kdqs || s.kdqs[url].done || s.kdqs[url].from.None? || world.listing(url).None? then []
    else Selected(world.listing(url).value, s.kdqs[url].from.value, through, Checkpoint(s.kdqs[url]))
  }

  /** The work left to a frozen catch-up, in the order it will be done. */
  function Remaining(s: Sweep, urls: seq<Text>, world: World, through: Time): seq<(Text, Item)> {
    if urls == [] then []
    else
      var url := urls[|urls| - 1];
      Remaining(s, urls[..|urls| - 1], world, through) + Tagged(url, RemainingOf(s, url, world, through))
  }

  function FoldItems(pending: States, items: seq<(Text, Item)>): States {
    if items == [] then pending
    else FoldStates(FoldItems(pending, items[..|items| - 1]), items[|items| - 1].1.states)
  }

  lemma {:induction false} FoldItemsInPieces(pending: States, first: seq<(Text, Item)>, second: seq<(Text, Item)>)
    ensures FoldItems(pending, first + second) == FoldItems(FoldItems(pending, first), second)
  {
    if second == [] {
      assert first + second == first;
    } else {
      var n := |second| - 1;
      FoldItemsInPieces(pending, first, second[..n]);
      assert (first + second)[..|first + second| - 1] == first + second[..n];
    }
  }

  ghost predicate ReadyEntry(p: Progress) {
    p.dataset != 0 && p.from.Some?
  }

  ghost predicate Frozen(s: Sweep, urls: seq<Text>, world: World, through: Time) {
    && (forall i, j | 0 <= i < j < |urls| :: urls[i] != urls[j])
    && (forall i | 0 <= i < |urls| :: urls[i] in s.kdqs && ReadyEntry(s.kdqs[urls[i]]) && SoundList(world, urls[i]))
  }

  ghost predicate Exact(s: Sweep, urls: seq<Text>, world: World, through: Time)
    requires Frozen(s, urls, world, through)
  {
    forall i | 0 <= i < |urls| :: ExactButLast(world.listing(urls[i]).value, s.kdqs[urls[i]].from.value, through)
  }

  /** A sweep step changes one list's progress and nothing of its window. */
  ghost predicate SameWindows(s: Sweep, t: Sweep) {
    && t.kdqs.Keys == s.kdqs.Keys
    && forall u | u in s.kdqs :: t.kdqs[u].dataset == s.kdqs[u].dataset && t.kdqs[u].from == s.kdqs[u].from
                                 && (s.kdqs[u].done ==> t.kdqs[u].done)
  }

  /** What folding a list of items of one publisher does to the sweep. */
  ghost predicate AdvancedBy(s: Sweep, r: Sweep, url: Text, items: seq<Item>)
    requires url in s.kdqs
  {
    && r.log == s.log + Tagged(url, items)
    && r.pending == FoldItems(s.pending, Tagged(url, items))
    && r.budget + |items| == s.budget && r.errors == s.errors && r.completed == s.completed
    && r.observed == s.observed && r.progressed == s.progressed + |items|
    && r.kdqs == if items == [] then s.kdqs
                 else s.kdqs[url := s.kdqs[url].(after := Some(Stored(KeyOf(items[|items| - 1]))))]
  }

  lemma AdvancedOneMore(s: Sweep, r: Sweep, url: Text, items: seq<Item>, item: Item)
    requires url in s.kdqs && url in r.kdqs && r.budget > 0 && AdvancedBy(s, r, url, items)
    ensures AdvancedBy(s, Advance(r, url, item), url, items + [item])
  {
    hide FoldStates;
    var all := Tagged(url, items + [item]);
    assert all == Tagged(url, items) + [(url, item)];
    assert all[..|all| - 1] == Tagged(url, items);
  }

  lemma {:induction false} AdvanceAllMeans(s: Sweep, url: Text, items: seq<Item>)
    requires url in s.kdqs && |items| <= s.budget
    ensures AdvancedBy(s, AdvanceAll(s, url, items), url, items)
  {
    if items != [] {
      var n := |items| - 1;
      AdvanceAllMeans(s, url, items[..n]);
      AdvancedOneMore(s, AdvanceAll(s, url, items[..n]), url, items[..n], items[n]);
      assert items[..n] + [items[n]] == items;
      hide Advance, AdvancedBy;
    }
  }

  /** What one sweep did with the work that was left: a prefix went to the log, the rest is left. */
  ghost predicate Moved(s: Sweep, t: Sweep, before: seq<(Text, Item)>, after: seq<(Text, Item)>) {
    var k := Min(s.budget, |before|);
    && SameWindows(s, t)
    && t.budget == s.budget - k && t.errors == s.errors
    && t.log == s.log + before[..k]
    && t.pending == FoldItems(s.pending, before[..k])
    && after == before[k..]
  }

  lemma NoFailureHydratesAll(url: Text, batch: seq<Item>, fails: (Text, Item) -> bool)
    requires forall item :: !fails(url, item)
    ensures Hydrated(url, batch, fails) == |batch|
  {
    HydratedIsAPrefix(url, batch, fails);
  }

  lemma TaggedPieces(url: Text, items: seq<Item>, k: nat)
    requires k <= |items|
    ensures Tagged(url, items[..k]) == Tagged(url, items)[..k] && Tagged(url, items[k..]) == Tagged(url, items)[k..]
  {
  }

  lemma ConsumeMoves(s: Sweep, url: Text, selected: seq<Item>, fails: (Text, Item) -> bool, through: Time)
    requires url in s.kdqs && s.budget > 0 && forall item :: !fails(url, item)
    ensures var k := Min(s.budget, |selected|);
            var t := Consume(s, url, selected, fails, through);
            && SameWindows(s, t)
            && t.budget == s.budget - k && t.errors == s.errors
            && t.log == s.log + Tagged(url, selected)[..k]
            && t.pending == FoldItems(s.pending, Tagged(url, selected)[..k])
            && (t.kdqs[url].done <==> s.kdqs[url].done || k == |selected|)
            && t.kdqs[url].after == (if k == 0 then s.kdqs[url].after else Some(Stored(KeyOf(selected[k - 1]))))
            && (forall u | u in s.kdqs && u != url :: t.kdqs[u] == s.kdqs[u])
  {
    var k := Min(s.budget, |selected|);
    var batch := Batch(selected, s.budget);
    NoFailureHydratesAll(url, batch, fails);
    assert batch[..|batch|] == batch;
    AdvanceAllMeans(s, url, batch);
    TaggedPieces(url, selected, k);
    hide AdvanceAll, Hydrated, FoldItems;
  }

  /** What is left of a list once the first k of its remaining items are folded. */
  lemma RemainingAfterConsume(s: Sweep, t: Sweep, url: Text, world: World, through: Time, k: nat)
    requires url in s.kdqs && url in t.kdqs && ReadyEntry(s.kdqs[url]) && SoundList(world, url) && !s.kdqs[url].done
    requires ExactButLast(world.listing(url).value, s.kdqs[url].from.value, through)
    requires k <= |RemainingOf(s, url, world, through)| && t.kdqs[url].from == s.kdqs[url].from
    requires t.kdqs[url].done <==> k == |RemainingOf(s, url, world, through)|
    requires t.kdqs[url].after == if k == 0 then s.kdqs[url].after
                                  else Some(Stored(KeyOf(RemainingOf(s, url, world, through)[k - 1])))
    ensures RemainingOf(t, url, world, through) == RemainingOf(s, url, world, through)[k..]
  {
    var before := RemainingOf(s, url, world, through);
    var items, start := world.listing(url).value, s.kdqs[url].from.value;
    if 0 < k < |before| {
      InnerItemIsExact(items, start, through, Checkpoint(s.kdqs[url]), k);
      ExactCheckpointDropsThePrefix(items, start, through, Checkpoint(s.kdqs[url]), k);
      SelectionMeans(items, start, through, Checkpoint(s.kdqs[url]));
      assert before[k - 1] in before;
    }
    hide Selected;
  }

  /** One visit. */
  lemma VisitConserves(s: Sweep, url: Text, world: World, through: Time)
    requires url in s.kdqs && ReadyEntry(s.kdqs[url]) && SoundList(world, url)
    requires ExactButLast(world.listing(url).value, s.kdqs[url].from.value, through)
    ensures Visit(s, url, world, through).Some?
    ensures var t := Visit(s, url, world, through).value;
            var before := RemainingOf(s, url, world, through);
            && Moved(s, t, Tagged(url, before), Tagged(url, RemainingOf(t, url, world, through)))
            && (s.budget > 0 && |before| <= s.budget ==> t.kdqs[url].done)
            && (forall u | u in s.kdqs && u != url :: t.kdqs[u] == s.kdqs[u])
  {
    hide Consume, Selected, FoldItems, Tagged, ExactButLast;
    var before := RemainingOf(s, url, world, through);
    if s.kdqs[url].done || s.budget == 0 {
      TaggedPieces(url, before, 0);
      NothingMoved(s, Tagged(url, before));
    } else {
      var k := Min(s.budget, |before|);
      ConsumeMoves(s, url, before, world.fails, through);
      var t := Consume(s, url, before, world.fails, through);
      TaggedPieces(url, before, k);
      RemainingAfterConsume(s, t, url, world, through, k);
      assert |Tagged(url, before)| == |before| by { TaggedSize(url, before); }
    }
  }

  lemma TaggedSize(url: Text, items: seq<Item>)
    ensures |Tagged(url, items)| == |items|
  {
  }

  lemma NothingMoved(s: Sweep, work: seq<(Text, Item)>)
    ensures s.budget == 0 || work == [] ==> Moved(s, s, work, work)
  {
  }

  lemma {:induction false} OnlyOwnProgressMatters(s: Sweep, t: Sweep, urls: seq<Text>, world: World, through: Time)
    requires forall i | 0 <= i < |urls| :: urls[i] in s.kdqs && urls[i] in t.kdqs && t.kdqs[urls[i]] == s.kdqs[urls[i]]
    ensures Remaining(t, urls, world, through) == Remaining(s, urls, world, through)
  {
    if urls != [] {
      OnlyOwnProgressMatters(s, t, urls[..|urls| - 1], world, through);
    }
  }

  lemma MovesCompose(s: Sweep, t: Sweep, u: Sweep, first: seq<(Text, Item)>, rest: seq<(Text, Item)>,
                     own: seq<(Text, Item)>, left: seq<(Text, Item)>)
    requires Moved(s, t, first, rest) && Moved(t, u, own, left)
    ensures Moved(s, u, first + own, rest + left)
  {
    hide FoldItems;
    var k1, k2 := Min(s.budget, |first|), Min(t.budget, |own|);
    var k := Min(s.budget, |first + own|);
    assert k == k1 + k2;
    assert (first + own)[..k] == first[..k1] + own[..k2];
    assert (first + own)[k..] == first[k1..] + own[k2..];
    FoldItemsInPieces(s.pending, first[..k1], own[..k2]);
  }

  ghost predicate AllDone(s: Sweep, urls: seq<Text>) {
    forall i | 0 <= i < |urls| :: urls[i] in s.kdqs && s.kdqs[urls[i]].done
  }

  ghost predicate OthersKept(s: Sweep, t: Sweep, urls: seq<Text>) {
    forall u | u in s.kdqs && u !in urls :: u in t.kdqs && t.kdqs[u] == s.kdqs[u]
  }

  ghost predicate SweptTo(s: Sweep, t: Sweep, urls: seq<Text>, world: World, through: Time) {
    && Moved(s, t, Remaining(s, urls, world, through), Remaining(t, urls, world, through))
    && (|Remaining(s, urls, world, through)| < s.budget ==> AllDone(t, urls))
    && OthersKept(s, t, urls)
  }

  /** Before the last list of a sweep is visited, its own progress is untouched. */
  lemma LastIsReady(s: Sweep, t: Sweep, urls: seq<Text>, world: World, through: Time)
    requires urls != [] && Frozen(s, urls, world, through) && Exact(s, urls, world, through)
    requires OthersKept(s, t, urls[..|urls| - 1])
    ensures var url := urls[|urls| - 1];
            && url in s.kdqs && url in t.kdqs && t.kdqs[url] == s.kdqs[url]
            && ReadyEntry(t.kdqs[url]) && SoundList(world, url)
            && ExactButLast(world.listing(url).value, t.kdqs[url].from.value, through)
            && url !in urls[..|urls| - 1] && (forall u | u in urls[..|urls| - 1] :: u in s.kdqs)
  {
    hide SoundList, ExactButLast;
    var init, url := urls[..|urls| - 1], urls[|urls| - 1];
    forall u | u in init ensures u != url && u in s.kdqs {
      var i :| 0 <= i < |init| && init[i] == u;
      assert urls[i] != urls[|urls| - 1];
    }
    assert url !in init;
  }

  lemma MarkedAfterVisit(t: Sweep, u: Sweep, urls: seq<Text>)
    requires urls != [] && AllDone(t, urls[..|urls| - 1])
    requires OnlyChanged(t, u, urls[|urls| - 1])
    requires urls[|urls| - 1] !in urls[..|urls| - 1]
    requires urls[|urls| - 1] in u.kdqs && u.kdqs[urls[|urls| - 1]].done
    ensures AllDone(u, urls)
  {
    var init := urls[..|urls| - 1];
    forall i | 0 <= i < |urls| ensures urls[i] in u.kdqs && u.kdqs[urls[i]].done {
      if i < |init| {
        assert init[i] in init && t.kdqs[init[i]].done;
      }
    }
  }

  ghost predicate OnlyChanged(t: Sweep, u: Sweep, url: Text) {
    forall v | v in t.kdqs && v != url :: v in u.kdqs && u.kdqs[v] == t.kdqs[v]
  }

  lemma OthersKeptAfterVisit(s: Sweep, t: Sweep, u: Sweep, urls: seq<Text>)
    requires urls != [] && OthersKept(s, t, urls[..|urls| - 1]) && OnlyChanged(t, u, urls[|urls| - 1])
    ensures OthersKept(s, u, urls)
  {
    var init := urls[..|urls| - 1];
    assert urls == init + [urls[|urls| - 1]];
  }

  lemma EarlierListsKept(s: Sweep, t: Sweep, u: Sweep, urls: seq<Text>, world: World, through: Time)
    requires urls != [] && OnlyChanged(t, u, urls[|urls| - 1]) && SameWindows(s, t)
    requires urls[|urls| - 1] !in urls[..|urls| - 1] && forall v | v in urls[..|urls| - 1] :: v in s.kdqs
    ensures Remaining(u, urls[..|urls| - 1], world, through) == Remaining(t, urls[..|urls| - 1], world, through)
  {
    hide Remaining;
    var init := urls[..|urls| - 1];
    forall i | 0 <= i < |init| ensures init[i] in t.kdqs && init[i] in u.kdqs && u.kdqs[init[i]] == t.kdqs[init[i]] {
      assert init[i] in init;
    }
    OnlyOwnProgressMatters(t, u, init, world, through);
  }

  lemma LastRemaining(s: Sweep, urls: seq<Text>, world: World, through: Time)
    requires urls != []
    ensures Remaining(s, urls, world, through)
         == Remaining(s, urls[..|urls| - 1], world, through)
            + Tagged(urls[|urls| - 1], RemainingOf(s, urls[|urls| - 1], world, through))
  {
  }

  lemma MovedMeans(s: Sweep, t: Sweep, before: seq<(Text, Item)>, after: seq<(Text, Item)>)
    requires Moved(s, t, before, after)
    ensures SameWindows(s, t) && t.budget == s.budget - Min(s.budget, |before|)
  {
  }

  lemma SweptThenVisited(s: Sweep, t: Sweep, urls: seq<Text>, world: World, through: Time)
    requires urls != [] && Frozen(s, urls, world, through) && Exact(s, urls, world, through)
    requires SweptTo(s, t, urls[..|urls| - 1], world, through)
    requires urls[|urls| - 1] in t.kdqs
    ensures Visit(t, urls[|urls| - 1], world, through).Some?
    ensures SweptTo(s, Visit(t, urls[|urls| - 1], world, through).value, urls, world, through)
  {
    var init, url := urls[..|urls| - 1], urls[|urls| - 1];
    assert OthersKept(s, t, init);
    var first, rest := Remaining(s, init, world, through), Remaining(t, init, world, through);
    assert Moved(s, t, first, rest);
    hide *;
    LastIsReady(s, t, urls, world, through);
    VisitConserves(t, url, world, through);
    var u := Visit(t, url, world, through).value;
    OwnRemaining(s, t, url, world, through);
    MovedMeans(s, t, first, rest);
    assert OnlyChanged(t, u, url) by { VisitChangesOne(t, url, world, through); }
    EarlierListsKept(s, t, u, urls, world, through);
    var own, left := Tagged(url, RemainingOf(t, url, world, through)), Tagged(url, RemainingOf(u, url, world, through));
    MovesCompose(s, t, u, first, rest, own, left);
    LastRemaining(s, urls, world, through);
    LastRemaining(u, urls, world, through);
    OthersKeptAfterVisit(s, t, u, urls);
    SweptAfterVisit(s, t, u, urls, world, through, |first|, |RemainingOf(t, url, world, through)|);
  }

  lemma VisitChangesOne(t: Sweep, url: Text, world: World, through: Time)
    requires url in t.kdqs && ReadyEntry(t.kdqs[url]) && SoundList(world, url)
    requires ExactButLast(world.listing(url).value, t.kdqs[url].from.value, through)
    ensures Visit(t, url, world, through).Some? && OnlyChanged(t, Visit(t, url, world, through).value, url)
  {
    VisitConserves(t, url, world, through);
    hide Visit;
  }

  lemma SweptAfterVisit(s: Sweep, t: Sweep, u: Sweep, urls: seq<Text>, world: World, through: Time, n: nat, m: nat)
    requires urls != [] && OnlyChanged(t, u, urls[|urls| - 1]) && OthersKept(s, u, urls)
    requires Moved(s, u, Remaining(s, urls, world, through), Remaining(u, urls, world, through))
    requires |Remaining(s, urls, world, through)| == n + m
    requires t.budget == s.budget - Min(s.budget, n)
    requires n < s.budget ==> AllDone(t, urls[..|urls| - 1])
    requires urls[|urls| - 1] in u.kdqs && (t.budget > 0 && m <= t.budget ==> u.kdqs[urls[|urls| - 1]].done)
    requires urls[|urls| - 1] !in urls[..|urls| - 1]
    ensures SweptTo(s, u, urls, world, through)
  {
    hide Moved, Remaining;
    if n + m < s.budget {
      MarkedAfterVisit(t, u, urls);
    }
  }

  lemma OwnRemaining(s: Sweep, t: Sweep, url: Text, world: World, through: Time)
    requires url in s.kdqs && url in t.kdqs && t.kdqs[url] == s.kdqs[url]
    ensures RemainingOf(t, url, world, through) == RemainingOf(s, url, world, through)
  {
  }

  lemma NothingSwept(s: Sweep, world: World, through: Time)
    ensures VisitAll(s, [], world, through) == Some(s) && SweptTo(s, s, [], world, through)
  {
  }

  lemma FrozenWithoutLast(s: Sweep, urls: seq<Text>, world: World, through: Time)
    requires urls != [] && Frozen(s, urls, world, through) && Exact(s, urls, world, through)
    ensures Frozen(s, urls[..|urls| - 1], world, through) && Exact(s, urls[..|urls| - 1], world, through)
    ensures urls[|urls| - 1] in s.kdqs && forall i | 0 <= i < |urls| :: urls[i] in s.kdqs
  {
    hide SoundList, ExactButLast;
  }

  lemma VisitAllStep(s: Sweep, urls: seq<Text>, world: World, through: Time)
    requires urls != [] && forall i | 0 <= i < |urls| :: urls[i] in s.kdqs
    requires VisitAll(s, urls[..|urls| - 1], world, through).Some?
    ensures urls[|urls| - 1] in VisitAll(s, urls[..|urls| - 1], world, through).value.kdqs
    ensures VisitAll(s, urls, world, through)
         == Visit(VisitAll(s, urls[..|urls| - 1], world, through).value, urls[|urls| - 1], world, through)
  {
  }

  /** One sweep over all lists moves a prefix of the remaining work and loses nothing. */
  lemma {:induction false} SweepConserves(s: Sweep, urls: seq<Text>, world: World, through: Time)
    requires Frozen(s, urls, world, through) && Exact(s, urls, world, through)
    ensures VisitAll(s, urls, world, through).Some?
    ensures SweptTo(s, VisitAll(s, urls, world, through).value, urls, world, through)
  {
    hide *;
    if urls == [] {
      NothingSwept(s, world, through);
    } else {
      FrozenWithoutLast(s, urls, world, through);
      SweepConserves(s, urls[..|urls| - 1], world, through);
      VisitAllStep(s, urls, world, through);
      SweptThenVisited(s, VisitAll(s, urls[..|urls| - 1], world, through).value, urls, world, through);
    }
  }
}
