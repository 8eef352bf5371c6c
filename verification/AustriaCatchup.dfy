/** Austria: one sweep of the frozen catch-up.  Publisher lists (KDQs) are visited in address
    order; each visit selects the items between its window and beyond its checkpoint, sorts
    them, and folds as many notices as the run's global budget still allows. */
module AustriaCatchup {
  import opened Common
  import opened Sorting
  import opened AustriaState

  /** The order inside a list: modification time, then item id. */
  datatype Key = Key(time: Time, id: Text)

  predicate Less(a: Key, b: Key) {
    a.time < b.time || (a.time == b.time && a.id < b.id)
  }

  predicate AtMost(a: Key, b: Key) {
    !Less(b, a)
  }

  /** An item of a list, with what parsing its notice yields; `lastmod` is None when unreadable. */
  datatype Item = Item(id: Text, lastmod: Option<Time>, states: seq<State>)

  function KeyOf(item: Item): Key {
    Key(if item.lastmod.Some? then item.lastmod.value else 0, item.id)
  }

  /** How the publishers answer during one run: a list may be unreachable, and fetching or
      parsing the notice of an item may fail. */
  datatype World = World(listing: Text -> Option<seq<Item>>, fails: (Text, Item) -> bool)

  datatype Progress = Progress(dataset: Text, from: Option<Time>, after: Option<Key>, done: bool)

  /** A checkpoint is stored with whole-second precision. */
  function Stored(key: Key): Key {
    Key(WholeSecond(key.time), key.id)
  }

  /** A stored checkpoint without an item id reads back as none. */
  function Checkpoint(p: Progress): Option<Key> {
    if p.after.Some? && p.after.value.id != 0 then p.after else None
  }

  /** The mutable state of a sweep.  `log` records every item folded, in order. */
  datatype Sweep = Sweep(kdqs: map<Text, Progress>, pending: States, observed: map<Text, Time>, budget: nat,
                         progressed: nat, completed: nat, errors: nat, log: seq<(Text, Item)>)

  // ---- selection ----------------------------------------------------------------------

  predicate Readable(items: seq<Item>) {
    forall i | 0 <= i < |items| :: items[i].lastmod.Some?
  }

  function InOrder(): (Item, Item) -> bool {
    (a: Item, b: Item) => AtMost(KeyOf(a), KeyOf(b))
  }

  predicate Wanted(item: Item, start: Time, through: Time, checkpoint: Option<Key>) {
    && start <= KeyOf(item).time <= through
    && (checkpoint.Some? ==> Less(checkpoint.value, KeyOf(item)))
  }

  function Wants(start: Time, through: Time, checkpoint: Option<Key>): Item -> bool {
    (item: Item) => Wanted(item, start, through, checkpoint)
  }

  function Selected(items: seq<Item>, start: Time, through: Time, checkpoint: Option<Key>): seq<Item> {
    Sort(Keep(items, Wants(start, through, checkpoint)), InOrder())
  }

  // ---- one batch ------------------------------------------------------------------------

  /** How many items of a batch are hydrated before the first failure. */
  function Hydrated(url: Text, batch: seq<Item>, fails: (Text, Item) -> bool): nat {
    if batch == [] || fails(url, batch[0]) then 0 else 1 + Hydrated(url, batch[1..], fails)
  }

  lemma {:induction false} HydratedIsAPrefix(url: Text, batch: seq<Item>, fails: (Text, Item) -> bool)
    ensures Hydrated(url, batch, fails) <= |batch|
    ensures forall i | 0 <= i < Hydrated(url, batch, fails) :: !fails(url, batch[i])
    ensures Hydrated(url, batch, fails) < |batch| ==> fails(url, batch[Hydrated(url, batch, fails)])
  {
    if batch != [] && !fails(url, batch[0]) {
      HydratedIsAPrefix(url, batch[1..], fails);
      assert forall i | 0 < i < |batch| :: batch[i] == batch[1..][i - 1];
    }
  }

  lemma {:induction false} HydratedIs(url: Text, batch: seq<Item>, fails: (Text, Item) -> bool, k: nat)
    requires k <= |batch| && (forall i | 0 <= i < k :: !fails(url, batch[i]))
    requires k < |batch| ==> fails(url, batch[k])
    ensures Hydrated(url, batch, fails) == k
  {
    if k > 0 {
      assert forall i | 0 <= i < k - 1 :: batch[1..][i] == batch[i + 1];
      HydratedIs(url, batch[1..], fails, k - 1);
    }
  }

  /** One item folded: its states merge into the pending ones, the checkpoint moves to it. */
  function Advance(s: Sweep, url: Text, item: Item): Sweep
    requires url in s.kdqs && s.budget > 0
  {
    s.(kdqs := s.kdqs[url := s.kdqs[url].(after := Some(Stored(KeyOf(item))))],
       pending := FoldStates(s.pending, item.states),
       budget := s.budget - 1, progressed := s.progressed + 1,
       log := s.log + [(url, item)])
  }

  function AdvanceAll(s: Sweep, url: Text, items: seq<Item>): (r: Sweep)
    requires url in s.kdqs && |items| <= s.budget
    ensures r.kdqs.Keys == s.kdqs.Keys && r.budget == s.budget - |items|
  {
    if items == [] then s
    else Advance(AdvanceAll(s, url, items[..|items| - 1]), url, items[|items| - 1])
  }

  lemma AdvanceNone(s: Sweep, url: Text, items: seq<Item>)
    requires url in s.kdqs
    ensures AdvanceAll(s, url, items[..0]) == s
  {
  }

  lemma AdvanceNext(s: Sweep, url: Text, items: seq<Item>, i: nat)
    requires url in s.kdqs && i < |items| <= s.budget
    ensures AdvanceAll(s, url, items[..i + 1]) == Advance(AdvanceAll(s, url, items[..i]), url, items[i])
  {
    assert items[..i + 1][..i] == items[..i];
  }

  function Batch(selected: seq<Item>, budget: nat): seq<Item> {
    selected[..Min(budget, |selected|)]
  }

  // ---- one list -----------------------------------------------------------------------------

  function MarkDone(s: Sweep, url: Text, through: Time): Sweep
    requires url in s.kdqs
  {
    s.(kdqs := s.kdqs[url := s.kdqs[url].(done := true)],
       observed := s.observed[url := WholeSecond(through)],
       completed := s.completed + 1)
  }

  function Failed(s: Sweep): Sweep {
    s.(errors := s.errors + 1)
  }

  function Consume(s: Sweep, url: Text, selected: seq<Item>, fails: (Text, Item) -> bool, through: Time): Sweep
    requires url in s.kdqs
  {
    var batch := Batch(selected, s.budget);
    HydratedIsAPrefix(url, batch, fails);
    var n := Hydrated(url, batch, fails);
    var after := AdvanceAll(s, url, batch[..n]);
    if n < |batch| then Failed(after)
    else if |selected| <= |batch| then MarkDone(after, url, through)
    else after
  }

  /** None stands for the run being abandoned over an invalid catch-up entry. */
  function Visit(s: Sweep, url: Text, world: World, through: Time): Option<Sweep>
    requires url in s.kdqs
  {
    var p := s.kdqs[url];
    if p.done || s.budget == 0 then Some(s)
    else if p.dataset == 0 || p.from.None? then None
    else
      var items := world.listing(url);
      if items.None? || !Readable(items.value) then Some(Failed(s))
      else Some(Consume(s, url, Selected(items.value, p.from.value, through, Checkpoint(p)), world.fails, through))
  }

  function VisitAll(s: Sweep, urls: seq<Text>, world: World, through: Time): (r: Option<Sweep>)
    requires forall i | 0 <= i < |urls| :: urls[i] in s.kdqs
    ensures r.Some? ==> r.value.kdqs.Keys == s.kdqs.Keys
  {
    if urls == [] then Some(s)
    else
      var before := VisitAll(s, urls[..|urls| - 1], world, through);
      if before.None? then None else Visit(before.value, urls[|urls| - 1], world, through)
  }

  // ---- the loops ---------------------------------------------------------------------------------

  /** The variables of the run that the nested loops update. */
  class SweepBook {
    var kdqs: map<Text, Progress>
    var pending: States
    var observed: map<Text, Time>
    var budget: nat
    var progressed: nat
    var completed: nat
    var errors: nat
    ghost var log: seq<(Text, Item)>

    constructor (kdqs: map<Text, Progress>, pending: States, observed: map<Text, Time>, budget: nat)
      ensures Value() == Sweep(kdqs, pending, observed, budget, 0, 0, 0, [])
    {
      this.kdqs, this.pending, this.observed, this.budget := kdqs, pending, observed, budget;
      progressed, completed, errors, log := 0, 0, 0, [];
    }

    ghost function Value(): Sweep
      reads this
    {
      Sweep(kdqs, pending, observed, budget, progressed, completed, errors, log)
    }

    method FoldBatch(url: Text, batch: seq<Item>, world: World) returns (failed: bool)
      requires url in kdqs && |batch| <= budget
      modifies this
      ensures var n := Hydrated(url, batch, world.fails);
              n <= |batch| && failed == (n < |batch|)
              && Value() == (var after := AdvanceAll(old(Value()), url, batch[..n]); if failed then Failed(after) else after)
    {
      hide Advance, AdvanceAll, Hydrated;
      HydratedIsAPrefix(url, batch, world.fails);
      failed := false;
      AdvanceNone(Value(), url, batch);
      for i := 0 to |batch|
        invariant url in kdqs && budget + i == old(budget)
        invariant Value() == AdvanceAll(old(Value()), url, batch[..i])
        invariant forall k | 0 <= k < i :: !world.fails(url, batch[k])
      {
        AdvanceNext(old(Value()), url, batch, i);
        if world.fails(url, batch[i]) {
          errors := errors + 1;
          failed := true;
          HydratedIs(url, batch, world.fails, i);
          return;
        }
        FoldItem(url, batch[i]);
      }
      HydratedIs(url, batch, world.fails, |batch|);
    }

    method FoldItem(url: Text, item: Item)
      requires url in kdqs && budget > 0
      modifies this
      ensures Value() == Advance(old(Value()), url, item)
      ensures url in kdqs && budget + 1 == old(budget)
    {
      pending := FoldNotice(pending, item.states);
      kdqs := kdqs[url := kdqs[url].(after := Some(Key(WholeSecond(KeyOf(item).time), item.id)))];
      budget := budget - 1;
      progressed := progressed + 1;
      log := log + [(url, item)];
    }

    method SelectItems(items: seq<Item>, start: Time, through: Time, checkpoint: Option<Key>) returns (selected: seq<Item>)
      ensures selected == Selected(items, start, through, checkpoint)
    {
      selected := [];
      var i := |items|;
      assert items[i..] == [];
      while i > 0
        invariant 0 <= i <= |items|
        invariant selected == Keep(items[i..], Wants(start, through, checkpoint))
      {
        i := i - 1;
        assert items[i..][1..] == items[i + 1..];
        var key := KeyOf(items[i]);
        if start <= key.time <= through && (checkpoint.None? || Less(checkpoint.value, key)) {
          selected := [items[i]] + selected;
        }
      }
      assert items[0..] == items;
      selected := Sort(selected, InOrder());
    }

    method VisitList(url: Text, world: World, through: Time) returns (ok: bool)
      requires url in kdqs
      modifies this
      ensures var spec := Visit(old(Value()), url, world, through);
              ok == spec.Some? && (ok ==> Value() == spec.value)
    {
      var p := kdqs[url];
      if p.done || budget <= 0 {
        return true;
      }
      if p.dataset == 0 || p.from.None? {
        return false;
      }
      var items := world.listing(url);
      if items.None? || !Readable(items.value) {
        errors := errors + 1;
        return true;
      }
      var selected := SelectItems(items.value, p.from.value, through, Checkpoint(p));
      ConsumeSelected(url, selected, world, through);
      ok := true;
    }

    method ConsumeSelected(url: Text, selected: seq<Item>, world: World, through: Time)
      requires url in kdqs
      modifies this
      ensures Value() == Consume(old(Value()), url, selected, world.fails, through)
    {
      hide AdvanceAll, Hydrated;
      var batch := selected[..Min(budget, |selected|)];
      var failed := FoldBatch(url, batch, world);
      assert batch[..|batch|] == batch;
      if !failed && |selected| <= |batch| {
        kdqs := kdqs[url := kdqs[url].(done := true)];
        observed := observed[url := WholeSecond(through)];
        completed := completed + 1;
      }
    }

    method SweepLists(urls: seq<Text>, world: World, through: Time) returns (ok: bool)
      requires forall i | 0 <= i < |urls| :: urls[i] in kdqs
      modifies this
      ensures var spec := VisitAll(old(Value()), urls, world, through);
              ok == spec.Some? && (ok ==> Value() == spec.value)
    {
      hide Visit;
      for i := 0 to |urls|
        invariant VisitAll(old(Value()), urls[..i], world, through) == Some(Value())
      {
        assert urls[..i + 1][..i] == urls[..i];
        ok := VisitList(urls[i], world, through);
        if !ok {
          AbandonedStays(old(Value()), urls, world, through, i + 1);
          return;
        }
      }
      assert urls[..|urls|] == urls;
      ok := true;
    }
  }

  lemma {:induction false} AbandonedStays(s: Sweep, urls: seq<Text>, world: World, through: Time, i: nat)
    requires i <= |urls| && forall k | 0 <= k < |urls| :: urls[k] in s.kdqs
    requires VisitAll(s, urls[..i], world, through).None?
    ensures VisitAll(s, urls, world, through).None?
  {
    if i == |urls| {
      assert urls[..i] == urls;
    } else {
      assert urls[..|urls| - 1][..i] == urls[..i];
      AbandonedStays(s, urls[..|urls| - 1], world, through, i);
    }
  }
}
