/** Italy: PVL notice versions folded into lots.  Closed lots are kept only until they have
    been announced; nothing recently closed is remembered. */
module ItalyLots {
  import opened Common
  import opened Sorting

  datatype EventKey = EventKey(published: Text, created: Text, notice: Text)

  predicate Less(a: EventKey, b: EventKey) {
    || a.published < b.published
    || (a.published == b.published && a.created < b.created)
    || (a.published == b.published && a.created == b.created && a.notice < b.notice)
  }

  predicate AtMost(a: EventKey, b: EventKey) {
    !Less(b, a)
  }

  /** One lot of one notice version; its publication stamp is `key.published`. */
  datatype Event = Event(lot: Text, key: EventKey, works: bool, active: bool, obscured: bool, content: int,
                         deadline: Option<Time>)

  datatype LotState = LotState(event: Event, firstPublished: Text, closing: Option<(string, string)>, wasVisible: bool)

  datatype Maps = Maps(tracked: map<Text, LotState>, closed: map<Text, LotState>)

  predicate Open(e: Event) {
    e.works && e.active && !e.obscured
  }

  function Closing(e: Event): (string, string)
    requires !Open(e)
  {
    if !e.works then ("not_construction", "latest PVL lot version no longer reports natura_principale=Lavori")
    else (if !e.active then "publisher_inactive" else "publisher_obscured",
          "latest PVL version is no longer an active visible tender notice")
  }

  function MergeState(current: Option<LotState>, e: Event): LotState {
    if current.None? then LotState(e, e.key.published, None, false)
    else if AtMost(e.key, current.value.event.key) then current.value
    else LotState(e, MinPresent(current.value.firstPublished, e.key.published), None, current.value.wasVisible)
  }

  function Lookup(m: Maps, x: Text): Option<LotState> {
    if x in m.tracked then Some(m.tracked[x]) else if x in m.closed then Some(m.closed[x]) else None
  }

  function StepEvent(m: Maps, e: Event): Maps {
    var current := Lookup(m, e.lot);
    if current.Some? && AtMost(e.key, current.value.event.key) then m
    else if !Open(e) then
      if current.None? then m
      else Maps(m.tracked - {e.lot}, m.closed[e.lot := MergeState(current, e).(closing := Some(Closing(e)))])
    else Maps(m.tracked[e.lot := MergeState(current, e)], m.closed - {e.lot})
  }

  function Applied(m: Maps, events: seq<Event>): Maps {
    if events == [] then m else StepEvent(Applied(m, events[..|events| - 1]), events[|events| - 1])
  }

  predicate Named(events: seq<Event>) {
    forall i | 0 <= i < |events| :: events[i].lot != 0
  }

  function InOrder(): (Event, Event) -> bool {
    (a: Event, b: Event) => AtMost(a.key, b.key)
  }

  /** A day's events in the order the loop visits them. */
  function DayList(events: seq<Event>): seq<Event> {
    Sort(events, InOrder())
  }

  class LotBook {
    var tracked: map<Text, LotState>
    var closed: map<Text, LotState>

    constructor (m: Maps)
      ensures Value() == m
    {
      tracked, closed := m.tracked, m.closed;
    }

    function Value(): Maps
      reads this
    {
      Maps(tracked, closed)
    }

    method ApplyEvents(events: seq<Event>) returns (ok: bool)
      modifies this
      ensures ok <==> Named(events)
      ensures ok ==> Value() == Applied(old(Value()), DayList(events))
    {
      SortingKeepsNames(events);
      ok := ApplyList(DayList(events));
    }

    method ApplyList(list: seq<Event>) returns (ok: bool)
      modifies this
      ensures ok <==> Named(list)
      ensures ok ==> Value() == Applied(old(Value()), list)
    {
      hide MergeState, Closing, AtMost;
      for i := 0 to |list|
        invariant Named(list[..i])
        invariant Value() == Applied(old(Value()), list[..i])
      {
        var e := list[i];
        assert list[..i + 1][..i] == list[..i];
        if e.lot == 0 {
          return false;
        }
        var current := if e.lot in tracked then Some(tracked[e.lot]) else None;
        if current.None? {
          current := if e.lot in closed then Some(closed[e.lot]) else None;
        }
        if current.Some? && AtMost(e.key, current.value.event.key) { continue; }
        if !e.works || !e.active || e.obscured {
          if current.None? { continue; }
          tracked := tracked - {e.lot};
          closed := closed[e.lot := MergeState(current, e).(closing := Some(Closing(e)))];
        } else {
          tracked := tracked[e.lot := MergeState(current, e)];
          closed := closed - {e.lot};
        }
      }
      assert list[..|list|] == list;
      ok := true;
    }
  }

  lemma SortingKeepsNames(events: seq<Event>)
    ensures Named(DayList(events)) <==> Named(events)
  {
    var list := DayList(events);
    SortKeeps(events, InOrder());
    assert forall i | 0 <= i < |list| :: list[i] in events;
    assert forall i | 0 <= i < |events| :: events[i] in list;
  }

  // ---- one lot at a time -----------------------------------------------------------------

  ghost predicate Disjoint(m: Maps) {
    m.tracked.Keys !! m.closed.Keys
  }

  datatype Slot = Absent | Tracked(state: LotState) | Closed(state: LotState)

  function SlotOf(m: Maps, x: Text): Slot {
    if x in m.tracked then Tracked(m.tracked[x]) else if x in m.closed then Closed(m.closed[x]) else Absent
  }

  function StepSlot(slot: Slot, e: Event): Slot {
    if slot.Absent? then (if Open(e) then Tracked(MergeState(None, e)) else Absent)
    else if AtMost(e.key, slot.state.event.key) then slot
    else if Open(e) then Tracked(MergeState(Some(slot.state), e))
    else Closed(MergeState(Some(slot.state), e).(closing := Some(Closing(e))))
  }

  function SlotAfter(slot: Slot, events: seq<Event>): Slot {
    if events == [] then slot else StepSlot(SlotAfter(slot, events[..|events| - 1]), events[|events| - 1])
  }

  function OfLot(events: seq<Event>, x: Text): seq<Event> {
    if events == [] then []
    else
      var e, earlier := events[|events| - 1], OfLot(events[..|events| - 1], x);
      if e.lot == x then earlier + [e] else earlier
  }

  lemma {:induction false} EachLotAlone(m: Maps, events: seq<Event>, x: Text)
    requires Disjoint(m)
    ensures Disjoint(Applied(m, events))
    ensures SlotOf(Applied(m, events), x) == SlotAfter(SlotOf(m, x), OfLot(events, x))
  {
    if events != [] {
      var init, e := events[..|events| - 1], events[|events| - 1];
      EachLotAlone(m, init, x);
      StepTouchesOneLot(Applied(m, init), e, x);
      if e.lot == x {
        var mine := OfLot(events, x);
        assert mine[..|mine| - 1] == OfLot(init, x);
      }
    }
  }

  lemma StepTouchesOneLot(m: Maps, e: Event, x: Text)
    requires Disjoint(m)
    ensures Disjoint(StepEvent(m, e))
    ensures SlotOf(StepEvent(m, e), x) == if e.lot == x then StepSlot(SlotOf(m, x), e) else SlotOf(m, x)
  {
    hide MergeState, Closing, AtMost, Open;
  }

  ghost predicate SortedByKey(events: seq<Event>) {
    forall i, j | 0 <= i < j < |events| :: AtMost(events[i].key, events[j].key)
  }

  lemma KeysDiffer(a: EventKey, b: EventKey)
    ensures a != b && AtMost(a, b) ==> Less(a, b)
  {
  }

  /** A slot holds the outcome of one event: its data, and the map that its openness selects. */
  ghost predicate Reflects(slot: Slot, e: Event) {
    && !slot.Absent?
    && slot.state.event == e
    && (slot.Tracked? <==> Open(e))
  }

  lemma {:induction false} OfLotJoins(a: seq<Event>, b: seq<Event>, x: Text)
    ensures OfLot(a + b, x) == OfLot(a, x) + OfLot(b, x)
  {
    if b == [] {
      assert a + b == a;
    } else {
      OfLotJoins(a, b[..|b| - 1], x);
      assert (a + b)[..|a + b| - 1] == a + b[..|b| - 1];
    }
  }

  lemma {:induction false} OfLotHolds(events: seq<Event>, x: Text)
    ensures forall e :: e in OfLot(events, x) <==> e in events && e.lot == x
    ensures SortedByKey(events) ==> SortedByKey(OfLot(events, x))
  {
    if events != [] {
      var n := |events| - 1;
      OfLotHolds(events[..n], x);
      assert events == events[..n] + [events[n]];
      if SortedByKey(events) && events[n].lot == x {
        var earlier := OfLot(events[..n], x);
        forall i | 0 <= i < |earlier| ensures AtMost(earlier[i].key, events[n].key) {
          assert earlier[i] in events[..n];
        }
      }
      hide AtMost;
    }
  }

  // ---- absorption ----------------------------------------------------------------------------

  predicate Absorbed(slot: Slot, e: Event) {
    if slot.Absent? then !Open(e) else AtMost(e.key, slot.state.event.key)
  }

  lemma {:induction false} SortedFeedIsAbsorbed(slot: Slot, events: seq<Event>)
    requires SortedByKey(events)
    ensures forall i | 0 <= i < |events| :: Absorbed(SlotAfter(slot, events), events[i])
  {
    if events != [] {
      var n := |events| - 1;
      SortedFeedIsAbsorbed(slot, events[..n]);
      var before := SlotAfter(slot, events[..n]);
      forall i | 0 <= i < |events| ensures Absorbed(SlotAfter(slot, events), events[i]) {
        if i < n {
          assert Absorbed(before, events[..n][i]);
        }
      }
    }
  }

  lemma {:induction false} ReplayChangesNothing(slot: Slot, replay: seq<Event>)
    requires forall i | 0 <= i < |replay| :: Absorbed(slot, replay[i])
    ensures SlotAfter(slot, replay) == slot
  {
    if replay != [] {
      var n := |replay| - 1;
      forall i | 0 <= i < n ensures Absorbed(slot, replay[..n][i]) {
        assert replay[..n][i] == replay[i];
      }
      ReplayChangesNothing(slot, replay[..n]);
    }
  }

  lemma {:induction false} AppliedInPieces(m: Maps, first: seq<Event>, second: seq<Event>)
    ensures Applied(m, first + second) == Applied(Applied(m, first), second)
  {
    if second == [] {
      assert first + second == first;
    } else {
      var n := |second| - 1;
      AppliedInPieces(m, first, second[..n]);
      assert (first + second)[..|first + second| - 1] == first + second[..n];
    }
  }
}
