/** Germany: publisher events folded into lots.  A lot lives in one of three maps:
    tracked, closed in this catch-up, or recently closed. */
module GermanyLots {
  import opened Common

  /** The position of an event in the feed.  The publication day comes first; a missing
      source time is 0, below every stamp. */
  datatype EventKey = EventKey(day: int, time: Text, version: nat, notice: Text)

  predicate Less(a: EventKey, b: EventKey) {
    || a.day < b.day
    || (a.day == b.day && a.time < b.time)
    || (a.day == b.day && a.time == b.time && a.version < b.version)
    || (a.day == b.day && a.time == b.time && a.version == b.version && a.notice < b.notice)
  }

  predicate AtMost(a: EventKey, b: EventKey) {
    !Less(b, a)
  }

  datatype Body = Body(content: int, deadline: Option<Time>, firstPublished: Text)

  /** A contract notice, a terminal winner-selection result, or the result that reopens. */
  datatype Kind = Notice(body: Body) | Terminal(code: string, status: string, reason: string) | Reopen

  datatype Event = Event(lot: Text, key: EventKey, kind: Kind)

  datatype Closure = Closure(status: string, reason: string)

  datatype LotState = LotState(key: EventKey, body: Body, result: Option<string>, closure: Option<Closure>,
                               closureEmitted: bool, wasVisible: bool)

  datatype Maps = Maps(tracked: map<Text, LotState>, closed: map<Text, LotState>, recent: map<Text, LotState>)

  const REOPENING := "open-nw"

  function MergeEvent(current: Option<LotState>, e: Event): LotState
    requires !e.kind.Reopen? && (current.None? ==> e.kind.Notice?)
  {
    if current.None? then LotState(e.key, e.kind.body, None, None, false, false)
    else if Less(e.key, current.value.key) then current.value
    else if e.kind.Terminal? then
      LotState(e.key, current.value.body, Some(e.kind.code),
               Some(Closure(e.kind.status, e.kind.reason)), false, current.value.wasVisible)
    else
      LotState(e.key,
               e.kind.body.(firstPublished := MinPresent(current.value.body.firstPublished, e.kind.body.firstPublished)),
               None, None, false, current.value.wasVisible)
  }

  /** A later reopening result revives a known lot; it never invents one. */
  function ReopenKnownState(current: Option<LotState>, e: Event): Option<LotState> {
    if current.None? || AtMost(e.key, current.value.key) then None
    else Some(LotState(e.key, current.value.body, Some(REOPENING), None, false, current.value.wasVisible))
  }

  function Lookup(m: Maps, x: Text): Option<LotState> {
    if x in m.tracked then Some(m.tracked[x])
    else if x in m.closed then Some(m.closed[x])
    else if x in m.recent then Some(m.recent[x])
    else None
  }

  function InTracked(m: Maps, x: Text, s: LotState): Maps {
    Maps(m.tracked[x := s], m.closed - {x}, m.recent - {x})
  }

  function InClosed(m: Maps, x: Text, s: LotState): Maps {
    Maps(m.tracked - {x}, m.closed[x := s], m.recent - {x})
  }

  function StepEvent(m: Maps, e: Event): Maps {
    var current := Lookup(m, e.lot);
    if e.kind.Reopen? then
      var reopened := ReopenKnownState(current, e);
      if reopened.None? then m else InTracked(m, e.lot, reopened.value)
    else if e.kind.Terminal? then
      if current.None? || AtMost(e.key, current.value.key) then m else InClosed(m, e.lot, MergeEvent(current, e))
    else if current.Some? && AtMost(e.key, current.value.key) then m
    else InTracked(m, e.lot, MergeEvent(current, e))
  }

  function Applied(m: Maps, events: seq<Event>): Maps {
    if events == [] then m else StepEvent(Applied(m, events[..|events| - 1]), events[|events| - 1])
  }

  predicate Named(events: seq<Event>) {
    forall i | 0 <= i < |events| :: events[i].lot != 0
  }

  /** The three dictionaries of one run, edited in place. */
  class LotBook {
    var tracked: map<Text, LotState>
    var closed: map<Text, LotState>
    var recent: map<Text, LotState>

    constructor (m: Maps)
      ensures Value() == m
    {
      tracked, closed, recent := m.tracked, m.closed, m.recent;
    }

    function Value(): Maps
      reads this
    {
      Maps(tracked, closed, recent)
    }

    /** Raises on an event without identity; the book is then abandoned with the run. */
    method ApplyEvents(events: seq<Event>) returns (ok: bool)
      modifies this
      ensures ok <==> Named(events)
      ensures ok ==> Value() == Applied(old(Value()), events)
    {
      for i := 0 to |events|
        invariant Named(events[..i])
        invariant Value() == Applied(old(Value()), events[..i])
      {
        var e := events[i];
        assert events[..i + 1][..i] == events[..i];
        if e.lot == 0 {
          return false;
        }
        var current := if e.lot in tracked then Some(tracked[e.lot]) else None;
        if current.None? {
          current := if e.lot in closed then Some(closed[e.lot]) else None;
        }
        if current.None? {
          current := if e.lot in recent then Some(recent[e.lot]) else None;
        }
        if e.kind.Reopen? {
          var reopened := ReopenKnownState(current, e);
          if reopened.None? { continue; }
          tracked := tracked[e.lot := reopened.value];
          closed := closed - {e.lot};
          recent := recent - {e.lot};
        } else if e.kind.Terminal? {
          if current.None? || AtMost(e.key, current.value.key) { continue; }
          tracked := tracked - {e.lot};
          closed := closed[e.lot := MergeEvent(current, e)];
          recent := recent - {e.lot};
        } else {
          if current.Some? && AtMost(e.key, current.value.key) { continue; }
          tracked := tracked[e.lot := MergeEvent(current, e)];
          closed := closed - {e.lot};
          recent := recent - {e.lot};
        }
      }
      assert events[..|events|] == events;
      ok := true;
    }
  }

  // ---- one lot at a time -----------------------------------------------------------

  ghost predicate Disjoint(m: Maps) {
    m.tracked.Keys !! m.closed.Keys && m.tracked.Keys !! m.recent.Keys && m.closed.Keys !! m.recent.Keys
  }

  datatype Slot = Absent | Tracked(state: LotState) | Closed(state: LotState) | Recent(state: LotState)

  function SlotOf(m: Maps, x: Text): Slot {
    if x in m.tracked then Tracked(m.tracked[x])
    else if x in m.closed then Closed(m.closed[x])
    else if x in m.recent then Recent(m.recent[x])
    else Absent
  }

  function StepSlot(slot: Slot, e: Event): Slot {
    if slot.Absent? then (if e.kind.Notice? then Tracked(MergeEvent(None, e)) else Absent)
    else if AtMost(e.key, slot.state.key) then slot
    else if e.kind.Terminal? then Closed(MergeEvent(Some(slot.state), e))
    else if e.kind.Notice? then Tracked(MergeEvent(Some(slot.state), e))
    else Tracked(LotState(e.key, slot.state.body, Some(REOPENING), None, false, slot.state.wasVisible))
  }

  function SlotAfter(slot: Slot, events: seq<Event>): Slot {
    if events == [] then slot else StepSlot(SlotAfter(slot, events[..|events| - 1]), events[|events| - 1])
  }

  function OfLot(events: seq<Event>, x: Text): seq<Event> {
    if events == [] then []
    else
      var e := events[|events| - 1];
      var earlier := OfLot(events[..|events| - 1], x);
      if e.lot == x then earlier + [e] else earlier
  }

  lemma StepTouchesOneLot(m: Maps, e: Event, x: Text)
    requires Disjoint(m)
    ensures Disjoint(StepEvent(m, e))
    ensures SlotOf(StepEvent(m, e), x) == if e.lot == x then StepSlot(SlotOf(m, x), e) else SlotOf(m, x)
  {
  }

  /** The maps stay disjoint and every lot evolves through its own events only. */
  lemma {:induction false} EachLotAlone(m: Maps, events: seq<Event>, x: Text)
    requires Disjoint(m)
    ensures Disjoint(Applied(m, events))
    ensures SlotOf(Applied(m, events), x) == SlotAfter(SlotOf(m, x), OfLot(events, x))
  {
    if events != [] {
      var init, e := events[..|events| - 1], events[|events| - 1];
      EachLotAlone(m, init, x);
      StepTouchesOneLot(Applied(m, init), e, x);
      if e.lot == x {
        var mine := OfLot(events, x);
        assert mine[..|mine| - 1] == OfLot(init, x);
      }
    }
  }

  // ---- the history of a lot ----------------------------------------------------------

  ghost predicate Increasing(events: seq<Event>) {
    forall i, j | 0 <= i < j < |events| :: Less(events[i].key, events[j].key)
  }

  ghost predicate NewestNotice(events: seq<Event>, i: int) {
    0 <= i < |events| && events[i].kind.Notice? && forall j | i < j < |events| :: !events[j].kind.Notice?
  }

  ghost predicate HasNotice(events: seq<Event>) {
    exists i :: 0 <= i < |events| && events[i].kind.Notice?
  }

  ghost predicate FirstStamp(events: seq<Event>, stamp: Text) {
    && (forall i | 0 <= i < |events| && events[i].kind.Notice? && events[i].kind.body.firstPublished != 0 ::
          0 < stamp <= events[i].kind.body.firstPublished)
    && (stamp != 0 ==> exists i :: 0 <= i < |events| && events[i].kind.Notice? && events[i].kind.body.firstPublished == stamp)
  }

  /** What the last event leaves as the result and the reason of closure. */
  ghost predicate SaysLast(s: LotState, last: Kind) {
    match last
    case Notice(_) => s.result == None && s.closure == None
    case Terminal(code, status, reason) => s.result == Some(code) && s.closure == Some(Closure(status, reason))
    case Reopen => s.result == Some("open-nw") && s.closure == None
  }

  /** The declarative meaning of the event loop for one lot whose events have increasing keys. */
  ghost predicate Summarises(slot: Slot, events: seq<Event>) {
    && (slot.Absent? <==> !HasNotice(events))
    && (!slot.Absent? ==>
          && slot.state.key == events[|events| - 1].key
          && (if events[|events| - 1].kind.Terminal? then slot.Closed? else slot.Tracked?)
          && SaysLast(slot.state, events[|events| - 1].kind)
          && !slot.state.wasVisible
          && FirstStamp(events, slot.state.body.firstPublished)
          && (forall i | NewestNotice(events, i) ::
                && slot.state.body.content == events[i].kind.body.content
                && slot.state.body.deadline == events[i].kind.body.deadline))
  }

  lemma {:induction false} HistoryOfALot(events: seq<Event>)
    requires Increasing(events)
    ensures Summarises(SlotAfter(Absent, events), events)
  {
    if events != [] {
      var n := |events| - 1;
      var init, e := events[..n], events[n];
      HistoryOfALot(init);
      var before := SlotAfter(Absent, init);
      SummaryStep(before, init, e);
      assert init + [e] == events;
    }
  }

  lemma SummaryStep(before: Slot, init: seq<Event>, e: Event)
    requires Summarises(before, init)
    requires init != [] ==> Less(init[|init| - 1].key, e.key)
    ensures Summarises(StepSlot(before, e), init + [e])
  {
    var events := init + [e];
    var n := |init|;
    var after := StepSlot(before, e);
    assert events[n] == e && forall i | 0 <= i < n :: events[i] == init[i];
    if e.kind.Notice? {
      assert HasNotice(events);
      assert forall i | NewestNotice(events, i) :: i == n;
    } else {
      assert HasNotice(events) <==> HasNotice(init) by {
        if HasNotice(init) {
          var i :| 0 <= i < n && init[i].kind.Notice?;
          assert events[i].kind.Notice?;
        }
      }
      assert forall i | NewestNotice(events, i) :: NewestNotice(init, i);
    }
    if !after.Absent? {
      FirstStampStep(before, init, e);
    }
  }

  lemma FirstStampStep(before: Slot, init: seq<Event>, e: Event)
    requires Summarises(before, init)
    requires init != [] ==> Less(init[|init| - 1].key, e.key)
    requires !StepSlot(before, e).Absent?
    ensures FirstStamp(init + [e], StepSlot(before, e).state.body.firstPublished)
  {
    var events := init + [e];
    var n := |init|;
    assert events[n] == e && forall i | 0 <= i < n :: events[i] == init[i];
    var stamp := StepSlot(before, e).state.body.firstPublished;
    if stamp != 0 {
      if e.kind.Notice? && e.kind.body.firstPublished == stamp {
        assert events[n].kind.body.firstPublished == stamp;
      } else {
        var i :| 0 <= i < n && init[i].kind.Notice? && init[i].kind.body.firstPublished == stamp;
        assert events[i].kind.body.firstPublished == stamp;
      }
    }
    if before.Absent? {
      assert forall i | 0 <= i < n :: !init[i].kind.Notice?;
    }
  }

  /** Sorted as the daily archive is sorted. */
  ghost predicate SortedByKey(events: seq<Event>) {
    forall i, j | 0 <= i < j < |events| :: AtMost(events[i].key, events[j].key)
  }

  ghost predicate DistinctKeysPerLot(events: seq<Event>) {
    forall i, j | 0 <= i < j < |events| && events[i].lot == events[j].lot :: events[i].key != events[j].key
  }

  lemma {:induction false} OwnEventsIncrease(events: seq<Event>, x: Text)
    requires SortedByKey(events) && DistinctKeysPerLot(events)
    ensures Increasing(OfLot(events, x))
    ensures forall e :: e in OfLot(events, x) <==> e in events && e.lot == x
  {
    if events != [] {
      var n := |events| - 1;
      var init, e := events[..n], events[n];
      OwnEventsIncrease(init, x);
      var mine, earlier := OfLot(events, x), OfLot(init, x);
      assert events == init + [e];
      forall i, j | 0 <= i < j < |mine| ensures Less(mine[i].key, mine[j].key) {
        if j == |earlier| {
          assert mine[i] in init;
          var k :| 0 <= k < n && init[k] == mine[i];
          assert events[k].lot == events[n].lot;
          KeysDiffer(events[k].key, e.key);
        }
      }
    }
  }

  lemma KeysDiffer(a: EventKey, b: EventKey)
    ensures a != b && AtMost(a, b) ==> Less(a, b)
  {
  }

  /** The event loop, started from nothing, is the per-lot summary of the feed. */
  lemma EventLoopRefinesHistory(events: seq<Event>, x: Text)
    requires SortedByKey(events) && DistinctKeysPerLot(events)
    ensures Disjoint(Applied(Maps(map[], map[], map[]), events))
    ensures Summarises(SlotOf(Applied(Maps(map[], map[], map[]), events), x), OfLot(events, x))
    ensures forall e :: e in OfLot(events, x) <==> e in events && e.lot == x
  {
    EachLotAlone(Maps(map[], map[], map[]), events, x);
    OwnEventsIncrease(events, x);
    HistoryOfALot(OfLot(events, x));
  }

  // ---- replay ------------------------------------------------------------------------

  /** The event has left its mark: applying it again would change nothing. */
  predicate Absorbed(m: Maps, e: Event) {
    match Lookup(m, e.lot)
    case None => !e.kind.Notice?
    case Some(s) => AtMost(e.key, s.key)
  }

  lemma AbsorbedStays(m: Maps, e: Event, next: Event)
    requires Absorbed(m, e) && AtMost(e.key, next.key)
    ensures Absorbed(StepEvent(m, next), e)
  {
  }

  lemma {:induction false} SortedFeedIsAbsorbed(m: Maps, events: seq<Event>)
    requires SortedByKey(events)
    ensures forall i | 0 <= i < |events| :: Absorbed(Applied(m, events), events[i])
  {
    if events != [] {
      var n := |events| - 1;
      SortedFeedIsAbsorbed(m, events[..n]);
      var before := Applied(m, events[..n]);
      forall i | 0 <= i < |events| ensures Absorbed(Applied(m, events), events[i]) {
        if i < n {
          assert Absorbed(before, events[..n][i]);
          AbsorbedStays(before, events[i], events[n]);
        }
      }
    }
  }

  lemma {:induction false} ReplayChangesNothing(m: Maps, replay: seq<Event>)
    requires forall i | 0 <= i < |replay| :: Absorbed(m, replay[i])
    ensures Applied(m, replay) == m
  {
    if replay != [] {
      var n := |replay| - 1;
      forall i | 0 <= i < n ensures Absorbed(m, replay[..n][i]) {
        assert replay[..n][i] == replay[i];
      }
      ReplayChangesNothing(m, replay[..n]);
    }
  }

  /** Re-reading any part of a sorted feed that was already applied changes no map. */
  lemma OverlapIsIdempotent(m: Maps, events: seq<Event>, replay: seq<Event>)
    requires SortedByKey(events)
    requires forall e :: e in replay ==> e in events
    ensures Applied(Applied(m, events), replay) == Applied(m, events)
  {
    SortedFeedIsAbsorbed(m, events);
    var after := Applied(m, events);
    forall i | 0 <= i < |replay| ensures Absorbed(after, replay[i]) {
      assert replay[i] in events;
      var k :| 0 <= k < |events| && events[k] == replay[i];
      assert Absorbed(after, events[k]);
    }
    ReplayChangesNothing(after, replay);
  }

  lemma {:induction false} AppliedInPieces(m: Maps, first: seq<Event>, second: seq<Event>)
    ensures Applied(m, first + second) == Applied(Applied(m, first), second)
  {
    if second == [] {
      assert first + second == first;
    } else {
      var n := |second| - 1;
      AppliedInPieces(m, first, second[..n]);
      assert (first + second)[..|first + second| - 1] == first + second[..n];
    }
  }
}
