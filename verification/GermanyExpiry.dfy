/** Germany: what forgetting an expired lot does to the rest of a catch-up.  A run prunes the
    recently closed lots that are past their retention; a longer run would still have known them
    while it applied the later days. */
module GermanyExpiry {
  import opened Common
  import opened Lifecycle
  import opened Sorting
  import opened GermanyLots
  import opened GermanyRuns

  // ---- one lot in the three maps --------------------------------------------------------------

  datatype Held = Held(tracked: Option<LotState>, closed: Option<LotState>, recent: Option<LotState>) {
    function Current(): Option<LotState> {
      if tracked.Some? then tracked else if closed.Some? then closed else recent
    }
  }

  function At(m: map<Text, LotState>, x: Text): Option<LotState> {
    if x in m then Some(m[x]) else None
  }

  function HeldOf(m: Maps, x: Text): Held {
    Held(At(m.tracked, x), At(m.closed, x), At(m.recent, x))
  }

  function StepHeld(h: Held, e: Event): Held {
    var current := h.Current();
    if e.kind.Reopen? then
      var reopened := ReopenKnownState(current, e);
      if reopened.None? then h else Held(reopened, None, None)
    else if e.kind.Terminal? then
      if current.None? || AtMost(e.key, current.value.key) then h else Held(None, Some(MergeEvent(current, e)), None)
    else if current.Some? && AtMost(e.key, current.value.key) then h
    else Held(Some(MergeEvent(current, e)), None, None)
  }

  function HeldAfter(h: Held, events: seq<Event>): Held {
    if events == [] then h else StepHeld(HeldAfter(h, events[..|events| - 1]), events[|events| - 1])
  }

  lemma StepHolds(m: Maps, e: Event, x: Text)
    ensures HeldOf(StepEvent(m, e), x) == if e.lot == x then StepHeld(HeldOf(m, x), e) else HeldOf(m, x)
  {
    hide MergeEvent, ReopenKnownState, AtMost;
  }

  /** Whatever the three maps hold, disjoint or not, a lot evolves through its own events only. */
  lemma {:induction false} EachLotHeld(m: Maps, events: seq<Event>, x: Text)
    ensures HeldOf(Applied(m, events), x) == HeldAfter(HeldOf(m, x), OfLot(events, x))
  {
    hide StepHeld, StepEvent, HeldOf;
    if events != [] {
      var init, e := events[..|events| - 1], events[|events| - 1];
      EachLotHeld(m, init, x);
      StepHolds(Applied(m, init), e, x);
      if e.lot == x {
        var mine := OfLot(events, x);
        assert mine[..|mine| - 1] == OfLot(init, x);
      }
    }
  }

  function HeldIn(slot: Slot): Held {
    match slot
    case Absent => Held(None, None, None)
    case Tracked(s) => Held(Some(s), None, None)
    case Closed(s) => Held(None, Some(s), None)
    case Recent(s) => Held(None, None, Some(s))
  }

  lemma {:induction false} HeldInSlot(slot: Slot, events: seq<Event>)
    ensures HeldAfter(HeldIn(slot), events) == HeldIn(SlotAfter(slot, events))
  {
    if events != [] {
      HeldInSlot(slot, events[..|events| - 1]);
      StepInSlot(SlotAfter(slot, events[..|events| - 1]), events[|events| - 1]);
      hide StepSlot, StepHeld;
    }
  }

  lemma StepInSlot(slot: Slot, e: Event)
    ensures StepHeld(HeldIn(slot), e) == HeldIn(StepSlot(slot, e))
  {
    hide AtMost;
  }

  // ---- what a caught-up run makes of one lot ----------------------------------------------------

  datatype Final = Final(closing: Option<Record>, live: Option<Record>, tracked: Option<LotState>, recent: Option<LotState>)

  function FinalOf(h: Held, x: Text, now: Time, cutoff: int): Final {
    var ended := if h.closed.Some? then Some(MarkEmitted(h.closed.value)) else h.recent;
    Final(if h.closed.Some? then ClosureOf(h.closed.value, x) else None,
          if h.tracked.Some? then TrackedOf(h.tracked.value, now, x) else None,
          if h.tracked.Some? && Survives(h.tracked.value, now) then Some(Kept(h.tracked.value, now)) else None,
          if ended.Some? && ended.value.key.day >= cutoff then ended else None)
  }

  lemma FinalMeans(m: Maps, x: Text, now: Time, cutoff: int)
    ensures var f := FinalOf(HeldOf(m, x), x, now, cutoff);
            && ClosureEmitter(m.closed)(x) == f.closing
            && TrackedEmitter(m.tracked, now)(x) == f.live
            && At(FinalMaps(m, now).tracked, x) == f.tracked
            && At(Pruned(FinalMaps(m, now).recent, cutoff), x) == f.recent
  {
    hide ClosureOf, TrackedOf, MarkEmitted, Survives, Kept;
    assert ClosureEmitter(m.closed)(x) == ClosureRecord(m.closed, x);
    assert TrackedEmitter(m.tracked, now)(x) == TrackedRecord(m.tracked, now, x);
  }

  lemma SameLookups(a: map<Text, LotState>, b: map<Text, LotState>)
    requires forall x :: At(a, x) == At(b, x)
    ensures a == b
  {
    forall x ensures x in a <==> x in b ensures x in a ==> a[x] == b[x] {
      assert At(a, x) == At(b, x);
    }
  }

  /** Emissions are determined by what is said about each lot, not by the keys that stay silent. */
  ghost predicate SpeaksOfItsLot(emitter: Text -> Option<Record>) {
    forall x | emitter(x).Some? :: emitter(x).value.Record? && emitter(x).value.externalId == x
  }

  ghost predicate Alphabetic(records: seq<Record>) {
    && (forall i | 0 <= i < |records| :: records[i].Record?)
    && (forall i, j | 0 <= i < j < |records| :: records[i].externalId < records[j].externalId)
  }

  lemma {:induction false} EmissionIsAlphabetic(keys: seq<Text>, emitter: Text -> Option<Record>)
    requires Ascending(keys) && SpeaksOfItsLot(emitter)
    ensures Alphabetic(Emit(keys, emitter))
    ensures forall r :: r in Emit(keys, emitter) <==> r.Record? && r.externalId in keys && emitter(r.externalId) == Some(r)
  {
    if keys != [] {
      var init, x := keys[..|keys| - 1], keys[|keys| - 1];
      EmissionIsAlphabetic(init, emitter);
      assert keys == init + [x] && x !in init;
      var records := Emit(keys, emitter);
      forall i, j | 0 <= i < j < |records| ensures records[i].externalId < records[j].externalId {
        assert records[i] in Emit(init, emitter);
      }
    }
  }

  lemma LastIsGreatest(a: seq<Record>, r: Record)
    requires Alphabetic(a) && r in a
    ensures r.Record? && r.externalId <= a[|a| - 1].externalId
    ensures r.externalId == a[|a| - 1].externalId ==> r == a[|a| - 1]
  {
    var i :| 0 <= i < |a| && a[i] == r;
    assert i == |a| - 1 || a[i].externalId < a[|a| - 1].externalId;
  }

  lemma WithoutTheLast(a: seq<Record>, r: Record)
    requires Alphabetic(a) && a != []
    ensures r in a[..|a| - 1] <==> r in a && r != a[|a| - 1]
    ensures Alphabetic(a[..|a| - 1])
  {
    var c := a[..|a| - 1];
    assert a == c + [a[|a| - 1]];
    if r in c {
      var j :| 0 <= j < |c| && c[j] == r;
      assert a[j].externalId < a[|a| - 1].externalId;
    }
  }

  lemma {:induction false} SameMembersSameOrder(a: seq<Record>, b: seq<Record>)
    requires Alphabetic(a) && Alphabetic(b) && forall r :: r in a <==> r in b
    ensures a == b
  {
    assert |b| > 0 ==> b[0] in a;
    if a == [] {
    } else {
      assert a[|a| - 1] in a && a[|a| - 1] in b;
      assert b[|b| - 1] in b;
      LastIsGreatest(a, b[|b| - 1]);
      LastIsGreatest(b, a[|a| - 1]);
      var c, d := a[..|a| - 1], b[..|b| - 1];
      forall r ensures r in c <==> r in d {
        WithoutTheLast(a, r);
        WithoutTheLast(b, r);
      }
      WithoutTheLast(a, a[|a| - 1]);
      WithoutTheLast(b, b[|b| - 1]);
      hide Alphabetic;
      SameMembersSameOrder(c, d);
      assert a == c + [a[|a| - 1]] && b == d + [b[|b| - 1]];
    }
  }

  lemma SameEmission(k: set<Text>, l: set<Text>, e: Text -> Option<Record>, f: Text -> Option<Record>)
    requires SpeaksOfItsLot(e) && SpeaksOfItsLot(f) && forall x :: e(x) == f(x)
    requires forall x | e(x).Some? :: x in k && x in l
    ensures Emit(Listed(k), e) == Emit(Listed(l), f)
  {
    EmissionIsAlphabetic(Listed(k), e);
    EmissionIsAlphabetic(Listed(l), f);
    SameMembersSameOrder(Emit(Listed(k), e), Emit(Listed(l), f));
  }

  lemma EmittersAreNamed(m: Maps, now: Time)
    ensures SpeaksOfItsLot(ClosureEmitter(m.closed)) && SpeaksOfItsLot(TrackedEmitter(m.tracked, now))
    ensures forall x | ClosureEmitter(m.closed)(x).Some? :: x in m.closed
    ensures forall x | TrackedEmitter(m.tracked, now)(x).Some? :: x in m.tracked
  {
    var c, t := ClosureEmitter(m.closed), TrackedEmitter(m.tracked, now);
    forall x ensures c(x).Some? ==> c(x).value.Record? && c(x).value.externalId == x && x in m.closed
             ensures t(x).Some? ==> t(x).value.Record? && t(x).value.externalId == x && x in m.tracked
    {
      assert c(x) == ClosureRecord(m.closed, x);
      assert t(x) == TrackedRecord(m.tracked, now, x);
    }
  }

  ghost predicate EndAlike(a: Maps, b: Maps, now: Time, cutoff: int) {
    forall x :: FinalOf(HeldOf(a, x), x, now, cutoff) == FinalOf(HeldOf(b, x), x, now, cutoff)
  }

  /** Maps whose lots all end alike give the same outcome. */
  lemma SameFinish(limits: Limits, a: Maps, b: Maps, target: int, now: Time)
    requires EndAlike(a, b, now, target - limits.retention)
    ensures Finish(limits, target, a, target, now) == Finish(limits, target, b, target, now)
  {
    hide *;
    EndAlikeMeans(a, b, now, target - limits.retention);
    EmittersAreNamed(a, now);
    EmittersAreNamed(b, now);
    SameEmission(a.closed.Keys, b.closed.Keys, ClosureEmitter(a.closed), ClosureEmitter(b.closed));
    SameEmission(a.tracked.Keys, b.tracked.Keys, TrackedEmitter(a.tracked, now), TrackedEmitter(b.tracked, now));
    FinishOf(limits, a, target, now);
    FinishOf(limits, b, target, now);
  }

  lemma EndAlikeMeans(a: Maps, b: Maps, now: Time, cutoff: int)
    requires EndAlike(a, b, now, cutoff)
    ensures forall x :: ClosureEmitter(a.closed)(x) == ClosureEmitter(b.closed)(x)
    ensures forall x :: TrackedEmitter(a.tracked, now)(x) == TrackedEmitter(b.tracked, now)(x)
    ensures FinalMaps(a, now).tracked == FinalMaps(b, now).tracked
    ensures Pruned(FinalMaps(a, now).recent, cutoff) == Pruned(FinalMaps(b, now).recent, cutoff)
  {
    hide FinalOf, HeldOf, At, FinalMaps, Pruned, ClosureEmitter, TrackedEmitter;
    forall x ensures ClosureEmitter(a.closed)(x) == ClosureEmitter(b.closed)(x)
             ensures TrackedEmitter(a.tracked, now)(x) == TrackedEmitter(b.tracked, now)(x)
             ensures At(FinalMaps(a, now).tracked, x) == At(FinalMaps(b, now).tracked, x)
             ensures At(Pruned(FinalMaps(a, now).recent, cutoff), x) == At(Pruned(FinalMaps(b, now).recent, cutoff), x)
    {
      FinalMeans(a, x, now, cutoff);
      FinalMeans(b, x, now, cutoff);
    }
    hide EndAlike;
    SameLookups(FinalMaps(a, now).tracked, FinalMaps(b, now).tracked);
    SameLookups(Pruned(FinalMaps(a, now).recent, cutoff), Pruned(FinalMaps(b, now).recent, cutoff));
  }

  /** A caught-up run stores the surviving lots and the closed ones within their retention. */
  lemma FinishOf(limits: Limits, m: Maps, target: int, now: Time)
    ensures var kept := Pruned(FinalMaps(m, now).recent, target - limits.retention);
            Finish(limits, target, m, target, now)
            == if |kept| > limits.maxRecent then Err("recently_closed exceeds its bound")
               else Ok(Outcome(Emit(Listed(m.closed.Keys), ClosureEmitter(m.closed))
                               + Emit(Listed(m.tracked.Keys), TrackedEmitter(m.tracked, now)),
                               Cursor(target, Maps(FinalMaps(m, now).tracked, map[], kept))))
  {
    hide Emit, Listed, Pruned, ClosureEmitter, TrackedEmitter;
    NothingStaysClosed(m, now);
  }

  lemma NothingStaysClosed(m: Maps, now: Time)
    ensures FinalMaps(m, now).closed == map[]
  {
  }

  // ---- forgetting ---------------------------------------------------------------------------------

  /** The maps after an unfinished run has pruned them. */
  function Forgetting(m: Maps, cutoff: int): Maps {
    m.(recent := Pruned(m.recent, cutoff))
  }

  /** The lots a pruning makes unknown. */
  function Lost(m: Maps, cutoff: int): set<Text> {
    set x | x in m.recent && m.recent[x].key.day < cutoff && x !in m.tracked && x !in m.closed
  }

  /** What becomes of a lot remembered as s, and of the same lot forgotten, through its later events. */
  function Remembered(s: LotState, mine: seq<Event>): Slot {
    SlotAfter(Recent(s), mine)
  }

  function Forgotten(mine: seq<Event>): Slot {
    SlotAfter(Absent, mine)
  }

  function Told(slot: Slot, x: Text, now: Time, cutoff: int): Final {
    FinalOf(HeldIn(slot), x, now, cutoff)
  }

  predicate Harmless(s: LotState, mine: seq<Event>, x: Text, now: Time, cutoff: int) {
    Told(Remembered(s, mine), x, now, cutoff) == Told(Forgotten(mine), x, now, cutoff)
  }

  /** An entry that is shadowed by a live one and expired anyway never shows. */
  lemma {:induction false} ShadowedNeverShows(h: Held, events: seq<Event>, x: Text, now: Time, cutoff: int)
    requires h.tracked.Some? || h.closed.Some?
    requires h.recent.Some? ==> h.recent.value.key.day < cutoff
    ensures var a, b := HeldAfter(h, events), HeldAfter(h.(recent := None), events);
            && a.tracked == b.tracked && a.closed == b.closed && (a.tracked.Some? || a.closed.Some?)
            && (a.recent == b.recent || (a.recent == h.recent && b.recent.None?))
    ensures FinalOf(HeldAfter(h, events), x, now, cutoff) == FinalOf(HeldAfter(h.(recent := None), events), x, now, cutoff)
  {
    hide ClosureOf, TrackedOf, MergeEvent, AtMost, Survives, Kept;
    if events != [] {
      ShadowedNeverShows(h, events[..|events| - 1], x, now, cutoff);
    }
  }

  /** A lot that is not lost ends alike with and without the pruned entries. */
  lemma OtherLotsEndAlike(m: Maps, events: seq<Event>, x: Text, now: Time, cutoff: int)
    requires x !in Lost(m, cutoff)
    ensures FinalOf(HeldOf(Applied(m, events), x), x, now, cutoff)
         == FinalOf(HeldOf(Applied(Forgetting(m, cutoff), events), x), x, now, cutoff)
  {
    var h, g, mine := HeldOf(m, x), HeldOf(Forgetting(m, cutoff), x), OfLot(events, x);
    EachLotHeld(m, events, x);
    EachLotHeld(Forgetting(m, cutoff), events, x);
    if g != h {
      assert g == h.(recent := None) && h.recent.value.key.day < cutoff;
      ShadowedNeverShows(h, mine, x, now, cutoff);
    }
  }

  lemma LostLotsEnd(m: Maps, events: seq<Event>, x: Text, cutoff: int)
    requires x in Lost(m, cutoff)
    ensures HeldOf(Applied(m, events), x) == HeldIn(Remembered(m.recent[x], OfLot(events, x)))
    ensures HeldOf(Applied(Forgetting(m, cutoff), events), x) == HeldIn(Forgotten(OfLot(events, x)))
  {
    EachLotHeld(m, events, x);
    EachLotHeld(Forgetting(m, cutoff), events, x);
    HeldInSlot(Recent(m.recent[x]), OfLot(events, x));
    HeldInSlot(Absent, OfLot(events, x));
  }

  /** A lot that was forgotten and found again was never announced. */
  lemma {:induction false} ForgottenIsUnannounced(mine: seq<Event>)
    ensures var slot := Forgotten(mine); !slot.Recent? && (!slot.Absent? ==> !slot.state.wasVisible)
  {
    if mine != [] {
      ForgottenIsUnannounced(mine[..|mine| - 1]);
    }
  }

  /** If the outcomes agree, the lot ends alike in both. */
  lemma SameOutcomeSameEnd(limits: Limits, a: Maps, b: Maps, target: int, now: Time, x: Text)
    requires Finish(limits, target, a, target, now).Ok?
    requires Finish(limits, target, a, target, now) == Finish(limits, target, b, target, now)
    requires var h := HeldOf(b, x);
             (h.closed.Some? ==> !h.closed.value.wasVisible) && (h.tracked.Some? ==> !h.tracked.value.wasVisible)
    ensures FinalOf(HeldOf(a, x), x, now, target - limits.retention)
         == FinalOf(HeldOf(b, x), x, now, target - limits.retention)
  {
    var cutoff := target - limits.retention;
    hide *;
    var f, g := FinalOf(HeldOf(a, x), x, now, cutoff), FinalOf(HeldOf(b, x), x, now, cutoff);
    SameCursorSameLots(limits, a, b, target, now, x);
    KindsOfRecords(HeldOf(a, x), x, now, cutoff);
    KindsOfRecords(HeldOf(b, x), x, now, cutoff);
    SaidAbout(a, now, cutoff, x);
    SaidAbout(b, now, cutoff, x);
    assert forall r: Record | f.closing == Some(r) || f.live == Some(r) :: r in FinalRecords(b, now);
    assert forall r: Record | g.live == Some(r) :: r in FinalRecords(a, now);
  }

  lemma SameCursorSameLots(limits: Limits, a: Maps, b: Maps, target: int, now: Time, x: Text)
    requires Finish(limits, target, a, target, now).Ok?
    requires Finish(limits, target, a, target, now) == Finish(limits, target, b, target, now)
    ensures var cutoff := target - limits.retention;
            var f, g := FinalOf(HeldOf(a, x), x, now, cutoff), FinalOf(HeldOf(b, x), x, now, cutoff);
            f.tracked == g.tracked && f.recent == g.recent && FinalRecords(a, now) == FinalRecords(b, now)
  {
    hide FinalMaps, FinalRecords, Pruned, FinalOf, HeldOf;
    FinalMeans(a, x, now, target - limits.retention);
    FinalMeans(b, x, now, target - limits.retention);
  }

  lemma KindsOfRecords(h: Held, x: Text, now: Time, cutoff: int)
    ensures var f := FinalOf(h, x, now, cutoff);
            && (f.closing.Some? ==> f.closing.value.Record? && f.closing.value.externalId == x
                                    && f.closing.value.isActionable == Some(false))
            && (f.live.Some? ==> f.live.value.Record? && f.live.value.externalId == x)
            && (h.closed.Some? && !h.closed.value.wasVisible ==> f.closing.None?)
            && (h.closed.None? ==> f.closing.None?)
            && (f.live.Some? && h.tracked.Some? && !h.tracked.value.wasVisible ==> f.live.value.isActionable == Some(true))
            && (h.tracked.None? ==> f.live.None?)
  {
  }

  /** The records of a caught-up run about a lot are its closing one and its live one. */
  lemma SaidAbout(m: Maps, now: Time, cutoff: int, x: Text)
    ensures var f := FinalOf(HeldOf(m, x), x, now, cutoff);
            forall r: Record | r.Record? && r.externalId == x :: r in FinalRecords(m, now) <==> f.closing == Some(r) || f.live == Some(r)
  {
    hide FinalOf, HeldOf, Emit, Listed;
    FinalMeans(m, x, now, cutoff);
    EmittersAreNamed(m, now);
    EmissionIsAlphabetic(Listed(m.closed.Keys), ClosureEmitter(m.closed));
    EmissionIsAlphabetic(Listed(m.tracked.Keys), TrackedEmitter(m.tracked, now));
    hide ClosureEmitter, TrackedEmitter, SpeaksOfItsLot;
  }

  ghost predicate AllHarmless(m: Maps, events: seq<Event>, now: Time, cutoff: int) {
    forall x | x in Lost(m, cutoff) :: Harmless(m.recent[x], OfLot(events, x), x, now, cutoff)
  }

  /** Forgetting the expired lots before the later days changes the outcome exactly when it
      changes it for one of them, unless both outcomes are refused. */
  lemma ForgettingMatters(limits: Limits, m: Maps, events: seq<Event>, target: int, now: Time)
    ensures var cutoff := target - limits.retention;
            var kept := Finish(limits, target, Applied(m, events), target, now);
            var lost := Finish(limits, target, Applied(Forgetting(m, cutoff), events), target, now);
            kept == lost <==> (kept.Err? && lost.Err?) || AllHarmless(m, events, now, cutoff)
  {
    hide *;
    var cutoff := target - limits.retention;
    var a, b := Applied(m, events), Applied(Forgetting(m, cutoff), events);
    var kept, lost := Finish(limits, target, a, target, now), Finish(limits, target, b, target, now);
    RefusalsAreAlike(limits, target, a, b, now);
    if AllHarmless(m, events, now, cutoff) {
      HarmlessLossesEndAlike(m, events, now, cutoff);
      SameFinish(limits, a, b, target, now);
    } else if kept == lost && kept.Ok? {
      SameOutcomeIsHarmless(limits, m, events, target, now);
    }
  }

  lemma RefusalsAreAlike(limits: Limits, target: int, a: Maps, b: Maps, now: Time)
    ensures Finish(limits, target, a, target, now).Err? && Finish(limits, target, b, target, now).Err? ==>
              Finish(limits, target, a, target, now) == Finish(limits, target, b, target, now)
  {
    hide FinalMaps, FinalRecords, Pruned;
  }

  lemma HarmlessLossesEndAlike(m: Maps, events: seq<Event>, now: Time, cutoff: int)
    requires AllHarmless(m, events, now, cutoff)
    ensures EndAlike(Applied(m, events), Applied(Forgetting(m, cutoff), events), now, cutoff)
  {
    hide Applied, FinalOf, HeldOf, HeldIn, Remembered, Forgotten, Forgetting, Lost;
    forall x
      ensures FinalOf(HeldOf(Applied(m, events), x), x, now, cutoff)
           == FinalOf(HeldOf(Applied(Forgetting(m, cutoff), events), x), x, now, cutoff)
    {
      if x in Lost(m, cutoff) {
        LostIsHeld(m, cutoff, x);
        LostLotsEnd(m, events, x, cutoff);
        assert Harmless(m.recent[x], OfLot(events, x), x, now, cutoff);
      } else {
        OtherLotsEndAlike(m, events, x, now, cutoff);
      }
    }
  }

  lemma LostIsHeld(m: Maps, cutoff: int, x: Text)
    requires x in Lost(m, cutoff)
    ensures x in m.recent && m.recent[x].key.day < cutoff
  {
  }

  lemma SameOutcomeIsHarmless(limits: Limits, m: Maps, events: seq<Event>, target: int, now: Time)
    requires var kept := Finish(limits, target, Applied(m, events), target, now);
             kept.Ok? && kept == Finish(limits, target, Applied(Forgetting(m, target - limits.retention), events), target, now)
    ensures AllHarmless(m, events, now, target - limits.retention)
  {
    var cutoff := target - limits.retention;
    hide Finish, Applied, FinalOf, HeldOf, HeldIn, Remembered, Forgotten, Forgetting, Lost;
    forall x | x in Lost(m, cutoff) ensures x in m.recent && Harmless(m.recent[x], OfLot(events, x), x, now, cutoff) {
      LostIsHeld(m, cutoff, x);
      LostLotsEnd(m, events, x, cutoff);
      ForgottenHeld(OfLot(events, x));
      SameOutcomeSameEnd(limits, Applied(m, events), Applied(Forgetting(m, cutoff), events), target, now, x);
    }
  }

  lemma ForgottenHeld(mine: seq<Event>)
    ensures var h := HeldIn(Forgotten(mine));
            (h.closed.Some? ==> !h.closed.value.wasVisible) && (h.tracked.Some? ==> !h.tracked.value.wasVisible)
  {
    ForgottenIsUnannounced(mine);
    hide Forgotten;
  }

  /** A lot without later events is forgotten without a trace. */
  lemma QuietIsHarmless(s: LotState, x: Text, now: Time, cutoff: int)
    requires s.key.day < cutoff
    ensures Harmless(s, [], x, now, cutoff)
  {
  }

  // ---- when exactly forgetting shows -----------------------------------------------------------------

  function ResultAfter(e: Event): Option<string> {
    match e.kind
    case Notice(_) => None
    case Terminal(code, _, _) => Some(code)
    case Reopen => Some(REOPENING)
  }

  function ClosureAfter(e: Event): Option<Closure> {
    if e.kind.Terminal? then Some(Closure(e.kind.status, e.kind.reason)) else None
  }

  /** The slot is where the event puts a lot, with the given visibility. */
  ghost predicate PutBy(slot: Slot, e: Event, visible: bool) {
    && (if e.kind.Terminal? then slot.Closed? else slot.Tracked?)
    && slot.state == LotState(e.key, slot.state.body, ResultAfter(e), ClosureAfter(e), false, visible)
  }

  predicate Acts(s: LotState, mine: seq<Event>) {
    mine != [] && Less(s.key, mine[|mine| - 1].key)
  }

  /** Where remembering and forgetting leave a lot whose later events have increasing keys. */
  lemma {:induction false} BothEnds(s: LotState, mine: seq<Event>)
    requires Increasing(mine)
    ensures var a := Remembered(s, mine);
            && (!Acts(s, mine) ==> a == Recent(s))
            && (Acts(s, mine) ==> PutBy(a, mine[|mine| - 1], s.wasVisible))
            && (Acts(s, mine) && !HasNotice(mine) ==> a.state.body == s.body)
    ensures var b := Forgotten(mine);
            && (!HasNotice(mine) ==> b == Absent)
            && (HasNotice(mine) ==> mine != [] && PutBy(b, mine[|mine| - 1], false))
  {
    if mine != [] {
      var n := |mine| - 1;
      var init, e := mine[..n], mine[n];
      BothEnds(s, init);
      assert mine == init + [e];
      if HasNotice(init) {
        var i :| 0 <= i < |init| && init[i].kind.Notice?;
        assert mine[i].kind.Notice?;
      }
      if e.kind.Notice? {
        assert mine[n].kind.Notice?;
      } else if HasNotice(mine) {
        var i :| 0 <= i < |mine| && mine[i].kind.Notice?;
        assert init[i].kind.Notice?;
      }
      if n > 0 {
        assert Less(mine[n - 1].key, mine[n].key);
      }
      hide HasNotice, Increasing;
      StepRemembered(s, Remembered(s, init), init, e);
      StepForgotten(Forgotten(init), init, e);
    }
  }

  /** When the newest notice acts on the remembered state, the two bodies can differ only in the
      first publication. */
  lemma {:induction false} NewestNoticeDecides(s: LotState, mine: seq<Event>, i: int)
    requires Increasing(mine) && NewestNotice(mine, i) && Less(s.key, mine[i].key)
    ensures var a, b := Remembered(s, mine), Forgotten(mine);
            && !a.Absent? && !b.Absent?
            && a.state.body.content == b.state.body.content == mine[i].kind.body.content
            && a.state.body.deadline == b.state.body.deadline == mine[i].kind.body.deadline
  {
    var n := |mine| - 1;
    var init, e := mine[..n], mine[n];
    BothEnds(s, init);
    BothEnds(s, mine);
    assert mine[i].kind.Notice?;
    if i < n {
      assert Less(mine[i].key, e.key);
      assert NewestNotice(init, i);
      NewestNoticeDecides(s, init, i);
    }
  }

  lemma StepRemembered(s: LotState, a: Slot, init: seq<Event>, e: Event)
    requires init != [] ==> Less(init[|init| - 1].key, e.key)
    requires !Acts(s, init) ==> a == Recent(s)
    requires Acts(s, init) ==> PutBy(a, init[|init| - 1], s.wasVisible)
    ensures !Less(s.key, e.key) ==> StepSlot(a, e) == Recent(s)
    ensures Less(s.key, e.key) ==> PutBy(StepSlot(a, e), e, s.wasVisible)
    ensures !a.Absent? && Less(s.key, e.key) && !e.kind.Notice? ==> StepSlot(a, e).state.body == a.state.body
  {
  }

  lemma StepForgotten(b: Slot, init: seq<Event>, e: Event)
    requires init != [] ==> Less(init[|init| - 1].key, e.key)
    requires b == Absent || (init != [] && PutBy(b, init[|init| - 1], false))
    ensures b == Absent && !e.kind.Notice? ==> StepSlot(b, e) == Absent
    ensures b != Absent || e.kind.Notice? ==> PutBy(StepSlot(b, e), e, false)
  {
  }

  predicate Elapsed(deadline: Option<Time>, now: Time) {
    deadline.Some? && !Future(deadline, now)
  }

  /** The two bodies of a lot put by the same last event, one remembered and one found again. */
  predicate BothBodiesShowAlike(e: Event, known: Body, found: Body, visible: bool, now: Time, cutoff: int) {
    if e.kind.Terminal? then !visible && (e.key.day < cutoff || known == found)
    else if Future(known.deadline, now) then known == found
    else if known.deadline.None? then !visible && known == found
    else !visible && Elapsed(found.deadline, now)
  }

  /** What a caller can check: whether the lot's later events act on the remembered state, whether
      a notice is among them, what its last event is, and how the two bodies compare. */
  ghost predicate Unnoticeable(s: LotState, mine: seq<Event>, now: Time, cutoff: int)
    requires Increasing(mine)
  {
    BothEnds(s, mine);
    if mine == [] then true
    else
      var e := mine[|mine| - 1];
      if !HasNotice(mine) then
        !Acts(s, mine) || (!s.wasVisible && if e.kind.Terminal? then e.key.day < cutoff else Elapsed(s.body.deadline, now))
      else
        var found := Forgotten(mine).state.body;
        if !Acts(s, mine) then e.kind.Terminal? || Elapsed(found.deadline, now)
        else BothBodiesShowAlike(e, Remembered(s, mine).state.body, found, s.wasVisible, now, cutoff)
  }

  /** Forgetting an expired lot shows exactly when the condition fails. */
  lemma HarmlessExactly(s: LotState, mine: seq<Event>, x: Text, now: Time, cutoff: int)
    requires Increasing(mine) && s.key.day < cutoff
    ensures Harmless(s, mine, x, now, cutoff) <==> Unnoticeable(s, mine, now, cutoff)
  {
    BothEnds(s, mine);
    if mine == [] {
    } else if !HasNotice(mine) {
      hide Remembered, Forgotten, Increasing, HasNotice;
      WithoutANotice(s, Remembered(s, mine), mine[|mine| - 1], x, now, cutoff);
    } else if !Acts(s, mine) {
      hide Remembered, Forgotten, Increasing, HasNotice;
      WithoutEffect(s, Forgotten(mine), mine[|mine| - 1], x, now, cutoff);
    } else {
      hide Remembered, Forgotten, Increasing, HasNotice;
      WithBoth(Remembered(s, mine), Forgotten(mine), mine[|mine| - 1], s.wasVisible, x, now, cutoff);
    }
  }

  lemma WithoutANotice(s: LotState, a: Slot, e: Event, x: Text, now: Time, cutoff: int)
    requires s.key.day < cutoff && !e.kind.Notice?
    requires !Less(s.key, e.key) ==> a == Recent(s)
    requires Less(s.key, e.key) ==> PutBy(a, e, s.wasVisible) && a.state.body == s.body
    ensures Told(a, x, now, cutoff) == Told(Absent, x, now, cutoff)
       <==> !Less(s.key, e.key) || (!s.wasVisible && if e.kind.Terminal? then e.key.day < cutoff else Elapsed(s.body.deadline, now))
  {
  }

  lemma WithoutEffect(s: LotState, b: Slot, e: Event, x: Text, now: Time, cutoff: int)
    requires s.key.day < cutoff && !Less(s.key, e.key) && PutBy(b, e, false)
    ensures Told(Recent(s), x, now, cutoff) == Told(b, x, now, cutoff)
       <==> e.kind.Terminal? || Elapsed(b.state.body.deadline, now)
  {
  }

  lemma WithBoth(a: Slot, b: Slot, e: Event, visible: bool, x: Text, now: Time, cutoff: int)
    requires PutBy(a, e, visible) && PutBy(b, e, false)
    ensures Told(a, x, now, cutoff) == Told(b, x, now, cutoff)
       <==> BothBodiesShowAlike(e, a.state.body, b.state.body, visible, now, cutoff)
  {
    if e.kind.Terminal? {
      ClosedAlike(a, b, e, visible, x, now, cutoff);
    } else {
      TrackedAlike(a, b, e, visible, x, now, cutoff);
    }
    hide PutBy, Told;
  }

  lemma ClosedAlike(a: Slot, b: Slot, e: Event, visible: bool, x: Text, now: Time, cutoff: int)
    requires PutBy(a, e, visible) && PutBy(b, e, false) && e.kind.Terminal?
    ensures Told(a, x, now, cutoff) == Told(b, x, now, cutoff)
       <==> BothBodiesShowAlike(e, a.state.body, b.state.body, visible, now, cutoff)
  {
  }

  lemma TrackedAlike(a: Slot, b: Slot, e: Event, visible: bool, x: Text, now: Time, cutoff: int)
    requires PutBy(a, e, visible) && PutBy(b, e, false) && !e.kind.Terminal?
    ensures Told(a, x, now, cutoff) == Told(b, x, now, cutoff)
       <==> BothBodiesShowAlike(e, a.state.body, b.state.body, visible, now, cutoff)
  {
  }

  lemma AllHarmlessExactly(m: Maps, events: seq<Event>, now: Time, cutoff: int)
    requires SortedByKey(events) && DistinctKeysPerLot(events)
    ensures forall x :: Increasing(OfLot(events, x))
    ensures AllHarmless(m, events, now, cutoff)
       <==> forall x | x in Lost(m, cutoff) :: Unnoticeable(m.recent[x], OfLot(events, x), now, cutoff)
  {
    hide Harmless, Unnoticeable, Increasing, SortedByKey, DistinctKeysPerLot, OfLot;
    forall x ensures Increasing(OfLot(events, x)) {
      OwnEventsIncrease(events, x);
    }
    forall x | x in Lost(m, cutoff)
      ensures Harmless(m.recent[x], OfLot(events, x), x, now, cutoff) <==> Unnoticeable(m.recent[x], OfLot(events, x), now, cutoff)
    {
      HarmlessExactly(m.recent[x], OfLot(events, x), x, now, cutoff);
    }
  }
}
