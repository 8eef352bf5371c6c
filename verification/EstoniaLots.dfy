/** Estonia: one month of notices and awards folded into per-lot states. */
module EstoniaLots {
  import opened Common

  /** A stamp is the canonical whole-second UTC text of an issue time, so the order of stamps is
      the order of the times; a missing stamp, 0, is the least time there is. */
  datatype Event =
    | Notice(externalId: Text, procedure: Text, lotId: Text, noticeId: Text, noticeType: Text, stamp: Text,
             deadline: Option<Time>, content: Text)
    | Award(externalId: Text, procedure: Text, lotId: Text, noticeId: Text, noticeType: Text, stamp: Text, works: bool)

  datatype Lot = Lot(procedure: Text, noticeId: Text, noticeType: Text, closed: bool, stamp: Text,
                     deadline: Option<Time>, firstPublished: Text, content: Text, wasVisible: bool)

  type States = map<Text, Lot>

  function Lookup(states: States, x: Text): Option<Lot> {
    if x in states then Some(states[x]) else None
  }

  function Fresh(n: Event): Lot
    requires n.Notice?
  {
    Lot(n.procedure, n.noticeId, n.noticeType, false, n.stamp, n.deadline, n.stamp, n.content, false)
  }

  function OrElse(a: Text, b: Text): Text {
    if a != 0 then a else b
  }

  function MergeEvent(current: Option<Lot>, e: Event): Lot
    requires e.Award? ==> current.Some?
  {
    if current.None? then Fresh(e)
    else
      var c := current.value;
      if e.stamp < c.stamp then c
      else if e.Award? then
        c.(noticeId := OrElse(e.noticeId, c.noticeId), noticeType := OrElse(e.noticeType, c.noticeType),
           closed := true, stamp := OrElse(e.stamp, c.stamp))
      else Fresh(e).(wasVisible := c.wasVisible, firstPublished := MinPresent(c.firstPublished, e.stamp))
  }

  /** What an event does to its lot; an award of an unknown lot does nothing. */
  function LotAfter(current: Option<Lot>, e: Event): Option<Lot> {
    if e.Award? && current.None? then None else Some(MergeEvent(current, e))
  }

  function StepEvent(states: States, e: Event): States {
    var after := LotAfter(Lookup(states, e.externalId), e);
    if after.Some? then states[e.externalId := after.value] else states
  }

  function Applied(states: States, events: seq<Event>): States {
    if events == [] then states
    else StepEvent(Applied(states, events[..|events| - 1]), events[|events| - 1])
  }

  function PublicationKey(e: Event): (Text, Text) {
    (e.noticeId, e.lotId)
  }

  ghost predicate Repeats(events: seq<Event>, e: Event) {
    exists i | 0 <= i < |events| :: PublicationKey(events[i]) == PublicationKey(e)
  }

  /** Each publication of a lot once, at its first place in the month. */
  ghost function Firsts(events: seq<Event>): seq<Event> {
    if events == [] then []
    else
      var init, last := events[..|events| - 1], events[|events| - 1];
      if Repeats(init, last) then Firsts(init) else Firsts(init) + [last]
  }

  function Folders(states: States): set<Text> {
    set x | x in states && states[x].procedure != 0 :: states[x].procedure
  }

  predicate Considered(a: Event, folders: set<Text>) {
    a.Award? ==> a.works || a.procedure in folders
  }

  /** Works awards, and awards of any kind for a procedure that is tracked. */
  function Selected(awards: seq<Event>, folders: set<Text>): seq<Event> {
    if awards == [] then []
    else
      var init, last := awards[..|awards| - 1], awards[|awards| - 1];
      if Considered(last, folders) then Selected(init, folders) + [last] else Selected(init, folders)
  }

  datatype Period = Period(notices: seq<Event>, awards: seq<Event>) {
    ghost predicate Valid() {
      && (forall e | e in notices :: e.Notice? && e.externalId != 0)
      && (forall e | e in awards :: e.Award? && e.externalId != 0)
    }
  }

  ghost function AfterPeriod(states: States, p: Period): States {
    var noticed := Applied(states, Firsts(p.notices));
    Applied(noticed, Firsts(Selected(p.awards, Folders(noticed))))
  }

  // ---- a month, lot by lot ------------------------------------------------------------------------

  function LotHistory(current: Option<Lot>, events: seq<Event>): Option<Lot> {
    if events == [] then current
    else LotAfter(LotHistory(current, events[..|events| - 1]), events[|events| - 1])
  }

  /** A publication that counts and is listed in the file. */
  ghost predicate InFile(file: seq<Event>, counts: Event -> bool, e: Event) {
    exists i :: 0 <= i < |file| && counts(file[i]) && file[i].noticeId == e.noticeId && file[i].lotId == e.lotId
  }

  /** Lot x's own entries of a monthly file that count, each publication at its first place among those that
      count. */
  ghost function OwnFirsts(file: seq<Event>, counts: Event -> bool, x: Text): seq<Event> {
    if file == [] then []
    else
      var init, last := file[..|file| - 1], file[|file| - 1];
      OwnFirsts(init, counts, x) + (if last.externalId == x && counts(last) && !InFile(init, counts, last) then [last] else [])
  }

  ghost function NoticesOf(p: Period, x: Text): seq<Event> {
    OwnFirsts(p.notices, (e: Event) => true, x)
  }

  /** A lot of this procedure is held once the notices of the month are read. */
  ghost predicate HeldAfterNotices(states: States, p: Period, procedure: Text) {
    exists y :: var lot := LotHistory(Lookup(states, y), NoticesOf(p, y)); lot.Some? && lot.value.procedure == procedure
  }

  /** The awards of works, and of procedures held after the month's notices. */
  ghost function AwardsOf(states: States, p: Period, x: Text): seq<Event> {
    OwnFirsts(p.awards,
              (e: Event) => e.Award? && (e.works || (e.procedure != 0 && HeldAfterNotices(states, p, e.procedure))), x)
  }

  /** What a month makes of a lot: first its notices, then its awards. */
  ghost function MonthOfLot(states: States, p: Period, x: Text): Option<Lot> {
    LotHistory(Lookup(states, x), NoticesOf(p, x) + AwardsOf(states, p, x))
  }

  class LotBook {
    var states: States

    constructor (initial: States)
      ensures states == initial
    {
      states := initial;
    }

    method ReadNotices(notices: seq<Event>)
      requires forall e | e in notices :: e.Notice?
      modifies this
      ensures states == Applied(old(states), Firsts(notices))
    {
      hide Repeats, MergeEvent;
      var seen: set<(Text, Text)> := {};
      NothingRepeats();
      for i := 0 to |notices|
        invariant forall f: Event :: PublicationKey(f) in seen <==> Repeats(notices[..i], f)
        invariant states == Applied(old(states), Firsts(notices[..i]))
      {
        var e := notices[i];
        assert e in notices;
        assert notices[..i + 1] == notices[..i] + [e];
        FirstsNext(notices[..i], e);
        if PublicationKey(e) in seen {
          continue;
        }
        seen := seen + {PublicationKey(e)};
        AppliedNext(old(states), Firsts(notices[..i]), e);
        states := states[e.externalId := MergeEvent(Lookup(states, e.externalId), e)];
      }
      assert notices[..|notices|] == notices;
    }

    method ReadAward(e: Event)
      requires e.Award?
      modifies this
      ensures states == StepEvent(old(states), e)
    {
      if e.externalId !in states {
        return;
      }
      states := states[e.externalId := MergeEvent(Some(states[e.externalId]), e)];
    }

    method ReadAwards(awards: seq<Event>, folders: set<Text>)
      requires forall e | e in awards :: e.Award?
      modifies this
      ensures states == Applied(old(states), Firsts(Selected(awards, folders)))
    {
      hide Repeats, StepEvent;
      var seen: set<(Text, Text)> := {};
      NothingRepeats();
      for i := 0 to |awards|
        invariant forall f: Event :: PublicationKey(f) in seen <==> Repeats(Selected(awards[..i], folders), f)
        invariant states == Applied(old(states), Firsts(Selected(awards[..i], folders)))
      {
        var e := awards[i];
        assert e in awards;
        assert awards[..i + 1][..i] == awards[..i];
        if !Considered(e, folders) {
          continue;
        }
        FirstsNext(Selected(awards[..i], folders), e);
        if PublicationKey(e) in seen {
          continue;
        }
        seen := seen + {PublicationKey(e)};
        AppliedNext(old(states), Firsts(Selected(awards[..i], folders)), e);
        ReadAward(e);
      }
      assert awards[..|awards|] == awards;
    }

    method ApplyPeriod(p: Period)
      requires p.Valid()
      modifies this
      ensures states == AfterPeriod(old(states), p)
      ensures forall x :: Lookup(states, x) == MonthOfLot(old(states), p, x)
    {
      ReadNotices(p.notices);
      var folders := Folders(states);
      ReadAwards(p.awards, folders);
      forall x ensures Lookup(states, x) == MonthOfLot(old(states), p, x) {
        MonthLotByLot(old(states), p, x);
      }
    }
  }

  lemma AppliedNext(states: States, events: seq<Event>, e: Event)
    ensures Applied(states, events + [e]) == StepEvent(Applied(states, events), e)
  {
    assert (events + [e])[..|events|] == events;
  }

  lemma NothingRepeats()
    ensures forall f: Event :: !Repeats([], f)
  {
  }

  lemma FirstsNext(events: seq<Event>, e: Event)
    ensures Firsts(events + [e]) == if Repeats(events, e) then Firsts(events) else Firsts(events) + [e]
    ensures forall f: Event :: Repeats(events + [e], f) <==> Repeats(events, f) || PublicationKey(e) == PublicationKey(f)
  {
    var all := events + [e];
    assert all[..|all| - 1] == events && all[|events|] == e;
    forall f: Event
      ensures Repeats(all, f) <==> Repeats(events, f) || PublicationKey(e) == PublicationKey(f)
    {
      if PublicationKey(e) == PublicationKey(f) {
        assert PublicationKey(all[|events|]) == PublicationKey(f);
      } else if Repeats(events, f) {
        var i :| 0 <= i < |events| && PublicationKey(events[i]) == PublicationKey(f);
        assert all[i] == events[i];
      }
    }
  }

  // ---- what the fold means for one lot ---------------------------------------------------------------

  function OfLot(events: seq<Event>, x: Text): seq<Event> {
    if events == [] then []
    else
      var init, last := events[..|events| - 1], events[|events| - 1];
      if last.externalId == x then OfLot(init, x) + [last] else OfLot(init, x)
  }

  /** A lot's state depends on its own events only, in their order. */
  lemma {:induction false} EachLotAlone(states: States, events: seq<Event>, x: Text)
    ensures Lookup(Applied(states, events), x) == LotHistory(Lookup(states, x), OfLot(events, x))
  {
    if events != [] {
      var init, last := events[..|events| - 1], events[|events| - 1];
      EachLotAlone(states, init, x);
      hide MergeEvent;
      if last.externalId == x {
        var own := OfLot(init, x);
        assert (own + [last])[..|own|] == own;
      }
    }
  }

  /** Filtering, dropping repetitions and picking a lot is picking the lot's own first entries. */
  lemma {:induction false} PickingOwnFirsts(file: seq<Event>, folders: set<Text>, counts: Event -> bool, x: Text)
    requires forall e | e in file :: counts(e) <==> Considered(e, folders)
    ensures OfLot(Firsts(Selected(file, folders)), x) == OwnFirsts(file, counts, x)
    ensures forall f: Event :: Repeats(Selected(file, folders), f) <==> InFile(file, counts, f)
  {
    if file == [] {
      NothingRepeats();
    } else {
      var init, last := file[..|file| - 1], file[|file| - 1];
      assert last in file && forall e | e in init :: e in file;
      hide Considered, Repeats, InFile;
      PickingOwnFirsts(init, folders, counts, x);
      OneMoreInFile(file, counts);
      if counts(last) {
        FirstsNext(Selected(init, folders), last);
        OneMoreOfLot(Firsts(Selected(init, folders)), last, x);
      }
    }
  }

  lemma OneMoreOfLot(events: seq<Event>, e: Event, x: Text)
    ensures OfLot(events + [e], x) == OfLot(events, x) + if e.externalId == x then [e] else []
  {
    assert (events + [e])[..|events|] == events;
  }

  lemma OneMoreInFile(file: seq<Event>, counts: Event -> bool)
    requires file != []
    ensures var init, last := file[..|file| - 1], file[|file| - 1];
            forall f: Event :: InFile(file, counts, f)
              <==> InFile(init, counts, f) || (counts(last) && PublicationKey(last) == PublicationKey(f))
  {
    var init, n := file[..|file| - 1], |file| - 1;
    forall f: Event
      ensures InFile(file, counts, f) <==> InFile(init, counts, f) || (counts(file[n]) && PublicationKey(file[n]) == PublicationKey(f))
    {
      if InFile(init, counts, f) {
        var i :| 0 <= i < n && counts(init[i]) && init[i].noticeId == f.noticeId && init[i].lotId == f.lotId;
        assert counts(file[i]);
      } else if counts(file[n]) && PublicationKey(file[n]) == PublicationKey(f) {
        assert counts(file[n]);
      }
    }
  }

  lemma {:induction false} EveryNoticeIsSelected(notices: seq<Event>)
    requires forall e | e in notices :: e.Notice?
    ensures Selected(notices, {}) == notices
  {
    if notices != [] {
      EveryNoticeIsSelected(notices[..|notices| - 1]);
      assert notices[|notices| - 1] in notices;
    }
  }

  lemma NoticesLotByLot(states: States, p: Period, x: Text)
    requires p.Valid()
    ensures Lookup(Applied(states, Firsts(p.notices)), x) == LotHistory(Lookup(states, x), NoticesOf(p, x))
  {
    EveryNoticeIsSelected(p.notices);
    PickingOwnFirsts(p.notices, {}, (e: Event) => true, x);
    EachLotAlone(states, Firsts(p.notices), x);
    hide LotHistory, Applied, Firsts, OfLot, OwnFirsts;
  }

  /** The procedures that an award may belong to are those of the lots held after the notices. */
  lemma FoldersAreHeld(states: States, p: Period, procedure: Text)
    requires p.Valid() && procedure != 0
    ensures procedure in Folders(Applied(states, Firsts(p.notices))) <==> HeldAfterNotices(states, p, procedure)
  {
    var noticed := Applied(states, Firsts(p.notices));
    hide Applied, Firsts, LotHistory, NoticesOf;
    forall y ensures Lookup(noticed, y) == LotHistory(Lookup(states, y), NoticesOf(p, y)) {
      NoticesLotByLot(states, p, y);
    }
    if procedure in Folders(noticed) {
      var y :| y in noticed && noticed[y].procedure == procedure;
      assert Lookup(noticed, y) == LotHistory(Lookup(states, y), NoticesOf(p, y));
    }
    if HeldAfterNotices(states, p, procedure) {
      var y :| var lot := LotHistory(Lookup(states, y), NoticesOf(p, y)); lot.Some? && lot.value.procedure == procedure;
      assert Lookup(noticed, y) == LotHistory(Lookup(states, y), NoticesOf(p, y));
    }
  }

  lemma {:induction false} HistoryInPieces(current: Option<Lot>, a: seq<Event>, b: seq<Event>)
    ensures LotHistory(current, a + b) == LotHistory(LotHistory(current, a), b)
  {
    if b == [] {
      assert a + b == a;
    } else {
      HistoryInPieces(current, a, b[..|b| - 1]);
      assert (a + b)[..|a + b| - 1] == a + b[..|b| - 1];
    }
  }

  /** A month reads every lot's notices before every lot's awards. */
  lemma MonthLotByLot(states: States, p: Period, x: Text)
    requires p.Valid()
    ensures Lookup(AfterPeriod(states, p), x) == MonthOfLot(states, p, x)
  {
    var noticed := Applied(states, Firsts(p.notices));
    var folders := Folders(noticed);
    var counts := (e: Event) => e.Award? && (e.works || (e.procedure != 0 && HeldAfterNotices(states, p, e.procedure)));
    forall e | e in p.awards ensures counts(e) <==> Considered(e, folders) {
      if e.procedure != 0 {
        FoldersAreHeld(states, p, e.procedure);
      }
    }
    NoticesLotByLot(states, p, x);
    PickingOwnFirsts(p.awards, folders, counts, x);
    EachLotAlone(noticed, Firsts(Selected(p.awards, folders)), x);
    HistoryInPieces(Lookup(states, x), NoticesOf(p, x), AwardsOf(states, p, x));
    assert AwardsOf(states, p, x) == OwnFirsts(p.awards, counts, x);
    hide LotHistory, Applied, Firsts, OfLot, OwnFirsts, NoticesOf;
  }

  /** The last of the events with the greatest stamp. */
  ghost predicate Decisive(events: seq<Event>, i: nat) {
    && i < |events|
    && (forall j | 0 <= j < i :: events[j].stamp <= events[i].stamp)
    && (forall j | i < j < |events| :: events[j].stamp < events[i].stamp)
  }

  /** An event no earlier event outdates. */
  ghost predicate Current(events: seq<Event>, i: nat) {
    i < |events| && forall j | 0 <= j < i :: events[j].stamp <= events[i].stamp
  }

  /** The notice that gives a lot its content: the last notice that was not already outdated. */
  ghost predicate GivesContent(events: seq<Event>, i: nat) {
    && Current(events, i) && events[i].Notice?
    && (forall j | i < j < |events| :: events[j].Notice? ==> !Current(events, j))
  }

  ghost predicate Summary(events: seq<Event>, lot: Lot, d: nat, c: nat) {
    && Decisive(events, d) && GivesContent(events, c)
    && lot.firstPublished == events[0].stamp
    && lot.stamp == events[d].stamp && (lot.closed <==> events[d].Award?)
    && lot.content == events[c].content && lot.deadline == events[c].deadline && lot.procedure == events[c].procedure
    && !lot.wasVisible
  }

  /** What a lot is after its events, the first of them a notice: the decisive event says whether
      it is closed and when it was last updated; the content comes from the last notice that was
      not outdated on arrival; the first publication never moves; nothing makes it visible. */
  lemma {:induction false} HistoryOfALot(events: seq<Event>) returns (d: nat, c: nat)
    requires events != [] && events[0].Notice?
    requires forall e | e in events :: e.stamp != 0
    ensures LotHistory(None, events).Some? && Summary(events, LotHistory(None, events).value, d, c)
  {
    var n := |events| - 1;
    if n == 0 {
      d, c := 0, 0;
      assert events[..0] == [];
      assert LotHistory(None, events[..0]) == None;
      assert LotHistory(None, events) == Some(Fresh(events[0]));
    } else {
      var init := events[..n];
      assert forall e | e in init :: e in events;
      var d0, c0 := HistoryOfALot(init);
      hide LotHistory, LotAfter, MergeEvent, Decisive, GivesContent, Current;
      NextEvent(events, d0, c0);
      NextLot(events, LotHistory(None, init).value);
      d := if events[n].stamp < events[d0].stamp then d0 else n;
      c := if events[n].stamp < events[d0].stamp || events[n].Award? then c0 else n;
    }
  }

  lemma NextLot(events: seq<Event>, lot: Lot)
    requires |events| > 1 && LotHistory(None, events[..|events| - 1]) == Some(lot)
    requires lot.firstPublished == events[0].stamp && events[0].stamp != 0 && events[|events| - 1].stamp != 0
    ensures LotHistory(None, events).Some?
    ensures var e, after := events[|events| - 1], LotHistory(None, events).value;
            && after.wasVisible == lot.wasVisible
            && after.stamp == (if e.stamp < lot.stamp then lot.stamp else e.stamp)
            && after.closed == (if e.stamp < lot.stamp then lot.closed else e.Award?)
            && (e.stamp < lot.stamp || e.Award? ==>
                  after.content == lot.content && after.deadline == lot.deadline && after.procedure == lot.procedure)
            && (e.stamp >= lot.stamp && e.Notice? ==>
                  after.content == e.content && after.deadline == e.deadline && after.procedure == e.procedure)
            && after.firstPublished == (if e.stamp >= lot.stamp && e.Notice? then Min(events[0].stamp, e.stamp) else events[0].stamp)
  {
  }

  lemma NextEvent(events: seq<Event>, d: nat, c: nat)
    requires events != []
    requires Decisive(events[..|events| - 1], d) && GivesContent(events[..|events| - 1], c)
    ensures var n := |events| - 1;
            if events[n].stamp < events[d].stamp then Decisive(events, d) && GivesContent(events, c)
            else Decisive(events, n) && GivesContent(events, if events[n].Notice? then n else c)
                 && events[0].stamp <= events[n].stamp
  {
    var n := |events| - 1;
    PrefixJudgesAlike(events, d, c);
    if events[n].stamp < events[d].stamp {
      assert !Current(events, n);
      hide Current;
    } else {
      assert Current(events, n);
      assert events[0].stamp <= events[d].stamp;
      hide Current;
    }
  }

  lemma PrefixJudgesAlike(events: seq<Event>, d: nat, c: nat)
    requires events != []
    requires Decisive(events[..|events| - 1], d) && GivesContent(events[..|events| - 1], c)
    ensures var n := |events| - 1;
            && d < n && c < n && events[c].Notice? && Current(events, c)
            && (forall j | 0 <= j < n :: events[j].stamp <= events[d].stamp)
            && (forall j | d < j < n :: events[j].stamp < events[d].stamp)
            && (forall j | c < j < n :: events[j].Notice? ==> !Current(events, j))
  {
    var init := events[..|events| - 1];
    assert forall j | 0 <= j < |init| :: init[j] == events[j];
    forall j | c < j < |init| && events[j].Notice? ensures !Current(events, j) {
      assert !Current(init, j);
    }
  }
}
