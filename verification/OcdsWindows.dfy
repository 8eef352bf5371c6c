/** OCDS opaque-cursor windows: windows tile their range, a window counts only when its token chain
    has ended, and over any chain of successful runs no instant up to the stored mark is missed. */
module OcdsWindows {
  import opened Common

  // ---- one window: the token chain ---------------------------------------------------------------

  /** One response: its releases and the token of the next page, if any. */
  datatype Page = Page(releases: seq<int>, next: Option<Text>)

  /** The i-th response of a window; None when the request or its payload is rejected.  The
      publisher may answer anything: tokens are opaque. */
  type Responses = nat -> Option<Page>

  function Token(responses: Responses, i: nat): Option<Text> {
    if responses(i).Some? then responses(i).value.next else None
  }

  function Releases(responses: Responses, count: nat): seq<int> {
    if count == 0 then []
    else Releases(responses, count - 1)
         + (if responses(count - 1).Some? then responses(count - 1).value.releases else [])
  }

  /** Page i is served and, while a next token is announced, not empty. */
  predicate SoundPage(responses: Responses, i: nat) {
    responses(i).Some? && (responses(i).value.next.Some? ==> responses(i).value.releases != [])
  }

  /** The chain is complete at page `last`: sound pages, distinct tokens before it, none after it. */
  ghost predicate ChainEnds(responses: Responses, last: nat) {
    && (forall i: nat | i <= last :: SoundPage(responses, i))
    && (forall i: nat | i < last :: Token(responses, i).Some?)
    && Token(responses, last).None?
    && (forall i: nat, j: nat | i < j < last :: Token(responses, i) != Token(responses, j))
  }

  ghost predicate Complete(responses: Responses, maxPages: int, last: nat) {
    last < Max(1, maxPages) && ChainEnds(responses, last)
  }

  /** A window is returned exactly when its token chain ends within the page limit, and then with
      the releases of the whole chain; anything else raises. */
  method FetchWindow(responses: Responses, maxPages: int) returns (r: Result<seq<int>>)
    ensures r.Ok? <==> exists last: nat :: Complete(responses, maxPages, last)
    ensures forall last: nat | Complete(responses, maxPages, last) :: r == Ok(Releases(responses, last + 1))
  {
    var token: Option<Text> := None;
    var seen: set<Text> := {};
    var releases: seq<int> := [];
    for page := 0 to Max(1, maxPages)
      invariant releases == Releases(responses, page)
      invariant forall i: nat | i < page :: SoundPage(responses, i) && Token(responses, i).Some? && Token(responses, i).value in seen
      invariant forall t | t in seen :: exists i: nat :: i < page && Token(responses, i) == Some(t)
      invariant forall i: nat, j: nat | i < j < page :: Token(responses, i) != Token(responses, j)
      invariant token == if page == 0 then None else Token(responses, page - 1)
    {
      var payload := responses(page);
      if payload.None? {
        NoEndBefore(responses, page);
        return Err("response rejected");
      }
      var batch, nextToken := payload.value.releases, payload.value.next;
      if nextToken.Some? && batch == [] {
        NoEndBefore(responses, page);
        return Err("empty page with a next cursor");
      }
      releases := releases + batch;
      if nextToken.None? {
        ChainEndsHere(responses, page);
        hide ChainEnds;
        assert Complete(responses, maxPages, page);
        return Ok(releases);
      }
      if nextToken == token || nextToken.value in seen {
        RepeatedToken(responses, page);
        return Err("repeated opaque cursor");
      }
      assert Token(responses, page) == nextToken;
      seen := seen + {nextToken.value};
      token := nextToken;
    }
    forall last: nat | last < Max(1, maxPages) ensures !ChainEnds(responses, last) {
      assert Token(responses, last).Some?;
    }
    r := Err("reached max_pages_per_window");
  }

  /** Tokens that never repeat and then a sound page without one: the chain ends there only. */
  lemma ChainEndsHere(responses: Responses, page: nat)
    requires forall i: nat | i < page :: SoundPage(responses, i) && Token(responses, i).Some?
    requires SoundPage(responses, page) && Token(responses, page).None?
    requires forall i: nat, j: nat | i < j < page :: Token(responses, i) != Token(responses, j)
    ensures ChainEnds(responses, page)
    ensures forall last: nat | ChainEnds(responses, last) :: last == page
  {
    forall last: nat | ChainEnds(responses, last) ensures last == page {
      assert last < page ==> Token(responses, last).Some?;
      assert page < last ==> Token(responses, page).Some?;
    }
  }

  /** Tokens all the way and then a page that is rejected or empty: no chain ends. */
  lemma NoEndBefore(responses: Responses, page: nat)
    requires forall i: nat | i < page :: Token(responses, i).Some?
    requires !SoundPage(responses, page)
    ensures forall last: nat :: !ChainEnds(responses, last)
  {
    forall last: nat ensures !ChainEnds(responses, last) {
      if last < page {
        assert Token(responses, last).Some?;
      }
    }
  }

  /** A token that occurred before never leads to a complete chain. */
  lemma RepeatedToken(responses: Responses, page: nat)
    requires forall i: nat | i <= page :: Token(responses, i).Some?
    requires exists i: nat :: i < page && Token(responses, i) == Token(responses, page)
    ensures forall last: nat :: !ChainEnds(responses, last)
  {
    var i: nat :| i < page && Token(responses, i) == Token(responses, page);
    forall last: nat ensures !ChainEnds(responses, last) {
      if last <= page {
        assert Token(responses, last).Some?;
      }
    }
  }

  // ---- the windows of one run --------------------------------------------------------------------

  /** Minutes or days, as configured; both endpoints are positions on one integer line.  Daily
      windows include both end days, sub-daily windows share their end points. */
  datatype Config = Config(daily: bool, width: int, maxWindows: int, lookback: int, overlap: int, maxPages: int)

  datatype Window = Window(start: int, end: int)

  function Width(c: Config): int { Max(1, c.width) }

  /** Daily windows start the day after the previous one ends; sub-daily ones where it ends. */
  function Gap(c: Config): int { if c.daily then 1 else 0 }

  function Overlap(c: Config): int { Max(0, c.overlap) }

  function StartPoint(c: Config, mark: Option<int>, now: int): int {
    if mark.Some? then mark.value + Gap(c) - Overlap(c)
    else now - Max(0, c.lookback)
  }

  /** The last position a run's windows reach when they are all fetched. */
  function Reach(c: Config, start: int, now: int): int {
    Min(now, start + Max(1, c.maxWindows) * Width(c) - Gap(c))
  }

  predicate Inside(w: Window, t: int) {
    w.start <= t <= w.end
  }

  /** Consecutive windows leave nothing between them, do not exceed the width, and only sub-daily
      ones share an end point. */
  ghost predicate Tiles(c: Config, windows: seq<Window>, start: int, end: int) {
    && windows != []
    && windows[0].start == start && windows[|windows| - 1].end == end
    && (forall i | 0 <= i < |windows| ::
          windows[i].start <= windows[i].end <= windows[i].start + Width(c) - Gap(c))
    && (forall i, j | 0 <= i < j < |windows| && j == i + 1 ::
          windows[j].start == windows[i].end + Gap(c))
  }

  lemma {:induction false} TilesLeaveNoGap(c: Config, windows: seq<Window>, start: int, end: int, t: int)
    returns (i: nat)
    requires Tiles(c, windows, start, end) && start <= t <= end
    ensures i < |windows| && Inside(windows[i], t)
    decreases |windows|
  {
    var n := |windows| - 1;
    if t >= windows[n].start {
      i := n;
    } else {
      assert n > 0;
      assert windows[n].start == windows[n - 1].end + Gap(c);
      var init := windows[..n];
      assert Tiles(c, init, start, windows[n - 1].end);
      i := TilesLeaveNoGap(c, init, start, windows[n - 1].end, t);
    }
  }

  /** Whether a run starting at `start` has anything to fetch at `now`. */
  predicate HasWindows(c: Config, start: int, now: int) {
    if c.daily then start <= now else start < now
  }

  /** The windows of one run, from `start` on, at most `left` of them. */
  function Tiling(c: Config, start: int, now: int, left: nat): seq<Window>
    decreases left
  {
    if left == 0 || !HasWindows(c, start, now) then []
    else
      var end := Min(now, start + Width(c) - Gap(c));
      [Window(start, end)] + Tiling(c, end + Gap(c), now, left - 1)
  }

  method Windows(c: Config, start: int, now: int) returns (windows: seq<Window>)
    ensures windows == Tiling(c, start, now, Max(1, c.maxWindows))
  {
    windows := [];
    var s := start;
    var maximum: nat := Max(1, c.maxWindows);
    hide Tiling, HasWindows, Width, Gap;
    while HasWindows(c, s, now) && |windows| < maximum
      invariant |windows| <= maximum
      invariant Tiling(c, start, now, maximum) == windows + Tiling(c, s, now, maximum - |windows|)
      decreases maximum - |windows|
    {
      TilingUnfolds(c, s, now, maximum - |windows|);
      var end := Min(now, s + Width(c) - Gap(c));
      Regroup(windows, Window(s, end), Tiling(c, end + Gap(c), now, maximum - |windows| - 1));
      windows := windows + [Window(s, end)];
      s := end + Gap(c);
    }
    TilingUnfolds(c, s, now, maximum - |windows|);
  }

  lemma Regroup(windows: seq<Window>, w: Window, rest: seq<Window>)
    ensures windows + ([w] + rest) == (windows + [w]) + rest
  {
  }

  lemma TilingUnfolds(c: Config, start: int, now: int, left: nat)
    ensures left == 0 || !HasWindows(c, start, now) ==> Tiling(c, start, now, left) == []
    ensures left > 0 && HasWindows(c, start, now) ==>
              var end := Min(now, start + Width(c) - Gap(c));
              Tiling(c, start, now, left) == [Window(start, end)] + Tiling(c, end + Gap(c), now, left - 1)
  {
  }

  lemma PrependedTile(c: Config, w: Window, rest: seq<Window>, end: int)
    requires w.start <= w.end <= w.start + Width(c) - Gap(c)
    requires Tiles(c, rest, w.end + Gap(c), end)
    ensures Tiles(c, [w] + rest, w.start, end)
  {
    var all := [w] + rest;
    assert forall i | 0 < i < |all| :: all[i] == rest[i - 1];
  }

  /** The windows tile the range they reach. */
  lemma {:induction false} TilingTiles(c: Config, start: int, now: int, left: nat)
    requires left > 0 && HasWindows(c, start, now)
    ensures Tiles(c, Tiling(c, start, now, left), start, Min(now, start + left * Width(c) - Gap(c)))
    decreases left
  {
    var end := Min(now, start + Width(c) - Gap(c));
    TilingUnfolds(c, start, now, left);
    ReachOfMore(c, start, now, left);
    if left > 1 && HasWindows(c, end + Gap(c), now) {
      TilingTiles(c, end + Gap(c), now, left - 1);
      hide Tiling, HasWindows, Width, Gap, Tiles;
      PrependedTile(c, Window(start, end), Tiling(c, end + Gap(c), now, left - 1),
                    Min(now, start + left * Width(c) - Gap(c)));
    } else {
      TilingUnfolds(c, end + Gap(c), now, left - 1);
      assert Tiling(c, start, now, left) == [Window(start, end)];
      hide Tiling;
    }
  }

  /** How far several windows reach, in terms of the first one and the rest. */
  lemma ReachOfMore(c: Config, start: int, now: int, left: nat)
    requires left > 0 && HasWindows(c, start, now)
    ensures var end := Min(now, start + Width(c) - Gap(c));
            && start <= end <= start + Width(c) - Gap(c)
            && (left > 1 && HasWindows(c, end + Gap(c), now) ==>
                  Min(now, end + Gap(c) + (left - 1) * Width(c) - Gap(c)) == Min(now, start + left * Width(c) - Gap(c)))
            && (left == 1 || !HasWindows(c, end + Gap(c), now) ==> end == Min(now, start + left * Width(c) - Gap(c)))
  {
    OneMore(left - 1, Width(c));
    MultiplyKeepsOrder(0, left - 1, Width(c));
  }

  // ---- one run -----------------------------------------------------------------------------------

  /** What the publisher answers for each window. */
  type Publisher = Window -> Responses

  /** The releases of all the windows, in their order; None when some window's chain does not end
      within the page limit. */
  ghost function Collected(publisher: Publisher, windows: seq<Window>, maxPages: int): Option<seq<int>> {
    if windows == [] then Some([])
    else
      var before, responses := Collected(publisher, windows[..|windows| - 1], maxPages), publisher(windows[|windows| - 1]);
      if before.Some? && exists last: nat :: Complete(responses, maxPages, last) then
        var last: nat :| Complete(responses, maxPages, last);
        Some(before.value + Releases(responses, last + 1))
      else None
  }

  lemma {:induction false} NothingCollected(publisher: Publisher, windows: seq<Window>, maxPages: int, i: nat)
    requires i <= |windows| && Collected(publisher, windows[..i], maxPages).None?
    ensures Collected(publisher, windows, maxPages).None?
    decreases |windows|
  {
    if i < |windows| {
      var init := windows[..|windows| - 1];
      assert init[..i] == windows[..i];
      NothingCollected(publisher, init, maxPages, i);
    } else {
      assert windows[..i] == windows;
    }
  }

  /** The windows of a run that starts from a stored mark. */
  function WindowsOf(c: Config, mark: Option<int>, now: int): seq<Window> {
    Tiling(c, StartPoint(c, mark, now), now, Max(1, c.maxWindows))
  }

  /** A run returns all releases of its windows and the end of the last one as the new mark, or
      raises when any of them is incomplete; without windows it returns no mark. */
  method FetchIncremental(c: Config, mark: Option<int>, now: int, publisher: Publisher)
    returns (r: Result<(seq<int>, Option<int>)>)
    ensures var windows := WindowsOf(c, mark, now);
            var collected := Collected(publisher, windows, c.maxPages);
            if collected.None? then r.Err?
            else r == Ok((collected.value, if windows == [] then None else Some(windows[|windows| - 1].end)))
    ensures r.Ok? <==> Succeeds(c, mark, Run(now, publisher))
    ensures forall fetched :: Step(c, State(mark, fetched), Run(now, publisher)).mark
                              == if r.Ok? && r.value.1.Some? then r.value.1 else mark
  {
    hide Tiling, ChainEnds, Releases;
    var maxPages := c.maxPages;
    var windows := Windows(c, StartPoint(c, mark, now), now);
    var releases: seq<int> := [];
    var reached: Option<int> := None;
    for i := 0 to |windows|
      invariant Collected(publisher, windows[..i], maxPages) == Some(releases)
      invariant reached == if i == 0 then None else Some(windows[i - 1].end)
    {
      assert windows[..i + 1][..i] == windows[..i];
      var fetched := FetchWindow(publisher(windows[i]), maxPages);
      if fetched.Err? {
        assert forall last: nat :: !Complete(publisher(windows[i]), maxPages, last);
        NothingCollected(publisher, windows, maxPages, i + 1);
        return Err(fetched.error);
      }
      assert exists last: nat :: Complete(publisher(windows[i]), maxPages, last);
      releases := releases + fetched.value;
      reached := Some(windows[i].end);
    }
    assert windows[..|windows|] == windows;
    r := Ok((releases, reached));
  }

  // ---- runs ---------------------------------------------------------------------------------------

  /** One run: its clock, and what the publisher answers while it lasts. */
  datatype Run = Run(now: int, publisher: Publisher)

  /** The stored mark, and every window fetched by a run that stored one, with its responses. */
  datatype State = State(mark: Option<int>, fetched: seq<(Window, Responses)>)

  /** A run succeeds when the token chain of each of its windows ends within the page limit. */
  ghost predicate Succeeds(c: Config, mark: Option<int>, run: Run) {
    Collected(run.publisher, WindowsOf(c, mark, run.now), c.maxPages).Some?
  }

  ghost function Answered(windows: seq<Window>, publisher: Publisher): (r: seq<(Window, Responses)>)
    ensures |r| == |windows| && forall i | 0 <= i < |windows| :: r[i] == (windows[i], publisher(windows[i]))
  {
    seq(|windows|, i requires 0 <= i < |windows| => (windows[i], publisher(windows[i])))
  }

  /** A run that raises, or has nothing to fetch, stores no new mark. */
  ghost function Step(c: Config, s: State, run: Run): State {
    var windows := WindowsOf(c, s.mark, run.now);
    if !Succeeds(c, s.mark, run) || windows == [] then s
    else State(Some(windows[|windows| - 1].end), s.fetched + Answered(windows, run.publisher))
  }

  ghost function After(c: Config, runs: seq<Run>): State {
    if runs == [] then State(None, []) else Step(c, After(c, runs[..|runs| - 1]), runs[|runs| - 1])
  }

  lemma {:induction false} CollectedMeansComplete(publisher: Publisher, windows: seq<Window>, maxPages: int, i: nat)
    requires Collected(publisher, windows, maxPages).Some? && i < |windows|
    ensures exists last: nat :: Complete(publisher(windows[i]), maxPages, last)
  {
    if i < |windows| - 1 {
      CollectedMeansComplete(publisher, windows[..|windows| - 1], maxPages, i);
    }
  }

  lemma NothingToFetch(c: Config, mark: Option<int>, now: int)
    ensures WindowsOf(c, mark, now) == [] <==> !HasWindows(c, StartPoint(c, mark, now), now)
  {
  }

  /** Where a successful run with windows leaves the mark. */
  lemma MarkAfter(c: Config, s: State, run: Run)
    requires Succeeds(c, s.mark, run) && HasWindows(c, StartPoint(c, s.mark, run.now), run.now)
    ensures var start := StartPoint(c, s.mark, run.now);
            && Step(c, s, run).mark == Some(Reach(c, start, run.now))
            && Tiles(c, WindowsOf(c, s.mark, run.now), start, Reach(c, start, run.now))
  {
    hide Succeeds, Answered;
    TilingTiles(c, StartPoint(c, s.mark, run.now), run.now, Max(1, c.maxWindows));
  }

  /** What a successful run does to the mark, for every mark and clock.  It keeps the mark from
      falling exactly when it has nothing to fetch, or when the mark is not ahead of the clock and
      the overlap is at most what one run can cover; it raises the mark exactly when the mark is
      behind the clock and the overlap is less than that. */
  lemma MarkProgress(c: Config, s: State, run: Run)
    requires Succeeds(c, s.mark, run) && s.mark.Some?
    ensures HasWindows(c, StartPoint(c, s.mark, run.now), run.now) <==> s.mark.value - Overlap(c) < run.now
    ensures Step(c, s, run).mark.Some?
    ensures Step(c, s, run).mark.value >= s.mark.value
       <==> s.mark.value - Overlap(c) >= run.now
            || (s.mark.value <= run.now && Overlap(c) <= Max(1, c.maxWindows) * Width(c))
    ensures Step(c, s, run).mark.value > s.mark.value
       <==> s.mark.value < run.now && Overlap(c) < Max(1, c.maxWindows) * Width(c)
  {
    hide Succeeds, Tiling;
    NothingToFetch(c, s.mark, run.now);
    if HasWindows(c, StartPoint(c, s.mark, run.now), run.now) {
      MarkAfter(c, s, run);
    }
  }

  /** A publisher that answers every window with one empty last page. */
  function Silent(): Publisher {
    (w: Window) => LastPage()
  }

  function LastPage(): Responses {
    (i: nat) => Some(Page([], None))
  }

  lemma {:induction false} SilentSucceeds(c: Config, windows: seq<Window>)
    ensures Collected(Silent(), windows, c.maxPages).Some?
  {
    if windows != [] {
      SilentSucceeds(c, windows[..|windows| - 1]);
      var responses := Silent()(windows[|windows| - 1]);
      assert ChainEnds(responses, 0);
      assert Complete(responses, c.maxPages, 0);
    }
  }

  /** One daily window a run and an overlap of three days: the mark falls from day 10 to day 8. */
  lemma LongOverlapDropsTheMark()
    ensures var c, s := Config(true, 1, 1, 0, 3, 1), State(Some(10), []);
            Succeeds(c, s.mark, Run(20, Silent())) && Step(c, s, Run(20, Silent())).mark == Some(8)
  {
    var c, s, run := Config(true, 1, 1, 0, 3, 1), State(Some(10), []), Run(20, Silent());
    SilentSucceeds(c, WindowsOf(c, s.mark, run.now));
    MarkAfter(c, s, run);
  }

  /** A mark one day ahead of the clock falls back to it once an overlap of two days reaches it,
      although a run could cover five. */
  lemma EarlyClockDropsTheMark()
    ensures var c, s := Config(true, 1, 5, 0, 2, 1), State(Some(21), []);
            Succeeds(c, s.mark, Run(20, Silent())) && Step(c, s, Run(20, Silent())).mark == Some(20)
  {
    var c, s, run := Config(true, 1, 5, 0, 2, 1), State(Some(21), []), Run(20, Silent());
    SilentSucceeds(c, WindowsOf(c, s.mark, run.now));
    MarkAfter(c, s, run);
  }

  /** Position t lies in a window whose token chain has ended within the page limit. */
  ghost predicate Covered(c: Config, s: State, t: int) {
    exists i :: 0 <= i < |s.fetched| && Inside(s.fetched[i].0, t) && FullyPaged(c, s.fetched[i].1)
  }

  ghost predicate FullyPaged(c: Config, responses: Responses) {
    exists last: nat :: Complete(responses, c.maxPages, last)
  }

  /** Everything from the very first start point up to the mark lies in a fully paged window. */
  ghost predicate NoGap(c: Config, s: State, first: int) {
    && (s.mark.Some? ==> forall t | first <= t <= s.mark.value :: Covered(c, s, t))
    && (s.mark.None? ==> s.fetched == [])
  }

  lemma StillCovered(c: Config, s: State, more: seq<(Window, Responses)>, mark: Option<int>, t: int)
    requires Covered(c, s, t)
    ensures Covered(c, State(mark, s.fetched + more), t)
  {
    hide FullyPaged;
    var i :| 0 <= i < |s.fetched| && Inside(s.fetched[i].0, t) && FullyPaged(c, s.fetched[i].1);
    assert (s.fetched + more)[i] == s.fetched[i];
  }

  lemma NewlyCovered(c: Config, s: State, windows: seq<Window>, publisher: Publisher, mark: Option<int>, start: int, end: int, t: int)
    requires Tiles(c, windows, start, end) && start <= t <= end
    requires Collected(publisher, windows, c.maxPages).Some?
    ensures Covered(c, State(mark, s.fetched + Answered(windows, publisher)), t)
  {
    hide Collected, Complete, Tiles;
    var i := TilesLeaveNoGap(c, windows, start, end, t);
    CollectedMeansComplete(publisher, windows, c.maxPages, i);
    assert FullyPaged(c, publisher(windows[i]));
    hide FullyPaged;
    assert (s.fetched + Answered(windows, publisher))[|s.fetched| + i] == (windows[i], publisher(windows[i]));
  }

  lemma StepLeavesNoGap(c: Config, s: State, run: Run, first: int)
    requires NoGap(c, s, first)
    requires s.mark.None? ==> first == StartPoint(c, None, run.now)
    ensures NoGap(c, Step(c, s, run), first)
  {
    var start := StartPoint(c, s.mark, run.now);
    var windows, next := WindowsOf(c, s.mark, run.now), Step(c, s, run);
    NothingToFetch(c, s.mark, run.now);
    if Succeeds(c, s.mark, run) && windows != [] {
      MarkAfter(c, s, run);
      hide Tiles, Collected, Covered, HasWindows, Tiling, StartPoint;
      forall t | first <= t <= next.mark.value ensures Covered(c, next, t) {
        if t >= start {
          NewlyCovered(c, s, windows, run.publisher, next.mark, start, next.mark.value, t);
        } else {
          StillCovered(c, s, Answered(windows, run.publisher), next.mark, t);
        }
      }
    }
  }

  /** The start of the first run that stored a mark: the look-back before its clock. */
  ghost function FirstStart(c: Config, runs: seq<Run>): int {
    if runs == [] then 0
    else
      var before := runs[..|runs| - 1];
      if After(c, before).mark.None? then runs[|runs| - 1].now - Max(0, c.lookback) else FirstStart(c, before)
  }

  lemma FirstStartPoint(c: Config, now: int)
    ensures StartPoint(c, None, now) == now - Max(0, c.lookback)
  {
  }

  /** Over any chain of runs, failed ones included and whatever the publisher answers, every
      position between the first start point and the stored mark lies in a window whose chain of
      distinct tokens was followed to its end. */
  lemma {:induction false} RunsLeaveNoGap(c: Config, runs: seq<Run>)
    ensures NoGap(c, After(c, runs), FirstStart(c, runs))
  {
    hide Step, Covered;
    if runs != [] {
      var before, run := runs[..|runs| - 1], runs[|runs| - 1];
      FirstStartPoint(c, run.now);
      hide StartPoint;
      RunsLeaveNoGap(c, before);
      StepLeavesNoGap(c, After(c, before), run, FirstStart(c, runs));
    }
  }
}
