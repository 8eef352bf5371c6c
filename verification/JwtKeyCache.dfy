/** The JWT verifier's key cache under concurrent requests: the lock-free fast path, the single
    refresh under the lock, the retry window, and the warm-up that writes the same fields.
    Every interleaving is a sequence of actions; the verifier's own assignments are separate
    actions wherever the fast path can see them half done. */
module JwtKeyCache {
  import opened Common

  type Thread = nat

  /** A published key set: its key ids, and a number that tells refreshes apart. */
  datatype Keys = Keys(kids: set<Text>, version: nat)

  datatype Config = Config(cacheSeconds: int, staleMax: int)

  /** Seconds for which no fetch is attempted after a failed one. */
  function RetryWindow(c: Config): int {
    Min(30, c.cacheSeconds)
  }

  datatype Verifier = Verifier(keys: Option<Keys>, expiresAt: int, fetchedAt: int, retryAt: int, generation: nat,
                               degraded: bool, lock: Option<Thread>)

  /** Who runs the code under the lock: a request with the generation it saw, or the warm-up. */
  datatype Caller = Request(kid: Text, generation: nat) | Warmup

  datatype Pc =
    | Idle
    | Timed(kid: Text, now: int)
    | SawKeys(kid: Text, now: int, seen: Option<Keys>)
    | SawGeneration(kid: Text, now: int, seen: Option<Keys>, generation: nat)
    | Waiting(caller: Caller)
    | Holding(caller: Caller)
    | Fetching(caller: Caller, before: Option<Keys>)
    | KeysStored(caller: Caller, keys: Keys)
    | TimesStored(caller: Caller, keys: Keys)

  datatype Answer = Key(kid: Text, keys: Keys) | UnknownKey | Unavailable | Warmed | NotWarmed

  /** The shared state, every thread's position, the clock, and what has happened so far. */
  datatype State = State(v: Verifier, threads: map<Thread, Pc>, clock: int,
                         starts: seq<int>, failures: seq<int>, successes: nat, published: set<Keys>,
                         answers: seq<(Thread, Answer)>)

  datatype Action =
    | Tick(to: int)
    | Begin(t: Thread, kid: Text)
    | BeginWarmup(t: Thread)
    | ReadKeys(t: Thread)
    | ReadGeneration(t: Thread)
    | Decide(t: Thread)
    | Acquire(t: Thread)
    | Check(t: Thread)
    | FetchFails(t: Thread)
    | FetchSucceeds(t: Thread, kids: set<Text>)
    | StoreTimes(t: Thread)
    | Finish(t: Thread)

  function PcOf(s: State, t: Thread): Pc {
    if t in s.threads then s.threads[t] else Idle
  }

  function Move(s: State, t: Thread, pc: Pc): State {
    s.(threads := s.threads[t := pc])
  }

  function Reply(s: State, t: Thread, answer: Answer): State {
    s.(threads := s.threads[t := Idle], answers := s.answers + [(t, answer)])
  }

  function Release(s: State): State {
    s.(v := s.v.(lock := None))
  }

  predicate Contains(keys: Option<Keys>, kid: Text) {
    keys.Some? && kid in keys.value.kids
  }

  function Lookup(keys: Option<Keys>, kid: Text, otherwise: Answer): Answer {
    if Contains(keys, kid) then Key(kid, keys.value) else otherwise
  }

  predicate HasKeys(keys: Option<Keys>) {
    keys.Some? && keys.value.kids != {}
  }

  /** The first thing done under the lock: None when a fetch has to start. */
  function Checked(c: Config, v: Verifier, caller: Caller, now: int): Option<Answer> {
    match caller
    case Request(kid, generation) =>
      if Contains(v.keys, kid) && now < v.expiresAt then Some(Key(kid, v.keys.value))
      else if v.generation != generation then Some(Lookup(v.keys, kid, UnknownKey))
      else if now < v.retryAt then
        Some(if now - v.fetchedAt <= c.staleMax then Lookup(v.keys, kid, Unavailable) else Unavailable)
      else None
    case Warmup =>
      if HasKeys(v.keys) && now < v.expiresAt then Some(Warmed)
      else if now < v.retryAt then Some(NotWarmed)
      else None
  }

  function AfterFailure(c: Config, s: State, caller: Caller, before: Option<Keys>): Answer {
    match caller
    case Request(kid, _) =>
      if s.clock - s.v.fetchedAt <= c.staleMax then Lookup(before, kid, Unavailable) else Unavailable
    case Warmup => NotWarmed
  }

  function AfterSuccess(caller: Caller, keys: Keys): Answer {
    match caller
    case Request(kid, _) => Lookup(Some(keys), kid, UnknownKey)
    case Warmup => Warmed
  }

  /** One atomic action; an action that is not enabled changes nothing. */
  function Do(c: Config, s: State, a: Action): State {
    match a
    case Tick(to) => if to > s.clock then s.(clock := to) else s
    case Begin(t, kid) => if PcOf(s, t).Idle? then Move(s, t, Timed(kid, s.clock)) else s
    case BeginWarmup(t) => if PcOf(s, t).Idle? then Move(s, t, Waiting(Warmup)) else s
    case ReadKeys(t) =>
      var pc := PcOf(s, t);
      if pc.Timed? then Move(s, t, SawKeys(pc.kid, pc.now, s.v.keys)) else s
    case ReadGeneration(t) =>
      var pc := PcOf(s, t);
      if pc.SawKeys? then Move(s, t, SawGeneration(pc.kid, pc.now, pc.seen, s.v.generation)) else s
    case Decide(t) =>
      var pc := PcOf(s, t);
      if !pc.SawGeneration? then s
      else if Contains(pc.seen, pc.kid) && pc.now < s.v.expiresAt then Reply(s, t, Key(pc.kid, pc.seen.value))
      else Move(s, t, Waiting(Request(pc.kid, pc.generation)))
    case Acquire(t) =>
      var pc := PcOf(s, t);
      if pc.Waiting? && s.v.lock.None? then Move(s.(v := s.v.(lock := Some(t))), t, Holding(pc.caller)) else s
    case Check(t) =>
      var pc := PcOf(s, t);
      if !pc.Holding? then s
      else
        var answer := Checked(c, s.v, pc.caller, s.clock);
        if answer.Some? then Reply(Release(s), t, answer.value)
        else Move(s.(starts := s.starts + [s.clock]), t, Fetching(pc.caller, s.v.keys))
    case FetchFails(t) =>
      var pc := PcOf(s, t);
      if !pc.Fetching? then s
      else
        var failed := s.(v := s.v.(degraded := true, retryAt := s.clock + RetryWindow(c)),
                         failures := s.failures + [s.clock]);
        Reply(Release(failed), t, AfterFailure(c, failed, pc.caller, pc.before))
    case FetchSucceeds(t, kids) =>
      var pc := PcOf(s, t);
      if !pc.Fetching? || kids == {} then s
      else
        var keys := Keys(kids, s.successes + 1);
        Move(s.(v := s.v.(keys := Some(keys)), successes := s.successes + 1, published := s.published + {keys}),
             t, KeysStored(pc.caller, keys))
    case StoreTimes(t) =>
      var pc := PcOf(s, t);
      if !pc.KeysStored? then s
      else Move(s.(v := s.v.(fetchedAt := s.clock, expiresAt := s.clock + c.cacheSeconds, retryAt := 0)),
                t, TimesStored(pc.caller, pc.keys))
    case Finish(t) =>
      var pc := PcOf(s, t);
      if !pc.TimesStored? then s
      else Reply(Release(s.(v := s.v.(generation := s.v.generation + 1, degraded := false))),
                 t, AfterSuccess(pc.caller, pc.keys))
  }

  function Run(c: Config, s: State, actions: seq<Action>): State {
    if actions == [] then s else Do(c, Run(c, s, actions[..|actions| - 1]), actions[|actions| - 1])
  }

  /** A new verifier, with or without a bootstrap key set, and no thread inside. */
  ghost predicate Initial(c: Config, s: State) {
    && s.v.generation == 0 && s.v.retryAt == 0 && s.v.lock.None? && s.threads == map[]
    && s.starts == [] && s.failures == [] && s.successes == 0 && s.answers == []
    && s.published == (if s.v.keys.Some? then {s.v.keys.value} else {})
    && (s.v.keys.Some? ==> s.v.keys.value.version == 0)
    && c.cacheSeconds >= 30 && c.staleMax >= 0
  }

  // ---- the invariant -------------------------------------------------------------------------

  predicate UnderLock(pc: Pc) {
    pc.Holding? || pc.Fetching? || pc.KeysStored? || pc.TimesStored?
  }

  predicate Refreshing(pc: Pc) {
    pc.Fetching? || pc.KeysStored? || pc.TimesStored?
  }

  /** A success whose generation is not yet counted. */
  function InFlight(s: State): nat {
    if s.v.lock.Some? && (PcOf(s, s.v.lock.value).KeysStored? || PcOf(s, s.v.lock.value).TimesStored?) then 1 else 0
  }

  ghost predicate Exclusive(s: State) {
    && (forall t: Thread :: UnderLock(PcOf(s, t)) <==> s.v.lock == Some(t))
  }

  /** The generation counts the refreshes that succeeded, and nobody holds a future one. */
  ghost predicate Counted(s: State) {
    && s.successes == s.v.generation + InFlight(s)
    && (forall t: Thread :: CountedPc(s.v.generation, PcOf(s, t)))
  }

  predicate CountedPc(generation: nat, pc: Pc) {
    && (pc.SawGeneration? ==> pc.generation <= generation)
    && (HasCaller(pc) && pc.caller.Request? ==> pc.caller.generation <= generation)
    && (Refreshing(pc) && pc.caller.Request? ==> pc.caller.generation == generation)
  }

  predicate HasCaller(pc: Pc) {
    pc.Waiting? || UnderLock(pc)
  }

  /** Every failure's window is over, or still enforced by the retry instant. */
  ghost predicate Windowed(c: Config, s: State) {
    && (forall i | 0 <= i < |s.failures| :: s.failures[i] + RetryWindow(c) <= Max(s.clock, s.v.retryAt))
    && (forall t: Thread | Refreshing(PcOf(s, t)) ::
          forall i | 0 <= i < |s.failures| :: s.failures[i] + RetryWindow(c) <= s.clock)
  }

  /** Every key set in use was published. */
  ghost predicate Published(s: State) {
    && (s.v.keys.Some? ==> s.v.keys.value in s.published)
    && (forall t: Thread :: PublishedPc(s.published, PcOf(s, t)))
    && (forall i | 0 <= i < |s.answers| :: PublishedAnswer(s.published, s.answers[i].1))
  }

  ghost predicate PublishedPc(published: set<Keys>, pc: Pc) {
    match pc
    case SawKeys(_, _, seen) => seen.Some? ==> seen.value in published
    case SawGeneration(_, _, seen, _) => seen.Some? ==> seen.value in published
    case Fetching(_, before) => before.Some? ==> before.value in published
    case KeysStored(_, keys) => keys in published
    case TimesStored(_, keys) => keys in published
    case _ => true
  }

  ghost predicate PublishedAnswer(published: set<Keys>, answer: Answer) {
    answer.Key? ==> answer.keys in published && answer.kid in answer.keys.kids
  }

  lemma ExclusiveStays(c: Config, s: State, a: Action)
    requires Exclusive(s)
    ensures Exclusive(Do(c, s, a))
  {
  }

  lemma CountedStays(c: Config, s: State, a: Action)
    requires Exclusive(s) && Counted(s)
    ensures Counted(Do(c, s, a))
  {
    SuccessesStayCounted(c, s, a);
    var after := Do(c, s, a);
    forall t: Thread ensures CountedPc(after.v.generation, PcOf(after, t)) {
      assert CountedPc(s.v.generation, PcOf(s, t));
    }
  }

  lemma SuccessesStayCounted(c: Config, s: State, a: Action)
    requires Exclusive(s) && Counted(s)
    ensures Do(c, s, a).successes == Do(c, s, a).v.generation + InFlight(Do(c, s, a))
  {
    hide CountedPc;
  }

  lemma WindowedStays(c: Config, s: State, a: Action)
    requires c.cacheSeconds >= 30 && Exclusive(s) && Windowed(c, s)
    ensures Windowed(c, Do(c, s, a))
  {
    var after := Do(c, s, a);
    ExclusiveStays(c, s, a);
    forall t: Thread | Refreshing(PcOf(after, t))
      ensures forall i | 0 <= i < |after.failures| :: after.failures[i] + RetryWindow(c) <= after.clock
    {
      assert UnderLock(PcOf(after, t)) && UnderLock(PcOf(s, t));
    }
  }

  lemma PublishedStays(c: Config, s: State, a: Action)
    requires Exclusive(s) && Published(s)
    ensures Published(Do(c, s, a))
  {
    var after := Do(c, s, a);
    forall t: Thread ensures PublishedPc(after.published, PcOf(after, t)) {
      assert PublishedPc(s.published, PcOf(s, t));
    }
    forall i | 0 <= i < |after.answers| ensures PublishedAnswer(after.published, after.answers[i].1) {
      if i < |s.answers| {
        assert PublishedAnswer(s.published, s.answers[i].1);
      }
    }
  }

  ghost predicate Invariant(c: Config, s: State) {
    c.cacheSeconds >= 30 && Exclusive(s) && Counted(s) && Windowed(c, s) && Published(s)
  }

  lemma {:induction false} InvariantHolds(c: Config, s: State, actions: seq<Action>)
    requires Initial(c, s)
    ensures Invariant(c, Run(c, s, actions))
  {
    hide Do;
    if actions != [] {
      var before, a := Run(c, s, actions[..|actions| - 1]), actions[|actions| - 1];
      InvariantHolds(c, s, actions[..|actions| - 1]);
      hide Exclusive, Counted, Windowed, Published;
      ExclusiveStays(c, before, a);
      CountedStays(c, before, a);
      WindowedStays(c, before, a);
      PublishedStays(c, before, a);
    }
  }

  // ---- what the invariant means for every interleaving ------------------------------------------

  /** At most one thread is refreshing at any moment, and whenever the lock is free the generation
      is the number of refreshes that succeeded. */
  lemma SingleFlight(c: Config, s: State, actions: seq<Action>)
    requires Initial(c, s)
    ensures var now := Run(c, s, actions);
            && (forall t: Thread, u: Thread | Refreshing(PcOf(now, t)) && Refreshing(PcOf(now, u)) :: t == u)
            && (now.v.lock.None? ==> now.v.generation == now.successes)
  {
    InvariantHolds(c, s, actions);
    var now := Run(c, s, actions);
    forall t: Thread, u: Thread | Refreshing(PcOf(now, t)) && Refreshing(PcOf(now, u)) ensures t == u {
      assert UnderLock(PcOf(now, t)) && UnderLock(PcOf(now, u));
    }
  }

  lemma {:induction false} GenerationGrows(c: Config, s: State, actions: seq<Action>)
    ensures Run(c, s, actions).v.generation >= s.v.generation
    ensures Run(c, s, actions).successes >= s.successes
  {
    if actions != [] {
      GenerationGrows(c, s, actions[..|actions| - 1]);
    }
  }

  lemma {:induction false} RunInPieces(c: Config, s: State, first: seq<Action>, second: seq<Action>)
    ensures Run(c, s, first + second) == Run(c, Run(c, s, first), second)
  {
    hide Do;
    if second == [] {
      assert first + second == first;
    } else {
      RunInPieces(c, s, first, second[..|second| - 1]);
      assert (first + second)[..|first + second| - 1] == first + second[..|second| - 1];
    }
  }

  /** A request that waited while another thread's refresh succeeded never fetches: if it is ever
      seen fetching with the generation it waited with, no refresh was counted in between. */
  lemma WaiterBehindASuccessNeverFetches(c: Config, s: State, first: seq<Action>, second: seq<Action>, t: Thread,
                                         kid: Text, generation: nat)
    requires Initial(c, s)
    requires PcOf(Run(c, s, first), t) == Waiting(Request(kid, generation))
    requires Refreshing(PcOf(Run(c, s, first + second), t))
             && PcOf(Run(c, s, first + second), t).caller == Request(kid, generation)
    ensures Run(c, s, first).v.generation == Run(c, s, first + second).v.generation == generation
  {
    InvariantHolds(c, s, first);
    InvariantHolds(c, s, first + second);
    RunInPieces(c, s, first, second);
    GenerationGrows(c, Run(c, s, first), second);
    hide Run, Exclusive, Windowed, Published;
    assert HasCaller(PcOf(Run(c, s, first), t));
  }

  /** No fetch starts within min(30, cache_seconds) after any failure. */
  lemma NoFetchInsideARetryWindow(c: Config, s: State, actions: seq<Action>, a: Action)
    requires Initial(c, s)
    ensures var before, after := Run(c, s, actions), Do(c, Run(c, s, actions), a);
            |after.starts| > |before.starts| ==>
              forall i | 0 <= i < |before.failures| :: before.failures[i] + RetryWindow(c) <= before.clock
  {
    InvariantHolds(c, s, actions);
    hide Run, Exclusive, Counted, Published;
  }

  /** As long as no refresh succeeds, failed fetches included, the key set stays what it was. */
  lemma {:induction false} FailuresKeepTheKeys(c: Config, s: State, actions: seq<Action>)
    ensures Run(c, s, actions).successes == s.successes ==> Run(c, s, actions).v.keys == s.v.keys
  {
    if actions != [] {
      var init := actions[..|actions| - 1];
      FailuresKeepTheKeys(c, s, init);
      GenerationGrows(c, s, init);
    }
  }

  /** Every key ever returned belongs to a key set that was the verifier's own. */
  lemma AnswersWerePublished(c: Config, s: State, actions: seq<Action>)
    requires Initial(c, s)
    ensures var now := Run(c, s, actions);
            forall i | 0 <= i < |now.answers| && now.answers[i].1.Key? ::
              now.answers[i].1.keys in now.published && now.answers[i].1.kid in now.answers[i].1.keys.kids
  {
    InvariantHolds(c, s, actions);
    var now := Run(c, s, actions);
    hide Run, Exclusive, Windowed, Counted;
    forall i | 0 <= i < |now.answers| && now.answers[i].1.Key?
      ensures now.answers[i].1.keys in now.published && now.answers[i].1.kid in now.answers[i].1.keys.kids
    {
      assert PublishedAnswer(now.published, now.answers[i].1);
    }
  }

  // ---- the code of one call ------------------------------------------------------------------------

  /** One thread running `_key_for` from start to end with nobody in between: the clock readings at
      entry, under the lock and after the fetch, and the fetch's result.  Actions that a branch
      does not reach are not enabled and change nothing. */
  function Uninterrupted(c: Config, v: Verifier, kid: Text, entry: int, locked: int, fetched: int, fetch: Option<set<Text>>,
                         successes: nat): State
  {
    var s := State(v, map[], entry, [], [], successes, {}, []);
    Fetched(c, Locked(c, Looked(c, s, kid), locked), fetched, fetch)
  }

  function Looked(c: Config, s: State, kid: Text): State {
    Do(c, Do(c, Do(c, Do(c, s, Begin(0, kid)), ReadKeys(0)), ReadGeneration(0)), Decide(0))
  }

  function Locked(c: Config, s: State, locked: int): State {
    Do(c, Do(c, Do(c, s, Tick(locked)), Acquire(0)), Check(0))
  }

  function Fetched(c: Config, s: State, fetched: int, fetch: Option<set<Text>>): State {
    var answered := Do(c, Do(c, s, Tick(fetched)), if fetch.Some? then FetchSucceeds(0, fetch.value) else FetchFails(0));
    Do(c, Do(c, answered, StoreTimes(0)), Finish(0))
  }

  lemma LookedMeans(c: Config, s: State, kid: Text)
    requires PcOf(s, 0).Idle?
    ensures var t := Looked(c, s, kid);
            && t.v == s.v && t.clock == s.clock && t.successes == s.successes
            && (if Contains(s.v.keys, kid) && s.clock < s.v.expiresAt
                then PcOf(t, 0).Idle? && t.answers == s.answers + [(0, Key(kid, s.v.keys.value))]
                else PcOf(t, 0) == Waiting(Request(kid, s.v.generation)) && t.answers == s.answers)
  {
  }

  lemma LockedMeans(c: Config, s: State, locked: int)
    requires s.v.lock.None? && s.clock <= locked && (PcOf(s, 0).Idle? || PcOf(s, 0).Waiting?)
    ensures var t := Locked(c, s, locked);
            && t.clock == locked && t.successes == s.successes
            && (if PcOf(s, 0).Idle? then PcOf(t, 0).Idle? && t.v == s.v && t.answers == s.answers
                else
                  var answer := Checked(c, s.v, PcOf(s, 0).caller, locked);
                  if answer.Some? then PcOf(t, 0).Idle? && t.v == s.v && t.answers == s.answers + [(0, answer.value)]
                  else PcOf(t, 0) == Fetching(PcOf(s, 0).caller, s.v.keys) && t.v == s.v.(lock := Some(0)) && t.answers == s.answers)
  {
  }

  lemma FetchedMeans(c: Config, s: State, fetched: int, fetch: Option<set<Text>>)
    requires s.clock <= fetched && (PcOf(s, 0).Idle? || PcOf(s, 0).Fetching?)
    requires fetch.Some? ==> fetch.value != {}
    ensures var t := Fetched(c, s, fetched, fetch);
            if PcOf(s, 0).Idle? then t.v == s.v && t.answers == s.answers
            else if fetch.None? then
              var failed := s.(clock := fetched);
              && t.v == s.v.(degraded := true, retryAt := fetched + RetryWindow(c), lock := None)
              && t.answers == s.answers + [(0, AfterFailure(c, failed, PcOf(s, 0).caller, PcOf(s, 0).before))]
            else
              var keys := Keys(fetch.value, s.successes + 1);
              && t.v == Verifier(Some(keys), fetched + c.cacheSeconds, fetched, 0, s.v.generation + 1, false, None)
              && t.answers == s.answers + [(0, AfterSuccess(PcOf(s, 0).caller, keys))]
  {
    if !PcOf(s, 0).Idle? && fetch.Some? {
      var a := Do(c, Do(c, s, Tick(fetched)), FetchSucceeds(0, fetch.value));
      assert PcOf(a, 0).KeysStored? && a.clock == fetched;
      var b := Do(c, a, StoreTimes(0));
      assert PcOf(b, 0).TimesStored?;
    }
  }

  /** The warm-up's actions, with nobody in between. */
  function WarmedUp(c: Config, v: Verifier, locked: int, fetched: int, fetch: Option<set<Text>>, successes: nat): State {
    Fetched(c, Locked(c, WarmupBegun(c, v, locked, successes), locked), fetched, fetch)
  }

  function WarmupBegun(c: Config, v: Verifier, now: int, successes: nat): (s: State)
    ensures PcOf(s, 0) == Waiting(Warmup) && s.v == v && s.clock == now && s.answers == [] && s.successes == successes
  {
    Do(c, State(v, map[], now, [], [], successes, {}, []), BeginWarmup(0))
  }

  // ---- what a lookup owes its caller -----------------------------------------------------------------

  /** The cached key may be used as it is: it was unexpired at one of the two clock readings. */
  predicate Unexpired(keys: Option<Keys>, expiresAt: int, kid: Text, entry: int, locked: int) {
    keys.Some? && kid in keys.value.kids && (entry < expiresAt || locked < expiresAt)
  }

  /** The cached key may stand in for a fetch that is not to be had. */
  predicate Usable(keys: Option<Keys>, fetchedAt: int, kid: Text, now: int, staleMax: int) {
    keys.Some? && kid in keys.value.kids && now - fetchedAt <= staleMax
  }

  /** When a lookup that nobody interferes with must return the key, when it must say that the key is unknown,
      and when that signing keys are unavailable. */
  predicate Owed(c: Config, v: Verifier, kid: Text, entry: int, locked: int, fetched: int, fetch: Option<set<Text>>, answer: Answer) {
    && (answer.Key? <==>
          || Unexpired(v.keys, v.expiresAt, kid, entry, locked)
          || (locked < v.retryAt && Usable(v.keys, v.fetchedAt, kid, locked, c.staleMax))
          || (locked >= v.retryAt && fetch.Some? && kid in fetch.value)
          || (locked >= v.retryAt && fetch.None? && Usable(v.keys, v.fetchedAt, kid, fetched, c.staleMax)))
    && (answer.UnknownKey? <==>
          !Unexpired(v.keys, v.expiresAt, kid, entry, locked) && locked >= v.retryAt && fetch.Some? && kid !in fetch.value)
    && (answer.Unavailable? <==>
          && !Unexpired(v.keys, v.expiresAt, kid, entry, locked)
          && (if locked < v.retryAt then !Usable(v.keys, v.fetchedAt, kid, locked, c.staleMax)
              else fetch.None? && !Usable(v.keys, v.fetchedAt, kid, fetched, c.staleMax)))
    && (answer.Key? ==>
          && answer.kid == kid
          && if Fetches(v, Unexpired(v.keys, v.expiresAt, kid, entry, locked), locked) && fetch.Some?
             then answer.keys.kids == fetch.value else v.keys.Some? && answer.keys.kids == v.keys.value.kids)
  }

  /** A caller fetches when the key is not to be had unexpired and no retry window is open. */
  predicate Fetches(v: Verifier, served: bool, locked: int) {
    !served && locked >= v.retryAt
  }

  /** What a lookup or a warm-up leaves behind: nothing without a fetch; a new set with its times after a
      successful one; the old set, degraded, with a retry window after a failed one. */
  predicate LeftBehind(c: Config, before: Verifier, after: Verifier, fetches: bool, fetched: int, fetch: Option<set<Text>>) {
    if !fetches then SameKids(before.keys, after.keys) && after.(keys := before.keys) == before
    else if fetch.None? then
      && SameKids(before.keys, after.keys)
      && after.(keys := before.keys)
         == before.(degraded := true, retryAt := fetched + (if c.cacheSeconds < 30 then c.cacheSeconds else 30))
    else
      && after.keys.Some? && after.keys.value.kids == fetch.value
      && after.fetchedAt == fetched && after.expiresAt == fetched + c.cacheSeconds && after.retryAt == 0
      && after.generation == before.generation + 1 && !after.degraded && after.lock == before.lock
  }

  /** An uninterrupted lookup returns the key whenever it owes it, and leaves behind what it must. */
  lemma LookupIsOwed(c: Config, v: Verifier, kid: Text, entry: int, locked: int, fetched: int, fetch: Option<set<Text>>,
                     successes: nat)
    requires entry <= locked <= fetched && (fetch.Some? ==> fetch.value != {}) && v.lock.None?
    ensures var end := Uninterrupted(c, v, kid, entry, locked, fetched, fetch, successes);
            && |end.answers| == 1
            && Owed(c, v, kid, entry, locked, fetched, fetch, end.answers[0].1)
            && LeftBehind(c, v, end.v, Fetches(v, Unexpired(v.keys, v.expiresAt, kid, entry, locked), locked), fetched, fetch)
  {
    var s := State(v, map[], entry, [], [], successes, {}, []);
    LookedMeans(c, s, kid);
    LockedMeans(c, Looked(c, s, kid), locked);
    FetchedMeans(c, Locked(c, Looked(c, s, kid), locked), fetched, fetch);
    hide Looked, Locked, Fetched;
  }

  lemma OwedAlike(c: Config, v: Verifier, kid: Text, entry: int, locked: int, fetched: int, fetch: Option<set<Text>>,
                  a: Answer, b: Answer)
    requires Owed(c, v, kid, entry, locked, fetched, fetch, a) && SameAnswer(a, b)
    ensures Owed(c, v, kid, entry, locked, fetched, fetch, b)
  {
  }

  lemma LeftAlike(c: Config, v: Verifier, a: Verifier, b: Verifier, fetches: bool, fetched: int, fetch: Option<set<Text>>)
    requires LeftBehind(c, v, a, fetches, fetched, fetch) && a.(keys := b.keys) == b && SameKids(a.keys, b.keys)
    ensures LeftBehind(c, v, b, fetches, fetched, fetch)
  {
  }

  class JwtVerifier {
    const config: Config
    var keys: Option<Keys>
    var expiresAt: int
    var fetchedAt: int
    var retryAt: int
    var generation: nat
    var degraded: bool

    constructor (cacheSeconds: int, staleMax: int, bootstrap: Option<set<Text>>, now: int)
      ensures config == Config(Max(30, cacheSeconds), Max(0, staleMax))
      ensures Value().lock.None? && generation == 0 && retryAt == 0 && !degraded
      ensures keys == (if bootstrap.Some? then Some(Keys(bootstrap.value, 0)) else None)
    {
      config := Config(Max(30, cacheSeconds), Max(0, staleMax));
      keys := if bootstrap.Some? then Some(Keys(bootstrap.value, 0)) else None;
      fetchedAt := if bootstrap.Some? then now else 0;
      expiresAt := if bootstrap.Some? then now + Max(30, cacheSeconds) else 0;
      retryAt, generation, degraded := 0, 0, false;
    }

    function Value(): Verifier
      reads this
    {
      Verifier(keys, expiresAt, fetchedAt, retryAt, generation, degraded, None)
    }

    /** The body of `_key_for`, run without interference, is its sequence of actions, and owes its caller what
        a lookup owes. */
    method KeyFor(kid: Text, entry: int, locked: int, fetched: int, fetch: Option<set<Text>>, ghost successes: nat)
      returns (answer: Answer)
      requires entry <= locked <= fetched && (fetch.Some? ==> fetch.value != {})
      modifies this
      ensures var end := Uninterrupted(config, old(Value()), kid, entry, locked, fetched, fetch, successes);
              end.v.(keys := Value().keys) == Value() && SameKids(end.v.keys, Value().keys)
              && |end.answers| == 1 && SameAnswer(end.answers[0].1, answer)
      ensures Owed(config, old(Value()), kid, entry, locked, fetched, fetch, answer)
      ensures LeftBehind(config, old(Value()), Value(),
                         Fetches(old(Value()), Unexpired(old(keys), old(expiresAt), kid, entry, locked), locked), fetched, fetch)
    {
      ghost var v := Value();
      ghost var end := Uninterrupted(config, v, kid, entry, locked, fetched, fetch, successes);
      ghost var fetches := Fetches(v, Unexpired(v.keys, v.expiresAt, kid, entry, locked), locked);
      LookupIsOwed(config, v, kid, entry, locked, fetched, fetch, successes);
      hide Uninterrupted, Owed, LeftBehind, Fetches, Unexpired;
      answer := LookUp(kid, entry, locked, fetched, fetch, successes);
      OwedAlike(config, v, kid, entry, locked, fetched, fetch, end.answers[0].1, answer);
      LeftAlike(config, v, end.v, Value(), fetches, fetched, fetch);
    }

    method LookUp(kid: Text, entry: int, locked: int, fetched: int, fetch: Option<set<Text>>, ghost successes: nat)
      returns (answer: Answer)
      requires entry <= locked <= fetched && (fetch.Some? ==> fetch.value != {})
      modifies this
      ensures var end := Uninterrupted(config, old(Value()), kid, entry, locked, fetched, fetch, successes);
              end.v.(keys := Value().keys) == Value() && SameKids(end.v.keys, Value().keys)
              && |end.answers| == 1 && SameAnswer(end.answers[0].1, answer)
    {
      ghost var s0 := State(Value(), map[], entry, [], [], successes, {}, []);
      LookedMeans(config, s0, kid);
      LockedMeans(config, Looked(config, s0, kid), locked);
      FetchedMeans(config, Locked(config, Looked(config, s0, kid), locked), fetched, fetch);
      hide Looked, Locked, Fetched;
      var snapshot := generation;
      if Contains(keys, kid) && entry < expiresAt {
        return Key(kid, keys.value);
      }
      if Contains(keys, kid) && locked < expiresAt {
        return Lookup(keys, kid, UnknownKey);
      }
      if generation != snapshot {
        return Lookup(keys, kid, UnknownKey);
      }
      if locked < retryAt {
        if Contains(keys, kid) && locked - fetchedAt <= config.staleMax {
          return Key(kid, keys.value);
        }
        return Unavailable;
      }
      if fetch.None? {
        degraded := true;
        retryAt := fetched + Min(30, config.cacheSeconds);
        if Contains(keys, kid) && fetched - fetchedAt <= config.staleMax {
          return Key(kid, keys.value);
        }
        return Unavailable;
      }
      var refreshed := Keys(fetch.value, generation + 1);
      keys := Some(refreshed);
      fetchedAt := fetched;
      expiresAt := fetchedAt + config.cacheSeconds;
      retryAt := 0;
      generation := generation + 1;
      degraded := false;
      if kid !in refreshed.kids {
        return UnknownKey;
      }
      answer := Key(kid, refreshed);
    }

    /** The body of `warm_production_auth`, a second writer of the same fields under the same lock. */
    method Warm(locked: int, fetched: int, fetch: Option<set<Text>>, ghost successes: nat) returns (answer: Answer)
      requires locked <= fetched && (fetch.Some? ==> fetch.value != {})
      modifies this
      ensures var end := WarmedUp(config, old(Value()), locked, fetched, fetch, successes);
              end.v.(keys := Value().keys) == Value() && SameKids(end.v.keys, Value().keys)
              && end.answers == [(0, answer)]
      ensures var served := old(keys).Some? && old(keys).value.kids != {} && locked < old(expiresAt);
              && (answer.Warmed? <==> served || (locked >= old(retryAt) && fetch.Some?))
              && (answer.NotWarmed? <==> !served && (locked < old(retryAt) || fetch.None?))
              && LeftBehind(config, old(Value()), Value(), Fetches(old(Value()), served, locked), fetched, fetch)
    {
      ghost var s0 := WarmupBegun(config, Value(), locked, successes);
      LockedMeans(config, s0, locked);
      FetchedMeans(config, Locked(config, s0, locked), fetched, fetch);
      hide Locked, Fetched, WarmupBegun;
      if HasKeys(keys) && locked < expiresAt {
        return Warmed;
      }
      if locked < retryAt {
        return NotWarmed;
      }
      if fetch.None? {
        degraded := true;
        retryAt := fetched + Min(30, config.cacheSeconds);
        return NotWarmed;
      }
      keys := Some(Keys(fetch.value, generation + 1));
      fetchedAt := fetched;
      expiresAt := fetchedAt + config.cacheSeconds;
      retryAt := 0;
      generation := generation + 1;
      degraded := false;
      answer := Warmed;
    }
  }

  /** Key sets compared by content: the number of a refresh is bookkeeping of the model. */
  predicate SameKids(a: Option<Keys>, b: Option<Keys>) {
    a.Some? == b.Some? && (a.Some? ==> a.value.kids == b.value.kids)
  }

  predicate SameAnswer(a: Answer, b: Answer) {
    if a.Key? then b.Key? && a.kid == b.kid && a.keys.kids == b.keys.kids else a == b
  }
}
