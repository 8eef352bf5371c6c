/** What the verifier owes a request under concurrency: for every interleaving and every step of a request,
    exactly when it returns the key, when it calls the key unknown, when it calls the signing keys
    unavailable, and when it goes on without an answer. */
module JwtAnswers {
  import opened Common
  import opened JwtKeyCache
  import opened JwtKeyAge

  /** What a step answers, if anything. */
  function Answered(before: State, after: State): Option<Answer> {
    if |after.answers| > |before.answers| then Some(after.answers[|after.answers| - 1].1) else None
  }

  predicate IsKey(answer: Option<Answer>, kid: Text, keys: Option<Keys>) {
    keys.Some? && answer == Some(Key(kid, keys.value))
  }

  /** On the fast path: the keys that were read answer if they have the key and the expiry met now lies after
      the request's clock reading; otherwise the request goes to the lock. */
  ghost predicate FastStep(before: State, after: State, t: Thread, kid: Text, now: int, seen: Option<Keys>, generation: nat) {
    if seen.Some? && kid in seen.value.kids && now < before.v.expiresAt
    then IsKey(Answered(before, after), kid, seen) && PcOf(after, t) == Idle
    else Answered(before, after) == None && PcOf(after, t) == Waiting(Request(kid, generation))
  }

  /** Under the lock: an unexpired key is returned; if the generation has moved since the request looked, a key
      that is there is returned and one that is not is unknown; inside a retry window a key that is not too old
      is returned, and otherwise the signing keys are unavailable; outside it a fetch starts. */
  ghost predicate LockedStep(c: Config, before: State, after: State, t: Thread, kid: Text, generation: nat) {
    var v, clock, answer := before.v, before.clock, Answered(before, after);
    var held := v.keys.Some? && kid in v.keys.value.kids;
    && (IsKey(answer, kid, v.keys)
        <==> held && (clock < v.expiresAt || v.generation != generation || (clock < v.retryAt && clock - v.fetchedAt <= c.staleMax)))
    && (answer == Some(UnknownKey) <==> !held && v.generation != generation)
    && (answer == Some(Unavailable)
        <==> v.generation == generation && clock < v.retryAt && !(held && (clock < v.expiresAt || clock - v.fetchedAt <= c.staleMax)))
    && (answer == None <==> v.generation == generation && clock >= v.retryAt && !(held && clock < v.expiresAt))
    && (answer == None ==> PcOf(after, t) == Fetching(Request(kid, generation), v.keys))
    && (answer != None ==> PcOf(after, t) == Idle && after.v.lock == None)
  }

  /** After a failed fetch: the key that is still there is returned if it is not too old. */
  ghost predicate FailedStep(c: Config, before: State, after: State, t: Thread, kid: Text) {
    var v, answer := before.v, Answered(before, after);
    && (if v.keys.Some? && kid in v.keys.value.kids && before.clock - v.fetchedAt <= c.staleMax
        then IsKey(answer, kid, v.keys) else answer == Some(Unavailable))
    && after.v.keys == v.keys && after.v.lock == None && after.v.retryAt == before.clock + Min(30, c.cacheSeconds)
  }

  /** After a successful fetch: the key of the new set is returned, or is unknown. */
  ghost predicate FetchedStep(before: State, after: State, t: Thread, kid: Text) {
    var v, answer := before.v, Answered(before, after);
    && v.keys.Some?
    && (if kid in v.keys.value.kids then IsKey(answer, kid, v.keys) else answer == Some(UnknownKey))
    && after.v.lock == None && after.v.generation == v.generation + 1
  }

  ghost predicate StepIsOwed(c: Config, before: State, a: Action, after: State) {
    match a
    case Decide(t) =>
      var pc := PcOf(before, t);
      pc.SawGeneration? ==> FastStep(before, after, t, pc.kid, pc.now, pc.seen, pc.generation)
    case Check(t) =>
      var pc := PcOf(before, t);
      pc.Holding? && pc.caller.Request? ==> LockedStep(c, before, after, t, pc.caller.kid, pc.caller.generation)
    case FetchFails(t) =>
      var pc := PcOf(before, t);
      pc.Fetching? && pc.caller.Request? ==> FailedStep(c, before, after, t, pc.caller.kid)
    case Finish(t) =>
      var pc := PcOf(before, t);
      pc.TimesStored? && pc.caller.Request? ==> FetchedStep(before, after, t, pc.caller.kid)
    case _ => Answered(before, after) == None
  }

  lemma OwedStep(c: Config, d: Dated, a: Action)
    requires Dates(c, d)
    ensures StepIsOwed(c, d.s, a, Do(c, d.s, a))
  {
    if !a.Tick? {
      assert DatedPc(c, d, a.t);
    }
    hide Dates;
  }

  /** Every step of every interleaving gives its request what it owes. */
  lemma EveryStepIsOwed(c: Config, s: State, actions: seq<Action>, a: Action)
    requires Constructed(c, s)
    ensures var before := Run(c, s, actions); StepIsOwed(c, before, a, Do(c, before, a))
  {
    hide *;
    DatesHold(c, s, actions);
    SameRun(c, Fresh(s), actions);
    FreshIs(s);
    OwedStep(c, RunDated(c, Fresh(s), actions), a);
  }

  lemma FreshIs(s: State)
    ensures Fresh(s).s == s
  {
  }
}
