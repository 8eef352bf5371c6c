/** Austria: lot states, how two versions merge, and identity by publication alias. */
module AustriaState {
  import opened Common
  import opened Sorting

  datatype Deadline = Missing | Invalid | At(time: Time)

  /** `legacy` tells the legacy payload family from eForms; `updated` is 0 when unknown, which
      is earlier than every stamp. */
  datatype State = State(externalId: Text, procedureId: Text, aliases: seq<Text>, legacy: bool, updated: Text,
                         firstPublished: Text, deadline: Deadline, content: int, wasVisible: bool)

  type States = map<Text, State>

  function Get(tracked: States, key: Text): Option<State> {
    if key in tracked then Some(tracked[key]) else None
  }

  /** The non-empty members, each at its first place. */
  function Dedup(xs: seq<Text>): seq<Text> {
    if xs == [] then []
    else
      var before, x := Dedup(xs[..|xs| - 1]), xs[|xs| - 1];
      if x == 0 || x in before then before else before + [x]
  }

  function Merged(current: Option<State>, incoming: State): State {
    if current.None? then incoming
    else
      var c := current.value;
      (if incoming.updated >= c.updated then incoming else c)
      .(aliases := Dedup(c.aliases + incoming.aliases),
        wasVisible := c.wasVisible || incoming.wasVisible,
        firstPublished := MinPresent(c.firstPublished, incoming.firstPublished))
  }

  method MergeState(current: Option<State>, incoming: State) returns (merged: State)
    ensures merged == Merged(current, incoming)
  {
    if current.None? {
      return incoming;
    }
    merged := current.value;
    var values := current.value.aliases + incoming.aliases;
    var aliases: seq<Text> := [];
    for i := 0 to |values|
      invariant aliases == Dedup(values[..i])
    {
      assert values[..i + 1][..i] == values[..i];
      if values[i] != 0 && values[i] !in aliases {
        aliases := aliases + [values[i]];
      }
    }
    assert values[..|values|] == values;
    if incoming.updated >= current.value.updated {
      merged := incoming;
    }
    merged := merged.(aliases := aliases, wasVisible := current.value.wasVisible || incoming.wasVisible);
    var first := MinPresent(current.value.firstPublished, incoming.firstPublished);
    if first != 0 {
      merged := merged.(firstPublished := first);
    }
  }

  // ---- the alias index -----------------------------------------------------------------

  function Owners(tracked: States, alias: Text): set<Text> {
    set key | key in tracked && Owns(tracked, alias, key)
  }

  function LegacyAliases(tracked: States): set<Text> {
    set key, alias | key in tracked && tracked[key].legacy && alias in tracked[key].aliases && alias != 0 :: alias
  }

  /** Each alias with exactly one legacy owner, and that owner. */
  function AliasIndex(tracked: States): map<Text, Text> {
    map alias | alias in LegacyAliases(tracked) && |Owners(tracked, alias)| == 1 :: Least(Owners(tracked, alias))
  }

  type Candidates = map<Text, set<Text>>

  predicate Has(candidates: Candidates, alias: Text, key: Text) {
    alias in candidates && key in candidates[alias]
  }

  predicate Owns(tracked: States, alias: Text, key: Text) {
    key in tracked && tracked[key].legacy && alias in tracked[key].aliases
  }

  /** The candidates collected from the listed states; no alias is listed without one. */
  ghost predicate CandidatesOf(candidates: Candidates, tracked: States, keys: seq<Text>) {
    && (forall a | a in candidates :: a != 0 && candidates[a] != {})
    && (forall a, key {:trigger Has(candidates, a, key)} | a != 0 ::
          Has(candidates, a, key) <==> key in keys && Owns(tracked, a, key))
  }

  function WithCandidate(candidates: Candidates, alias: Text, key: Text): Candidates {
    if alias == 0 then candidates
    else candidates[alias := (if alias in candidates then candidates[alias] else {}) + {key}]
  }

  lemma WithCandidateHas(candidates: Candidates, alias: Text, key: Text, a: Text, k: Text)
    requires a != 0
    ensures Has(WithCandidate(candidates, alias, key), a, k) <==> Has(candidates, a, k) || (a == alias && k == key)
  {
  }

  lemma NoCandidatesYet(tracked: States)
    ensures CandidatesOf(map[], tracked, [])
  {
  }

  lemma OtherFamilyAddsNone(candidates: Candidates, tracked: States, done: seq<Text>, key: Text)
    requires CandidatesOf(candidates, tracked, done) && key in tracked && !tracked[key].legacy
    ensures CandidatesOf(candidates, tracked, done + [key])
  {
  }

  method LegacyAliasIndex(tracked: States) returns (index: map<Text, Text>)
    ensures index == AliasIndex(tracked)
  {
    hide CandidatesOf, AliasIndex, Listed;
    var keys := Listed(tracked.Keys);
    var candidates: Candidates := map[];
    NoCandidatesYet(tracked);
    assert keys[..0] == [];
    for i := 0 to |keys|
      invariant CandidatesOf(candidates, tracked, keys[..i])
    {
      assert keys[..i + 1] == keys[..i] + [keys[i]];
      if tracked[keys[i]].legacy {
        candidates := AddAliases(candidates, tracked, keys[..i], keys[i]);
      } else {
        OtherFamilyAddsNone(candidates, tracked, keys[..i], keys[i]);
      }
    }
    assert keys[..|keys|] == keys;
    CandidatesGiveTheIndex(candidates, tracked, keys);
    index := map a | a in candidates && |candidates[a]| == 1 :: Least(candidates[a]);
  }

  method AddAliases(before: Candidates, tracked: States, ghost done: seq<Text>, key: Text) returns (candidates: Candidates)
    requires key in tracked && tracked[key].legacy && CandidatesOf(before, tracked, done)
    ensures CandidatesOf(candidates, tracked, done + [key])
  {
    candidates := before;
    var aliases := tracked[key].aliases;
    for j := 0 to |aliases|
      invariant forall a | a in candidates :: a != 0 && candidates[a] != {}
      invariant forall a, k {:trigger Has(candidates, a, k)} | a != 0 ::
                  Has(candidates, a, k) <==> Has(before, a, k) || (k == key && a in aliases[..j])
    {
      assert aliases[..j + 1] == aliases[..j] + [aliases[j]];
      var next := WithCandidate(candidates, aliases[j], key);
      forall a, k | a != 0
        ensures Has(next, a, k) <==> Has(before, a, k) || (k == key && a in aliases[..j + 1])
      {
        WithCandidateHas(candidates, aliases[j], key, a, k);
      }
      candidates := next;
    }
    assert aliases[..|aliases|] == aliases;
    forall a, k | a != 0 ensures Has(candidates, a, k) <==> k in done + [key] && Owns(tracked, a, k) {
      assert Has(before, a, k) <==> k in done && Owns(tracked, a, k);
    }
  }

  lemma CandidatesGiveTheIndex(candidates: Candidates, tracked: States, keys: seq<Text>)
    requires CandidatesOf(candidates, tracked, keys) && forall key :: key in keys <==> key in tracked
    ensures (map a | a in candidates && |candidates[a]| == 1 :: Least(candidates[a])) == AliasIndex(tracked)
  {
    forall a | a != 0 ensures a in candidates <==> a in LegacyAliases(tracked)
      ensures a in candidates ==> candidates[a] == Owners(tracked, a)
    {
      CandidatesAreOwners(candidates, tracked, keys, a);
    }
  }

  lemma CandidatesAreOwners(candidates: Candidates, tracked: States, keys: seq<Text>, a: Text)
    requires CandidatesOf(candidates, tracked, keys) && a != 0
    requires forall key :: key in keys <==> key in tracked
    ensures a in candidates <==> a in LegacyAliases(tracked)
    ensures a in candidates ==> candidates[a] == Owners(tracked, a)
  {
    forall key ensures Has(candidates, a, key) <==> key in Owners(tracked, a) {
      assert Owns(tracked, a, key) <==> key in Owners(tracked, a);
    }
    if a in candidates {
      var key :| key in candidates[a];
      assert Has(candidates, a, key);
    }
    if a in LegacyAliases(tracked) {
      var key :| key in tracked && tracked[key].legacy && a in tracked[key].aliases;
      assert Has(candidates, a, key);
    }
    if a in candidates {
      forall key ensures key in candidates[a] <==> key in Owners(tracked, a) {
        assert Has(candidates, a, key) <==> key in candidates[a];
      }
    }
  }

  /** A legacy state whose aliases point at one known lot takes over that lot's identity. */
  function Reanchor(state: State, index: map<Text, Text>, tracked: States): State {
    if !state.legacy then state
    else
      var matched := set a | a in state.aliases && a in index :: index[a];
      if |matched| != 1 then state
      else
        var canonical := Least(matched);
        state.(externalId := canonical,
               procedureId := if canonical in tracked && tracked[canonical].procedureId != 0
                              then tracked[canonical].procedureId else canonical)
  }

  function DeadlineStatus(state: State, now: Time): (bool, string) {
    match state.deadline
    case Missing => (false, "deadline_missing")
    case Invalid => (false, "deadline_invalid")
    case At(t) => if t <= now then (false, "deadline_elapsed") else (true, "open")
  }

  // ---- folding notices into the pending states --------------------------------------------

  function Anchored(pending: States, state: State): State {
    Reanchor(state, AliasIndex(pending), pending)
  }

  function FoldState(pending: States, state: State): States {
    var s := Anchored(pending, state);
    pending[s.externalId := Merged(Get(pending, s.externalId), s)]
  }

  function FoldStates(pending: States, states: seq<State>): States {
    if states == [] then pending
    else FoldState(FoldStates(pending, states[..|states| - 1]), states[|states| - 1])
  }

  method FoldNotice(pending: States, states: seq<State>) returns (r: States)
    ensures r == FoldStates(pending, states)
  {
    r := pending;
    var index := LegacyAliasIndex(r);
    for i := 0 to |states|
      invariant r == FoldStates(pending, states[..i])
      invariant index == AliasIndex(r)
    {
      assert states[..i + 1][..i] == states[..i];
      var s := Reanchor(states[i], index, r);
      var merged := MergeState(Get(r, s.externalId), s);
      r := r[s.externalId := merged];
      index := LegacyAliasIndex(r);
    }
    assert states[..|states|] == states;
  }

  // ---- identity -----------------------------------------------------------------------------

  /** A publication alias belongs to at most one legacy lot. */
  ghost predicate UniqueOwnership(tracked: States) {
    forall a, j, k | a != 0 && j in Owners(tracked, a) && k in Owners(tracked, a) :: j == k
  }

  /** States are stored under their own identity, and an identity belongs to one payload family
      (the two families build their keys in disjoint namespaces). */
  ghost predicate Keyed(tracked: States, legacyKey: Text -> bool) {
    forall key | key in tracked :: tracked[key].externalId == key && (tracked[key].legacy <==> legacyKey(key))
  }

  /** What the notice parser yields: a key of its family, and one alias for a legacy notice. */
  ghost predicate Parsed(state: State, legacyKey: Text -> bool) {
    && (state.legacy <==> legacyKey(state.externalId))
    && (state.legacy ==> |state.aliases| == 1 && state.aliases[0] != 0)
  }

  lemma {:induction false} DedupKeepsMembers(xs: seq<Text>)
    ensures forall x :: x in Dedup(xs) <==> x in xs && x != 0
  {
    if xs != [] {
      DedupKeepsMembers(xs[..|xs| - 1]);
      assert xs == xs[..|xs| - 1] + [xs[|xs| - 1]];
    }
  }

  lemma SingletonLeast(s: set<Text>, x: Text)
    requires s == {x}
    ensures |s| == 1 && Least(s) == x
  {
  }

  lemma IndexedOwner(tracked: States, a: Text, key: Text)
    requires UniqueOwnership(tracked) && a != 0 && key in Owners(tracked, a)
    ensures Owners(tracked, a) == {key}
    ensures a in AliasIndex(tracked) && AliasIndex(tracked)[a] == key
  {
    assert Owners(tracked, a) == {key};
    SingletonLeast(Owners(tracked, a), key);
    assert a in LegacyAliases(tracked);
  }

  lemma UnownedIsNotIndexed(tracked: States, a: Text)
    requires Owners(tracked, a) == {}
    ensures a !in AliasIndex(tracked)
  {
  }

  /** A later notice with a known alias merges into that alias's lot, however its other fields
      changed, and touches no other lot. */
  lemma KnownAliasMergesIntoItsOwner(pending: States, state: State, legacyKey: Text -> bool, key: Text)
    requires UniqueOwnership(pending) && Keyed(pending, legacyKey) && Parsed(state, legacyKey)
    requires state.legacy && key in Owners(pending, state.aliases[0])
    ensures Anchored(pending, state).externalId == key
    ensures Anchored(pending, state).procedureId == if pending[key].procedureId == 0 then key else pending[key].procedureId
    ensures Anchored(pending, state).(externalId := state.externalId, procedureId := state.procedureId) == state
    ensures FoldState(pending, state) == pending[key := Merged(Some(pending[key]), Anchored(pending, state))]
  {
    var a := state.aliases[0];
    IndexedOwner(pending, a, key);
    var matched := set b | b in state.aliases && b in AliasIndex(pending) :: AliasIndex(pending)[b];
    assert state.aliases == [a];
    assert matched == {key};
    SingletonLeast(matched, key);
  }

  lemma NewAliasKeepsItsIdentity(pending: States, state: State, legacyKey: Text -> bool)
    requires Parsed(state, legacyKey)
    requires state.legacy ==> Owners(pending, state.aliases[0]) == {}
    ensures Anchored(pending, state) == state
  {
    if state.legacy {
      UnownedIsNotIndexed(pending, state.aliases[0]);
      assert state.aliases == [state.aliases[0]];
      assert (set b | b in state.aliases && b in AliasIndex(pending) :: AliasIndex(pending)[b]) == {};
    }
  }

  /** Where a state is stored and what it keeps. */
  lemma AnchoringKeepsTheRest(pending: States, state: State, legacyKey: Text -> bool)
    requires UniqueOwnership(pending) && Keyed(pending, legacyKey) && Parsed(state, legacyKey)
    ensures var s := Anchored(pending, state);
            s.aliases == state.aliases && (s.legacy <==> state.legacy) && (s.legacy <==> legacyKey(s.externalId))
  {
    if state.legacy && Owners(pending, state.aliases[0]) != {} {
      var key :| key in Owners(pending, state.aliases[0]);
      KnownAliasMergesIntoItsOwner(pending, state, legacyKey, key);
    } else {
      NewAliasKeepsItsIdentity(pending, state, legacyKey);
    }
  }

  lemma OwnersAfterStore(pending: States, key: Text, state: State, a: Text)
    ensures Owners(pending[key := state], a)
         == (Owners(pending, a) - {key}) + if state.legacy && a in state.aliases then {key} else {}
  {
  }

  lemma MergedAliases(current: Option<State>, s: State, a: Text)
    requires a != 0 && (current.Some? ==> (current.value.legacy <==> s.legacy))
    ensures Merged(current, s).legacy <==> s.legacy
    ensures a in Merged(current, s).aliases <==> a in s.aliases || (current.Some? && a in current.value.aliases)
    ensures current.Some? && current.value.externalId == s.externalId ==> Merged(current, s).externalId == s.externalId
  {
    if current.Some? {
      DedupKeepsMembers(current.value.aliases + s.aliases);
    }
  }

  /** Which lots own an alias after one state is folded in. */
  lemma OwnersAfterFold(pending: States, state: State, legacyKey: Text -> bool, a: Text)
    requires UniqueOwnership(pending) && Keyed(pending, legacyKey) && Parsed(state, legacyKey) && a != 0
    ensures Keyed(FoldState(pending, state), legacyKey)
    ensures var target := Anchored(pending, state).externalId;
            Owners(FoldState(pending, state), a)
            == Owners(pending, a) + if state.legacy && a in state.aliases then {target} else {}
  {
    AnchoringKeepsTheRest(pending, state, legacyKey);
    hide Anchored, Merged, UniqueOwnership;
    var s := Anchored(pending, state);
    var current := Get(pending, s.externalId);
    MergedAliases(current, s, a);
    OwnersAfterStore(pending, s.externalId, Merged(current, s), a);
  }

  /** One folded state: unique ownership survives and no alias changes hands. */
  lemma FoldKeepsOwnership(pending: States, state: State, legacyKey: Text -> bool)
    requires UniqueOwnership(pending) && Keyed(pending, legacyKey) && Parsed(state, legacyKey)
    ensures UniqueOwnership(FoldState(pending, state)) && Keyed(FoldState(pending, state), legacyKey)
    ensures forall a | a != 0 && Owners(pending, a) != {} :: Owners(FoldState(pending, state), a) == Owners(pending, a)
  {
    var after := FoldState(pending, state);
    var s := Anchored(pending, state);
    hide FoldState, Anchored, AliasIndex;
    forall a | a != 0
      ensures forall j, k | j in Owners(after, a) && k in Owners(after, a) :: j == k
      ensures Owners(pending, a) != {} ==> Owners(after, a) == Owners(pending, a)
    {
      OwnersAfterFold(pending, state, legacyKey, a);
      if state.legacy && a in state.aliases && Owners(pending, a) != {} {
        var key :| key in Owners(pending, a);
        KnownAliasMergesIntoItsOwner(pending, state, legacyKey, key);
      }
    }
    OwnersAfterFold(pending, state, legacyKey, 1);
  }

  /** The same for every state of a notice, and by repetition for every notice of a catch-up. */
  lemma {:induction false} OwnershipIsStable(pending: States, states: seq<State>, legacyKey: Text -> bool)
    requires UniqueOwnership(pending) && Keyed(pending, legacyKey)
    requires forall i | 0 <= i < |states| :: Parsed(states[i], legacyKey)
    ensures UniqueOwnership(FoldStates(pending, states)) && Keyed(FoldStates(pending, states), legacyKey)
    ensures forall a | a != 0 && Owners(pending, a) != {} :: Owners(FoldStates(pending, states), a) == Owners(pending, a)
  {
    if states != [] {
      var n := |states| - 1;
      OwnershipIsStable(pending, states[..n], legacyKey);
      FoldKeepsOwnership(FoldStates(pending, states[..n]), states[n], legacyKey);
    }
  }
}
