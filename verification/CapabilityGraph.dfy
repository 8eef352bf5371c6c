/** Cycle detection over the capability registry: a depth-first search that reports a
    closed walk whenever it meets a name that is still being visited. */
module CapabilityGraph {
  import opened Common

  /** Registered names with their declared dependencies; a dependency need not be registered. */
  type Registry = map<Text, seq<Text>>

  ghost predicate Edge(g: Registry, a: Text, b: Text) {
    a in g && b in g && b in g[a]
  }

  ghost predicate Walk(g: Registry, w: seq<Text>) {
    && (forall i | 0 <= i < |w| :: w[i] in g)
    && (forall i, j | 0 <= i < j < |w| && j == i + 1 :: Edge(g, w[i], w[j]))
  }

  ghost predicate Closed(g: Registry, w: seq<Text>) {
    |w| >= 2 && Walk(g, w) && w[0] == w[|w| - 1]
  }

  ghost predicate Acyclic(g: Registry) {
    forall w: seq<Text> :: !Closed(g, w)
  }

  ghost predicate Distinct(s: seq<Text>) {
    forall i, j | 0 <= i < j < |s| :: s[i] != s[j]
  }

  ghost function Members(s: seq<Text>): set<Text> {
    set x | x in s
  }

  /** A reported tuple: a closed walk that repeats nothing but its end point. */
  ghost predicate Reported(g: Registry, w: seq<Text>) {
    Closed(g, w) && Distinct(w[1..])
  }

  /** A finishing order: every registered dependency of a name finished before it. */
  ghost predicate Ranked(g: Registry, order: seq<Text>) {
    && Distinct(order)
    && (forall i | 0 <= i < |order| :: order[i] in g)
    && (forall i, b | 0 <= i < |order| && Edge(g, order[i], b) :: b in order[..i])
  }

  /** The search state: the path being visited, the finished names, the cycles so far. */
  ghost predicate Consistent(g: Registry, visiting: seq<Text>, visited: set<Text>, cycles: seq<seq<Text>>,
                             finished: seq<Text>)
  {
    && Walk(g, visiting) && Distinct(visiting)
    && (forall x :: x in finished <==> x in visited)
    && (forall x | x in visiting :: x !in visited)
    && (forall i | 0 <= i < |cycles| :: Reported(g, cycles[i]))
    && (cycles == [] ==> Ranked(g, finished))
  }

  lemma Pushed(g: Registry, visiting: seq<Text>, visited: set<Text>, cycles: seq<seq<Text>>, finished: seq<Text>,
               name: Text)
    requires Consistent(g, visiting, visited, cycles, finished)
    requires name in g && name !in visiting && name !in visited
    requires visiting != [] ==> Edge(g, visiting[|visiting| - 1], name)
    ensures Consistent(g, visiting + [name], visited, cycles, finished)
  {
  }

  lemma Popped(g: Registry, visiting: seq<Text>, visited: set<Text>, cycles: seq<seq<Text>>, finished: seq<Text>,
               name: Text)
    requires name in g && Consistent(g, visiting + [name], visited, cycles, finished)
    requires cycles == [] ==> forall b | Edge(g, name, b) :: b in visited
    ensures Consistent(g, visiting, visited + {name}, cycles, finished + [name])
  {
    var path := visiting + [name];
    assert path[|visiting|] == name && name !in visited;
    assert forall i | 0 <= i < |visiting| :: path[i] == visiting[i];
    forall i, j | 0 <= i < j < |visiting| && j == i + 1 ensures Edge(g, visiting[i], visiting[j]) {
      assert Edge(g, path[i], path[j]);
    }
    if cycles == [] {
      RankedGrows(g, finished, name);
    }
  }

  class CycleSearch {
    const registry: Registry
    var visiting: seq<Text>
    var visited: set<Text>
    var cycles: seq<seq<Text>>
    ghost var finished: seq<Text>

    constructor (registry: Registry)
      ensures this.registry == registry
      ensures Valid() && visiting == [] && cycles == []
    {
      this.registry := registry;
      visiting, visited, cycles, finished := [], {}, [], [];
    }

    ghost predicate Valid()
      reads this
    {
      Consistent(registry, visiting, visited, cycles, finished)
    }

    method Visit(name: Text)
      requires Valid() && name in registry
      requires visiting != [] ==> Edge(registry, visiting[|visiting| - 1], name)
      modifies this
      ensures Valid() && visiting == old(visiting)
      ensures old(visited) <= visited
      ensures |old(cycles)| <= |cycles|
      ensures cycles == [] ==> name in visited
      decreases registry.Keys - Members(visiting), 1
    {
      if name in visiting {
        var start :| 0 <= start < |visiting| && visiting[start] == name;
        ReportedCycle(registry, visiting, start, name);
        cycles := cycles + [visiting[start..] + [name]];
        return;
      }
      if name in visited {
        return;
      }
      hide Consistent, Walk, Distinct;
      Pushed(registry, visiting, visited, cycles, finished, name);
      visiting := visiting + [name];
      assert Members(visiting) == Members(old(visiting)) + {name};
      assert name in registry.Keys - Members(old(visiting));
      VisitDependencies(name);
      Popped(registry, old(visiting), visited, cycles, finished, name);
      visiting := visiting[..|visiting| - 1];
      visited := visited + {name};
      finished := finished + [name];
    }

    method VisitDependencies(name: Text)
      requires Valid() && name in registry
      requires visiting != [] && visiting[|visiting| - 1] == name
      modifies this
      ensures Valid() && visiting == old(visiting)
      ensures old(visited) <= visited
      ensures |old(cycles)| <= |cycles|
      ensures cycles == [] ==> forall b | Edge(registry, name, b) :: b in visited
      decreases registry.Keys - Members(visiting), 2
    {
      hide Consistent;
      var deps := registry[name];
      for i := 0 to |deps|
        invariant Valid() && visiting == old(visiting)
        invariant old(visited) <= visited && |old(cycles)| <= |cycles|
        invariant cycles == [] ==> forall k | 0 <= k < i :: deps[k] in registry ==> deps[k] in visited
      {
        if deps[i] in registry {
          assert Edge(registry, name, deps[i]);
          Visit(deps[i]);
        }
      }
    }
  }

  lemma ReportedCycle(g: Registry, path: seq<Text>, start: nat, name: Text)
    requires Walk(g, path) && Distinct(path) && start < |path| && path[start] == name
    requires Edge(g, path[|path| - 1], name)
    ensures Reported(g, path[start..] + [name])
  {
    var w := path[start..] + [name];
    assert forall i | 0 <= i < |path| - start :: w[i] == path[start + i];
    forall i, j | 0 <= i < j < |w| && j == i + 1 ensures Edge(g, w[i], w[j]) {
      if j < |path| - start {
        assert Edge(g, path[start + i], path[start + j]);
      }
    }
  }

  lemma RankedGrows(g: Registry, order: seq<Text>, name: Text)
    requires Ranked(g, order) && name in g && name !in order
    requires forall b | Edge(g, name, b) :: b in order
    ensures Ranked(g, order + [name])
  {
    var longer := order + [name];
    forall i, b | 0 <= i < |longer| && Edge(g, longer[i], b) ensures b in longer[..i] {
      if i < |order| {
        assert longer[..i] == order[..i];
      } else {
        assert longer[..i] == order;
      }
    }
  }

  /** Along a walk the finishing position strictly falls. */
  lemma {:induction false} WalkDescends(g: Registry, order: seq<Text>, w: seq<Text>, k: nat)
    returns (first: nat, last: nat)
    requires Ranked(g, order) && Walk(g, w) && 0 < k < |w|
    requires forall x | x in g :: x in order
    ensures first < |order| && order[first] == w[0]
    ensures last < first && order[last] == w[k]
  {
    if k == 1 {
      assert w[0] in order;
      first :| 0 <= first < |order| && order[first] == w[0];
      assert Edge(g, w[0], w[1]);
    } else {
      var before;
      first, before := WalkDescends(g, order, w, k - 1);
      assert Edge(g, order[before], w[k]);
      assert w[k] in order[..before];
      last :| 0 <= last < before && order[last] == w[k];
      return;
    }
    assert w[k] in order[..first];
    last :| 0 <= last < first && order[last] == w[k];
  }

  /** A registry all of whose names finished in rank order has no closed walk. */
  lemma RankedIsAcyclic(g: Registry, order: seq<Text>)
    requires Ranked(g, order) && forall x | x in g :: x in order
    ensures Acyclic(g)
  {
    forall w: seq<Text> ensures !Closed(g, w) {
      if Closed(g, w) {
        var first, last := WalkDescends(g, order, w, |w| - 1);
        assert false;
      }
    }
  }

  /** Sound and complete: the result is empty exactly when no closed walk exists, and
      every tuple returned is one, without a repeated intermediate name. */
  method DependencyCycles(names: seq<Text>, registry: Registry) returns (cycles: seq<seq<Text>>)
    requires forall x :: x in names <==> x in registry
    ensures cycles == [] <==> Acyclic(registry)
    ensures forall i | 0 <= i < |cycles| :: Reported(registry, cycles[i])
  {
    var search := new CycleSearch(registry);
    for i := 0 to |names|
      invariant search.Valid() && search.visiting == []
      invariant search.cycles == [] ==> forall k | 0 <= k < i :: names[k] in search.visited
    {
      search.Visit(names[i]);
    }
    cycles := search.cycles;
    if cycles == [] {
      RankedIsAcyclic(registry, search.finished);
    } else {
      assert Closed(registry, cycles[0]);
    }
  }
}
