/**
 Which Runs and Invocations a cancellation reaches. Two graphs are closed over together: physical Run
 relations, which may be cyclic, and Invocation ownership through frozen ancestry and Item chains.
 The relation index is an input; a Run in `unreadable` is one whose children cannot be listed.
 */
module CancellationScope {
  import opened Records
  import opened ChildRoot
  import opened ItemChain

  datatype Graph = Graph(
    root: Id, invocations: seq<Invocation>, items: map<Id, Item>, relations: map<Id, seq<Id>>, unreadable: set<Id>)

  datatype Scope =
    | Scope(runs: set<Id>, targets: set<Id>)
    | BlankRoot
    | Unreadable(run: Id)
    | BrokenAncestry(invocation: Invocation)

  function ChildRuns(g: Graph, run: Id): seq<Id> {
    if run in g.relations then g.relations[run] else []
  }

  /** The owners named along an Item chain, up to its end or to the first broken link. */
  function Owners(items: map<Id, Item>, id: Id, seen: set<Id>): set<Id>
    decreases items.Keys - seen
  {
    if id == Empty || id in seen || id !in items then {}
    else
      assert id in items.Keys - seen;
      {items[id].invocation} + Owners(items, items[id].parent, seen + {id})
  }

  ghost predicate FrozenUnder(v: Invocation, targets: set<Id>) {
    Frozen(v).Some? && exists b :: b in Ancestors(Frozen(v).value) && b.invocation in targets
  }

  /** A child descends from the targets by its frozen ancestry or by its Item chain. */
  ghost predicate Descends(g: Graph, v: Invocation, targets: set<Id>) {
    v.parent != Empty && (FrozenUnder(v, targets) || Owners(g.items, v.parent, {}) * targets != {})
  }

  /** Closed under relation edges, ref ownership in both directions, and descent. */
  ghost predicate Closed(g: Graph, runs: set<Id>, targets: set<Id>) {
    && g.root in runs
    && (forall r, c :: r in runs && c in ChildRuns(g, r) ==> c in runs)
    && (forall v :: v in g.invocations ==>
          && (v.ref in runs ==> v.id in targets)
          && (v.id in targets && v.ref != Empty ==> v.ref in runs)
          && (Descends(g, v, targets) ==> v.id in targets))
  }

  /** Inside every closed pair of sets: nothing unrelated has been added. */
  ghost predicate Within(g: Graph, runs: set<Id>, targets: set<Id>) {
    forall r, t :: Closed(g, r, t) ==> runs <= r && targets <= t
  }

  lemma DescendsMonotone(g: Graph, v: Invocation, a: set<Id>, b: set<Id>)
    requires Descends(g, v, a) && a <= b
    ensures Descends(g, v, b)
  {
    var owners := Owners(g.items, v.parent, {});
    if owners * a != {} {
      var x :| x in owners * a;
      assert x in owners * b;
    }
  }

  // ---------------------------------------------------------------- one child

  method FrozenOwned(v: Invocation, targets: set<Id>) returns (owned: bool)
    ensures owned <==> FrozenUnder(v, targets)
  {
    var frozen := FrozenChildRoot(v);
    if frozen.Err? { return false; }
    var p := frozen.value;
    assert p.root in Ancestors(p);
    owned := p.root.invocation in targets;
    for i := 0 to |p.parents|
      invariant owned <==> p.root.invocation in targets || exists b :: b in p.parents[..i] && b.invocation in targets
    {
      assert p.parents[..i + 1] == p.parents[..i] + [p.parents[i]];
      if p.parents[i].invocation in targets { owned := true; }
    }
    assert p.parents[..|p.parents|] == p.parents;
  }

  /** None when the chain dangles or closes a cycle before a target's Item was met. */
  method ItemOwned(items: map<Id, Item>, parent: Id, targets: set<Id>) returns (r: Option<bool>)
    ensures r == Some(true) <==> Owners(items, parent, {}) * targets != {}
    ensures r == None ==> Chain(items, parent, {}).None?
    ensures r == Some(false) ==> Chain(items, parent, {}).Some?
  {
    var id, seen := parent, {};
    ghost var met: set<Id> := {};
    while id != Empty
      invariant Owners(items, parent, {}) == met + Owners(items, id, seen) && met * targets == {}
      invariant Chain(items, id, seen).None? <==> Chain(items, parent, {}).None?
      decreases items.Keys - seen
    {
      if id in seen || id !in items { return None; }
      assert id in items.Keys - seen;
      if items[id].invocation in targets {
        assert items[id].invocation in Owners(items, parent, {}) * targets;
        return Some(true);
      }
      met := met + {items[id].invocation};
      seen := seen + {id};
      id := items[id].parent;
    }
    return Some(false);
  }

  // ---------------------------------------------------------------- the inner fixpoint

  ghost predicate Broken(g: Graph, v: Invocation) {
    v in g.invocations && v.parent != Empty && Chain(g.items, v.parent, {}).None?
  }

  ghost predicate ClosedBelow(g: Graph, targets: set<Id>) {
    forall v :: v in g.invocations && Descends(g, v, targets) ==> v.id in targets
  }

  /** Every child outside the targets was told apart by a complete Item chain. */
  ghost predicate Cleared(g: Graph, targets: set<Id>) {
    forall v :: v in g.invocations && v.parent != Empty && v.id !in targets ==> Chain(g.items, v.parent, {}).Some?
  }

  function Names(invocations: seq<Invocation>): (r: set<Id>)
    ensures forall v :: v in invocations ==> v.id in r
  {
    set v | v in invocations :: v.id
  }

  method AddItemOwnedDescendants(g: Graph, start: set<Id>, ghost runs: set<Id>)
    returns (r: Outcome<set<Id>>, culprit: Option<Invocation>)
    requires Within(g, runs, start) && start <= Names(g.invocations)
    ensures r.Err? ==> r.error == Conflict && culprit.Some? && Broken(g, culprit.value)
    ensures r.Ok? ==> start <= r.value <= Names(g.invocations) && Within(g, runs, r.value) && ClosedBelow(g, r.value)
    ensures r.Ok? ==> Cleared(g, r.value)
  {
    var targets := start;
    culprit := None;
    while true
      invariant start <= targets <= Names(g.invocations) && Within(g, runs, targets)
      decreases Names(g.invocations) - targets
    {
      var changed := false;
      ghost var before := targets;
      for i := 0 to |g.invocations|
        invariant before <= targets <= Names(g.invocations) && Within(g, runs, targets)
        invariant changed <==> targets != before
        invariant !changed ==> forall k :: 0 <= k < i && Descends(g, g.invocations[k], targets) ==> g.invocations[k].id in targets
        invariant !changed ==> forall k :: 0 <= k < i && g.invocations[k].parent != Empty && g.invocations[k].id !in targets ==>
                    Chain(g.items, g.invocations[k].parent, {}).Some?
      {
        var v := g.invocations[i];
        if v.id !in targets && v.parent != Empty {
          var owned := FrozenOwned(v, targets);
          if !owned {
            var byItem := ItemOwned(g.items, v.parent, targets);
            if byItem.None? { return Err(Conflict), Some(v); }
            owned := byItem.value;
          }
          if owned {
            AddOne(g, runs, targets, v);
            targets := targets + {v.id};
            changed := true;
          }
        }
      }
      if !changed { return Ok(targets), None; }
    }
  }

  lemma AddOne(g: Graph, runs: set<Id>, targets: set<Id>, v: Invocation)
    requires Within(g, runs, targets) && v in g.invocations && Descends(g, v, targets)
    ensures Within(g, runs, targets + {v.id})
  {
    forall r, t | Closed(g, r, t) ensures targets + {v.id} <= t {
      DescendsMonotone(g, v, targets, t);
    }
  }

  // ---------------------------------------------------------------- the outer fixpoint

  function AllRuns(g: Graph): (r: set<Id>)
    ensures g.root in r
    ensures forall run, c :: c in ChildRuns(g, run) ==> c in r
    ensures forall v :: v in g.invocations ==> v.ref in r
  {
    {g.root} + (set run, c | run in g.relations && c in g.relations[run] :: c) + (set v | v in g.invocations :: v.ref)
  }

  lemma AddRun(g: Graph, runs: set<Id>, targets: set<Id>, run: Id, c: Id)
    requires Within(g, runs, targets) && run in runs && c in ChildRuns(g, run)
    ensures Within(g, runs + {c}, targets)
  {
    forall r, t | Closed(g, r, t) ensures runs + {c} <= r {
      assert runs <= r;
    }
  }

  lemma AddOwner(g: Graph, runs: set<Id>, targets: set<Id>, v: Invocation)
    requires Within(g, runs, targets) && v in g.invocations
    ensures v.ref in runs ==> Within(g, runs, targets + {v.id})
    ensures v.id in targets && v.ref != Empty ==> Within(g, runs + {v.ref}, targets)
  {
    forall r, t | Closed(g, r, t)
      ensures v.ref in runs ==> targets + {v.id} <= t
      ensures v.id in targets && v.ref != Empty ==> runs + {v.ref} <= r
    {
      assert runs <= r && targets <= t;
    }
  }

  /** Visits every Run of `start`. A Run discovered on the way may or may not be visited in this pass:
      the order in which a map is enumerated while it grows is not specified. */
  method ExpandRuns(g: Graph, start: set<Id>, seen: set<Id>, ghost targets: set<Id>)
    returns (runs: set<Id>, visited: set<Id>, unreadable: Option<Id>)
    requires start <= AllRuns(g) && seen <= start && Within(g, start, targets)
    requires seen !! g.unreadable && forall r, c :: r in seen && c in ChildRuns(g, r) ==> c in start
    ensures start <= runs <= AllRuns(g) && visited <= runs && Within(g, runs, targets)
    ensures unreadable.Some? ==> unreadable.value in runs && unreadable.value in g.unreadable
    ensures unreadable.None? ==> visited !! g.unreadable && start <= visited
    ensures unreadable.None? ==> forall r, c :: r in visited && c in ChildRuns(g, r) ==> c in runs
  {
    runs, visited, unreadable := start, seen, None;
    var todo := start;
    while todo != {}
      invariant todo <= runs && start <= runs <= AllRuns(g) && visited <= runs && Within(g, runs, targets)
      invariant start <= visited + todo && visited !! g.unreadable
      invariant forall r, c :: r in visited && c in ChildRuns(g, r) ==> c in runs
      decreases AllRuns(g) - visited, todo
    {
      var run :| run in todo;
      todo := todo - {run};
      if run !in visited {
        if run in g.unreadable { return runs, visited, Some(run); }
        visited := visited + {run};
        var children := ChildRuns(g, run);
        ghost var known := runs;
        for i := 0 to |children|
          invariant known <= runs <= AllRuns(g) && todo <= runs && Within(g, runs, targets)
          invariant start <= visited + todo && forall k :: 0 <= k < i ==> children[k] in runs
        {
          AddRun(g, runs, targets, run, children[i]);
          var produced: bool := *;
          if produced && children[i] !in runs { todo := todo + {children[i]}; }
          runs := runs + {children[i]};
        }
      }
    }
  }

  method OwnersOf(g: Graph, runs: set<Id>, start: set<Id>) returns (targets: set<Id>)
    requires Within(g, runs, start) && start <= Names(g.invocations)
    ensures start <= targets <= Names(g.invocations) && Within(g, runs, targets)
    ensures forall v :: v in g.invocations && v.ref in runs ==> v.id in targets
  {
    targets := start;
    for i := 0 to |g.invocations|
      invariant start <= targets <= Names(g.invocations) && Within(g, runs, targets)
      invariant forall k :: 0 <= k < i && g.invocations[k].ref in runs ==> g.invocations[k].id in targets
    {
      AddOwner(g, runs, targets, g.invocations[i]);
      if g.invocations[i].ref in runs { targets := targets + {g.invocations[i].id}; }
    }
  }

  method RunsOf(g: Graph, start: set<Id>, targets: set<Id>) returns (runs: set<Id>)
    requires Within(g, start, targets) && start <= AllRuns(g)
    ensures start <= runs <= AllRuns(g) && Within(g, runs, targets)
    ensures forall v :: v in g.invocations && v.id in targets && v.ref != Empty ==> v.ref in runs
  {
    runs := start;
    for i := 0 to |g.invocations|
      invariant start <= runs <= AllRuns(g) && Within(g, runs, targets)
      invariant forall k :: 0 <= k < i && g.invocations[k].id in targets && g.invocations[k].ref != Empty ==>
                  g.invocations[k].ref in runs
    {
      AddOwner(g, runs, targets, g.invocations[i]);
      if g.invocations[i].id in targets && g.invocations[i].ref != Empty { runs := runs + {g.invocations[i].ref}; }
    }
  }

  /** Terminates on every finite graph, cyclic or not. On success the scope is the least pair of sets
      closed under all edges, every Run in it was read and every child outside it has a complete Item
      chain; it fails only on a blank root, on an unreadable relation inside the
      scope, or on a child whose Item chain is broken. */
  method CollectCancellationScope(g: Graph) returns (r: Scope)
    ensures r.BlankRoot? <==> g.root == Empty
    ensures r.Scope? ==> Closed(g, r.runs, r.targets) && Within(g, r.runs, r.targets)
    ensures r.Scope? ==> r.runs !! g.unreadable && Cleared(g, r.targets)
    ensures r.Unreadable? ==> r.run in g.unreadable && Within(g, {r.run}, {})
    ensures r.BrokenAncestry? ==> Broken(g, r.invocation)
  {
    hide Closed, Within, ClosedBelow, Cleared, Broken, AllRuns, Names;
    if g.root == Empty { return BlankRoot; }
    OnlyRoot(g);
    var affected, targets, visited: set<Id> := {g.root}, {}, {};
    while true
      invariant g.root in affected && affected <= AllRuns(g) && targets <= Names(g.invocations)
      invariant visited <= affected && visited !! g.unreadable && Within(g, affected, targets)
      invariant forall run, c :: run in visited && c in ChildRuns(g, run) ==> c in affected
      decreases |AllRuns(g) - affected| + |Names(g.invocations) - targets|
    {
      ghost var runsBefore, targetsBefore := affected, targets;
      var oldRuns, oldTargets := |affected|, |targets|;
      var unreadable;
      affected, visited, unreadable := ExpandRuns(g, affected, visited, targets);
      if unreadable.Some? {
        Narrower(g, affected, targets, unreadable.value);
        return Unreadable(unreadable.value);
      }
      targets := OwnersOf(g, affected, targets);
      ghost var expanded := affected;
      var descended, culprit := AddItemOwnedDescendants(g, targets, affected);
      if descended.Err? { return BrokenAncestry(culprit.value); }
      ghost var owned := targets;
      targets := descended.value;
      affected := RunsOf(g, affected, targets);
      SizeOrder(runsBefore, affected, AllRuns(g));
      SizeOrder(targetsBefore, targets, Names(g.invocations));
      if |affected| == oldRuns && |targets| == oldTargets {
        assert affected == runsBefore == expanded && targets == targetsBefore == owned;
        Fixpoint(g, affected, targets);
        return Scope(affected, targets);
      }
    }
  }

  lemma OnlyRoot(g: Graph)
    ensures Within(g, {g.root}, {})
  {
  }

  lemma Narrower(g: Graph, runs: set<Id>, targets: set<Id>, run: Id)
    requires Within(g, runs, targets) && run in runs
    ensures Within(g, {run}, {})
  {
    forall r, t | Closed(g, r, t) ensures run in r { assert runs <= r; }
  }

  lemma Fixpoint(g: Graph, runs: set<Id>, targets: set<Id>)
    requires g.root in runs && ClosedBelow(g, targets)
    requires forall r, c :: r in runs && c in ChildRuns(g, r) ==> c in runs
    requires forall v :: v in g.invocations && v.ref in runs ==> v.id in targets
    requires forall v :: v in g.invocations && v.id in targets && v.ref != Empty ==> v.ref in runs
    ensures Closed(g, runs, targets)
  {
    hide Descends, ChildRuns;
  }

  /** For a growing set inside a finite bound: what is left never grows, and shrinks unless it stopped. */
  lemma SizeOrder(a: set<Id>, b: set<Id>, all: set<Id>)
    requires a <= b <= all
    ensures |a| == |b| ==> a == b
    ensures |all - b| <= |all - a| && (|a| != |b| ==> |all - b| < |all - a|)
  {
    assert b == a + (b - a);
    assert all - a == (all - b) + (b - a);
  }

  /** The scope is one determined pair of sets: no enumeration order can yield another. */
  lemma ScopeUnique(g: Graph, runs: set<Id>, targets: set<Id>, runs': set<Id>, targets': set<Id>)
    requires Closed(g, runs, targets) && Within(g, runs, targets)
    requires Closed(g, runs', targets') && Within(g, runs', targets')
    ensures runs == runs' && targets == targets'
  {
  }

  /** Nobody else is stored under this Invocation's identity or execution ref. */
  ghost predicate Sole(g: Graph, v: Invocation) {
    v in g.invocations && forall o :: o in g.invocations && (o.id == v.id || (o.ref == v.ref && v.ref != Empty)) ==> o == v
  }

  /** No relation edge leads to this Run and the cancellation does not start from it. */
  ghost predicate Unreached(g: Graph, run: Id) {
    run != g.root && forall r, c :: c in ChildRuns(g, r) ==> c != run
  }

  lemma WithoutOne(g: Graph, runs: set<Id>, targets: set<Id>, v: Invocation)
    requires Closed(g, runs, targets) && Sole(g, v) && Unreached(g, v.ref) && !Descends(g, v, targets - {v.id})
    ensures Closed(g, runs - {v.ref}, targets - {v.id})
  {
    hide Descends;
    forall o | o in g.invocations && Descends(g, o, targets - {v.id}) ensures o.id in targets - {v.id} {
      DescendsMonotone(g, o, targets - {v.id}, targets);
    }
  }

  /** No unrelated sibling: an Invocation whose Run no relation reaches is in the scope only because it
      descends from another target. */
  lemma UnrelatedStaysOut(g: Graph, runs: set<Id>, targets: set<Id>, v: Invocation)
    requires Closed(g, runs, targets) && Within(g, runs, targets)
    requires Sole(g, v) && Unreached(g, v.ref) && v.id in targets
    ensures Descends(g, v, targets - {v.id})
  {
    if !Descends(g, v, targets - {v.id}) { WithoutOne(g, runs, targets, v); }
  }
}
