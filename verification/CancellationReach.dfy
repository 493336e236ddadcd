/**
 The scope of a cancellation as reachability: a Run or an Invocation is in it exactly when a finite path
 leads there from the root Run, along edges stated of the records and Items alone.
 */
module CancellationReach {
  import opened Records
  import opened ChildRoot
  import opened ItemChain
  import opened CancellationScope

  datatype Node = RunOf(run: Id) | Owner(invocation: Id)

  /** Distinct Items, each the parent of the one before. */
  ghost predicate Walk(items: map<Id, Item>, from: Id, keys: seq<Id>) {
    && (keys != [] ==> keys[0] == from)
    && (forall i :: 0 <= i < |keys| ==> keys[i] != Empty && keys[i] in items)
    && (forall i :: 0 <= i < |keys| - 1 ==> keys[i + 1] == items[keys[i]].parent)
    && (forall i, j :: 0 <= i < j < |keys| ==> keys[i] != keys[j])
  }

  /** An Item met on the way up from `from` names this Invocation. */
  ghost predicate NamedAbove(items: map<Id, Item>, from: Id, id: Id) {
    exists keys :: NamingWalk(items, from, keys, id, {})
  }

  ghost predicate NamingWalk(items: map<Id, Item>, from: Id, keys: seq<Id>, id: Id, avoid: set<Id>) {
    && keys != [] && Walk(items, from, keys) && (forall k :: k in keys ==> k !in avoid)
    && items[keys[|keys| - 1]].invocation == id
  }

  lemma {:induction false} OwnerWalk(items: map<Id, Item>, from: Id, seen: set<Id>, id: Id) returns (keys: seq<Id>)
    requires id in Owners(items, from, seen)
    ensures NamingWalk(items, from, keys, id, seen)
    decreases items.Keys - seen
  {
    assert from in items.Keys - seen;
    if items[from].invocation == id {
      keys := [from];
    } else {
      var rest := OwnerWalk(items, items[from].parent, seen + {from}, id);
      keys := [from] + rest;
      LongerWalk(items, from, rest, id, seen);
    }
  }

  lemma LongerWalk(items: map<Id, Item>, from: Id, rest: seq<Id>, id: Id, seen: set<Id>)
    requires from != Empty && from in items && from !in seen && NamingWalk(items, items[from].parent, rest, id, seen + {from})
    ensures NamingWalk(items, from, [from] + rest, id, seen)
  {
    var keys := [from] + rest;
    assert forall i :: 0 < i < |keys| ==> keys[i] == rest[i - 1];
    forall i, j | 0 <= i < j < |keys| ensures keys[i] != keys[j] {
      assert keys[j] in rest;
      if i > 0 { assert rest[i - 1] != rest[j - 1]; }
    }
    assert keys[|keys| - 1] == rest[|rest| - 1];
  }

  lemma {:induction false} WalkOwner(items: map<Id, Item>, from: Id, seen: set<Id>, id: Id, keys: seq<Id>)
    requires NamingWalk(items, from, keys, id, seen)
    ensures id in Owners(items, from, seen)
    decreases |keys|
  {
    assert keys[0] in keys && from in items.Keys - seen;
    if |keys| > 1 {
      var rest := keys[1..];
      assert forall i :: 0 <= i < |rest| ==> rest[i] == keys[i + 1];
      forall k | k in rest ensures k !in seen + {from} {
        var i :| 0 <= i < |rest| && rest[i] == k;
        assert keys[0] != keys[i + 1] && keys[i + 1] in keys;
      }
      assert rest[|rest| - 1] == keys[|keys| - 1];
      WalkOwner(items, items[from].parent, seen + {from}, id, rest);
    }
  }

  /** The owners of a chain are exactly the Invocations that some Item met on the way up names. */
  lemma OwnersMeans(items: map<Id, Item>, from: Id, id: Id)
    ensures id in Owners(items, from, {}) <==> NamedAbove(items, from, id)
  {
    hide NamingWalk, Owners;
    if id in Owners(items, from, {}) { var keys := OwnerWalk(items, from, {}, id); }
    if NamedAbove(items, from, id) {
      var keys :| NamingWalk(items, from, keys, id, {});
      WalkOwner(items, from, {}, id, keys);
    }
  }

  /** When the chain is complete they are the owners of its Items. */
  lemma {:induction false} OwnersOfChain(items: map<Id, Item>, from: Id, seen: set<Id>, id: Id)
    requires Chain(items, from, seen).Some?
    ensures id in Owners(items, from, seen) <==> exists v :: v in Chain(items, from, seen).value && v.invocation == id
    decreases items.Keys - seen
  {
    if from != Empty {
      assert from in items.Keys - seen;
      OwnersOfChain(items, items[from].parent, seen + {from}, id);
      var rest := Chain(items, items[from].parent, seen + {from}).value;
      assert Chain(items, from, seen).value == [items[from]] + rest;
      assert items[from] in [items[from]] + rest && forall v :: v in rest ==> v in [items[from]] + rest;
    }
  }

  // ---------------------------------------------------------------- edges and paths

  /** The child's proof names this Invocation, as its root or as a parent, or an Item above the child does. */
  ghost predicate ChildOf(g: Graph, v: Invocation, id: Id) {
    && v in g.invocations && v.parent != Empty
    && (|| (&& Frozen(v).Some?
            && (Frozen(v).value.root.invocation == id || exists b :: b in Frozen(v).value.parents && b.invocation == id))
        || NamedAbove(g.items, v.parent, id))
  }

  ghost predicate Edge(g: Graph, a: Node, b: Node) {
    match (a, b)
    case (RunOf(r), RunOf(c)) => r in g.relations && c in g.relations[r]
    case (RunOf(r), Owner(id)) => exists v :: v in g.invocations && v.id == id && v.ref == r
    case (Owner(id), RunOf(r)) => r != Empty && exists v :: v in g.invocations && v.id == id && v.ref == r
    case (Owner(t), Owner(id)) => exists v: Invocation :: v.id == id && ChildOf(g, v, t)
  }

  ghost predicate PathTo(g: Graph, path: seq<Node>, n: Node) {
    && path != [] && path[0] == RunOf(g.root) && path[|path| - 1] == n
    && forall i :: 0 <= i < |path| - 1 ==> Edge(g, path[i], path[i + 1])
  }

  ghost predicate Reached(g: Graph, n: Node) {
    exists path :: PathTo(g, path, n)
  }

  ghost predicate Holds(runs: set<Id>, targets: set<Id>, n: Node) {
    match n case RunOf(r) => r in runs case Owner(id) => id in targets
  }

  lemma DescendsMeans(g: Graph, v: Invocation, targets: set<Id>)
    requires v in g.invocations
    ensures Descends(g, v, targets) <==> exists t :: t in targets && ChildOf(g, v, t)
  {
    hide NamedAbove, Owners, Frozen;
    forall t ensures t in Owners(g.items, v.parent, {}) <==> NamedAbove(g.items, v.parent, t) { OwnersMeans(g.items, v.parent, t); }
    if Descends(g, v, targets) {
      if FrozenUnder(v, targets) {
        var b :| b in Ancestors(Frozen(v).value) && b.invocation in targets;
        assert ChildOf(g, v, b.invocation);
      } else {
        var t :| t in Owners(g.items, v.parent, {}) * targets;
        assert ChildOf(g, v, t);
      }
    }
    if t :| t in targets && ChildOf(g, v, t) {
      if NamedAbove(g.items, v.parent, t) {
        assert t in Owners(g.items, v.parent, {}) * targets;
      } else {
        ProofNames(v, t, targets);
      }
    }
  }

  lemma ProofNames(v: Invocation, t: Id, targets: set<Id>)
    requires Frozen(v).Some? && t in targets
    requires Frozen(v).value.root.invocation == t || exists b :: b in Frozen(v).value.parents && b.invocation == t
    ensures FrozenUnder(v, targets)
  {
    hide Frozen;
    var p := Frozen(v).value;
    assert p.root in Ancestors(p);
    if b :| b in p.parents && b.invocation == t { assert b in Ancestors(p); }
  }

  lemma EdgeInside(g: Graph, runs: set<Id>, targets: set<Id>, a: Node, b: Node)
    requires Closed(g, runs, targets) && Holds(runs, targets, a) && Edge(g, a, b)
    ensures Holds(runs, targets, b)
  {
    hide Descends, ChildOf;
    if a.Owner? && b.Owner? {
      var v: Invocation :| v.id == b.invocation && ChildOf(g, v, a.invocation);
      ChildListed(g, v, a.invocation);
      DescendsMeans(g, v, targets);
    }
  }

  lemma ChildListed(g: Graph, v: Invocation, t: Id)
    requires ChildOf(g, v, t)
    ensures v in g.invocations
  {
  }

  lemma {:induction false} PathInside(g: Graph, runs: set<Id>, targets: set<Id>, path: seq<Node>, n: Node)
    requires Closed(g, runs, targets) && PathTo(g, path, n)
    ensures Holds(runs, targets, n)
    decreases |path|
  {
    hide Closed, Edge;
    if |path| == 1 {
      RootInside(g, runs, targets);
    } else {
      var front := path[..|path| - 1];
      PathInside(g, runs, targets, front, front[|front| - 1]);
      EdgeInside(g, runs, targets, path[|path| - 2], n);
    }
  }

  lemma RootInside(g: Graph, runs: set<Id>, targets: set<Id>)
    requires Closed(g, runs, targets)
    ensures g.root in runs
  {
  }

  lemma ReachMore(g: Graph, a: Node, b: Node)
    requires Reached(g, a) && Edge(g, a, b)
    ensures Reached(g, b)
  {
    hide Edge;
    var path :| PathTo(g, path, a);
    assert PathTo(g, path + [b], b);
  }

  /** What is reached, cut down to a closed pair, is closed itself. */
  lemma ReachedClosed(g: Graph, runs: set<Id>, targets: set<Id>)
    requires Closed(g, runs, targets)
    ensures Closed(g, (set r | r in runs && Reached(g, RunOf(r))), (set t | t in targets && Reached(g, Owner(t))))
  {
    hide Descends, ChildOf, Reached;
    var rs, ts := (set r | r in runs && Reached(g, RunOf(r))), (set t | t in targets && Reached(g, Owner(t)));
    RootReached(g);
    forall r, c | r in rs && c in ChildRuns(g, r) ensures c in rs { ReachMore(g, RunOf(r), RunOf(c)); }
    forall v | v in g.invocations
      ensures (v.ref in rs ==> v.id in ts) && (v.id in ts && v.ref != Empty ==> v.ref in rs)
      ensures Descends(g, v, ts) ==> v.id in ts
    {
      if v.ref in rs { ReachMore(g, RunOf(v.ref), Owner(v.id)); }
      if v.id in ts && v.ref != Empty { ReachMore(g, Owner(v.id), RunOf(v.ref)); }
      if Descends(g, v, ts) {
        DescendsMeans(g, v, ts);
        DescendsMonotone(g, v, ts, targets);
        var t :| t in ts && ChildOf(g, v, t);
        ReachMore(g, Owner(t), Owner(v.id));
      }
    }
  }

  lemma RootReached(g: Graph)
    ensures Reached(g, RunOf(g.root))
  {
    assert PathTo(g, [RunOf(g.root)], RunOf(g.root));
  }

  /** The least closed pair is exactly what is reached from the root Run. */
  lemma ScopeIsReach(g: Graph, runs: set<Id>, targets: set<Id>, n: Node)
    requires Closed(g, runs, targets) && Within(g, runs, targets)
    ensures Holds(runs, targets, n) <==> Reached(g, n)
  {
    hide Closed, PathTo;
    ReachedClosed(g, runs, targets);
    if Reached(g, n) {
      var path :| PathTo(g, path, n);
      PathInside(g, runs, targets, path, n);
    }
  }
}
