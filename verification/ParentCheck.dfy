/**
 The check that stands between a durable grant and the executor: does the child still descend from
 the exact Attempts that were frozen into its sealed Input? The Kernel's answers about Runs are
 inputs: `foreign` holds the Items whose Run does not descend from their owner's execution ref, and
 `dead` the Attempts whose Kernel Run is missing, terminal or not theirs.
 */
module ParentCheck {
  import opened Records
  import opened ChildRoot
  import opened Admission
  import opened ItemChain

  predicate Current(s: State, b: Binding) {
    b.invocation in s.invocations && Attempt(s.invocations[b.invocation]) == b
  }

  /** A current Attempt of this Turn. */
  predicate Anchored(s: State, turn: Id, b: Binding) {
    Current(s, b) && s.invocations[b.invocation].turn == turn
  }

  predicate Unclaimed(v: Invocation) {
    v.executionClass == Application && v.status == Accepted
  }

  /** An intermediate ancestor still runs the exact Attempt the child was sealed to. */
  predicate LiveParent(s: State, turn: Id, b: Binding) {
    && Anchored(s, turn, b) && s.invocations[b.invocation].parent != Empty
    && !Terminal(s.invocations[b.invocation].status) && !Unclaimed(s.invocations[b.invocation])
  }

  predicate LiveRoot(s: State, child: Invocation, b: Binding) {
    && Anchored(s, child.turn, b) && b.invocation != child.id
    && s.invocations[b.invocation].parent == Empty && !Terminal(s.invocations[b.invocation].status)
    && !Unclaimed(s.invocations[b.invocation])
  }

  predicate KernelAgrees(s: State, b: Binding, dead: set<Binding>) {
    b !in dead || (b.invocation in s.invocations && s.invocations[b.invocation].executionClass == Application)
  }

  /** An Item above the child is in its Turn and owned by nobody, the child, or a frozen ancestor
      from whose Attempt its Run descends. */
  ghost predicate LinkFrozen(v: Item, child: Invocation, p: RootBinding, foreign: set<Id>) {
    && v.turn == child.turn && v.seqNo > 0
    && (v.invocation == Empty || v.invocation == child.id ||
        (v.id !in foreign && exists b :: b in Ancestors(p) && b.invocation == v.invocation))
  }

  ghost predicate ChainFrozen(s: State, child: Invocation, p: RootBinding, foreign: set<Id>) {
    match Chain(s.itemIds, child.parent, {})
    case None => false
    case Some(chain) => forall v :: v in chain ==> LinkFrozen(v, child, p, foreign)
  }

  /** The verdict the check must reach. */
  ghost predicate ParentsLive(s: State, child: Invocation, foreign: set<Id>, dead: set<Binding>) {
    child.parent == Empty ||
    match Frozen(child)
    case None => false
    case Some(p) =>
      && ChainFrozen(s, child, p, foreign)
      && (forall b :: b in p.parents ==> LiveParent(s, child.turn, b) && KernelAgrees(s, b, dead))
      && LiveRoot(s, child, p.root) && KernelAgrees(s, p.root, dead)
  }

  /** Walks the Items above the child, stopping at the first dangling or repeated link, and then
      asks every frozen ancestor whether it is still live. */
  method RequireLiveInvocationParents(s: State, child: Invocation, foreign: set<Id>, dead: set<Binding>) returns (ok: bool)
    ensures ok <==> ParentsLive(s, child, foreign, dead)
  {
    if child.parent == Empty { return true; }
    var frozen := FrozenChildRoot(child);
    if frozen.Err? { return false; }
    var p := frozen.value;
    var expected := ExpectedOwners(p.parents);
    var linked := WalkItems(s, child, p, expected, foreign);
    if !linked { return false; }
    for i := 0 to |p.parents|
      invariant forall k :: 0 <= k < i ==> LiveParent(s, child.turn, p.parents[k]) && KernelAgrees(s, p.parents[k], dead)
    {
      if !LiveParent(s, child.turn, p.parents[i]) || !KernelAgrees(s, p.parents[i], dead) { return false; }
    }
    return LiveRoot(s, child, p.root) && KernelAgrees(s, p.root, dead);
  }

  method ExpectedOwners(parents: seq<Binding>) returns (expected: map<Id, Binding>)
    ensures forall id :: id in expected <==> exists b :: b in parents && b.invocation == id
  {
    expected := map[];
    for i := 0 to |parents|
      invariant forall id :: id in expected <==> exists b :: b in parents[..i] && b.invocation == id
    {
      assert parents[..i + 1] == parents[..i] + [parents[i]];
      expected := expected[parents[i].invocation := parents[i]];
    }
    assert parents[..|parents|] == parents;
  }

  method WalkItems(s: State, child: Invocation, p: RootBinding, expected: map<Id, Binding>, foreign: set<Id>)
    returns (ok: bool)
    requires forall id :: id in expected <==> exists b :: b in p.parents && b.invocation == id
    ensures ok <==> ChainFrozen(s, child, p, foreign)
  {
    hide LinkFrozen, Chain, Whole;
    var id, seen := child.parent, {};
    ghost var passed: seq<Item> := [];
    ghost var all := Chain(s.itemIds, child.parent, {});
    WholeStart(s.itemIds, child.parent);
    while id != Empty
      invariant all == Whole(passed, Chain(s.itemIds, id, seen))
      invariant forall v :: v in passed ==> LinkFrozen(v, child, p, foreign)
      decreases s.itemIds.Keys - seen
    {
      WholeStep(s.itemIds, id, seen, passed);
      if id in seen || id !in s.itemIds { return false; }
      assert id in s.itemIds.Keys - seen;
      var item := s.itemIds[id];
      assert all.Some? ==> item in all.value by { assert (passed + [item])[|passed|] == item; }
      seen := seen + {id};
      LinkTest(item, child, p, expected, foreign);
      if item.turn != child.turn || item.seqNo == 0 { return false; }
      if item.invocation != Empty && item.invocation != child.id {
        if item.invocation != p.root.invocation && item.invocation !in expected { return false; }
        if item.id in foreign { return false; }
      }
      passed := passed + [item];
      id := item.parent;
    }
    WholeEnd(s.itemIds, passed, seen);
    return true;
  }

  lemma LinkTest(v: Item, child: Invocation, p: RootBinding, expected: map<Id, Binding>, foreign: set<Id>)
    requires forall id :: id in expected <==> exists b :: b in p.parents && b.invocation == id
    ensures LinkFrozen(v, child, p, foreign) <==>
              v.turn == child.turn && v.seqNo > 0 &&
              (v.invocation == Empty || v.invocation == child.id ||
               ((v.invocation == p.root.invocation || v.invocation in expected) && v.id !in foreign))
  {
    assert p.root in Ancestors(p);
  }

  // ---------------------------------------------------------------- what the check means

  /** The stored Invocation is at exactly this Attempt, belongs to the Turn, has not finished and, if it is
      an Application, has been claimed. */
  ghost predicate RunsAttempt(s: State, turn: Id, b: Binding) {
    && b.invocation in s.invocations
    && var v := s.invocations[b.invocation];
       && v.id == b.invocation && v.ref == b.ref && v.attempt == b.attempt && v.turn == turn
       && v.status !in FINAL && (v.executionClass == Application ==> v.status != Accepted)
  }

  /** A live parent runs the frozen Attempt and is itself a child; a live root runs it, has no parent and is
      not the child itself. */
  lemma LiveMeans(s: State, child: Invocation, turn: Id, b: Binding)
    ensures LiveParent(s, turn, b) <==> RunsAttempt(s, turn, b) && s.invocations[b.invocation].parent != Empty
    ensures LiveRoot(s, child, b) <==>
              RunsAttempt(s, child.turn, b) && s.invocations[b.invocation].parent == Empty && b.invocation != child.id
  {
  }

  /** The chain above the child is complete, and each of its Items is a numbered Item of the Turn that names
      nobody, the child, or, by a Run that descends from it, the root or a parent of the proof. */
  ghost predicate ChainNames(s: State, child: Invocation, p: RootBinding, foreign: set<Id>) {
    && Chain(s.itemIds, child.parent, {}).Some?
    && forall i :: 0 <= i < |Chain(s.itemIds, child.parent, {}).value| ==>
         var v := Chain(s.itemIds, child.parent, {}).value[i];
         && v.turn == child.turn && v.seqNo > 0
         && (v.invocation in {Empty, child.id} ||
             (v.id !in foreign &&
              (v.invocation == p.root.invocation || exists k :: 0 <= k < |p.parents| && p.parents[k].invocation == v.invocation)))
  }

  lemma ChainMeans(s: State, child: Invocation, p: RootBinding, foreign: set<Id>)
    ensures ChainFrozen(s, child, p, foreign) <==> ChainNames(s, child, p, foreign)
  {
    hide Chain;
    if Chain(s.itemIds, child.parent, {}).Some? {
      var chain := Chain(s.itemIds, child.parent, {}).value;
      forall v ensures LinkFrozen(v, child, p, foreign) <==>
                       && v.turn == child.turn && v.seqNo > 0
                       && (v.invocation in {Empty, child.id} ||
                           (v.id !in foreign && (v.invocation == p.root.invocation ||
                              exists k :: 0 <= k < |p.parents| && p.parents[k].invocation == v.invocation)))
      {
        OwnerNamed(p, v.invocation);
      }
      hide LinkFrozen;
      assert forall v :: v in chain <==> exists i :: 0 <= i < |chain| && chain[i] == v;
    }
  }

  lemma OwnerNamed(p: RootBinding, id: Id)
    ensures (exists b :: b in Ancestors(p) && b.invocation == id) <==>
            id == p.root.invocation || exists k :: 0 <= k < |p.parents| && p.parents[k].invocation == id
  {
    assert p.root in Ancestors(p);
    if k :| 0 <= k < |p.parents| && p.parents[k].invocation == id { assert p.parents[k] in Ancestors(p); }
  }

  /** The whole check, said of the stored records: a root passes; a child passes exactly when its proof is
      readable, the chain above it names only the proof's Invocations, every frozen parent runs its Attempt as
      a child and the root runs its own, and the Kernel knows every one that is not an Application. */
  lemma ParentsLiveMeans(s: State, child: Invocation, foreign: set<Id>, dead: set<Binding>)
    ensures ParentsLive(s, child, foreign, dead) <==>
              child.parent == Empty ||
              (&& Frozen(child).Some?
               && var p := Frozen(child).value;
                  && ChainNames(s, child, p, foreign)
                  && (forall k :: 0 <= k < |p.parents| ==>
                        && RunsAttempt(s, child.turn, p.parents[k]) && s.invocations[p.parents[k].invocation].parent != Empty
                        && (s.invocations[p.parents[k].invocation].executionClass != Application ==> p.parents[k] !in dead))
                  && RunsAttempt(s, child.turn, p.root) && s.invocations[p.root.invocation].parent == Empty
                  && p.root.invocation != child.id
                  && (s.invocations[p.root.invocation].executionClass != Application ==> p.root !in dead))
  {
    hide Frozen, ChainFrozen, ChainNames, LiveParent, LiveRoot;
    if child.parent != Empty && Frozen(child).Some? {
      var p := Frozen(child).value;
      ChainMeans(s, child, p, foreign);
      forall b ensures LiveParent(s, child.turn, b) <==> RunsAttempt(s, child.turn, b) && s.invocations[b.invocation].parent != Empty {
        LiveMeans(s, child, child.turn, b);
      }
      LiveMeans(s, child, child.turn, p.root);
      assert forall b :: b in p.parents <==> exists k :: 0 <= k < |p.parents| && p.parents[k] == b;
    }
  }
}
