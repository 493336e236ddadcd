/**
 Freezing a child's ancestry. A worker climbs the Items above the new child, one Store read at a
 time, gathers the Attempt of every owner it meets together with the Attempts frozen into that owner,
 and admits the child with the result sealed into its Input. Other workers, retries and updates
 interleave freely; the theorem is that every admitted ancestry is transitively closed.
 */
module Ancestry {
  import opened Records
  import opened Ledger
  import opened ChildRoot
  import opened Admission
  import opened StoreInvariant
  import opened ItemChain
  import opened ParentCheck
  import opened Sets

  // ---------------------------------------------------------------- gathering

  /** A binding that may join the list: valid, not the root, and not another Attempt of someone listed. */
  predicate Fits(root: Id, parents: seq<Binding>, b: Binding) {
    ValidBinding(b) && b.invocation != root && forall a :: a in parents && a.invocation == b.invocation ==> a == b
  }

  /** `parents` followed by the members of `more` not listed yet; None when one of them does not fit. */
  function Gather(root: Id, parents: seq<Binding>, more: seq<Binding>): (r: Option<seq<Binding>>)
    ensures r.Some? ==> forall b :: b in r.value <==> b in parents || b in more
  {
    if more == [] then Some(parents)
    else
      var front, b := more[..|more| - 1], more[|more| - 1];
      match Gather(root, parents, front)
      case None => None
      case Some(ps) => if !Fits(root, ps, b) then None else if b in ps then Some(ps) else Some(ps + [b])
  }

  lemma {:induction false} GatherDistinct(root: Binding, parents: seq<Binding>, more: seq<Binding>)
    requires DistinctOwners(RootBinding(root, parents)) && Gather(root.invocation, parents, more).Some?
    ensures DistinctOwners(RootBinding(root, Gather(root.invocation, parents, more).value))
  {
    if more != [] {
      GatherDistinct(root, parents, more[..|more| - 1]);
    }
  }

  /** What stops gathering: an invalid binding, the root, or two Attempts of one Invocation. */
  lemma {:induction false} GatherFails(root: Id, parents: seq<Binding>, more: seq<Binding>)
    ensures Gather(root, parents, more).None? <==>
              exists j :: 0 <= j < |more| && !Fits(root, parents + more[..j], more[j])
  {
    hide Fits;
    if more != [] {
      var front, b := more[..|more| - 1], more[|more| - 1];
      GatherFails(root, parents, front);
      forall j | 0 <= j < |front| ensures parents + more[..j] == parents + front[..j] && more[j] == front[j] {
        assert more[..j] == front[..j];
      }
      assert more[..|front|] == front;
      if Gather(root, parents, front).Some? { SameFit(root, Gather(root, parents, front).value, parents + front, b); }
    }
  }

  lemma SameFit(root: Id, a: seq<Binding>, c: seq<Binding>, b: Binding)
    requires forall x :: x in a <==> x in c
    ensures Fits(root, a, b) == Fits(root, c, b)
  {
  }

  ghost predicate IndexedBy(parents: seq<Binding>, seen: map<Id, Binding>) {
    && (forall b :: b in parents ==> b.invocation in seen && seen[b.invocation] == b)
    && (forall id :: id in seen ==> seen[id] in parents && seen[id].invocation == id)
  }

  /** Lists one owner's Attempt and everything it inherited, looking each owner up in the index. */
  method AppendParents(root: Id, parents: seq<Binding>, seen: map<Id, Binding>, more: seq<Binding>)
    returns (r: Option<(seq<Binding>, map<Id, Binding>)>)
    requires IndexedBy(parents, seen)
    ensures r.None? <==> Gather(root, parents, more).None?
    ensures r.Some? ==> Gather(root, parents, more) == Some(r.value.0) && IndexedBy(r.value.0, r.value.1)
  {
    var parents', seen' := parents, seen;
    for i := 0 to |more|
      invariant IndexedBy(parents', seen') && Gather(root, parents, more[..i]) == Some(parents')
    {
      var b := more[i];
      assert more[..i + 1][..i] == more[..i];
      assert Fits(root, parents', b) <==>
             ValidBinding(b) && b.invocation != root && (b.invocation in seen' ==> seen'[b.invocation] == b);
      if !ValidBinding(b) || b.invocation == root || (b.invocation in seen' && seen'[b.invocation] != b) {
        GatherPrefix(root, parents, more, i + 1);
        return None;
      }
      if b.invocation !in seen' {
        seen' := seen'[b.invocation := b];
        parents' := parents' + [b];
      }
    }
    assert more[..|more|] == more;
    return Some((parents', seen'));
  }

  lemma {:induction false} GatherPrefix(root: Id, parents: seq<Binding>, more: seq<Binding>, i: nat)
    requires i <= |more| && Gather(root, parents, more[..i]).None?
    ensures Gather(root, parents, more).None?
  {
    if i < |more| {
      assert more[..|more| - 1][..i] == more[..i];
      GatherPrefix(root, parents, more[..|more| - 1], i);
    } else {
      assert more[..i] == more;
    }
  }

  // ---------------------------------------------------------------- climbing

  /** What one Item adds: nothing when it is unowned or the root's, otherwise its owner's current
      Attempt followed by everything frozen into that owner. None when it proves nothing. */
  function Inherit(s: State, turn: Id, root: Binding, v: Item, foreign: set<Id>): Option<seq<Binding>> {
    if v.turn != turn || v.seqNo == 0 then None
    else if v.invocation == Empty then Some([])
    else if v.invocation !in s.invocations || s.invocations[v.invocation].turn != turn || v.id in foreign then None
    else if v.invocation == root.invocation then Some([])
    else match Frozen(s.invocations[v.invocation])
      case Some(q) => if q.root == root then Some([Attempt(s.invocations[v.invocation])] + q.parents) else None
      case None => None
  }

  function ClimbItem(s: State, turn: Id, root: Binding, parents: seq<Binding>, v: Item, foreign: set<Id>)
    : Option<seq<Binding>>
  {
    match Inherit(s, turn, root, v, foreign)
    case None => None
    case Some(more) => Gather(root.invocation, parents, more)
  }

  function Climb(s: State, turn: Id, root: Binding, chain: seq<Item>, foreign: set<Id>): Option<seq<Binding>> {
    if chain == [] then Some([])
    else match Climb(s, turn, root, chain[..|chain| - 1], foreign)
      case None => None
      case Some(parents) => ClimbItem(s, turn, root, parents, chain[|chain| - 1], foreign)
  }

  lemma {:induction false} ClimbPrefix(s: State, turn: Id, root: Binding, chain: seq<Item>, foreign: set<Id>, i: nat)
    requires i <= |chain| && Climb(s, turn, root, chain[..i], foreign).None?
    ensures Climb(s, turn, root, chain, foreign).None?
  {
    if i < |chain| {
      assert chain[..|chain| - 1][..i] == chain[..i];
      ClimbPrefix(s, turn, root, chain[..|chain| - 1], foreign, i);
    } else {
      assert chain[..i] == chain;
    }
  }

  /** The gathered Attempts are exactly those some Item of the chain contributes, one per Invocation. */
  lemma {:induction false} ClimbExact(s: State, turn: Id, root: Binding, chain: seq<Item>, foreign: set<Id>)
    requires ValidBinding(root) && Climb(s, turn, root, chain, foreign).Some?
    ensures forall v :: v in chain ==> Inherit(s, turn, root, v, foreign).Some?
    ensures forall b :: b in Climb(s, turn, root, chain, foreign).value <==>
              exists v :: v in chain && Inherit(s, turn, root, v, foreign).Some? && b in Inherit(s, turn, root, v, foreign).value
    ensures DistinctOwners(RootBinding(root, Climb(s, turn, root, chain, foreign).value))
  {
    hide Inherit, DistinctOwners, Fits;
    if chain == [] {
      assert DistinctOwners(RootBinding(root, [])) by { NoOwners(root); }
    } else {
      var front, v := chain[..|chain| - 1], chain[|chain| - 1];
      assert chain == front + [v];
      ClimbExact(s, turn, root, front, foreign);
      GatherDistinct(root, Climb(s, turn, root, front, foreign).value, Inherit(s, turn, root, v, foreign).value);
    }
  }

  /** Said of the stored records: every Item of the chain is a numbered Item of the Turn whose owner, if it has
      one, is in the Turn and owns its Run; every owner but the root was frozen under this root Attempt; and the
      gathered Attempts are those owners' current Attempts and everything frozen into them, and nothing else. */
  lemma ClimbOwners(s: State, turn: Id, root: Binding, chain: seq<Item>, foreign: set<Id>)
    requires ValidBinding(root) && Climb(s, turn, root, chain, foreign).Some?
    ensures forall v :: v in chain ==>
              && v.turn == turn && v.seqNo > 0
              && (v.invocation != Empty ==>
                    v.invocation in s.invocations && s.invocations[v.invocation].turn == turn && v.id !in foreign)
              && (v.invocation !in {Empty, root.invocation} ==>
                    && Frozen(s.invocations[v.invocation]).Some? && Frozen(s.invocations[v.invocation]).value.root == root
                    && Attempt(s.invocations[v.invocation]) in Climb(s, turn, root, chain, foreign).value
                    && forall a :: a in Frozen(s.invocations[v.invocation]).value.parents ==>
                         a in Climb(s, turn, root, chain, foreign).value)
    ensures forall b :: b in Climb(s, turn, root, chain, foreign).value ==>
              exists v :: v in chain && v.invocation !in {Empty, root.invocation} && v.invocation in s.invocations &&
                          Frozen(s.invocations[v.invocation]).Some? &&
                          (b == Attempt(s.invocations[v.invocation]) || b in Frozen(s.invocations[v.invocation]).value.parents)
  {
    hide Climb, Frozen, DistinctOwners, Inherit;
    ClimbExact(s, turn, root, chain, foreign);
    var all := Climb(s, turn, root, chain, foreign).value;
    forall v | v in chain
      ensures Inherit(s, turn, root, v, foreign).Some? && OwnerAdds(s, turn, root, v, foreign, Inherit(s, turn, root, v, foreign).value)
    {
      InheritAdds(s, turn, root, v, foreign);
    }
    forall b | b in all
      ensures exists v :: v in chain && v.invocation !in {Empty, root.invocation} && v.invocation in s.invocations &&
                          Frozen(s.invocations[v.invocation]).Some? &&
                          (b == Attempt(s.invocations[v.invocation]) || b in Frozen(s.invocations[v.invocation]).value.parents)
    {
      var v :| v in chain && Inherit(s, turn, root, v, foreign).Some? && b in Inherit(s, turn, root, v, foreign).value;
      assert OwnerAdds(s, turn, root, v, foreign, Inherit(s, turn, root, v, foreign).value);
    }
  }

  /** The Item is sound, and `more` is its owner's Attempt and everything frozen into it, or nothing. */
  ghost predicate OwnerAdds(s: State, turn: Id, root: Binding, v: Item, foreign: set<Id>, more: seq<Binding>) {
    && v.turn == turn && v.seqNo > 0
    && (v.invocation != Empty ==> v.invocation in s.invocations && s.invocations[v.invocation].turn == turn && v.id !in foreign)
    && (if v.invocation in {Empty, root.invocation} then more == []
        else && Frozen(s.invocations[v.invocation]).Some? && Frozen(s.invocations[v.invocation]).value.root == root
             && forall b :: b in more <==>
                  b == Attempt(s.invocations[v.invocation]) || b in Frozen(s.invocations[v.invocation]).value.parents)
  }

  lemma InheritAdds(s: State, turn: Id, root: Binding, v: Item, foreign: set<Id>)
    requires Inherit(s, turn, root, v, foreign).Some?
    ensures OwnerAdds(s, turn, root, v, foreign, Inherit(s, turn, root, v, foreign).value)
  {
    hide Frozen;
  }

  /** Gathering succeeds exactly when all bindings are valid, none is the root's and no two disagree. */
  ghost predicate Agree(root: Id, all: seq<Binding>) {
    && (forall b :: b in all ==> Empty !in {b.invocation, b.ref} && b.attempt > 0 && b.invocation != root)
    && (forall a, b :: a in all && b in all && a.invocation == b.invocation ==> a == b)
  }

  lemma {:induction false} GatherSucceeds(root: Id, parents: seq<Binding>, more: seq<Binding>)
    requires Agree(root, parents)
    ensures Gather(root, parents, more).Some? <==> Agree(root, parents + more)
  {
    if more == [] {
      assert parents + more == parents;
    } else {
      var front, b := more[..|more| - 1], more[|more| - 1];
      GatherSucceeds(root, parents, front);
      assert parents + more == (parents + front) + [b];
      assert forall x :: x in parents + more <==> x in parents + front || x == b;
      assert Agree(root, parents + more) ==> Agree(root, parents + front);
      if Agree(root, parents + front) { assert forall x :: x in Gather(root, parents, front).value <==> x in parents + front; }
    }
  }

  /** One Item proves something exactly when it is a numbered Item of the Turn that nobody owns, or whose owner is
      stored in the Turn and owns its Run and is the root, which adds nothing, or was frozen under this root
      Attempt, which adds its current Attempt and everything frozen into it. */
  lemma InheritExactly(s: State, turn: Id, root: Binding, v: Item, foreign: set<Id>, more: seq<Binding>)
    ensures Inherit(s, turn, root, v, foreign) == Some(more) <==>
              && v.turn == turn && v.seqNo > 0
              && (|| (v.invocation == Empty && more == [])
                  || (&& v.invocation != Empty && v.invocation in s.invocations && s.invocations[v.invocation].turn == turn
                      && v.id !in foreign
                      && (if v.invocation == root.invocation then more == []
                          else && Frozen(s.invocations[v.invocation]).Some?
                               && Frozen(s.invocations[v.invocation]).value.root == root
                               && more == [Attempt(s.invocations[v.invocation])] + Frozen(s.invocations[v.invocation]).value.parents)))
  {
    hide Frozen;
  }

  /** A climb succeeds whenever every Item proves something and all that they add agrees. */
  lemma {:induction false} ClimbComplete(s: State, turn: Id, root: Binding, chain: seq<Item>, foreign: set<Id>, all: seq<Binding>)
    requires Agree(root.invocation, all)
    requires forall v :: v in chain ==>
               Inherit(s, turn, root, v, foreign).Some? && forall b :: b in Inherit(s, turn, root, v, foreign).value ==> b in all
    ensures Climb(s, turn, root, chain, foreign).Some?
    ensures forall b :: b in Climb(s, turn, root, chain, foreign).value ==> b in all
  {
    hide Inherit, Gather, Fits;
    if chain != [] {
      var front, v := chain[..|chain| - 1], chain[|chain| - 1];
      ClimbComplete(s, turn, root, front, foreign, all);
      var parents, more := Climb(s, turn, root, front, foreign).value, Inherit(s, turn, root, v, foreign).value;
      AgreeFewer(root.invocation, parents, all);
      AgreeFewer(root.invocation, parents + more, all);
      GatherSucceeds(root.invocation, parents, more);
    }
  }

  lemma AgreeFewer(root: Id, some: seq<Binding>, all: seq<Binding>)
    requires Agree(root, all) && forall b :: b in some ==> b in all
    ensures Agree(root, some)
  {
  }

  lemma NoOwners(root: Binding)
    requires ValidBinding(root)
    ensures DistinctOwners(RootBinding(root, []))
  {
  }

  /** The gathered Attempts of the whole chain above `parent`. */
  function Climbed(s: State, turn: Id, parent: Id, root: Binding, foreign: set<Id>): Option<seq<Binding>> {
    match Chain(s.itemIds, parent, {})
    case None => None
    case Some(chain) => Climb(s, turn, root, chain, foreign)
  }

  method ClimbParents(s: State, turn: Id, parent: Id, root: Binding, foreign: set<Id>) returns (r: Option<seq<Binding>>)
    ensures r == Climbed(s, turn, parent, root, foreign)
  {
    hide Inherit, Gather, IndexedBy, Frozen, Climb, Chain, Whole;
    var id, seenItems, seenParents, parents := parent, {}, map[], [];
    ghost var passed: seq<Item> := [];
    ghost var all := Chain(s.itemIds, parent, {});
    WholeStart(s.itemIds, parent);
    NothingIndexed(s, turn, root, foreign);
    while id != Empty
      invariant all == Whole(passed, Chain(s.itemIds, id, seenItems))
      invariant Climb(s, turn, root, passed, foreign) == Some(parents) && IndexedBy(parents, seenParents)
      decreases s.itemIds.Keys - seenItems
    {
      WholeStep(s.itemIds, id, seenItems, passed);
      if id in seenItems || id !in s.itemIds { return None; }
      assert id in s.itemIds.Keys - seenItems;
      var item := s.itemIds[id];
      seenItems := seenItems + {id};
      ClimbOne(s, turn, root, passed, item, all, foreign);
      var more := Inherit(s, turn, root, item, foreign);
      if more.None? { return None; }
      var next := AppendParents(root.invocation, parents, seenParents, more.value);
      if next.None? { return None; }
      parents, seenParents := next.value.0, next.value.1;
      passed := passed + [item];
      id := item.parent;
    }
    WholeEnd(s.itemIds, passed, seenItems);
    return Some(parents);
  }

  lemma NothingIndexed(s: State, turn: Id, root: Binding, foreign: set<Id>)
    ensures IndexedBy([], map[]) && Climb(s, turn, root, [], foreign) == Some([])
  {
  }

  /** One more Item extends the climb; an Item that proves nothing ends it. */
  lemma ClimbOne(s: State, turn: Id, root: Binding, above: seq<Item>, v: Item, all: Option<seq<Item>>, foreign: set<Id>)
    requires all.Some? ==> above + [v] <= all.value
    ensures Climb(s, turn, root, above + [v], foreign) ==
            match Climb(s, turn, root, above, foreign)
            case None => None
            case Some(parents) => ClimbItem(s, turn, root, parents, v, foreign)
    ensures all.Some? && Climb(s, turn, root, above + [v], foreign).None? ==> Climb(s, turn, root, all.value, foreign).None?
  {
    hide Inherit, Gather;
    assert (above + [v])[..|above|] == above;
    if all.Some? && Climb(s, turn, root, above + [v], foreign).None? {
      assert all.value[..|above| + 1] == above + [v];
      ClimbPrefix(s, turn, root, all.value, foreign, |above| + 1);
    }
  }

  method FreezeChildParentAttempts(s: State, turn: Id, parent: Id, root: Invocation, foreign: set<Id>, dead: set<Binding>)
    returns (r: Outcome<seq<Binding>>)
    ensures var parents := Climbed(s, turn, parent, Attempt(root), foreign);
            if parents.Some? && forall b :: b in parents.value ==> LiveParent(s, turn, b) && KernelAgrees(s, b, dead)
            then r == Ok(parents.value) else r == Err(Conflict)
  {
    hide Climbed, LiveParent, KernelAgrees;
    var gathered := ClimbParents(s, turn, parent, Attempt(root), foreign);
    if gathered.None? { return Err(Conflict); }
    var parents := gathered.value;
    for i := 0 to |parents|
      invariant forall k :: 0 <= k < i ==> LiveParent(s, turn, parents[k]) && KernelAgrees(s, parents[k], dead)
    {
      if !LiveParent(s, turn, parents[i]) || !KernelAgrees(s, parents[i], dead) { return Err(Conflict); }
    }
    return Ok(parents);
  }

  // ---------------------------------------------------------------- workers

  /** Climbing while `cursor` is not Empty, then checking `parents[checked..]`, then admitting; `passed` are
      the Items climbed so far. */
  datatype Climber = Climber(
    turn: Id, parent: Id, root: Invocation, cursor: Id, seen: set<Id>, parents: seq<Binding>, checked: nat, passed: seq<Item>)

  datatype Sys = Sys(store: State, climbers: map<nat, Climber>)

  datatype Label =
    | Begin(w: nat, turn: Id, parent: Id, root: Id)
    | ClimbNext(w: nat, foreign: set<Id>)
    | CheckNext(w: nat, dead: set<Binding>)
    | Admit(w: nat, draft: Invocation)
    | Quit(w: nat)
    | Env(write: Write)

  /** A root that may be frozen into a child: live, at the top of the Turn, and bound to a Run. */
  predicate Roots(v: Invocation, turn: Id) {
    v.turn == turn && v.parent == Empty && !Terminal(v.status) && v.ref != Empty
  }

  lemma RootsMeans(v: Invocation, turn: Id)
    ensures Roots(v, turn) <==> v.turn == turn && v.parent == Empty && v.status !in FINAL && v.ref != Empty
  {
  }

  function Quits(y: Sys, w: nat): Sys {
    y.(climbers := y.climbers - {w})
  }

  function Sealed(c: Climber, draft: Invocation): Invocation
    requires draft.input.Object?
  {
    var input := Seal(draft.input, c.root, c.parents);
    draft.(turn := c.turn, parent := c.parent, input := input, inputHash := Sha256(input),
           status := Accepted, attempt := 1, revision := 1)
  }

  function Next(y: Sys, l: Label): Sys {
    if l.Env? then
      if Legal(y.store, l.write) && (l.write.PutFresh? ==> l.write.invocation.parent == Empty)
      then y.(store := Commit(y.store, l.write)) else y
    else if l.Begin? then
      if l.w in y.climbers || l.parent == Empty || l.root !in y.store.invocations ||
         !Roots(y.store.invocations[l.root], l.turn) then y
      else y.(climbers := y.climbers[l.w := Climber(l.turn, l.parent, y.store.invocations[l.root], l.parent, {}, [], 0, [])])
    else if l.w !in y.climbers then y
    else
      var c := y.climbers[l.w];
      match l
      case ClimbNext(w, foreign) =>
        if c.cursor == Empty then y
        else if c.cursor in c.seen || c.cursor !in y.store.itemIds then Quits(y, w)
        else
          var v := y.store.itemIds[c.cursor];
          (match ClimbItem(y.store, c.turn, Attempt(c.root), c.parents, v, foreign)
           case None => Quits(y, w)
           case Some(parents) =>
             y.(climbers := y.climbers[w := c.(cursor := v.parent, seen := c.seen + {c.cursor}, parents := parents,
                                                passed := c.passed + [v])]))
      case CheckNext(w, dead) =>
        if c.cursor != Empty || c.checked >= |c.parents| then y
        else if LiveParent(y.store, c.turn, c.parents[c.checked]) && KernelAgrees(y.store, c.parents[c.checked], dead)
        then y.(climbers := y.climbers[w := c.(checked := c.checked + 1)])
        else Quits(y, w)
      case Admit(w, draft) =>
        if c.cursor != Empty || c.checked < |c.parents| then y
        else if !Sealable(draft.input, draft.inputHash, c.root, c.parents) then Quits(y, w)
        else Quits(y.(store := Step(y.store, DoCreate(Sealed(c, draft)))), w)
      case Quit(w) => Quits(y, w)
  }

  function Steps(y: Sys, labels: seq<Label>): Sys {
    if labels == [] then y else Next(Steps(y, labels[..|labels| - 1]), labels[|labels| - 1])
  }

  const START := Sys(INITIAL, map[])

  // ---------------------------------------------------------------- the closure invariant

  type Invocations = map<Id, Invocation>

  /** An Attempt that the Invocation has reached; the current one when it has not moved on. */
  ghost predicate Reached(m: Invocations, b: Binding) {
    && b.invocation in m && b.attempt <= m[b.invocation].attempt
    && (b.attempt == m[b.invocation].attempt ==> Attempt(m[b.invocation]) == b)
  }

  ghost predicate RootKnown(m: Invocations, turn: Id, root: Binding) {
    Reached(m, root) && m[root.invocation].turn == turn && m[root.invocation].parent == Empty
  }

  /** A listed Attempt belongs to a child of the same Turn and root all of whose ancestors are listed. */
  ghost predicate OwnerCovered(m: Invocations, turn: Id, p: RootBinding, b: Binding) {
    && Reached(m, b) && m[b.invocation].turn == turn && Frozen(m[b.invocation]).Some?
    && Frozen(m[b.invocation]).value.root == p.root
    && forall a :: a in Frozen(m[b.invocation]).value.parents ==> a in p.parents
  }

  ghost predicate Covered(m: Invocations, turn: Id, p: RootBinding) {
    RootKnown(m, turn, p.root) && forall b :: b in p.parents ==> OwnerCovered(m, turn, p, b)
  }

  ghost predicate ChildClosed(m: Invocations, id: Id) {
    id in m && m[id].parent != Empty ==>
      && Frozen(m[id]).Some? && Covered(m, m[id].turn, Frozen(m[id]).value)
      && forall b :: b in Frozen(m[id]).value.parents ==> b.invocation != id
  }

  ghost predicate Closed(m: Invocations) {
    forall id :: ChildClosed(m, id)
  }

  ghost predicate ClimberOk(m: Invocations, c: Climber) {
    && c.parent != Empty && Covered(m, c.turn, RootBinding(Attempt(c.root), c.parents))
    && DistinctOwners(RootBinding(Attempt(c.root), c.parents))
  }

  ghost predicate SysInv(y: Sys) {
    && Inv(y.store) && Closed(y.store.invocations)
    && forall w :: w in y.climbers ==> ClimberOk(y.store.invocations, y.climbers[w])
  }

  /** Invocations are never removed and never change what is frozen into them. */
  ghost predicate Grows(m: Invocations, n: Invocations) {
    forall id :: id in m ==> id in n && SameOwner(m[id], n[id])
  }

  lemma GrowsCommit(s: State, w: Write)
    requires Inv(s) && Legal(s, w)
    ensures Grows(s.invocations, Commit(s, w).invocations)
  {
    hide Legal, Commit, SameOwner;
    forall id | id in s.invocations
      ensures id in Commit(s, w).invocations && SameOwner(s.invocations[id], Commit(s, w).invocations[id])
    {
      InvocationCommit(s, w, id);
    }
  }

  lemma CoveredGrows(m: Invocations, n: Invocations, turn: Id, p: RootBinding)
    requires Grows(m, n) && Covered(m, turn, p)
    ensures Covered(n, turn, p)
  {
    forall b | b in p.parents ensures OwnerCovered(n, turn, p, b) {
      assert OwnerCovered(m, turn, p, b);
      assert SameOwner(m[b.invocation], n[b.invocation]);
    }
  }

  lemma ChildGrows(m: Invocations, n: Invocations, id: Id)
    requires Grows(m, n) && ChildClosed(m, id) && id in m
    ensures ChildClosed(n, id)
  {
    hide Covered;
    assert SameOwner(m[id], n[id]);
    if m[id].parent != Empty { CoveredGrows(m, n, m[id].turn, Frozen(m[id]).value); }
  }

  /** A write that admits no child keeps every climber and every admitted ancestry. */
  lemma WriteKeeps(y: Sys, w: Write)
    requires SysInv(y) && Legal(y.store, w) && (w.PutFresh? ==> w.invocation.parent == Empty)
    ensures SysInv(y.(store := Commit(y.store, w)))
  {
    hide Legal, Commit, Inv, ChildClosed, Covered, DistinctOwners;
    InvCommit(y.store, w);
    GrowsCommit(y.store, w);
    var m, n := y.store.invocations, Commit(y.store, w).invocations;
    forall id ensures ChildClosed(n, id) {
      if id in m {
        assert ChildClosed(m, id);
        ChildGrows(m, n, id);
      } else {
        FreshRoot(y.store, w, id);
      }
    }
    forall k | k in y.climbers ensures ClimberOk(n, y.climbers[k]) {
      assert ClimberOk(m, y.climbers[k]);
      CoveredGrows(m, n, y.climbers[k].turn, RootBinding(Attempt(y.climbers[k].root), y.climbers[k].parents));
    }
  }

  lemma FreshRoot(s: State, w: Write, id: Id)
    requires Legal(s, w) && id !in s.invocations && (w.PutFresh? ==> w.invocation.parent == Empty)
    ensures ChildClosed(Commit(s, w).invocations, id)
  {
    hide Legal, Commit;
    if id in Commit(s, w).invocations { FreshOnly(s, w, id); }
  }

  /** A climber whose parents are all checked admits a child with a closed ancestry. */
  lemma AdmitKeeps(y: Sys, w: nat, v: Invocation)
    requires SysInv(y) && w in y.climbers && Legal(y.store, PutFresh(v))
    requires v.turn == y.climbers[w].turn
    requires Frozen(v) == Some(RootBinding(Attempt(y.climbers[w].root), y.climbers[w].parents))
    ensures SysInv(y.(store := Commit(y.store, PutFresh(v))))
  {
    hide Legal, Inv, Frozen, Covered, DistinctOwners, Commit;
    InvCommit(y.store, PutFresh(v));
    GrowsCommit(y.store, PutFresh(v));
    var c, m, n := y.climbers[w], y.store.invocations, Commit(y.store, PutFresh(v)).invocations;
    Fresh(y.store, v);
    assert ClimberOk(m, c);
    var p := RootBinding(Attempt(c.root), c.parents);
    CoveredGrows(m, n, c.turn, p);
    CoveredKnown(m, c.turn, p);
    forall id ensures ChildClosed(n, id) {
      if id in m {
        assert ChildClosed(m, id);
        ChildGrows(m, n, id);
      }
    }
    forall k | k in y.climbers ensures ClimberOk(n, y.climbers[k]) {
      assert ClimberOk(m, y.climbers[k]);
      CoveredGrows(m, n, y.climbers[k].turn, RootBinding(Attempt(y.climbers[k].root), y.climbers[k].parents));
    }
  }

  lemma Fresh(s: State, v: Invocation)
    requires Legal(s, PutFresh(v))
    ensures v.id !in s.invocations && Commit(s, PutFresh(v)).invocations == s.invocations[v.id := v]
  {
    hide ActiveFence, OtherRoot, RefTaken;
  }

  lemma CoveredKnown(m: Invocations, turn: Id, p: RootBinding)
    requires Covered(m, turn, p)
    ensures forall b :: b in p.parents ==> b.invocation in m
  {
    forall b | b in p.parents ensures b.invocation in m { assert OwnerCovered(m, turn, p, b); }
  }

  /** Because the Store is closed already, one owner's Attempt brings all of its ancestors along. */
  lemma InheritCovered(s: State, turn: Id, root: Binding, v: Item, foreign: set<Id>, p: RootBinding, b: Binding)
    requires Closed(s.invocations) && Keyed(s.invocations) && Inherit(s, turn, root, v, foreign).Some?
    requires p.root == root && (forall a :: a in Inherit(s, turn, root, v, foreign).value ==> a in p.parents)
    requires b in Inherit(s, turn, root, v, foreign).value
    ensures OwnerCovered(s.invocations, turn, p, b)
  {
    var owner := s.invocations[v.invocation];
    assert ChildClosed(s.invocations, v.invocation);
    assert owner.id == v.invocation;
    var q := Frozen(owner).value;
    hide Frozen, Keyed, Closed, DistinctOwners;
    if b in q.parents {
      assert OwnerCovered(s.invocations, turn, q, b);
    }
  }

  lemma ClimbKeeps(s: State, c: Climber, v: Item, foreign: set<Id>)
    requires Inv(s) && Closed(s.invocations) && ClimberOk(s.invocations, c)
    requires ClimbItem(s, c.turn, Attempt(c.root), c.parents, v, foreign).Some?
    ensures ClimberOk(s.invocations, c.(parents := ClimbItem(s, c.turn, Attempt(c.root), c.parents, v, foreign).value))
  {
    hide Inherit, Closed, OwnerCovered, DistinctOwners, Fits, RootKnown;
    var root := Attempt(c.root);
    var more := Inherit(s, c.turn, root, v, foreign).value;
    var parents := ClimbItem(s, c.turn, root, c.parents, v, foreign).value;
    GatherDistinct(root, c.parents, more);
    var p := RootBinding(root, parents);
    forall b | b in parents ensures OwnerCovered(s.invocations, c.turn, p, b) {
      if b in more {
        InheritCovered(s, c.turn, root, v, foreign, p, b);
      } else {
        CoveredWider(s.invocations, c.turn, RootBinding(root, c.parents), p, b);
      }
    }
  }

  lemma CoveredWider(m: Invocations, turn: Id, p: RootBinding, q: RootBinding, b: Binding)
    requires OwnerCovered(m, turn, p, b) && p.root == q.root && forall a :: a in p.parents ==> a in q.parents
    ensures OwnerCovered(m, turn, q, b)
  {
    hide Frozen;
  }

  lemma BeginOk(s: State, turn: Id, parent: Id, root: Id)
    requires Inv(s) && root in s.invocations && Roots(s.invocations[root], turn) && parent != Empty
    ensures ClimberOk(s.invocations, Climber(turn, parent, s.invocations[root], parent, {}, [], 0, []))
  {
    assert s.invocations[root].id == root && ValidInvocation(s.invocations[root]);
  }

  lemma AdmitStep(y: Sys, l: Label)
    requires SysInv(y) && l.Admit? && l.w in y.climbers && y.climbers[l.w].cursor == Empty
    requires Sealable(l.draft.input, l.draft.inputHash, y.climbers[l.w].root, y.climbers[l.w].parents)
    ensures SysInv(y.(store := Step(y.store, DoCreate(Sealed(y.climbers[l.w], l.draft)))))
  {
    hide Inv, Closed, Covered, DistinctOwners, Legal, Commit, Step, Seal, Frozen;
    var c := y.climbers[l.w];
    var v := Sealed(c, l.draft);
    assert ClimberOk(y.store.invocations, c);
    SealRoundTrip(l.draft.input, l.draft.inputHash, c.root, c.parents, v);
    CreateLegal(y.store, v);
    if CreateInvocation(y.store, v).Ok? && CreateInvocation(y.store, v).value.1 {
      AdmitKeeps(y, l.w, v);
    }
  }

  lemma CreateLegal(s: State, v: Invocation)
    ensures if CreateInvocation(s, v).Ok? && CreateInvocation(s, v).value.1
            then Legal(s, PutFresh(v)) && Step(s, DoCreate(v)) == Commit(s, PutFresh(v))
            else Step(s, DoCreate(v)) == s
  {
    hide ActiveFence, OtherRoot, RefTaken;
  }

  lemma NextKeeps(y: Sys, l: Label)
    requires SysInv(y)
    ensures SysInv(Next(y, l))
  {
    hide Inv, Closed, ClimberOk, Legal, Commit, Step, ClimbItem, Sealable, LiveParent, KernelAgrees, Roots;
    if l.Env? {
      if Legal(y.store, l.write) && (l.write.PutFresh? ==> l.write.invocation.parent == Empty) { WriteKeeps(y, l.write); }
    } else if l.Begin? {
      if l.parent != Empty && l.root in y.store.invocations && Roots(y.store.invocations[l.root], l.turn) {
        BeginOk(y.store, l.turn, l.parent, l.root);
      }
    } else if l.w in y.climbers {
      var c := y.climbers[l.w];
      if l.ClimbNext? && c.cursor in y.store.itemIds {
        var v := y.store.itemIds[c.cursor];
        if ClimbItem(y.store, c.turn, Attempt(c.root), c.parents, v, l.foreign).Some? {
          ClimbKeeps(y.store, c, v, l.foreign);
          var parents := ClimbItem(y.store, c.turn, Attempt(c.root), c.parents, v, l.foreign).value;
          SameClimb(y.store.invocations, c.(parents := parents), v.parent, c.seen + {c.cursor}, c.checked, c.passed + [v]);
        }
      } else if l.CheckNext? {
        SameClimb(y.store.invocations, c, c.cursor, c.seen, c.checked + 1, c.passed);
      } else if l.Admit? && c.cursor == Empty && Sealable(l.draft.input, l.draft.inputHash, c.root, c.parents) {
        AdmitStep(y, l);
      }
    }
  }

  lemma SameClimb(m: Invocations, c: Climber, cursor: Id, seen: set<Id>, checked: nat, passed: seq<Item>)
    requires ClimberOk(m, c)
    ensures ClimberOk(m, c.(cursor := cursor, seen := seen, checked := checked, passed := passed))
  {
    hide Covered, DistinctOwners;
  }

  lemma {:induction false} StepsKeep(labels: seq<Label>)
    ensures SysInv(Steps(START, labels))
  {
    hide Next, SysInv;
    if labels == [] {
      StartOk();
    } else {
      StepsKeep(labels[..|labels| - 1]);
      NextKeeps(Steps(START, labels[..|labels| - 1]), labels[|labels| - 1]);
    }
  }

  lemma StartOk()
    ensures SysInv(START)
  {
  }

  /** Every admitted child's frozen ancestry is transitively closed and duplicate-free, whatever
      interleaved with its admission: each frozen parent is a child of the same Turn and the same root
      Attempt, everything frozen into that parent is frozen into the child, no Invocation is its own
      ancestor, and a parent always has strictly fewer frozen ancestors than its child. */
  lemma FrozenAncestryClosed(labels: seq<Label>, id: Id, b: Binding)
    requires var m := Steps(START, labels).store.invocations; id in m && m[id].parent != Empty
    ensures var m := Steps(START, labels).store.invocations;
            && Frozen(m[id]).Some? && DistinctOwners(Frozen(m[id]).value)
            && RootKnown(m, m[id].turn, Frozen(m[id]).value.root)
            && (b in Frozen(m[id]).value.parents ==>
                  && b.invocation != id && Reached(m, b) && m[b.invocation].turn == m[id].turn
                  && Frozen(m[b.invocation]).Some? && Frozen(m[b.invocation]).value.root == Frozen(m[id]).value.root
                  && (forall a :: a in Frozen(m[b.invocation]).value.parents ==> a in Frozen(m[id]).value.parents)
                  && |Frozen(m[b.invocation]).value.parents| < |Frozen(m[id]).value.parents|)
  {
    hide Steps, Inv;
    StepsKeep(labels);
    var m := Steps(START, labels).store.invocations;
    assert ChildClosed(m, id);
    var p := Frozen(m[id]).value;
    if b in p.parents {
      assert OwnerCovered(m, m[id].turn, p, b);
      assert ChildClosed(m, b.invocation);
      FewerAncestors(Frozen(m[b.invocation]).value, p, b);
    }
  }

  /** A duplicate-free list inside another that has one more owner is shorter. */
  lemma FewerAncestors(q: RootBinding, p: RootBinding, b: Binding)
    requires DistinctOwners(q) && DistinctOwners(p) && b in p.parents
    requires forall a :: a in q.parents ==> a in p.parents && a.invocation != b.invocation
    ensures |q.parents| < |p.parents|
  {
    var inner, outer := (set a | a in q.parents), (set a | a in p.parents);
    DistinctSize(q);
    DistinctSize(p);
    assert inner <= outer - {b};
    SubsetSize(inner, outer - {b});
  }

  lemma {:induction false} DistinctSize(p: RootBinding)
    requires DistinctOwners(p)
    ensures |(set a | a in p.parents)| == |p.parents|
    decreases |p.parents|
  {
    hide DistinctOwners;
    if p.parents != [] {
      var front, last := p.parents[..|p.parents| - 1], p.parents[|p.parents| - 1];
      LastOwner(p);
      DistinctSize(RootBinding(p.root, front));
      assert (set a | a in p.parents) == (set a | a in front) + {last};
    }
  }

  lemma LastOwner(p: RootBinding)
    requires DistinctOwners(p) && p.parents != []
    ensures DistinctOwners(RootBinding(p.root, p.parents[..|p.parents| - 1]))
    ensures p.parents[|p.parents| - 1] !in p.parents[..|p.parents| - 1]
  {
  }
}
