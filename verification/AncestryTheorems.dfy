/**
 What an admitted child has frozen, over every run: exactly the owners on its Item chain and everything
 frozen into them, each found running its Attempt before the child was admitted.
 */
module AncestryTheorems {
  import opened Records
  import opened Ledger
  import opened ChildRoot
  import opened Admission
  import opened StoreInvariant
  import opened ItemChain
  import opened ParentCheck
  import opened Ancestry

  // ---------------------------------------------------------------- every owner is frozen

  /** The proof names an Attempt of every owner among these Items but the root. */
  ghost predicate NamesOwners(items: seq<Item>, p: RootBinding) {
    forall v :: v in items && v.invocation !in {Empty, p.root.invocation} ==>
      exists b :: b in p.parents && b.invocation == v.invocation
  }

  /** Every parent of the proof owns one of these Items or is frozen into one that does. */
  ghost predicate OwnedBy(m: Invocations, items: seq<Item>, b: Binding) {
    exists v :: v in items && v.invocation in m &&
                (v.invocation == b.invocation || (Frozen(m[v.invocation]).Some? && b in Frozen(m[v.invocation]).value.parents))
  }

  ghost predicate FrozenFrom(m: Invocations, items: seq<Item>, p: RootBinding) {
    NamesOwners(items, p) && forall b :: b in p.parents ==> OwnedBy(m, items, b)
  }

  ghost predicate ChildTraced(byId: map<Id, Item>, m: Invocations, id: Id) {
    id in m && m[id].parent != Empty ==>
      && Frozen(m[id]).Some? && Chain(byId, m[id].parent, {}).Some?
      && FrozenFrom(m, Chain(byId, m[id].parent, {}).value, Frozen(m[id]).value)
  }

  ghost predicate ClimberTraced(byId: map<Id, Item>, m: Invocations, c: Climber) {
    && Path(byId, c.parent, c.passed, c.cursor, c.seen) && c.parent != Empty
    && FrozenFrom(m, c.passed, RootBinding(Attempt(c.root), c.parents))
  }

  ghost predicate Traced(y: Sys) {
    && (forall id :: ChildTraced(y.store.itemIds, y.store.invocations, id))
    && (forall w :: w in y.climbers ==> ClimberTraced(y.store.itemIds, y.store.invocations, y.climbers[w]))
  }

  ghost predicate ItemsGrow(byId: map<Id, Item>, more: map<Id, Item>) {
    forall k :: k in byId ==> k in more && more[k] == byId[k]
  }

  lemma FrozenFromGrows(m: Invocations, n: Invocations, items: seq<Item>, p: RootBinding)
    requires Grows(m, n) && FrozenFrom(m, items, p)
    ensures FrozenFrom(n, items, p)
  {
    forall b | b in p.parents ensures OwnedBy(n, items, b) {
      assert OwnedBy(m, items, b);
      var v :| v in items && v.invocation in m &&
               (v.invocation == b.invocation || (Frozen(m[v.invocation]).Some? && b in Frozen(m[v.invocation]).value.parents));
      assert SameOwner(m[v.invocation], n[v.invocation]);
    }
  }

  lemma ChildGrown(byId: map<Id, Item>, more: map<Id, Item>, m: Invocations, n: Invocations, id: Id)
    requires ItemsGrow(byId, more) && Grows(m, n) && id in m && ChildTraced(byId, m, id)
    ensures ChildTraced(more, n, id)
  {
    hide FrozenFrom, Chain;
    assert SameOwner(m[id], n[id]);
    if m[id].parent != Empty {
      ChainStable(byId, more, m[id].parent, {});
      FrozenFromGrows(m, n, Chain(byId, m[id].parent, {}).value, Frozen(m[id]).value);
    }
  }

  lemma ClimberGrown(byId: map<Id, Item>, more: map<Id, Item>, m: Invocations, n: Invocations, c: Climber)
    requires ItemsGrow(byId, more) && Grows(m, n) && ClimberTraced(byId, m, c)
    ensures ClimberTraced(more, n, c)
  {
    hide FrozenFrom, Path;
    PathGrows(byId, more, c.parent, c.passed, c.cursor, c.seen);
    FrozenFromGrows(m, n, c.passed, RootBinding(Attempt(c.root), c.parents));
  }

  lemma ItemsCommit(s: State, w: Write)
    requires Legal(s, w)
    ensures ItemsGrow(s.itemIds, Commit(s, w).itemIds)
  {
    hide Admits, ActiveFence, Pending, RetryAdmitted, OtherRoot, RefTaken, Updates;
  }

  lemma WriteTraced(y: Sys, w: Write)
    requires SysInv(y) && Traced(y) && Legal(y.store, w) && (w.PutFresh? ==> w.invocation.parent == Empty)
    ensures Traced(y.(store := Commit(y.store, w)))
  {
    hide Legal, Commit, ChildTraced, ClimberTraced, Inv, Closed, ClimberOk;
    ItemsCommit(y.store, w);
    GrowsCommit(y.store, w);
    var s, s' := y.store, Commit(y.store, w);
    forall id ensures ChildTraced(s'.itemIds, s'.invocations, id) {
      if id in s.invocations {
        ChildGrown(s.itemIds, s'.itemIds, s.invocations, s'.invocations, id);
      } else {
        RootTraced(s, w, id);
      }
    }
    forall k | k in y.climbers ensures ClimberTraced(s'.itemIds, s'.invocations, y.climbers[k]) {
      ClimberGrown(s.itemIds, s'.itemIds, s.invocations, s'.invocations, y.climbers[k]);
    }
  }

  lemma RootTraced(s: State, w: Write, id: Id)
    requires Legal(s, w) && id !in s.invocations && (w.PutFresh? ==> w.invocation.parent == Empty)
    ensures ChildTraced(Commit(s, w).itemIds, Commit(s, w).invocations, id)
  {
    hide Legal, Commit;
    if id in Commit(s, w).invocations { FreshOnly(s, w, id); }
  }

  /** One more Item: its owner's Attempt joins the list, with everything frozen into that owner. */
  lemma ClimbTraced(y: Sys, c: Climber, foreign: set<Id>)
    requires SysInv(y) && ClimberTraced(y.store.itemIds, y.store.invocations, c)
    requires c.cursor != Empty && c.cursor !in c.seen && c.cursor in y.store.itemIds
    requires ClimbItem(y.store, c.turn, Attempt(c.root), c.parents, y.store.itemIds[c.cursor], foreign).Some?
    ensures var v := y.store.itemIds[c.cursor];
            var parents := ClimbItem(y.store, c.turn, Attempt(c.root), c.parents, v, foreign).value;
            ClimberTraced(y.store.itemIds, y.store.invocations,
                          c.(cursor := v.parent, seen := c.seen + {c.cursor}, parents := parents, passed := c.passed + [v]))
  {
    hide SysInv, Frozen, Inherit, Gather, NamesOwners, OwnedBy;
    var s, v := y.store, y.store.itemIds[c.cursor];
    StoreSound(y);
    ItemAt(s, c.cursor);
    PathStep(s.itemIds, c, v);
    var root := Attempt(c.root);
    var more := Inherit(s, c.turn, root, v, foreign).value;
    var parents := ClimbItem(s, c.turn, root, c.parents, v, foreign).value;
    InheritOwner(s, c.turn, root, v, foreign);
    NamesMore(c.passed, v, RootBinding(root, c.parents), RootBinding(root, parents));
    forall b | b in parents ensures OwnedBy(s.invocations, c.passed + [v], b) {
      if b in more { OwnedLast(s.invocations, c.passed, v, b); } else { OwnedMore(s.invocations, c.passed, v, b); }
    }
  }

  lemma StoreSound(y: Sys)
    requires SysInv(y)
    ensures Inv(y.store) && Keyed(y.store.invocations)
  {
    hide Closed, ClimberOk, Keyed, LedgerInv;
  }

  lemma PathStep(byId: map<Id, Item>, c: Climber, v: Item)
    requires Path(byId, c.parent, c.passed, c.cursor, c.seen)
    requires c.cursor != Empty && c.cursor !in c.seen && c.cursor in byId && byId[c.cursor] == v && v.id == c.cursor
    ensures Path(byId, c.parent, c.passed + [v], v.parent, c.seen + {c.cursor})
  {
    assert (c.passed + [v])[..|c.passed|] == c.passed && c.seen + {c.cursor} - {c.cursor} == c.seen;
  }

  /** What an owned Item contributes: its owner's Attempt first, and only what is frozen into that owner. */
  lemma InheritOwner(s: State, turn: Id, root: Binding, v: Item, foreign: set<Id>)
    requires Keyed(s.invocations) && Inherit(s, turn, root, v, foreign).Some?
    ensures v.invocation !in {Empty, root.invocation} ==>
              exists b :: b in Inherit(s, turn, root, v, foreign).value && b.invocation == v.invocation
    ensures forall b :: b in Inherit(s, turn, root, v, foreign).value ==>
              && v.invocation in s.invocations
              && (b.invocation == v.invocation ||
                  (Frozen(s.invocations[v.invocation]).Some? && b in Frozen(s.invocations[v.invocation]).value.parents))
  {
    hide Frozen;
    if v.invocation !in {Empty, root.invocation} {
      assert Attempt(s.invocations[v.invocation]) in Inherit(s, turn, root, v, foreign).value;
    }
  }

  lemma NamesMore(passed: seq<Item>, v: Item, p: RootBinding, q: RootBinding)
    requires NamesOwners(passed, p) && p.root == q.root && forall b :: b in p.parents ==> b in q.parents
    requires v.invocation !in {Empty, q.root.invocation} ==> exists b :: b in q.parents && b.invocation == v.invocation
    ensures NamesOwners(passed + [v], q)
  {
  }

  lemma OwnedMore(m: Invocations, passed: seq<Item>, v: Item, b: Binding)
    requires OwnedBy(m, passed, b)
    ensures OwnedBy(m, passed + [v], b)
  {
    hide Frozen;
    var u :| u in passed && u.invocation in m &&
             (u.invocation == b.invocation || (Frozen(m[u.invocation]).Some? && b in Frozen(m[u.invocation]).value.parents));
    assert u in passed + [v];
  }

  lemma OwnedLast(m: Invocations, passed: seq<Item>, v: Item, b: Binding)
    requires v.invocation in m
    requires v.invocation == b.invocation || (Frozen(m[v.invocation]).Some? && b in Frozen(m[v.invocation]).value.parents)
    ensures OwnedBy(m, passed + [v], b)
  {
    hide Frozen;
    assert v in passed + [v];
  }

  lemma ItemAt(s: State, id: Id)
    requires Inv(s) && id in s.itemIds
    ensures s.itemIds[id].id == id
  {
    hide Keyed, RefsAgree, OneRoot, LedgerInv;
    assert Found(s.items, id, s.itemIds[id]);
  }

  lemma AdmitTraced(y: Sys, w: nat, v: Invocation)
    requires SysInv(y) && Traced(y) && w in y.climbers && y.climbers[w].cursor == Empty && Legal(y.store, PutFresh(v))
    requires v.parent == y.climbers[w].parent
    requires Frozen(v) == Some(RootBinding(Attempt(y.climbers[w].root), y.climbers[w].parents))
    ensures Traced(y.(store := Commit(y.store, PutFresh(v))))
  {
    hide Legal, Inv, Frozen, Commit, Closed, ClimberOk, FrozenFrom, Chain, Path, Whole;
    var s, s', c := y.store, Commit(y.store, PutFresh(v)), y.climbers[w];
    ItemsCommit(s, PutFresh(v));
    GrowsCommit(s, PutFresh(v));
    Fresh(s, v);
    assert ClimberTraced(s.itemIds, s.invocations, c);
    PathGrows(s.itemIds, s'.itemIds, c.parent, c.passed, c.cursor, c.seen);
    PathWhole(s'.itemIds, c.parent, c.passed, c.cursor, c.seen);
    WholeEnd(s'.itemIds, c.passed, c.seen);
    FrozenFromGrows(s.invocations, s'.invocations, c.passed, RootBinding(Attempt(c.root), c.parents));
    forall id ensures ChildTraced(s'.itemIds, s'.invocations, id) {
      if id in s.invocations {
        assert ChildTraced(s.itemIds, s.invocations, id);
        ChildGrown(s.itemIds, s'.itemIds, s.invocations, s'.invocations, id);
      }
    }
    forall k | k in y.climbers ensures ClimberTraced(s'.itemIds, s'.invocations, y.climbers[k]) {
      ClimberGrown(s.itemIds, s'.itemIds, s.invocations, s'.invocations, y.climbers[k]);
    }
  }

  lemma AdmitStepTraced(y: Sys, l: Label)
    requires SysInv(y) && Traced(y) && l.Admit? && l.w in y.climbers && y.climbers[l.w].cursor == Empty
    requires Sealable(l.draft.input, l.draft.inputHash, y.climbers[l.w].root, y.climbers[l.w].parents)
    ensures Traced(y.(store := Step(y.store, DoCreate(Sealed(y.climbers[l.w], l.draft)))))
  {
    hide SysInv, Legal, Commit, Step, Seal, Frozen, ChildTraced, DistinctOwners;
    var c := y.climbers[l.w];
    var v := Sealed(c, l.draft);
    assert ClimberTraced(y.store.itemIds, y.store.invocations, c);
    SealRoundTrip(l.draft.input, l.draft.inputHash, c.root, c.parents, v);
    CreateLegal(y.store, v);
    if CreateInvocation(y.store, v).Ok? && CreateInvocation(y.store, v).value.1 {
      AdmitTraced(y, l.w, v);
    }
  }

  lemma NextTraced(y: Sys, l: Label)
    requires SysInv(y) && Traced(y)
    ensures Traced(Next(y, l))
  {
    hide SysInv, ChildTraced, ClimberTraced, Legal, Commit, Step, ClimbItem, Sealable, LiveParent, KernelAgrees, Roots;
    if l.Env? {
      if Legal(y.store, l.write) && (l.write.PutFresh? ==> l.write.invocation.parent == Empty) { WriteTraced(y, l.write); }
    } else if l.Begin? {
      if l.parent != Empty && l.root in y.store.invocations {
        BeginTraced(y.store, l.turn, l.parent, l.root);
      }
    } else if l.w in y.climbers {
      var c := y.climbers[l.w];
      if l.ClimbNext? && c.cursor != Empty && c.cursor !in c.seen && c.cursor in y.store.itemIds {
        if ClimbItem(y.store, c.turn, Attempt(c.root), c.parents, y.store.itemIds[c.cursor], l.foreign).Some? {
          ClimbTraced(y, c, l.foreign);
        }
      } else if l.CheckNext? {
        CheckedTraced(y.store.itemIds, y.store.invocations, c);
      } else if l.Admit? && c.cursor == Empty && Sealable(l.draft.input, l.draft.inputHash, c.root, c.parents) {
        AdmitStepTraced(y, l);
      }
    }
  }

  lemma BeginTraced(s: State, turn: Id, parent: Id, root: Id)
    requires root in s.invocations && parent != Empty
    ensures ClimberTraced(s.itemIds, s.invocations, Climber(turn, parent, s.invocations[root], parent, {}, [], 0, []))
  {
  }

  lemma CheckedTraced(byId: map<Id, Item>, m: Invocations, c: Climber)
    requires ClimberTraced(byId, m, c)
    ensures ClimberTraced(byId, m, c.(checked := c.checked + 1))
  {
    hide FrozenFrom, Path;
  }

  lemma {:induction false} StepsTraced(labels: seq<Label>)
    ensures Traced(Steps(START, labels))
  {
    hide Next, SysInv, Traced;
    if labels == [] {
      StartTraced();
    } else {
      StepsTraced(labels[..|labels| - 1]);
      StepsKeep(labels[..|labels| - 1]);
      NextTraced(Steps(START, labels[..|labels| - 1]), labels[|labels| - 1]);
    }
  }

  lemma StartTraced()
    ensures Traced(START)
  {
  }

  /** Over every run, the Items above an admitted child form a complete chain; the child has frozen an Attempt
      of each of their owners but the root, and everything frozen into that owner; and it has frozen nobody
      else: each frozen parent owns an Item of the chain or is frozen into one that does. */
  lemma EveryOwnerFrozen(labels: seq<Label>, id: Id, v: Item, b: Binding)
    requires var m := Steps(START, labels).store.invocations; id in m && m[id].parent != Empty
    ensures var s := Steps(START, labels).store;
            Frozen(s.invocations[id]).Some? && Chain(s.itemIds, s.invocations[id].parent, {}).Some?
    ensures var s := Steps(START, labels).store;
            var p, chain := Frozen(s.invocations[id]).value, Chain(s.itemIds, s.invocations[id].parent, {}).value;
            v in chain && v.invocation !in {Empty, p.root.invocation} ==>
              exists a :: a in p.parents && a.invocation == v.invocation && v.invocation in s.invocations &&
                          Frozen(s.invocations[v.invocation]).Some? &&
                          forall q :: q in Frozen(s.invocations[v.invocation]).value.parents ==> q in p.parents
    ensures var s := Steps(START, labels).store;
            b in Frozen(s.invocations[id]).value.parents ==>
              OwnedBy(s.invocations, Chain(s.itemIds, s.invocations[id].parent, {}).value, b)
  {
    hide Steps, Chain, Frozen, OwnedBy;
    StepsTraced(labels);
    var s := Steps(START, labels).store;
    assert ChildTraced(s.itemIds, s.invocations, id);
    var p, chain := Frozen(s.invocations[id]).value, Chain(s.itemIds, s.invocations[id].parent, {}).value;
    if v in chain && v.invocation !in {Empty, p.root.invocation} {
      var a :| a in p.parents && a.invocation == v.invocation;
      FrozenAncestryClosed(labels, id, a);
    }
  }

  // ---------------------------------------------------------------- every frozen parent was running

  /** At some moment of the run the Attempt was the stored one of an unfinished child of this Turn. */
  ghost predicate WasRunning(labels: seq<Label>, turn: Id, b: Binding) {
    exists n :: 0 <= n <= |labels| && RunningAt(Steps(START, labels[..n]).store, turn, b)
  }

  ghost predicate RunningAt(s: State, turn: Id, b: Binding) {
    RunsAttempt(s, turn, b) && s.invocations[b.invocation].parent != Empty
  }

  ghost predicate ClimberChecked(labels: seq<Label>, c: Climber) {
    && c.checked <= |c.parents| && (c.checked > 0 ==> c.cursor == Empty)
    && forall k :: 0 <= k < c.checked ==> WasRunning(labels, c.turn, c.parents[k])
  }

  ghost predicate ChildChecked(labels: seq<Label>, v: Invocation) {
    v.parent != Empty && Frozen(v).Some? ==> forall b :: b in Frozen(v).value.parents ==> WasRunning(labels, v.turn, b)
  }

  ghost predicate Checked(labels: seq<Label>) {
    var y := Steps(START, labels);
    && (forall w :: w in y.climbers ==> ClimberChecked(labels, y.climbers[w]))
    && (forall id :: id in y.store.invocations ==> ChildChecked(labels, y.store.invocations[id]))
  }

  lemma WasStill(labels: seq<Label>, turn: Id, b: Binding)
    requires labels != [] && WasRunning(labels[..|labels| - 1], turn, b)
    ensures WasRunning(labels, turn, b)
  {
    hide RunningAt, Steps;
    var front := labels[..|labels| - 1];
    var n :| 0 <= n <= |front| && RunningAt(Steps(START, front[..n]).store, turn, b);
    assert front[..n] == labels[..n];
  }

  lemma WasNow(labels: seq<Label>, turn: Id, b: Binding)
    requires labels != [] && RunningAt(Steps(START, labels[..|labels| - 1]).store, turn, b)
    ensures WasRunning(labels, turn, b)
  {
  }

  /** One more parent is checked off: it runs its Attempt and, unless it is an Application, the Kernel knows its Run. */
  ghost predicate ChecksOff(s: State, l: Label, w: nat, c: Climber, d: Climber) {
    && l.CheckNext? && l.w == w && c.cursor == Empty && c.checked < |c.parents| && d == c.(checked := c.checked + 1)
    && RunningAt(s, c.turn, c.parents[c.checked])
    && (c.parents[c.checked] !in l.dead || s.invocations[c.parents[c.checked].invocation].executionClass == Application)
  }

  /** Where a climber of the next state comes from. */
  lemma NextClimber(y: Sys, l: Label, w: nat)
    requires w in Next(y, l).climbers
    ensures var d := Next(y, l).climbers[w];
            || (w in y.climbers && d == y.climbers[w]) || (d.checked == 0 && d.parents == [])
            || (w in y.climbers && y.climbers[w].cursor != Empty && d.checked == y.climbers[w].checked)
            || (w in y.climbers && ChecksOff(y.store, l, w, y.climbers[w], d))
  {
    hide Legal, Commit, Step, ClimbItem, Sealable, Roots, LiveParent, RunsAttempt, Sealed;
    if w in y.climbers && y.climbers[w].checked < |y.climbers[w].parents| {
      var c := y.climbers[w];
      LiveMeans(y.store, c.root, c.turn, c.parents[c.checked]);
    }
  }

  /** Where a child of the next state comes from. */
  lemma NextChild(y: Sys, l: Label, id: Id)
    requires SysInv(y) && id in Next(y, l).store.invocations && Next(y, l).store.invocations[id].parent != Empty
    ensures var v := Next(y, l).store.invocations[id];
            || (id in y.store.invocations && SameOwner(y.store.invocations[id], v))
            || (&& l.Admit? && l.w in y.climbers && y.climbers[l.w].cursor == Empty
                && y.climbers[l.w].checked >= |y.climbers[l.w].parents| && v.turn == y.climbers[l.w].turn
                && Frozen(v) == Some(RootBinding(Attempt(y.climbers[l.w].root), y.climbers[l.w].parents)))
  {
    hide SysInv, Legal, Commit, Step, ClimbItem, Sealable, KernelAgrees, Roots, LiveParent, Frozen, Seal, SameOwner, Sealed;
    StoreSound(y);
    if l.Env? {
      if Legal(y.store, l.write) {
        if id in y.store.invocations { InvocationCommit(y.store, l.write, id); } else { Refresh(y.store, l.write, id); }
      }
    }
    if id in y.store.invocations { SameSelf(y.store.invocations[id]); }
    if l.Admit? && l.w in y.climbers {
      var c := y.climbers[l.w];
      if c.cursor == Empty && c.checked >= |c.parents| && Sealable(l.draft.input, l.draft.inputHash, c.root, c.parents) {
        ClimberChild(y, l.w);
        Admitted(y.store, c, l.draft, id);
      }
    }
  }

  lemma ClimberChild(y: Sys, w: nat)
    requires SysInv(y) && w in y.climbers
    ensures y.climbers[w].parent != Empty
  {
    hide Inv, Closed, Covered, DistinctOwners;
    assert ClimberOk(y.store.invocations, y.climbers[w]);
  }

  lemma Refresh(s: State, w: Write, id: Id)
    requires Legal(s, w) && id !in s.invocations
    ensures id in Commit(s, w).invocations ==> w == PutFresh(Commit(s, w).invocations[id])
  {
    hide Legal, Commit;
    if id in Commit(s, w).invocations { FreshOnly(s, w, id); }
  }

  lemma SameSelf(v: Invocation)
    ensures SameOwner(v, v)
  {
  }

  /** A child that was not stored before starts unclaimed at its first Attempt, with the climbed ancestry. */
  lemma Admitted(s: State, c: Climber, draft: Invocation, id: Id)
    requires Inv(s) && c.parent != Empty && Sealable(draft.input, draft.inputHash, c.root, c.parents)
    requires id in Step(s, DoCreate(Sealed(c, draft))).invocations
    ensures var v := Step(s, DoCreate(Sealed(c, draft))).invocations[id];
            (id in s.invocations && SameOwner(s.invocations[id], v)) ||
            (&& v.turn == c.turn && v.parent == c.parent && v.status == Accepted && v.attempt == 1 && v.revision == 1
             && Frozen(v) == Some(RootBinding(Attempt(c.root), c.parents)))
  {
    hide Inv, Legal, Commit, Step, Frozen, Seal, SameOwner, DistinctOwners;
    var v := Sealed(c, draft);
    CreateLegal(s, v);
    if id in s.invocations { SameSelf(s.invocations[id]); }
    if CreateInvocation(s, v).Ok? && CreateInvocation(s, v).value.1 {
      Fresh(s, v);
      SealRoundTrip(draft.input, draft.inputHash, c.root, c.parents, v);
    }
  }

  lemma {:induction false} StepsChecked(labels: seq<Label>)
    ensures Checked(labels)
  {
    hide Next, SysInv, WasRunning, Frozen, SameOwner, RunningAt;
    if labels != [] {
      var front, l := labels[..|labels| - 1], labels[|labels| - 1];
      StepsChecked(front);
      StepsKeep(front);
      var y, z := Steps(START, front), Steps(START, labels);
      forall w | w in z.climbers ensures ClimberChecked(labels, z.climbers[w]) { ClimberStep(labels, w); }
      forall id | id in z.store.invocations ensures ChildChecked(labels, z.store.invocations[id]) { ChildStep(labels, id); }
    }
  }

  lemma ClimberStep(labels: seq<Label>, w: nat)
    requires labels != [] && Checked(labels[..|labels| - 1]) && w in Steps(START, labels).climbers
    ensures ClimberChecked(labels, Steps(START, labels).climbers[w])
  {
    hide Next, WasRunning, ChildChecked, ChecksOff, ClimberChecked;
    var front, l := labels[..|labels| - 1], labels[|labels| - 1];
    var y, d := Steps(START, front), Steps(START, labels).climbers[w];
    NextClimber(y, l, w);
    if d.checked == 0 && d.parents == [] {
      Unchecked(labels, d);
    } else if ChecksOff(y.store, l, w, y.climbers[w], d) {
      CheckedMore(labels, y.climbers[w], d, w);
    } else if d == y.climbers[w] {
      CheckedStill(labels, d);
    } else {
      Uncheckable(front, y.climbers[w]);
      Unchecked(labels, d);
    }
  }

  lemma Unchecked(labels: seq<Label>, c: Climber)
    requires c.checked == 0
    ensures ClimberChecked(labels, c)
  {
  }

  lemma Uncheckable(labels: seq<Label>, c: Climber)
    requires ClimberChecked(labels, c) && c.cursor != Empty
    ensures c.checked == 0
  {
  }

  lemma CheckedStill(labels: seq<Label>, c: Climber)
    requires labels != [] && ClimberChecked(labels[..|labels| - 1], c)
    ensures ClimberChecked(labels, c)
  {
    hide WasRunning;
    forall k | 0 <= k < c.checked ensures WasRunning(labels, c.turn, c.parents[k]) { WasStill(labels, c.turn, c.parents[k]); }
  }

  lemma CheckedMore(labels: seq<Label>, c: Climber, d: Climber, w: nat)
    requires labels != [] && ClimberChecked(labels[..|labels| - 1], c)
    requires ChecksOff(Steps(START, labels[..|labels| - 1]).store, labels[|labels| - 1], w, c, d)
    ensures ClimberChecked(labels, d)
  {
    hide WasRunning, RunningAt, Steps;
    CheckedStill(labels, c);
    WasNow(labels, c.turn, c.parents[c.checked]);
  }

  lemma ChildStep(labels: seq<Label>, id: Id)
    requires labels != [] && Checked(labels[..|labels| - 1]) && SysInv(Steps(START, labels[..|labels| - 1]))
    requires id in Steps(START, labels).store.invocations
    ensures ChildChecked(labels, Steps(START, labels).store.invocations[id])
  {
    hide Next, SysInv, WasRunning, RunningAt;
    var front, l := labels[..|labels| - 1], labels[|labels| - 1];
    var y, v := Steps(START, front), Steps(START, labels).store.invocations[id];
    if v.parent != Empty && Frozen(v).Some? {
      NextChild(y, l, id);
      forall b | b in Frozen(v).value.parents ensures WasRunning(labels, v.turn, b) {
        if id in y.store.invocations && SameOwner(y.store.invocations[id], v) {
          assert ChildChecked(front, y.store.invocations[id]);
          WasStill(labels, v.turn, b);
        } else {
          var c := y.climbers[l.w];
          assert ClimberChecked(front, c);
          var k :| 0 <= k < |c.parents| && c.parents[k] == b;
          WasStill(labels, v.turn, b);
        }
      }
    }
  }

  /** Over every run each Attempt frozen into an admitted child was, at some moment before, the stored Attempt of
      an unfinished, started child of that Turn. */
  lemma FrozenParentsWereRunning(labels: seq<Label>, id: Id, b: Binding)
    requires var m := Steps(START, labels).store.invocations;
             id in m && m[id].parent != Empty && Frozen(m[id]).Some? && b in Frozen(m[id]).value.parents
    ensures WasRunning(labels, Steps(START, labels).store.invocations[id].turn, b)
  {
    hide Steps, WasRunning, Frozen;
    StepsChecked(labels);
    assert ChildChecked(labels, Steps(START, labels).store.invocations[id]);
  }

  // ---------------------------------------------------------------- an undisturbed worker admits its child

  function Times(l: Label, n: nat): seq<Label> {
    if n == 0 then [] else Times(l, n - 1) + [l]
  }

  lemma TimesLast(y: Sys, l: Label, n: nat)
    requires n > 0
    ensures Steps(y, Times(l, n)) == Next(Steps(y, Times(l, n - 1)), l)
  {
    hide Next;
    assert (Times(l, n - 1) + [l])[..|Times(l, n - 1)|] == Times(l, n - 1);
  }

  lemma TimesNone(l: Label)
    ensures Times(l, 0) == []
  {
  }

  lemma StepsNone(y: Sys)
    ensures Steps(y, []) == y
  {
  }

  /** The climber after the first `n` Items of its chain. */
  ghost predicate Climbing(y: Sys, z: Sys, w: nat, chain: seq<Item>, n: nat, foreign: set<Id>)
    requires n <= |chain|
  {
    && w in y.climbers && z.store == y.store && z.climbers.Keys == y.climbers.Keys
    && var c, d := y.climbers[w], z.climbers[w];
       && d == c.(cursor := d.cursor, seen := d.seen, parents := d.parents, passed := chain[..n])
       && Climb(y.store, c.turn, Attempt(c.root), chain[..n], foreign) == Some(d.parents)
       && Path(y.store.itemIds, c.parent, chain[..n], d.cursor, d.seen)
  }

  lemma ClimbMore(y: Sys, z: Sys, w: nat, chain: seq<Item>, n: nat, foreign: set<Id>)
    requires SysInv(y) && n < |chain| && Climbing(y, z, w, chain, n, foreign)
    requires Chain(y.store.itemIds, y.climbers[w].parent, {}) == Some(chain)
    requires Climb(y.store, y.climbers[w].turn, Attempt(y.climbers[w].root), chain, foreign).Some?
    ensures Climbing(y, Next(z, ClimbNext(w, foreign)), w, chain, n + 1, foreign)
  {
    hide SysInv, Climb, Inherit, Gather, Path, LiveParent, KernelAgrees, Sealable, Step, Legal, Commit, Roots;
    var s, c, d := y.store, y.climbers[w], z.climbers[w];
    StoreSound(y);
    PathWhole(s.itemIds, c.parent, chain[..n], d.cursor, d.seen);
    assert d.cursor != Empty && d.cursor in s.itemIds && d.cursor !in d.seen && s.itemIds[d.cursor] == chain[n] by {
      NextItem(s.itemIds, chain, n, d.cursor, d.seen);
    }
    ItemAt(s, d.cursor);
    PathStep(s.itemIds, d, chain[n]);
    assert chain[..n] + [chain[n]] == chain[..n + 1];
    ClimbStep(s, c.turn, Attempt(c.root), chain, n, foreign);
  }

  lemma NextItem(byId: map<Id, Item>, chain: seq<Item>, n: nat, cursor: Id, seen: set<Id>)
    requires n < |chain| && Whole(chain[..n], Chain(byId, cursor, seen)) == Some(chain)
    ensures cursor != Empty && cursor in byId && cursor !in seen && byId[cursor] == chain[n]
  {
    var rest := Chain(byId, cursor, seen).value;
    assert chain[..n] + rest == chain;
    assert (chain[..n] + rest)[n] == rest[0];
  }

  lemma ClimbStep(s: State, turn: Id, root: Binding, chain: seq<Item>, n: nat, foreign: set<Id>)
    requires n < |chain| && Climb(s, turn, root, chain, foreign).Some?
    ensures Climb(s, turn, root, chain[..n], foreign).Some?
    ensures ClimbItem(s, turn, root, Climb(s, turn, root, chain[..n], foreign).value, chain[n], foreign).Some?
    ensures Climb(s, turn, root, chain[..n + 1], foreign) ==
            ClimbItem(s, turn, root, Climb(s, turn, root, chain[..n], foreign).value, chain[n], foreign)
  {
    hide Inherit, Gather;
    if Climb(s, turn, root, chain[..n], foreign).None? { ClimbPrefix(s, turn, root, chain, foreign, n); }
    if Climb(s, turn, root, chain[..n + 1], foreign).None? { ClimbPrefix(s, turn, root, chain, foreign, n + 1); }
    assert chain[..n + 1][..n] == chain[..n];
  }

  lemma {:induction false} ClimbAll(y: Sys, w: nat, chain: seq<Item>, n: nat, foreign: set<Id>)
    requires SysInv(y) && w in y.climbers && n <= |chain| && y.climbers[w].cursor == y.climbers[w].parent
    requires y.climbers[w].seen == {} && y.climbers[w].passed == [] && y.climbers[w].parents == []
    requires Chain(y.store.itemIds, y.climbers[w].parent, {}) == Some(chain)
    requires Climb(y.store, y.climbers[w].turn, Attempt(y.climbers[w].root), chain, foreign).Some?
    ensures Climbing(y, Steps(y, Times(ClimbNext(w, foreign), n)), w, chain, n, foreign)
  {
    hide Next, SysInv, Chain;
    if n == 0 {
      assert chain[..0] == [];
      StepsNone(y);
    } else {
      ClimbAll(y, w, chain, n - 1, foreign);
      TimesLast(y, ClimbNext(w, foreign), n);
      ClimbMore(y, Steps(y, Times(ClimbNext(w, foreign), n - 1)), w, chain, n - 1, foreign);
    }
  }

  lemma {:induction false} CheckAll(y: Sys, w: nat, n: nat, dead: set<Binding>)
    requires w in y.climbers && y.climbers[w].cursor == Empty && y.climbers[w].checked == 0 && n <= |y.climbers[w].parents|
    requires var c := y.climbers[w];
             forall b :: b in c.parents ==> LiveParent(y.store, c.turn, b) && KernelAgrees(y.store, b, dead)
    ensures Steps(y, Times(CheckNext(w, dead), n)) == y.(climbers := y.climbers[w := y.climbers[w].(checked := n)])
  {
    hide LiveParent, KernelAgrees, Next, Times, Steps;
    if n == 0 {
      assert Times(CheckNext(w, dead), 0) == [] by { TimesNone(CheckNext(w, dead)); }
      StepsNone(y);
      assert y.climbers[w := y.climbers[w].(checked := 0)] == y.climbers;
    } else {
      CheckAll(y, w, n - 1, dead);
      TimesLast(y, CheckNext(w, dead), n);
      var z := y.(climbers := y.climbers[w := y.climbers[w].(checked := n - 1)]);
      assert y.climbers[w].parents[n - 1] in y.climbers[w].parents;
      CheckOne(z, w, dead);
      assert z.climbers[w := y.climbers[w].(checked := n)] == y.climbers[w := y.climbers[w].(checked := n)];
    }
  }

  lemma CheckOne(y: Sys, w: nat, dead: set<Binding>)
    requires w in y.climbers && y.climbers[w].cursor == Empty && y.climbers[w].checked < |y.climbers[w].parents|
    requires var c := y.climbers[w];
             LiveParent(y.store, c.turn, c.parents[c.checked]) && KernelAgrees(y.store, c.parents[c.checked], dead)
    ensures Next(y, CheckNext(w, dead)) == y.(climbers := y.climbers[w := y.climbers[w].(checked := y.climbers[w].checked + 1)])
  {
    hide LiveParent, KernelAgrees, ClimbItem, Sealable, Step, Legal, Commit, Roots;
  }

  /** Nothing is refused that should be let through: a worker that begins below a complete chain whose climb
      succeeds, over parents that are all live, and is not disturbed, admits a child that has frozen exactly the
      climbed Attempts, whenever the draft may be sealed and the Store takes it. */
  lemma UndisturbedAdmits(y: Sys, w: nat, chain: seq<Item>, foreign: set<Id>, dead: set<Binding>, draft: Invocation)
    requires SysInv(y) && w in y.climbers
    requires var c := y.climbers[w];
             && c.cursor == c.parent && c.seen == {} && c.passed == [] && c.parents == [] && c.checked == 0
             && Chain(y.store.itemIds, c.parent, {}) == Some(chain)
             && Climb(y.store, c.turn, Attempt(c.root), chain, foreign).Some?
             && (forall b :: b in Climb(y.store, c.turn, Attempt(c.root), chain, foreign).value ==>
                   LiveParent(y.store, c.turn, b) && KernelAgrees(y.store, b, dead))
             && Sealable(draft.input, draft.inputHash, c.root, Climb(y.store, c.turn, Attempt(c.root), chain, foreign).value)
    ensures var c := y.climbers[w];
            var parents := Climb(y.store, c.turn, Attempt(c.root), chain, foreign).value;
            var climbed := Steps(y, Times(ClimbNext(w, foreign), |chain|));
            var checked := Steps(climbed, Times(CheckNext(w, dead), |parents|));
            var child := Sealed(c.(parents := parents), draft);
            && Next(checked, Admit(w, draft)).store == Step(y.store, DoCreate(child))
            && Frozen(child) == Some(RootBinding(Attempt(c.root), parents))
  {
    hide Next, SysInv, Climb, Chain, LiveParent, KernelAgrees, Step, Frozen, Seal, Path, Whole, DistinctOwners;
    var c := y.climbers[w];
    var parents := Climb(y.store, c.turn, Attempt(c.root), chain, foreign).value;
    ClimbAll(y, w, chain, |chain|, foreign);
    var z := Steps(y, Times(ClimbNext(w, foreign), |chain|));
    assert chain[..|chain|] == chain;
    PathWhole(y.store.itemIds, c.parent, chain, z.climbers[w].cursor, z.climbers[w].seen);
    ChainEnds(y.store.itemIds, chain, z.climbers[w].cursor, z.climbers[w].seen);
    CheckAll(z, w, |parents|, dead);
    var z' := Steps(z, Times(CheckNext(w, dead), |parents|));
    AdmitNow(z', w, draft);
    ClimberChild(y, w);
    SealRoundTrip(draft.input, draft.inputHash, c.root, parents, Sealed(c.(parents := parents), draft));
  }

  lemma ChainEnds(byId: map<Id, Item>, chain: seq<Item>, cursor: Id, seen: set<Id>)
    requires Whole(chain, Chain(byId, cursor, seen)) == Some(chain)
    ensures cursor == Empty
  {
    var rest := Chain(byId, cursor, seen).value;
    assert |chain + rest| == |chain|;
  }

  lemma AdmitNow(y: Sys, w: nat, draft: Invocation)
    requires w in y.climbers && y.climbers[w].cursor == Empty && y.climbers[w].checked >= |y.climbers[w].parents|
    requires Sealable(draft.input, draft.inputHash, y.climbers[w].root, y.climbers[w].parents)
    ensures Next(y, Admit(w, draft)).store == Step(y.store, DoCreate(Sealed(y.climbers[w], draft)))
  {
    hide Step, Legal, Commit, ClimbItem, LiveParent, KernelAgrees, Roots;
  }

  /** An idle worker may begin below any Item and under any live root, and every legal write of others that admits no child
      happens. */
  lemma BeginsAndWrites(y: Sys, w: nat, turn: Id, parent: Id, root: Id, write: Write)
    ensures w !in y.climbers && parent != Empty && root in y.store.invocations && Roots(y.store.invocations[root], turn) ==>
              Next(y, Begin(w, turn, parent, root)) ==
              y.(climbers := y.climbers[w := Climber(turn, parent, y.store.invocations[root], parent, {}, [], 0, [])])
    ensures w in y.climbers ==> Next(y, Begin(w, turn, parent, root)) == y
    ensures Legal(y.store, write) && (write.PutFresh? ==> write.invocation.parent == Empty) ==>
              Next(y, Env(write)) == y.(store := Commit(y.store, write))
  {
    hide Step, Legal, Commit, ClimbItem, LiveParent, KernelAgrees, Roots, Sealable;
  }
}
