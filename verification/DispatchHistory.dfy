/**
 What must have happened before an executor was entered: its grant was appended first, and only then was
 each frozen ancestor found running its frozen Attempt and the chain of Items above the child found sound.
 */
module DispatchHistory {
  import opened Records
  import opened Ledger
  import opened ChildRoot
  import opened Admission
  import opened StoreInvariant
  import opened ItemChain
  import opened ParentCheck
  import opened Dispatch
  import opened DispatchTheorems

  /** With the grant already stored, the Attempt was the stored one of an unfinished, started Invocation. */
  ghost predicate FoundLive(s: State, g: Item, b: Binding) {
    Stored(s, g) && RunsAttempt(s, g.turn, b)
  }

  ghost predicate WasLive(labels: seq<Label>, g: Item, b: Binding) {
    exists n :: 0 <= n <= |labels| && FoundLive(Steps(START, labels[..n]).store, g, b)
  }

  /** With the grant already stored, the Items above the child named only Invocations of its proof. */
  ghost predicate FoundSound(s: State, g: Item, v: Invocation) {
    Stored(s, g) && Frozen(v).Some? && exists foreign :: ChainNames(s, v, Frozen(v).value, foreign)
  }

  ghost predicate WasSound(labels: seq<Label>, g: Item, v: Invocation) {
    exists n :: 0 <= n <= |labels| && FoundSound(Steps(START, labels[..n]).store, g, v)
  }

  /** Everything a child depends on, but for `left`, has been found in order. */
  ghost predicate Vetted(labels: seq<Label>, g: Item, v: Invocation, left: seq<Binding>) {
    && (v.parent != Empty ==> WasSound(labels, g, v))
    && Dependencies(v).Some? && forall b :: b in Dependencies(v).value && b !in left ==> WasLive(labels, g, b)
  }

  ghost predicate History(labels: seq<Label>) {
    var y := Steps(START, labels);
    && (forall w :: w in y.workers && y.workers[w].Checking? ==>
          Vetted(labels, y.workers[w].grant, y.workers[w].inv, y.workers[w].left))
    && (forall id :: id in y.entered ==> EntryVetted(labels, id))
  }

  ghost predicate EntryVetted(labels: seq<Label>, id: Id) {
    var s := Steps(START, labels).store;
    && id in s.itemIds && s.itemIds[id].invocation in s.invocations
    && Vetted(labels, s.itemIds[id], s.invocations[s.itemIds[id].invocation], [])
  }

  lemma VettedStill(labels: seq<Label>, g: Item, v: Invocation, left: seq<Binding>)
    requires labels != [] && Vetted(labels[..|labels| - 1], g, v, left)
    ensures Vetted(labels, g, v, left)
  {
    hide FoundLive, FoundSound, Steps, Dependencies;
    var front := labels[..|labels| - 1];
    assert forall n :: 0 <= n <= |front| ==> front[..n] == labels[..n];
    if v.parent != Empty {
      var n :| 0 <= n <= |front| && FoundSound(Steps(START, front[..n]).store, g, v);
      assert FoundSound(Steps(START, labels[..n]).store, g, v);
    }
    forall b | b in Dependencies(v).value && b !in left ensures WasLive(labels, g, b) {
      assert WasLive(front, g, b);
      var n :| 0 <= n <= |front| && FoundLive(Steps(START, front[..n]).store, g, b);
      assert FoundLive(Steps(START, labels[..n]).store, g, b);
    }
  }

  lemma SameVetted(labels: seq<Label>, g: Item, v: Invocation, w: Invocation, left: seq<Binding>)
    requires Vetted(labels, g, v, left) && SameOwner(v, w)
    ensures Vetted(labels, g, w, left)
  {
    hide FoundLive, Steps;
    SameDependencies(v, w);
    if v.parent != Empty {
      var n :| 0 <= n <= |labels| && FoundSound(Steps(START, labels[..n]).store, g, v);
      SameSound(Steps(START, labels[..n]).store, g, v, w);
    }
  }

  lemma SameSound(s: State, g: Item, v: Invocation, w: Invocation)
    requires FoundSound(s, g, v) && SameOwner(v, w)
    ensures FoundSound(s, g, w)
  {
    var foreign :| ChainNames(s, v, Frozen(v).value, foreign);
    assert ChainNames(s, w, Frozen(w).value, foreign);
  }

  /** Where a checking worker of the next state comes from; one more ancestor is checked off only by a passing Kernel
      verdict on an ancestor found live. */
  lemma NextChecking(y: Sys, l: Label, w: nat)
    requires SysInv(y) && w in Next(y, l).workers && Next(y, l).workers[w].Checking?
    ensures w in y.workers
    ensures var pc, was := Next(y, l).workers[w], y.workers[w];
            || pc == was
            || (&& was.Walking? && pc.inv == was.inv && pc.grant == was.grant && Dependencies(pc.inv) == Some(pc.left)
                && (pc.inv.parent != Empty ==> FoundSound(y.store, pc.grant, pc.inv)))
            || (&& l == Check(w, true) && was.Checking? && pc.inv == was.inv && pc.grant == was.grant
                && was.left != [] && pc.left == was.left[1..]
                && FoundLive(y.store, pc.grant, was.left[0]))
  {
    hide SysInv, Legal, Commit, Append, ChildOfGrant, Recoverable, Frozen, ChainFrozen, ChainNames, LiveParent, LiveRoot, RunsAttempt;
    if w in y.workers && !y.workers[w].Loaded? { HeldGrant(y, w); HeldAt(y, w); }
    if l.Walk? && l.w == w && w in y.workers && y.workers[w].Walking? {
      var inv := y.workers[w].inv;
      if Frozen(inv).Some? { ChainMeans(y.store, inv, Frozen(inv).value, l.foreign); }
    }
    if l.Check? && l.w == w && w in y.workers && y.workers[w].Checking? && y.workers[w].left != [] {
      LiveMeans(y.store, y.workers[w].inv, y.workers[w].inv.turn, y.workers[w].left[0]);
    }
  }

  lemma VettedNow(labels: seq<Label>, w: nat)
    requires labels != [] && History(labels[..|labels| - 1]) && SysInv(Steps(START, labels[..|labels| - 1]))
    requires w in Steps(START, labels).workers && Steps(START, labels).workers[w].Checking?
    ensures var pc := Steps(START, labels).workers[w]; Vetted(labels, pc.grant, pc.inv, pc.left)
  {
    hide Next, SysInv, FoundLive, FoundSound, Dependencies, EntryVetted, Vetted;
    var front, l := labels[..|labels| - 1], labels[|labels| - 1];
    var y, pc := Steps(START, front), Steps(START, labels).workers[w];
    NextChecking(y, l, w);
    var was := y.workers[w];
    if was.Checking? {
      VettedStill(labels, was.grant, was.inv, was.left);
      if pc != was { OneMore(labels, was.grant, was.inv, was.left); }
    } else {
      FirstVetted(labels, pc.grant, pc.inv, pc.left);
    }
  }

  lemma OneMore(labels: seq<Label>, g: Item, v: Invocation, left: seq<Binding>)
    requires labels != [] && Vetted(labels, g, v, left) && left != []
    requires FoundLive(Steps(START, labels[..|labels| - 1]).store, g, left[0])
    ensures Vetted(labels, g, v, left[1..])
  {
    hide FoundLive, FoundSound, Steps, Dependencies;
    assert forall b :: b in left ==> b == left[0] || b in left[1..];
  }

  lemma FirstVetted(labels: seq<Label>, g: Item, v: Invocation, left: seq<Binding>)
    requires labels != [] && Dependencies(v) == Some(left)
    requires v.parent != Empty ==> FoundSound(Steps(START, labels[..|labels| - 1]).store, g, v)
    ensures Vetted(labels, g, v, left)
  {
    hide FoundSound, Steps, Dependencies;
  }

  lemma EntryNow(labels: seq<Label>, id: Id)
    requires labels != [] && History(labels[..|labels| - 1]) && SysInv(Steps(START, labels[..|labels| - 1]))
    requires id in Steps(START, labels).entered
    ensures EntryVetted(labels, id)
  {
    hide Next, SysInv, Vetted, Legal, Commit;
    var front, l := labels[..|labels| - 1], labels[|labels| - 1];
    var y := Steps(START, front);
    StoreOk(y);
    NextEntered(y, l, id);
    if id !in y.entered {
      HeldAt(y, l.w);
      HeldGrant(y, l.w);
      ItemKeyed(y.store, id);
      var pc := y.workers[l.w];
      assert pc.left == [];
      SameVetted(front, pc.grant, pc.inv, y.store.invocations[pc.inv.id], []);
    }
    assert EntryVetted(front, id);
    var g := y.store.itemIds[id];
    var w := NextWrite(y, l);
    KeptItem(y.store, w, id);
    InvocationOwner(y.store, w, g.invocation);
    VettedStill(labels, g, y.store.invocations[g.invocation], []);
    SameVetted(labels, g, y.store.invocations[g.invocation], Steps(START, labels).store.invocations[g.invocation], []);
  }

  lemma {:induction false} StepsHistory(labels: seq<Label>)
    ensures History(labels)
  {
    hide Next, SysInv, Vetted, EntryVetted;
    if labels != [] {
      var front := labels[..|labels| - 1];
      StepsHistory(front);
      Protocol(front);
      var z := Steps(START, labels);
      forall w | w in z.workers && z.workers[w].Checking?
        ensures Vetted(labels, z.workers[w].grant, z.workers[w].inv, z.workers[w].left) { VettedNow(labels, w); }
      forall id | id in z.entered ensures EntryVetted(labels, id) { EntryNow(labels, id); }
    }
  }

  /** Over every run, whenever an executor was entered for a child, then after its grant was appended the Items
      above the child were found to name only Invocations of its proof, and each frozen ancestor, the root
      included, was found as the stored, unfinished and started Invocation at exactly the frozen Attempt. */
  lemma EnteredAfterLiveParents(labels: seq<Label>, g: Item, b: Binding)
    requires var y := Steps(START, labels); Stored(y.store, g) && g.id in y.entered
    ensures var s := Steps(START, labels).store;
            && g.invocation in s.invocations
            && (s.invocations[g.invocation].parent != Empty ==>
                  && Frozen(s.invocations[g.invocation]).Some? && WasSound(labels, g, s.invocations[g.invocation])
                  && (b in Ancestors(Frozen(s.invocations[g.invocation]).value) ==> WasLive(labels, g, b)))
  {
    hide Steps, WasSound, WasLive, Frozen, Ancestors;
    StepsHistory(labels);
    assert EntryVetted(labels, g.id);
  }

  /** A worker that loaded an Invocation and appends its grant goes on to walk with exactly that grant, and every legal
      write of others that is no receipt happens. */
  lemma BeginsAndWrites(y: Sys, w: nat, nonce: Id, phase: string, run: Id, write: Write)
    ensures w in y.workers && y.workers[w].Loaded? && y.workers[w].inv.ref != Empty && run != Empty &&
            Append(y.store, GrantItem(y.workers[w].inv, nonce, phase, run)).PutItem? ==>
              (var g := Append(y.store, GrantItem(y.workers[w].inv, nonce, phase, run)).item;
               Next(y, Begin(w, nonce, phase, run)) ==
               Sys(Commit(y.store, PutItem(g)), y.workers[w := Walking(y.workers[w].inv, g)], y.entered))
    ensures Legal(y.store, write) && !ChildOfGrant(y.store, write) ==>
              Next(y, Env(write)) == y.(store := Commit(y.store, write))
  {
    hide Legal, Commit, AppendItem, Walked, Checked, Recoverable;
  }

  /** The grant names the Invocation, its Turn and its current Run, the phase and the Run physically reached, under the
      dispatch parent; its receipt names the same Turn, owner and Run under the grant. */
  lemma GrantAndReceipt(v: Invocation, nonce: Id, phase: string, run: Id, g: Item, b: Boundary)
    ensures var i := GrantItem(v, nonce, phase, run);
            && i.kind.Diagnostic? && i.status.ItemStarted? && i.parent == ExecutionDispatchParent
            && (i.turn, i.invocation, i.run) == (v.turn, v.id, v.ref)
            && i.payload.Document? && i.payload.phase == phase && i.payload.physicalRun == run
    ensures var i := ReceiptItem(g, b);
            && i.id == Stable(HDispatchDone, [g.id]) && i.kind.Diagnostic? && i.status.ItemCompleted? && i.parent == g.id
            && (i.turn, i.invocation, i.run) == (g.turn, g.invocation, g.run)
            && i.payload.Document? && i.payload.boundary == b
  {
  }

  /** Any stored Invocation may be loaded by an idle worker. Recovery writes only for a stored dispatch grant of the
      interrupted start of a parentless Agent, and then exactly that grant's recovery receipt, if the Store takes it. */
  lemma LoadsAndRecovers(y: Sys, w: nat, id: Id)
    ensures w !in y.workers && id in y.store.invocations ==>
              Next(y, Load(w, id)) == y.(workers := y.workers[w := Loaded(y.store.invocations[id])])
    ensures Next(y, Recover(id)) != y ==>
              && id in y.store.itemIds
              && var g := y.store.itemIds[id];
                 && g.kind.Diagnostic? && g.status.ItemStarted? && g.parent.ExecutionDispatchParent?
                 && g.payload.Document? && g.payload.phase in ["start", "start-retry"]
                 && g.invocation in y.store.invocations && y.store.invocations[g.invocation].parent == Empty
                 && y.store.invocations[g.invocation].executionClass == Agent
                 && Next(y, Recover(id)) ==
                    y.(store := Step(y.store, DoAppend(Item(Stable(HDispatchDone, [g.id]), g.turn, 0, Diagnostic, ItemCompleted, Empty,
                                                            g.run, g.invocation, g.id,
                                                            Document(NativeKernelEpochRecovered, "", Empty, Empty)))))
  {
    hide Legal, AppendItem, Walked, Checked;
  }
}
