/**
 What the dispatch protocol guarantees over every run of any number of workers, retries, status
 updates, cancellations and crashes.
 */
module DispatchTheorems {
  import opened Records
  import opened Ledger
  import opened ChildRoot
  import opened Admission
  import opened StoreInvariant
  import opened ItemChain
  import opened ParentCheck
  import opened Dispatch

  // ---------------------------------------------------------------- one step

  /** Every protocol step is at most one legal Store write. */
  lemma NextWrite(y: Sys, l: Label) returns (w: Write)
    ensures Legal(y.store, w) && Next(y, l).store == Commit(y.store, w)
  {
    hide Admits, Walked, Checked, ActiveFence, Pending, RetryAdmitted, OtherRoot, RefTaken, ChildOfGrant, Updates;
    w := NoWrite;
    if l.Env? {
      if Legal(y.store, l.write) && !ChildOfGrant(y.store, l.write) { w := l.write; }
    } else if l.Recover? {
      if Recoverable(y.store, l.grant) {
        AppendLegal(y.store, ReceiptItem(y.store.itemIds[l.grant], NativeKernelEpochRecovered));
        w := Append(y.store, ReceiptItem(y.store.itemIds[l.grant], NativeKernelEpochRecovered));
      }
    } else if !l.Load? && l.w in y.workers {
      var pc := y.workers[l.w];
      if l.Begin? && pc.Loaded? && pc.inv.ref != Empty && l.physicalRun != Empty {
        AppendLegal(y.store, GrantItem(pc.inv, l.nonce, l.phase, l.physicalRun));
        w := Append(y.store, GrantItem(pc.inv, l.nonce, l.phase, l.physicalRun));
      } else if l.Settle? && (pc.Refused? || pc.Returned?) {
        var item := ReceiptItem(pc.grant, if pc.Refused? then PhysicalDispatchRejected else pc.boundary);
        AppendLegal(y.store, item);
        w := Append(y.store, item);
      }
    }
  }

  /** Only a worker whose checks have all passed enters an executor. */
  lemma NextEntered(y: Sys, l: Label, id: Id)
    ensures id in y.entered ==> id in Next(y, l).entered
    ensures id in Next(y, l).entered && id !in y.entered ==>
              && l.Enter? && l.w in y.workers && y.workers[l.w].Checking?
              && y.workers[l.w].left == [] && y.workers[l.w].grant.id == id
  {
    hide Legal, Commit, Append, Walked, Checked, ChildOfGrant, Recoverable;
  }

  // ---------------------------------------------------------------- in flight

  /** At most one executor of an Invocation is in flight, counting the ones whose worker crashed. */
  lemma AtMostOneInFlight(labels: seq<Label>, g: Item, h: Item)
    requires Open(Steps(START, labels).store, g) && Open(Steps(START, labels).store, h)
    requires g.invocation == h.invocation
    ensures g == h
  {
    Protocol(labels);
    hide Steps;
    OneOpen(Steps(START, labels).store, g, h);
  }

  lemma OneOpen(s: State, g: Item, h: Item)
    requires Inv(s) && Open(s, g) && Open(s, h) && g.invocation == h.invocation
    ensures g == h
  {
    assert Found(s.items, g.id, g) && Found(s.items, h.id, h);
    assert LedgerInv(s, g.turn) && LedgerInv(s, h.turn);
    var i, j := g.seqNo - 1, h.seqNo - 1;
    assert Unsettled(LedgerOf(s, g.turn), i) && Unsettled(LedgerOf(s, h.turn), j);
    hide GrantOutcome, LedgerIndexed, RefsAgree, OneRoot, OneFence, Keyed;
    assert GrantOwned(s.invocations, g, true) && GrantOwned(s.invocations, h, true);
  }

  /** The only step that writes a recovery receipt of a grant is the recovery of that grant. */
  lemma NextRecovers(y: Sys, l: Label, g: Item) returns (w: Write)
    requires SysInv(y) && Stored(y.store, g)
    ensures Legal(y.store, w) && Next(y, l).store == Commit(y.store, w)
    ensures w.PutItem? && w.item.parent == g.id && w.item.payload.Document? ==>
              (w.item.payload.boundary == NativeKernelEpochRecovered ==> l == Recover(g.id))
  {
    hide SysInv, Legal, Commit, Walked, Checked, AppendItem, OutcomeOf;
    w := NoWrite;
    Unwritten(y.store);
    NoWriteLegal(y.store);
    if l.Env? {
      if Legal(y.store, l.write) && !ChildOfGrant(y.store, l.write) { w := l.write; }
    } else if l.Recover? {
      if Recoverable(y.store, l.grant) {
        StoreOk(y);
        ItemKeyed(y.store, l.grant);
        w := AppendedBy(y.store, ReceiptItem(y.store.itemIds[l.grant], NativeKernelEpochRecovered));
      }
    } else if !l.Load? && l.w in y.workers {
      var pc := y.workers[l.w];
      if l.Begin? && pc.Loaded? && pc.inv.ref != Empty && l.physicalRun != Empty {
        w := AppendedBy(y.store, GrantItem(pc.inv, l.nonce, l.phase, l.physicalRun));
        if w.PutItem? { FreshId(y.store, w.item); }
      } else if l.Settle? && (pc.Refused? || pc.Returned?) {
        Testimony(y, l.w);
        w := AppendedBy(y.store, ReceiptItem(pc.grant, if pc.Refused? then PhysicalDispatchRejected else pc.boundary));
      }
    }
  }

  lemma NoWriteLegal(s: State)
    ensures Legal(s, NoWrite)
  {
  }

  lemma StoreOk(y: Sys)
    requires SysInv(y)
    ensures Inv(y.store)
  {
    hide Inv, Held, EntryAgrees, GrantsTell, Exclusive;
  }

  lemma AppendedBy(s: State, item: Item) returns (w: Write)
    ensures w == Append(s, item) && Legal(s, w)
    ensures w.PutItem? ==> w.item == Numbered(s, item)
  {
    hide Legal, AppendItem;
    NoWriteLegal(s);
    AppendLegal(s, item);
    w := Append(s, item);
  }

  /** A grant counts as recovered only after recovery took over that very grant. */
  lemma {:induction false} RecoveredByRecovery(labels: seq<Label>, g: Item)
    requires Stored(Steps(START, labels).store, g)
    requires OutcomeOf(Steps(START, labels).store, g) == Some(NativeKernelEpochRecovered)
    ensures Recover(g.id) in labels
  {
    hide Next, SysInv, OutcomeOf, Legal, Commit, IsGrant;
    if labels != [] {
      var front, l := labels[..|labels| - 1], labels[|labels| - 1];
      var y := Steps(START, front);
      Protocol(front);
      StoreOk(y);
      if Stored(y.store, g) {
        var w := NextRecovers(y, l, g);
        OutcomeWrite(y.store, w, g);
        if OutcomeOf(y.store, g) == Some(NativeKernelEpochRecovered) { RecoveredByRecovery(front, g); }
      } else {
        var w := NextWrite(y, l);
        NewGrantOpen(y.store, w, g);
      }
    }
  }

  lemma NewGrantOpen(s: State, w: Write, g: Item)
    requires Inv(s) && Legal(s, w) && Stored(Commit(s, w), g) && !Stored(s, g)
    ensures OutcomeOf(Commit(s, w), g) == None
  {
    hide Inv, Legal, OutcomeOf;
    if g.id in s.itemIds { KeptItem(s, w, g.id); }
    NewItem(s, w, g.id);
    FreshGrantOpen(s, g);
  }

  /** Two workers inside an executor at the same time work for different Invocations, unless a step of this
      very run was the native recovery of one of their grants; its worker is the Kernel's to fence off. */
  lemma ExecutorsDisjoint(labels: seq<Label>, a: nat, b: nat)
    requires var y := Steps(START, labels);
             a in y.workers && b in y.workers && a != b && y.workers[a].Inside? && y.workers[b].Inside?
    ensures var y := Steps(START, labels);
            || y.workers[a].grant.invocation != y.workers[b].grant.invocation
            || (Recovered(y.store, y.workers[a].grant) && Recover(y.workers[a].grant.id) in labels)
            || (Recovered(y.store, y.workers[b].grant) && Recover(y.workers[b].grant.id) in labels)
  {
    hide Steps, SysInv, OutcomeOf, RootOwned;
    var y := Steps(START, labels);
    var g, h := y.workers[a].grant, y.workers[b].grant;
    Protocol(labels);
    HeldAt(y, a);
    HeldAt(y, b);
    OthersDiffer(y, a);
    if Recovered(y.store, g) { RecoveredByRecovery(labels, g); }
    if Recovered(y.store, h) { RecoveredByRecovery(labels, h); }
    if g.invocation == h.invocation && !Recovered(y.store, g) && !Recovered(y.store, h) {
      AtMostOneInFlight(labels, g, h);
    }
  }

  /** So in a run without native recovery the executors are disjoint with no exception. */
  lemma UnrecoveredDisjoint(labels: seq<Label>, a: nat, b: nat)
    requires forall l :: l in labels ==> !l.Recover?
    requires var y := Steps(START, labels);
             a in y.workers && b in y.workers && a != b && y.workers[a].Inside? && y.workers[b].Inside?
    ensures Steps(START, labels).workers[a].grant.invocation != Steps(START, labels).workers[b].grant.invocation
  {
    hide Steps, Recovered;
    ExecutorsDisjoint(labels, a, b);
  }

  /** From the moment one frozen ancestor has been checked until the worker's grant is settled, that
      ancestor keeps the Invocation, execution ref and Attempt the child was sealed to; so an entered,
      unsettled grant has all of them in place, whether or not its worker is still alive. */
  lemma AncestorsPinned(labels: seq<Label>, w: nat, b: Binding, g: Item)
    ensures var y := Steps(START, labels);
            w in y.workers && y.workers[w].Checking? ==>
              && Dependencies(y.workers[w].inv).Some?
              && (b in Dependencies(y.workers[w].inv).value && b !in y.workers[w].left ==> Current(y.store, b))
    ensures var y := Steps(START, labels);
            Open(y.store, g) && g.id in y.entered ==>
              && g.invocation in y.store.invocations && Dependencies(y.store.invocations[g.invocation]).Some?
              && (b in Dependencies(y.store.invocations[g.invocation]).value ==> Current(y.store, b))
  {
    hide Steps, Inv, Dependencies, OutcomeOf, Snapshot;
    var y := Steps(START, labels);
    Protocol(labels);
    if w in y.workers { HeldAt(y, w); }
    if Open(y.store, g) && g.id in y.entered { assert AncestorsHeld(y.store, y.store.itemIds[g.id]); }
  }

  // ---------------------------------------------------------------- receipts

  lemma {:induction false} SettledSteps(y: Sys, more: seq<Label>, g: Item)
    requires SysInv(y) && Stored(y.store, g)
    ensures Stored(Steps(y, more).store, g)
    ensures OutcomeOf(y.store, g).Some? ==> OutcomeOf(Steps(y, more).store, g) == OutcomeOf(y.store, g)
    ensures y.entered <= Steps(y, more).entered
  {
    hide Next, SysInv, OutcomeOf, Stored;
    if more != [] {
      var front, l := more[..|more| - 1], more[|more| - 1];
      SettledSteps(y, front, g);
      StepsKeep(y, front);
      SettledNext(Steps(y, front), l, g);
    }
  }

  lemma SettledNext(y: Sys, l: Label, g: Item)
    requires SysInv(y) && Stored(y.store, g)
    ensures Stored(Next(y, l).store, g)
    ensures OutcomeOf(y.store, g).Some? ==> OutcomeOf(Next(y, l).store, g) == OutcomeOf(y.store, g)
    ensures y.entered <= Next(y, l).entered
  {
    hide Next, Legal, Commit, OutcomeOf, Stored;
    var w := NextWrite(y, l);
    OutcomeWrite(y.store, w, g);
    forall id | id in y.entered ensures id in Next(y, l).entered { NextEntered(y, l, id); }
  }

  /** A receipt is testimony about the whole run: a grant settled as rejected is never entered, not
      even later; a grant settled by any other worker's receipt had been entered; and only a root's grant
      is ever settled by recovery. */
  lemma ReceiptsAreTrue(labels: seq<Label>, more: seq<Label>, g: Item)
    requires Stored(Steps(START, labels).store, g) && OutcomeOf(Steps(START, labels).store, g).Some?
    ensures var y, later := Steps(START, labels), Steps(Steps(START, labels), more);
            && OutcomeOf(later.store, g) == OutcomeOf(y.store, g)
            && (OutcomeOf(y.store, g) == Some(PhysicalDispatchRejected) ==> g.id !in later.entered)
            && (if OutcomeOf(y.store, g) == Some(NativeKernelEpochRecovered) then RootOwned(y.store, g) && Recover(g.id) in labels
                else OutcomeOf(y.store, g) != Some(PhysicalDispatchRejected) ==> g.id in y.entered)
  {
    hide Steps, Inv, OutcomeOf;
    var y := Steps(START, labels);
    Protocol(labels);
    StepsKeep(y, more);
    SettledSteps(y, more, g);
    TellsOf(y, g);
    TellsOf(Steps(y, more), g);
    if OutcomeOf(y.store, g) == Some(NativeKernelEpochRecovered) { RecoveredByRecovery(labels, g); }
  }

  /** Without native recovery of the grant its receipt tells exactly whether the executor was entered. */
  lemma UnrecoveredTruth(labels: seq<Label>, g: Item)
    requires Stored(Steps(START, labels).store, g) && OutcomeOf(Steps(START, labels).store, g).Some?
    requires Recover(g.id) !in labels
    ensures var y := Steps(START, labels);
            OutcomeOf(y.store, g) == Some(PhysicalDispatchRejected) <==> g.id !in y.entered
  {
    hide Steps, Inv, OutcomeOf;
    if OutcomeOf(Steps(START, labels).store, g) == Some(NativeKernelEpochRecovered) { RecoveredByRecovery(labels, g); }
    Protocol(labels);
    TellsOf(Steps(START, labels), g);
  }

  lemma TellsOf(y: Sys, g: Item)
    requires SysInv(y) && Stored(y.store, g)
    ensures ReceiptTells(y.store, y.entered, g)
  {
    hide Inv, Held, EntryAgrees, Exclusive, OutcomeOf, ReceiptTells, AncestorsHeld;
    assert ReceiptTells(y.store, y.entered, y.store.itemIds[g.id]);
  }

  // ---------------------------------------------------------------- walking in one step

  lemma {:induction false} ItemsKept(y: Sys, labels: seq<Label>, id: Id)
    requires id in y.store.itemIds
    ensures id in Steps(y, labels).store.itemIds && Steps(y, labels).store.itemIds[id] == y.store.itemIds[id]
  {
    hide Next, Legal, Commit;
    if labels != [] {
      ItemsKept(y, labels[..|labels| - 1], id);
      var mid := Steps(y, labels[..|labels| - 1]);
      var w := NextWrite(mid, labels[|labels| - 1]);
      KeptItem(mid.store, w, id);
    }
  }

  /** Reading the Items above a child one by one sees what one read of all of them sees: a walk that passes
      at one moment passes at every later moment of the run, over the same Items. */
  lemma WalkStable(y: Sys, labels: seq<Label>, child: Invocation, p: RootBinding, foreign: set<Id>)
    requires ChainFrozen(y.store, child, p, foreign)
    ensures ChainFrozen(Steps(y, labels).store, child, p, foreign)
    ensures Chain(Steps(y, labels).store.itemIds, child.parent, {}) == Chain(y.store.itemIds, child.parent, {})
  {
    hide Steps, LinkFrozen, Chain;
    forall id | id in y.store.itemIds
      ensures id in Steps(y, labels).store.itemIds && Steps(y, labels).store.itemIds[id] == y.store.itemIds[id]
    {
      ItemsKept(y, labels, id);
    }
    ChainStable(y.store.itemIds, Steps(y, labels).store.itemIds, child.parent, {});
  }

  // ---------------------------------------------------------------- stranded children

  /** The Invocation has rotated past this Attempt. */
  predicate Stale(s: State, b: Binding) {
    b.invocation in s.invocations && s.invocations[b.invocation].attempt > b.attempt
  }

  /** A Retry makes the Attempt it replaces stale. */
  lemma RotationStales(s: State, v: Invocation)
    requires Inv(s) && Legal(s, PutRotated(v))
    ensures Stale(Commit(s, PutRotated(v)), Attempt(s.invocations[v.id]))
  {
    hide RetryAdmitted, Pending, ActiveFence;
  }

  lemma StaleNext(y: Sys, l: Label, b: Binding)
    requires SysInv(y) && Stale(y.store, b)
    ensures Stale(Next(y, l).store, b)
  {
    hide Next, Legal, Commit;
    var w := NextWrite(y, l);
    InvocationCommit(y.store, w, b.invocation);
  }

  ghost predicate StrandedBy(s: State, child: Id, b: Binding) {
    && child in s.invocations && Dependencies(s.invocations[child]).Some?
    && b in Dependencies(s.invocations[child]).value && Stale(s, b)
  }

  lemma StrandedNext(y: Sys, l: Label, child: Id, b: Binding)
    requires SysInv(y) && StrandedBy(y.store, child, b)
    ensures StrandedBy(Next(y, l).store, child, b)
  {
    hide Next, Legal, Commit, Dependencies, Stale;
    var w := NextWrite(y, l);
    InvocationCommit(y.store, w, child);
    SameDependencies(y.store.invocations[child], Commit(y.store, w).invocations[child]);
    StaleNext(y, l, b);
  }

  /** No step enters an executor on behalf of a stranded child. */
  lemma NoEntryWhenStranded(y: Sys, l: Label, child: Id, b: Binding, g: Item)
    requires SysInv(y) && StrandedBy(y.store, child, b) && g.invocation == child && g.id !in y.entered
    requires Stored(Next(y, l).store, g)
    ensures g.id !in Next(y, l).entered
  {
    hide Next, SysInv, Dependencies, OutcomeOf;
    NextEntered(y, l, g.id);
    if g.id in Next(y, l).entered {
      AllAnchored(y, l.w);
      SettledNext(y, l, y.workers[l.w].grant);
    }
  }

  lemma {:induction false} StrandedSteps(y: Sys, more: seq<Label>, child: Id, b: Binding, g: Item)
    requires SysInv(y) && StrandedBy(y.store, child, b)
    ensures StrandedBy(Steps(y, more).store, child, b)
    ensures forall foreign, dead :: !ParentsLive(Steps(y, more).store, Steps(y, more).store.invocations[child], foreign, dead)
    ensures Stored(Steps(y, more).store, g) && g.invocation == child && g.id !in y.entered ==>
              && g.id !in Steps(y, more).entered
              && (OutcomeOf(Steps(y, more).store, g) == None ||
                  OutcomeOf(Steps(y, more).store, g) == Some(PhysicalDispatchRejected))
  {
    hide Next, SysInv, OutcomeOf, StrandedBy, Stored, ParentsLive;
    StepsKeep(y, more);
    if more != [] {
      var front, l := more[..|more| - 1], more[|more| - 1];
      StepsKeep(y, front);
      StrandedSteps(y, front, child, b, g);
      StrandedNext(Steps(y, front), l, child, b);
      if Stored(Steps(y, more).store, g) && g.invocation == child && g.id !in y.entered {
        UnenteredNext(y, front, l, child, b, g);
      }
    }
    StrandedFails(Steps(y, more).store, child, b);
    if Stored(Steps(y, more).store, g) { TellsOf(Steps(y, more), g); }
    StrandedIsChild(Steps(y, more).store, child, b);
  }

  lemma StrandedIsChild(s: State, child: Id, b: Binding)
    requires StrandedBy(s, child, b)
    ensures child in s.invocations && s.invocations[child].parent != Empty
  {
  }

  lemma UnenteredNext(y: Sys, front: seq<Label>, l: Label, child: Id, b: Binding, g: Item)
    requires SysInv(Steps(y, front)) && StrandedBy(Steps(y, front).store, child, b)
    requires Stored(Steps(y, front).store, g) && g.invocation == child ==> g.id !in Steps(y, front).entered
    requires Stored(Next(Steps(y, front), l).store, g) && g.invocation == child
    ensures g.id !in Next(Steps(y, front), l).entered
  {
    hide Steps, Next, StrandedBy, Inv, Held, EntryAgrees, Exclusive, Legal, Commit;
    var mid := Steps(y, front);
    if g.id in mid.entered {
      var w := NextWrite(mid, l);
      KeptItem(mid.store, w, g.id);
    }
    NoEntryWhenStranded(mid, l, child, b, g);
  }

  lemma StrandedFails(s: State, child: Id, b: Binding)
    requires StrandedBy(s, child, b)
    ensures forall foreign, dead :: !ParentsLive(s, s.invocations[child], foreign, dead)
  {
    hide ChainFrozen;
  }

  /** Once any frozen ancestor of a child, its root included, has rotated its Attempt, the child is
      dead in every later state: it never passes the parent check again, no executor is ever entered
      for it again, and each grant that was not entered before is unsettled or settled as rejected. */
  lemma StrandedForever(labels: seq<Label>, more: seq<Label>, child: Id, b: Binding, g: Item)
    requires StrandedBy(Steps(START, labels).store, child, b)
    ensures var y, later := Steps(START, labels), Steps(Steps(START, labels), more);
            && StrandedBy(later.store, child, b)
            && (forall foreign, dead :: !ParentsLive(later.store, later.store.invocations[child], foreign, dead))
            && (Stored(later.store, g) && g.invocation == child && g.id !in y.entered ==>
                  && g.id !in later.entered
                  && (OutcomeOf(later.store, g) == None || OutcomeOf(later.store, g) == Some(PhysicalDispatchRejected)))
  {
    hide Steps, SysInv, StrandedBy, ParentsLive, Stored, OutcomeOf;
    Protocol(labels);
    StrandedSteps(Steps(START, labels), more, child, b, g);
  }

  // ---------------------------------------------------------------- an undisturbed dispatch goes through

  lemma StepsSnoc(y: Sys, labels: seq<Label>, l: Label)
    ensures Steps(y, labels + [l]) == Next(Steps(y, labels), l)
  {
    assert (labels + [l])[..|labels|] == labels;
  }

  function Checks(w: nat, n: nat): seq<Label> {
    if n == 0 then [] else Checks(w, n - 1) + [Check(w, true)]
  }

  /** Every remaining dependency passes: intermediate ancestors live, and the root last. */
  ghost predicate AllLive(s: State, inv: Invocation, left: seq<Binding>) {
    forall i :: 0 <= i < |left| ==>
      if i == |left| - 1 then LiveRoot(s, inv, left[i]) else LiveParent(s, inv.turn, left[i])
  }

  lemma {:induction false} ChecksPass(y: Sys, w: nat, pc: Pc, n: nat)
    requires w in y.workers && y.workers[w] == pc && pc.Checking? && n <= |pc.left| && AllLive(y.store, pc.inv, pc.left)
    ensures Steps(y, Checks(w, n)) == Move(y, w, Checking(pc.inv, pc.grant, pc.left[n..]))
  {
    hide Next, Steps, LiveRoot, LiveParent;
    if n == 0 {
      StepsNone(y);
      assert pc.left[0..] == pc.left && y.workers[w := pc] == y.workers;
    } else {
      ChecksPass(y, w, pc, n - 1);
      var mid := Move(y, w, Checking(pc.inv, pc.grant, pc.left[n - 1..]));
      StepsSnoc(y, Checks(w, n - 1), Check(w, true));
      CheckPasses(mid, w, pc.left[n - 1..]);
      assert pc.left[n - 1..][1..] == pc.left[n..];
      assert mid.workers[w := Checking(pc.inv, pc.grant, pc.left[n..])] ==
             y.workers[w := Checking(pc.inv, pc.grant, pc.left[n..])];
    }
  }

  lemma CheckPasses(y: Sys, w: nat, left: seq<Binding>)
    requires w in y.workers && y.workers[w].Checking? && y.workers[w].left == left && left != []
    requires if |left| == 1 then LiveRoot(y.store, y.workers[w].inv, left[0])
             else LiveParent(y.store, y.workers[w].inv.turn, left[0])
    ensures Next(y, Check(w, true)) == Move(y, w, Checking(y.workers[w].inv, y.workers[w].grant, left[1..]))
  {
    hide Legal, Commit, Append, LiveRoot, LiveParent, Walked;
  }

  /** The check refuses nothing it should let through: with live parents and no disturbance, the worker
      that holds the grant enters its executor. */
  lemma LiveParentsEnter(y: Sys, w: nat, foreign: set<Id>)
    requires w in y.workers && y.workers[w].Walking? && ParentsLive(y.store, y.workers[w].inv, foreign, {})
    ensures var inv, g := y.workers[w].inv, y.workers[w].grant;
            && Dependencies(inv).Some?
            && var z := Steps(y, [Walk(w, foreign)] + Checks(w, |Dependencies(inv).value|) + [Enter(w)]);
               z.store == y.store && z.entered == y.entered + {g.id} && z.workers == y.workers[w := Inside(g)]
  {
    hide Next, Walked, ChainFrozen, LiveRoot, LiveParent;
    var inv, g := y.workers[w].inv, y.workers[w].grant;
    var deps := Dependencies(inv).value;
    WalkPasses(y, w, foreign);
    var y1 := Move(y, w, Checking(inv, g, deps));
    var n := |deps|;
    ChecksPass(y1, w, Checking(inv, g, deps), n);
    assert deps[n..] == [];
    StepsSnoc(y, [], Walk(w, foreign));
    assert [] + [Walk(w, foreign)] == [Walk(w, foreign)];
    StepsAppend(y, [Walk(w, foreign)], w, n);
    StepsSnoc(y, [Walk(w, foreign)] + Checks(w, n), Enter(w));
    EnterNow(Move(y1, w, Checking(inv, g, [])), w);
    assert y1.workers[w := Checking(inv, g, [])][w := Inside(g)] == y.workers[w := Inside(g)];
  }

  lemma {:induction false} StepsAppend(y: Sys, labels: seq<Label>, w: nat, n: nat)
    ensures Steps(y, labels + Checks(w, n)) == Steps(Steps(y, labels), Checks(w, n))
  {
    hide Next, Steps;
    if n == 0 {
      assert labels + [] == labels;
      StepsNone(Steps(y, labels));
    } else {
      StepsAppend(y, labels, w, n - 1);
      assert labels + Checks(w, n) == labels + Checks(w, n - 1) + [Check(w, true)];
      StepsSnoc(y, labels + Checks(w, n - 1), Check(w, true));
      StepsSnoc(Steps(y, labels), Checks(w, n - 1), Check(w, true));
    }
  }

  lemma StepsNone(y: Sys)
    ensures Steps(y, []) == y
  {
  }

  lemma WalkPasses(y: Sys, w: nat, foreign: set<Id>)
    requires w in y.workers && y.workers[w].Walking? && ParentsLive(y.store, y.workers[w].inv, foreign, {})
    ensures var inv, g := y.workers[w].inv, y.workers[w].grant;
            && Dependencies(inv).Some? && AllLive(y.store, inv, Dependencies(inv).value)
            && Next(y, Walk(w, foreign)) == Move(y, w, Checking(inv, g, Dependencies(inv).value))
  {
    hide Legal, Commit, Append, ChainFrozen, LiveRoot, LiveParent, Checked;
    var inv := y.workers[w].inv;
    if inv.parent != Empty {
      var p := Frozen(inv).value;
      forall i | 0 <= i < |Ancestors(p)|
        ensures if i == |Ancestors(p)| - 1 then LiveRoot(y.store, inv, Ancestors(p)[i])
                else LiveParent(y.store, inv.turn, Ancestors(p)[i])
      {
        if i < |p.parents| { assert p.parents[i] in p.parents; }
      }
    }
  }

  lemma EnterNow(y: Sys, w: nat)
    requires w in y.workers && y.workers[w].Checking? && y.workers[w].left == []
    ensures Next(y, Enter(w)) == Move(y, w, Inside(y.workers[w].grant)).(entered := y.entered + {y.workers[w].grant.id})
  {
    hide Legal, Commit, Append, Walked, Checked;
  }

  /** A returning executor settles its grant with exactly the boundary it reports, provided nobody used
      the receipt's identity and nothing claims the grant yet. */
  lemma ReturnSettles(y: Sys, w: nat, b: Boundary)
    requires SysInv(y) && w in y.workers && y.workers[w].Inside? && Reportable(b)
    requires var g := y.workers[w].grant;
             && WellFormedGrant(g) && ReceiptItem(g, b).id !in y.store.itemIds
             && forall v :: v in LedgerOf(y.store, g.turn) ==> !ClaimsId(v, g.id)
    ensures var z := Next(Next(y, Return(w, b)), Settle(w));
            Stored(z.store, y.workers[w].grant) && OutcomeOf(z.store, y.workers[w].grant) == Some(b) && w !in z.workers
  {
    hide Next, SysInv, Inv, OutcomeOf, Legal, Commit;
    var g := y.workers[w].grant;
    HeldGrant(y, w);
    InvOf(y);
    ReceiptAdmitted(y.store, g, b);
    ReturnNow(y, w, b);
    var item := ReceiptItem(g, b);
    AppendLegal(y.store, item);
    OutcomeWrite(y.store, Append(y.store, item), g);
  }

  lemma InvOf(y: Sys)
    requires SysInv(y)
    ensures Inv(y.store)
  {
    hide Inv, Held, EntryAgrees, Exclusive, GrantsTell;
  }

  lemma ReturnNow(y: Sys, w: nat, b: Boundary)
    requires w in y.workers && y.workers[w].Inside? && Reportable(b)
    ensures var z := Next(Next(y, Return(w, b)), Settle(w));
            z.store == Commit(y.store, Append(y.store, ReceiptItem(y.workers[w].grant, b))) && w !in z.workers
  {
    hide Legal, Commit, Append, Walked, Checked;
  }

  /** The receipt a worker writes is the one its grant's guard admits. */
  lemma ReceiptAdmitted(s: State, g: Item, b: Boundary)
    requires Inv(s) && Stored(s, g) && WellFormedGrant(g) && Reportable(b)
    requires ReceiptItem(g, b).id !in s.itemIds && forall v :: v in LedgerOf(s, g.turn) ==> !ClaimsId(v, g.id)
    ensures var w := Append(s, ReceiptItem(g, b));
            && w.PutItem? && w.item.parent == g.id && w.item.payload.Document? && w.item.payload.boundary == b
            && g.id != ExecutionDispatchParent
  {
    assert Found(s.items, g.id, g);
    var items := LedgerOf(s, g.turn);
    assert g in items;
    assert !ClaimsId(g, g.id);
    hide LedgerInv, RefsAgree, Keyed, OneRoot, ActiveFence, Pending;
  }
}
