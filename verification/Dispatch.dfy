/**
 The physical-dispatch protocol as workers that share the Store. A worker appends a durable grant,
 only then reads its child's frozen ancestors one Store call at a time, enters the Feature executor,
 and finally appends the receipt. It may crash between any two calls. Native recovery may settle the
 interrupted start of a root Agent, whether or not its worker is still alive; the Kernel's consent to it
 is the environment's. Everything else that happens to the Store is an environment step: any legal write
 except a receipt, because nobody else writes one.
 */
module Dispatch {
  import opened Records
  import opened Ledger
  import opened ChildRoot
  import opened Admission
  import opened StoreInvariant
  import opened ParentCheck

  /** The Attempts a child depends on, in the order they are read; None when its seal is unreadable. */
  function Dependencies(v: Invocation): Option<seq<Binding>> {
    if v.parent == Empty then Some([])
    else match Frozen(v)
      case Some(p) => Some(Ancestors(p))
      case None => None
  }

  // ---------------------------------------------------------------- workers

  datatype Pc =
    | Loaded(inv: Invocation)
    | Walking(inv: Invocation, grant: Item)
    | Checking(inv: Invocation, grant: Item, left: seq<Binding>)
    | Refused(grant: Item)
    | Inside(grant: Item)
    | Returned(grant: Item, boundary: Boundary)

  /** `entered` remembers every grant whose executor was ever entered. */
  datatype Sys = Sys(store: State, workers: map<nat, Pc>, entered: set<Id>)

  datatype Label =
    | Load(w: nat, id: Id)
    | Begin(w: nat, nonce: Id, phase: string, physicalRun: Id)
    | Walk(w: nat, foreign: set<Id>)
    | Check(w: nat, verdict: bool)
    | Enter(w: nat)
    | Return(w: nat, boundary: Boundary)
    | Settle(w: nat)
    | Crash(w: nat)
    | Recover(grant: Id)
    | Env(write: Write)

  function GrantItem(v: Invocation, nonce: Id, phase: string, physicalRun: Id): Item {
    Item(Stable(HDispatch, [v.id, v.ref, nonce]), v.turn, 0, Diagnostic, ItemStarted, Empty, v.ref, v.id,
         ExecutionDispatchParent, Document(OtherBoundary(""), phase, physicalRun, Empty))
  }

  function ReceiptItem(g: Item, boundary: Boundary): Item {
    Item(Stable(HDispatchDone, [g.id]), g.turn, 0, Diagnostic, ItemCompleted, Empty, g.run, g.invocation,
         g.id, Document(boundary, "", Empty, Empty))
  }

  /** What a returning executor can certify; anything else leaves the grant open for reconciliation. */
  predicate Reportable(b: Boundary) {
    b in {PhysicalDispatchReturned, HandoffStartReturned, FeatureStartNoEffect,
          NativeAgentStartNoEffect, NativeAgentControlNoEffect}
  }

  /** Native recovery takes over only the interrupted start of a root Agent. */
  predicate Recoverable(s: State, id: Id) {
    && id in s.itemIds && IsGrant(s.itemIds[id]) && RootOwned(s, s.itemIds[id])
    && s.invocations[s.itemIds[id].invocation].executionClass == Agent
    && s.itemIds[id].payload.Document? && s.itemIds[id].payload.phase in {"start", "start-retry"}
  }

  predicate RootOwned(s: State, g: Item) {
    g.invocation in s.invocations && s.invocations[g.invocation].parent == Empty
  }

  predicate ChildOfGrant(s: State, write: Write) {
    write.PutItem? && write.item.parent in s.itemIds && IsGrant(s.itemIds[write.item.parent])
  }

  function Append(s: State, v: Item): Write {
    match AppendItem(s, v) case Ok((stored, true)) => PutItem(stored) case _ => NoWrite
  }

  ghost function Walked(s: State, pc: Pc, foreign: set<Id>): Pc
    requires pc.Walking?
  {
    match Dependencies(pc.inv)
    case None => Refused(pc.grant)
    case Some(deps) =>
      if deps == [] then Checking(pc.inv, pc.grant, [])
      else if Frozen(pc.inv).Some? && ChainFrozen(s, pc.inv, Frozen(pc.inv).value, foreign)
      then Checking(pc.inv, pc.grant, deps)
      else Refused(pc.grant)
  }

  function Checked(s: State, pc: Pc, verdict: bool): Pc
    requires pc.Checking? && pc.left != []
  {
    var b := pc.left[0];
    var live := if |pc.left| == 1 then LiveRoot(s, pc.inv, b) else LiveParent(s, pc.inv.turn, b);
    if live && verdict then Checking(pc.inv, pc.grant, pc.left[1..]) else Refused(pc.grant)
  }

  function Move(y: Sys, w: nat, pc: Pc): Sys {
    y.(workers := y.workers[w := pc])
  }

  function Leave(y: Sys, w: nat): Sys {
    y.(workers := y.workers - {w})
  }

  ghost function Next(y: Sys, l: Label): Sys {
    if l.Env? then
      if Legal(y.store, l.write) && !ChildOfGrant(y.store, l.write)
      then y.(store := Commit(y.store, l.write)) else y
    else if l.Recover? then
      if !Recoverable(y.store, l.grant) then y
      else y.(store := Commit(y.store, Append(y.store, ReceiptItem(y.store.itemIds[l.grant], NativeKernelEpochRecovered))))
    else if l.Load? then
      if l.w !in y.workers && l.id in y.store.invocations then Move(y, l.w, Loaded(y.store.invocations[l.id])) else y
    else if l.w !in y.workers then y
    else
      var pc := y.workers[l.w];
      match l
      case Begin(w, nonce, phase, run) =>
        if !pc.Loaded? then y
        else if pc.inv.ref == Empty || run == Empty then Leave(y, w)
        else
        (match Append(y.store, GrantItem(pc.inv, nonce, phase, run))
         case PutItem(g) => Move(y.(store := Commit(y.store, PutItem(g))), w, Walking(pc.inv, g))
         case _ => Leave(y, w))
      case Walk(w, foreign) => if pc.Walking? then Move(y, w, Walked(y.store, pc, foreign)) else y
      case Check(w, verdict) => if pc.Checking? && pc.left != [] then Move(y, w, Checked(y.store, pc, verdict)) else y
      case Enter(w) =>
        if pc.Checking? && pc.left == []
        then Move(y, w, Inside(pc.grant)).(entered := y.entered + {pc.grant.id}) else y
      case Return(w, b) => if pc.Inside? && Reportable(b) then Move(y, w, Returned(pc.grant, b)) else y
      case Settle(w) =>
        if pc.Refused? then
          Leave(y.(store := Commit(y.store, Append(y.store, ReceiptItem(pc.grant, PhysicalDispatchRejected)))), w)
        else if pc.Returned? then
          Leave(y.(store := Commit(y.store, Append(y.store, ReceiptItem(pc.grant, pc.boundary)))), w)
        else y
      case Crash(w) => Leave(y, w)
  }

  ghost function Steps(y: Sys, labels: seq<Label>): Sys {
    if labels == [] then y else Next(Steps(y, labels[..|labels| - 1]), labels[|labels| - 1])
  }

  const START := Sys(INITIAL, map[], {})

  // ---------------------------------------------------------------- the invariant

  predicate Stored(s: State, g: Item) {
    g.id in s.itemIds && s.itemIds[g.id] == g && IsGrant(g)
  }

  function OutcomeOf(s: State, g: Item): Option<Boundary> {
    GrantOutcome(LedgerOf(s, g.turn), g)
  }

  predicate Open(s: State, g: Item) {
    Stored(s, g) && OutcomeOf(s, g) == None
  }

  ghost predicate Recovered(s: State, g: Item) {
    OutcomeOf(s, g) == Some(NativeKernelEpochRecovered) && RootOwned(s, g)
  }

  /** A worker's grant is unsettled unless native recovery took it over. */
  ghost predicate Kept(s: State, g: Item) {
    Stored(s, g) && (OutcomeOf(s, g) == None || Recovered(s, g))
  }

  /** A worker's snapshot agrees with the Store on everything that never changes. */
  predicate Snapshot(s: State, v: Invocation) {
    v.id in s.invocations && SameOwner(v, s.invocations[v.id])
  }

  ghost predicate Held(s: State, pc: Pc) {
    match pc
    case Loaded(inv) => Snapshot(s, inv)
    case Walking(inv, g) => Kept(s, g) && Snapshot(s, inv) && g.invocation == inv.id && g.turn == inv.turn
    case Checking(inv, g, left) =>
      && Kept(s, g) && Snapshot(s, inv) && g.invocation == inv.id && g.turn == inv.turn && Dependencies(inv).Some?
      && (forall b :: b in Dependencies(inv).value && b !in left ==> Anchored(s, g.turn, b))
    case Refused(g) => Kept(s, g)
    case Inside(g) => Kept(s, g)
    case Returned(g, b) => Kept(s, g) && Reportable(b)
  }

  ghost predicate EntryAgrees(entered: set<Id>, pc: Pc) {
    match pc
    case Loaded(_) => true
    case Walking(_, g) => g.id !in entered
    case Checking(_, g, _) => g.id !in entered
    case Refused(g) => g.id !in entered
    case Inside(g) => g.id in entered
    case Returned(g, _) => g.id in entered
  }

  ghost predicate Exclusive(workers: map<nat, Pc>) {
    forall a, b :: a in workers && b in workers && a != b && !workers[a].Loaded? && !workers[b].Loaded? ==>
      workers[a].grant.id != workers[b].grant.id
  }

  /** An entered, unsettled grant keeps all its owner's frozen ancestors at their frozen Attempts. */
  ghost predicate AncestorsHeld(s: State, g: Item) {
    && g.invocation in s.invocations && Dependencies(s.invocations[g.invocation]).Some?
    && forall b :: b in Dependencies(s.invocations[g.invocation]).value ==> Anchored(s, g.turn, b)
  }

  /** A worker's receipt tells whether the executor was entered; a recovery receipt only that the owner
      is a root. */
  ghost predicate Truthful(s: State, entered: set<Id>, g: Item, b: Boundary) {
    if b == NativeKernelEpochRecovered then RootOwned(s, g)
    else b == PhysicalDispatchRejected <==> g.id !in entered
  }

  ghost predicate ReceiptTells(s: State, entered: set<Id>, g: Item) {
    match OutcomeOf(s, g)
    case None => true
    case Some(b) => Truthful(s, entered, g, b)
  }

  ghost predicate GrantsTell(s: State, entered: set<Id>) {
    forall id :: id in s.itemIds && IsGrant(s.itemIds[id]) ==>
      && ReceiptTells(s, entered, s.itemIds[id])
      && (id in entered && OutcomeOf(s, s.itemIds[id]) == None ==> AncestorsHeld(s, s.itemIds[id]))
  }

  ghost predicate SysInv(y: Sys) {
    && Inv(y.store)
    && (forall w :: w in y.workers ==> Held(y.store, y.workers[w]) && EntryAgrees(y.entered, y.workers[w]))
    && Exclusive(y.workers)
    && (forall id :: id in y.entered ==> id in y.store.itemIds)
    && GrantsTell(y.store, y.entered)
  }

  // ---------------------------------------------------------------- what a legal write keeps

  lemma OutcomeWrite(s: State, w: Write, g: Item)
    requires Inv(s) && Legal(s, w) && Stored(s, g)
    ensures Stored(Commit(s, w), g)
    ensures OutcomeOf(Commit(s, w), g) ==
            if w.PutItem? && w.item.parent == g.id && g.id != ExecutionDispatchParent && w.item.payload.Document?
            then Some(w.item.payload.boundary) else OutcomeOf(s, g)
    ensures w.PutItem? && w.item.parent == g.id ==> OutcomeOf(s, g) == None && w.item.payload.Document?
  {
    assert Found(s.items, g.id, g);
    var i := g.seqNo - 1;
    assert LedgerOf(s, g.turn)[i] == g;
    OutcomeCommit(s, w, g.turn, i);
    KeptItem(s, w, g.id);
  }

  lemma KeptItem(s: State, w: Write, id: Id)
    requires Legal(s, w) && id in s.itemIds
    ensures id in Commit(s, w).itemIds && Commit(s, w).itemIds[id] == s.itemIds[id]
  {
    hide Admits, ActiveFence, Pending, RetryAdmitted, OtherRoot, RefTaken;
  }

  /** While a grant of its Turn is open, an Attempt stays current. */
  lemma AnchoredWrite(s: State, w: Write, g: Item, b: Binding)
    requires Inv(s) && Legal(s, w) && Open(s, g) && Anchored(s, g.turn, b)
    ensures Anchored(Commit(s, w), g.turn, b)
  {
    assert Found(s.items, g.id, g);
    var i := g.seqNo - 1;
    assert LedgerOf(s, g.turn)[i] == g && Unsettled(LedgerOf(s, g.turn), i);
    hide Legal, GrantOutcome;
    PendingHolds(s, w, g.turn, i);
    InvocationCommit(s, w, b.invocation);
  }

  lemma SnapshotWrite(s: State, w: Write, v: Invocation)
    requires Inv(s) && Legal(s, w) && Snapshot(s, v)
    ensures Snapshot(Commit(s, w), v)
  {
    hide Legal, Commit;
    InvocationCommit(s, w, v.id);
  }

  lemma SameDependencies(a: Invocation, b: Invocation)
    requires SameOwner(a, b)
    ensures Dependencies(a) == Dependencies(b)
  {
  }

  lemma HeldWrite(s: State, w: Write, pc: Pc)
    requires Inv(s) && Legal(s, w) && Held(s, pc)
    requires pc.Loaded? || !w.PutItem? || w.item.parent != pc.grant.id
    ensures Held(Commit(s, w), pc)
  {
    hide Legal, Commit, Inv, OutcomeOf, Snapshot, Anchored, Dependencies;
    if !pc.Loaded? { KeptWrite(s, w, pc.grant); }
    if pc.Loaded? || pc.Walking? || pc.Checking? { SnapshotWrite(s, w, pc.inv); }
    if pc.Checking? {
      forall b | b in Dependencies(pc.inv).value && b !in pc.left ensures Anchored(Commit(s, w), pc.grant.turn, b) {
        if OutcomeOf(s, pc.grant) != None { RecoveredIsRoot(s, pc.inv, pc.grant); }
        AnchoredWrite(s, w, pc.grant, b);
      }
    }
  }

  lemma KeptWrite(s: State, w: Write, g: Item)
    requires Inv(s) && Legal(s, w) && Kept(s, g) && (!w.PutItem? || w.item.parent != g.id)
    ensures Kept(Commit(s, w), g)
  {
    hide Legal, Commit, OutcomeOf;
    OutcomeWrite(s, w, g);
    if RootOwned(s, g) { InvocationCommit(s, w, g.invocation); }
  }

  /** What recovery took over depends on no ancestor. */
  lemma RecoveredIsRoot(s: State, v: Invocation, g: Item)
    requires RootOwned(s, g) && Snapshot(s, v) && g.invocation == v.id
    ensures Dependencies(v) == Some([])
  {
  }

  /** A grant is admitted unsettled: a claim that was already there is too early to settle it. */
  lemma FreshGrantOpen(s: State, g: Item)
    requires Inv(s) && Legal(s, PutItem(g)) && IsGrant(g)
    ensures Open(Commit(s, PutItem(g)), g)
  {
    var items := LedgerOf(s, g.turn);
    LedgerCommit(s, PutItem(g), g.turn);
    assert g.seqNo == |items| + 1 by { hide Admits; }
    forall v | v in items ensures v.seqNo <= |items| {
      var i :| 0 <= i < |items| && items[i] == v;
      assert Placed(s.itemIds, g.turn, i, items[i]);
    }
    if GrantOutcome(items + [g], g).Some? { SettledHasOneReceipt(items + [g], g); }
  }

  lemma AncestorsHeldWrite(s: State, w: Write, g: Item)
    requires Inv(s) && Legal(s, w) && Open(s, g) && AncestorsHeld(s, g)
    ensures AncestorsHeld(Commit(s, w), g)
  {
    hide Legal, Commit, Inv, Open, Anchored, Dependencies;
    InvocationOwner(s, w, g.invocation);
    SameDependencies(s.invocations[g.invocation], Commit(s, w).invocations[g.invocation]);
    forall b | b in Dependencies(s.invocations[g.invocation]).value ensures Anchored(Commit(s, w), g.turn, b) {
      AnchoredWrite(s, w, g, b);
    }
  }

  lemma InvocationOwner(s: State, w: Write, id: Id)
    requires Inv(s) && Legal(s, w) && id in s.invocations
    ensures id in Commit(s, w).invocations && SameOwner(s.invocations[id], Commit(s, w).invocations[id])
  {
    hide Legal, Commit;
    InvocationCommit(s, w, id);
  }

  /** A legal write keeps every grant's testimony, provided a receipt it appends is truthful. */
  lemma GrantsTellWrite(s: State, w: Write, entered: set<Id>)
    requires Inv(s) && Legal(s, w) && GrantsTell(s, entered)
    requires forall id :: id in entered ==> id in s.itemIds
    requires ChildOfGrant(s, w) && w.item.payload.Document? ==>
               Truthful(s, entered, s.itemIds[w.item.parent], w.item.payload.boundary)
    ensures GrantsTell(Commit(s, w), entered)
  {
    var s' := Commit(s, w);
    hide Inv, GrantOutcome, LedgerOf, AncestorsHeld;
    forall id | id in s'.itemIds && IsGrant(s'.itemIds[id])
      ensures ReceiptTells(s', entered, s'.itemIds[id])
      ensures id in entered && OutcomeOf(s', s'.itemIds[id]) == None ==> AncestorsHeld(s', s'.itemIds[id])
    {
      GrantTellsWrite(s, w, entered, id);
    }
  }

  lemma GrantTellsWrite(s: State, w: Write, entered: set<Id>, id: Id)
    requires Inv(s) && Legal(s, w) && GrantsTell(s, entered)
    requires forall id :: id in entered ==> id in s.itemIds
    requires ChildOfGrant(s, w) && w.item.payload.Document? ==>
               Truthful(s, entered, s.itemIds[w.item.parent], w.item.payload.boundary)
    requires id in Commit(s, w).itemIds && IsGrant(Commit(s, w).itemIds[id])
    ensures ReceiptTells(Commit(s, w), entered, Commit(s, w).itemIds[id])
    ensures id in entered && OutcomeOf(Commit(s, w), Commit(s, w).itemIds[id]) == None ==>
              AncestorsHeld(Commit(s, w), Commit(s, w).itemIds[id])
  {
    hide Inv, Legal, Commit, OutcomeOf, AncestorsHeld, IsGrant;
    if id in s.itemIds {
      KeptItem(s, w, id);
      ItemKeyed(s, id);
      OldGrantTells(s, w, entered, s.itemIds[id]);
    } else {
      NewItem(s, w, id);
      FreshGrantOpen(s, w.item);
      ItemKeyed(Commit(s, w), id) by { InvCommit(s, w); }
    }
  }

  lemma OldGrantTells(s: State, w: Write, entered: set<Id>, g: Item)
    requires Inv(s) && Legal(s, w) && GrantsTell(s, entered) && Stored(s, g)
    requires ChildOfGrant(s, w) && w.item.payload.Document? ==>
               Truthful(s, entered, s.itemIds[w.item.parent], w.item.payload.boundary)
    ensures ReceiptTells(Commit(s, w), entered, g)
    ensures g.id in entered && OutcomeOf(Commit(s, w), g) == None ==> AncestorsHeld(Commit(s, w), g)
  {
    hide Inv, OutcomeOf, AncestorsHeld, Legal, Commit;
    OutcomeWrite(s, w, g);
    assert ReceiptTells(s, entered, s.itemIds[g.id]);
    if RootOwned(s, g) { InvocationOwner(s, w, g.invocation); }
    if g.id in entered && OutcomeOf(s, g) == None { AncestorsHeldWrite(s, w, g); }
  }

  lemma NewItem(s: State, w: Write, id: Id)
    requires Legal(s, w) && id in Commit(s, w).itemIds && id !in s.itemIds
    ensures w == PutItem(Commit(s, w).itemIds[id])
  {
    hide Admits, ActiveFence, Pending, RetryAdmitted, OtherRoot, RefTaken;
  }

  // ---------------------------------------------------------------- every label keeps the invariant

  lemma WriteKeeps(y: Sys, w: Write)
    requires SysInv(y) && Legal(y.store, w) && !ChildOfGrant(y.store, w)
    ensures SysInv(y.(store := Commit(y.store, w)))
  {
    hide Legal, Commit, GrantsTell, Inv;
    InvCommit(y.store, w);
    forall p | p in y.workers ensures Held(Commit(y.store, w), y.workers[p]) {
      assert Held(y.store, y.workers[p]);
      HeldWrite(y.store, w, y.workers[p]);
    }
    forall id | id in y.store.itemIds ensures id in Commit(y.store, w).itemIds { KeptItem(y.store, w, id); }
    GrantsTellWrite(y.store, w, y.entered);
  }

  lemma MoveKeeps(y: Sys, w: nat, pc: Pc)
    requires SysInv(y) && Held(y.store, pc) && EntryAgrees(y.entered, pc)
    requires forall o :: o in y.workers && o != w && !y.workers[o].Loaded? && !pc.Loaded? ==>
               y.workers[o].grant.id != pc.grant.id
    ensures SysInv(Move(y, w, pc))
  {
    hide Held, EntryAgrees, GrantsTell, Inv;
  }

  lemma LeaveKeeps(y: Sys, w: nat)
    requires SysInv(y)
    ensures SysInv(Leave(y, w))
  {
    hide Held, EntryAgrees, GrantsTell, Inv;
  }

  /** A fresh grant is held by nobody else, so the worker that appended it may start walking. */
  lemma GrantedKeeps(y: Sys, w: nat, g: Item)
    requires SysInv(y) && w in y.workers && y.workers[w].Loaded? && Legal(y.store, PutItem(g)) && IsGrant(g)
    requires g.invocation == y.workers[w].inv.id && g.turn == y.workers[w].inv.turn
    ensures SysInv(Move(y.(store := Commit(y.store, PutItem(g))), w, Walking(y.workers[w].inv, g)))
  {
    hide Legal, Commit, Inv, GrantsTell, OutcomeOf;
    var inv := y.workers[w].inv;
    assert Held(y.store, y.workers[w]);
    forall o | o in y.workers && !y.workers[o].Loaded? ensures y.workers[o].grant.id in y.store.itemIds {
      assert Held(y.store, y.workers[o]);
    }
    FreshId(y.store, g);
    SnapshotWrite(y.store, PutItem(g), inv);
    WriteKeeps(y, PutItem(g));
    FreshGrantOpen(y.store, g);
    assert g.id !in y.entered;
    hide SysInv;
    MoveKeeps(y.(store := Commit(y.store, PutItem(g))), w, Walking(inv, g));
  }

  lemma BeginKeeps(y: Sys, l: Label)
    requires SysInv(y) && l.Begin? && l.w in y.workers && y.workers[l.w].Loaded?
    ensures SysInv(Next(y, l))
  {
    hide SysInv, Commit;
    var inv := y.workers[l.w].inv;
    var write := Append(y.store, GrantItem(inv, l.nonce, l.phase, l.physicalRun));
    AppendLegal(y.store, GrantItem(inv, l.nonce, l.phase, l.physicalRun));
    hide Legal;
    if write.PutItem? && inv.ref != Empty && l.physicalRun != Empty {
      assert IsGrant(write.item) && write.item.invocation == inv.id && write.item.turn == inv.turn;
      GrantedKeeps(y, l.w, write.item);
    } else {
      LeaveKeeps(y, l.w);
    }
  }

  /** A grant is never a child of another grant. */
  lemma FreshId(s: State, g: Item)
    requires Legal(s, PutItem(g)) && IsGrant(g)
    ensures g.id !in s.itemIds && !ChildOfGrant(s, PutItem(g))
  {
    hide AdmitsGrant;
  }

  lemma WalkKeeps(y: Sys, w: nat, foreign: set<Id>)
    requires SysInv(y) && w in y.workers && y.workers[w].Walking?
    ensures SysInv(Move(y, w, Walked(y.store, y.workers[w], foreign)))
  {
    hide SysInv, ChainFrozen, Kept, Snapshot, Frozen, Anchored;
    HeldAt(y, w);
    OthersDiffer(y, w);
    MoveKeeps(y, w, Walked(y.store, y.workers[w], foreign));
  }

  lemma HeldAt(y: Sys, w: nat)
    requires SysInv(y) && w in y.workers
    ensures Held(y.store, y.workers[w]) && EntryAgrees(y.entered, y.workers[w])
  {
    hide Held, EntryAgrees, GrantsTell, Inv, Exclusive;
  }

  lemma OthersDiffer(y: Sys, w: nat)
    requires SysInv(y) && w in y.workers && !y.workers[w].Loaded?
    ensures forall o :: o in y.workers && o != w && !y.workers[o].Loaded? ==> y.workers[o].grant.id != y.workers[w].grant.id
  {
    hide Held, EntryAgrees, GrantsTell, Inv;
  }

  lemma CheckKeeps(y: Sys, w: nat, verdict: bool)
    requires SysInv(y) && w in y.workers && y.workers[w].Checking? && y.workers[w].left != []
    ensures SysInv(Move(y, w, Checked(y.store, y.workers[w], verdict)))
  {
    hide SysInv, Kept, Snapshot, Dependencies;
    var pc := y.workers[w];
    HeldAt(y, w);
    OthersDiffer(y, w);
    assert forall b :: b in pc.left ==> b == pc.left[0] || b in pc.left[1..];
    MoveKeeps(y, w, Checked(y.store, pc, verdict));
  }

  lemma AllAnchored(y: Sys, w: nat)
    requires SysInv(y) && w in y.workers && y.workers[w].Checking? && y.workers[w].left == []
    ensures AncestorsHeld(y.store, y.workers[w].grant) && Kept(y.store, y.workers[w].grant)
    ensures y.workers[w].grant.invocation == y.workers[w].inv.id
  {
    hide SysInv, OutcomeOf, Anchored, Dependencies;
    HeldAt(y, w);
    SameDependencies(y.workers[w].inv, y.store.invocations[y.workers[w].inv.id]);
  }

  /** After a passing check of every dependency the grant may be remembered as entered. */
  lemma EnteredTell(y: Sys, w: nat)
    requires SysInv(y) && w in y.workers && y.workers[w].Checking? && y.workers[w].left == []
    ensures GrantsTell(y.store, y.entered + {y.workers[w].grant.id})
  {
    hide Inv, Held, Exclusive, EntryAgrees, AncestorsHeld, OutcomeOf;
    AllAnchored(y, w);
    var g, s := y.workers[w].grant, y.store;
    forall id | id in s.itemIds && IsGrant(s.itemIds[id])
      ensures ReceiptTells(s, y.entered + {g.id}, s.itemIds[id])
      ensures id in y.entered + {g.id} && OutcomeOf(s, s.itemIds[id]) == None ==> AncestorsHeld(s, s.itemIds[id])
    {
      ItemKeyed(s, id);
      assert ReceiptTells(s, y.entered, s.itemIds[id]);
    }
  }

  lemma ItemKeyed(s: State, id: Id)
    requires Inv(s) && id in s.itemIds
    ensures s.itemIds[id].id == id
  {
    hide GrantsOwned, OneFence, OneGrant, Keyed, RefsAgree, OneRoot;
    assert Found(s.items, id, s.itemIds[id]);
  }

  lemma EnterKeeps(y: Sys, w: nat)
    requires SysInv(y) && w in y.workers && y.workers[w].Checking? && y.workers[w].left == []
    ensures SysInv(Move(y, w, Inside(y.workers[w].grant)).(entered := y.entered + {y.workers[w].grant.id}))
  {
    hide GrantsTell, Inv, Held, EntryAgrees;
    var g := y.workers[w].grant;
    EnteredTell(y, w);
    OthersDiffer(y, w);
    HeldGrant(y, w);
    forall o | o in y.workers && o != w ensures EntryAgrees(y.entered + {g.id}, y.workers[o]) {
      EntryOther(y.entered, g.id, y.workers[o]);
    }
  }

  lemma HeldGrant(y: Sys, w: nat)
    requires SysInv(y) && w in y.workers && !y.workers[w].Loaded?
    ensures Stored(y.store, y.workers[w].grant) && Held(y.store, Inside(y.workers[w].grant))
    ensures EntryAgrees(y.entered + {y.workers[w].grant.id}, Inside(y.workers[w].grant))
  {
    hide GrantsTell, Inv, OutcomeOf, Snapshot, Anchored, Exclusive;
    assert Held(y.store, y.workers[w]);
  }

  lemma EntryOther(entered: set<Id>, id: Id, pc: Pc)
    requires EntryAgrees(entered, pc) && (pc.Loaded? || pc.grant.id != id)
    ensures EntryAgrees(entered + {id}, pc)
  {
  }

  lemma ReturnKeeps(y: Sys, w: nat, b: Boundary)
    requires SysInv(y) && w in y.workers && y.workers[w].Inside? && Reportable(b)
    ensures SysInv(Move(y, w, Returned(y.workers[w].grant, b)))
  {
    hide SysInv, Kept;
    HeldAt(y, w);
    OthersDiffer(y, w);
    MoveKeeps(y, w, Returned(y.workers[w].grant, b));
  }

  /** A truthful receipt from the grant's only holder keeps everything the other workers rely on. */
  lemma ReceiptKeeps(y: Sys, w: nat, write: Write)
    requires SysInv(y) && w in y.workers && !y.workers[w].Loaded?
    requires Legal(y.store, write) && write.PutItem? && write.item.parent == y.workers[w].grant.id
    requires write.item.payload.Document?
    requires write.item.payload.boundary != NativeKernelEpochRecovered
    requires write.item.payload.boundary == PhysicalDispatchRejected <==> y.workers[w].grant.id !in y.entered
    ensures SysInv(Leave(y.(store := Commit(y.store, write)), w))
  {
    hide Legal, Commit, Inv, GrantsTell, Held, EntryAgrees;
    InvCommit(y.store, write);
    HeldGrant(y, w);
    GrantsTellWrite(y.store, write, y.entered);
    OthersDiffer(y, w);
    forall o | o in y.workers && o != w ensures Held(Commit(y.store, write), y.workers[o]) {
      HeldWrite(y.store, write, y.workers[o]);
    }
    forall id | id in y.store.itemIds ensures id in Commit(y.store, write).itemIds { KeptItem(y.store, write, id); }
  }

  /** A worker settles its grant as rejected exactly when it never entered the executor. */
  lemma Testimony(y: Sys, w: nat)
    requires SysInv(y) && w in y.workers
    ensures y.workers[w].Refused? ==> y.workers[w].grant.id !in y.entered
    ensures y.workers[w].Returned? ==> y.workers[w].grant.id in y.entered && Reportable(y.workers[w].boundary)
  {
    hide GrantsTell, Inv, Kept, Exclusive;
    assert Held(y.store, y.workers[w]) && EntryAgrees(y.entered, y.workers[w]);
  }

  lemma SettleKeeps(y: Sys, w: nat, boundary: Boundary)
    requires SysInv(y) && w in y.workers && (y.workers[w].Refused? || y.workers[w].Returned?)
    requires boundary == if y.workers[w].Refused? then PhysicalDispatchRejected else y.workers[w].boundary
    ensures SysInv(Leave(y.(store := Commit(y.store, Append(y.store, ReceiptItem(y.workers[w].grant, boundary)))), w))
  {
    hide SysInv, Inv, Admits;
    var item := ReceiptItem(y.workers[w].grant, boundary);
    Testimony(y, w);
    AppendLegal(y.store, item);
    if Append(y.store, item).PutItem? {
      ReceiptKeeps(y, w, Append(y.store, item));
    } else {
      LeaveKeeps(y, w);
    }
  }

  /** Recovery settles a root's grant; if a worker still holds it, the worker now holds a recovered grant. */
  lemma RecoverKeeps(y: Sys, id: Id)
    requires SysInv(y) && Recoverable(y.store, id)
    ensures SysInv(y.(store := Commit(y.store, Append(y.store, ReceiptItem(y.store.itemIds[id], NativeKernelEpochRecovered)))))
  {
    hide Inv, GrantsTell, Held, EntryAgrees, Legal, Commit, AppendItem;
    var g := y.store.itemIds[id];
    var item := ReceiptItem(g, NativeKernelEpochRecovered);
    var write := Append(y.store, item);
    ItemKeyed(y.store, id);
    AppendLegal(y.store, item);
    if write.PutItem? {
      InvCommit(y.store, write);
      GrantsTellWrite(y.store, write, y.entered);
      forall o | o in y.workers ensures Held(Commit(y.store, write), y.workers[o]) {
        if !y.workers[o].Loaded? && y.workers[o].grant.id == id {
          HeldGrant(y, o);
          RecoveredHeld(y.store, write, y.workers[o]);
        } else {
          HeldWrite(y.store, write, y.workers[o]);
        }
      }
      forall k | k in y.store.itemIds ensures k in Commit(y.store, write).itemIds { KeptItem(y.store, write, k); }
    } else {
      Unwritten(y.store);
    }
  }

  lemma Unwritten(s: State)
    ensures Commit(s, NoWrite) == s
  {
  }

  lemma RecoveredHeld(s: State, w: Write, pc: Pc)
    requires Inv(s) && Legal(s, w) && Held(s, pc) && !pc.Loaded? && RootOwned(s, pc.grant)
    requires w.PutItem? && w.item.parent == pc.grant.id && w.item.payload.Document?
    requires w.item.payload.boundary == NativeKernelEpochRecovered
    ensures Held(Commit(s, w), pc)
  {
    hide Legal, Commit, Inv, OutcomeOf, Anchored, Dependencies;
    OutcomeWrite(s, w, pc.grant);
    InvocationOwner(s, w, pc.grant.invocation);
    if pc.Walking? || pc.Checking? { SnapshotWrite(s, w, pc.inv); }
    if pc.Checking? { RecoveredIsRoot(Commit(s, w), pc.inv, pc.grant); }
  }

  lemma NextKeeps(y: Sys, l: Label)
    requires SysInv(y)
    ensures SysInv(Next(y, l))
  {
    hide SysInv, Legal, Commit, Append, Walked, Checked, Recoverable;
    match l {
      case Env(w) => if Legal(y.store, w) && !ChildOfGrant(y.store, w) { WriteKeeps(y, w); }
      case Recover(id) => if Recoverable(y.store, id) { RecoverKeeps(y, id); }
      case Load(w, id) =>
        if w !in y.workers && id in y.store.invocations {
          LoadKeeps(y, w, id);
        }
      case Begin(w, _, _, _) => if w in y.workers && y.workers[w].Loaded? { BeginKeeps(y, l); }
      case Walk(w, v) => if w in y.workers && y.workers[w].Walking? { WalkKeeps(y, w, v); }
      case Check(w, v) => if w in y.workers && y.workers[w].Checking? && y.workers[w].left != [] { CheckKeeps(y, w, v); }
      case Enter(w) => if w in y.workers && y.workers[w].Checking? && y.workers[w].left == [] { EnterKeeps(y, w); }
      case Return(w, b) => if w in y.workers && y.workers[w].Inside? && Reportable(b) { ReturnKeeps(y, w, b); }
      case Settle(w) =>
        if w in y.workers && y.workers[w].Refused? { SettleKeeps(y, w, PhysicalDispatchRejected); }
        if w in y.workers && y.workers[w].Returned? { SettleKeeps(y, w, y.workers[w].boundary); }
      case Crash(w) => LeaveKeeps(y, w);
    }
  }

  lemma LoadKeeps(y: Sys, w: nat, id: Id)
    requires SysInv(y) && id in y.store.invocations
    ensures SysInv(Move(y, w, Loaded(y.store.invocations[id])))
  {
    assert Held(y.store, Loaded(y.store.invocations[id]));
    hide SysInv, Held;
    MoveKeeps(y, w, Loaded(y.store.invocations[id]));
  }

  lemma {:induction false} StepsKeep(y: Sys, labels: seq<Label>)
    requires SysInv(y)
    ensures SysInv(Steps(y, labels))
  {
    hide Next, SysInv;
    if labels != [] {
      StepsKeep(y, labels[..|labels| - 1]);
      NextKeeps(Steps(y, labels[..|labels| - 1]), labels[|labels| - 1]);
    }
  }

  lemma Protocol(labels: seq<Label>)
    ensures SysInv(Steps(START, labels))
  {
    assert SysInv(START);
    hide SysInv, Steps;
    StepsKeep(START, labels);
  }
}
