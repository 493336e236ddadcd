/**
 What every reachable state of the Store satisfies, whatever requests were issued in whatever order:
 ledgers are numbered and indexed, each Turn has at most one open fence and one root, each Invocation
 at most one unsettled grant, and the execution-ref index agrees with a scan of all Invocations.
 */
module StoreInvariant {
  import opened Records
  import opened Ledger
  import opened RetryFence
  import opened Admission

  ghost predicate Placed(itemIds: map<Id, Item>, t: Id, i: nat, v: Item) {
    v.turn == t && v.seqNo == i + 1 && v.id in itemIds && itemIds[v.id] == v
  }

  ghost predicate Found(items: map<Id, seq<Item>>, id: Id, v: Item) {
    v.id == id && v.turn in items && 0 < v.seqNo <= |items[v.turn]| && items[v.turn][v.seqNo - 1] == v
  }

  /** The Turn ledgers and the global identity index hold the same Items, numbered from one. */
  ghost predicate LedgerIndexed(items: map<Id, seq<Item>>, itemIds: map<Id, Item>) {
    && (forall t, i :: t in items && 0 <= i < |items[t]| ==> Placed(itemIds, t, i, items[t][i]))
    && (forall id :: id in itemIds ==> Found(items, id, itemIds[id]))
  }

  ghost predicate Keyed(invocations: map<Id, Invocation>) {
    forall id :: id in invocations ==> invocations[id].id == id && ValidInvocation(invocations[id])
  }

  /** The ref index and a scan of all Invocations name the same owner for every execution ref. */
  ghost predicate RefsAgree(invocations: map<Id, Invocation>, refs: map<Id, Id>) {
    && (forall id :: id in invocations && invocations[id].ref != Empty ==>
          invocations[id].ref in refs && refs[invocations[id].ref] == id)
    && (forall r :: r in refs ==> r != Empty && refs[r] in invocations && invocations[refs[r]].ref == r)
  }

  ghost predicate OneRoot(invocations: map<Id, Invocation>) {
    forall a, b | a in invocations && b in invocations && invocations[a].turn == invocations[b].turn &&
                  invocations[a].parent == Empty && invocations[b].parent == Empty :: a == b
  }

  ghost predicate OneFence(items: seq<Item>) {
    forall i, j | 0 <= i < |items| && 0 <= j < |items| && OpenFence(items, i) && OpenFence(items, j) :: i == j
  }

  ghost predicate OneGrant(items: seq<Item>) {
    forall i, j | 0 <= i < j < |items| && Unsettled(items, i) && Unsettled(items, j) ::
      items[i].invocation != items[j].invocation
  }

  /** Every grant has an owner in its Turn; an unsettled one names that owner's current execution
      ref, and its owner has not been marked Failed. */
  ghost predicate GrantOwned(invocations: map<Id, Invocation>, g: Item, unsettled: bool) {
    && g.invocation in invocations && invocations[g.invocation].turn == g.turn
    && (unsettled ==> invocations[g.invocation].ref == g.run && invocations[g.invocation].status != Failed)
  }

  ghost predicate GrantsOwned(invocations: map<Id, Invocation>, items: seq<Item>) {
    forall i :: 0 <= i < |items| && IsGrant(items[i]) ==> GrantOwned(invocations, items[i], Unsettled(items, i))
  }

  ghost predicate LedgerInv(s: State, t: Id) {
    OneFence(LedgerOf(s, t)) && OneGrant(LedgerOf(s, t)) && GrantsOwned(s.invocations, LedgerOf(s, t))
  }

  ghost predicate Inv(s: State) {
    && LedgerIndexed(s.items, s.itemIds) && Keyed(s.invocations)
    && RefsAgree(s.invocations, s.refs) && OneRoot(s.invocations)
    && forall t :: LedgerInv(s, t)
  }

  lemma KeyedIn(s: State)
    requires Inv(s)
    ensures Keyed(s.invocations)
  {
    hide Keyed, LedgerInv;
  }

  // ---------------------------------------------------------------- requests commit legal writes

  lemma AppendLegal(s: State, v: Item)
    ensures match AppendItem(s, v)
            case Ok((w, true)) => Legal(s, PutItem(w)) && w == Numbered(s, v)
            case _ => true
  {
    hide ActiveFence, Pending, AdmitsChild;
    assert Numbered(s, Numbered(s, v)) == Numbered(s, v);
  }

  lemma RetryLegal(s: State, id: Id, r: nat, next: Id)
    requires Keyed(s.invocations)
    ensures match RetryInvocation(s, id, r, next)
            case Some(v) => Legal(s, PutRotated(v)) && v.id == id && v.ref == next
            case None => true
  {
    hide ActiveFence, Pending, RetryPermitted, RefTaken;
  }

  lemma StepLegal(s: State, op: Op) returns (w: Write)
    requires Keyed(s.invocations)
    ensures w == Decide(s, op) && Legal(s, w) && Step(s, op) == Commit(s, w)
    ensures w.PutItem? ==> op.DoAppend? && w.item == Numbered(s, op.item)
    ensures w.PutUpdated? ==> op.DoUpdate? && w.invocation == op.invocation.(revision := op.expected + 1)
    ensures w.PutRotated? ==> op.DoRetry? && w.invocation.id == op.id && w.invocation.ref == op.next
  {
    hide ActiveFence, Pending, OtherRoot, RefTaken, HasWaiting, RetryInvocation, AppendItem, Admits, RetryAdmitted, Commit;
    if op.DoAppend? { AppendLegal(s, op.item); }
    if op.DoRetry? { RetryLegal(s, op.id, op.expected, op.next); }
    w := Decide(s, op);
  }

  // ---------------------------------------------------------------- the ledger grows, one Item at a time

  lemma LedgerCommit(s: State, w: Write, t: Id)
    requires Legal(s, w)
    ensures LedgerOf(Commit(s, w), t) ==
            if w.PutItem? && w.item.turn == t then LedgerOf(s, t) + [w.item] else LedgerOf(s, t)
  {
    hide Legal;
  }

  lemma LedgerIndexedCommit(s: State, w: Write)
    requires LedgerIndexed(s.items, s.itemIds) && Legal(s, w)
    ensures LedgerIndexed(Commit(s, w).items, Commit(s, w).itemIds)
  {
    if w.PutItem? {
      assert w.item.id !in s.itemIds && w.item.seqNo == |LedgerOf(s, w.item.turn)| + 1 by { hide Admits; }
      IndexedAppend(s.items, s.itemIds, LedgerOf(s, w.item.turn), w.item);
    } else {
      assert Commit(s, w).items == s.items && Commit(s, w).itemIds == s.itemIds;
    }
  }

  lemma IndexedAppend(items: map<Id, seq<Item>>, itemIds: map<Id, Item>, ledger: seq<Item>, v: Item)
    requires LedgerIndexed(items, itemIds) && v.id !in itemIds
    requires ledger == (if v.turn in items then items[v.turn] else []) && v.seqNo == |ledger| + 1
    ensures LedgerIndexed(items[v.turn := ledger + [v]], itemIds[v.id := v])
  {
    var items', itemIds' := items[v.turn := ledger + [v]], itemIds[v.id := v];
    forall t, i | t in items' && 0 <= i < |items'[t]| ensures Placed(itemIds', t, i, items'[t][i]) {
      if t == v.turn && i == |ledger| {
      } else {
        assert items'[t][i] == items[t][i] && Placed(itemIds, t, i, items[t][i]);
      }
    }
    forall id | id in itemIds' ensures Found(items', id, itemIds'[id]) {
      if id != v.id { assert Found(items, id, itemIds[id]); }
    }
  }

  /** A grant already in a ledger keeps its settlement under any write; only its first matching
      receipt can settle it. */
  lemma OutcomeCommit(s: State, w: Write, t: Id, i: nat)
    requires LedgerIndexed(s.items, s.itemIds) && Legal(s, w) && i < |LedgerOf(s, t)| && IsGrant(LedgerOf(s, t)[i])
    ensures i < |LedgerOf(Commit(s, w), t)| && LedgerOf(Commit(s, w), t)[i] == LedgerOf(s, t)[i]
    ensures var g, before := LedgerOf(s, t)[i], GrantOutcome(LedgerOf(s, t), LedgerOf(s, t)[i]);
            GrantOutcome(LedgerOf(Commit(s, w), t), g) ==
            if w.PutItem? && w.item.parent == g.id && g.id != ExecutionDispatchParent && w.item.payload.Document?
            then Some(w.item.payload.boundary) else before
    ensures w.PutItem? && w.item.parent == LedgerOf(s, t)[i].id ==>
              && GrantOutcome(LedgerOf(s, t), LedgerOf(s, t)[i]) == None
              && w.item.payload.Document? && w.item.turn == t
  {
    LedgerCommit(s, w, t);
    var items := LedgerOf(s, t);
    var g := items[i];
    if w.PutItem? {
      var v := w.item;
      if v.parent == g.id {
        assert Placed(s.itemIds, t, i, g);
        assert AdmitsChild(s, v);
        FirstClaimSettles(items, v, g);
      } else if v.turn == t {
        UnclaimedAppend(items, v, g);
      }
    }
  }

  // ---------------------------------------------------------------- Invocations

  /** Identity never changes and Invocations never disappear. */
  predicate SameOwner(a: Invocation, b: Invocation) {
    && a.id == b.id && a.turn == b.turn && a.parent == b.parent && a.executionClass == b.executionClass
    && a.capability == b.capability && a.input == b.input && a.inputHash == b.inputHash
    && a.attempt <= b.attempt && a.revision <= b.revision
    && (a.revision == b.revision ==> a == b)
    && (a.attempt == b.attempt ==> a.ref == b.ref && (Terminal(a.status) ==> b.status == a.status))
  }

  /** The Attempt moves only by a rotation; anything else about an Invocation only by an update. */
  lemma InvocationCommit(s: State, w: Write, id: Id)
    requires Keyed(s.invocations) && Legal(s, w) && id in s.invocations
    ensures id in Commit(s, w).invocations && SameOwner(s.invocations[id], Commit(s, w).invocations[id])
    ensures var a, b := s.invocations[id], Commit(s, w).invocations[id];
            && (a.attempt != b.attempt ==> w == PutRotated(b) && b.ref != Empty)
            && (a.attempt == b.attempt && a != b ==> w == PutUpdated(b))
  {
    hide ActiveFence, Pending, RetryAdmitted, OtherRoot, Admits, RefTaken, LedgerOf, ValidInteraction, Resolves, SameTurn;
    assert s.invocations[id].id == id;
    hide Keyed;
  }

  lemma FreshOnly(s: State, w: Write, id: Id)
    requires Legal(s, w) && id in Commit(s, w).invocations && id !in s.invocations
    ensures w == PutFresh(Commit(s, w).invocations[id])
  {
    hide ActiveFence, Pending, RetryAdmitted, OtherRoot, Admits;
  }

  lemma KeyedCommit(s: State, w: Write)
    requires Keyed(s.invocations) && Legal(s, w)
    ensures Keyed(Commit(s, w).invocations)
  {
    hide ActiveFence, Pending, RetryAdmitted, OtherRoot, RefTaken, Admits;
    match w {
      case PutFresh(v) => assert Commit(s, w).invocations == s.invocations[v.id := v];
      case PutUpdated(v) => assert Commit(s, w).invocations == s.invocations[v.id := v];
      case PutRotated(v) => assert Commit(s, w).invocations == s.invocations[v.id := v];
      case _ => assert Commit(s, w).invocations == s.invocations;
    }
  }

  lemma RefsAgreeCommit(s: State, w: Write)
    requires Keyed(s.invocations) && RefsAgree(s.invocations, s.refs) && Legal(s, w)
    ensures RefsAgree(Commit(s, w).invocations, Commit(s, w).refs)
  {
    assert Empty !in s.invocations;
    hide ActiveFence, Pending, OtherRoot, RetryPermitted, Admits, Keyed;
    match w {
      case PutFresh(v) =>
        assert v.ref !in s.refs;
        RefsFresh(s.invocations, s.refs, v);
      case PutUpdated(v) => RefsUpdated(s.invocations, s.refs, v);
      case PutRotated(v) =>
        assert !RefTaken(s, v.ref, v.id);
        RefsRotated(s.invocations, s.refs, v);
      case _ => assert Commit(s, w).invocations == s.invocations && Commit(s, w).refs == s.refs;
    }
  }

  lemma RefsFresh(invocations: map<Id, Invocation>, refs: map<Id, Id>, v: Invocation)
    requires RefsAgree(invocations, refs) && v.id !in invocations && v.ref !in refs
    ensures RefsAgree(invocations[v.id := v], if v.ref != Empty then refs[v.ref := v.id] else refs)
  {
  }

  lemma RefsUpdated(invocations: map<Id, Invocation>, refs: map<Id, Id>, v: Invocation)
    requires RefsAgree(invocations, refs) && v.id in invocations && invocations[v.id].ref == v.ref
    ensures RefsAgree(invocations[v.id := v], refs)
  {
  }

  lemma RefsRotated(invocations: map<Id, Invocation>, refs: map<Id, Id>, v: Invocation)
    requires RefsAgree(invocations, refs) && v.id in invocations && v.ref != Empty
    requires v.ref in refs ==> refs[v.ref] == v.id
    ensures RefsAgree(invocations[v.id := v], (refs - {invocations[v.id].ref})[v.ref := v.id])
  {
  }

  lemma OneRootCommit(s: State, w: Write)
    requires Keyed(s.invocations) && OneRoot(s.invocations) && Legal(s, w)
    ensures OneRoot(Commit(s, w).invocations)
  {
    hide ActiveFence, Pending, RetryAdmitted, RefTaken, Admits;
    match w {
      case PutFresh(v) => RootsPut(s.invocations, v);
      case PutUpdated(v) => RootsPut(s.invocations, v);
      case PutRotated(v) => RootsPut(s.invocations, v);
      case _ => assert Commit(s, w).invocations == s.invocations;
    }
  }

  lemma RootsPut(invocations: map<Id, Invocation>, v: Invocation)
    requires OneRoot(invocations)
    requires if v.id in invocations
             then invocations[v.id].turn == v.turn && invocations[v.id].parent == v.parent
             else v.parent == Empty ==>
               forall id :: id in invocations && invocations[id].turn == v.turn ==> invocations[id].parent != Empty
    ensures OneRoot(invocations[v.id := v])
  {
  }

  // ---------------------------------------------------------------- fences and grants

  lemma OneFenceAppend(items: seq<Item>, v: Item)
    requires OneFence(items) && (IsFence(v) ==> !ActiveFence(items))
    ensures OneFence(items + [v])
  {
    forall i | 0 <= i < |items| && OpenFence(items + [v], i) ensures OpenFence(items, i) && !IsFence(v) {
      forall j | 0 <= j < |items| ensures !Closes(items[j], items[i].id) { assert (items + [v])[j] == items[j]; }
      assert OpenFence(items, i);
    }
  }

  lemma OneFenceCommit(s: State, w: Write, t: Id)
    requires OneFence(LedgerOf(s, t)) && Legal(s, w)
    ensures OneFence(LedgerOf(Commit(s, w), t))
  {
    LedgerCommit(s, w, t);
    if w.PutItem? && w.item.turn == t {
      assert IsFence(w.item) ==> !ActiveFence(LedgerOf(s, t)) by { hide AdmitsGrant, AdmitsChild, ActiveFence; }
      OneFenceAppend(LedgerOf(s, t), w.item);
    }
  }

  lemma UnsettledCommit(s: State, w: Write, t: Id, i: nat)
    requires LedgerIndexed(s.items, s.itemIds) && Legal(s, w) && i < |LedgerOf(s, t)|
    ensures i < |LedgerOf(Commit(s, w), t)| && LedgerOf(Commit(s, w), t)[i] == LedgerOf(s, t)[i]
    ensures Unsettled(LedgerOf(Commit(s, w), t), i) ==> Unsettled(LedgerOf(s, t), i)
  {
    hide Legal;
    LedgerCommit(s, w, t);
    if IsGrant(LedgerOf(s, t)[i]) { OutcomeCommit(s, w, t, i); }
  }

  lemma GrantAdmission(s: State, v: Item)
    requires Legal(s, PutItem(v)) && IsGrant(v)
    ensures AdmitsGrant(s, v)
  {
    hide AdmitsGrant, AdmitsChild;
  }

  lemma OneGrantCommit(s: State, w: Write, t: Id)
    requires LedgerIndexed(s.items, s.itemIds) && OneGrant(LedgerOf(s, t)) && Legal(s, w)
    ensures OneGrant(LedgerOf(Commit(s, w), t))
  {
    hide Legal, GrantOutcome;
    LedgerCommit(s, w, t);
    var items, items' := LedgerOf(s, t), LedgerOf(Commit(s, w), t);
    forall i, j | 0 <= i < j < |items'| && Unsettled(items', i) && Unsettled(items', j)
      ensures items'[i].invocation != items'[j].invocation
    {
      UnsettledCommit(s, w, t, i);
      if j < |items| {
        UnsettledCommit(s, w, t, j);
      } else {
        GrantAdmission(s, w.item);
        assert !Pending(items, w.item.invocation);
      }
    }
  }

  /** While a grant is unsettled its owner is not marked Failed, and no Attempt of its Turn rotates. */
  lemma PendingHolds(s: State, w: Write, t: Id, i: nat)
    requires Legal(s, w) && i < |LedgerOf(s, t)| && Unsettled(LedgerOf(s, t), i)
    ensures w.PutUpdated? && w.invocation.status == Failed && w.invocation.turn == t ==>
              w.invocation.id != LedgerOf(s, t)[i].invocation
    ensures w.PutRotated? ==> w.invocation.turn != t
  {
    assert Pending(LedgerOf(s, t), Empty) && Pending(LedgerOf(s, t), LedgerOf(s, t)[i].invocation);
    hide ActiveFence, RetryPermitted, Pending;
  }

  lemma GrantsOwnedCommit(s: State, w: Write, t: Id)
    requires LedgerIndexed(s.items, s.itemIds) && Keyed(s.invocations) && GrantsOwned(s.invocations, LedgerOf(s, t))
    requires Legal(s, w)
    ensures GrantsOwned(Commit(s, w).invocations, LedgerOf(Commit(s, w), t))
  {
    hide GrantOutcome, Legal, Keyed;
    LedgerCommit(s, w, t);
    var items, items' := LedgerOf(s, t), LedgerOf(Commit(s, w), t);
    forall i | 0 <= i < |items'| && IsGrant(items'[i])
      ensures GrantOwned(Commit(s, w).invocations, items'[i], Unsettled(items', i))
    {
      if i < |items| {
        assert GrantOwned(s.invocations, items[i], Unsettled(items, i));
        assert Placed(s.itemIds, t, i, items[i]);
        UnsettledCommit(s, w, t, i);
        InvocationCommit(s, w, items[i].invocation);
        if Unsettled(items, i) { PendingHolds(s, w, t, i); }
      } else {
        GrantAdmission(s, w.item);
        InvocationCommit(s, w, w.item.invocation);
      }
    }
  }

  // ---------------------------------------------------------------- every reachable state

  lemma InvCommit(s: State, w: Write)
    requires Inv(s) && Legal(s, w)
    ensures Inv(Commit(s, w))
  {
    hide Legal, LedgerIndexed, Keyed, RefsAgree, OneRoot, OneFence, OneGrant, GrantsOwned, Commit;
    LedgerIndexedCommit(s, w);
    KeyedCommit(s, w);
    RefsAgreeCommit(s, w);
    OneRootCommit(s, w);
    forall t ensures LedgerInv(Commit(s, w), t) {
      assert LedgerInv(s, t);
      OneFenceCommit(s, w, t);
      OneGrantCommit(s, w, t);
      GrantsOwnedCommit(s, w, t);
    }
  }

  lemma InvStep(s: State, op: Op)
    requires Inv(s)
    ensures Inv(Step(s, op))
  {
    hide Step, Legal, Commit;
    var w := StepLegal(s, op);
    InvCommit(s, w);
  }

  lemma {:induction false} InvRun(s: State, script: seq<Op>)
    requires Inv(s)
    ensures Inv(Run(s, script))
  {
    hide Step, Inv;
    if script != [] {
      InvRun(s, script[..|script| - 1]);
      InvStep(Run(s, script[..|script| - 1]), script[|script| - 1]);
    }
  }

  /** The ledger invariant of every reachable state. */
  lemma Reachable(script: seq<Op>)
    ensures Inv(Run(INITIAL, script))
  {
    assert Inv(INITIAL);
    hide Inv, Run;
    InvRun(INITIAL, script);
  }
}
