/**
 What the ledger decisions mean, said of Items and nothing else: which Items open and close a
 cancellation fence, which settle a grant and with what, and which grants are still owed a receipt.
 The Store's guards are stated in these terms.
 */
module LedgerMeaning {
  import opened Records
  import opened Ledger

  /** A started diagnostic under the fence parent whose own identity no completed diagnostic names as parent. */
  ghost predicate FenceOpenAt(items: seq<Item>, i: nat)
    requires i < |items|
  {
    && items[i].kind.Diagnostic? && items[i].status.ItemStarted? && items[i].parent.CancellationFenceParent?
    && forall j :: 0 <= j < |items| && items[j].kind.Diagnostic? && items[j].status.ItemCompleted? ==>
         items[j].parent != items[i].id
  }

  ghost predicate FenceOpen(items: seq<Item>) {
    exists i :: 0 <= i < |items| && FenceOpenAt(items, i)
  }

  lemma FenceMeans(items: seq<Item>)
    ensures ActiveFence(items) <==> FenceOpen(items)
  {
    forall i | 0 <= i < |items| ensures OpenFence(items, i) <==> FenceOpenAt(items, i) {}
  }

  /** Appending a fence Item opens a fence unless its identity was completed before; appending its
      completed child closes that fence. */
  lemma FenceLifecycle(items: seq<Item>, fence: Item, close: Item, more: seq<Item>)
    requires fence.kind.Diagnostic? && fence.status.ItemStarted? && fence.parent.CancellationFenceParent?
    requires forall j :: 0 <= j < |items| ==> items[j].parent != fence.id
    requires fence.id != CancellationFenceParent
    requires forall j :: 0 <= j < |more| ==> more[j].parent != fence.id
    requires close.kind.Diagnostic? && close.status.ItemCompleted? && close.parent == fence.id
    ensures ActiveFence(items + [fence] + more)
    ensures !OpenFence(items + [fence] + more + [close], |items|)
  {
    var open := items + [fence] + more;
    assert open[|items|] == fence;
    assert FenceOpenAt(open, |items|);
    FenceMeans(open);
    assert (open + [close])[|open|] == close;
  }

  const RECEIPTS := {PhysicalDispatchRejected, FeatureStartNoEffect, NativeAgentStartNoEffect, NativeAgentControlNoEffect,
                     PhysicalDispatchReturned, HandoffStartReturned, NativeKernelEpochRecovered}

  /** A started diagnostic under the dispatch parent. */
  predicate DispatchGrant(v: Item) {
    v.kind.Diagnostic? && v.status.ItemStarted? && v.parent.ExecutionDispatchParent?
  }

  /** The Item at `i` is the only diagnostic child of the grant, and it is that grant's completed receipt. */
  ghost predicate SoleReceipt(items: seq<Item>, g: Item, i: nat)
    requires i < |items|
  {
    && (forall j :: 0 <= j < |items| ==> (items[j].kind.Diagnostic? && items[j].parent == g.id <==> j == i))
    && items[i].id != Empty && items[i].status.ItemCompleted? && items[i].seqNo > g.seqNo
    && items[i].turn == g.turn && items[i].invocation == g.invocation && items[i].run == g.run
    && items[i].payload.Document? && items[i].payload.boundary in RECEIPTS
  }

  /** A grant that can be settled names its Turn, owner and Run, and did not take the reserved parent's identity. */
  predicate Settleable(g: Item) {
    && DispatchGrant(g) && g.id !in {Empty, ExecutionDispatchParent} && g.seqNo > 0
    && Empty !in {g.turn, g.invocation, g.run}
  }

  lemma {:induction false} NoClaim(items: seq<Item>, g: Id)
    ensures ClaimsOf(items, g) == [] <==> forall j :: 0 <= j < |items| ==> !ClaimsId(items[j], g)
  {
    if items != [] {
      NoClaim(items[..|items| - 1], g);
      assert forall j :: 0 <= j < |items| - 1 ==> items[..|items| - 1][j] == items[j];
    }
  }

  lemma {:induction false} OneClaim(items: seq<Item>, g: Id, i: nat)
    requires i < |items| && forall j :: 0 <= j < |items| ==> (ClaimsId(items[j], g) <==> j == i)
    ensures ClaimsOf(items, g) == [items[i]]
  {
    var front := items[..|items| - 1];
    assert forall j :: 0 <= j < |front| ==> front[j] == items[j];
    if i == |items| - 1 {
      NoClaim(front, g);
    } else {
      OneClaim(front, g, i);
    }
  }

  lemma {:induction false} ClaimAt(items: seq<Item>, g: Id) returns (i: nat)
    requires |ClaimsOf(items, g)| == 1
    ensures i < |items| && ClaimsOf(items, g) == [items[i]]
    ensures forall j :: 0 <= j < |items| ==> (ClaimsId(items[j], g) <==> j == i)
  {
    var front, last := items[..|items| - 1], items[|items| - 1];
    assert forall j :: 0 <= j < |front| ==> front[j] == items[j];
    if ClaimsId(last, g) {
      i := |items| - 1;
      NoClaim(front, g);
      assert ClaimsOf(front, g) == [];
    } else {
      i := ClaimAt(front, g);
    }
  }

  lemma SettledReceipt(items: seq<Item>, g: Item) returns (i: nat)
    requires GrantOutcome(items, g).Some?
    ensures Settleable(g) && i < |items| && SoleReceipt(items, g, i)
    ensures GrantOutcome(items, g) == Some(items[i].payload.boundary)
  {
    i := ClaimAt(items, g.id);
    hide ClaimsOf;
  }

  lemma ReceiptSettles(items: seq<Item>, g: Item, i: nat)
    requires Settleable(g) && i < |items| && SoleReceipt(items, g, i)
    ensures GrantOutcome(items, g) == Some(items[i].payload.boundary)
  {
    OneClaim(items, g.id, i);
    hide ClaimsOf;
  }

  /** A grant is settled by a boundary exactly when it is settleable and its only diagnostic child is its
      completed, later receipt, of the same Turn, owner and Run, carrying that boundary. */
  lemma SettledMeans(items: seq<Item>, g: Item, b: Boundary)
    ensures GrantOutcome(items, g) == Some(b) <==> SettledBy(items, g, b)
  {
    hide GrantOutcome, Settleable;
    if GrantOutcome(items, g) == Some(b) { var i := SettledReceipt(items, g); }
    if SettledBy(items, g, b) {
      var i :| 0 <= i < |items| && SoleReceipt(items, g, i) && items[i].payload.boundary == b;
      ReceiptSettles(items, g, i);
    }
  }

  ghost predicate SettledBy(items: seq<Item>, g: Item, b: Boundary) {
    Settleable(g) && exists i :: 0 <= i < |items| && SoleReceipt(items, g, i) && items[i].payload.boundary == b
  }

  /** A dispatch grant that no Item settles. */
  ghost predicate OwedAt(items: seq<Item>, i: nat)
    requires i < |items|
  {
    && DispatchGrant(items[i])
    && (!Settleable(items[i]) || forall k :: 0 <= k < |items| ==> !SoleReceipt(items, items[i], k))
  }

  /** One of `owner`, or of anyone when `owner` is Empty. */
  ghost predicate Owed(items: seq<Item>, owner: Id) {
    exists i :: 0 <= i < |items| && OwedAt(items, i) && (owner == Empty || items[i].invocation == owner)
  }

  lemma OwedAtMeans(items: seq<Item>, i: nat)
    requires i < |items|
    ensures Unsettled(items, i) <==> OwedAt(items, i)
  {
    hide GrantOutcome, SoleReceipt, Settleable;
    if GrantOutcome(items, items[i]).Some? { var k := SettledReceipt(items, items[i]); }
    if Settleable(items[i]) && exists k :: 0 <= k < |items| && SoleReceipt(items, items[i], k) {
      var k :| 0 <= k < |items| && SoleReceipt(items, items[i], k);
      ReceiptSettles(items, items[i], k);
    }
  }

  lemma OwedMeans(items: seq<Item>, owner: Id)
    ensures Pending(items, owner) <==> Owed(items, owner)
  {
    hide Unsettled, OwedAt;
    forall i | 0 <= i < |items| ensures Unsettled(items, i) <==> OwedAt(items, i) { OwedAtMeans(items, i); }
  }
}
