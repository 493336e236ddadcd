/**
 Decisions read off one Turn's append-only Item ledger: which dispatch grants are settled, by which
 receipt, and whether a cancellation fence is open. Each decision is a loop over Items, proved
 against a definition by quantifiers.
 */
module Ledger {
  import opened Records

  predicate IsGrant(v: Item) {
    v.kind == Diagnostic && v.status == ItemStarted && v.parent == ExecutionDispatchParent
  }

  predicate IsFence(v: Item) {
    v.kind == Diagnostic && v.status == ItemStarted && v.parent == CancellationFenceParent
  }

  /** `v` presents itself as a completion fact of the Item named `g`. */
  predicate ClaimsId(v: Item, g: Id) {
    v.kind == Diagnostic && v.parent == g
  }

  predicate Closes(v: Item, fence: Id) {
    v.kind == Diagnostic && v.status == ItemCompleted && v.parent == fence
  }

  predicate WellFormedGrant(g: Item) {
    && IsGrant(g) && g.id != Empty && g.seqNo != 0
    && g.turn != Empty && g.invocation != Empty && g.run != Empty
  }

  predicate Recognized(b: Boundary) {
    !b.HostResponseVerified? && !b.OtherBoundary?
  }

  /** A later, completed fact of the same Turn, Invocation and Run with a recognized boundary. */
  predicate ReceiptMatches(g: Item, v: Item) {
    && v.id != Empty && v.status == ItemCompleted && v.turn == g.turn
    && v.invocation == g.invocation && v.run == g.run && v.seqNo > g.seqNo
    && v.payload.Document? && Recognized(v.payload.boundary)
  }

  function ClaimsOf(items: seq<Item>, g: Id): (r: seq<Item>)
    ensures forall v :: v in r <==> v in items && ClaimsId(v, g)
  {
    if items == [] then []
    else
      var last := items[|items| - 1];
      ClaimsOf(items[..|items| - 1], g) + (if ClaimsId(last, g) then [last] else [])
  }

  /** The boundary that settles `g`: exactly one claim in `items`, and that claim matches. */
  function Settlement(items: seq<Item>, g: Item): Option<Boundary> {
    var claims := ClaimsOf(items, g.id);
    if WellFormedGrant(g) && |claims| == 1 && ReceiptMatches(g, claims[0])
    then Some(claims[0].payload.boundary)
    else None
  }

  /** Settlement as the ledger decisions see it: the receipt index never lists children of the
      reserved dispatch parent, so a grant that took that identity for itself is never settled. */
  function GrantOutcome(items: seq<Item>, g: Item): Option<Boundary> {
    if g.id == ExecutionDispatchParent then None else Settlement(items, g)
  }

  predicate Unsettled(items: seq<Item>, i: nat)
    requires i < |items|
  {
    IsGrant(items[i]) && GrantOutcome(items, items[i]).None?
  }

  /** An unsettled grant of `invocation`, or of anyone when `invocation` is empty. */
  predicate Pending(items: seq<Item>, invocation: Id) {
    exists i :: 0 <= i < |items| && Unsettled(items, i) &&
                (invocation == Empty || items[i].invocation == invocation)
  }

  predicate OpenFence(items: seq<Item>, i: nat)
    requires i < |items|
  {
    IsFence(items[i]) && forall j :: 0 <= j < |items| ==> !Closes(items[j], items[i].id)
  }

  predicate ActiveFence(items: seq<Item>) {
    exists i :: 0 <= i < |items| && OpenFence(items, i)
  }

  // ---------------------------------------------------------------- what one append can change

  lemma ClaimsOfAppend(items: seq<Item>, v: Item, g: Id)
    ensures ClaimsOf(items + [v], g) == ClaimsOf(items, g) + (if ClaimsId(v, g) then [v] else [])
  {
    assert (items + [v])[..|items|] == items;
  }

  lemma UnclaimedAppend(items: seq<Item>, v: Item, g: Item)
    requires !ClaimsId(v, g.id)
    ensures Settlement(items + [v], g) == Settlement(items, g)
    ensures GrantOutcome(items + [v], g) == GrantOutcome(items, g)
  {
    ClaimsOfAppend(items, v, g.id);
  }

  lemma {:induction false} NoClaims(items: seq<Item>, g: Id)
    requires forall v :: v in items ==> !ClaimsId(v, g)
    ensures ClaimsOf(items, g) == []
  {
    if items != [] {
      assert forall v :: v in items[..|items| - 1] ==> v in items;
      NoClaims(items[..|items| - 1], g);
    }
  }

  /** The first matching claim settles a grant, with its own boundary. */
  lemma FirstClaimSettles(items: seq<Item>, v: Item, g: Item)
    requires forall p :: p in items ==> !ClaimsId(p, g.id)
    requires WellFormedGrant(g) && ClaimsId(v, g.id) && ReceiptMatches(g, v)
    ensures Settlement(items, g) == None
    ensures Settlement(items + [v], g) == Some(v.payload.boundary)
  {
    NoClaims(items, g.id);
    ClaimsOfAppend(items, v, g.id);
  }

  /** A settled grant names its one receipt: a second claim of either kind would unsettle it. */
  lemma SettledHasOneReceipt(items: seq<Item>, g: Item)
    requires GrantOutcome(items, g).Some?
    ensures exists v :: v in items && ClaimsId(v, g.id) && ReceiptMatches(g, v) &&
                        GrantOutcome(items, g) == Some(v.payload.boundary) &&
                        (forall w :: w in items && ClaimsId(w, g.id) ==> w == v)
  {
    var claims := ClaimsOf(items, g.id);
    assert claims == [claims[0]];
    assert claims[0] in claims;
    forall w | w in items && ClaimsId(w, g.id) ensures w == claims[0] { assert w in claims; }
  }

  // ---------------------------------------------------------------- the decisions as loops

  method VerifiedExecutionDispatchReceipt(grant: Item, receipts: seq<Item>) returns (r: Option<Boundary>)
    ensures r == Settlement(receipts, grant)
  {
    if !WellFormedGrant(grant) { return None; }
    var count := 0;
    var receipt := grant;
    for i := 0 to |receipts|
      invariant count == |ClaimsOf(receipts[..i], grant.id)|
      invariant count > 0 ==> receipt == ClaimsOf(receipts[..i], grant.id)[count - 1]
    {
      assert receipts[..i + 1] == receipts[..i] + [receipts[i]];
      ClaimsOfAppend(receipts[..i], receipts[i], grant.id);
      if ClaimsId(receipts[i], grant.id) {
        count := count + 1;
        receipt := receipts[i];
      }
    }
    assert receipts[..|receipts|] == receipts;
    if count != 1 || !ReceiptMatches(grant, receipt) { return None; }
    return Some(receipt.payload.boundary);
  }

  /** Every claimed settlement, malformed and conflicting ones included, by the grant it names. */
  ghost predicate IndexOf(byGrant: map<Id, seq<Item>>, items: seq<Item>) {
    && (forall g :: g in byGrant ==>
          g != Empty && g != ExecutionDispatchParent && byGrant[g] == ClaimsOf(items, g))
    && (forall g :: g !in byGrant && g != Empty && g != ExecutionDispatchParent ==> ClaimsOf(items, g) == [])
  }

  method ExecutionDispatchReceiptIndex(items: seq<Item>) returns (byGrant: map<Id, seq<Item>>)
    ensures IndexOf(byGrant, items)
  {
    byGrant := map[];
    for i := 0 to |items|
      invariant IndexOf(byGrant, items[..i])
    {
      var item := items[i];
      assert items[..i + 1] == items[..i] + [item];
      forall g ensures ClaimsOf(items[..i + 1], g) ==
                       ClaimsOf(items[..i], g) + (if ClaimsId(item, g) then [item] else []) {
        ClaimsOfAppend(items[..i], item, g);
      }
      if item.kind == Diagnostic && item.parent != Empty && item.parent != ExecutionDispatchParent {
        var before := if item.parent in byGrant then byGrant[item.parent] else [];
        byGrant := byGrant[item.parent := before + [item]];
      }
    }
    assert items[..|items|] == items;
  }

  /** Settlement from the index is settlement from the whole ledger. */
  lemma IndexedSettlement(items: seq<Item>, indexed: seq<Item>, g: Item)
    requires indexed == if g.id == Empty || g.id == ExecutionDispatchParent then [] else ClaimsOf(items, g.id)
    ensures Settlement(indexed, g) == GrantOutcome(items, g)
  {
    if g.id == Empty || g.id == ExecutionDispatchParent {
      assert ClaimsOf(indexed, g.id) == [];
    } else {
      ClaimsIdempotent(items, g.id);
    }
  }

  lemma {:induction false} ClaimsIdempotent(items: seq<Item>, g: Id)
    ensures ClaimsOf(ClaimsOf(items, g), g) == ClaimsOf(items, g)
  {
    if items != [] {
      var front, last := items[..|items| - 1], items[|items| - 1];
      ClaimsIdempotent(front, g);
      if ClaimsId(last, g) {
        ClaimsOfAppend(ClaimsOf(front, g), last, g);
      } else {
        assert ClaimsOf(items, g) == ClaimsOf(front, g);
      }
    }
  }

  method IndexedOutcome(ghost items: seq<Item>, receipts: map<Id, seq<Item>>, grant: Item)
    returns (r: Option<Boundary>)
    requires IndexOf(receipts, items)
    ensures r == GrantOutcome(items, grant)
  {
    var indexed := if grant.id in receipts then receipts[grant.id] else [];
    IndexedSettlement(items, indexed, grant);
    r := VerifiedExecutionDispatchReceipt(grant, indexed);
  }

  method PendingExecutionDispatch(items: seq<Item>, invocation: Id) returns (pending: bool)
    ensures pending == Pending(items, invocation)
  {
    var receipts := ExecutionDispatchReceiptIndex(items);
    for i := 0 to |items|
      invariant forall k :: 0 <= k < i && Unsettled(items, k) ==>
                  invocation != Empty && items[k].invocation != invocation
    {
      var item := items[i];
      if IsGrant(item) && (invocation == Empty || item.invocation == invocation) {
        var settled := IndexedOutcome(items, receipts, item);
        if settled.None? {
          assert Unsettled(items, i);
          return true;
        }
      }
    }
    return false;
  }

  method ActiveCancellationFence(items: seq<Item>) returns (active: bool)
    ensures active == ActiveFence(items)
  {
    var pending: set<Id>, closed: set<Id> := {}, {};
    for i := 0 to |items|
      invariant forall id :: id in pending <==> exists k :: 0 <= k < i && IsFence(items[k]) && items[k].id == id
      invariant forall id :: id in closed <==> exists k :: 0 <= k < i && Closes(items[k], id)
    {
      var item := items[i];
      if IsFence(item) { pending := pending + {item.id}; }
      if item.kind == Diagnostic && item.status == ItemCompleted {
        closed := closed + {item.parent};
        assert Closes(items[i], item.parent);
      }
    }
    active := exists id :: id in pending && id !in closed;
    if active {
      var id :| id in pending && id !in closed;
      var k :| 0 <= k < |items| && IsFence(items[k]) && items[k].id == id;
      assert OpenFence(items, k);
    } else {
      forall k | 0 <= k < |items| ensures !OpenFence(items, k) {
        if IsFence(items[k]) { assert items[k].id in pending; }
      }
    }
  }
}
