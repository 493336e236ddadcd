/**
 The Store-side decision whether an Attempt may rotate: every child of the Turn must be provably
 without a physical effect in progress, and a composite Feature must have a complete history of
 no-effect grants.
 */
module RetryFence {
  import opened Records
  import opened Ledger
  import opened ChildRoot

  predicate Composite(c: ExecutionClass) {
    c == Team || c == Workflow || c == GroupChat
  }

  predicate NoEffect(o: Option<Boundary>) {
    o == Some(PhysicalDispatchRejected) || o == Some(FeatureStartNoEffect)
  }

  predicate GrantOf(v: Item, owner: Id) {
    IsGrant(v) && v.invocation == owner
  }

  predicate MayHaveDescendants(items: seq<Item>, v: Invocation) {
    Composite(v.executionClass) &&
    ((forall g :: g in items ==> !GrantOf(g, v.id)) ||
     (exists g :: g in items && GrantOf(g, v.id) && !NoEffect(GrantOutcome(items, g))))
  }

  predicate EffectPossible(items: seq<Item>, child: Invocation) {
    exists g :: g in items && GrantOf(g, child.id) &&
                (g.run != child.ref || GrantOutcome(items, g) != Some(PhysicalDispatchRejected))
  }

  /** A routed delegation is recognised by its frozen identity, not by its optional role. */
  predicate IsHandoff(v: Invocation) {
    && v.parent != Empty && v.executionClass == Agent && v.capability == CapabilityAgent
    && v.input.Object? && v.inputHash == Sha256(v.input)
    && (forall k :: k in {DelegationId, MemberId, ChildRunId, Goal} ==>
          k in v.input.fields && v.input.fields[k].Raw? && v.input.fields[k].text != "")
    && v.id == Stable(HInvocation, [v.turn, v.parent, CapabilityAgent, Name(v.input.fields[DelegationId].text)])
  }

  predicate ChildPermitsRetry(items: seq<Item>, child: Invocation) {
    match child.status
    case Running => false
    case WaitingInput => false
    case PausedBudget => false
    case Accepted => (IsHandoff(child) ==> Frozen(child).Some?) && !EffectPossible(items, child)
    case Completed => !MayHaveDescendants(items, child)
    case Failed => !MayHaveDescendants(items, child)
    case Cancelled => !MayHaveDescendants(items, child)
  }

  predicate RetryPermitted(children: set<Invocation>, items: seq<Item>, rotating: Invocation) {
    && !MayHaveDescendants(items, rotating)
    && forall c :: c in children && c.id != rotating.id && c.parent != Empty ==> ChildPermitsRetry(items, c)
  }

  method CompositeRunMayHaveDescendants(items: seq<Item>, v: Invocation) returns (r: bool)
    ensures r == MayHaveDescendants(items, v)
  {
    hide GrantOutcome, IndexOf, NoEffect;
    if !Composite(v.executionClass) { return false; }
    var grants := 0;
    var receipts := ExecutionDispatchReceiptIndex(items);
    for i := 0 to |items|
      invariant grants == 0 <==> forall k :: 0 <= k < i ==> !GrantOf(items[k], v.id)
      invariant grants >= 0
      invariant forall k :: 0 <= k < i && GrantOf(items[k], v.id) ==> NoEffect(GrantOutcome(items, items[k]))
    {
      var item := items[i];
      if GrantOf(item, v.id) {
        grants := grants + 1;
        var settled := IndexedOutcome(items, receipts, item);
        if !NoEffect(settled) {
          assert item in items;
          return true;
        }
      }
    }
    return grants == 0;
  }

  method AcceptedChildPhysicalEffectPossible(items: seq<Item>, child: Invocation) returns (r: bool)
    ensures r == EffectPossible(items, child)
  {
    hide GrantOutcome, IndexOf;
    var receipts := ExecutionDispatchReceiptIndex(items);
    for i := 0 to |items|
      invariant forall k :: 0 <= k < i && GrantOf(items[k], child.id) ==>
                  items[k].run == child.ref && GrantOutcome(items, items[k]) == Some(PhysicalDispatchRejected)
    {
      var item := items[i];
      if GrantOf(item, child.id) {
        var settled := IndexedOutcome(items, receipts, item);
        if item.run != child.ref || settled != Some(PhysicalDispatchRejected) {
          assert item in items;
          return true;
        }
      }
    }
    return false;
  }

  /** The verdict does not depend on the order in which children or Items are listed; only the
      reported error may. The unknown-outcome error is reserved for a Running Host callback. */
  method RetryChildEffectFence(children: seq<Invocation>, items: seq<Item>, rotating: Invocation)
    returns (refusal: Option<Error>)
    ensures refusal.None? <==> RetryPermitted((set c | c in children), items, rotating)
    ensures refusal == Some(ApplicationOutcomeUnknown) ==>
              exists c :: c in children && c.executionClass == Application && c.status == Running
    ensures refusal.Some? ==> refusal.value == Conflict || refusal.value == ApplicationOutcomeUnknown
  {
    var composite := CompositeRunMayHaveDescendants(items, rotating);
    if composite { return Some(Conflict); }
    for i := 0 to |children|
      invariant forall k :: 0 <= k < i && children[k].id != rotating.id && children[k].parent != Empty ==>
                  ChildPermitsRetry(items, children[k])
    {
      var child := children[i];
      if child.id == rotating.id || child.parent == Empty { continue; }
      var refused := false;
      match child.status {
        case Running =>
          assert child in children;
          if child.executionClass == Application { return Some(ApplicationOutcomeUnknown); }
          refused := true;
        case WaitingInput => refused := true;
        case PausedBudget => refused := true;
        case Accepted =>
          var frozen := FrozenChildRoot(child);
          var possible := AcceptedChildPhysicalEffectPossible(items, child);
          refused := (IsHandoff(child) && frozen.Err?) || possible;
        case Completed => refused := CompositeRunMayHaveDescendants(items, child);
        case Failed => refused := CompositeRunMayHaveDescendants(items, child);
        case Cancelled => refused := CompositeRunMayHaveDescendants(items, child);
      }
      if refused {
        assert child in (set c | c in children);
        return Some(Conflict);
      }
    }
    return None;
  }
}
