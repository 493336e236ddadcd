/** The reference Store: maps updated in place, one critical section per method. */
module MemoryStore {
  import opened Records
  import opened Ledger
  import opened RetryFence
  import opened Admission
  import opened StoreInvariant

  class Store {
    var turns: map<Id, Turn>
    var invocations: map<Id, Invocation>
    var refs: map<Id, Id>
    var interactions: map<Id, Interaction>
    var items: map<Id, seq<Item>>
    var itemIds: map<Id, Item>

    ghost function View(): State
      reads this
    {
      State(turns, invocations, refs, interactions, items, itemIds)
    }

    /** The object invariant every request keeps. */
    ghost predicate Valid()
      reads this
    {
      Inv(View())
    }

    constructor ()
      ensures Valid() && View() == INITIAL
    {
      turns, invocations, refs, interactions, items, itemIds := map[], map[], map[], map[], map[], map[];
    }

    method FenceActive(turn: Id) returns (active: bool)
      ensures active == ActiveFence(LedgerOf(View(), turn))
    {
      active := ActiveCancellationFence(if turn in items then items[turn] else []);
    }

    method DispatchPending(turn: Id, invocation: Id) returns (pending: bool)
      ensures pending == Pending(LedgerOf(View(), turn), invocation)
    {
      pending := PendingExecutionDispatch(if turn in items then items[turn] else [], invocation);
    }

    method CreateTurn(v: Turn) returns (r: Outcome<(Turn, bool)>)
      requires Valid()
      modifies this
      ensures Valid()
      ensures r == Admission.CreateTurn(old(View()), v)
      ensures View() == match r case Ok((w, true)) => Commit(old(View()), PutTurn(w)) case _ => old(View())
    {
      hide Inv;
      if !ValidTurn(v) { return Err(InvalidRequest); }
      if v.id in turns {
        return if SameTurn(turns[v.id], v) then Ok((turns[v.id], false)) else Err(Conflict);
      }
      turns := turns[v.id := v];
      Keeps(old(View()), DoCreateTurn(v), PutTurn(v));
      return Ok((v, true));
    }

    method UpdateTurn(v: Turn, expected: nat) returns (r: Outcome<Turn>)
      requires Valid()
      modifies this
      ensures Valid()
      ensures r == Admission.UpdateTurn(old(View()), v, expected)
      ensures View() == match r case Ok(w) => Commit(old(View()), PutTurn(w)) case _ => old(View())
    {
      hide Inv;
      if !ValidTurn(v) || expected == 0 { return Err(InvalidRequest); }
      if v.id !in turns { return Err(NotFound); }
      if turns[v.id].revision != expected || !SameTurn(turns[v.id], v) { return Err(Conflict); }
      var updated := v.(revision := expected + 1);
      turns := turns[v.id := updated];
      Keeps(old(View()), DoUpdateTurn(v, expected), PutTurn(updated));
      return Ok(updated);
    }

    method HasOtherRoot(v: Invocation) returns (found: bool)
      ensures found == OtherRoot(View(), v)
    {
      var todo := invocations.Keys;
      while todo != {}
        invariant todo <= invocations.Keys
        invariant forall id :: id in invocations && id !in todo && id != v.id ==>
                    !(invocations[id].turn == v.turn && invocations[id].parent == Empty)
      {
        var id :| id in todo;
        if id != v.id && invocations[id].turn == v.turn && invocations[id].parent == Empty { return true; }
        todo := todo - {id};
      }
      return false;
    }

    /** The fresh record is inserted first and removed again when its execution ref is taken. */
    method CreateInvocation(v: Invocation) returns (r: Outcome<(Invocation, bool)>)
      requires Valid()
      modifies this
      ensures Valid()
      ensures r == Admission.CreateInvocation(old(View()), v)
      ensures View() == match r case Ok((w, true)) => Commit(old(View()), PutFresh(w)) case _ => old(View())
    {
      hide Inv, ActiveFence, OtherRoot, SameInvocation, ValidInvocation;
      if !ValidInvocation(v) { return Err(InvalidRequest); }
      var fenced := FenceActive(v.turn);
      if v.id !in invocations && fenced { return Err(Conflict); }
      if v.parent == Empty {
        var taken := HasOtherRoot(v);
        if taken { return Err(Conflict); }
      }
      if v.id in invocations {
        return if SameInvocation(invocations[v.id], v) then Ok((invocations[v.id], false)) else Err(Conflict);
      }
      invocations := invocations[v.id := v];
      if v.ref != Empty {
        if v.ref in refs && refs[v.ref] != Empty && refs[v.ref] != v.id {
          invocations := invocations - {v.id};
          assert invocations == old(invocations);
          return Err(Conflict);
        }
        refs := refs[v.ref := v.id];
      }
      Keeps(old(View()), DoCreate(v), PutFresh(v));
      return Ok((v, true));
    }

    method GetInvocationByExecutionRefID(ref: Id) returns (r: Outcome<Invocation>)
      ensures ref == Empty ==> r == Err(InvalidRequest)
      ensures r.Ok? ==> ref in refs && refs[ref] in invocations && r.value == invocations[refs[ref]]
      ensures ref != Empty && r.Err? ==> r.error == NotFound && (ref in refs ==> refs[ref] !in invocations)
    {
      if ref == Empty { return Err(InvalidRequest); }
      if ref !in refs || refs[ref] !in invocations { return Err(NotFound); }
      return Ok(invocations[refs[ref]]);
    }

    method UpdateInvocation(v: Invocation, expected: nat) returns (r: Outcome<Invocation>)
      requires Valid()
      modifies this
      ensures Valid()
      ensures r == Admission.UpdateInvocation(old(View()), v, expected)
      ensures View() == match r case Ok(w) => Commit(old(View()), PutUpdated(w)) case _ => old(View())
    {
      hide Inv;
      if !ValidInvocation(v) || expected == 0 { return Err(InvalidRequest); }
      if v.id !in invocations { return Err(NotFound); }
      var current := invocations[v.id];
      if current.revision != expected || !SameInvocation(current, v) { return Err(Conflict); }
      if current.ref != v.ref { return Err(Conflict); }
      if Terminal(current.status) && current.status != v.status { return Err(Conflict); }
      if current.status != Running && v.status == Running {
        var fenced := FenceActive(v.turn);
        if fenced { return Err(Conflict); }
      }
      if v.status == Failed {
        var pending := DispatchPending(v.turn, v.id);
        if pending { return Err(Conflict); }
      }
      var updated := v.(revision := expected + 1);
      invocations := invocations[v.id := updated];
      Keeps(old(View()), DoUpdate(v, expected), PutUpdated(updated));
      return Ok(updated);
    }

    method ChildrenOf(v: Invocation) returns (children: seq<Invocation>)
      ensures (set c | c in children) == Children(View(), v)
    {
      children := [];
      var todo := invocations.Keys;
      while todo != {}
        invariant todo <= invocations.Keys
        invariant forall c :: c in children <==>
                    exists id :: id in invocations && id !in todo && invocations[id].turn == v.turn &&
                                 invocations[id].parent != Empty && invocations[id].id != v.id && invocations[id] == c
      {
        var id :| id in todo;
        var child := invocations[id];
        if child.turn == v.turn && child.parent != Empty && child.id != v.id {
          children := children + [child];
        }
        todo := todo - {id};
      }
    }

    /** Everything Retry checks under the mutex, in the order it checks it. */
    method RefuseRetry(current: Invocation, expected: nat, next: Id) returns (refusal: Option<Error>)
      ensures refusal.None? <==> RetryAdmitted(View(), current, expected, next)
      ensures refusal.None? ==> current.revision == expected && (current.parent == Empty ==> current.turn in turns)
    {
      var fenced := FenceActive(current.turn);
      var pending := DispatchPending(current.turn, Empty);
      if current.revision != expected || !Retryable(current.status) || current.input == NoInput || fenced || pending {
        return Some(Conflict);
      }
      var children := ChildrenOf(current);
      refusal := RetryChildEffectFence(children, if current.turn in items then items[current.turn] else [], current);
      if refusal.Some? { return; }
      if current.parent == Empty && (current.turn !in turns || !Terminal(turns[current.turn].status)) {
        return Some(Conflict);
      }
      if next in refs && refs[next] != Empty && refs[next] != current.id { return Some(Conflict); }
    }

    method RetryInvocation(id: Id, expected: nat, next: Id) returns (r: Outcome<Invocation>)
      requires Valid()
      modifies this
      ensures Valid()
      ensures View() == match r case Ok(w) => Commit(old(View()), PutRotated(w)) case _ => old(View())
      ensures match Admission.RetryInvocation(old(View()), id, expected, next)
              case Some(v) => r == Ok(v)
              case None => r.Err?
      ensures r.Ok? ==>
                && id in old(invocations) && r.value.attempt == old(invocations)[id].attempt + 1 && r.value.ref == next
                && r.value.status == Accepted && r.value.revision == expected + 1
                && id in invocations && invocations[id] == r.value && next in refs && refs[next] == id
                && (next != old(invocations)[id].ref ==> old(invocations)[id].ref !in refs)
                && (r.value.parent == Empty ==> r.value.turn in turns && turns[r.value.turn].status == Running)
    {
      hide Inv, RetryAdmitted, Decide, Commit;
      if id == Empty || expected == 0 || next == Empty { return Err(InvalidRequest); }
      if id !in invocations { return Err(NotFound); }
      var current := invocations[id];
      KeyedAt(View(), id);
      var refusal := RefuseRetry(current, expected, next);
      if refusal.Some? { return Err(refusal.value); }
      refs := refs - {current.ref};
      var rotated := Rotated(current, next);
      invocations := invocations[current.id := rotated];
      refs := refs[next := current.id];
      if current.parent == Empty {
        turns := turns[current.turn := Reopened(turns[current.turn])];
      }
      Rotates(old(View()), id, next);
      RetryDecides(old(View()), id, expected, next);
      Keeps(old(View()), DoRetry(id, expected, next), PutRotated(rotated));
      return Ok(rotated);
    }

    method CreateInteraction(v: Interaction, turnRevision: nat, invocationRevision: nat)
      returns (r: Outcome<(Interaction, bool)>)
      requires Valid()
      modifies this
      ensures Valid()
      ensures r == Admission.CreateInteraction(old(View()), v, turnRevision, invocationRevision)
      ensures View() == match r case Ok((w, true)) => Commit(old(View()), PutInteraction(w)) case _ => old(View())
    {
      hide Inv;
      if !ValidInteraction(v) || turnRevision == 0 || invocationRevision == 0 { return Err(InvalidRequest); }
      if v.id in interactions {
        return if SameInteraction(interactions[v.id], v) then Ok((interactions[v.id], false)) else Err(Conflict);
      }
      var fenced := FenceActive(v.turn);
      if fenced || v.turn !in turns || v.invocation !in invocations { return Err(Conflict); }
      if turns[v.turn].revision != turnRevision || invocations[v.invocation].revision != invocationRevision ||
         !OwnersCanWait(turns[v.turn], invocations[v.invocation]) {
        return Err(Conflict);
      }
      var waiting := exists id :: id in interactions && interactions[id].turn == v.turn && !interactions[id].resolved;
      if waiting { return Err(Conflict); }
      interactions := interactions[v.id := v];
      Keeps(old(View()), DoWait(v, turnRevision, invocationRevision), PutInteraction(v));
      return Ok((v, true));
    }

    method ResolveInteraction(v: Interaction, expected: nat) returns (r: Outcome<Interaction>)
      requires Valid()
      modifies this
      ensures Valid()
      ensures r == Admission.ResolveInteraction(old(View()), v, expected)
      ensures View() == match r case Ok(w) => Commit(old(View()), PutInteraction(w)) case _ => old(View())
    {
      hide Inv;
      if !ValidInteraction(v) || expected == 0 || !v.resolved || v.response == "" { return Err(InvalidRequest); }
      if v.id !in interactions || v.turn !in turns || v.invocation !in invocations { return Err(Conflict); }
      var current, turn, owner := interactions[v.id], turns[v.turn], invocations[v.invocation];
      if current.revision != expected || current.resolved || !SameInteraction(current, v) ||
         turn.status != WaitingInput || owner.turn != v.turn || owner.status != WaitingInput {
        return Err(Conflict);
      }
      var fenced := FenceActive(v.turn);
      if fenced { return Err(Conflict); }
      var updated := v.(revision := expected + 1);
      interactions := interactions[v.id := updated];
      Keeps(old(View()), DoResolve(v, expected), PutInteraction(updated));
      return Ok(updated);
    }

    /** The guards of an append, in the order they are tried. */
    method AdmitsItem(v: Item) returns (ok: bool)
      ensures ok == Admits(View(), v)
    {
      if v.kind == Diagnostic && v.status == ItemStarted {
        if v.parent == CancellationFenceParent {
          var fenced := FenceActive(v.turn);
          if fenced { return false; }
        } else if v.parent == ExecutionDispatchParent {
          if v.turn !in turns || Terminal(turns[v.turn].status) || v.invocation !in invocations { return false; }
          var owner := invocations[v.invocation];
          if owner.turn != v.turn || owner.ref != v.run || Terminal(owner.status) { return false; }
          var fenced := FenceActive(v.turn);
          var pending := DispatchPending(v.turn, v.invocation);
          if fenced || pending { return false; }
        }
      }
      ok := AdmitsReceipt(v.(seqNo := |if v.turn in items then items[v.turn] else []| + 1));
    }

    method AdmitsReceipt(v: Item) returns (ok: bool)
      ensures ok == AdmitsChild(View(), v)
    {
      if v.parent !in itemIds || !IsGrant(itemIds[v.parent]) { return true; }
      var grant := itemIds[v.parent];
      var valid := VerifiedExecutionDispatchReceipt(grant, [v]);
      SingleReceipt(grant, v);
      if valid.None? { return false; }
      var previous := if grant.turn in items then items[grant.turn] else [];
      for i := 0 to |previous|
        invariant forall k :: 0 <= k < i ==> !ClaimsId(previous[k], grant.id)
      {
        if ClaimsId(previous[i], grant.id) {
          assert previous[i] in LedgerOf(View(), grant.turn);
          return false;
        }
      }
      return true;
    }

    method AppendItem(v: Item) returns (r: Outcome<(Item, bool)>)
      requires Valid()
      modifies this
      ensures Valid()
      ensures r == Admission.AppendItem(old(View()), v)
      ensures View() == match r case Ok((w, true)) => Commit(old(View()), PutItem(w)) case _ => old(View())
      ensures r.Ok? && r.value.1 ==>
                && r.value.0 == v.(seqNo := |LedgerOf(old(View()), v.turn)| + 1)
                && LedgerOf(View(), v.turn) == LedgerOf(old(View()), v.turn) + [r.value.0]
    {
      hide Inv;
      if !ValidItem(v) { return Err(InvalidRequest); }
      if v.id in itemIds {
        return if SameItem(itemIds[v.id], v) then Ok((itemIds[v.id], false)) else Err(Conflict);
      }
      var admitted := AdmitsItem(v);
      if !admitted { return Err(Conflict); }
      var ledger := if v.turn in items then items[v.turn] else [];
      var stored := v.(seqNo := |ledger| + 1);
      items := items[v.turn := ledger + [stored]];
      itemIds := itemIds[v.id := stored];
      Keeps(old(View()), DoAppend(v), PutItem(stored));
      return Ok((stored, true));
    }
  }

  /** Whatever a request commits keeps the object invariant. */
  lemma Keeps(s: State, op: Op, w: Write)
    requires Inv(s) && Decide(s, op) == w
    ensures Inv(Commit(s, w))
  {
    InvStep(s, op);
  }

  lemma RetryDecides(s: State, id: Id, expected: nat, next: Id)
    requires Admission.RetryInvocation(s, id, expected, next).Some?
    ensures Decide(s, DoRetry(id, expected, next)) == PutRotated(Admission.RetryInvocation(s, id, expected, next).value)
  {
    hide RetryAdmitted;
  }

  /** The writes of a rotation, one by one, are the committed rotation. */
  lemma Rotates(s: State, id: Id, next: Id)
    requires id in s.invocations && s.invocations[id].id == id
    requires s.invocations[id].parent == Empty ==> s.invocations[id].turn in s.turns
    ensures var v := s.invocations[id];
            Commit(s, PutRotated(Rotated(v, next))) ==
            State(if v.parent == Empty then s.turns[v.turn := Reopened(s.turns[v.turn])] else s.turns,
                  s.invocations[id := Rotated(v, next)], (s.refs - {v.ref})[next := id], s.interactions, s.items, s.itemIds)
  {
  }

  lemma KeyedAt(s: State, id: Id)
    requires Inv(s) && id in s.invocations
    ensures s.invocations[id].id == id
  {
  }

  lemma SingleReceipt(grant: Item, v: Item)
    ensures Settlement([v], grant).Some? <==> WellFormedGrant(grant) && ClaimsId(v, grant.id) && ReceiptMatches(grant, v)
  {
    assert [v] == [] + [v];
    ClaimsOfAppend([], v, grant.id);
  }
}
