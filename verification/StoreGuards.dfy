/**
 Exactly which requests the Store grants, said of the stored records and ledgers, and what the guards
 amount to over whole scripts. Each statement names statuses, fields and Items outright and none of the
 Store's own decisions.
 */
module StoreGuards {
  import opened Records
  import opened Ledger
  import opened LedgerMeaning
  import opened ChildRoot
  import opened RetryFence
  import opened Admission
  import opened StoreInvariant
  import opened StoreTheorems

  // ---------------------------------------------------------------- Turns

  /** A Turn is stored once; the same identity is answered with the stored record, another is a conflict. */
  lemma TurnCreateExactly(s: State, v: Turn)
    ensures CreateTurn(s, v) ==
            if v.id == Empty || v.session == Empty || v.revision == 0 then Err(InvalidRequest)
            else if v.id in s.turns && (s.turns[v.id].id, s.turns[v.id].session, s.turns[v.id].origin) != (v.id, v.session, v.origin)
            then Err(Conflict)
            else Ok((if v.id in s.turns then s.turns[v.id] else v, v.id !in s.turns))
  {
  }

  /** An update commits exactly when it is well formed, read the stored revision and keeps the identity. */
  lemma TurnUpdateExactly(s: State, v: Turn, r: nat)
    ensures UpdateTurn(s, v, r).Ok? <==>
              && Empty !in {v.id, v.session} && v.revision > 0 && r > 0 && v.id in s.turns
              && s.turns[v.id].revision == r && s.turns[v.id].session == v.session && s.turns[v.id].origin == v.origin
              && s.turns[v.id].id == v.id
    ensures UpdateTurn(s, v, r).Ok? ==> UpdateTurn(s, v, r).value == v.(revision := r + 1)
    ensures UpdateTurn(s, v, r) == Err(InvalidRequest) <==> v.id == Empty || v.session == Empty || v.revision == 0 || r == 0
    ensures UpdateTurn(s, v, r) == Err(NotFound) ==> v.id !in s.turns
  {
  }

  ghost predicate TurnAfter(a: Turn, b: Turn) {
    && a.id == b.id && a.session == b.session && a.origin == b.origin && a.revision <= b.revision
    && (a.revision == b.revision ==> a == b)
  }

  lemma TurnStep(s: State, op: Op, id: Id)
    requires Inv(s) && id in s.turns && s.turns[id].id == id
    ensures id in Step(s, op).turns && TurnAfter(s.turns[id], Step(s, op).turns[id])
  {
    hide Step, Legal, Commit, Inv;
    KeyedIn(s);
    var w := StepLegal(s, op);
    TurnCommit(s, w, id);
  }

  lemma TurnCommit(s: State, w: Write, id: Id)
    requires Legal(s, w) && id in s.turns && s.turns[id].id == id
    ensures id in Commit(s, w).turns && TurnAfter(s.turns[id], Commit(s, w).turns[id])
  {
    hide ActiveFence, LedgerOf, OtherRoot, RefTaken, Admits, RetryAdmitted, Updates, ValidInvocation, Resolves;
  }

  /** Along every script a Turn keeps its identity, and its revision only grows. */
  lemma {:induction false} TurnRun(s: State, script: seq<Op>, id: Id)
    requires Inv(s) && id in s.turns && s.turns[id].id == id
    ensures id in Run(s, script).turns && TurnAfter(s.turns[id], Run(s, script).turns[id])
  {
    hide Step, Inv;
    if script != [] {
      TurnRun(s, script[..|script| - 1], id);
      InvRun(s, script[..|script| - 1]);
      TurnStep(Run(s, script[..|script| - 1]), script[|script| - 1], id);
    }
  }

  /** Once a Turn revision has been superseded, no later update conditioned on it commits. */
  lemma TurnRevisionSpentOnce(s: State, script: seq<Op>, v: Turn, r: nat)
    requires Inv(s) && v.id in s.turns && s.turns[v.id].id == v.id && s.turns[v.id].revision > r
    ensures UpdateTurn(Run(s, script), v, r).Err?
  {
    TurnRun(s, script, v.id);
  }

  // ---------------------------------------------------------------- Invocations

  /** A new Invocation is admitted exactly when it is well formed, its Turn has no open fence, no other
      Invocation of the Turn lacks a parent if it does, and its execution ref belongs to nobody else. */
  lemma CreateExactly(s: State, v: Invocation)
    requires v.id !in s.invocations
    ensures CreateInvocation(s, v).Ok? <==>
              && ValidInvocation(v) && !FenceOpen(LedgerOf(s, v.turn))
              && (v.parent == Empty ==>
                    forall id :: id in s.invocations && s.invocations[id].turn == v.turn ==> s.invocations[id].parent != Empty)
              && (v.ref != Empty && v.ref in s.refs ==> s.refs[v.ref] in {Empty, v.id})
    ensures CreateInvocation(s, v).Ok? ==> CreateInvocation(s, v).value == (v, true)
    ensures CreateInvocation(s, v).Err? ==> CreateInvocation(s, v).error == if ValidInvocation(v) then Conflict else InvalidRequest
  {
    FenceMeans(LedgerOf(s, v.turn));
    hide ActiveFence, FenceOpen;
  }

  /** A create that is admitted twice is answered with the stored record, provided everything frozen agrees. */
  lemma ReplayExactly(s: State, v: Invocation)
    requires v.id in s.invocations
    ensures var was := s.invocations[v.id];
            CreateInvocation(s, v) ==
            if !ValidInvocation(v) then Err(InvalidRequest)
            else if v == was.(ref := v.ref, status := v.status, revision := v.revision) &&
                    (v.parent == Empty ==> forall id :: id in s.invocations && s.invocations[id].turn == v.turn && id != v.id ==>
                                             s.invocations[id].parent != Empty)
            then Ok((was, false)) else Err(Conflict)
  {
    hide ActiveFence, ValidInvocation;
  }

  /** What a stored Invocation must carry: identity, a Run unless it was never started, and the hash of its Input. */
  lemma ValidMeans(v: Invocation)
    ensures ValidInvocation(v) <==>
              && Empty !in {v.id, v.turn, v.capability} && v.attempt > 0 && v.revision > 0
              && (v.status != Accepted ==> v.ref != Empty)
              && (v.input != NoInput ==> v.inputHash == Sha256(v.input))
              && (v.input == NoInput ==> v.inputHash == NoDigest)
              && (v.input == NoInput && v.executionClass == Agent && v.capability == CapabilityAgent ==> v.parent == Empty)
  {
  }

  /** An update commits exactly when it read the stored revision, changes nothing but the status, leaves a
      final status alone, starts nothing under an open fence, and fails nobody who is owed a receipt. */
  lemma UpdateExactly(s: State, v: Invocation, r: nat)
    ensures UpdateInvocation(s, v, r).Ok? <==>
              && ValidInvocation(v) && r > 0 && v.id in s.invocations && s.invocations[v.id].revision == r
              && s.invocations[v.id] == v.(status := s.invocations[v.id].status, revision := r)
              && (s.invocations[v.id].status in FINAL ==> v.status == s.invocations[v.id].status)
              && (v.status == Running && FenceOpen(LedgerOf(s, v.turn)) ==> s.invocations[v.id].status == Running)
              && (v.status == Failed ==> !Owed(LedgerOf(s, v.turn), v.id))
    ensures UpdateInvocation(s, v, r).Ok? ==> UpdateInvocation(s, v, r).value == v.(revision := r + 1)
    ensures UpdateInvocation(s, v, r).Err? ==>
              UpdateInvocation(s, v, r).error ==
              if !ValidInvocation(v) || r == 0 then InvalidRequest else if v.id !in s.invocations then NotFound else Conflict
  {
    FenceMeans(LedgerOf(s, v.turn));
    OwedMeans(LedgerOf(s, v.turn), v.id);
    hide ActiveFence, FenceOpen, Pending, Owed, ValidInvocation;
  }

  // ---------------------------------------------------------------- grants

  /** Turn and owner are stored and not final, the owner is at the Run the grant names, no fence is open, and
      the owner is owed no receipt. */
  ghost predicate Grantable(s: State, v: Item) {
    && v.turn in s.turns && s.turns[v.turn].status !in FINAL
    && v.invocation in s.invocations && s.invocations[v.invocation].turn == v.turn
    && s.invocations[v.invocation].ref == v.run && s.invocations[v.invocation].status !in FINAL
    && !FenceOpen(LedgerOf(s, v.turn)) && !Owed(LedgerOf(s, v.turn), v.invocation)
  }

  /** A grant is admitted exactly in such a state, provided no grant took the reserved parent's identity. */
  lemma GrantExactly(s: State, v: Item)
    requires DispatchGrant(v) && v.id !in s.itemIds && Empty !in {v.id, v.turn}
    ensures AppendItem(s, v).Ok? <==>
              Grantable(s, v) && (ExecutionDispatchParent in s.itemIds ==> !DispatchGrant(s.itemIds[ExecutionDispatchParent]))
    ensures AppendItem(s, v).Ok? ==> AppendItem(s, v).value == (v.(seqNo := |LedgerOf(s, v.turn)| + 1), true)
  {
    FenceMeans(LedgerOf(s, v.turn));
    OwedMeans(LedgerOf(s, v.turn), v.invocation);
    hide ActiveFence, FenceOpen, Pending, Owed, LedgerOf;
  }

  /** Every grant in every reachable ledger was appended in such a state. */
  lemma {:induction false} GrantWasAdmitted(script: seq<Op>, t: Id, i: nat) returns (k: nat)
    requires var items := LedgerOf(Run(INITIAL, script), t); i < |items| && DispatchGrant(items[i])
    ensures k < |script| && |LedgerOf(Run(INITIAL, script[..k]), t)| == i
    ensures Grantable(Run(INITIAL, script[..k]), LedgerOf(Run(INITIAL, script), t)[i])
  {
    hide Step, Inv, Grantable, Legal, Commit;
    var front := script[..|script| - 1];
    var s := Run(INITIAL, front);
    Reachable(front);
    KeyedIn(s);
    var w := StepLegal(s, script[|script| - 1]);
    LedgerCommit(s, w, t);
    if i < |LedgerOf(s, t)| {
      k := GrantWasAdmitted(front, t, i);
      assert front[..k] == script[..k];
    } else {
      k := |front|;
      Appended(s, w.item);
    }
  }

  lemma Appended(s: State, v: Item)
    requires Legal(s, PutItem(v)) && DispatchGrant(v)
    ensures Grantable(s, v)
  {
    GrantExactly(s, v);
    hide ActiveFence, FenceOpen, Pending, Owed, LedgerOf;
  }

  /** A fence is admitted exactly when none is open in its Turn, and one that closes a fence always is. */
  lemma FenceExactly(s: State, v: Item)
    requires v.kind.Diagnostic? && v.status.ItemStarted? && v.parent == CancellationFenceParent
    requires v.id !in s.itemIds && Empty !in {v.id, v.turn} && CancellationFenceParent !in s.itemIds
    ensures AppendItem(s, v).Ok? <==> !FenceOpen(LedgerOf(s, v.turn))
  {
    FenceMeans(LedgerOf(s, v.turn));
    hide ActiveFence, FenceOpen;
  }

  /** A child of a grant is admitted exactly as its first child and its completed receipt. */
  lemma ReceiptExactly(s: State, v: Item)
    requires v.id !in s.itemIds && Empty !in {v.id, v.turn} && v.parent in s.itemIds && DispatchGrant(s.itemIds[v.parent])
    requires s.itemIds[v.parent].id == v.parent && !v.status.ItemStarted?
    ensures var g := s.itemIds[v.parent];
            AppendItem(s, v).Ok? <==>
              && Empty !in {g.id, g.turn, g.invocation, g.run} && g.seqNo > 0
              && v.kind.Diagnostic? && v.status.ItemCompleted? && v.turn == g.turn && v.invocation == g.invocation
              && v.run == g.run && |LedgerOf(s, v.turn)| >= g.seqNo
              && v.payload.Document? && v.payload.boundary in RECEIPTS
              && (forall k :: 0 <= k < |LedgerOf(s, g.turn)| && LedgerOf(s, g.turn)[k].kind.Diagnostic? ==>
                    LedgerOf(s, g.turn)[k].parent != g.id)
  {
    hide LedgerOf;
    var g := s.itemIds[v.parent];
    var items := LedgerOf(s, g.turn);
    RecognizedMeans();
    ChildlessMeans(items, g.id);
  }

  lemma ChildlessMeans(items: seq<Item>, g: Id)
    ensures (forall p :: p in items ==> !ClaimsId(p, g)) <==>
            (forall k :: 0 <= k < |items| && items[k].kind.Diagnostic? ==> items[k].parent != g)
  {
    if forall p :: p in items ==> !ClaimsId(p, g) {
      forall k | 0 <= k < |items| && items[k].kind.Diagnostic? ensures items[k].parent != g { assert items[k] in items; }
    }
  }

  lemma RecognizedMeans()
    ensures forall b :: Recognized(b) <==> b in RECEIPTS
  {
  }

  /** Anything else with a new identity is admitted. */
  lemma PlainExactly(s: State, v: Item)
    requires v.id !in s.itemIds && Empty !in {v.id, v.turn}
    requires !(v.kind.Diagnostic? && v.status.ItemStarted? && v.parent in {CancellationFenceParent, ExecutionDispatchParent})
    requires v.parent in s.itemIds ==> !DispatchGrant(s.itemIds[v.parent])
    ensures AppendItem(s, v) == Ok((v.(seqNo := |LedgerOf(s, v.turn)| + 1), true))
  {
  }

  /** An Item with a stored identity is answered with the stored one if nothing but its number differs, and is a
      conflict otherwise; a nameless one is invalid; any other refusal is a conflict. */
  lemma ItemReplyExactly(s: State, v: Item)
    ensures (v.id == Empty || v.turn == Empty) <==> AppendItem(s, v) == Err(InvalidRequest)
    ensures v.id != Empty && v.turn != Empty && v.id in s.itemIds ==>
              AppendItem(s, v) == if v == s.itemIds[v.id].(seqNo := v.seqNo) then Ok((s.itemIds[v.id], false)) else Err(Conflict)
    ensures AppendItem(s, v).Err? ==> AppendItem(s, v).error in {InvalidRequest, Conflict}
  {
    hide Admits;
  }

  /** No grant of an Attempt is appended after that Attempt became final: whenever one is, the owner has
      moved on to a later Attempt. */
  lemma NoGrantAfterFinal(s: State, script: seq<Op>, v: Item)
    requires Inv(s) && v.invocation in s.invocations && s.invocations[v.invocation].status in FINAL
    requires DispatchGrant(v) && v.id !in Run(s, script).itemIds && AppendItem(Run(s, script), v).Ok?
    ensures v.invocation in Run(s, script).invocations
    ensures Run(s, script).invocations[v.invocation].attempt > s.invocations[v.invocation].attempt
  {
    OwnerRun(s, script, v.invocation);
    hide Run, Inv;
    GrantExactly(Run(s, script), v);
  }

  // ---------------------------------------------------------------- Retry

  predicate Composed(c: ExecutionClass) {
    c in {Team, Workflow, GroupChat}
  }

  predicate GrantFor(v: Item, id: Id) {
    DispatchGrant(v) && v.invocation == id
  }

  /** Every grant of a composite was settled as having had no effect, and there is at least one. */
  ghost predicate ProvenIdle(items: seq<Item>, v: Invocation) {
    && (exists i :: 0 <= i < |items| && GrantFor(items[i], v.id))
    && (forall i :: 0 <= i < |items| && GrantFor(items[i], v.id) ==>
          SettledBy(items, items[i], PhysicalDispatchRejected) || SettledBy(items, items[i], FeatureStartNoEffect))
  }

  /** A child frozen as a routed delegation: its identity is derived from its own sealed fields. */
  predicate RoutedDelegation(v: Invocation) {
    && v.parent != Empty && v.executionClass == Agent && v.capability == CapabilityAgent
    && v.input.Object? && v.inputHash == Sha256(v.input)
    && {DelegationId, MemberId, ChildRunId, Goal} <= v.input.fields.Keys
    && v.input.fields[DelegationId].Raw? && v.input.fields[DelegationId].text != ""
    && v.input.fields[MemberId].Raw? && v.input.fields[MemberId].text != ""
    && v.input.fields[ChildRunId].Raw? && v.input.fields[ChildRunId].text != ""
    && v.input.fields[Goal].Raw? && v.input.fields[Goal].text != ""
    && v.id == Stable(HInvocation, [v.turn, v.parent, CapabilityAgent, Name(v.input.fields[DelegationId].text)])
  }

  /** A child that stands in nobody's way: finished, and proven idle if it is a composite; or never
      started, with every grant for its current Run settled as rejected. */
  ghost predicate OutOfTheWay(items: seq<Item>, c: Invocation) {
    || (c.status in FINAL && (Composed(c.executionClass) ==> ProvenIdle(items, c)))
    || (&& c.status == Accepted && (RoutedDelegation(c) ==> Frozen(c).Some?)
        && (forall i :: 0 <= i < |items| && GrantFor(items[i], c.id) ==>
              items[i].run == c.ref && SettledBy(items, items[i], PhysicalDispatchRejected)))
  }

  lemma NoEffectMeans(items: seq<Item>, g: Item)
    ensures NoEffect(GrantOutcome(items, g)) <==>
              SettledBy(items, g, PhysicalDispatchRejected) || SettledBy(items, g, FeatureStartNoEffect)
    ensures GrantOutcome(items, g) == Some(PhysicalDispatchRejected) <==> SettledBy(items, g, PhysicalDispatchRejected)
  {
    hide GrantOutcome, SettledBy;
    SettledMeans(items, g, PhysicalDispatchRejected);
    SettledMeans(items, g, FeatureStartNoEffect);
  }

  lemma IdleMeans(items: seq<Item>, v: Invocation)
    ensures MayHaveDescendants(items, v) <==> Composed(v.executionClass) && !ProvenIdle(items, v)
  {
    hide GrantOutcome, SettledBy, NoEffect;
    forall g ensures NoEffect(GrantOutcome(items, g)) <==>
                     SettledBy(items, g, PhysicalDispatchRejected) || SettledBy(items, g, FeatureStartNoEffect) {
      NoEffectMeans(items, g);
    }
    if exists i :: 0 <= i < |items| && GrantFor(items[i], v.id) {
      var i :| 0 <= i < |items| && GrantFor(items[i], v.id);
      assert items[i] in items && GrantOf(items[i], v.id);
    }
    if exists i :: 0 <= i < |items| && GrantFor(items[i], v.id) && !NoEffect(GrantOutcome(items, items[i])) {
      var i :| 0 <= i < |items| && GrantFor(items[i], v.id) && !NoEffect(GrantOutcome(items, items[i]));
      assert items[i] in items && GrantOf(items[i], v.id);
    }
  }

  lemma RejectedMeans(items: seq<Item>, c: Invocation)
    ensures EffectPossible(items, c) <==>
            exists i :: 0 <= i < |items| && GrantFor(items[i], c.id) &&
                        (items[i].run != c.ref || !SettledBy(items, items[i], PhysicalDispatchRejected))
  {
    hide GrantOutcome, SettledBy;
    forall g ensures GrantOutcome(items, g) == Some(PhysicalDispatchRejected) <==>
                     SettledBy(items, g, PhysicalDispatchRejected) {
      NoEffectMeans(items, g);
    }
    if exists i :: 0 <= i < |items| && GrantFor(items[i], c.id) &&
                   (items[i].run != c.ref || !SettledBy(items, items[i], PhysicalDispatchRejected)) {
      var i :| 0 <= i < |items| && GrantFor(items[i], c.id) &&
               (items[i].run != c.ref || !SettledBy(items, items[i], PhysicalDispatchRejected));
      assert items[i] in items && GrantOf(items[i], c.id);
    }
  }

  lemma ChildMeans(items: seq<Item>, c: Invocation)
    ensures ChildPermitsRetry(items, c) <==> OutOfTheWay(items, c)
  {
    IdleMeans(items, c);
    RejectedMeans(items, c);
    hide MayHaveDescendants, EffectPossible, SettledBy, Frozen, ProvenIdle;
    assert IsHandoff(c) <==> RoutedDelegation(c);
  }

  /** The fence decision, for any listing of children: a composite is proven idle, and every listed child but
      the rotated one and parentless ones is out of the way. */
  lemma PermittedMeans(children: set<Invocation>, items: seq<Item>, v: Invocation)
    ensures RetryPermitted(children, items, v) <==>
              && (Composed(v.executionClass) ==> ProvenIdle(items, v))
              && forall c :: c in children && c.id != v.id && c.parent != Empty ==> OutOfTheWay(items, c)
  {
    hide ChildPermitsRetry, OutOfTheWay, MayHaveDescendants, ProvenIdle;
    IdleMeans(items, v);
    forall c ensures ChildPermitsRetry(items, c) <==> OutOfTheWay(items, c) { ChildMeans(items, c); }
  }

  /** A Retry is granted exactly when it read the stored revision of a failed or cancelled Invocation with an
      Input; its Turn has no open fence and owes no receipt; a composite is proven idle; every other child of
      the Turn is out of the way; a root's Turn is final; and the new Run belongs to nobody else. */
  lemma RetryExactly(s: State, id: Id, r: nat, next: Id)
    requires Inv(s)
    ensures RetryInvocation(s, id, r, next).Some? <==>
              && id != Empty && r > 0 && next != Empty && id in s.invocations
              && var v := s.invocations[id];
                 var items := LedgerOf(s, v.turn);
                 && v.revision == r && v.status in {Failed, Cancelled} && v.input != NoInput
                 && !FenceOpen(items) && !Owed(items, Empty) && (Composed(v.executionClass) ==> ProvenIdle(items, v))
                 && (forall k | k in s.invocations && k != id && s.invocations[k].turn == v.turn ::
                       s.invocations[k].parent != Empty ==> OutOfTheWay(items, s.invocations[k]))
                 && (v.parent == Empty ==> v.turn in s.turns && s.turns[v.turn].status in FINAL)
                 && (next in s.refs ==> s.refs[next] in {Empty, id})
    ensures RetryInvocation(s, id, r, next).Some? ==>
              var v := s.invocations[id];
              RetryInvocation(s, id, r, next).value ==
              v.(attempt := v.attempt + 1, ref := next, status := Accepted, revision := r + 1)
  {
    hide ChildPermitsRetry, OutOfTheWay, ActiveFence, FenceOpen, Pending, Owed, ProvenIdle, MayHaveDescendants, LedgerOf, Inv;
    if id in s.invocations {
      var v := s.invocations[id];
      var items := LedgerOf(s, v.turn);
      FenceMeans(items);
      OwedMeans(items, Empty);
      IdleMeans(items, v);
      KeyedIn(s);
      ChildrenMeans(s, v);
    }
  }

  lemma ChildrenMeans(s: State, v: Invocation)
    requires Keyed(s.invocations) && v.id in s.invocations
    ensures var items := LedgerOf(s, v.turn);
            (forall c :: c in Children(s, v) && c.id != v.id && c.parent != Empty ==> ChildPermitsRetry(items, c)) <==>
            (forall k :: k in s.invocations && k != v.id && s.invocations[k].turn == v.turn && s.invocations[k].parent != Empty ==>
               OutOfTheWay(items, s.invocations[k]))
  {
    hide ChildPermitsRetry, OutOfTheWay, LedgerOf;
    var items := LedgerOf(s, v.turn);
    forall c ensures ChildPermitsRetry(items, c) <==> OutOfTheWay(items, c) { ChildMeans(items, c); }
    forall k | k in s.invocations && k != v.id && s.invocations[k].turn == v.turn && s.invocations[k].parent != Empty
      ensures s.invocations[k] in Children(s, v)
    {
      assert s.invocations[k].id == k;
    }
  }

  /** What a Retry leaves behind, at the rotation and in every later state: each grant of a finished composite
      child of the Turn, other than the rotated one, was settled as having had no effect, and there is one;
      each grant of a child that was not started was for its current Run and settled as rejected. */
  lemma RotationLeavesNoEffect(s: State, id: Id, r: nat, next: Id, later: seq<Op>, child: Id, i: nat)
    requires Inv(s) && RetryInvocation(s, id, r, next).Some? && child in s.invocations && child != id
    requires s.invocations[child].turn == s.invocations[id].turn && s.invocations[child].parent != Empty
    requires var items := LedgerOf(s, s.invocations[id].turn); i < |items| && GrantFor(items[i], child)
    ensures s.invocations[child].status in FINAL + {Accepted}
    ensures var items := LedgerOf(Run(Step(s, DoRetry(id, r, next)), later), s.invocations[id].turn);
            var g := LedgerOf(s, s.invocations[id].turn)[i];
            && (s.invocations[child].status == Accepted ==>
                  g.run == s.invocations[child].ref && SettledBy(items, g, PhysicalDispatchRejected))
            && (s.invocations[child].status in FINAL && Composed(s.invocations[child].executionClass) ==>
                  SettledBy(items, g, PhysicalDispatchRejected) || SettledBy(items, g, FeatureStartNoEffect))
  {
    hide Run, Step, Inv, GrantOutcome, RetryInvocation, SettledBy, FenceOpen, Owed;
    RetryExactly(s, id, r, next);
    var t := s.invocations[id].turn;
    var items, now := LedgerOf(s, t), LedgerOf(Run(Step(s, DoRetry(id, r, next)), later), t);
    KeyedIn(s);
    assert s.invocations[child].id == child && OutOfTheWay(items, s.invocations[child]);
    RotationEvidence(s, id, r, next, later, i);
    KeptOutcome(s, id, r, next, later, i);
    SettledMeans(items, items[i], PhysicalDispatchRejected);
    SettledMeans(items, items[i], FeatureStartNoEffect);
    SettledMeans(now, items[i], PhysicalDispatchRejected);
    SettledMeans(now, items[i], FeatureStartNoEffect);
  }

  lemma KeptOutcome(s: State, id: Id, r: nat, next: Id, later: seq<Op>, i: nat)
    requires Inv(s) && RetryInvocation(s, id, r, next).Some?
    requires var t := s.invocations[id].turn; i < |LedgerOf(s, t)| && IsGrant(LedgerOf(s, t)[i])
    ensures var t := s.invocations[id].turn;
            GrantOutcome(LedgerOf(Run(Step(s, DoRetry(id, r, next)), later), t), LedgerOf(s, t)[i]) ==
            GrantOutcome(LedgerOf(s, t), LedgerOf(s, t)[i])
  {
    var t := s.invocations[id].turn;
    RotationSettled(s, id, r, next, t, i);
    hide Run, Step, Inv, GrantOutcome, RetryInvocation;
    SettledStep(s, DoRetry(id, r, next), t, i);
    InvStep(s, DoRetry(id, r, next));
    SettledForever(Step(s, DoRetry(id, r, next)), later, t, i);
  }

  /** A finished composite child without any grant blocks every Retry in its Turn. */
  lemma UngrantedCompositeBlocks(s: State, id: Id, r: nat, next: Id, child: Id)
    requires Inv(s) && id in s.invocations && child in s.invocations && child != id
    requires s.invocations[child].turn == s.invocations[id].turn && s.invocations[child].parent != Empty
    requires Composed(s.invocations[child].executionClass)
    requires var items := LedgerOf(s, s.invocations[id].turn); forall i :: 0 <= i < |items| ==> !GrantFor(items[i], child)
    ensures RetryInvocation(s, id, r, next).Some? ==> s.invocations[child].status == Accepted
  {
    hide RetryInvocation, FenceOpen, Owed, SettledBy, Inv;
    RetryExactly(s, id, r, next);
    KeyedIn(s);
    assert s.invocations[child].id == child;
    if RetryInvocation(s, id, r, next).Some? {
      assert OutOfTheWay(LedgerOf(s, s.invocations[id].turn), s.invocations[child]);
    }
  }

  // ---------------------------------------------------------------- Interactions

  /** A new wait is admitted exactly without an open fence, for stored owners of one Turn read at their
      stored revisions, in one of the three pairs of statuses that may wait, and with nothing else waiting. */
  lemma WaitExactly(s: State, v: Interaction, t: nat, r: nat)
    requires v.id !in s.interactions
    ensures CreateInteraction(s, v, t, r).Ok? <==>
              && Empty !in {v.id, v.turn, v.invocation, v.key} && v.revision > 0 && t > 0 && r > 0
              && !FenceOpen(LedgerOf(s, v.turn)) && v.turn in s.turns && v.invocation in s.invocations
              && s.turns[v.turn].revision == t && s.invocations[v.invocation].revision == r
              && s.invocations[v.invocation].turn == s.turns[v.turn].id
              && (s.turns[v.turn].status, s.invocations[v.invocation].status) in
                   {(Running, Accepted), (Running, Running), (WaitingInput, WaitingInput)} +
                   (if s.invocations[v.invocation].parent != Empty
                    then {(Accepted, WaitingInput), (Running, WaitingInput)} else {})
              && (forall id :: id in s.interactions && s.interactions[id].turn == v.turn ==> s.interactions[id].resolved)
    ensures CreateInteraction(s, v, t, r).Ok? ==> CreateInteraction(s, v, t, r).value == (v, true)
    ensures CreateInteraction(s, v, t, r).Err? ==>
              CreateInteraction(s, v, t, r).error ==
              if Empty in {v.id, v.turn, v.invocation, v.key} || v.revision == 0 || t == 0 || r == 0 then InvalidRequest else Conflict
  {
    FenceMeans(LedgerOf(s, v.turn));
    hide ActiveFence, FenceOpen;
  }

  /** A wait that is stored already is answered with the stored record, provided owner and question agree. */
  lemma WaitReplayExactly(s: State, v: Interaction, t: nat, r: nat)
    requires v.id in s.interactions && Empty !in {v.id, v.turn, v.invocation, v.key} && v.revision > 0 && t > 0 && r > 0
    ensures var was := s.interactions[v.id];
            CreateInteraction(s, v, t, r) ==
            if v == was.(resolved := v.resolved, response := v.response, revision := v.revision)
            then Ok((was, false)) else Err(Conflict)
  {
    hide ActiveFence;
  }

  /** An answer is accepted exactly once, for an unanswered Interaction read at its stored revision whose Turn
      and owner both wait, without an open fence. */
  lemma ResolveExactly(s: State, v: Interaction, r: nat)
    ensures ResolveInteraction(s, v, r).Ok? <==>
              && Empty !in {v.id, v.turn, v.invocation, v.key} && v.revision > 0 && r > 0 && v.resolved && v.response != ""
              && v.id in s.interactions && v.turn in s.turns && v.invocation in s.invocations
              && s.interactions[v.id] == v.(resolved := false, response := s.interactions[v.id].response, revision := r)
              && s.turns[v.turn].status == WaitingInput && s.invocations[v.invocation].status == WaitingInput
              && s.invocations[v.invocation].turn == v.turn && !FenceOpen(LedgerOf(s, v.turn))
    ensures ResolveInteraction(s, v, r).Ok? ==> ResolveInteraction(s, v, r).value == v.(revision := r + 1)
    ensures ResolveInteraction(s, v, r).Err? ==>
              ResolveInteraction(s, v, r).error ==
              if Empty in {v.id, v.turn, v.invocation, v.key} || v.revision == 0 || r == 0 || !v.resolved || v.response == ""
              then InvalidRequest else Conflict
  {
    FenceMeans(LedgerOf(s, v.turn));
    hide ActiveFence, FenceOpen;
  }

  ghost predicate OneWaiting(interactions: map<Id, Interaction>) {
    && (forall id :: id in interactions ==> interactions[id].id == id)
    && (forall a, b | a in interactions && b in interactions && interactions[a].turn == interactions[b].turn ::
          interactions[a].resolved || interactions[b].resolved || a == b)
  }

  lemma OtherRequests(s: State, op: Op)
    requires !op.DoWait? && !op.DoResolve?
    ensures Step(s, op).interactions == s.interactions
  {
    hide CreateTurn, UpdateTurn, CreateInvocation, UpdateInvocation, RetryInvocation, AppendItem, LedgerOf;
  }

  lemma WaitCommits(s: State, v: Interaction, t: nat, r: nat)
    ensures var stored := Step(s, DoWait(v, t, r)).interactions;
            if CreateInteraction(s, v, t, r).Ok? && CreateInteraction(s, v, t, r).value.1
            then v.id !in s.interactions && stored == s.interactions[v.id := v] && !HasWaiting(s, v.turn)
            else stored == s.interactions
  {
    hide ActiveFence, LedgerOf;
  }

  lemma ResolveCommits(s: State, v: Interaction, r: nat)
    ensures var stored := Step(s, DoResolve(v, r)).interactions;
            if ResolveInteraction(s, v, r).Ok?
            then && v.id in s.interactions && !s.interactions[v.id].resolved && v.resolved
                 && SameInteraction(s.interactions[v.id], v) && stored == s.interactions[v.id := v.(revision := r + 1)]
            else stored == s.interactions
  {
    hide ActiveFence, LedgerOf;
  }

  lemma WaitingStep(s: State, op: Op)
    requires OneWaiting(s.interactions)
    ensures OneWaiting(Step(s, op).interactions)
  {
    hide Step, CreateInteraction, ResolveInteraction;
    match op {
      case DoWait(v, t, r) => WaitCommits(s, v, t, r);
      case DoResolve(v, r) => ResolveCommits(s, v, r);
      case _ => OtherRequests(s, op);
    }
  }

  /** In every reachable state at most one Interaction of a Turn is unanswered. */
  lemma {:induction false} OneWaitingReachable(script: seq<Op>)
    ensures OneWaiting(Run(INITIAL, script).interactions)
  {
    hide Step;
    if script != [] {
      OneWaitingReachable(script[..|script| - 1]);
      WaitingStep(Run(INITIAL, script[..|script| - 1]), script[|script| - 1]);
    }
  }

  lemma AnswerStep(s: State, op: Op, id: Id)
    requires OneWaiting(s.interactions) && id in s.interactions
    ensures id in Step(s, op).interactions
    ensures s.interactions[id].resolved ==> Step(s, op).interactions[id] == s.interactions[id]
    ensures SameInteraction(s.interactions[id], Step(s, op).interactions[id])
  {
    hide Step, CreateInteraction, ResolveInteraction;
    match op {
      case DoWait(v, t, r) => WaitCommits(s, v, t, r);
      case DoResolve(v, r) => ResolveCommits(s, v, r);
      case _ => OtherRequests(s, op);
    }
  }

  /** Along every script an Interaction keeps its owner and its question, and an answer is final. */
  lemma {:induction false} AnswerIsFinal(front: seq<Op>, later: seq<Op>, id: Id)
    requires id in Run(INITIAL, front).interactions
    ensures var was, now := Run(INITIAL, front).interactions, Run(Run(INITIAL, front), later).interactions;
            && id in now && (was[id].resolved ==> now[id] == was[id])
            && now[id].turn == was[id].turn && now[id].invocation == was[id].invocation && now[id].contract == was[id].contract
  {
    hide Step;
    if later != [] {
      AnswerIsFinal(front, later[..|later| - 1], id);
      OneWaitingReachable(front);
      WaitingRun(Run(INITIAL, front), later[..|later| - 1]);
      AnswerStep(Run(Run(INITIAL, front), later[..|later| - 1]), later[|later| - 1], id);
    }
  }

  lemma {:induction false} WaitingRun(s: State, script: seq<Op>)
    requires OneWaiting(s.interactions)
    ensures OneWaiting(Run(s, script).interactions)
  {
    hide Step;
    if script != [] {
      WaitingRun(s, script[..|script| - 1]);
      WaitingStep(Run(s, script[..|script| - 1]), script[|script| - 1]);
    }
  }

  // ---------------------------------------------------------------- what a granted request changes

  /** Turns: a new one is stored, an updated one replaces its record at the next revision, and nothing else changes. */
  lemma TurnEffect(s: State, v: Turn, r: nat)
    ensures Step(s, DoCreateTurn(v)) ==
            if CreateTurn(s, v).Ok? && v.id !in s.turns then s.(turns := s.turns[v.id := v]) else s
    ensures Step(s, DoUpdateTurn(v, r)) ==
            if UpdateTurn(s, v, r).Ok? then s.(turns := s.turns[v.id := v.(revision := r + 1)]) else s
  {
  }

  /** Invocations: a new one is stored and its Run indexed; an updated one replaces its record at the next revision. */
  lemma InvocationEffect(s: State, v: Invocation, r: nat)
    ensures Step(s, DoCreate(v)) ==
            if CreateInvocation(s, v).Err? || v.id in s.invocations then s
            else s.(invocations := s.invocations[v.id := v], refs := if v.ref == Empty then s.refs else s.refs[v.ref := v.id])
    ensures Step(s, DoUpdate(v, r)) ==
            if UpdateInvocation(s, v, r).Ok? then s.(invocations := s.invocations[v.id := v.(revision := r + 1)]) else s
  {
    hide ActiveFence, Pending, OtherRoot, RefTaken, LedgerOf;
  }

  /** A Retry: the next Attempt is stored, unclaimed, under the new Run; the new Run is indexed and the old one is not,
      unless they are the same; a root's Turn runs again at its next revision; and nothing else changes. */
  lemma RetryEffect(s: State, id: Id, r: nat, next: Id, ref: Id, t: Id)
    requires Inv(s)
    ensures RetryInvocation(s, id, r, next).None? ==> Step(s, DoRetry(id, r, next)) == s
    ensures RetryInvocation(s, id, r, next).Some? ==>
              var v, s' := s.invocations[id], Step(s, DoRetry(id, r, next));
              && s'.invocations ==
                 s.invocations[id := v.(attempt := v.attempt + 1, ref := next, status := Accepted, revision := r + 1)]
              && next in s'.refs && s'.refs[next] == id && (v.ref != next ==> v.ref !in s'.refs)
              && (ref !in {v.ref, next} ==> (ref in s'.refs <==> ref in s.refs) && (ref in s.refs ==> s'.refs[ref] == s.refs[ref]))
              && s'.turns.Keys == s.turns.Keys
              && (v.parent == Empty ==>
                    v.turn in s.turns &&
                    s'.turns[v.turn] == s.turns[v.turn].(status := Running, revision := s.turns[v.turn].revision + 1))
              && (t in s.turns && (v.parent != Empty || t != v.turn) ==> s'.turns[t] == s.turns[t])
              && s'.items == s.items && s'.itemIds == s.itemIds && s'.interactions == s.interactions
  {
    hide FenceOpen, Owed, OutOfTheWay, ProvenIdle, LedgerOf, RetryInvocation, Commit, Inv, Step;
    RetryExactly(s, id, r, next);
    KeyedIn(s);
    RetryCommits(s, id, r, next);
    if RetryInvocation(s, id, r, next).Some? {
      assert s.invocations[id].id == id;
      RotationCommit(s, RetryInvocation(s, id, r, next).value, ref, t);
    }
  }

  lemma RetryCommits(s: State, id: Id, r: nat, next: Id)
    ensures Step(s, DoRetry(id, r, next)) ==
            match RetryInvocation(s, id, r, next) case Some(v) => Commit(s, PutRotated(v)) case None => s
  {
    hide RetryInvocation;
  }

  lemma RotationCommit(s: State, n: Invocation, ref: Id, t: Id)
    requires n.id in s.invocations && (n.parent == Empty ==> n.turn in s.turns)
    ensures var v, s' := s.invocations[n.id], Commit(s, PutRotated(n));
            && s'.invocations == s.invocations[n.id := n]
            && n.ref in s'.refs && s'.refs[n.ref] == n.id && (v.ref != n.ref ==> v.ref !in s'.refs)
            && (ref !in {v.ref, n.ref} ==> (ref in s'.refs <==> ref in s.refs) && (ref in s.refs ==> s'.refs[ref] == s.refs[ref]))
            && s'.turns.Keys == s.turns.Keys
            && (n.parent == Empty ==>
                  s'.turns[n.turn] == s.turns[n.turn].(status := Running, revision := s.turns[n.turn].revision + 1))
            && (t in s.turns && (n.parent != Empty || t != n.turn) ==> s'.turns[t] == s.turns[t])
            && s'.items == s.items && s'.itemIds == s.itemIds && s'.interactions == s.interactions
  {
  }

  /** Items: a new one ends its Turn's ledger, numbered by its place, and is indexed by its identity. */
  lemma ItemEffect(s: State, v: Item, t: Id)
    ensures AppendItem(s, v).Err? || v.id in s.itemIds ==> Step(s, DoAppend(v)) == s
    ensures AppendItem(s, v).Ok? && v.id !in s.itemIds ==>
              var s', stored := Step(s, DoAppend(v)), v.(seqNo := |LedgerOf(s, v.turn)| + 1);
              && LedgerOf(s', v.turn) == LedgerOf(s, v.turn) + [stored] && s'.itemIds == s.itemIds[v.id := stored]
              && (t != v.turn ==> LedgerOf(s', t) == LedgerOf(s, t))
              && s' == s.(items := s'.items, itemIds := s'.itemIds)
  {
    hide Admits;
  }

  /** Interactions: a new one is stored as asked, an answered one replaces its record at the next revision. */
  lemma InteractionEffect(s: State, v: Interaction, t: nat, r: nat)
    ensures Step(s, DoWait(v, t, r)) ==
            if CreateInteraction(s, v, t, r).Ok? && v.id !in s.interactions then s.(interactions := s.interactions[v.id := v]) else s
    ensures Step(s, DoResolve(v, r)) ==
            if ResolveInteraction(s, v, r).Ok? then s.(interactions := s.interactions[v.id := v.(revision := r + 1)]) else s
  {
    hide ActiveFence, LedgerOf, HasWaiting, OwnersCanWait;
  }
}
