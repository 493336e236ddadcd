/**
 Safety over whole histories of the Store, for every script of requests: what a settled grant, an
 unsettled grant, a committed revision, a rotation and an open cancellation fence each fix forever.
 */
module StoreTheorems {
  import opened Records
  import opened Ledger
  import opened RetryFence
  import opened Admission
  import opened StoreInvariant

  // ---------------------------------------------------------------- identities along a script

  lemma SameOwnerTransitive(a: Invocation, b: Invocation, c: Invocation)
    requires SameOwner(a, b) && SameOwner(b, c)
    ensures SameOwner(a, c)
  {
  }

  /** Along every script an Invocation keeps its identity and Input, its Attempt and revision only
      grow, and within one Attempt its execution ref is fixed and a terminal status is final. */
  lemma {:induction false} OwnerRun(s: State, script: seq<Op>, id: Id)
    requires Inv(s) && id in s.invocations
    ensures id in Run(s, script).invocations && SameOwner(s.invocations[id], Run(s, script).invocations[id])
  {
    hide Step, SameOwner, Inv;
    if script == [] {
      OwnerReflexive(s.invocations[id]);
    } else {
      var front, op := script[..|script| - 1], script[|script| - 1];
      InvRun(s, front);
      OwnerRun(s, front, id);
      OwnerStep(Run(s, front), op, id);
      SameOwnerTransitive(s.invocations[id], Run(s, front).invocations[id], Run(s, script).invocations[id]);
    }
  }

  lemma OwnerReflexive(a: Invocation)
    ensures SameOwner(a, a)
  {
  }

  lemma OwnerStep(s: State, op: Op, id: Id)
    requires Inv(s) && id in s.invocations
    ensures id in Step(s, op).invocations && SameOwner(s.invocations[id], Step(s, op).invocations[id])
  {
    hide Step, Legal, Commit, SameOwner;
    var w := StepLegal(s, op);
    InvocationCommit(s, w, id);
  }

  /** Compare-and-set exclusivity: once revision `r` of an Invocation has been superseded, no later
      request conditioned on `r` commits. A callback claim and a cancellation claim that read the
      same waiting revision therefore cannot both win. */
  lemma RevisionSpentOnce(s: State, script: seq<Op>, v: Invocation, r: nat, next: Id)
    requires Inv(s) && v.id in s.invocations && s.invocations[v.id].revision > r
    ensures UpdateInvocation(Run(s, script), v, r).Err?
    ensures RetryInvocation(Run(s, script), v.id, r, next).None?
  {
    OwnerRun(s, script, v.id);
    hide Run, Inv, ActiveFence, Pending, RetryPermitted;
  }

  /** A committed cancellation excludes every later claim of the same Attempt. */
  lemma TerminalExcludesClaims(s: State, script: seq<Op>, v: Invocation, r: nat)
    requires Inv(s) && v.id in s.invocations && Terminal(s.invocations[v.id].status)
    requires v.attempt == s.invocations[v.id].attempt && v.status != s.invocations[v.id].status
    ensures UpdateInvocation(Run(s, script), v, r).Err?
  {
    OwnerRun(s, script, v.id);
    hide Run, Inv, ActiveFence, Pending;
  }

  // ---------------------------------------------------------------- grants along a script

  /** Ledgers are append-only. */
  lemma {:induction false} LedgerRun(s: State, script: seq<Op>, t: Id)
    requires Inv(s)
    ensures LedgerOf(s, t) <= LedgerOf(Run(s, script), t)
  {
    hide Step, Inv;
    if script != [] {
      var front := script[..|script| - 1];
      InvRun(s, front);
      LedgerRun(s, front, t);
      LedgerStep(Run(s, front), script[|script| - 1], t);
    }
  }

  lemma LedgerStep(s: State, op: Op, t: Id)
    requires Inv(s)
    ensures LedgerOf(s, t) <= LedgerOf(Step(s, op), t)
  {
    hide Step, Legal, Commit;
    var w := StepLegal(s, op);
    LedgerCommit(s, w, t);
  }

  /** A settled grant stays settled, by the same receipt boundary, under every later script. */
  lemma {:induction false} SettledForever(s: State, script: seq<Op>, t: Id, i: nat)
    requires Inv(s) && i < |LedgerOf(s, t)| && IsGrant(LedgerOf(s, t)[i])
    requires GrantOutcome(LedgerOf(s, t), LedgerOf(s, t)[i]).Some?
    ensures i < |LedgerOf(Run(s, script), t)| && LedgerOf(Run(s, script), t)[i] == LedgerOf(s, t)[i]
    ensures GrantOutcome(LedgerOf(Run(s, script), t), LedgerOf(s, t)[i]) == GrantOutcome(LedgerOf(s, t), LedgerOf(s, t)[i])
  {
    hide Step, Inv, GrantOutcome;
    if script != [] {
      var front := script[..|script| - 1];
      InvRun(s, front);
      SettledForever(s, front, t, i);
      SettledStep(Run(s, front), script[|script| - 1], t, i);
    }
  }

  lemma SettledStep(s: State, op: Op, t: Id, i: nat)
    requires Inv(s) && i < |LedgerOf(s, t)| && IsGrant(LedgerOf(s, t)[i])
    requires GrantOutcome(LedgerOf(s, t), LedgerOf(s, t)[i]).Some?
    ensures i < |LedgerOf(Step(s, op), t)| && LedgerOf(Step(s, op), t)[i] == LedgerOf(s, t)[i]
    ensures GrantOutcome(LedgerOf(Step(s, op), t), LedgerOf(s, t)[i]) == GrantOutcome(LedgerOf(s, t), LedgerOf(s, t)[i])
  {
    hide Step, Legal, Commit, GrantOutcome;
    var w := StepLegal(s, op);
    OutcomeCommit(s, w, t, i);
  }

  /** From a grant's admission until its settlement no Attempt of its Turn rotates: every ancestor
      keeps its identity, execution ref and Attempt, whatever other callers do. */
  lemma {:induction false} UnsettledGrantFreezesTurn(s: State, script: seq<Op>, t: Id, i: nat, id: Id)
    requires Inv(s) && i < |LedgerOf(s, t)| && id in s.invocations && s.invocations[id].turn == t
    requires i < |LedgerOf(Run(s, script), t)| && Unsettled(LedgerOf(Run(s, script), t), i)
    ensures id in Run(s, script).invocations
    ensures Attempt(Run(s, script).invocations[id]) == Attempt(s.invocations[id])
  {
    hide Step, Inv, Unsettled, SameOwner;
    if script != [] {
      var front, op := script[..|script| - 1], script[|script| - 1];
      InvRun(s, front);
      LedgerRun(s, front, t);
      OwnerRun(s, front, id);
      OwnerTurn(s.invocations[id], Run(s, front).invocations[id]);
      FreezeStep(Run(s, front), op, t, i, id);
      UnsettledGrantFreezesTurn(s, front, t, i, id);
    }
  }

  lemma OwnerTurn(a: Invocation, b: Invocation)
    requires SameOwner(a, b)
    ensures a.turn == b.turn
  {
  }

  lemma FreezeStep(s: State, op: Op, t: Id, i: nat, id: Id)
    requires Inv(s) && i < |LedgerOf(s, t)| && id in s.invocations && s.invocations[id].turn == t
    requires i < |LedgerOf(Step(s, op), t)| && Unsettled(LedgerOf(Step(s, op), t), i)
    ensures Unsettled(LedgerOf(s, t), i)
    ensures id in Step(s, op).invocations && Attempt(Step(s, op).invocations[id]) == Attempt(s.invocations[id])
  {
    hide Step, Legal, Commit, Unsettled;
    var w := StepLegal(s, op);
    UnsettledCommit(s, w, t, i);
    PendingHolds(s, w, t, i);
    InvocationCommit(s, w, id);
  }

  // ---------------------------------------------------------------- rotations

  /** What a rotation of `v` proves, at the rotation and in every later state: every grant its Turn
      had issued is settled for good by its one receipt, and when the rotated Invocation is a
      composite, each of its own grants was settled by a no-effect receipt. An earlier Attempt of a
      composite therefore never had an effect that a later Attempt could follow. */
  lemma RotationEvidence(s: State, id: Id, r: nat, next: Id, later: seq<Op>, i: nat)
    requires Inv(s) && RetryInvocation(s, id, r, next).Some?
    requires var t := s.invocations[id].turn; i < |LedgerOf(s, t)| && IsGrant(LedgerOf(s, t)[i])
    ensures var t, s' := s.invocations[id].turn, Run(Step(s, DoRetry(id, r, next)), later);
            var g := LedgerOf(s, t)[i];
            && g in LedgerOf(s', t) && GrantOutcome(LedgerOf(s', t), g).Some?
            && (g.invocation == id && Composite(s.invocations[id].executionClass) ==> NoEffect(GrantOutcome(LedgerOf(s', t), g)))
  {
    var t := s.invocations[id].turn;
    var g := LedgerOf(s, t)[i];
    RotationSettled(s, id, r, next, t, i);
    hide Run, Step, Inv, GrantOutcome, RetryInvocation;
    SettledStep(s, DoRetry(id, r, next), t, i);
    InvStep(s, DoRetry(id, r, next));
    SettledForever(Step(s, DoRetry(id, r, next)), later, t, i);
  }

  lemma RotationSettled(s: State, id: Id, r: nat, next: Id, t: Id, i: nat)
    requires Inv(s) && RetryInvocation(s, id, r, next).Some? && t == s.invocations[id].turn
    requires i < |LedgerOf(s, t)| && IsGrant(LedgerOf(s, t)[i])
    ensures GrantOutcome(LedgerOf(s, t), LedgerOf(s, t)[i]).Some?
    ensures LedgerOf(s, t)[i].invocation == id && Composite(s.invocations[id].executionClass) ==>
              NoEffect(GrantOutcome(LedgerOf(s, t), LedgerOf(s, t)[i]))
  {
    var items := LedgerOf(s, t);
    assert RetryAdmitted(s, s.invocations[id], r, next);
    assert s.invocations[id].id == id;
    hide Inv, ActiveFence, GrantOutcome, LedgerOf;
    assert !Pending(items, Empty) && !MayHaveDescendants(items, s.invocations[id]);
    assert items[i] in items;
    assert Unsettled(items, i) <==> GrantOutcome(items, items[i]).None?;
  }

  /** Each grant of a composite whose Run is no longer its owner's current one had no effect. */
  ghost predicate Retired(invocations: map<Id, Invocation>, items: seq<Item>) {
    forall i | 0 <= i < |items| && IsGrant(items[i]) && items[i].invocation in invocations ::
      Composite(invocations[items[i].invocation].executionClass) && invocations[items[i].invocation].ref != items[i].run ==>
        NoEffect(GrantOutcome(items, items[i]))
  }

  lemma RotatedNoEffect(s: State, v: Invocation, i: nat)
    requires Keyed(s.invocations) && Legal(s, PutRotated(v)) && i < |LedgerOf(s, v.turn)|
    requires IsGrant(LedgerOf(s, v.turn)[i]) && LedgerOf(s, v.turn)[i].invocation == v.id && Composite(v.executionClass)
    ensures NoEffect(GrantOutcome(LedgerOf(s, v.turn), LedgerOf(s, v.turn)[i]))
  {
    var items := LedgerOf(s, v.turn);
    assert s.invocations[v.id].id == v.id;
    hide ActiveFence, GrantOutcome, LedgerOf, Pending;
    assert !MayHaveDescendants(items, s.invocations[v.id]);
    assert items[i] in items;
  }

  lemma RetiredKept(s: State, w: Write, t: Id, i: nat)
    requires Inv(s) && Legal(s, w) && Retired(s.invocations, LedgerOf(s, t))
    requires i < |LedgerOf(s, t)| && IsGrant(LedgerOf(s, t)[i])
    ensures LedgerOf(s, t)[i].invocation in Commit(s, w).invocations
    ensures var g, owner := LedgerOf(s, t)[i], Commit(s, w).invocations[LedgerOf(s, t)[i].invocation];
            Composite(owner.executionClass) && owner.ref != g.run ==> NoEffect(GrantOutcome(LedgerOf(Commit(s, w), t), g))
  {
    hide Legal, GrantOutcome, Commit, OneGrant, OneFence, OneRoot, RefsAgree;
    var items, g := LedgerOf(s, t), LedgerOf(s, t)[i];
    assert LedgerInv(s, t);
    assert GrantOwned(s.invocations, g, Unsettled(items, i));
    assert t in s.items && Placed(s.itemIds, t, i, s.items[t][i]);
    OutcomeCommit(s, w, t, i);
    InvocationCommit(s, w, g.invocation);
    var was, now := s.invocations[g.invocation], Commit(s, w).invocations[g.invocation];
    if Composite(was.executionClass) {
      if was.ref == g.run && now.ref != g.run {
        assert w == PutRotated(now);
        RotatedNoEffect(s, now, i);
      } else if was.ref != g.run {
        assert NoEffect(GrantOutcome(items, g));
      }
    }
  }

  lemma RetiredCommit(s: State, w: Write, t: Id)
    requires Inv(s) && Legal(s, w) && Retired(s.invocations, LedgerOf(s, t))
    ensures Retired(Commit(s, w).invocations, LedgerOf(Commit(s, w), t))
  {
    hide Legal, GrantOutcome, LedgerInv, Commit, LedgerOf, LedgerIndexed, OneRoot, RefsAgree;
    LedgerCommit(s, w, t);
    var items, items' := LedgerOf(s, t), LedgerOf(Commit(s, w), t);
    forall i | 0 <= i < |items'| && IsGrant(items'[i]) && items'[i].invocation in Commit(s, w).invocations
      ensures var owner := Commit(s, w).invocations[items'[i].invocation];
              Composite(owner.executionClass) && owner.ref != items'[i].run ==> NoEffect(GrantOutcome(items', items'[i]))
    {
      if i < |items| {
        RetiredKept(s, w, t, i);
      } else {
        GrantAdmission(s, w.item);
        InvocationCommit(s, w, items'[i].invocation);
      }
    }
  }

  lemma {:induction false} RetiredRun(script: seq<Op>, t: Id)
    ensures Retired(Run(INITIAL, script).invocations, LedgerOf(Run(INITIAL, script), t))
  {
    hide Step, Inv, Retired;
    if script == [] {
      assert Retired(INITIAL.invocations, LedgerOf(INITIAL, t)) by { RetiredEmpty(); }
    } else {
      RetiredRun(script[..|script| - 1], t);
      RetiredStep(script[..|script| - 1], script[|script| - 1], t);
    }
  }

  lemma RetiredEmpty()
    ensures Retired(map[], [])
  {
  }

  lemma RetiredStep(front: seq<Op>, op: Op, t: Id)
    requires Retired(Run(INITIAL, front).invocations, LedgerOf(Run(INITIAL, front), t))
    ensures Retired(Step(Run(INITIAL, front), op).invocations, LedgerOf(Step(Run(INITIAL, front), op), t))
  {
    hide Step, Run, Retired, Legal, Commit;
    Reachable(front);
    var w := StepLegal(Run(INITIAL, front), op);
    RetiredCommit(Run(INITIAL, front), w, t);
  }

  /** In every reachable state, a grant whose Run is not its owner's current execution ref has
      exactly one verified receipt, and if the owner is a Team, Workflow or GroupChat that receipt
      certifies no effect: a later Attempt of a composite never follows an effectful earlier one. */
  lemma RetiredGrants(script: seq<Op>, t: Id, i: nat)
    requires var items := LedgerOf(Run(INITIAL, script), t); i < |items| && IsGrant(items[i])
    ensures var s := Run(INITIAL, script);
            var items, g := LedgerOf(s, t), LedgerOf(s, t)[i];
            && g.invocation in s.invocations
            && (s.invocations[g.invocation].ref != g.run ==>
                  && |ClaimsOf(items, g.id)| == 1 && ReceiptMatches(g, ClaimsOf(items, g.id)[0])
                  && (Composite(s.invocations[g.invocation].executionClass) ==> NoEffect(GrantOutcome(items, g))))
  {
    hide Run, LedgerIndexed, RefsAgree, OneRoot, OneFence, Keyed, GrantOutcome;
    var s := Run(INITIAL, script);
    Reachable(script);
    assert LedgerInv(s, t);
    var items := LedgerOf(s, t);
    assert GrantOwned(s.invocations, items[i], Unsettled(items, i));
    RetiredRun(script, t);
    if s.invocations[items[i].invocation].ref != items[i].run {
      assert GrantOutcome(items, items[i]).Some?;
      SettledClaims(items, items[i]);
    }
  }

  lemma SettledClaims(items: seq<Item>, g: Item)
    requires GrantOutcome(items, g).Some?
    ensures |ClaimsOf(items, g.id)| == 1 && ReceiptMatches(g, ClaimsOf(items, g.id)[0])
  {
  }

  /** While a child is Running, waiting or paused, no other Invocation of its Turn can rotate. */
  lemma ActiveChildBlocksRotation(s: State, child: Id, id: Id, r: nat, next: Id)
    requires Inv(s) && child in s.invocations && id in s.invocations && child != id
    requires s.invocations[child].turn == s.invocations[id].turn && s.invocations[child].parent != Empty
    requires s.invocations[child].status in {Running, WaitingInput, PausedBudget}
    ensures RetryInvocation(s, id, r, next).None?
  {
    var v, c := s.invocations[id], s.invocations[child];
    assert v.id == id && c.id == child;
    hide Inv, ActiveFence, Pending;
    assert c in Children(s, v);
    assert !ChildPermitsRetry(LedgerOf(s, v.turn), c);
  }

  // ---------------------------------------------------------------- the root of a Turn

  /** First match over any listing of one Turn's Invocations. */
  method TopLevelInvocation(values: seq<Invocation>) returns (r: Option<Invocation>)
    ensures r.Some? ==> exists i :: 0 <= i < |values| && values[i] == r.value && values[i].parent == Empty &&
                                    forall k :: 0 <= k < i ==> values[k].parent != Empty
    ensures r.None? ==> forall v :: v in values ==> v.parent != Empty
  {
    for i := 0 to |values|
      invariant forall k :: 0 <= k < i ==> values[k].parent != Empty
    {
      if values[i].parent == Empty { return Some(values[i]); }
    }
    return None;
  }

  ghost predicate ListsTurn(s: State, t: Id, values: seq<Invocation>) {
    forall v :: v in values <==> v.id in s.invocations && s.invocations[v.id] == v && v.turn == t
  }

  /** The root lookup does not depend on the order in which Invocations are listed. */
  lemma RootLookupOrderFree(script: seq<Op>, t: Id, a: seq<Invocation>, b: seq<Invocation>, x: Invocation, y: Invocation)
    requires ListsTurn(Run(INITIAL, script), t, a) && ListsTurn(Run(INITIAL, script), t, b)
    requires x in a && x.parent == Empty && y in b && y.parent == Empty
    ensures x == y
  {
    Reachable(script);
    hide Run;
  }
}
