/**
 Cancellation under an open fence. The inspection that follows the intent reads the Store in several
 separate steps; each fact it reads is stable for as long as the fence stays open, so the facts hold
 together at the end and at every later moment, whatever other callers do.
 */
module Cancellation {
  import opened Records
  import opened Ledger
  import opened LedgerMeaning
  import opened RetryFence
  import opened Admission
  import opened StoreInvariant
  import opened StoreTheorems

  // ---------------------------------------------------------------- the inspected facts

  function VerifiedResponseId(interaction: Id): Id {
    Stable(HBizVerified, [interaction])
  }

  predicate VerifiesResponse(v: Item, x: Interaction, owner: Invocation) {
    && v.turn == x.turn && v.kind == Diagnostic && v.status == ItemCompleted
    && v.invocation == owner.id && v.run == owner.ref && v.parent == Stable(HInteractionItem, [x.id])
    && v.payload.Document? && v.payload.interaction == x.id && v.payload.boundary == HostResponseVerified
  }

  /** The first Item with the receipt's identity, and only that one, decides. */
  predicate Verified(items: seq<Item>, x: Interaction, owner: Invocation) {
    exists i :: 0 <= i < |items| && items[i].id == VerifiedResponseId(x.id) && VerifiesResponse(items[i], x, owner) &&
                forall k :: 0 <= k < i ==> items[k].id != VerifiedResponseId(x.id)
  }

  method HasVerifiedInteractionResponse(items: seq<Item>, x: Interaction, owner: Invocation) returns (r: bool)
    ensures r == Verified(items, x, owner)
  {
    for i := 0 to |items|
      invariant forall k :: 0 <= k < i ==> items[k].id != VerifiedResponseId(x.id)
    {
      if items[i].id == VerifiedResponseId(x.id) { return VerifiesResponse(items[i], x, owner); }
    }
    return false;
  }

  /** An unsettled grant concerns the cancellation by its owner or by the Run it physically reaches. */
  predicate Concerns(v: Item, targets: set<Id>, runs: set<Id>) {
    v.invocation in targets || (v.payload.Document? && v.payload.physicalRun != Empty && v.payload.physicalRun in runs)
  }

  predicate DispatchQuiet(items: seq<Item>, targets: set<Id>, runs: set<Id>) {
    forall i :: 0 <= i < |items| && Unsettled(items, i) ==> items[i].payload.Document? && !Concerns(items[i], targets, runs)
  }

  method PendingTargets(items: seq<Item>, targets: set<Id>, runs: set<Id>) returns (r: Outcome<bool>)
    ensures r == Ok(false) <==> DispatchQuiet(items, targets, runs)
    ensures r.Err? ==> r.error == Conflict && exists i :: 0 <= i < |items| && Unsettled(items, i) && !items[i].payload.Document?
    ensures r == Ok(true) ==> exists i :: 0 <= i < |items| && Unsettled(items, i) && Concerns(items[i], targets, runs)
  {
    var receipts := ExecutionDispatchReceiptIndex(items);
    for i := 0 to |items|
      invariant forall k :: 0 <= k < i && Unsettled(items, k) ==>
                  items[k].payload.Document? && !Concerns(items[k], targets, runs)
    {
      var item := items[i];
      if !IsGrant(item) { continue; }
      var settled := IndexedOutcome(items, receipts, item);
      if settled.Some? { continue; }
      assert Unsettled(items, i);
      if item.payload.Undecodable? { return Err(Conflict); }
      if item.invocation in targets || (item.payload.physicalRun != Empty && item.payload.physicalRun in runs) {
        return Ok(true);
      }
    }
    return Ok(false);
  }

  predicate ApplicationsQuiet(s: State, t: Id, targets: set<Id>) {
    forall id :: id in targets && id in s.invocations && s.invocations[id].turn == t ==>
      !(s.invocations[id].executionClass == Application && s.invocations[id].status == Running)
  }

  predicate ResponseQuiet(s: State, t: Id, x: Interaction) {
    x.resolved && x.invocation in s.invocations && s.invocations[x.invocation].turn == t &&
    s.invocations[x.invocation].status == Running ==>
      Verified(LedgerOf(s, t), x, s.invocations[x.invocation])
  }

  predicate ResponsesQuiet(s: State, t: Id, targets: set<Id>) {
    forall id :: id in s.interactions && s.interactions[id].turn == t && s.interactions[id].invocation in targets ==>
      ResponseQuiet(s, t, s.interactions[id])
  }

  // ---------------------------------------------------------------- one write under the fence

  lemma FenceBlocks(s: State, w: Write, t: Id)
    requires Legal(s, w) && ActiveFence(LedgerOf(s, t))
    ensures w.PutFresh? ==> w.invocation.turn != t
    ensures w.PutRotated? ==> w.invocation.turn != t
    ensures w.PutInteraction? ==> w.interaction.turn != t
    ensures w.PutUpdated? && w.invocation.turn == t && w.invocation.status == Running ==>
              w.invocation.id in s.invocations && s.invocations[w.invocation.id].status == Running
    ensures w.PutItem? && w.item.turn == t ==> !IsGrant(w.item)
  {
    hide ActiveFence, Pending, RetryPermitted, AdmitsChild;
  }

  /** Under the fence a Turn admits no Invocation, starts none Running and rotates no Attempt. */
  lemma OwnerUnderFence(s: State, w: Write, t: Id, id: Id)
    requires Inv(s) && Legal(s, w) && ActiveFence(LedgerOf(s, t))
    requires id in Commit(s, w).invocations && Commit(s, w).invocations[id].turn == t
    ensures id in s.invocations && s.invocations[id].turn == t
    ensures Commit(s, w).invocations[id].executionClass == s.invocations[id].executionClass
    ensures Attempt(Commit(s, w).invocations[id]) == Attempt(s.invocations[id])
    ensures Commit(s, w).invocations[id].status == Running ==> s.invocations[id].status == Running
  {
    hide Legal, ActiveFence;
    FenceBlocks(s, w, t);
    if id !in s.invocations { FreshOnly(s, w, id); }
    InvocationCommit(s, w, id);
  }

  lemma DispatchQuietCommit(s: State, w: Write, t: Id, targets: set<Id>, runs: set<Id>)
    requires Inv(s) && Legal(s, w) && ActiveFence(LedgerOf(s, t))
    requires DispatchQuiet(LedgerOf(s, t), targets, runs)
    ensures DispatchQuiet(LedgerOf(Commit(s, w), t), targets, runs)
  {
    hide Legal, ActiveFence, GrantOutcome;
    FenceBlocks(s, w, t);
    LedgerCommit(s, w, t);
    var items, items' := LedgerOf(s, t), LedgerOf(Commit(s, w), t);
    forall i | 0 <= i < |items'| && Unsettled(items', i)
      ensures items'[i].payload.Document? && !Concerns(items'[i], targets, runs)
    {
      if i < |items| { UnsettledCommit(s, w, t, i); }
    }
  }

  lemma ApplicationsQuietCommit(s: State, w: Write, t: Id, targets: set<Id>)
    requires Inv(s) && Legal(s, w) && ActiveFence(LedgerOf(s, t)) && ApplicationsQuiet(s, t, targets)
    ensures ApplicationsQuiet(Commit(s, w), t, targets)
  {
    hide Legal, ActiveFence, Inv, Commit;
    forall id | id in Commit(s, w).invocations && Commit(s, w).invocations[id].turn == t {
      OwnerUnderFence(s, w, t, id);
    }
  }

  lemma VerifiedAppend(items: seq<Item>, more: seq<Item>, x: Interaction, a: Invocation, b: Invocation)
    requires Verified(items, x, a) && items <= more && a.id == b.id && a.ref == b.ref
    ensures Verified(more, x, b)
  {
    var i :| 0 <= i < |items| && items[i].id == VerifiedResponseId(x.id) && VerifiesResponse(items[i], x, a) &&
             forall k :: 0 <= k < i ==> items[k].id != VerifiedResponseId(x.id);
    assert more[i] == items[i];
    assert forall k :: 0 <= k < i ==> more[k] == items[k];
  }

  lemma ResponsesQuietCommit(s: State, w: Write, t: Id, targets: set<Id>)
    requires Inv(s) && Legal(s, w) && ActiveFence(LedgerOf(s, t)) && ResponsesQuiet(s, t, targets)
    ensures ResponsesQuiet(Commit(s, w), t, targets)
  {
    var s' := Commit(s, w);
    InteractionsUnderFence(s, w, t);
    hide Legal, ActiveFence, Inv, Commit, Verified;
    LedgerCommit(s, w, t);
    forall id | id in s'.interactions && s'.interactions[id].turn == t && s'.interactions[id].invocation in targets
      ensures ResponseQuiet(s', t, s'.interactions[id])
    {
      var x := s'.interactions[id];
      assert id in s.interactions && s.interactions[id] == x && ResponseQuiet(s, t, x);
      if x.resolved && x.invocation in s'.invocations && s'.invocations[x.invocation].turn == t &&
         s'.invocations[x.invocation].status == Running {
        OwnerUnderFence(s, w, t, x.invocation);
        VerifiedAppend(LedgerOf(s, t), LedgerOf(s', t), x, s.invocations[x.invocation], s'.invocations[x.invocation]);
      }
    }
  }

  lemma InteractionsUnderFence(s: State, w: Write, t: Id)
    requires Legal(s, w) && ActiveFence(LedgerOf(s, t))
    ensures forall id :: id in Commit(s, w).interactions && Commit(s, w).interactions[id].turn == t ==>
              id in s.interactions && s.interactions[id] == Commit(s, w).interactions[id]
  {
    hide ActiveFence, Pending, RetryAdmitted, Admits, OtherRoot, RefTaken;
    FenceBlocks(s, w, t);
  }

  // ---------------------------------------------------------------- every script under the fence

  /** Closing a fence is final: a fence open at the end of a script was open all along. */
  lemma OpenThroughout(items: seq<Item>, more: seq<Item>, f: nat)
    requires items <= more && f < |items| && OpenFence(more, f)
    ensures OpenFence(items, f) && ActiveFence(items)
  {
    assert items[f] == more[f];
    forall j | 0 <= j < |items| ensures !Closes(items[j], items[f].id) { assert more[j] == items[j]; }
    assert OpenFence(items, f);
  }

  lemma OpenBefore(s: State, script: seq<Op>, t: Id, f: nat)
    requires Inv(s) && f < |LedgerOf(s, t)| && script != []
    requires f < |LedgerOf(Run(s, script), t)| && OpenFence(LedgerOf(Run(s, script), t), f)
    ensures var mid := Run(s, script[..|script| - 1]);
            && Inv(mid) && f < |LedgerOf(mid, t)| && OpenFence(LedgerOf(mid, t), f) && ActiveFence(LedgerOf(mid, t))
  {
    hide Step, Inv, OpenFence, ActiveFence;
    var front, op := script[..|script| - 1], script[|script| - 1];
    InvRun(s, front);
    LedgerRun(s, front, t);
    LedgerStep(Run(s, front), op, t);
    OpenThroughout(LedgerOf(Run(s, front), t), LedgerOf(Run(s, script), t), f);
  }

  datatype Scope = Scope(turn: Id, targets: set<Id>, runs: set<Id>)

  /** Which of the three inspected facts a claim is about. */
  datatype Fact = GrantsSettled | CallbacksIdle | ResponsesSettled

  predicate Holds(s: State, f: Fact, c: Scope) {
    match f
    case GrantsSettled => DispatchQuiet(LedgerOf(s, c.turn), c.targets, c.runs)
    case CallbacksIdle => ApplicationsQuiet(s, c.turn, c.targets)
    case ResponsesSettled => ResponsesQuiet(s, c.turn, c.targets)
  }

  lemma HoldsStep(s: State, op: Op, fact: Fact, c: Scope)
    requires Inv(s) && ActiveFence(LedgerOf(s, c.turn)) && Holds(s, fact, c)
    ensures Holds(Step(s, op), fact, c)
  {
    hide Step, Legal, Commit, ActiveFence, DispatchQuiet, ApplicationsQuiet, ResponsesQuiet;
    var w := StepLegal(s, op);
    match fact {
      case GrantsSettled => DispatchQuietCommit(s, w, c.turn, c.targets, c.runs);
      case CallbacksIdle => ApplicationsQuietCommit(s, w, c.turn, c.targets);
      case ResponsesSettled => ResponsesQuietCommit(s, w, c.turn, c.targets);
    }
  }

  /** Each inspected fact is stable while the fence stays open, under every script of requests. */
  lemma {:induction false} FactStable(s: State, script: seq<Op>, fact: Fact, c: Scope, f: nat)
    requires Inv(s) && Holds(s, fact, c) && f < |LedgerOf(s, c.turn)|
    requires f < |LedgerOf(Run(s, script), c.turn)| && OpenFence(LedgerOf(Run(s, script), c.turn), f)
    ensures Holds(Run(s, script), fact, c)
  {
    hide Step, Inv, Holds, OpenFence, ActiveFence;
    if script != [] {
      OpenBefore(s, script, c.turn, f);
      FactStable(s, script[..|script| - 1], fact, c, f);
      HoldsStep(Run(s, script[..|script| - 1]), script[|script| - 1], fact, c);
    }
  }

  lemma {:induction false} RunSplit(s: State, a: seq<Op>, b: seq<Op>)
    ensures Run(s, a + b) == Run(Run(s, a), b)
  {
    hide Step;
    if b == [] {
      assert a + b == a;
    } else {
      var front := b[..|b| - 1];
      assert (a + b)[..|a + b| - 1] == a + front;
      RunSplit(s, a, front);
    }
  }

  /** What an owner shows while the fence stays open, it already showed at every earlier read. */
  lemma {:induction false} OwnerBefore(s: State, script: seq<Op>, t: Id, f: nat, id: Id)
    requires Inv(s) && f < |LedgerOf(s, t)|
    requires f < |LedgerOf(Run(s, script), t)| && OpenFence(LedgerOf(Run(s, script), t), f)
    requires id in Run(s, script).invocations && Run(s, script).invocations[id].turn == t
    ensures id in s.invocations && Attempt(s.invocations[id]) == Attempt(Run(s, script).invocations[id])
    ensures Run(s, script).invocations[id].status == Running ==> s.invocations[id].status == Running
  {
    hide Step, Inv, OpenFence, ActiveFence, Legal, Commit;
    if script != [] {
      OpenBefore(s, script, t, f);
      var mid := Run(s, script[..|script| - 1]);
      KeyedIn(mid);
      var w := StepLegal(mid, script[|script| - 1]);
      OwnerUnderFence(mid, w, t, id);
      OwnerBefore(s, script[..|script| - 1], t, f, id);
    }
  }

  lemma {:induction false} InteractionBefore(s: State, script: seq<Op>, t: Id, f: nat, id: Id)
    requires Inv(s) && f < |LedgerOf(s, t)|
    requires f < |LedgerOf(Run(s, script), t)| && OpenFence(LedgerOf(Run(s, script), t), f)
    requires id in Run(s, script).interactions && Run(s, script).interactions[id].turn == t
    ensures id in s.interactions && s.interactions[id] == Run(s, script).interactions[id]
  {
    hide Step, Inv, OpenFence, ActiveFence, Legal, Commit;
    if script != [] {
      OpenBefore(s, script, t, f);
      var mid := Run(s, script[..|script| - 1]);
      KeyedIn(mid);
      var w := StepLegal(mid, script[|script| - 1]);
      InteractionsUnderFence(mid, w, t);
      InteractionBefore(s, script[..|script| - 1], t, f, id);
    }
  }

  // ---------------------------------------------------------------- the inspection, read by read

  /** When each Store call of the inspection happened, counted in requests committed so far: the
      Invocation list, the Interaction list, one owner per resolved Interaction, and two Item lists. */
  datatype Reads = Reads(owners: nat, interactions: nat, owner: map<Id, nat>, responses: nat, grants: nat)

  /** The reads happened after the fence `f` was written, the Invocation list first. */
  ghost predicate After(script: seq<Op>, r: Reads, t: Id, f: nat) {
    && r.owners <= r.interactions <= |script| && r.owners <= r.responses <= |script| && r.owners <= r.grants <= |script|
    && (forall id :: id in r.owner ==> r.owners <= r.owner[id] <= |script|)
    && f < |LedgerOf(Run(INITIAL, script[..r.owners]), t)|
  }

  /** One resolved Interaction passed: its owner is in the Turn and, when Running, has a verified response. */
  ghost predicate ResponseRead(script: seq<Op>, t: Id, x: Interaction, owner: nat, responses: nat)
    requires owner <= |script| && responses <= |script|
  {
    var s := Run(INITIAL, script[..owner]);
    && x.invocation in s.invocations && s.invocations[x.invocation].turn == t
    && (s.invocations[x.invocation].status == Running ==>
          Verified(LedgerOf(Run(INITIAL, script[..responses]), t), x, s.invocations[x.invocation]))
  }

  ghost predicate Inspected(script: seq<Op>, r: Reads, c: Scope, f: nat) {
    && After(script, r, c.turn, f)
    && Holds(Run(INITIAL, script[..r.owners]), CallbacksIdle, c)
    && (var listed := Run(INITIAL, script[..r.interactions]).interactions;
        forall id | id in listed && listed[id].turn == c.turn && listed[id].invocation in c.targets && listed[id].resolved ::
          id in r.owner && ResponseRead(script, c.turn, listed[id], r.owner[id], r.responses))
    && Holds(Run(INITIAL, script[..r.grants]), GrantsSettled, c)
  }

  lemma ReadAt(script: seq<Op>, r: Reads, t: Id, f: nat, k: nat)
    requires After(script, r, t, f) && r.owners <= k <= |script|
    ensures var s := Run(INITIAL, script[..k]);
            && Inv(s) && f < |LedgerOf(s, t)| && Run(s, script[k..]) == Run(INITIAL, script)
            && LedgerOf(s, t) <= LedgerOf(Run(INITIAL, script), t)
  {
    hide Run, Inv;
    Reachable(script[..k]);
    Reachable(script[..r.owners]);
    assert script[..k] == script[..r.owners] + script[r.owners..k];
    RunSplit(INITIAL, script[..r.owners], script[r.owners..k]);
    LedgerRun(Run(INITIAL, script[..r.owners]), script[r.owners..k], t);
    assert script == script[..k] + script[k..];
    RunSplit(INITIAL, script[..k], script[k..]);
    LedgerRun(Run(INITIAL, script[..k]), script[k..], t);
  }

  lemma ResponseStable(script: seq<Op>, r: Reads, c: Scope, f: nat, id: Id)
    requires Inspected(script, r, c, f)
    requires f < |LedgerOf(Run(INITIAL, script), c.turn)| && OpenFence(LedgerOf(Run(INITIAL, script), c.turn), f)
    requires id in Run(INITIAL, script).interactions
    requires var x := Run(INITIAL, script).interactions[id]; x.turn == c.turn && x.invocation in c.targets
    ensures ResponseQuiet(Run(INITIAL, script), c.turn, Run(INITIAL, script).interactions[id])
  {
    hide Run, Inv, OpenFence, Verified, Holds;
    var end := Run(INITIAL, script);
    var x := end.interactions[id];
    ReadAt(script, r, c.turn, f, r.interactions);
    InteractionBefore(Run(INITIAL, script[..r.interactions]), script[r.interactions..], c.turn, f, id);
    if x.resolved && x.invocation in end.invocations && end.invocations[x.invocation].turn == c.turn &&
       end.invocations[x.invocation].status == Running {
      var k := r.owner[id];
      ReadAt(script, r, c.turn, f, k);
      OwnerBefore(Run(INITIAL, script[..k]), script[k..], c.turn, f, x.invocation);
      assert ResponseRead(script, c.turn, x, k, r.responses);
      ReadAt(script, r, c.turn, f, r.responses);
      VerifiedAppend(LedgerOf(Run(INITIAL, script[..r.responses]), c.turn), LedgerOf(end, c.turn), x,
                     Run(INITIAL, script[..k]).invocations[x.invocation], end.invocations[x.invocation]);
    }
  }

  lemma ReadStable(script: seq<Op>, r: Reads, c: Scope, f: nat, fact: Fact, k: nat)
    requires After(script, r, c.turn, f) && r.owners <= k <= |script| && Holds(Run(INITIAL, script[..k]), fact, c)
    requires f < |LedgerOf(Run(INITIAL, script), c.turn)| && OpenFence(LedgerOf(Run(INITIAL, script), c.turn), f)
    ensures Holds(Run(INITIAL, script), fact, c)
  {
    hide Run, Inv, OpenFence, Holds;
    ReadAt(script, r, c.turn, f, k);
    FactStable(Run(INITIAL, script[..k]), script[k..], fact, c, f);
  }

  /** Cancellation quiescence. The inspection makes separate Store calls, with arbitrary requests before,
      between and after them. If every read passed and the fence is still open at the end, the three
      facts hold together at the end, although no single read showed them together. */
  lemma QuiescenceStable(script: seq<Op>, r: Reads, c: Scope, f: nat)
    requires Inspected(script, r, c, f)
    requires f < |LedgerOf(Run(INITIAL, script), c.turn)| && OpenFence(LedgerOf(Run(INITIAL, script), c.turn), f)
    ensures forall fact :: Holds(Run(INITIAL, script), fact, c)
  {
    hide Run, Inv, OpenFence, DispatchQuiet, ApplicationsQuiet, ResponseQuiet;
    ReadStable(script, r, c, f, CallbacksIdle, r.owners);
    ReadStable(script, r, c, f, GrantsSettled, r.grants);
    var end := Run(INITIAL, script);
    forall id | id in end.interactions && end.interactions[id].turn == c.turn && end.interactions[id].invocation in c.targets
      ensures ResponseQuiet(end, c.turn, end.interactions[id])
    {
      ResponseStable(script, r, c, f, id);
    }
    forall fact ensures Holds(end, fact, c) {
      match fact case GrantsSettled => case CallbacksIdle => case ResponsesSettled =>
    }
  }

  // ---------------------------------------------------------------- what the facts mean

  /** The first Item under the receipt's derived identity is a completed diagnostic of the owner's current Run,
      under the Interaction's own Item, and says that the Host's response was verified. */
  ghost predicate HostAnswerOnRecord(items: seq<Item>, x: Interaction, owner: Invocation) {
    exists i :: 0 <= i < |items| && items[i].id == Stable(HBizVerified, [x.id])
             && (forall k :: 0 <= k < i ==> items[k].id != Stable(HBizVerified, [x.id]))
             && items[i].turn == x.turn && items[i].kind.Diagnostic? && items[i].status.ItemCompleted?
             && items[i].invocation == owner.id && items[i].run == owner.ref
             && items[i].parent == Stable(HInteractionItem, [x.id])
             && items[i].payload.Document? && items[i].payload.interaction == x.id
             && items[i].payload.boundary.HostResponseVerified?
  }

  /** No targeted Application of the Turn is running. */
  ghost predicate TargetsIdle(s: State, c: Scope) {
    forall id | id in c.targets && id in s.invocations && s.invocations[id].turn == c.turn ::
      s.invocations[id].executionClass == Application ==> s.invocations[id].status != Running
  }

  /** Every grant still owed a receipt is readable, belongs to no target and reaches no affected Run. */
  ghost predicate NothingOwed(items: seq<Item>, c: Scope) {
    forall i | 0 <= i < |items| && OwedAt(items, i) ::
      && items[i].payload.Document? && items[i].invocation !in c.targets
      && (items[i].payload.physicalRun == Empty || items[i].payload.physicalRun !in c.runs)
  }

  /** Every answered Interaction of a running target has the Host's verified response on record. */
  ghost predicate AnswersOnRecord(s: State, c: Scope) {
    forall id | id in s.interactions && s.interactions[id].turn == c.turn && s.interactions[id].resolved ::
      var x := s.interactions[id];
      x.invocation in c.targets && x.invocation in s.invocations && s.invocations[x.invocation].turn == c.turn ==>
        (s.invocations[x.invocation].status == Running ==>
           HostAnswerOnRecord(LedgerOf(s, c.turn), x, s.invocations[x.invocation]))
  }

  /** The three facts, said of records and Items. */
  lemma QuietMeans(s: State, c: Scope)
    ensures (forall fact :: Holds(s, fact, c)) <==>
              TargetsIdle(s, c) && NothingOwed(LedgerOf(s, c.turn), c) && AnswersOnRecord(s, c)
  {
    hide OwedAt, Unsettled, LedgerOf;
    var items := LedgerOf(s, c.turn);
    forall i | 0 <= i < |items| ensures Unsettled(items, i) <==> OwedAt(items, i) { OwedAtMeans(items, i); }
    forall x, v ensures Verified(items, x, v) <==> HostAnswerOnRecord(items, x, v) {}
    hide Verified, HostAnswerOnRecord;
    assert Holds(s, GrantsSettled, c) <==> DispatchQuiet(items, c.targets, c.runs);
    assert Holds(s, CallbacksIdle, c) <==> ApplicationsQuiet(s, c.turn, c.targets);
    assert Holds(s, ResponsesSettled, c) <==> ResponsesQuiet(s, c.turn, c.targets);
    assert (forall fact :: Holds(s, fact, c)) <==>
           Holds(s, GrantsSettled, c) && Holds(s, CallbacksIdle, c) && Holds(s, ResponsesSettled, c) by { EveryFact(s, c); }
  }

  lemma EveryFact(s: State, c: Scope)
    ensures (forall fact :: Holds(s, fact, c)) <==>
            Holds(s, GrantsSettled, c) && Holds(s, CallbacksIdle, c) && Holds(s, ResponsesSettled, c)
  {
    hide Holds;
    if Holds(s, GrantsSettled, c) && Holds(s, CallbacksIdle, c) && Holds(s, ResponsesSettled, c) {
      forall fact ensures Holds(s, fact, c) { match fact case GrantsSettled => case CallbacksIdle => case ResponsesSettled => }
    }
  }
}
