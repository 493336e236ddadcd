/**
 When one Application Attempt can reach the Host executor twice. A worker whose second read returned a
 later Attempt than it claimed still enters; here it is settled for every hold, in every state the
 protocol can reach, whether some continuation enters the Attempt it read a second time.
 */
module RepeatedEntry {
  import opened Records
  import opened Ledger
  import opened Admission
  import opened StoreInvariant
  import opened ApplicationProtocol

  ghost predicate Repeats(y: Sys, a: Binding) {
    exists i, j :: 0 <= i < j < |y.entries| && y.entries[i].request == a && y.entries[j].request == a
  }

  predicate Delivers(pc: Pc, a: Binding) {
    pc.Holding? && Attempt(pc.request) == a
  }

  predicate ClaimedFor(pc: Pc, a: Binding) {
    pc.Claimed? && pc.claim.invocation == a.invocation
  }

  /** The stored Invocation is still at this Attempt, and it can be claimed or somebody is about to read it. */
  ghost predicate Obtainable(s: State, workers: map<nat, Pc>, a: Binding) {
    && a.invocation in s.invocations && Attempt(s.invocations[a.invocation]) == a
    && (s.invocations[a.invocation].status == Accepted || exists k :: k in workers && ClaimedFor(workers[k], a))
  }

  /** Besides worker `w`, a second source of entries for this Attempt. */
  ghost predicate SecondSource(y: Sys, w: nat, a: Binding) {
    || (exists i :: 0 <= i < |y.entries| && y.entries[i].request == a)
    || (exists k :: k in y.workers && k != w && Delivers(y.workers[k], a))
    || Obtainable(y.store, y.workers, a)
  }

  // ---------------------------------------------------------------- without a second source

  /** Nobody will read this Attempt again. */
  ghost predicate Exhausted(s: State, workers: map<nat, Pc>, a: Binding) {
    && a.invocation in s.invocations && s.invocations[a.invocation].executionClass == Application
    && a.attempt <= s.invocations[a.invocation].attempt
    && (a.attempt == s.invocations[a.invocation].attempt ==>
          s.invocations[a.invocation].status != Accepted && forall k :: k in workers ==> !ClaimedFor(workers[k], a))
  }

  /** At most one entry, made or about to be made. */
  ghost predicate Single(workers: map<nat, Pc>, entries: seq<Entry>, a: Binding) {
    && (forall k, l | k in workers && l in workers && k != l :: !Delivers(workers[k], a) || !Delivers(workers[l], a))
    && (forall k, i | k in workers && 0 <= i < |entries| :: !Delivers(workers[k], a) || entries[i].request != a)
    && (forall i, j | 0 <= i < j < |entries| :: entries[i].request != a || entries[j].request != a)
  }

  ghost predicate Settled(y: Sys, a: Binding) {
    Exhausted(y.store, y.workers, a) && Single(y.workers, y.entries, a)
  }

  lemma ExhaustedWrite(s: State, write: Write, workers: map<nat, Pc>, a: Binding)
    requires Inv(s) && Legal(s, write) && !Unclaims(s, write) && Exhausted(s, workers, a)
    ensures Exhausted(Commit(s, write), workers, a)
  {
    hide Legal, Commit;
    assert s.invocations[a.invocation].id == a.invocation;
    InvocationCommit(s, write, a.invocation);
  }

  lemma SettledLeave(y: Sys, w: nat, a: Binding)
    requires Settled(y, a)
    ensures Settled(Leave(y, w), a)
  {
  }

  lemma SettledMove(y: Sys, w: nat, pc: Pc, a: Binding)
    requires Settled(y, a) && (pc.Seen? || pc.Ready?)
    ensures Settled(Move(y, w, pc), a)
  {
  }

  lemma SettledClaim(y: Sys, w: nat, a: Binding)
    requires SysInv(y) && Settled(y, a) && w in y.workers && y.workers[w].Ready?
    ensures Settled(Next(y, Claim(w)), a)
  {
    hide SysInv, Inv, Commit, Legal, Unclaims, UpdateInvocation;
    var v := y.workers[w].inv;
    ReadyOk(y, w);
    SettledLeave(y, w, a);
    var reply := UpdateInvocation(y.store, v.(status := Running), v.revision);
    if reply.Ok? {
      ClaimLegal(y.store, v);
      StoredValid(y, v.id);
      ExhaustedWrite(y.store, PutUpdated(reply.value), y.workers, a);
      KeptAttempt(y.store, reply.value);
    }
  }

  lemma KeptAttempt(s: State, v: Invocation)
    requires v.id in s.invocations && Legal(s, PutUpdated(v))
    ensures Commit(s, PutUpdated(v)).invocations[v.id].attempt == s.invocations[v.id].attempt
  {
    hide ActiveFence, Pending;
  }

  lemma SettledReread(y: Sys, w: nat, a: Binding)
    requires SysInv(y) && Settled(y, a) && w in y.workers && y.workers[w].Claimed?
    requires y.workers[w].claim.invocation in y.store.invocations
    ensures Settled(Move(y, w, Holding(y.workers[w].claim, y.store.invocations[y.workers[w].claim.invocation])), a)
  {
    hide SysInv;
    var id := y.workers[w].claim.invocation;
    StoredValid(y, id);
    assert Attempt(y.store.invocations[id]) == a ==> ClaimedFor(y.workers[w], a);
  }

  lemma SettledNext(y: Sys, l: Label, a: Binding)
    requires SysInv(y) && Settled(y, a)
    ensures Settled(Next(y, l), a)
  {
    hide SysInv, Legal, Commit, Unclaims, UpdateInvocation, Exhausted;
    if l.Env? {
      if Legal(y.store, l.write) && !Unclaims(y.store, l.write) {
        StoreOk(y);
        ExhaustedWrite(y.store, l.write, y.workers, a);
      }
    } else if l.Load? {
      if l.id in y.store.invocations { SettledMove(y, l.w, Seen(y.store.invocations[l.id]), a); }
    } else if l.w in y.workers {
      SettledLeave(y, l.w, a);
      var pc := y.workers[l.w];
      if l.Claim? && pc.Ready? {
        SettledClaim(y, l.w, a);
      } else if l.Prepare? && pc.Seen? && pc.inv.id in y.store.invocations {
        SettledMove(y, l.w, Ready(y.store.invocations[pc.inv.id]), a);
      } else if l.Reread? && pc.Claimed? && pc.claim.invocation in y.store.invocations {
        SettledReread(y, l.w, a);
      }
    }
  }

  lemma StoreOk(y: Sys)
    requires SysInv(y)
    ensures Inv(y.store)
  {
  }

  lemma {:induction false} SettledSteps(y: Sys, labels: seq<Label>, a: Binding)
    requires SysInv(y) && Settled(y, a)
    ensures Settled(Steps(y, labels), a)
  {
    hide SysInv, Next, Settled;
    if labels != [] {
      SettledSteps(y, labels[..|labels| - 1], a);
      StepsFrom(y, labels[..|labels| - 1]);
      SettledNext(Steps(y, labels[..|labels| - 1]), labels[|labels| - 1], a);
    }
  }

  lemma NoSecondSource(y: Sys, w: nat)
    requires SysInv(y) && w in y.workers && y.workers[w].Holding? && !SecondSource(y, w, Attempt(y.workers[w].request))
    ensures Settled(y, Attempt(y.workers[w].request))
  {
    hide SysInv;
    ReadyOk(y, w);
    StoredValid(y, y.workers[w].request.id);
  }

  // ---------------------------------------------------------------- with a second source

  lemma {:induction false} StepsThen(y: Sys, front: seq<Label>, more: seq<Label>)
    ensures Steps(y, front + more) == Steps(Steps(y, front), more)
  {
    hide Next;
    if more == [] {
      assert front + more == front;
    } else {
      var m := more[..|more| - 1];
      assert front + more == (front + m) + [more[|more| - 1]];
      StepsThen(y, front, m);
      StepsSnoc(y, front + m, more[|more| - 1]);
    }
  }

  lemma StepsOne(y: Sys, l: Label)
    ensures Steps(y, [l]) == Next(y, l)
  {
    hide Next;
    assert [l][..0] == [];
  }

  lemma StepsTwo(y: Sys, l: Label, m: Label)
    ensures Steps(y, [l, m]) == Next(Next(y, l), m)
  {
    hide Next;
    assert [l, m][..1] == [l];
    StepsOne(y, l);
  }

  /** Two workers that deliver the same Attempt both enter. */
  lemma BothEnter(y: Sys, w: nat, k: nat, a: Binding)
    requires w in y.workers && k in y.workers && w != k && Delivers(y.workers[w], a) && Delivers(y.workers[k], a)
    ensures Repeats(Steps(y, [Enter(w, true), Enter(k, true)]), a)
  {
    hide Next;
    StepsTwo(y, Enter(w, true), Enter(k, true));
    EnterStep(y, w);
    EnterStep(Next(y, Enter(w, true)), k);
    var z := Next(Next(y, Enter(w, true)), Enter(k, true));
    assert z.entries[|y.entries|].request == a && z.entries[|y.entries| + 1].request == a;
  }

  lemma EntersAgain(y: Sys, w: nat, i: nat)
    requires w in y.workers && y.workers[w].Holding? && i < |y.entries|
    requires y.entries[i].request == Attempt(y.workers[w].request)
    ensures Repeats(Steps(y, [Enter(w, true)]), Attempt(y.workers[w].request))
  {
    hide Next;
    StepsOne(y, Enter(w, true));
    EnterStep(y, w);
    var z := Next(y, Enter(w, true));
    assert z.entries[i].request == z.entries[|y.entries|].request;
  }

  lemma RereadEnters(y: Sys, w: nat, k: nat)
    requires SysInv(y) && w in y.workers && k in y.workers && y.workers[w].Holding?
    requires ClaimedFor(y.workers[k], Attempt(y.workers[w].request))
    requires y.workers[w].request.id in y.store.invocations
    requires Attempt(y.store.invocations[y.workers[w].request.id]) == Attempt(y.workers[w].request)
    ensures Repeats(Steps(y, [Reread(k)] + [Enter(w, true), Enter(k, true)]), Attempt(y.workers[w].request))
  {
    hide SysInv, Repeats, Steps, Legal, Commit, Unclaims, UpdateInvocation;
    StepsThen(y, [Reread(k)], [Enter(w, true), Enter(k, true)]);
    StepsOne(y, Reread(k));
    BothEnter(Next(y, Reread(k)), w, k, Attempt(y.workers[w].request));
  }

  /** Identities and workers are never used up. */
  lemma UnusedId(used: set<Id>) returns (n: nat)
    ensures forall id :: id in used && id.Name? ==> |id.text| < n
  {
    n := 0;
    var rest := used;
    while rest != {}
      invariant rest <= used
      invariant forall id :: id in used - rest && id.Name? ==> |id.text| < n
    {
      var id :| id in rest;
      if id.Name? && |id.text| >= n { n := |id.text| + 1; }
      rest := rest - {id};
    }
  }

  lemma UnusedWorker(used: set<nat>) returns (n: nat)
    ensures n !in used
  {
    n := 0;
    var rest := used;
    while rest != {}
      invariant rest <= used
      invariant forall w :: w in used && w !in rest ==> w < n
    {
      var w :| w in rest;
      if w >= n { n := w + 1; }
      rest := rest - {w};
    }
  }

  function Closing(s: State, fence: Item, id: Id): Item {
    Numbered(s, Item(id, fence.turn, 0, Diagnostic, ItemCompleted, Empty, Empty, Empty, fence.id, Undecodable("")))
  }

  lemma FenceStored(s: State, t: Id, i: nat)
    requires Inv(s) && i < |LedgerOf(s, t)|
    ensures var f := LedgerOf(s, t)[i]; f.turn == t && f.id in s.itemIds && s.itemIds[f.id] == f
  {
    hide Keyed, RefsAgree, OneRoot, LedgerInv;
    assert Placed(s.itemIds, t, i, s.items[t][i]);
  }

  lemma ClosesAll(items: seq<Item>, i: nat, c: Item)
    requires i < |items| && OneFence(items) && OpenFence(items, i) && Closes(c, items[i].id)
    ensures !ActiveFence(items + [c])
  {
    forall k | 0 <= k < |items + [c]| ensures !OpenFence(items + [c], k) {
      assert (items + [c])[|items|] == c;
      if k < |items| && k != i {
        if OpenFence(items + [c], k) {
          assert forall j :: 0 <= j < |items| ==> (items + [c])[j] == items[j];
          assert OpenFence(items, k);
          assert false;
        }
      }
    }
  }

  /** The one open fence of a Turn can be closed, which changes no Invocation and no worker. */
  lemma FenceCloses(y: Sys, t: Id) returns (labels: seq<Label>)
    requires SysInv(y) && t != Empty
    ensures var z := Steps(y, labels);
            && z.workers == y.workers && z.entries == y.entries && z.store.invocations == y.store.invocations
            && !ActiveFence(LedgerOf(z.store, t))
  {
    hide Legal, Next, ActiveFence, SysInv, Inv;
    if !ActiveFence(LedgerOf(y.store, t)) { return []; }
    StoreOk(y);
    var n := UnusedId(y.store.itemIds.Keys);
    var i := OpenAt(LedgerOf(y.store, t));
    FenceStored(y.store, t, i);
    var c := Closing(y.store, LedgerOf(y.store, t)[i], Name(seq(n, _ => 'x')));
    ClosingLegal(y.store, t, i, c.id);
    TurnFence(y.store, t);
    ClosesAll(LedgerOf(y.store, t), i, c);
    labels := [Env(PutItem(c))];
    StepsOne(y, Env(PutItem(c)));
    EnvStep(y, PutItem(c));
  }

  lemma OpenAt(items: seq<Item>) returns (i: nat)
    requires ActiveFence(items)
    ensures i < |items| && OpenFence(items, i)
  {
    i :| 0 <= i < |items| && OpenFence(items, i);
  }

  lemma TurnFence(s: State, t: Id)
    requires Inv(s)
    ensures OneFence(LedgerOf(s, t))
  {
    hide Keyed, RefsAgree, OneRoot, LedgerIndexed, GrantsOwned, OneGrant, OneFence;
    assert LedgerInv(s, t);
  }

  lemma ClosingLegal(s: State, t: Id, i: nat, id: Id)
    requires Inv(s) && i < |LedgerOf(s, t)| && IsFence(LedgerOf(s, t)[i])
    requires t != Empty && id != Empty && id !in s.itemIds
    ensures Legal(s, PutItem(Closing(s, LedgerOf(s, t)[i], id)))
  {
    FenceStored(s, t, i);
    hide Inv, ActiveFence, Pending;
  }

  lemma EnvStep(y: Sys, write: Write)
    requires Legal(y.store, write) && !Unclaims(y.store, write)
    ensures Next(y, Env(write)) == y.(store := Commit(y.store, write))
  {
    hide Legal, Commit, Unclaims;
  }

  lemma AcceptedEnters(y: Sys, w: nat) returns (labels: seq<Label>)
    requires SysInv(y) && w in y.workers && y.workers[w].Holding?
    requires var r := y.workers[w].request;
             && r.id in y.store.invocations && Attempt(y.store.invocations[r.id]) == Attempt(r)
             && y.store.invocations[r.id].status == Accepted
    ensures Repeats(Steps(y, labels), Attempt(y.workers[w].request))
  {
    hide SysInv, Steps, ActiveFence;
    var r := y.workers[w].request;
    NotMine(y, w);
    StoredValid(y, r.id);
    var front := FenceCloses(y, r.turn);
    StepsFrom(y, front);
    var k := UnusedWorker(y.workers.Keys);
    StaleHoldRepeats(Steps(y, front), w, k);
    labels := front + Twice(w, k, r.id);
    StepsThen(y, front, Twice(w, k, r.id));
    var z := Steps(y, labels);
    assert z.entries[|y.entries|].request == z.entries[|y.entries| + 1].request == Attempt(r);
  }

  lemma SecondSourceRepeats(y: Sys, w: nat) returns (labels: seq<Label>)
    requires SysInv(y) && w in y.workers && y.workers[w].Holding? && SecondSource(y, w, Attempt(y.workers[w].request))
    ensures Repeats(Steps(y, labels), Attempt(y.workers[w].request))
  {
    hide SysInv, Steps, Repeats, Next;
    var a := Attempt(y.workers[w].request);
    if i :| 0 <= i < |y.entries| && y.entries[i].request == a {
      labels := [Enter(w, true)];
      EntersAgain(y, w, i);
    } else if k :| k in y.workers && k != w && Delivers(y.workers[k], a) {
      labels := [Enter(w, true), Enter(k, true)];
      BothEnter(y, w, k, a);
    } else if y.store.invocations[a.invocation].status == Accepted {
      labels := AcceptedEnters(y, w);
    } else {
      var k :| k in y.workers && ClaimedFor(y.workers[k], a);
      labels := [Reread(k)] + [Enter(w, true), Enter(k, true)];
      RereadEnters(y, w, k);
    }
  }

  // ---------------------------------------------------------------- the exact condition

  /** For every hold in every state the protocol reaches: some continuation enters the held Attempt
      twice if and only if there is a second source for it. */
  lemma HoldRepeatsIff(y: Sys, w: nat)
    requires SysInv(y) && w in y.workers && y.workers[w].Holding?
    ensures SecondSource(y, w, Attempt(y.workers[w].request)) <==>
            exists labels :: Repeats(Steps(y, labels), Attempt(y.workers[w].request))
  {
    hide SysInv, Steps, SecondSource;
    var a := Attempt(y.workers[w].request);
    if SecondSource(y, w, a) {
      var labels := SecondSourceRepeats(y, w);
    } else {
      NoSecondSource(y, w);
      forall labels ensures !Repeats(Steps(y, labels), a) { SettledSteps(y, labels, a); }
    }
  }

  /** Counterexample to one entry per requested Attempt, from the empty Store. */
  lemma RepeatReachable()
    ensures exists labels :: Repeats(Steps(START, labels), Attempt(RETRIED))
  {
    hide Steps, SysInv, ActiveFence, Repeats;
    var front := ClaimRun() + RetryRun();
    StaleHoldReachable();
    StepsKeep(front);
    var more := AcceptedEnters(Steps(START, front), 0);
    StepsThen(START, front, more);
  }
}
