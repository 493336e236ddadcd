/**
 Who wins when a callback and a cancellation race for one Attempt, over every run of the Interaction
 protocol: when no callback is entered after a cancellation, why that condition is exact, and when an
 Attempt can have a second callback.
 */
module InteractionTheorems {
  import opened Records
  import opened Ledger
  import opened Admission
  import opened StoreInvariant
  import opened Scene
  import opened InteractionProtocol

  // ---------------------------------------------------------------- cancellation and callback entry

  predicate Settled(status: Status) {
    status == Running || status == Completed || status == Failed
  }

  predicate SameAttempt(v: Invocation, n: Invocation) {
    v.id == n.id && v.attempt == n.attempt
  }

  /** A status write, by anyone but the protocol's own workers and cancellers, over a Running record whose
      claim a worker has won and not used yet. It takes the claim away without its holder knowing. */
  ghost predicate Overwrites(y: Sys, write: Write) {
    && Legal(y.store, write) && write.PutUpdated? && !Settled(write.invocation.status)
    && write.invocation.id in y.store.invocations && y.store.invocations[write.invocation.id].status == Running
    && exists w :: w in y.workers && y.workers[w].Won? && SameAttempt(y.workers[w].inv, write.invocation)
  }

  ghost predicate NotOverwritten(y: Sys, labels: seq<Label>) {
    labels == [] ||
    (&& NotOverwritten(y, labels[..|labels| - 1])
     && (labels[|labels| - 1].Env? ==> !Overwrites(Steps(y, labels[..|labels| - 1]), labels[|labels| - 1].write)))
  }

  ghost predicate Safe(s: State, v: Invocation) {
    && v.id in s.invocations && v.attempt <= s.invocations[v.id].attempt
    && (v.attempt == s.invocations[v.id].attempt ==> Settled(s.invocations[v.id].status))
  }

  /** A won claim is the newest of its Attempt: any other holder won earlier and is already inside. */
  ghost predicate Newest(workers: map<nat, Pc>, a: nat, b: nat)
    requires a in workers && b in workers && workers[a].Won? && Holds(workers[b])
  {
    SameAttempt(workers[a].inv, workers[b].inv) ==> workers[b].Inside? && workers[b].inv.revision < workers[a].inv.revision
  }

  ghost predicate Timely(y: Sys) {
    && (forall w :: w in y.workers && y.workers[w].Won? ==>
          Safe(y.store, y.workers[w].inv) && Attempt(y.workers[w].inv) !in y.cancelled)
    && (forall a, b | a in y.workers && b in y.workers && a != b && y.workers[a].Won? && Holds(y.workers[b]) ::
          Newest(y.workers, a, b))
    && (forall i :: 0 <= i < |y.callbacks| ==> !y.callbacks[i].late)
  }

  lemma SafeWrite(s: State, w: Write, v: Invocation)
    requires Inv(s) && Legal(s, w) && Safe(s, v)
    requires w.PutUpdated? && SameAttempt(v, w.invocation) ==> Settled(w.invocation.status)
    ensures Safe(Commit(s, w), v)
  {
    hide Legal, Commit;
    assert s.invocations[v.id].id == v.id;
    InvocationCommit(s, w, v.id);
  }

  lemma FinalKept(s: State, n: Invocation)
    requires Legal(s, PutUpdated(n))
    ensures n.id in s.invocations && n.attempt == s.invocations[n.id].attempt
    ensures Terminal(s.invocations[n.id].status) ==> n.status == s.invocations[n.id].status
  {
    hide ActiveFence, Pending;
  }

  /** A write that is not an overwrite neither reopens nor cancels the Attempt of a won claim. */
  lemma SparedWrite(y: Sys, w: Write, k: nat)
    requires SysInv(y) && Timely(y) && Legal(y.store, w) && !Overwrites(y, w) && k in y.workers && y.workers[k].Won?
    ensures Safe(Commit(y.store, w), y.workers[k].inv) && Attempt(y.workers[k].inv) !in CancelledBy(w)
  {
    hide Inv, Elected, ContinuedOnce, Over, SysInv, Legal, Commit, Newest;
    PcAt(y, k);
    if w.PutUpdated? { FinalKept(y.store, w.invocation); }
    if w.PutFresh? { FreshNew(y.store, w.invocation); }
    SafeWrite(y.store, w, y.workers[k].inv);
  }

  lemma FreshNew(s: State, n: Invocation)
    requires Legal(s, PutFresh(n))
    ensures n.id !in s.invocations
  {
    hide ActiveFence;
  }

  lemma TimelyWrite(y: Sys, w: Write)
    requires SysInv(y) && Timely(y) && Legal(y.store, w) && !Overwrites(y, w)
    ensures Timely(Put(y, w))
  {
    hide SysInv, Legal, Commit, Safe, Newest, Overwrites, CancelledBy;
    forall k | k in y.workers && y.workers[k].Won?
      ensures Safe(Commit(y.store, w), y.workers[k].inv) && Attempt(y.workers[k].inv) !in CancelledBy(w) {
      SparedWrite(y, w, k);
    }
  }

  /** A compare-and-set of `v` leaves a claim on another Attempt safe. */
  lemma CasSafe(y: Sys, v: Invocation, status: Status, n: Invocation)
    requires SysInv(y) && Behind(y.store, v) && SetStatus(y, v, status).Ok? && Safe(y.store, n) && !SameAttempt(n, v)
    ensures Safe(Commit(y.store, PutUpdated(SetStatus(y, v, status).value)), n)
  {
    hide Inv, Elected, PcOk, ContinuedOnce, UpdateInvocation, Legal;
    CasLegal(y, v, status);
  }

  lemma ClaimSpares(y: Sys, w: nat, k: nat)
    requires SysInv(y) && Timely(y) && w in y.workers && y.workers[w].Read? && SetStatus(y, y.workers[w].inv, Running).Ok?
    requires k in y.workers && k != w && Holds(y.workers[k])
    ensures var v, n, other := y.workers[w].inv, SetStatus(y, y.workers[w].inv, Running).value, y.workers[k].inv;
            && (y.workers[k].Won? ==> !SameAttempt(other, v) && Safe(Commit(y.store, PutUpdated(n)), other))
            && (other.id == v.id ==> other.revision <= v.revision)
  {
    hide Inv, Elected, ContinuedOnce, UpdateInvocation, SysInv, Newest;
    PcAt(y, w);
    PcAt(y, k);
    CasLegal(y, y.workers[w].inv, Running);
    if y.workers[k].Won? { CasSafe(y, y.workers[w].inv, Running, y.workers[k].inv); }
  }

  lemma RunningSafe(s: State, n: Invocation)
    requires n.status == Running
    ensures Safe(Commit(s, PutUpdated(n)), n)
  {
  }

  /** A claim needs a waiting Attempt, so no other worker holds an unused claim of it, and whoever is
      inside won an earlier revision. */
  lemma ClaimTimely(y: Sys, l: Label)
    requires SysInv(y) && Timely(y) && l.Claim? && l.w in y.workers && y.workers[l.w].Read?
    ensures Timely(Next(y, l))
  {
    hide Inv, UpdateInvocation, SysInv, Safe, Commit, Legal;
    var pc := y.workers[l.w];
    PcAt(y, l.w);
    FewerTimely(y, l.w, pc);
    if SetStatus(y, pc.inv, Running).Ok? {
      var n := SetStatus(y, pc.inv, Running).value;
      CasLegal(y, pc.inv, Running);
      RunningSafe(y.store, n);
      NotOver(y, pc.inv);
      forall k | k in y.workers && k != l.w && Holds(y.workers[k])
        ensures y.workers[k].Won? ==> !SameAttempt(y.workers[k].inv, pc.inv)
        ensures y.workers[k].inv.id == pc.inv.id ==> y.workers[k].inv.revision <= pc.inv.revision
        ensures y.workers[k].Won? ==> Safe(Commit(y.store, PutUpdated(n)), y.workers[k].inv)
      {
        ClaimSpares(y, l.w, k);
      }
    }
  }

  lemma NotOver(y: Sys, v: Invocation)
    requires SysInv(y) && v.id in y.store.invocations && y.store.invocations[v.id] == v && v.status != Cancelled
    ensures Attempt(v) !in y.cancelled
  {
    hide Inv, Elected, ContinuedOnce, PcOk, Behind;
    assert !Over(y.store, Attempt(v));
  }

  /** A canceller that finds the owner Running refuses, so its compare-and-set succeeds only while nobody
      holds an unused claim of the Attempt. */
  lemma CancelSpares(y: Sys, c: nat, w: nat)
    requires SysInv(y) && Timely(y) && c in y.workers && y.workers[c].Cancelling?
    requires SetStatus(y, y.workers[c].inv, Cancelled).Ok? && w in y.workers && y.workers[w].Won?
    ensures !SameAttempt(y.workers[w].inv, y.workers[c].inv)
  {
    hide Inv, Elected, ContinuedOnce, UpdateInvocation, SysInv, Newest;
    PcAt(y, c);
    CasLegal(y, y.workers[c].inv, Cancelled);
  }

  lemma CancelTimely(y: Sys, w: nat)
    requires SysInv(y) && Timely(y) && w in y.workers && y.workers[w].Cancelling?
    ensures Timely(Next(y, Cancel(w)))
  {
    hide Inv, SysInv, Legal, Commit, UpdateInvocation, Timely, Elected, ContinuedOnce;
    var pc := y.workers[w];
    PcAt(y, w);
    FewerTimely(y, w, pc);
    if SetStatus(y, pc.inv, Cancelled).Ok? {
      CasLegal(y, pc.inv, Cancelled);
      var n := SetStatus(y, pc.inv, Cancelled).value;
      TimelyWrite(y, PutUpdated(n));
      FewerTimely(Put(y, PutUpdated(n)), w, pc);
    }
  }

  /** A release is conditioned on its own revision, which an unused newer claim has superseded. */
  lemma ReleaseTimely(y: Sys, w: nat)
    requires SysInv(y) && Timely(y) && w in y.workers && Holds(y.workers[w])
    ensures Timely(Released(y, w, y.workers[w].inv))
  {
    hide Inv, Elected, ContinuedOnce, UpdateInvocation, SysInv, Safe;
    PcAt(y, w);
    if SetStatus(y, y.workers[w].inv, WaitingInput).Ok? {
      CasLegal(y, y.workers[w].inv, WaitingInput);
      forall k | k in y.workers && k != w && y.workers[k].Won?
        ensures Safe(Commit(y.store, PutUpdated(SetStatus(y, y.workers[w].inv, WaitingInput).value)), y.workers[k].inv)
      {
        assert Newest(y.workers, k, w);
        PcAt(y, k);
        CasSafe(y, y.workers[w].inv, WaitingInput, y.workers[k].inv);
      }
    }
  }

  lemma EnterTimely(y: Sys, w: nat)
    requires Timely(y) && w in y.workers && y.workers[w].Won?
    ensures var pc := y.workers[w];
            Timely(Move(y, w, Inside(pc.interaction, pc.inv)).(callbacks :=
              y.callbacks + [Callback(pc.interaction, pc.inv, Attempt(pc.inv) in y.cancelled)]))
  {
    forall a | a in y.workers && a != w && y.workers[a].Won? ensures !SameAttempt(y.workers[a].inv, y.workers[w].inv) {
      assert Newest(y.workers, a, w);
    }
  }

  lemma FewerTimely(y: Sys, w: nat, pc: Pc)
    requires Timely(y) && !Holds(pc)
    ensures Timely(Leave(y, w)) && Timely(Move(y, w, pc))
  {
    hide Safe;
    forall z, a, b | z in {Leave(y, w), Move(y, w, pc)} && a in z.workers && b in z.workers && a != b &&
                     z.workers[a].Won? && Holds(z.workers[b]) ensures Newest(z.workers, a, b) {
      assert Newest(y.workers, a, b);
    }
  }

  lemma AppendTimely(y: Sys, w: nat, item: Item, pc: Pc)
    requires SysInv(y) && Timely(y) && pc.Confirmed?
    ensures AppendItem(y.store, item).Ok? && AppendItem(y.store, item).value.1 ==>
              var z := Put(y, PutItem(AppendItem(y.store, item).value.0));
              && Timely(Move(z, w, pc))
              && Timely(Leave(z.(continued := y.continued + [pc.interaction]), w))
  {
    hide SysInv, Legal, Commit, AppendItem, Safe, Newest;
    if AppendItem(y.store, item).Ok? && AppendItem(y.store, item).value.1 {
      AppendLegal(y.store, item);
      var z := Put(y, PutItem(AppendItem(y.store, item).value.0));
      TimelyWrite(y, PutItem(AppendItem(y.store, item).value.0));
      FewerTimely(z, w, pc);
      FewerTimely(z.(continued := y.continued + [pc.interaction]), w, pc);
    }
  }

  lemma TimelyNext(y: Sys, l: Label)
    requires SysInv(y) && Timely(y) && (l.Env? ==> !Overwrites(y, l.write))
    ensures Timely(Next(y, l))
  {
    hide SysInv, Timely, Legal, Commit, AppendItem, UpdateInvocation, Released, Overwrites, Inv;
    if l.Env? {
      if Legal(y.store, l.write) { TimelyWrite(y, l.write); }
    } else if l.Load? {
      if Resolved(y.store, l.interaction) && y.store.interactions[l.interaction].invocation in y.store.invocations {
        FewerTimely(y, l.w, Read(l.interaction, y.store.invocations[y.store.interactions[l.interaction].invocation]));
      }
    } else if l.Reconcile? {
      FewerTimely(y, l.w, Confirmed(l.interaction));
    } else if l.Inspect? {
      if l.id in y.store.invocations { FewerTimely(y, l.w, Cancelling(y.store.invocations[l.id])); }
    } else if l.w in y.workers {
      var pc := y.workers[l.w];
      FewerTimely(y, l.w, Confirmed(Empty));
      if l.Confirm? && pc.Inside? { FewerTimely(y, l.w, Confirmed(pc.interaction)); }
      if l.Claim? && pc.Read? { ClaimTimely(y, l); }
      if l.Cancel? && pc.Cancelling? { CancelTimely(y, l.w); }
      if l.Enter? && pc.Won? {
        EnterTimely(y, l.w);
        ReleaseTimely(y, l.w);
      }
      if l.Release? && pc.Inside? { ReleaseTimely(y, l.w); }
      if l.Confirm? && pc.Inside? { AppendTimely(y, l.w, l.item, Confirmed(pc.interaction)); }
      if l.Continue? && pc.Confirmed? { AppendTimely(y, l.w, l.item.(id := ContinuationId(pc.interaction)), pc); }
    }
  }

  lemma {:induction false} TimelySteps(labels: seq<Label>)
    requires NotOverwritten(START, labels)
    ensures Timely(Steps(START, labels))
  {
    hide Next, SysInv, Timely, Overwrites;
    if labels == [] {
      TimelyStart();
    } else {
      TimelySteps(labels[..|labels| - 1]);
      StepsKeep(labels[..|labels| - 1]);
      TimelyNext(Steps(START, labels[..|labels| - 1]), labels[|labels| - 1]);
    }
  }

  lemma TimelyStart()
    ensures Timely(START)
  {
  }

  /** Callbacks and cancellations exclude each other. Over every run in which workers and cancellers race
      freely and nobody else overwrites a won, unused claim, no callback is entered after a cancellation of
      its Attempt has committed, at whatever earlier point and by whomever. */
  lemma NoLateCallback(labels: seq<Label>, i: nat)
    requires NotOverwritten(START, labels) && i < |Steps(START, labels).callbacks|
    ensures !Steps(START, labels).callbacks[i].late
  {
    hide NotOverwritten, Steps, Safe, Newest;
    TimelySteps(labels);
  }

  /** In such a run a cancellation never takes a won claim away: one that commits hits nobody. */
  lemma CancellationMissesClaims(labels: seq<Label>, c: nat, w: nat)
    requires NotOverwritten(START, labels)
    requires var y := Steps(START, labels);
             && c in y.workers && y.workers[c].Cancelling? && SetStatus(y, y.workers[c].inv, Cancelled).Ok?
             && w in y.workers && y.workers[w].Won?
    ensures var y := Steps(START, labels);
            !SameAttempt(y.workers[w].inv, y.workers[c].inv)
  {
    hide NotOverwritten, Steps, Timely, SysInv, SetStatus;
    TimelySteps(labels);
    StepsKeep(labels);
    CancelSpares(Steps(START, labels), c, w);
  }

  // ---------------------------------------------------------------- what is remembered

  predicate CancelledIn(s: State, b: Binding) {
    b.invocation in s.invocations && Attempt(s.invocations[b.invocation]) == b &&
    s.invocations[b.invocation].status == Cancelled
  }

  /** Every step is one legal write of the Store, and remembers what that write cancels. */
  lemma NextPuts(y: Sys, l: Label) returns (write: Write)
    requires SysInv(y)
    ensures Legal(y.store, write) && Next(y, l).store == Commit(y.store, write)
    ensures Next(y, l).cancelled == y.cancelled + CancelledBy(write)
  {
    hide SysInv, Legal, Commit, AppendItem, UpdateInvocation, Inv;
    write := NoWrite;
    Unwritten(y.store);
    if l.Env? {
      if Legal(y.store, l.write) { write := l.write; }
    } else if !l.Load? && !l.Reconcile? && !l.Inspect? && l.w in y.workers {
      var pc := y.workers[l.w];
      PcAt(y, l.w);
      if l.Claim? && pc.Read? { write := CasWrite(y, pc.inv, Running); }
      if l.Cancel? && pc.Cancelling? { write := CasWrite(y, pc.inv, Cancelled); }
      if (l.Release? && pc.Inside?) || (l.Enter? && pc.Won? && !l.live) { write := CasWrite(y, pc.inv, WaitingInput); }
      if l.Confirm? && pc.Inside? { write := AppendWrite(y.store, l.item); }
      if l.Continue? && pc.Confirmed? { write := AppendWrite(y.store, l.item.(id := ContinuationId(pc.interaction))); }
    }
  }

  lemma Unwritten(s: State)
    ensures Legal(s, NoWrite) && Commit(s, NoWrite) == s
  {
  }

  lemma CasWrite(y: Sys, v: Invocation, status: Status) returns (write: Write)
    requires SysInv(y) && Behind(y.store, v)
    ensures Legal(y.store, write)
    ensures write == match SetStatus(y, v, status) case Ok(n) => PutUpdated(n) case Err(_) => NoWrite
  {
    hide SysInv, Legal, UpdateInvocation, Behind;
    Unwritten(y.store);
    write := match SetStatus(y, v, status) case Ok(n) => PutUpdated(n) case Err(_) => NoWrite;
    if SetStatus(y, v, status).Ok? { CasLegal(y, v, status); }
  }

  lemma AppendWrite(s: State, item: Item) returns (write: Write)
    ensures Legal(s, write)
    ensures write == match AppendItem(s, item) case Ok((v, true)) => PutItem(v) case _ => NoWrite
  {
    hide Legal, AppendItem;
    Unwritten(s);
    AppendLegal(s, item);
    write := match AppendItem(s, item) case Ok((v, true)) => PutItem(v) case _ => NoWrite;
  }

  lemma CancelledCommit(s: State, w: Write, b: Binding)
    requires Keyed(s.invocations) && Legal(s, w)
    ensures CancelledIn(Commit(s, w), b) ==> CancelledIn(s, b) || b in CancelledBy(w)
    ensures b in CancelledBy(w) ==> CancelledIn(Commit(s, w), b)
  {
    hide ActiveFence, Pending, RetryAdmitted, OtherRoot, Admits, RefTaken;
  }

  /** What is remembered is exactly the Attempts that were stored as Cancelled at some point of the run. */
  lemma {:induction false} RememberedExactly(labels: seq<Label>, b: Binding)
    ensures b in Steps(START, labels).cancelled <==>
            exists k :: 0 <= k <= |labels| && CancelledIn(Steps(START, labels[..k]).store, b)
  {
    hide Next, SysInv, CancelledIn, Steps, Keyed, Legal, Commit, CancelledBy;
    StepsNone(START);
    if labels == [] {
      assert !CancelledIn(START.store, b) by { NoneCancelled(b); }
      assert forall k :: 0 <= k <= |labels| ==> labels[..k] == [];
    } else {
      var front, l := labels[..|labels| - 1], labels[|labels| - 1];
      RememberedExactly(front, b);
      StepsKeep(front);
      StepsLast(START, labels);
      var y := Steps(START, front);
      PcKeyed(y);
      var w := NextPuts(y, l);
      CancelledCommit(y.store, w, b);
      assert labels[..|labels|] == labels && front[..|front|] == front;
      assert forall k :: 0 <= k <= |front| ==> front[..k] == labels[..k];
      if b in y.cancelled {
        var k :| 0 <= k <= |front| && CancelledIn(Steps(START, front[..k]).store, b);
        assert CancelledIn(Steps(START, labels[..k]).store, b);
      } else if b in CancelledBy(w) {
        assert CancelledIn(Steps(START, labels[..|labels|]).store, b);
      } else {
        forall k | 0 <= k <= |labels| ensures !CancelledIn(Steps(START, labels[..k]).store, b) {
          if k < |labels| {
            assert !CancelledIn(Steps(START, front[..k]).store, b);
          } else {
            assert !CancelledIn(Steps(START, front[..|front|]).store, b);
          }
        }
      }
    }
  }

  lemma NoneCancelled(b: Binding)
    ensures !CancelledIn(INITIAL, b)
  {
  }

  lemma StepsNone(y: Sys)
    ensures Steps(y, []) == y
  {
  }

  lemma StepsLast(y: Sys, labels: seq<Label>)
    requires labels != []
    ensures Steps(y, labels) == Next(Steps(y, labels[..|labels| - 1]), labels[|labels| - 1])
  {
    hide Next;
  }

  lemma PcKeyed(y: Sys)
    requires SysInv(y)
    ensures Keyed(y.store.invocations)
  {
    hide Keyed, Elected, ContinuedOnce, PcOk, Behind, Over;
  }

  // ---------------------------------------------------------------- the condition is exact

  lemma EnterNow(y: Sys, w: nat)
    requires w in y.workers && y.workers[w].Won?
    ensures Next(y, Enter(w, true)).callbacks ==
            y.callbacks + [Callback(y.workers[w].interaction, y.workers[w].inv, Attempt(y.workers[w].inv) in y.cancelled)]
  {
    hide Legal, Commit, AppendItem, UpdateInvocation;
  }

  lemma EnvNow(y: Sys, write: Write)
    requires Legal(y.store, write)
    ensures Next(y, Env(write)) == Put(y, write)
  {
    hide Legal, Commit;
  }

  /** The record that cancels `n` next. */
  function CancelledNext(n: Invocation): Invocation {
    n.(status := Cancelled, revision := n.revision + 1)
  }

  lemma Cancels(s: State, n: Invocation)
    requires n.id in s.invocations && s.invocations[n.id] == n && ValidInvocation(n) && n.ref != Empty
    requires !Terminal(n.status) || n.status == Cancelled
    ensures Legal(s, PutUpdated(CancelledNext(n)))
    ensures UpdateInvocation(s, n.(status := Cancelled), n.revision) == Ok(CancelledNext(n))
  {
    hide ActiveFence, Pending;
  }

  lemma Overwritten(y: Sys, w: nat, n: Invocation)
    requires SysInv(y) && w in y.workers && y.workers[w].Won? && SameAttempt(y.workers[w].inv, n)
    requires Legal(y.store, PutUpdated(n))
    ensures ValidInvocation(n) && n.ref != Empty && Attempt(n) == Attempt(y.workers[w].inv)
    ensures Next(y, Env(PutUpdated(n))) == Put(y, PutUpdated(n))
    ensures n.id in y.store.invocations && n.id in Commit(y.store, PutUpdated(n)).invocations
    ensures Commit(y.store, PutUpdated(n)).invocations[n.id] == n
  {
    hide Inv, Elected, ContinuedOnce, SysInv, Next, ActiveFence, Pending;
    PcAt(y, w);
    EnvNow(y, PutUpdated(n));
    assert y.store.invocations[n.id].ref == n.ref;
  }

  /** The condition is exact: after every status write that takes a won claim away, over whatever record, a
      cancellation can commit on the new revision, and the claim's holder, who does not read the Invocation
      again, still enters. */
  lemma OverwrittenClaimEntersLate(y: Sys, w: nat, n: Invocation)
    requires SysInv(y) && w in y.workers && y.workers[w].Won? && SameAttempt(y.workers[w].inv, n)
    requires Legal(y.store, PutUpdated(n)) && !Settled(n.status)
    ensures y.store.invocations[n.id].status == Running ==> Overwrites(y, PutUpdated(n))
    ensures Legal(Next(y, Env(PutUpdated(n))).store, PutUpdated(CancelledNext(n)))
    ensures var y' := Next(Next(Next(y, Env(PutUpdated(n))), Env(PutUpdated(CancelledNext(n)))), Enter(w, true));
            y'.callbacks == y.callbacks + [Callback(y.workers[w].interaction, y.workers[w].inv, true)]
  {
    hide SysInv, Next, Commit, Legal, UpdateInvocation, ValidInvocation;
    Overwritten(y, w, n);
    var y1 := Put(y, PutUpdated(n));
    Cancels(y1.store, n);
    EnvNow(y1, PutUpdated(CancelledNext(n)));
    EnterNow(Put(y1, PutUpdated(CancelledNext(n))), w);
  }

  lemma CancelNow(y: Sys, k: nat, n: Invocation)
    requires k !in y.workers && n.id in y.store.invocations && y.store.invocations[n.id] == n
    requires Cancellable(n) && ValidInvocation(n) && n.ref != Empty
    ensures Next(Next(y, Inspect(k, n.id)), Cancel(k)) == Put(y, PutUpdated(CancelledNext(n)))
  {
    hide Commit, Legal, ValidInvocation, UpdateInvocation;
    Cancels(y.store, n);
    var y1 := Next(y, Inspect(k, n.id));
    assert y1 == Move(y, k, Cancelling(n));
    assert (y.workers[k := Cancelling(n)] - {k}) == y.workers;
  }

  /** In particular, once a claimed Attempt is handed back to waiting, a canceller that keeps to its guard
      cancels it and the callback is entered all the same. */
  lemma HandedBackClaimEntersLate(y: Sys, w: nat, n: Invocation, k: nat)
    requires SysInv(y) && w in y.workers && y.workers[w].Won? && SameAttempt(y.workers[w].inv, n) && k !in y.workers
    requires Legal(y.store, PutUpdated(n)) && n.status == WaitingInput
    ensures var y' := Next(Next(Next(Next(y, Env(PutUpdated(n))), Inspect(k, n.id)), Cancel(k)), Enter(w, true));
            y'.callbacks == y.callbacks + [Callback(y.workers[w].interaction, y.workers[w].inv, true)]
  {
    hide SysInv, Next, Commit, Legal, UpdateInvocation, ValidInvocation;
    Overwritten(y, w, n);
    var y1 := Put(y, PutUpdated(n));
    CancelNow(y1, k, n);
    EnterNow(Put(y1, PutUpdated(CancelledNext(n))), w);
  }

  // ---------------------------------------------------------------- a late callback is reachable

  /** A script of Store requests, as steps of the environment. */
  ghost function Requests(script: seq<Op>): seq<Label> {
    if script == [] then []
    else Requests(script[..|script| - 1]) + [Env(Decide(Run(INITIAL, script[..|script| - 1]), script[|script| - 1]))]
  }

  lemma StepsSnoc(y: Sys, labels: seq<Label>, l: Label)
    ensures Steps(y, labels + [l]) == Next(Steps(y, labels), l)
  {
    assert (labels + [l])[..|labels|] == labels;
  }

  lemma {:induction false} RequestsRun(script: seq<Op>)
    ensures var y := Steps(START, Requests(script));
            y.store == Run(INITIAL, script) && y.workers == map[] && y.callbacks == []
  {
    hide Next, Step, Decide;
    if script != [] {
      var front, op := script[..|script| - 1], script[|script| - 1];
      RequestsRun(front);
      StepsSnoc(START, Requests(front), Env(Decide(Run(INITIAL, front), op)));
      Reachable(front);
      KeyedIn(Run(INITIAL, front));
      var w := StepLegal(Run(INITIAL, front), op);
      EnvNow(Steps(START, Requests(front)), w);
    }
  }

  /** A Store holding one Turn, its root Invocation and these Interactions. */
  function Asked(t: Turn, v: Invocation, xs: map<Id, Interaction>): State {
    Alone(t, v).(interactions := xs)
  }

  const ASK := Interaction(Name("ask"), Name("turn"), Name("root"), Empty, Name("key"), "schema", false, "", 1)
  const ANSWER := ASK.(resolved := true, response := "yes")

  function At(status: Status, revision: nat): Invocation {
    ROOT.(status := status, revision := revision)
  }

  /** Create, start, ask, wait, and answer. */
  function Setup(): seq<Op> {
    [DoCreateTurn(TURN), DoCreate(ROOT), DoUpdate(At(Running, 1), 1), DoWait(ASK, 1, 2)] +
    [DoUpdate(At(WaitingInput, 2), 2), DoUpdateTurn(TURN.(status := WaitingInput), 1), DoResolve(ANSWER, 1)]
  }

  lemma UpdateAsked(t: Turn, v: Invocation, n: Invocation, xs: map<Id, Interaction>)
    requires ValidInvocation(n) && SameInvocation(v, n) && v.ref == n.ref && v.revision > 0 && !Terminal(v.status)
    ensures Step(Asked(t, v, xs), DoUpdate(n, v.revision)) == Asked(t, n.(revision := v.revision + 1), xs)
  {
    QuietLedger(Asked(t, v, xs), n.turn, n.id);
    hide ActiveFence, Pending, LedgerOf;
    var s, w := Asked(t, v, xs), n.(revision := v.revision + 1);
    assert s.invocations[n.id := w] == Asked(t, w, xs).invocations;
  }

  lemma TurnAsked(t: Turn, n: Turn, v: Invocation, xs: map<Id, Interaction>)
    requires ValidTurn(n) && SameTurn(t, n) && t.revision > 0
    ensures Step(Asked(t, v, xs), DoUpdateTurn(n, t.revision)) == Asked(n.(revision := t.revision + 1), v, xs)
  {
    var s, w := Asked(t, v, xs), n.(revision := t.revision + 1);
    assert s.turns[n.id := w] == Asked(w, v, xs).turns;
  }

  lemma CreateAsked()
    ensures Step(Step(INITIAL, DoCreateTurn(TURN)), DoCreate(ROOT)) == Asked(TURN, ROOT, map[])
  {
    var s1 := State(map[TURN.id := TURN], map[], map[], map[], map[], map[]);
    assert Step(INITIAL, DoCreateTurn(TURN)) == s1;
    QuietLedger(s1, ROOT.turn, Empty);
    hide ActiveFence, LedgerOf;
    assert CreateInvocation(s1, ROOT) == Ok((ROOT, true));
    assert Commit(s1, PutFresh(ROOT)) == Asked(TURN, ROOT, map[]);
  }

  lemma AskAsked()
    ensures Step(Asked(TURN, At(Running, 2), map[]), DoWait(ASK, 1, 2)) == Asked(TURN, At(Running, 2), map[ASK.id := ASK])
  {
    var s := Asked(TURN, At(Running, 2), map[]);
    QuietLedger(s, ASK.turn, Empty);
    hide ActiveFence, LedgerOf;
    assert !HasWaiting(s, ASK.turn);
    assert CreateInteraction(s, ASK, 1, 2) == Ok((ASK, true));
    assert s.interactions[ASK.id := ASK] == map[ASK.id := ASK];
  }

  lemma AnswerAsked(t: Turn)
    requires t == TURN.(status := WaitingInput, revision := 2)
    ensures Step(Asked(t, At(WaitingInput, 3), map[ASK.id := ASK]), DoResolve(ANSWER, 1)) ==
            Asked(t, At(WaitingInput, 3), map[ASK.id := ANSWER.(revision := 2)])
  {
    var s := Asked(t, At(WaitingInput, 3), map[ASK.id := ASK]);
    QuietLedger(s, ASK.turn, Empty);
    hide ActiveFence, LedgerOf;
    assert ResolveInteraction(s, ANSWER, 1) == Ok(ANSWER.(revision := 2));
    assert s.interactions[ASK.id := ANSWER.(revision := 2)] == map[ASK.id := ANSWER.(revision := 2)];
  }

  lemma SetupRun()
    ensures Run(INITIAL, Setup()) ==
            Asked(TURN.(status := WaitingInput, revision := 2), At(WaitingInput, 3), map[ASK.id := ANSWER.(revision := 2)])
  {
    hide Step, Run, Asked;
    var o := Setup();
    assert o == [] + [o[0]] + [o[1]] + [o[2]] + [o[3]] + [o[4]] + [o[5]] + [o[6]];
    RunNone(INITIAL);
    RunSnoc(INITIAL, [], o[0]);
    RunSnoc(INITIAL, [] + [o[0]], o[1]);
    RunSnoc(INITIAL, [] + [o[0]] + [o[1]], o[2]);
    RunSnoc(INITIAL, [] + [o[0]] + [o[1]] + [o[2]], o[3]);
    RunSnoc(INITIAL, [] + [o[0]] + [o[1]] + [o[2]] + [o[3]], o[4]);
    RunSnoc(INITIAL, [] + [o[0]] + [o[1]] + [o[2]] + [o[3]] + [o[4]], o[5]);
    RunSnoc(INITIAL, [] + [o[0]] + [o[1]] + [o[2]] + [o[3]] + [o[4]] + [o[5]], o[6]);
    CreateAsked();
    UpdateAsked(TURN, ROOT, At(Running, 1), map[]);
    AskAsked();
    UpdateAsked(TURN, At(Running, 2), At(WaitingInput, 2), map[ASK.id := ASK]);
    TurnAsked(TURN, TURN.(status := WaitingInput), At(WaitingInput, 3), map[ASK.id := ASK]);
    AnswerAsked(TURN.(status := WaitingInput, revision := 2));
  }

  lemma ClaimAsked(y: Sys)
    requires y.store == Asked(TURN.(status := WaitingInput, revision := 2), At(WaitingInput, 3),
                              map[ASK.id := ANSWER.(revision := 2)])
    requires y.workers == map[] && y.callbacks == []
    ensures var z := Next(Next(y, Load(0, ASK.id)), Claim(0));
            && z.workers == map[0 := Won(ASK.id, At(Running, 4))] && z.callbacks == []
            && ROOT.id in z.store.invocations && z.store.invocations[ROOT.id] == At(Running, 4)
  {
    LoadAsked(y);
    QuietLedger(y.store, ROOT.turn, ROOT.id);
    hide ActiveFence, Pending, LedgerOf, Legal, AppendItem;
    var y1 := Next(y, Load(0, ASK.id));
    assert SetStatus(y1, At(WaitingInput, 3), Running) == Ok(At(Running, 4));
  }

  lemma LoadAsked(y: Sys)
    requires y.store == Asked(TURN.(status := WaitingInput, revision := 2), At(WaitingInput, 3),
                              map[ASK.id := ANSWER.(revision := 2)])
    requires y.workers == map[] && y.callbacks == []
    ensures Next(y, Load(0, ASK.id)) == y.(workers := map[0 := Read(ASK.id, At(WaitingInput, 3))])
  {
    hide Legal, AppendItem, UpdateInvocation, Commit;
  }

  /** Counterexample to "no callback after a cancellation": these requests and steps, from the empty Store,
      enter a callback after a committed cancellation of its Attempt. Claimant and canceller keep to their
      guards; the one overwrite is the status reconciliation that hands the claimed Attempt back to waiting. */
  lemma LateCallbackReachable()
    ensures var labels := Requests(Setup()) + [Load(0, ASK.id)] + [Claim(0)] + [Env(PutUpdated(At(WaitingInput, 5)))] +
                          [Inspect(1, ROOT.id)] + [Cancel(1)] + [Enter(0, true)];
            Steps(START, labels).callbacks == [Callback(ASK.id, At(Running, 4), true)]
  {
    hide Next, Steps, Requests, Asked, SysInv, Legal;
    var r := Requests(Setup());
    RequestsRun(Setup());
    SetupRun();
    ClaimAsked(Steps(START, r));
    StepsSnoc(START, r, Load(0, ASK.id));
    StepsSnoc(START, r + [Load(0, ASK.id)], Claim(0));
    var front := r + [Load(0, ASK.id)] + [Claim(0)];
    var z := Steps(START, front);
    StepsKeep(front);
    Handback(z.store);
    HandedBackClaimEntersLate(z, 0, At(WaitingInput, 5), 1);
    var back := front + [Env(PutUpdated(At(WaitingInput, 5)))];
    StepsSnoc(START, front, Env(PutUpdated(At(WaitingInput, 5))));
    StepsSnoc(START, back, Inspect(1, ROOT.id));
    StepsSnoc(START, back + [Inspect(1, ROOT.id)], Cancel(1));
    StepsSnoc(START, back + [Inspect(1, ROOT.id)] + [Cancel(1)], Enter(0, true));
  }

  lemma Handback(s: State)
    requires ROOT.id in s.invocations && s.invocations[ROOT.id] == At(Running, 4)
    ensures Legal(s, PutUpdated(At(WaitingInput, 5)))
  {
    hide ActiveFence, Pending;
  }

  // ---------------------------------------------------------------- a second callback of one Attempt

  /** A step that gives an Attempt back: its holder's proven no-effect release, or somebody's write over it. */
  ghost predicate Reopens(y: Sys, l: Label, v: Invocation) {
    || (l.Env? && Legal(y.store, l.write) && l.write.PutUpdated? && SameAttempt(v, l.write.invocation) &&
        !Settled(l.write.invocation.status))
    || ((l.Release? || (l.Enter? && !l.live)) && l.w in y.workers && Holds(y.workers[l.w]) &&
        SameAttempt(v, y.workers[l.w].inv))
  }

  ghost predicate NeverReopened(y: Sys, labels: seq<Label>, v: Invocation) {
    labels == [] ||
    (&& NeverReopened(y, labels[..|labels| - 1], v)
     && !Reopens(Steps(y, labels[..|labels| - 1]), labels[|labels| - 1], v))
  }

  /** Nobody can enter for this Attempt: it is not waiting, and no worker holds an unused claim of it. */
  ghost predicate Shut(y: Sys, v: Invocation) {
    Safe(y.store, v) && forall w :: w in y.workers && y.workers[w].Won? ==> !SameAttempt(v, y.workers[w].inv)
  }

  /** Entering a callback on a claim that was not overwritten shuts the Attempt. */
  lemma EntryShuts(y: Sys, w: nat)
    requires SysInv(y) && Timely(y) && w in y.workers && y.workers[w].Won?
    ensures Shut(Next(y, Enter(w, true)), y.workers[w].inv)
  {
    hide Inv, Elected, ContinuedOnce, PcOk, Legal, Commit, AppendItem, UpdateInvocation;
    forall a | a in y.workers && a != w && y.workers[a].Won? ensures !SameAttempt(y.workers[a].inv, y.workers[w].inv) {
      assert Newest(y.workers, a, w);
    }
  }

  lemma ShutClaim(y: Sys, l: Label, v: Invocation)
    requires SysInv(y) && Shut(y, v) && l.Claim? && l.w in y.workers && y.workers[l.w].Read?
    ensures Shut(Next(y, l), v)
  {
    hide Inv, Elected, ContinuedOnce, UpdateInvocation, SysInv;
    var pc := y.workers[l.w];
    PcAt(y, l.w);
    if SetStatus(y, pc.inv, Running).Ok? {
      CasLegal(y, pc.inv, Running);
      CasSafe(y, pc.inv, Running, v);
    }
  }

  lemma ShutRelease(y: Sys, w: nat, v: Invocation)
    requires SysInv(y) && Shut(y, v) && w in y.workers && Holds(y.workers[w]) && !SameAttempt(v, y.workers[w].inv)
    ensures Shut(Released(y, w, y.workers[w].inv), v)
  {
    hide Inv, Elected, ContinuedOnce, UpdateInvocation, SysInv, Safe;
    PcAt(y, w);
    if SetStatus(y, y.workers[w].inv, WaitingInput).Ok? { CasSafe(y, y.workers[w].inv, WaitingInput, v); }
  }

  /** A cancellation needs a waiting or unclaimed Attempt, which a shut one is not. */
  lemma ShutCancel(y: Sys, w: nat, v: Invocation)
    requires SysInv(y) && Shut(y, v) && w in y.workers && y.workers[w].Cancelling?
    ensures Shut(Next(y, Cancel(w)), v)
  {
    hide Inv, Elected, ContinuedOnce, UpdateInvocation, SysInv;
    PcAt(y, w);
    if SetStatus(y, y.workers[w].inv, Cancelled).Ok? {
      CasLegal(y, y.workers[w].inv, Cancelled);
      CasSafe(y, y.workers[w].inv, Cancelled, v);
    }
  }

  lemma ShutWrite(y: Sys, write: Write, v: Invocation)
    requires SysInv(y) && Shut(y, v) && Legal(y.store, write) && !Reopens(y, Env(write), v)
    ensures Shut(Put(y, write), v)
  {
    hide Legal, Commit, Safe, Inv, Elected, PcOk, ContinuedOnce;
    SafeWrite(y.store, write, v);
  }

  lemma ShutNext(y: Sys, l: Label, v: Invocation)
    requires SysInv(y) && Shut(y, v) && !Reopens(y, l, v)
    ensures Shut(Next(y, l), v) && y.callbacks <= Next(y, l).callbacks
    ensures forall j :: |y.callbacks| <= j < |Next(y, l).callbacks| ==> !SameAttempt(v, Next(y, l).callbacks[j].claim)
  {
    hide SysInv, Legal, Commit, AppendItem, UpdateInvocation, Safe, Inv;
    if l.Env? {
      if Legal(y.store, l.write) { ShutWrite(y, l.write, v); }
    } else if l.w in y.workers {
      var pc := y.workers[l.w];
      if l.Claim? && pc.Read? { ShutClaim(y, l, v); }
      if l.Cancel? && pc.Cancelling? { ShutCancel(y, l.w, v); }
      if (l.Release? && pc.Inside?) || (l.Enter? && pc.Won? && !l.live) { ShutRelease(y, l.w, v); }
      if l.Confirm? && pc.Inside? { ShutAppend(y, l.item, v); }
      if l.Continue? && pc.Confirmed? { ShutAppend(y, l.item.(id := ContinuationId(pc.interaction)), v); }
    }
  }

  lemma ShutAppend(y: Sys, item: Item, v: Invocation)
    requires SysInv(y) && Shut(y, v)
    ensures AppendItem(y.store, item).Ok? && AppendItem(y.store, item).value.1 ==>
              Safe(Commit(y.store, PutItem(AppendItem(y.store, item).value.0)), v)
  {
    hide SysInv, Legal, Commit, AppendItem, Safe;
    if AppendItem(y.store, item).Ok? && AppendItem(y.store, item).value.1 {
      AppendLegal(y.store, item);
      ShutWrite(y, PutItem(AppendItem(y.store, item).value.0), v);
    }
  }

  /** A second callback of one Attempt, for the same Interaction or another, needs the Attempt to be given
      back first: by a release that proves there was no effect, or by a write over the claim. */
  lemma {:induction false} SecondCallbackNeedsReopening(y: Sys, labels: seq<Label>, v: Invocation)
    requires SysInv(y) && Shut(y, v) && NeverReopened(y, labels, v)
    ensures Shut(Steps(y, labels), v) && y.callbacks <= Steps(y, labels).callbacks
    ensures forall j :: |y.callbacks| <= j < |Steps(y, labels).callbacks| ==> !SameAttempt(v, Steps(y, labels).callbacks[j].claim)
  {
    hide Next, SysInv, Shut, Reopens;
    if labels != [] {
      var front, l := labels[..|labels| - 1], labels[|labels| - 1];
      SecondCallbackNeedsReopening(y, front, v);
      StepsFrom(y, front);
      ShutNext(Steps(y, front), l, v);
    }
  }

  /** Over every run: after a callback entered on a claim that was not overwritten, no other callback of that Attempt is
      entered, for this Interaction or another, unless the Attempt was given back in between. */
  lemma OncePerAttempt(labels: seq<Label>, w: nat, more: seq<Label>)
    requires NotOverwritten(START, labels)
    requires w in Steps(START, labels).workers && Steps(START, labels).workers[w].Won?
    requires NeverReopened(Next(Steps(START, labels), Enter(w, true)), more, Steps(START, labels).workers[w].inv)
    ensures var y, v := Next(Steps(START, labels), Enter(w, true)), Steps(START, labels).workers[w].inv;
            forall j :: |y.callbacks| <= j < |Steps(y, more).callbacks| ==> !SameAttempt(v, Steps(y, more).callbacks[j].claim)
  {
    hide Next, Steps, SysInv, Timely, Shut, NotOverwritten, NeverReopened;
    TimelySteps(labels);
    StepsKeep(labels);
    NextKeeps(Steps(START, labels), Enter(w, true));
    EntryShuts(Steps(START, labels), w);
    SecondCallbackNeedsReopening(Next(Steps(START, labels), Enter(w, true)), more, Steps(START, labels).workers[w].inv);
  }

  // ---------------------------------------------------------------- which callbacks are entered

  /** The Interaction is stored and answered, and this is the Invocation it asked for, in its Turn. */
  ghost predicate Answers(s: State, id: Id, v: Invocation) {
    && id in s.interactions && s.interactions[id].resolved
    && s.interactions[id].invocation == v.id && s.interactions[id].turn == v.turn
  }

  predicate Answering(pc: Pc) {
    pc.Read? || pc.Won? || pc.Inside?
  }

  ghost predicate Answered(y: Sys) {
    && (forall id :: id in y.store.interactions ==> y.store.interactions[id].id == id)
    && (forall w :: w in y.workers && Answering(y.workers[w]) ==> Answers(y.store, y.workers[w].interaction, y.workers[w].inv))
    && (forall i :: 0 <= i < |y.callbacks| ==> Answers(y.store, y.callbacks[i].interaction, y.callbacks[i].claim))
  }

  /** An answer is never taken back, nor is the Interaction given another owner. */
  lemma AnswerCommit(s: State, w: Write, id: Id)
    requires Legal(s, w) && id in s.interactions && s.interactions[id].id == id
    ensures id in Commit(s, w).interactions && Commit(s, w).interactions[id].id == id
    ensures s.interactions[id].resolved ==> Commit(s, w).interactions[id] == s.interactions[id]
  {
    hide ActiveFence, Pending, RetryAdmitted, OtherRoot, Admits, RefTaken, Updates, ValidInvocation;
  }

  lemma KeyedCommitted(s: State, w: Write)
    requires Legal(s, w) && forall id :: id in s.interactions ==> s.interactions[id].id == id
    ensures forall id :: id in Commit(s, w).interactions ==> Commit(s, w).interactions[id].id == id
  {
    hide ActiveFence, Pending, RetryAdmitted, OtherRoot, Admits, RefTaken, Updates, ValidInvocation;
  }

  /** A worker's position and the callbacks of the next state come from the last one or from this step. */
  lemma NextAnswers(y: Sys, l: Label, w: nat)
    requires SysInv(y) && w in Next(y, l).workers && Answering(Next(y, l).workers[w])
    ensures var pc := Next(y, l).workers[w];
            || (&& w in y.workers && Answering(y.workers[w]) && pc.interaction == y.workers[w].interaction
                && pc.inv.id == y.workers[w].inv.id && pc.inv.turn == y.workers[w].inv.turn)
            || Answers(y.store, pc.interaction, pc.inv)
  {
    hide SysInv, Legal, Commit, AppendItem, UpdateInvocation, Inv;
    if l.Load? && Resolved(y.store, l.interaction) {
      PcKeyed(y);
    }
    if w in y.workers { PcAt(y, w); }
    if l.Claim? && l.w in y.workers && y.workers[l.w].Read? && SetStatus(y, y.workers[l.w].inv, Running).Ok? {
      PcAt(y, l.w);
      CasLegal(y, y.workers[l.w].inv, Running);
    }
  }

  /** Callbacks are entered only by the holder of a won claim whose parents are live, for the Interaction it read. */
  lemma NextCallbacks(y: Sys, l: Label)
    ensures Next(y, l).callbacks == y.callbacks ||
            (&& l.Enter? && l.live && l.w in y.workers && y.workers[l.w].Won?
             && Next(y, l).callbacks == y.callbacks + [Callback(y.workers[l.w].interaction, y.workers[l.w].inv,
                                                                Attempt(y.workers[l.w].inv) in y.cancelled)])
  {
    hide Legal, Commit, AppendItem, UpdateInvocation;
  }

  lemma AnsweredNext(y: Sys, l: Label)
    requires SysInv(y) && Answered(y)
    ensures Answered(Next(y, l))
  {
    hide Next, SysInv, Legal, Commit;
    var z := Next(y, l);
    var write := NextPuts(y, l);
    KeyedCommitted(y.store, write);
    NextCallbacks(y, l);
    forall id | id in y.store.interactions && y.store.interactions[id].resolved
      ensures id in z.store.interactions && z.store.interactions[id] == y.store.interactions[id] { AnswerCommit(y.store, write, id); }
    forall w | w in z.workers && Answering(z.workers[w]) ensures Answers(z.store, z.workers[w].interaction, z.workers[w].inv) {
      NextAnswers(y, l, w);
    }
  }

  lemma {:induction false} AnsweredSteps(labels: seq<Label>)
    ensures Answered(Steps(START, labels))
  {
    hide Next, SysInv, Answered;
    if labels == [] {
      AnsweredStart();
    } else {
      AnsweredSteps(labels[..|labels| - 1]);
      StepsKeep(labels[..|labels| - 1]);
      AnsweredNext(Steps(START, labels[..|labels| - 1]), labels[|labels| - 1]);
    }
  }

  lemma AnsweredStart()
    ensures Answered(START)
  {
  }

  /** Over every run each callback was entered for an Interaction that is answered, on a claim of the very
      Invocation that asked, in its Turn. */
  lemma CallbackAnswersItsOwner(labels: seq<Label>, i: nat)
    requires i < |Steps(START, labels).callbacks|
    ensures var y := Steps(START, labels); Answers(y.store, y.callbacks[i].interaction, y.callbacks[i].claim)
  {
    hide Steps, Answers;
    AnsweredSteps(labels);
  }

  /** Where a worker's position comes from: it read an answered Interaction's waiting owner; it won by moving exactly
      that record to Running; a canceller read an owner that waits or an Application that was never claimed. */
  lemma PositionSteps(y: Sys, l: Label, w: nat)
    requires SysInv(y) && w in Next(y, l).workers && !(w in y.workers && y.workers[w] == Next(y, l).workers[w])
    ensures match Next(y, l).workers[w]
            case Read(i, v) =>
              && l == Load(w, i) && w !in y.workers && i in y.store.interactions && y.store.interactions[i].resolved
              && y.store.interactions[i].invocation in y.store.invocations
              && y.store.invocations[y.store.interactions[i].invocation] == v
              && v.turn == y.store.interactions[i].turn && v.status == WaitingInput
            case Won(i, v) =>
              && l == Claim(w) && w in y.workers && y.workers[w].Read? && y.workers[w].interaction == i
              && v == y.workers[w].inv.(status := Running, revision := y.workers[w].inv.revision + 1)
              && v.id in y.store.invocations && y.store.invocations[v.id] == y.workers[w].inv
              && v.id in Next(y, l).store.invocations && Next(y, l).store.invocations[v.id] == v
            case Inside(i, v) => l == Enter(w, true) && w in y.workers && y.workers[w] == Won(i, v)
            case Confirmed(i) =>
              || (l == Reconcile(w, i) && w !in y.workers && i in y.store.interactions && y.store.interactions[i].resolved)
              || (l.Confirm? && l.w == w && w in y.workers && y.workers[w].Inside? && y.workers[w].interaction == i &&
                  AppendItem(y.store, l.item).Ok?)
            case Cancelling(v) =>
              && l == Inspect(w, v.id) && w !in y.workers && v.id in y.store.invocations && y.store.invocations[v.id] == v
              && (v.status == WaitingInput || (v.executionClass == Application && v.status == Accepted))
  {
    hide SysInv, Legal, AppendItem, UpdateInvocation, Inv;
    if w in y.workers { PcAt(y, w); }
    if l.Inspect? { PcKeyed(y); }
    if l.Claim? && l.w in y.workers && y.workers[l.w].Read? && SetStatus(y, y.workers[l.w].inv, Running).Ok? {
      PcAt(y, l.w);
      CasLegal(y, y.workers[l.w].inv, Running);
    }
  }

  /** A continuation is entered only when the worker inserts the Interaction's own continuation Item. */
  lemma ContinuationSteps(y: Sys, l: Label)
    ensures Next(y, l).continued == y.continued ||
            (&& l.Continue? && l.w in y.workers && y.workers[l.w].Confirmed?
             && var i := y.workers[l.w].interaction;
                && Next(y, l).continued == y.continued + [i]
                && AppendItem(y.store, l.item.(id := Stable(HContClaim, [i]))).Ok?
                && AppendItem(y.store, l.item.(id := Stable(HContClaim, [i]))).value.1)
  {
    hide Legal, Commit, AppendItem, UpdateInvocation;
  }

  /** What may start: a canceller on any owner that waits and on any Application that was never claimed; a reader on
      the waiting owner of any answered Interaction; a reconciler on any answered Interaction. */
  lemma StartSteps(y: Sys, w: nat, id: Id)
    requires w !in y.workers
    ensures id in y.store.invocations ==>
              (Next(y, Inspect(w, id)) ==
               if y.store.invocations[id].status == WaitingInput ||
                  (y.store.invocations[id].executionClass == Application && y.store.invocations[id].status == Accepted)
               then y.(workers := y.workers[w := Cancelling(y.store.invocations[id])]) else y)
    ensures id in y.store.interactions && y.store.interactions[id].resolved ==>
              && Next(y, Reconcile(w, id)) == y.(workers := y.workers[w := Confirmed(id)])
              && var x := y.store.interactions[id];
                 (x.invocation in y.store.invocations && y.store.invocations[x.invocation].turn == x.turn &&
                  y.store.invocations[x.invocation].status == WaitingInput ==>
                    Next(y, Load(w, id)) == y.(workers := y.workers[w := Read(id, y.store.invocations[x.invocation])]))
  {
    hide Legal, Commit, AppendItem, UpdateInvocation;
  }
}
