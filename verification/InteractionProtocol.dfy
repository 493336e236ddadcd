/**
 Answering a resolved Interaction. A worker reads the waiting owner, claims it by compare-and-set,
 enters the Host callback, records the verified response and elects itself, by inserting one
 immutable Item, to resume the owning Runtime. A canceller reads the owner, goes on only if no claim can
 be outstanding, and competes by compare-and-set for the same Invocation revision. Anyone may crash
 between any two Store calls; every legal Store write may interleave.
 */
module InteractionProtocol {
  import opened Records
  import opened Ledger
  import opened Admission
  import opened StoreInvariant

  datatype Pc =
    | Read(interaction: Id, inv: Invocation)
    | Won(interaction: Id, inv: Invocation)
    | Inside(interaction: Id, inv: Invocation)
    | Confirmed(interaction: Id)
    | Cancelling(inv: Invocation)

  /** `late` says that a cancellation of the claimed Attempt had committed at some point before the entry. */
  datatype Callback = Callback(interaction: Id, claim: Invocation, late: bool)

  /** `cancelled` remembers every Attempt whose cancellation was ever committed, by anyone. */
  datatype Sys = Sys(
    store: State, workers: map<nat, Pc>, callbacks: seq<Callback>, continued: seq<Id>, cancelled: set<Binding>)

  datatype Label =
    | Load(w: nat, interaction: Id)
    | Claim(w: nat)
    | Enter(w: nat, live: bool)
    | Release(w: nat)
    | Confirm(w: nat, item: Item)
    | Reconcile(w: nat, interaction: Id)
    | Continue(w: nat, item: Item)
    | Inspect(w: nat, id: Id)
    | Cancel(w: nat)
    | Crash(w: nat)
    | Env(write: Write)

  function ContinuationId(interaction: Id): Id {
    Stable(HContClaim, [interaction])
  }

  predicate Resolved(s: State, id: Id) {
    id in s.interactions && s.interactions[id].resolved
  }

  function Move(y: Sys, w: nat, pc: Pc): Sys {
    y.(workers := y.workers[w := pc])
  }

  function Leave(y: Sys, w: nat): Sys {
    y.(workers := y.workers - {w})
  }

  function CancelledBy(write: Write): set<Binding> {
    if (write.PutUpdated? || write.PutFresh?) && write.invocation.status == Cancelled then {Attempt(write.invocation)} else {}
  }

  function Put(y: Sys, write: Write): Sys {
    y.(store := Commit(y.store, write), cancelled := y.cancelled + CancelledBy(write))
  }

  /** A canceller refuses a Running owner, whose effect may have been dispatched; it cancels an owner that
      waits for input, or an Application that was never claimed. */
  predicate Cancellable(v: Invocation) {
    v.status == WaitingInput || (v.status == Accepted && v.executionClass == Application)
  }

  function SetStatus(y: Sys, v: Invocation, status: Status): Outcome<Invocation> {
    UpdateInvocation(y.store, v.(status := status), v.revision)
  }

  function Next(y: Sys, l: Label): Sys {
    if l.Env? then
      if Legal(y.store, l.write) then Put(y, l.write) else y
    else if l.Load? then
      if l.w in y.workers || !Resolved(y.store, l.interaction) then y
      else
        var i := y.store.interactions[l.interaction];
        if i.invocation in y.store.invocations && y.store.invocations[i.invocation].turn == i.turn &&
           y.store.invocations[i.invocation].status == WaitingInput
        then Move(y, l.w, Read(l.interaction, y.store.invocations[i.invocation])) else y
    else if l.Reconcile? then
      if l.w in y.workers || !Resolved(y.store, l.interaction) then y else Move(y, l.w, Confirmed(l.interaction))
    else if l.Inspect? then
      if l.w !in y.workers && l.id in y.store.invocations && Cancellable(y.store.invocations[l.id])
      then Move(y, l.w, Cancelling(y.store.invocations[l.id])) else y
    else if l.w !in y.workers then y
    else
      var pc := y.workers[l.w];
      match l
      case Claim(w) =>
        if !pc.Read? then y
        else (match SetStatus(y, pc.inv, Running)
              case Ok(v) => Move(Put(y, PutUpdated(v)), w, Won(pc.interaction, v))
              case Err(_) => Leave(y, w))
      case Enter(w, live) =>
        if !pc.Won? then y
        else if live then
          Move(y, w, Inside(pc.interaction, pc.inv)).(callbacks :=
            y.callbacks + [Callback(pc.interaction, pc.inv, Attempt(pc.inv) in y.cancelled)])
        else Released(y, w, pc.inv)
      case Release(w) => if pc.Inside? then Released(y, w, pc.inv) else y
      case Confirm(w, item) =>
        if !pc.Inside? then y
        else (match AppendItem(y.store, item)
              case Ok((v, isNew)) =>
                Move(if isNew then Put(y, PutItem(v)) else y, w, Confirmed(pc.interaction))
              case Err(_) => Leave(y, w))
      case Continue(w, item) =>
        if !pc.Confirmed? then y
        else (match AppendItem(y.store, item.(id := ContinuationId(pc.interaction)))
              case Ok((v, true)) =>
                Leave(Put(y, PutItem(v)).(continued := y.continued + [pc.interaction]), w)
              case _ => Leave(y, w))
      case Cancel(w) =>
        if !pc.Cancelling? then y
        else (match SetStatus(y, pc.inv, Cancelled)
              case Ok(v) => Leave(Put(y, PutUpdated(v)), w)
              case Err(_) => Leave(y, w))
      case Crash(w) => Leave(y, w)
  }

  /** A proven no-effect releases the claim: back to waiting, conditioned on the claimed revision. */
  function Released(y: Sys, w: nat, v: Invocation): Sys {
    match SetStatus(y, v, WaitingInput)
    case Ok(n) => Leave(Put(y, PutUpdated(n)), w)
    case Err(_) => Leave(y, w)
  }

  function Steps(y: Sys, labels: seq<Label>): Sys {
    if labels == [] then y else Next(Steps(y, labels[..|labels| - 1]), labels[|labels| - 1])
  }

  const START := Sys(INITIAL, map[], [], [], {})

  // ---------------------------------------------------------------- every run

  predicate Holds(pc: Pc) {
    pc.Won? || pc.Inside?
  }

  predicate Taken(v: Invocation, n: Invocation) {
    v.id == n.id && v.revision == n.revision
  }

  ghost predicate Behind(s: State, v: Invocation) {
    v.id in s.invocations && SameOwner(v, s.invocations[v.id])
  }

  ghost predicate PcOk(s: State, pc: Pc) {
    !pc.Confirmed? ==>
      && Behind(s, pc.inv) && (pc.Read? ==> pc.inv.status == WaitingInput) && (pc.Cancelling? ==> Cancellable(pc.inv))
      && (Holds(pc) ==> pc.inv.status == Running && pc.inv.ref != Empty)
  }

  ghost predicate Elected(workers: map<nat, Pc>, callbacks: seq<Callback>) {
    && (forall a, b | a in workers && b in workers && a != b && Holds(workers[a]) && Holds(workers[b]) ::
          !Taken(workers[a].inv, workers[b].inv))
    && (forall w, i | w in workers && workers[w].Won? && 0 <= i < |callbacks| :: !Taken(callbacks[i].claim, workers[w].inv))
    && (forall i, j | 0 <= i < j < |callbacks| :: !Taken(callbacks[i].claim, callbacks[j].claim))
  }

  ghost predicate ContinuedOnce(s: State, continued: seq<Id>) {
    && (forall i :: 0 <= i < |continued| ==> ContinuationId(continued[i]) in s.itemIds)
    && (forall i, j :: 0 <= i < j < |continued| ==> continued[i] != continued[j])
  }

  /** A cancelled Attempt stays cancelled until the Invocation leaves it behind. */
  ghost predicate Over(s: State, b: Binding) {
    && b.invocation in s.invocations && b.attempt <= s.invocations[b.invocation].attempt
    && (b.attempt == s.invocations[b.invocation].attempt ==>
          s.invocations[b.invocation].status == Cancelled && s.invocations[b.invocation].ref == b.ref)
  }

  ghost predicate SysInv(y: Sys) {
    && Inv(y.store) && Elected(y.workers, y.callbacks) && ContinuedOnce(y.store, y.continued)
    && (forall b :: b in y.cancelled ==> Over(y.store, b))
    && (forall w :: w in y.workers ==> PcOk(y.store, y.workers[w]))
    && (forall i :: 0 <= i < |y.callbacks| ==> Behind(y.store, y.callbacks[i].claim))
  }

  lemma BehindWrite(s: State, w: Write, v: Invocation)
    requires Inv(s) && Legal(s, w) && Behind(s, v)
    ensures Behind(Commit(s, w), v)
  {
    hide Legal, Commit;
    InvocationCommit(s, w, v.id);
  }

  lemma OverWrite(s: State, w: Write, b: Binding)
    requires Inv(s) && Legal(s, w) && (Over(s, b) || b in CancelledBy(w))
    ensures Over(Commit(s, w), b)
  {
    if Over(s, b) && b !in CancelledBy(w) {
      hide Legal, Commit;
      InvocationCommit(s, w, b.invocation);
    } else {
      hide Legal, Inv;
    }
  }

  lemma ContinuedWrite(s: State, w: Write, continued: seq<Id>)
    requires Legal(s, w) && ContinuedOnce(s, continued)
    ensures ContinuedOnce(Commit(s, w), continued)
  {
    hide Admits, ActiveFence, Pending, RetryAdmitted, OtherRoot, RefTaken;
  }

  lemma WriteKeeps(y: Sys, w: Write)
    requires SysInv(y) && Legal(y.store, w)
    ensures SysInv(Put(y, w))
  {
    hide Legal, Commit, Inv, Behind, Elected, ContinuedOnce, Over, CancelledBy;
    InvCommit(y.store, w);
    forall b | b in y.cancelled + CancelledBy(w) ensures Over(Commit(y.store, w), b) { OverWrite(y.store, w, b); }
    ContinuedWrite(y.store, w, y.continued);
    forall k | k in y.workers ensures PcOk(Commit(y.store, w), y.workers[k]) {
      assert PcOk(y.store, y.workers[k]);
      if !y.workers[k].Confirmed? { BehindWrite(y.store, w, y.workers[k].inv); }
    }
    forall i | 0 <= i < |y.callbacks| ensures Behind(Commit(y.store, w), y.callbacks[i].claim) {
      BehindWrite(y.store, w, y.callbacks[i].claim);
    }
  }

  lemma MoveKeeps(y: Sys, w: nat, pc: Pc)
    requires SysInv(y) && PcOk(y.store, pc)
    requires Holds(pc) ==> forall k :: k in y.workers && k != w && Holds(y.workers[k]) ==> !Taken(y.workers[k].inv, pc.inv)
    requires pc.Won? ==> forall i :: 0 <= i < |y.callbacks| ==> !Taken(y.callbacks[i].claim, pc.inv)
    ensures SysInv(Move(y, w, pc))
  {
    hide Inv, Behind, PcOk, ContinuedOnce, Over;
  }

  lemma LeaveKeeps(y: Sys, w: nat)
    requires SysInv(y)
    ensures SysInv(Leave(y, w))
  {
    hide Inv, Behind, PcOk, ContinuedOnce, Over;
  }

  lemma PcAt(y: Sys, w: nat)
    requires SysInv(y) && w in y.workers
    ensures PcOk(y.store, y.workers[w]) && Inv(y.store)
  {
    hide Inv, Behind, PcOk, ContinuedOnce, Elected;
  }

  /** A successful compare-and-set read the stored record, so its revision is new to everyone. */
  lemma CasLegal(y: Sys, v: Invocation, status: Status)
    requires SysInv(y) && Behind(y.store, v) && SetStatus(y, v, status).Ok?
    ensures var n := SetStatus(y, v, status).value;
            && v.id in y.store.invocations && y.store.invocations[v.id] == v
            && n == v.(status := status, revision := v.revision + 1) && Legal(y.store, PutUpdated(n))
            && (status != Accepted ==> n.ref != Empty)
  {
    hide Inv, ActiveFence, Pending, PcOk, ContinuedOnce, Elected;
  }

  lemma NewRevision(y: Sys, v: Invocation)
    requires SysInv(y) && v.id in y.store.invocations && v.revision > y.store.invocations[v.id].revision
    ensures forall k :: k in y.workers && Holds(y.workers[k]) ==> !Taken(y.workers[k].inv, v)
    ensures forall i :: 0 <= i < |y.callbacks| ==> !Taken(y.callbacks[i].claim, v)
  {
    hide Inv, ContinuedOnce, Elected;
    forall k | k in y.workers && Holds(y.workers[k]) ensures !Taken(y.workers[k].inv, v) { assert PcOk(y.store, y.workers[k]); }
    forall i | 0 <= i < |y.callbacks| ensures !Taken(y.callbacks[i].claim, v) { assert Behind(y.store, y.callbacks[i].claim); }
  }

  lemma StoredBehind(s: State, n: Invocation)
    requires n.id in Commit(s, PutUpdated(n)).invocations
    ensures Behind(Commit(s, PutUpdated(n)), n)
  {
  }

  lemma ClaimKeeps(y: Sys, l: Label)
    requires SysInv(y) && l.Claim? && l.w in y.workers && y.workers[l.w].Read?
    ensures SysInv(Next(y, l))
  {
    hide SysInv, Inv, Legal, UpdateInvocation, Behind, SameOwner;
    var pc := y.workers[l.w];
    PcAt(y, l.w);
    if SetStatus(y, pc.inv, Running).Ok? {
      var n := SetStatus(y, pc.inv, Running).value;
      CasLegal(y, pc.inv, Running);
      NewRevision(y, n);
      WriteKeeps(y, PutUpdated(n));
      StoredBehind(y.store, n);
      MoveKeeps(Put(y, PutUpdated(n)), l.w, Won(pc.interaction, n));
    } else {
      LeaveKeeps(y, l.w);
    }
  }

  lemma ReleaseKeeps(y: Sys, w: nat)
    requires SysInv(y) && w in y.workers && Holds(y.workers[w])
    ensures SysInv(Released(y, w, y.workers[w].inv))
  {
    hide SysInv, Inv, Legal, UpdateInvocation, Behind, SameOwner, Commit;
    PcAt(y, w);
    if SetStatus(y, y.workers[w].inv, WaitingInput).Ok? {
      CasLegal(y, y.workers[w].inv, WaitingInput);
      var n := SetStatus(y, y.workers[w].inv, WaitingInput).value;
      WriteKeeps(y, PutUpdated(n));
      LeaveKeeps(Put(y, PutUpdated(n)), w);
    } else {
      LeaveKeeps(y, w);
    }
  }

  lemma EnterKeeps(y: Sys, w: nat, late: bool)
    requires SysInv(y) && w in y.workers && y.workers[w].Won?
    ensures var pc := y.workers[w];
            SysInv(Move(y, w, Inside(pc.interaction, pc.inv)).(
                     callbacks := y.callbacks + [Callback(pc.interaction, pc.inv, late)]))
  {
    hide Inv, Behind, ContinuedOnce;
    assert PcOk(y.store, y.workers[w]);
  }

  /** The continuation Item is new when it is inserted, so nobody continued this Interaction before. */
  lemma ContinueKeeps(y: Sys, l: Label)
    requires SysInv(y) && l.Continue? && l.w in y.workers && y.workers[l.w].Confirmed?
    ensures SysInv(Next(y, l))
  {
    hide SysInv, Inv, Legal, Commit;
    var i := y.workers[l.w].interaction;
    var item := l.item.(id := ContinuationId(i));
    AppendLegal(y.store, item);
    if AppendItem(y.store, item).Ok? && AppendItem(y.store, item).value.1 {
      var v := AppendItem(y.store, item).value.0;
      WriteKeeps(y, PutItem(v));
      Inserted(y, v, i);
      LeaveKeeps(Put(y, PutItem(v)).(continued := y.continued + [i]), l.w);
    } else {
      LeaveKeeps(y, l.w);
    }
  }

  lemma Inserted(y: Sys, v: Item, i: Id)
    requires SysInv(y) && v.id == ContinuationId(i) && v.id !in y.store.itemIds
    requires SysInv(Put(y, PutItem(v)))
    ensures SysInv(Put(y, PutItem(v)).(continued := y.continued + [i]))
  {
    hide Inv, Behind, Elected, PcOk;
  }

  lemma ConfirmKeeps(y: Sys, l: Label)
    requires SysInv(y) && l.Confirm? && l.w in y.workers && y.workers[l.w].Inside?
    ensures SysInv(Next(y, l))
  {
    hide SysInv, Inv, Legal, Commit, AppendItem;
    AppendLegal(y.store, l.item);
    var pc := Confirmed(y.workers[l.w].interaction);
    match AppendItem(y.store, l.item) {
      case Ok((v, isNew)) =>
        if isNew {
          WriteKeeps(y, PutItem(v));
          MoveKeeps(Put(y, PutItem(v)), l.w, pc);
        } else {
          MoveKeeps(y, l.w, pc);
        }
      case Err(_) => LeaveKeeps(y, l.w);
    }
  }

  lemma LoadKeeps(y: Sys, w: nat, i: Id, id: Id)
    requires SysInv(y) && id in y.store.invocations && y.store.invocations[id].status == WaitingInput
    ensures SysInv(Move(y, w, Read(i, y.store.invocations[id])))
  {
    hide Elected, ContinuedOnce;
    assert y.store.invocations[id].id == id;
    MoveKeeps(y, w, Read(i, y.store.invocations[id]));
  }

  lemma InspectKeeps(y: Sys, w: nat, id: Id)
    requires SysInv(y) && id in y.store.invocations && Cancellable(y.store.invocations[id])
    ensures SysInv(Move(y, w, Cancelling(y.store.invocations[id])))
  {
    hide Elected, ContinuedOnce;
    assert y.store.invocations[id].id == id;
    MoveKeeps(y, w, Cancelling(y.store.invocations[id]));
  }

  lemma CancelKeeps(y: Sys, w: nat)
    requires SysInv(y) && w in y.workers && y.workers[w].Cancelling?
    ensures SysInv(Next(y, Cancel(w)))
  {
    hide SysInv, Inv, Legal, UpdateInvocation, Behind, SameOwner, Commit;
    PcAt(y, w);
    if SetStatus(y, y.workers[w].inv, Cancelled).Ok? {
      CasLegal(y, y.workers[w].inv, Cancelled);
      var n := SetStatus(y, y.workers[w].inv, Cancelled).value;
      WriteKeeps(y, PutUpdated(n));
      LeaveKeeps(Put(y, PutUpdated(n)), w);
    } else {
      LeaveKeeps(y, w);
    }
  }

  lemma NextKeeps(y: Sys, l: Label)
    requires SysInv(y)
    ensures SysInv(Next(y, l))
  {
    hide SysInv, Inv, Legal, Commit, AppendItem, UpdateInvocation, Released;
    if l.Env? {
      if Legal(y.store, l.write) { WriteKeeps(y, l.write); }
    } else if l.Load? {
      if Resolved(y.store, l.interaction) && y.store.interactions[l.interaction].invocation in y.store.invocations {
        var id := y.store.interactions[l.interaction].invocation;
        if y.store.invocations[id].status == WaitingInput { LoadKeeps(y, l.w, l.interaction, id); }
      }
    } else if l.Reconcile? {
      MoveKeeps(y, l.w, Confirmed(l.interaction));
    } else if l.Inspect? {
      if l.id in y.store.invocations && Cancellable(y.store.invocations[l.id]) { InspectKeeps(y, l.w, l.id); }
    } else if l.w in y.workers {
      LeaveKeeps(y, l.w);
      var pc := y.workers[l.w];
      if l.Claim? && pc.Read? { ClaimKeeps(y, l); }
      if l.Enter? && pc.Won? {
        EnterKeeps(y, l.w, Attempt(pc.inv) in y.cancelled);
        ReleaseKeeps(y, l.w);
      }
      if l.Release? && pc.Inside? { ReleaseKeeps(y, l.w); }
      if l.Confirm? && pc.Inside? { ConfirmKeeps(y, l); }
      if l.Continue? && pc.Confirmed? { ContinueKeeps(y, l); }
      if l.Cancel? && pc.Cancelling? { CancelKeeps(y, l.w); }
    }
  }

  lemma {:induction false} StepsFrom(y: Sys, labels: seq<Label>)
    requires SysInv(y)
    ensures SysInv(Steps(y, labels))
  {
    hide Next, SysInv;
    if labels != [] {
      StepsFrom(y, labels[..|labels| - 1]);
      NextKeeps(Steps(y, labels[..|labels| - 1]), labels[|labels| - 1]);
    }
  }

  lemma StepsKeep(labels: seq<Label>)
    ensures SysInv(Steps(START, labels))
  {
    hide Steps, SysInv;
    StartOk();
    StepsFrom(START, labels);
  }

  lemma StartOk()
    ensures SysInv(START)
  {
  }

  /** A Runtime continuation is entered at most once per Interaction, ever, across callers and crashes. */
  lemma ContinuedAtMostOnce(labels: seq<Label>, i: nat, j: nat)
    requires i < j < |Steps(START, labels).continued|
    ensures Steps(START, labels).continued[i] != Steps(START, labels).continued[j]
  {
    StepsKeep(labels);
    hide Steps, Inv, Elected, PcOk, Behind;
  }

  /** Each committed claim authorizes at most one callback entry. */
  lemma CallbackOncePerClaim(labels: seq<Label>, i: nat, j: nat)
    requires i < j < |Steps(START, labels).callbacks|
    ensures !Taken(Steps(START, labels).callbacks[i].claim, Steps(START, labels).callbacks[j].claim)
  {
    StepsKeep(labels);
    hide Steps, Inv, ContinuedOnce, PcOk, Behind;
  }
}
