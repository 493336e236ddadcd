/**
 Host Application capabilities have no Kernel Run and no dispatch grant: the compare-and-set of the
 Invocation from Accepted to Running is the durable dispatch intent. A worker reads the Invocation,
 claims it, reads it again, rechecks its parents and enters the Host executor, and may crash between
 any two of these. Parent and Kernel checks are verdicts of the environment.
 */
module ApplicationProtocol {
  import opened Records
  import opened Ledger
  import opened Admission
  import opened StoreInvariant
  import opened Scene

  datatype Pc =
    | Seen(inv: Invocation)
    | Ready(inv: Invocation)
    | Claimed(claim: Binding)
    | Holding(claim: Binding, request: Invocation)

  /** One executor entry: the Attempt whose claim authorized it and the Attempt the request carries. */
  datatype Entry = Entry(claim: Binding, request: Binding)

  datatype Sys = Sys(store: State, workers: map<nat, Pc>, entries: seq<Entry>)

  datatype Label =
    | Load(w: nat, id: Id)
    | Prepare(w: nat, live: bool)
    | Claim(w: nat)
    | Reread(w: nat)
    | Enter(w: nat, live: bool)
    | Crash(w: nat)
    | Env(write: Write)

  /** A write that would take an Application back to Accepted within its Attempt. */
  predicate Unclaims(s: State, write: Write) {
    write.PutUpdated? && write.invocation.id in s.invocations && write.invocation.executionClass == Application &&
    write.invocation.status == Accepted && s.invocations[write.invocation.id].status != Accepted
  }

  predicate Claimable(v: Invocation) {
    v.executionClass == Application && v.status == Accepted
  }

  function Move(y: Sys, w: nat, pc: Pc): Sys {
    y.(workers := y.workers[w := pc])
  }

  function Leave(y: Sys, w: nat): Sys {
    y.(workers := y.workers - {w})
  }

  /** Everyone else's writes: whatever the Store admits, except that the Runner never writes Accepted
      over another status of an Application. */
  function Next(y: Sys, l: Label): Sys {
    if l.Env? then
      if Legal(y.store, l.write) && !Unclaims(y.store, l.write) then y.(store := Commit(y.store, l.write)) else y
    else if l.Load? then
      if l.w !in y.workers && l.id in y.store.invocations && Claimable(y.store.invocations[l.id])
      then Move(y, l.w, Seen(y.store.invocations[l.id])) else y
    else if l.w !in y.workers then y
    else
      var pc := y.workers[l.w];
      match l
      case Prepare(w, live) =>
        if !pc.Seen? then y
        else if pc.inv.id !in y.store.invocations then Leave(y, w)
        else
          var current := y.store.invocations[pc.inv.id];
          if current.revision == pc.inv.revision && current.status == Accepted && current.ref == pc.inv.ref && live
          then Move(y, w, Ready(current)) else Leave(y, w)
      case Claim(w) =>
        if !pc.Ready? then y
        else (match UpdateInvocation(y.store, pc.inv.(status := Running), pc.inv.revision)
              case Ok(v) => Move(y.(store := Commit(y.store, PutUpdated(v))), w, Claimed(Attempt(v)))
              case Err(_) => Leave(y, w))
      case Reread(w) =>
        if !pc.Claimed? then y
        else if pc.claim.invocation !in y.store.invocations then Leave(y, w)
        else Move(y, w, Holding(pc.claim, y.store.invocations[pc.claim.invocation]))
      case Enter(w, live) =>
        if !pc.Holding? then y
        else if live then Leave(y, w).(entries := y.entries + [Entry(pc.claim, Attempt(pc.request))])
        else Leave(y, w)
      case Crash(w) => Leave(y, w)
  }

  function Steps(y: Sys, labels: seq<Label>): Sys {
    if labels == [] then y else Next(Steps(y, labels[..|labels| - 1]), labels[|labels| - 1])
  }

  const START := Sys(INITIAL, map[], [])

  // ---------------------------------------------------------------- the invariant

  /** The Attempt can no longer be claimed. */
  ghost predicate Spent(s: State, b: Binding) {
    && b.invocation in s.invocations && s.invocations[b.invocation].executionClass == Application
    && b.attempt <= s.invocations[b.invocation].attempt && s.invocations[b.invocation].ref != Empty
    && (b.attempt == s.invocations[b.invocation].attempt ==>
          s.invocations[b.invocation].status != Accepted && s.invocations[b.invocation].ref == b.ref)
  }

  predicate Claims(pc: Pc) {
    pc.Claimed? || pc.Holding?
  }

  ghost predicate PcOk(s: State, pc: Pc) {
    match pc
    case Seen(v) => v.id in s.invocations && SameOwner(v, s.invocations[v.id]) && v.executionClass == Application
    case Ready(v) => v.id in s.invocations && SameOwner(v, s.invocations[v.id]) && Claimable(v)
    case Claimed(b) => Spent(s, b)
    case Holding(b, v) =>
      && Spent(s, b) && v.id == b.invocation && b.attempt <= v.attempt
      && v.id in s.invocations && SameOwner(v, s.invocations[v.id])
      && (b.attempt == v.attempt ==> v.ref == b.ref)
  }

  /** No claim is held twice, nor held after it was used, nor used twice. */
  ghost predicate Elected(workers: map<nat, Pc>, entries: seq<Entry>) {
    && (forall a, b | a in workers && b in workers && a != b && Claims(workers[a]) && Claims(workers[b]) ::
          workers[a].claim != workers[b].claim)
    && (forall w, i | w in workers && Claims(workers[w]) && 0 <= i < |entries| :: entries[i].claim != workers[w].claim)
    && (forall i, j | 0 <= i < j < |entries| :: entries[i].claim != entries[j].claim)
  }

  ghost predicate EntryOk(s: State, e: Entry) {
    && Spent(s, e.claim) && e.request.invocation == e.claim.invocation && e.claim.attempt <= e.request.attempt
    && (e.claim.attempt == e.request.attempt ==> e.claim == e.request)
  }

  ghost predicate SysInv(y: Sys) {
    && Inv(y.store) && Elected(y.workers, y.entries)
    && (forall w :: w in y.workers ==> PcOk(y.store, y.workers[w]))
    && (forall i :: 0 <= i < |y.entries| ==> EntryOk(y.store, y.entries[i]))
  }

  lemma SpentWrite(s: State, w: Write, b: Binding)
    requires Inv(s) && Legal(s, w) && !Unclaims(s, w) && Spent(s, b)
    ensures Spent(Commit(s, w), b)
  {
    hide Legal, Commit;
    assert s.invocations[b.invocation].id == b.invocation;
    InvocationCommit(s, w, b.invocation);
  }

  lemma PcWrite(s: State, w: Write, pc: Pc)
    requires Inv(s) && Legal(s, w) && !Unclaims(s, w) && PcOk(s, pc)
    ensures PcOk(Commit(s, w), pc)
  {
    hide Legal, Commit, Unclaims, Spent, Inv;
    match pc {
      case Seen(v) => OwnerWrite(s, w, v);
      case Ready(v) => OwnerWrite(s, w, v);
      case Claimed(b) => SpentWrite(s, w, b);
      case Holding(b, v) => SpentWrite(s, w, b); OwnerWrite(s, w, v);
    }
  }

  lemma OwnerWrite(s: State, w: Write, v: Invocation)
    requires Inv(s) && Legal(s, w) && v.id in s.invocations && SameOwner(v, s.invocations[v.id])
    ensures v.id in Commit(s, w).invocations && SameOwner(v, Commit(s, w).invocations[v.id])
  {
    hide Legal, Commit;
    InvocationCommit(s, w, v.id);
  }

  lemma WriteKeeps(y: Sys, w: Write)
    requires SysInv(y) && Legal(y.store, w) && !Unclaims(y.store, w)
    ensures SysInv(y.(store := Commit(y.store, w)))
  {
    hide Legal, Commit, Unclaims, Inv, Spent, PcOk, Elected;
    InvCommit(y.store, w);
    forall k | k in y.workers ensures PcOk(Commit(y.store, w), y.workers[k]) { PcWrite(y.store, w, y.workers[k]); }
    forall i | 0 <= i < |y.entries| ensures EntryOk(Commit(y.store, w), y.entries[i]) {
      SpentWrite(y.store, w, y.entries[i].claim);
    }
  }

  /** A claim wins only on a still-Accepted Attempt, which nobody can have claimed before. */
  lemma ClaimKeeps(y: Sys, l: Label)
    requires SysInv(y) && l.Claim? && l.w in y.workers && y.workers[l.w].Ready?
    ensures SysInv(Next(y, l))
  {
    hide Inv, Elected, Commit, SysInv;
    var v := y.workers[l.w].inv;
    var reply := UpdateInvocation(y.store, v.(status := Running), v.revision);
    ReadyOk(y, l.w);
    if reply.Ok? {
      ClaimLegal(y.store, v);
      UnspentNew(y, v);
      WriteKeeps(y, PutUpdated(reply.value));
      ClaimSpends(y.store, v);
      MoveKeeps(y.(store := Commit(y.store, PutUpdated(reply.value))), l.w, Claimed(Attempt(v)));
    } else {
      LeaveKeeps(y, l.w);
    }
  }

  lemma ReadyOk(y: Sys, w: nat)
    requires SysInv(y) && w in y.workers
    ensures PcOk(y.store, y.workers[w]) && Inv(y.store)
  {
    hide PcOk, Inv, Elected, EntryOk;
  }

  lemma ClaimLegal(s: State, v: Invocation)
    requires Inv(s) && Claimable(v) && v.id in s.invocations && SameOwner(v, s.invocations[v.id])
    requires UpdateInvocation(s, v.(status := Running), v.revision).Ok?
    ensures s.invocations[v.id] == v
    ensures var w := PutUpdated(UpdateInvocation(s, v.(status := Running), v.revision).value);
            Legal(s, w) && !Unclaims(s, w) && Attempt(w.invocation) == Attempt(v)
  {
    hide Inv, ActiveFence, Pending;
  }

  lemma ClaimSpends(s: State, v: Invocation)
    requires Inv(s) && Claimable(v) && v.id in s.invocations && SameOwner(v, s.invocations[v.id])
    requires UpdateInvocation(s, v.(status := Running), v.revision).Ok?
    ensures Spent(Commit(s, PutUpdated(UpdateInvocation(s, v.(status := Running), v.revision).value)), Attempt(v))
  {
    hide Inv, ActiveFence, Pending;
  }

  lemma UnspentNew(y: Sys, v: Invocation)
    requires SysInv(y) && v.id in y.store.invocations && y.store.invocations[v.id] == v && v.status == Accepted
    ensures forall k :: k in y.workers && Claims(y.workers[k]) ==> y.workers[k].claim != Attempt(v)
    ensures forall i :: 0 <= i < |y.entries| ==> y.entries[i].claim != Attempt(v)
  {
    hide Inv, Elected;
    assert !Spent(y.store, Attempt(v));
    forall k | k in y.workers && Claims(y.workers[k]) ensures y.workers[k].claim != Attempt(v) {
      assert PcOk(y.store, y.workers[k]);
    }
    forall i | 0 <= i < |y.entries| ensures y.entries[i].claim != Attempt(v) {
      assert EntryOk(y.store, y.entries[i]);
    }
  }

  lemma MoveKeeps(y: Sys, w: nat, pc: Pc)
    requires SysInv(y) && PcOk(y.store, pc)
    requires Claims(pc) ==> forall k :: k in y.workers && k != w && Claims(y.workers[k]) ==> y.workers[k].claim != pc.claim
    requires Claims(pc) ==> forall i :: 0 <= i < |y.entries| ==> y.entries[i].claim != pc.claim
    ensures SysInv(Move(y, w, pc))
  {
    hide PcOk, EntryOk, Inv;
  }

  lemma LeaveKeeps(y: Sys, w: nat)
    requires SysInv(y)
    ensures SysInv(Leave(y, w))
  {
    hide PcOk, EntryOk, Inv;
  }

  lemma RereadKeeps(y: Sys, w: nat)
    requires SysInv(y) && w in y.workers && y.workers[w].Claimed? && y.workers[w].claim.invocation in y.store.invocations
    ensures SysInv(Move(y, w, Holding(y.workers[w].claim, y.store.invocations[y.workers[w].claim.invocation])))
  {
    hide SysInv, Inv;
    var b := y.workers[w].claim;
    ReadyOk(y, w);
    StoredValid(y, b.invocation);
    OwnClaim(y, w);
    MoveKeeps(y, w, Holding(b, y.store.invocations[b.invocation]));
  }

  lemma OwnClaim(y: Sys, w: nat)
    requires SysInv(y) && w in y.workers && Claims(y.workers[w])
    ensures forall k :: k in y.workers && k != w && Claims(y.workers[k]) ==> y.workers[k].claim != y.workers[w].claim
    ensures forall i :: 0 <= i < |y.entries| ==> y.entries[i].claim != y.workers[w].claim
  {
    hide PcOk, EntryOk, Inv;
  }

  lemma EnterKeeps(y: Sys, w: nat)
    requires SysInv(y) && w in y.workers && y.workers[w].Holding?
    ensures SysInv(Leave(y, w).(entries := y.entries + [Entry(y.workers[w].claim, Attempt(y.workers[w].request))]))
  {
    hide PcOk, EntryOk, Inv;
    EnteredOk(y.store, y.workers[w]);
  }

  lemma EnteredOk(s: State, pc: Pc)
    requires pc.Holding? && PcOk(s, pc)
    ensures EntryOk(s, Entry(pc.claim, Attempt(pc.request)))
  {
  }

  lemma NextKeeps(y: Sys, l: Label)
    requires SysInv(y)
    ensures SysInv(Next(y, l))
  {
    hide SysInv, Legal, Commit, Unclaims, UpdateInvocation, PcOk, Inv;
    if l.Env? {
      if Legal(y.store, l.write) && !Unclaims(y.store, l.write) { WriteKeeps(y, l.write); }
    } else if l.Load? {
      if l.id in y.store.invocations && Claimable(y.store.invocations[l.id]) { LoadKeeps(y, l.w, l.id); }
    } else if l.w in y.workers {
      LeaveKeeps(y, l.w);
      var pc := y.workers[l.w];
      if l.Claim? && pc.Ready? {
        ClaimKeeps(y, l);
      } else if l.Prepare? && pc.Seen? && pc.inv.id in y.store.invocations {
        PrepareKeeps(y, l.w);
      } else if l.Reread? && pc.Claimed? && pc.claim.invocation in y.store.invocations {
        RereadKeeps(y, l.w);
      } else if l.Enter? && pc.Holding? {
        EnterKeeps(y, l.w);
      }
    }
  }

  lemma LoadKeeps(y: Sys, w: nat, id: Id)
    requires SysInv(y) && id in y.store.invocations && Claimable(y.store.invocations[id])
    ensures SysInv(Move(y, w, Seen(y.store.invocations[id])))
  {
    assert y.store.invocations[id].id == id;
    MoveKeeps(y, w, Seen(y.store.invocations[id]));
  }

  lemma PrepareKeeps(y: Sys, w: nat)
    requires SysInv(y) && w in y.workers && y.workers[w].Seen? && y.workers[w].inv.id in y.store.invocations
    ensures y.store.invocations[y.workers[w].inv.id].status == Accepted ==>
              SysInv(Move(y, w, Ready(y.store.invocations[y.workers[w].inv.id])))
  {
    var id := y.workers[w].inv.id;
    assert PcOk(y.store, y.workers[w]) && y.store.invocations[id].id == id;
    if y.store.invocations[id].status == Accepted { MoveKeeps(y, w, Ready(y.store.invocations[id])); }
  }

  lemma {:induction false} StepsFrom(y: Sys, labels: seq<Label>)
    requires SysInv(y)
    ensures SysInv(Steps(y, labels))
  {
    hide Next, SysInv;
    if labels != [] {
      StepsFrom(y, labels[..|labels| - 1]);
      NextKeeps(Steps(y, labels[..|labels| - 1]), labels[|labels| - 1]);
    }
  }

  lemma StepsKeep(labels: seq<Label>)
    ensures SysInv(Steps(START, labels))
  {
    hide Steps, SysInv;
    StartOk();
    StepsFrom(START, labels);
  }

  lemma StartOk()
    ensures SysInv(START)
  {
  }

  /** Over every run, one claimed Attempt authorizes at most one executor entry; the request carries
      the claimed Attempt or, if the Invocation has rotated since the claim, a later one. */
  lemma EnteredOncePerClaim(labels: seq<Label>, i: nat, j: nat)
    requires i < |Steps(START, labels).entries| && j < |Steps(START, labels).entries|
    requires Steps(START, labels).entries[i].claim == Steps(START, labels).entries[j].claim
    ensures i == j
    ensures var e := Steps(START, labels).entries[i];
            e.request.invocation == e.claim.invocation &&
            (e.request == e.claim || e.claim.attempt < e.request.attempt)
  {
    StepsKeep(labels);
    hide Steps, PcOk, Inv, Spent;
    assert EntryOk(Steps(START, labels).store, Steps(START, labels).entries[i]);
  }

  // ---------------------------------------------------------------- what the request tells the Host

  /** Entries whose request still carries the claimed Attempt never repeat a request. */
  lemma FreshRequestsDiffer(labels: seq<Label>, i: nat, j: nat)
    requires var entries := Steps(START, labels).entries;
             i < j < |entries| && entries[i].request == entries[i].claim && entries[j].request == entries[j].claim
    ensures Steps(START, labels).entries[i].request != Steps(START, labels).entries[j].request
  {
    if Steps(START, labels).entries[i].claim == Steps(START, labels).entries[j].claim {
      EnteredOncePerClaim(labels, i, j);
    }
  }

  lemma StepsSnoc(y: Sys, labels: seq<Label>, l: Label)
    ensures Steps(y, labels + [l]) == Next(Steps(y, labels), l)
  {
    assert (labels + [l])[..|labels|] == labels;
  }

  function Twice(w: nat, k: nat, id: Id): seq<Label> {
    [Enter(w, true), Load(k, id), Prepare(k, true), Claim(k), Reread(k), Enter(k, true)]
  }

  /** The second read is not tied to the claim. While the Attempt it returned is still Accepted, that
      Attempt can be entered twice: once by the worker that read it and once by its claimant. */
  lemma StaleHoldRepeats(y: Sys, w: nat, k: nat)
    requires SysInv(y) && w in y.workers && k !in y.workers && y.workers[w].Holding?
    requires var r := y.workers[w].request;
             && r.id in y.store.invocations && Attempt(y.store.invocations[r.id]) == Attempt(r)
             && y.store.invocations[r.id].status == Accepted && !ActiveFence(LedgerOf(y.store, r.turn))
    ensures var r := y.workers[w].request;
            var entries := Steps(y, Twice(w, k, r.id)).entries;
            && |entries| == |y.entries| + 2
            && entries[|y.entries|].request == Attempt(r) == entries[|y.entries| + 1].request
            && entries[|y.entries|].claim != entries[|y.entries| + 1].claim
  {
    hide Inv, Legal, ActiveFence, SysInv, Next, Commit;
    var b, r, ls := y.workers[w].claim, y.workers[w].request, Twice(w, k, y.workers[w].request.id);
    NotMine(y, w);
    EnterStep(y, w);
    StoredValid(y, r.id);
    ClaimantEnters(Next(y, ls[0]), k, y.store.invocations[r.id]);
    assert ls == [ls[0]] + ls[1..];
    assert Steps(y, [ls[0]]) == Next(y, ls[0]) by { StepsSnoc(y, [], ls[0]); }
    StepsFive(y, [ls[0]], ls[1..]);
  }

  lemma NotMine(y: Sys, w: nat)
    requires SysInv(y) && w in y.workers && y.workers[w].Holding?
    requires y.workers[w].request.id in y.store.invocations
    requires y.store.invocations[y.workers[w].request.id].status == Accepted
    requires Attempt(y.store.invocations[y.workers[w].request.id]) == Attempt(y.workers[w].request)
    ensures var r := y.workers[w].request;
            y.workers[w].claim != Attempt(r) && r.ref != Empty && y.store.invocations[r.id].turn == r.turn &&
            y.store.invocations[r.id].executionClass == Application
  {
    hide Inv, Elected, EntryOk;
    assert PcOk(y.store, y.workers[w]);
  }

  lemma StoredValid(y: Sys, id: Id)
    requires SysInv(y) && id in y.store.invocations
    ensures y.store.invocations[id].id == id && ValidInvocation(y.store.invocations[id])
  {
    hide LedgerInv, LedgerIndexed, RefsAgree, OneRoot, Elected, EntryOk, PcOk;
  }

  lemma EnterStep(y: Sys, w: nat)
    requires w in y.workers && y.workers[w].Holding?
    ensures Next(y, Enter(w, true)) ==
            Sys(y.store, y.workers - {w}, y.entries + [Entry(y.workers[w].claim, Attempt(y.workers[w].request))])
  {
    hide Legal, Commit, Unclaims, UpdateInvocation;
  }

  lemma ClaimStep(y: Sys, k: nat, r: Invocation)
    requires k in y.workers && y.workers[k] == Ready(r) && r.id in y.store.invocations && y.store.invocations[r.id] == r
    requires Claimable(r) && r.ref != Empty && ValidInvocation(r) && !ActiveFence(LedgerOf(y.store, r.turn))
    ensures var v := r.(status := Running, revision := r.revision + 1);
            Next(y, Claim(k)) == Sys(Commit(y.store, PutUpdated(v)), y.workers[k := Claimed(Attempt(r))], y.entries)
  {
    hide Legal, Commit, Unclaims, ActiveFence, Pending;
    var v := r.(status := Running, revision := r.revision + 1);
    assert UpdateInvocation(y.store, r.(status := Running), r.revision) == Ok(v);
  }

  lemma ClaimantEnters(y: Sys, k: nat, r: Invocation)
    requires k !in y.workers && r.id in y.store.invocations && y.store.invocations[r.id] == r
    requires Claimable(r) && r.ref != Empty && ValidInvocation(r) && !ActiveFence(LedgerOf(y.store, r.turn))
    ensures Next(Next(Next(Next(Next(y, Load(k, r.id)), Prepare(k, true)), Claim(k)), Reread(k)), Enter(k, true)).entries
            == y.entries + [Entry(Attempt(r), Attempt(r))]
  {
    hide Legal, Unclaims, UpdateInvocation, ActiveFence, ValidInvocation;
    var v := r.(status := Running, revision := r.revision + 1);
    var y1 := Next(y, Load(k, r.id));
    var y2 := Next(y1, Prepare(k, true));
    assert y2.workers[k] == Ready(r) && y2.store == y.store && y2.entries == y.entries;
    ClaimStep(y2, k, r);
    var y3 := Next(y2, Claim(k));
    var y4 := Next(y3, Reread(k));
    assert y4.workers[k] == Holding(Attempt(r), v);
    EnterStep(y4, k);
  }

  lemma StepsFive(y: Sys, labels: seq<Label>, ls: seq<Label>)
    requires |ls| == 5
    ensures Steps(y, labels + ls) == Next(Next(Next(Next(Next(Steps(y, labels), ls[0]), ls[1]), ls[2]), ls[3]), ls[4])
  {
    hide Next, Steps;
    assert labels + ls == labels + [ls[0]] + [ls[1]] + [ls[2]] + [ls[3]] + [ls[4]];
    StepsSnoc(y, labels, ls[0]);
    StepsSnoc(y, labels + [ls[0]], ls[1]);
    StepsSnoc(y, labels + [ls[0]] + [ls[1]], ls[2]);
    StepsSnoc(y, labels + [ls[0]] + [ls[1]] + [ls[2]], ls[3]);
    StepsSnoc(y, labels + [ls[0]] + [ls[1]] + [ls[2]] + [ls[3]], ls[4]);
  }

  // ---------------------------------------------------------------- a stale hold is reachable

  const WAITING := ROOT.(status := WaitingInput, revision := 3)
  const CANCELLED := ROOT.(status := Cancelled, revision := 4)
  const RETRIED := Rotated(CANCELLED, Name("run2"))
  const CLOSED := TURN.(status := Cancelled, revision := 2)

  function ClaimRun(): seq<Label> {
    [Env(PutTurn(TURN)), Env(PutFresh(ROOT)), Load(0, ROOT.id), Prepare(0, true), Claim(0)]
  }

  function RetryRun(): seq<Label> {
    [Env(PutUpdated(WAITING)), Env(PutUpdated(CANCELLED)), Env(PutTurn(CLOSED)), Env(PutRotated(RETRIED)), Reread(0)]
  }

  lemma UpdateAlone(t: Turn, v: Invocation, n: Invocation, y: Sys)
    requires y.store == Alone(t, v) && ValidInvocation(n) && SameInvocation(v, n) && v.ref == n.ref
    requires n.revision == v.revision + 1 && !Terminal(v.status) && n.status != Accepted
    ensures Next(y, Env(PutUpdated(n))) == y.(store := Alone(t, n))
  {
    QuietLedger(y.store, n.turn, n.id);
    hide ActiveFence, Pending, LedgerOf;
    assert y.store.invocations[n.id := n] == Alone(t, n).invocations;
  }

  lemma TurnAlone(t: Turn, n: Turn, v: Invocation, y: Sys)
    requires y.store == Alone(t, v) && ValidTurn(n) && SameTurn(t, n) && n.revision == t.revision + 1
    ensures Next(y, Env(PutTurn(n))) == y.(store := Alone(n, v))
  {
    assert y.store.turns[n.id := n] == Alone(n, v).turns;
  }

  lemma RotateAlone(t: Turn, v: Invocation, next: Id, y: Sys)
    requires y.store == Alone(t, v) && v.turn == t.id && v.parent == Empty && v.executionClass == Application
    requires Retryable(v.status) && v.input != NoInput && Terminal(t.status) && next != Empty && next != v.ref
    ensures Next(y, Env(PutRotated(Rotated(v, next)))) == y.(store := Alone(Reopened(t), Rotated(v, next)))
  {
    QuietLedger(y.store, v.turn, Empty);
    hide ActiveFence, Pending, LedgerOf;
    var s, n := y.store, Rotated(v, next);
    assert Children(s, v) == {};
    assert s.invocations[v.id := n] == Alone(t, n).invocations;
    assert (s.refs - {v.ref})[next := v.id] == Alone(t, n).refs;
    assert s.turns[v.turn := Reopened(t)] == Alone(Reopened(t), n).turns;
  }

  lemma FirstClaim()
    ensures Steps(START, ClaimRun()) ==
            Sys(Alone(TURN, ROOT.(status := Running, revision := 2)), map[0 := Claimed(Attempt(ROOT))], [])
  {
    hide Next;
    assert [] + ClaimRun() == ClaimRun();
    StepsFive(START, [], ClaimRun());
    FirstCreate();
    FirstRead();
    FirstCas();
  }

  lemma FirstCas()
    ensures Next(Sys(Alone(TURN, ROOT), map[0 := Ready(ROOT)], []), Claim(0)) ==
            Sys(Alone(TURN, ROOT.(status := Running, revision := 2)), map[0 := Claimed(Attempt(ROOT))], [])
  {
    hide Next, ActiveFence, Pending;
    var y := Sys(Alone(TURN, ROOT), map[0 := Ready(ROOT)], []);
    QuietLedger(y.store, ROOT.turn, Empty);
    ClaimStep(y, 0, ROOT);
    assert Commit(y.store, PutUpdated(ROOT.(status := Running, revision := 2))) ==
           Alone(TURN, ROOT.(status := Running, revision := 2));
  }

  lemma FirstCreate()
    ensures Next(Next(START, Env(PutTurn(TURN))), Env(PutFresh(ROOT))) == Sys(Alone(TURN, ROOT), map[], [])
  {
    var s1 := State(map[TURN.id := TURN], map[], map[], map[], map[], map[]);
    assert Next(START, Env(PutTurn(TURN))) == Sys(s1, map[], []);
    QuietLedger(s1, ROOT.turn, Empty);
    hide ActiveFence, LedgerOf;
    assert Legal(s1, PutFresh(ROOT));
    assert Commit(s1, PutFresh(ROOT)) == Alone(TURN, ROOT);
  }

  lemma FirstRead()
    ensures Next(Next(Sys(Alone(TURN, ROOT), map[], []), Load(0, ROOT.id)), Prepare(0, true)) ==
            Sys(Alone(TURN, ROOT), map[0 := Ready(ROOT)], [])
  {
    hide Legal, Commit, Unclaims, UpdateInvocation;
  }

  /** Counterexample to one entry per requested Attempt. A worker claims Attempt 1; the Invocation then
      waits for input, is cancelled and retried; and the worker's second read hands it Attempt 2, which
      is still open to be claimed by somebody else. */
  lemma StaleHoldReachable()
    ensures var y := Steps(START, ClaimRun() + RetryRun());
            && y.workers == map[0 := Holding(Attempt(ROOT), RETRIED)] && Claimable(RETRIED) && RETRIED.ref != Empty
            && RETRIED.id in y.store.invocations && y.store.invocations[RETRIED.id] == RETRIED
            && !ActiveFence(LedgerOf(y.store, RETRIED.turn)) && RETRIED.attempt == ROOT.attempt + 1
  {
    hide Next, Steps, ActiveFence;
    StepsFive(START, ClaimRun(), RetryRun());
    FirstClaim();
    RetryAlone(Steps(START, ClaimRun()));
    QuietLedger(Alone(Reopened(CLOSED), RETRIED), RETRIED.turn, Empty);
    LastRead(Sys(Alone(Reopened(CLOSED), RETRIED), map[0 := Claimed(Attempt(ROOT))], []));
  }

  lemma RetryAlone(y: Sys)
    requires y.store == Alone(TURN, ROOT.(status := Running, revision := 2))
    ensures var ls := RetryRun();
            Next(Next(Next(Next(y, ls[0]), ls[1]), ls[2]), ls[3]) == y.(store := Alone(Reopened(CLOSED), RETRIED))
  {
    hide Next, Alone;
    UpdateAlone(TURN, ROOT.(status := Running, revision := 2), WAITING, y);
    UpdateAlone(TURN, WAITING, CANCELLED, y.(store := Alone(TURN, WAITING)));
    TurnAlone(TURN, CLOSED, CANCELLED, y.(store := Alone(TURN, CANCELLED)));
    RotateAlone(CLOSED, CANCELLED, Name("run2"), y.(store := Alone(CLOSED, CANCELLED)));
  }

  lemma LastRead(y: Sys)
    requires y == Sys(Alone(Reopened(CLOSED), RETRIED), map[0 := Claimed(Attempt(ROOT))], [])
    ensures Next(y, Reread(0)) == y.(workers := map[0 := Holding(Attempt(ROOT), RETRIED)])
  {
    hide Legal, Commit, Unclaims, UpdateInvocation;
  }

  // ---------------------------------------------------------------- what each step needs

  /** Where a worker's position comes from. It saw a stored, unclaimed Application; it got ready when its parents
      were live and the stored record was unclaimed and had not moved since; it claimed by moving exactly that
      record to Running; it holds whatever record was stored when it read again. */
  lemma WorkerSteps(y: Sys, l: Label, w: nat)
    requires SysInv(y) && w in Next(y, l).workers && !(w in y.workers && y.workers[w] == Next(y, l).workers[w])
    ensures match Next(y, l).workers[w]
            case Seen(v) =>
              && l == Load(w, v.id) && w !in y.workers && v.id in y.store.invocations && y.store.invocations[v.id] == v
              && v.executionClass == Application && v.status == Accepted
            case Ready(v) =>
              && l == Prepare(w, true) && w in y.workers && y.workers[w].Seen? && v.id in y.store.invocations
              && y.store.invocations[v.id] == v && v.id == y.workers[w].inv.id && v.revision == y.workers[w].inv.revision
              && v.ref == y.workers[w].inv.ref && v.status == Accepted
            case Claimed(b) =>
              && l == Claim(w) && w in y.workers && y.workers[w].Ready? && b == Attempt(y.workers[w].inv)
              && b.invocation in y.store.invocations && y.store.invocations[b.invocation] == y.workers[w].inv
              && b.invocation in Next(y, l).store.invocations
              && Next(y, l).store.invocations[b.invocation] ==
                 y.workers[w].inv.(status := Running, revision := y.workers[w].inv.revision + 1)
            case Holding(b, v) =>
              && l == Reread(w) && w in y.workers && y.workers[w] == Claimed(b)
              && b.invocation in y.store.invocations && y.store.invocations[b.invocation] == v
  {
    hide SysInv, Legal, Unclaims, UpdateInvocation, Inv;
    if w in y.workers { ReadyOk(y, w); }
    if l.Load? && l.id in y.store.invocations { StoredValid(y, l.id); }
    if l.Prepare? && l.w in y.workers && y.workers[l.w].Seen? && y.workers[l.w].inv.id in y.store.invocations {
      StoredValid(y, y.workers[l.w].inv.id);
    }
    if l.Claim? && l.w in y.workers && y.workers[l.w].Ready? {
      var v := y.workers[l.w].inv;
      ReadyOk(y, l.w);
      if UpdateInvocation(y.store, v.(status := Running), v.revision).Ok? {
        ClaimLegal(y.store, v);
        ClaimStored(y.store, v);
      }
    }
  }

  lemma ClaimStored(s: State, v: Invocation)
    requires UpdateInvocation(s, v.(status := Running), v.revision).Ok?
    ensures UpdateInvocation(s, v.(status := Running), v.revision).value == v.(status := Running, revision := v.revision + 1)
  {
    hide ActiveFence, Pending;
  }

  /** The executor is entered only by a worker that holds a request and whose parents are live at the end; its
      request is what the worker holds. */
  lemma EntrySteps(y: Sys, l: Label)
    ensures Next(y, l).entries == y.entries ||
            (&& l.Enter? && l.live && l.w in y.workers && y.workers[l.w].Holding? && l.w !in Next(y, l).workers
             && Next(y, l).entries == y.entries + [Entry(y.workers[l.w].claim, Attempt(y.workers[l.w].request))])
  {
    hide Legal, Commit, Unclaims, UpdateInvocation;
  }

  /** The one foreign write that is excluded, said of the records. */
  lemma UnclaimsMeans(s: State, write: Write)
    ensures Unclaims(s, write) <==>
              exists v, was :: && write == PutUpdated(v) && v.executionClass == Application && v.status == Accepted
                               && v.id in s.invocations && s.invocations[v.id] == was && was.status != Accepted
  {
    if Unclaims(s, write) { assert write == PutUpdated(write.invocation); }
  }
}
