/**
 The Harness Store as one mutex-protected state machine. Each operation is a total function from a
 state and a request to a reply; `Step` commits one request, and a script of requests
 stands for any interleaving of any number of callers, crashed or not. A reply says what was written;
 a refusal writes nothing.
 */
module Admission {
  import opened Records
  import opened Ledger
  import opened RetryFence

  datatype State = State(
    turns: map<Id, Turn>, invocations: map<Id, Invocation>, refs: map<Id, Id>,
    interactions: map<Id, Interaction>, items: map<Id, seq<Item>>, itemIds: map<Id, Item>)

  const INITIAL := State(map[], map[], map[], map[], map[], map[])

  function LedgerOf(s: State, turn: Id): seq<Item> {
    if turn in s.items then s.items[turn] else []
  }

  // ---------------------------------------------------------------- Turns

  predicate ValidTurn(v: Turn) {
    v.id != Empty && v.session != Empty && v.revision > 0
  }

  predicate SameTurn(l: Turn, r: Turn) {
    l.id == r.id && l.session == r.session && l.origin == r.origin
  }

  /** The reply carries the stored record and whether it is fresh. */
  function CreateTurn(s: State, v: Turn): Outcome<(Turn, bool)> {
    if !ValidTurn(v) then Err(InvalidRequest)
    else if v.id !in s.turns then Ok((v, true))
    else if SameTurn(s.turns[v.id], v) then Ok((s.turns[v.id], false))
    else Err(Conflict)
  }

  function UpdateTurn(s: State, v: Turn, expected: nat): Outcome<Turn> {
    if !ValidTurn(v) || expected == 0 then Err(InvalidRequest)
    else if v.id !in s.turns then Err(NotFound)
    else if s.turns[v.id].revision != expected || !SameTurn(s.turns[v.id], v) then Err(Conflict)
    else Ok(v.(revision := expected + 1))
  }

  // ---------------------------------------------------------------- Invocations

  predicate ValidInvocation(v: Invocation) {
    && v.id != Empty && v.turn != Empty && v.capability != Empty && v.attempt > 0 && v.revision > 0
    && (v.ref == Empty ==> v.status == Accepted)
    && (if v.input == NoInput
        then v.inputHash == NoDigest && !(v.parent != Empty && v.executionClass == Agent && v.capability == CapabilityAgent)
        else v.inputHash == Sha256(v.input))
  }

  /** Everything that is frozen within one Attempt, and everything but the Attempt across Retries. */
  predicate SameInvocation(l: Invocation, r: Invocation) {
    l.(ref := r.ref, status := r.status, revision := r.revision) == r
  }

  predicate OtherRoot(s: State, v: Invocation) {
    exists id :: id in s.invocations && id != v.id &&
                 s.invocations[id].turn == v.turn && s.invocations[id].parent == Empty
  }

  predicate RefTaken(s: State, ref: Id, owner: Id) {
    ref in s.refs && s.refs[ref] != Empty && s.refs[ref] != owner
  }

  function CreateInvocation(s: State, v: Invocation): Outcome<(Invocation, bool)> {
    if !ValidInvocation(v) then Err(InvalidRequest)
    else if v.id !in s.invocations && ActiveFence(LedgerOf(s, v.turn)) then Err(Conflict)
    else if v.parent == Empty && OtherRoot(s, v) then Err(Conflict)
    else if v.id in s.invocations then
      if SameInvocation(s.invocations[v.id], v) then Ok((s.invocations[v.id], false)) else Err(Conflict)
    else if v.ref != Empty && RefTaken(s, v.ref, v.id) then Err(Conflict)
    else Ok((v, true))
  }

  predicate UpdateAdmitted(s: State, current: Invocation, v: Invocation, expected: nat) {
    && current.revision == expected && SameInvocation(current, v) && current.ref == v.ref
    && (Terminal(current.status) ==> v.status == current.status)
    && (current.status != Running && v.status == Running ==> !ActiveFence(LedgerOf(s, v.turn)))
    && (v.status == Failed ==> !Pending(LedgerOf(s, v.turn), v.id))
  }

  function UpdateInvocation(s: State, v: Invocation, expected: nat): Outcome<Invocation> {
    if !ValidInvocation(v) || expected == 0 then Err(InvalidRequest)
    else if v.id !in s.invocations then Err(NotFound)
    else if !UpdateAdmitted(s, s.invocations[v.id], v, expected) then Err(Conflict)
    else Ok(v.(revision := expected + 1))
  }

  function Children(s: State, v: Invocation): set<Invocation> {
    set id | id in s.invocations && s.invocations[id].turn == v.turn &&
             s.invocations[id].parent != Empty && s.invocations[id].id != v.id :: s.invocations[id]
  }

  predicate RetryAdmitted(s: State, current: Invocation, expected: nat, next: Id) {
    var items := LedgerOf(s, current.turn);
    && current.revision == expected && Retryable(current.status) && current.input != NoInput
    && !ActiveFence(items) && !Pending(items, Empty)
    && RetryPermitted(Children(s, current), items, current)
    && (current.parent == Empty ==> current.turn in s.turns && Terminal(s.turns[current.turn].status))
    && !RefTaken(s, next, current.id)
  }

  function Rotated(v: Invocation, next: Id): Invocation {
    v.(attempt := v.attempt + 1, ref := next, status := Accepted, revision := v.revision + 1)
  }

  function Reopened(t: Turn): Turn {
    t.(status := Running, revision := t.revision + 1)
  }

  /** A refusal carries no error here: which of several blocking children is reported depends on
      the order in which they are enumerated. */
  function RetryInvocation(s: State, id: Id, expected: nat, next: Id): Option<Invocation> {
    if id == Empty || expected == 0 || next == Empty || id !in s.invocations then None
    else if !RetryAdmitted(s, s.invocations[id], expected, next) then None
    else Some(Rotated(s.invocations[id], next))
  }

  // ---------------------------------------------------------------- Interactions

  predicate ValidInteraction(v: Interaction) {
    v.id != Empty && v.turn != Empty && v.invocation != Empty && v.key != Empty && v.revision > 0
  }

  predicate SameInteraction(l: Interaction, r: Interaction) {
    l.(resolved := r.resolved, response := r.response, revision := r.revision) == r
  }

  predicate OwnersCanWait(turn: Turn, v: Invocation) {
    && v.turn == turn.id
    && (|| (turn.status == Running && (v.status == Accepted || v.status == Running))
        || (turn.status == WaitingInput && v.status == WaitingInput)
        || ((turn.status == Accepted || turn.status == Running) && v.status == WaitingInput && v.parent != Empty))
  }

  predicate HasWaiting(s: State, turn: Id) {
    exists id :: id in s.interactions && s.interactions[id].turn == turn && !s.interactions[id].resolved
  }

  function CreateInteraction(s: State, v: Interaction, turnRevision: nat, invocationRevision: nat)
    : Outcome<(Interaction, bool)>
  {
    if !ValidInteraction(v) || turnRevision == 0 || invocationRevision == 0 then Err(InvalidRequest)
    else if v.id in s.interactions then
      if SameInteraction(s.interactions[v.id], v) then Ok((s.interactions[v.id], false)) else Err(Conflict)
    else if ActiveFence(LedgerOf(s, v.turn)) then Err(Conflict)
    else if v.turn !in s.turns || v.invocation !in s.invocations then Err(Conflict)
    else if || s.turns[v.turn].revision != turnRevision
            || s.invocations[v.invocation].revision != invocationRevision
            || !OwnersCanWait(s.turns[v.turn], s.invocations[v.invocation])
            || HasWaiting(s, v.turn) then Err(Conflict)
    else Ok((v, true))
  }

  predicate CanResolve(s: State, v: Interaction, expected: nat) {
    && v.id in s.interactions && v.turn in s.turns && v.invocation in s.invocations
    && s.interactions[v.id].revision == expected && !s.interactions[v.id].resolved
    && SameInteraction(s.interactions[v.id], v)
    && s.turns[v.turn].status == WaitingInput
    && s.invocations[v.invocation].turn == v.turn && s.invocations[v.invocation].status == WaitingInput
    && !ActiveFence(LedgerOf(s, v.turn))
  }

  function ResolveInteraction(s: State, v: Interaction, expected: nat): Outcome<Interaction> {
    if !ValidInteraction(v) || expected == 0 || !v.resolved || v.response == "" then Err(InvalidRequest)
    else if !CanResolve(s, v, expected) then Err(Conflict)
    else Ok(v.(revision := expected + 1))
  }

  // ---------------------------------------------------------------- Items

  predicate ValidItem(v: Item) {
    v.id != Empty && v.turn != Empty
  }

  /** Replay identity: every modelled field but the assigned sequence number. */
  predicate SameItem(l: Item, r: Item) {
    l.(seqNo := r.seqNo) == r
  }

  predicate AdmitsGrant(s: State, v: Item) {
    && v.turn in s.turns && !Terminal(s.turns[v.turn].status)
    && v.invocation in s.invocations && s.invocations[v.invocation].turn == v.turn
    && s.invocations[v.invocation].ref == v.run && !Terminal(s.invocations[v.invocation].status)
    && !ActiveFence(LedgerOf(s, v.turn)) && !Pending(LedgerOf(s, v.turn), v.invocation)
  }

  /** A child of a grant is admitted only as that grant's first and only verified receipt. */
  predicate AdmitsChild(s: State, v: Item) {
    v.parent in s.itemIds && IsGrant(s.itemIds[v.parent]) ==>
      var g := s.itemIds[v.parent];
      && WellFormedGrant(g) && ClaimsId(v, g.id) && ReceiptMatches(g, v)
      && forall p :: p in LedgerOf(s, g.turn) ==> !ClaimsId(p, g.id)
  }

  function Numbered(s: State, v: Item): Item {
    v.(seqNo := |LedgerOf(s, v.turn)| + 1)
  }

  predicate Admits(s: State, v: Item) {
    && (IsFence(v) ==> !ActiveFence(LedgerOf(s, v.turn)))
    && (IsGrant(v) ==> AdmitsGrant(s, v))
    && AdmitsChild(s, Numbered(s, v))
  }

  function AppendItem(s: State, v: Item): Outcome<(Item, bool)> {
    if !ValidItem(v) then Err(InvalidRequest)
    else if v.id in s.itemIds then
      if SameItem(s.itemIds[v.id], v) then Ok((s.itemIds[v.id], false)) else Err(Conflict)
    else if !Admits(s, v) then Err(Conflict)
    else Ok((Numbered(s, v), true))
  }

  // ---------------------------------------------------------------- scripts

  datatype Op =
    | DoCreateTurn(turn: Turn)
    | DoUpdateTurn(turn: Turn, expected: nat)
    | DoCreate(invocation: Invocation)
    | DoUpdate(invocation: Invocation, expected: nat)
    | DoRetry(id: Id, expected: nat, next: Id)
    | DoWait(interaction: Interaction, turnRevision: nat, invocationRevision: nat)
    | DoResolve(interaction: Interaction, expected: nat)
    | DoAppend(item: Item)

  /** What a granted request commits; a refusal or a replay commits nothing. */
  datatype Write =
    | NoWrite
    | PutTurn(turn: Turn)
    | PutFresh(invocation: Invocation)
    | PutUpdated(invocation: Invocation)
    | PutRotated(invocation: Invocation)
    | PutInteraction(interaction: Interaction)
    | PutItem(item: Item)

  function Decide(s: State, op: Op): Write {
    match op
    case DoCreateTurn(t) => (match CreateTurn(s, t) case Ok((v, true)) => PutTurn(v) case _ => NoWrite)
    case DoUpdateTurn(t, r) => (match UpdateTurn(s, t, r) case Ok(v) => PutTurn(v) case _ => NoWrite)
    case DoCreate(i) => (match CreateInvocation(s, i) case Ok((v, true)) => PutFresh(v) case _ => NoWrite)
    case DoUpdate(i, r) => (match UpdateInvocation(s, i, r) case Ok(v) => PutUpdated(v) case _ => NoWrite)
    case DoRetry(id, r, next) =>
      (match RetryInvocation(s, id, r, next) case Some(v) => PutRotated(v) case None => NoWrite)
    case DoWait(i, t, r) => (match CreateInteraction(s, i, t, r) case Ok((v, true)) => PutInteraction(v) case _ => NoWrite)
    case DoResolve(i, r) => (match ResolveInteraction(s, i, r) case Ok(v) => PutInteraction(v) case _ => NoWrite)
    case DoAppend(i) => (match AppendItem(s, i) case Ok((v, true)) => PutItem(v) case _ => NoWrite)
  }

  function Commit(s: State, w: Write): State {
    match w
    case NoWrite => s
    case PutTurn(v) => s.(turns := s.turns[v.id := v])
    case PutFresh(v) =>
      s.(invocations := s.invocations[v.id := v], refs := if v.ref != Empty then s.refs[v.ref := v.id] else s.refs)
    case PutUpdated(v) => s.(invocations := s.invocations[v.id := v])
    case PutRotated(v) =>
      if v.id !in s.invocations then s else
      s.(invocations := s.invocations[v.id := v],
         refs := (s.refs - {s.invocations[v.id].ref})[v.ref := v.id],
         turns := if v.parent == Empty && v.turn in s.turns
                  then s.turns[v.turn := Reopened(s.turns[v.turn])] else s.turns)
    case PutInteraction(v) => s.(interactions := s.interactions[v.id := v])
    case PutItem(v) =>
      s.(items := s.items[v.turn := LedgerOf(s, v.turn) + [v]], itemIds := s.itemIds[v.id := v])
  }

  function Step(s: State, op: Op): State {
    Commit(s, Decide(s, op))
  }

  /** The state after a script; the last request of the script is applied last. */
  function Run(s: State, script: seq<Op>): State {
    if script == [] then s else Step(Run(s, script[..|script| - 1]), script[|script| - 1])
  }

  // ---------------------------------------------------------------- the transition relation

  predicate Updates(s: State, was: Invocation, v: Invocation) {
    && ValidInvocation(v) && SameInvocation(was, v) && was.ref == v.ref && v.revision == was.revision + 1
    && (Terminal(was.status) ==> v.status == was.status)
    && (was.status != Running && v.status == Running ==> !ActiveFence(LedgerOf(s, v.turn)))
    && (v.status == Failed ==> !Pending(LedgerOf(s, v.turn), v.id))
  }

  predicate Resolves(was: Interaction, v: Interaction) {
    SameInteraction(was, v) && !was.resolved && v.resolved && v.revision == was.revision + 1
  }

  /** The writes that some request can commit in `s`. */
  predicate Legal(s: State, w: Write) {
    match w
    case NoWrite => true
    case PutTurn(v) =>
      ValidTurn(v) && (v.id in s.turns ==> SameTurn(s.turns[v.id], v) && v.revision == s.turns[v.id].revision + 1)
    case PutFresh(v) =>
      && ValidInvocation(v) && v.id !in s.invocations && !ActiveFence(LedgerOf(s, v.turn))
      && (v.parent == Empty ==> !OtherRoot(s, v)) && (v.ref != Empty ==> !RefTaken(s, v.ref, v.id))
    case PutUpdated(v) => v.id in s.invocations && Updates(s, s.invocations[v.id], v)
    case PutRotated(v) =>
      && v.id in s.invocations && v.ref != Empty && v == Rotated(s.invocations[v.id], v.ref)
      && RetryAdmitted(s, s.invocations[v.id], s.invocations[v.id].revision, v.ref)
    case PutInteraction(v) =>
      && ValidInteraction(v) && !ActiveFence(LedgerOf(s, v.turn))
      && (v.id in s.interactions ==> Resolves(s.interactions[v.id], v))
    case PutItem(v) => ValidItem(v) && v.id !in s.itemIds && v == Numbered(s, v) && Admits(s, v)
  }
}
