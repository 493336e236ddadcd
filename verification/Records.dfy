/**
 The durable records of the Harness: Turns, Invocations, Interactions and Items, and the identities
 that tie them together. Identities are opaque and trimmed; a derived identity is a free constructor,
 so two derivations collide only when they were derived from the same parts.
 */
module Records {

  datatype Option<+T> = None | Some(value: T)

  datatype Error = InvalidRequest | NotFound | Conflict | ApplicationOutcomeUnknown

  datatype Outcome<+T> = Ok(value: T) | Err(error: Error)

  /** What a derived identity stands for; each constructor is one prefix of `stableID`. */
  datatype Prefix =
    | HDispatch | HDispatchDone | HInteractionItem | HBizVerified | HContClaim | HInvocation

  /** The two reserved parents mark dispatch grants and cancellation fences in the Item ledger. */
  datatype Id =
    | Empty
    | CancellationFenceParent
    | ExecutionDispatchParent
    | CapabilityAgent
    | Name(text: string)
    | Stable(prefix: Prefix, parts: seq<Id>)

  datatype ExecutionClass = Agent | Team | GroupChat | Workflow | Application

  /** Turns and Invocations share one lifecycle vocabulary. */
  datatype Status = Accepted | Running | WaitingInput | PausedBudget | Completed | Failed | Cancelled

  predicate Terminal(status: Status) {
    status == Completed || status == Failed || status == Cancelled
  }

  /** The three final statuses, listed. */
  const FINAL := {Completed, Failed, Cancelled}

  predicate Retryable(status: Status) {
    status == Failed || status == Cancelled
  }

  /** One Attempt of one Invocation: the unit of physical execution authority. */
  datatype Binding = Binding(invocation: Id, ref: Id, attempt: nat)

  predicate ValidBinding(b: Binding) {
    b.invocation != Empty && b.ref != Empty && b.attempt > 0
  }

  /** The root Attempt and every non-root ancestor Attempt that a child was admitted under. */
  datatype RootBinding = RootBinding(root: Binding, parents: seq<Binding>)

  datatype Key = HarnessRoot | DelegationId | MemberId | ChildRunId | Goal | OtherKey(name: string)

  datatype Field = Raw(text: string) | Proof(proof: RootBinding)

  datatype Input = NoInput | Scalar(text: string) | Object(fields: map<Key, Field>)

  /** The content hash of an Input. */
  datatype Digest = NoDigest | Sha256(of: Input)

  datatype Invocation = Invocation(
    id: Id, turn: Id, parent: Id, capability: Id, definition: string, executionClass: ExecutionClass,
    input: Input, inputHash: Digest, ref: Id, status: Status, attempt: nat, revision: nat)

  function Attempt(v: Invocation): Binding {
    Binding(v.id, v.ref, v.attempt)
  }

  datatype Turn = Turn(id: Id, session: Id, origin: Id, status: Status, revision: nat)

  datatype Interaction = Interaction(
    id: Id, turn: Id, invocation: Id, parent: Id, key: Id, contract: string,
    resolved: bool, response: string, revision: nat)

  datatype ItemKind = Diagnostic | OtherKind(name: string)

  datatype ItemStatus = ItemStarted | ItemWaiting | ItemCompleted | ItemFailed | ItemCancelled

  datatype Boundary =
    | PhysicalDispatchRejected | FeatureStartNoEffect | NativeAgentStartNoEffect
    | NativeAgentControlNoEffect | PhysicalDispatchReturned | HandoffStartReturned
    | NativeKernelEpochRecovered | HostResponseVerified | OtherBoundary(text: string)

  /** A JSON payload: the fields the protocol reads, or a document that does not decode into them. */
  datatype Payload =
    | Undecodable(text: string)
    | Document(boundary: Boundary, phase: string, physicalRun: Id, interaction: Id)

  datatype Item = Item(
    id: Id, turn: Id, seqNo: nat, kind: ItemKind, status: ItemStatus, hostRef: Id,
    run: Id, invocation: Id, parent: Id, payload: Payload)
}
