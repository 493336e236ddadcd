# Gaoge Agent Runtime: a verified model of admission and dispatch

This project models the parts of the Gaoge Agent Runtime whose guarantees only appear over whole runs, and
proves those guarantees in Dafny.

The centre is the Harness admission and physical-dispatch protocol. A Turn owns an append-only Item ledger and a
set of Invocations, each with an Attempt, an execution ref, a status and a revision. The Store is one
mutex-protected state machine; workers interleave Store calls with effects outside it (entering a Feature
executor, entering a Host callback, cancelling) and may crash between any two calls. Safety rests on guards that
live in different functions: a grant is written before the parents are checked, one verified receipt settles a
grant, a fence blocks admission in its Turn, Retry is refused while anything may still have an effect, and every
child's sealed Input freezes its ancestors' Attempts.

How the modules build on each other:

- `Records`, `Ledger`, `ChildRoot`, `RetryFence`: the records and the decisions read off a ledger or an Input;
  `LedgerMeaning` says of Items alone what the ledger decisions mean.
- `Admission`: every Store request as a function from state and request to reply, and scripts of requests, which
  stand for any interleaving of any callers. `StoreInvariant` and `StoreTheorems` prove what holds in every
  reachable state and along every script. `MemoryStore` is the Store object, proved against the same replies.
  `StoreGuards` says of the stored records exactly which requests are granted, what they change, and what the guards
  amount to over whole scripts.
- `Cancellation`, `CancellationScope`, `CancellationReach`: what stays quiet under an open fence, and which Runs and
  Invocations a cancellation reaches, as a fixpoint and as paths.
- `ItemChain`, `ParentCheck`, `Ancestry`, `AncestryTheorems`: walking Items, checking frozen ancestors, freezing
  ancestry.
- `Dispatch`, `DispatchTheorems`, `DispatchHistory`, `ApplicationProtocol`, `RepeatedEntry`, `InteractionProtocol`,
  `InteractionTheorems`: workers as small steps over the Store, with other callers' legal writes in between. Three
  foreign writes are excluded because the modelled Runner never issues them: in `Dispatch` a receipt that neither the
  grant's own worker nor native recovery writes, in `Ancestry` a child admitted without freezing, and in
  `ApplicationProtocol` an Application written back to Accepted within its Attempt.
- `RetryQuery`, `CheckpointSearch`, `ContextLineage`: the relational Store's narrowed and chunked queries against
  the full decisions, and immutable checkpoint lineage.
- `Sets`, `Scene`: sizes of finite sets, and the small Stores in which counterexample runs are played.
- `Subscription`, `SubscriptionOrder`: Subscribe to Task, section 3.1.6 of the A2A v1.0 specification.
  `TerminalFeed`: the terminal event. `BaselineReport`, `ReportMeaning`: the report protocol of the baseline launcher,
  and what an accepted report says.

Modelling choices. Identities are opaque and trimmed, and a derived identity is a free constructor, so `stableID`
is injective. Hashes are uninterpreted. JSON documents are datatypes holding the fields the protocol reads, or an
undecodable document. Kernel answers about Runs, the relation index and the row order of a query are inputs or
arbitrary choices. Map enumeration order is arbitrary. Revisions, sequence numbers and Attempts are unbounded.

Three promises do not hold as stated, and each has its exact condition here:

- One executor entry per requested Application Attempt. The read after the claim is not tied to the claim
  (application_capability.go:240-247), so a worker that claimed one Attempt can carry a request for the next.
  Entry is unique per claimed Attempt (`EnteredOncePerClaim`), and requests are unique while they carry the claimed
  Attempt (`FreshRequestsDiffer`). A held request can repeat if and only if its Attempt has a second source
  (`HoldRepeatsIff`), and a run that repeats one exists (`RepeatReachable`).
- No callback entry after a committed cancellation. Claimants and cancellers keep it between them: a canceller goes on
  only over a waiting or unclaimed owner (interaction.go:672-683, application_capability.go:518-529), so a cancellation
  that commits never hits a won claim (`CancellationMissesClaims`), and no entry is late, however they race
  (`NoLateCallback`). Other status writers do not keep to that guard: reconciliation (interaction.go:929-935) and the
  Runtime projection (runner.go:1259-1284) overwrite a Running owner without asking whether its claim has been used.
  The promise holds over every run in which they do not, and after any such overwrite a late entry is possible
  (`OverwrittenClaimEntersLate`, `HandedBackClaimEntersLate`); a run from the empty Store ends in one
  (`LateCallbackReachable`).
- A report is re-accepted by its own reader. It holds if and only if the report never started or records a positive
  input ceiling (`ReportReplays`); `NoCeilingNotReplayed` shows a report that is refused.

A subscriber's stream is free of gaps in publish order. Commit and publish are two steps (host_task_store.go:131-150),
so publish order is version order only as long as no writer of the Task commits an update while another has yet to
publish (`SeenInOrder`); otherwise it can fail (`OverlapReorders`, `SeenOutOfOrder`, `EarlyTerminalDrops`).

The in-memory receipt index never lists children of the reserved dispatch parent; the relational query has no such
special case. `SelfClaim` shows that the two decide alike even for a grant stored under that reserved identity.

## Model

| member | source | states |
|---|---|---|
| `Ledger.VerifiedExecutionDispatchReceipt` | go/agent-runtime-harness/execution_dispatch.go:76-110 | A grant is settled by a list of facts exactly when it is well formed, exactly one of the facts claims it, and that one matches its Turn, owner, Run and order; the boundary returned is that claim's |
| `Ledger.ExecutionDispatchReceiptIndex` | go/agent-runtime-harness/execution_dispatch.go:60-74 | The index holds, per grant identity, every claim in ledger order, malformed ones included, and never children of the reserved dispatch parent |
| `Ledger.IndexedSettlement` | go/agent-runtime-harness/execution_dispatch.go:60-110 | Deciding from the index gives the same settlement as deciding from the whole ledger |
| `Ledger.IndexedOutcome` | go/agent-runtime-harness/execution_dispatch.go:112-127 | A lookup in the receipt index answers exactly the whole-ledger settlement of any grant |
| `Ledger.PendingExecutionDispatch` | go/agent-runtime-harness/execution_dispatch.go:112-127 | True exactly when some grant (of one owner, or of anyone) is unsettled |
| `Ledger.ActiveCancellationFence` | go/agent-runtime-harness/cancellation_intent.go:28-48 | True exactly when some fence Item has no completed child anywhere in the ledger, before or after it |
| `Ledger.FirstClaimSettles` | go/agent-runtime-harness/memory_store.go:798-812 | The first matching claim turns an unsettled grant into one settled by that claim's boundary |
| `Ledger.SettledHasOneReceipt` | go/agent-runtime-harness/execution_dispatch.go:76-110 | A settled grant has one matching receipt and no competing claim of any kind |
| `LedgerMeaning.FenceMeans` | go/agent-runtime-harness/cancellation_intent.go:28-48 | A fence is open exactly when a started diagnostic under the fence parent has no completed diagnostic child |
| `LedgerMeaning.FenceLifecycle` | go/agent-runtime-harness/cancellation_intent.go:28-48 | Appending a fence Item opens a fence until its completed child is appended |
| `LedgerMeaning.SettledMeans` | go/agent-runtime-harness/execution_dispatch.go:76-110 | A grant is settled by a boundary exactly when it is well formed and its only diagnostic child is its completed, later receipt, of the same Turn, owner and Run, carrying that boundary |
| `LedgerMeaning.OwedMeans` | go/agent-runtime-harness/execution_dispatch.go:112-127 | A grant is pending exactly when no Item settles it in that sense |
| `ChildRoot.DistinctAttempts` | go/agent-runtime-harness/child_root_binding.go:63-72 | Accepts exactly valid Attempts of pairwise distinct Invocations, none of them the root |
| `ChildRoot.SealChildRootInput` | go/agent-runtime-harness/child_root_binding.go:56-92 | Seals exactly the admissible inputs, with the new hash; every refusal is a conflict |
| `ChildRoot.FrozenChildRoot` | go/agent-runtime-harness/child_root_binding.go:94-122 | Returns the sealed proof exactly when the child's hashed Input carries a well-formed one |
| `ChildRoot.SealRoundTrip` | go/agent-runtime-harness/child_root_binding.go:56-122 | Unsealing a sealed Input returns the same root Attempt and parents, and all other fields are untouched |
| `ChildRoot.SealInjective` | go/agent-runtime-harness/child_root_binding.go:56-92 | Equal sealed Inputs come from equal inputs under equal Attempts |
| `ChildRoot.FrozenMeans` | go/agent-runtime-harness/child_root_binding.go:94-122 | A proof is read exactly from a child whose Input is an object, matches its hash and carries well-formed Attempts of pairwise different Invocations |
| `ChildRoot.SealableMeans` | go/agent-runtime-harness/child_root_binding.go:56-92 | Only a hashed object without a proof is sealed, under a parentless root that has not finished, and what is sealed is what is read back |
| `RetryFence.CompositeRunMayHaveDescendants` | go/agent-runtime-harness/retry_child_execution_fence.go:66-90 | True exactly for a composite with no grant at all or with a grant not settled as no-effect |
| `RetryFence.AcceptedChildPhysicalEffectPossible` | go/agent-runtime-harness/retry_child_execution_fence.go:92-104 | True exactly when a grant of the child is for another Run or not settled as rejected |
| `RetryFence.RetryChildEffectFence` | go/agent-runtime-harness/retry_child_execution_fence.go:20-64 | Permits a rotation exactly when the rotating Invocation and every child allow it, independent of listing order; the unknown-outcome error only for a Running Host callback |
| `MemoryStore.Store.constructor` | go/agent-runtime-harness/memory_store.go:448-457 | A new Store is empty and satisfies the object invariant |
| `MemoryStore.Store.FenceActive` | go/agent-runtime-harness/cancellation_intent.go:28-48 | The fence decision on one Turn's ledger |
| `MemoryStore.Store.DispatchPending` | go/agent-runtime-harness/execution_dispatch.go:112-127 | The pending-grant decision on one Turn's ledger |
| `MemoryStore.Store.CreateTurn` | go/agent-runtime-harness/memory_store.go:693-707 | Insert, replay or conflict, with the whole new state; the invariant is kept |
| `MemoryStore.Store.UpdateTurn` | go/agent-runtime-harness/memory_store.go:719-735 | Compare-and-set on the revision, with the whole new state; the invariant is kept |
| `MemoryStore.Store.HasOtherRoot` | go/agent-runtime-harness/memory_store.go:54-60 | Found exactly when another Invocation of the Turn has no parent, in whatever order the map is enumerated |
| `MemoryStore.Store.CreateInvocation` | go/agent-runtime-harness/memory_store.go:44-73 | Admission under fence, one-root and ref-index guards; a create refused after insertion rolls back to the old state |
| `MemoryStore.Store.GetInvocationByExecutionRefID` | go/agent-runtime-harness/memory_store.go:85-98 | The ref index's owner, or the exact error |
| `MemoryStore.Store.UpdateInvocation` | go/agent-runtime-harness/memory_store.go:100-135 | Compare-and-set with frozen identity, final terminal status, no new Running under a fence and no Failed under a pending grant |
| `MemoryStore.Store.ChildrenOf` | go/agent-runtime-harness/memory_store.go:167-172 | Exactly the other Invocations of the Turn that have a parent, for any enumeration order |
| `MemoryStore.Store.RefuseRetry` | go/agent-runtime-harness/memory_store.go:158-186 | Refuses exactly when some Retry guard fails |
| `MemoryStore.Store.RetryInvocation` | go/agent-runtime-harness/memory_store.go:137-207 | Rotates Attempt, execution ref, status, ref index and root Turn together, exactly when Retry is admitted; the invariant is kept |
| `MemoryStore.Store.CreateInteraction` | go/agent-runtime-harness/memory_store.go:222-248 | Suspends an owner only without a fence, at the expected revisions, with no other waiting Interaction |
| `MemoryStore.Store.ResolveInteraction` | go/agent-runtime-harness/memory_store.go:331-369 | Resolves only a waiting Interaction of waiting owners, once, without a fence |
| `MemoryStore.Store.AdmitsItem` | go/agent-runtime-harness/memory_store.go:778-812 | The append guards decide exactly the admission predicate for fences, grants and receipts |
| `MemoryStore.Store.AdmitsReceipt` | go/agent-runtime-harness/memory_store.go:798-812 | A child of a grant is admitted exactly as its first and matching receipt |
| `MemoryStore.Store.AppendItem` | go/agent-runtime-harness/memory_store.go:763-817 | Append with the next sequence number, replay or conflict, with the whole new state; the invariant is kept |
| `StoreInvariant.StepLegal` | go/agent-runtime-harness/memory_store.go:44-207 | Every request commits at most one legal write, whatever it asked for |
| `StoreInvariant.OutcomeCommit` | go/agent-runtime-harness/memory_store.go:798-812 | Under any legal write a grant's settlement changes only by its own first receipt, from none to that boundary |
| `StoreInvariant.InvocationCommit` | go/agent-runtime-harness/memory_store.go:100-207 | An Attempt moves only by a rotation, anything else about an Invocation only by an update, and Invocations never disappear |
| `StoreInvariant.RefsAgreeCommit` | go/agent-runtime-harness/memory_store.go:184-197 | Every write keeps the execution-ref index equal to a scan of all Invocations, including removal of the stale ref on Retry |
| `StoreInvariant.OneRootCommit` | go/agent-runtime-harness/memory_store.go:54-60 | Every write keeps at most one root Invocation per Turn |
| `StoreInvariant.OneFenceCommit` | go/agent-runtime-harness/memory_store.go:778-783 | Every write keeps at most one open cancellation fence per Turn |
| `StoreInvariant.OneGrantCommit` | go/agent-runtime-harness/memory_store.go:784-796 | Every write keeps at most one unsettled grant per Invocation |
| `StoreInvariant.PendingHolds` | go/agent-runtime-harness/memory_store.go:155-162 | While a grant is unsettled its owner is not marked Failed and no Attempt of its Turn rotates |
| `StoreInvariant.GrantsOwnedCommit` | go/agent-runtime-harness/memory_store.go:784-796 | Every write keeps each unsettled grant owned by an existing same-Turn Invocation with that exact execution ref, not Failed |
| `StoreInvariant.InvCommit` | go/agent-runtime-harness/memory_store.go:44-207 | Every legal write keeps the whole Store invariant |
| `StoreInvariant.Reachable` | go/agent-runtime-harness/memory_store.go:763-817 | Every state reachable by any script of requests satisfies the whole Store invariant |
| `StoreTheorems.OwnerRun` | go/agent-runtime-harness/memory_store.go:100-207 | Along every script identity and Input are immutable, Attempt and revision only grow, and within an Attempt the ref is fixed and a terminal status is final: one terminal outcome per Attempt |
| `StoreTheorems.RevisionSpentOnce` | go/agent-runtime-harness/memory_store.go:100-120 | Once a revision is superseded no later update or Retry conditioned on it commits, so a callback claim and a cancellation claim of one waiting revision never both win |
| `StoreTheorems.TerminalExcludesClaims` | go/agent-runtime-harness/memory_store.go:112-120 | After a committed terminal status every later claim of the same Attempt is refused, under every script |
| `StoreTheorems.LedgerRun` | go/agent-runtime-harness/memory_store.go:813-816 | Ledgers are append-only along every script |
| `StoreTheorems.SettledForever` | go/agent-runtime-harness/memory_store.go:798-812 | A settled grant stays settled by the same boundary under every later script |
| `StoreTheorems.UnsettledGrantFreezesTurn` | go/agent-runtime-harness/memory_store.go:155-162 | From a grant's admission until its settlement every Invocation of its Turn keeps its identity, execution ref and Attempt, under every script |
| `StoreTheorems.RotationEvidence` | go/agent-runtime-harness/memory_store.go:155-186 | At a Retry and ever after, every grant of the Turn is settled, and a composite's own grants were all settled as no-effect |
| `StoreTheorems.RetiredGrants` | go/agent-runtime-harness/retry_child_execution_fence.go:20-90 | In every reachable state a grant whose Run is not its owner's current ref has exactly one verified receipt, a no-effect one when the owner is composite |
| `StoreTheorems.ActiveChildBlocksRotation` | go/agent-runtime-harness/retry_child_execution_fence.go:28-33 | While a child is Running, waiting or paused no other Invocation of its Turn can rotate |
| `StoreTheorems.TopLevelInvocation` | go/agent-runtime-harness/invocation.go:198-205 | The first listed Invocation without a parent, or none if all have one |
| `StoreTheorems.RootLookupOrderFree` | go/agent-runtime-harness/invocation.go:121-131 | In every reachable state the root lookup is independent of listing order |
| `StoreGuards.TurnCreateExactly` | go/agent-runtime-harness/memory_store.go:693-707 | A Turn is stored once; the same identity is answered with the stored record, another is a conflict |
| `StoreGuards.TurnUpdateExactly` | go/agent-runtime-harness/memory_store.go:719-735 | A Turn update commits exactly when it is well formed, read the stored revision and keeps the identity |
| `StoreGuards.TurnRun` | go/agent-runtime-harness/memory_store.go:719-735 | Along every script a Turn keeps its identity and its revision only grows |
| `StoreGuards.TurnRevisionSpentOnce` | go/agent-runtime-harness/memory_store.go:728-730 | Once a Turn revision has been superseded no later update conditioned on it commits |
| `StoreGuards.CreateExactly` | go/agent-runtime-harness/memory_store.go:44-73 | A new Invocation is admitted exactly when it is well formed, its Turn has no open fence, no other Invocation of the Turn lacks a parent if it does, and its Run belongs to nobody else |
| `StoreGuards.ReplayExactly` | go/agent-runtime-harness/memory_store.go:62-65 | A repeated create is answered with the stored record exactly when everything frozen agrees |
| `StoreGuards.ValidMeans` | go/agent-runtime-harness/invocation.go:246-284 | What a stored Invocation must carry: identity, a Run unless it was never started, and the hash of its Input |
| `StoreGuards.UpdateExactly` | go/agent-runtime-harness/memory_store.go:100-135 | An update commits exactly when it read the stored revision, changes nothing but the status, leaves a final status alone, starts nothing under an open fence and fails nobody who is owed a receipt |
| `StoreGuards.GrantExactly` | go/agent-runtime-harness/memory_store.go:784-796 | A grant is admitted exactly when its Turn and owner are stored and not completed, failed or cancelled, the owner is at the Run it names, no fence is open and the owner is owed no receipt |
| `StoreGuards.GrantWasAdmitted` | go/agent-runtime-harness/memory_store.go:784-796 | Every grant in every reachable ledger was appended in such a state |
| `StoreGuards.NoGrantAfterFinal` | go/agent-runtime-harness/memory_store.go:784-796 | No grant of an Attempt is appended after that Attempt became final, under every script |
| `StoreGuards.FenceExactly` | go/agent-runtime-harness/memory_store.go:779-783 | A fence is admitted exactly when none is open in its Turn |
| `StoreGuards.ReceiptExactly` | go/agent-runtime-harness/memory_store.go:798-812 | A child of a grant is admitted exactly as its first child and its completed, matching receipt |
| `StoreGuards.PlainExactly` | go/agent-runtime-harness/memory_store.go:797-817 | Any other Item with a new identity is admitted, numbered by its place |
| `StoreGuards.ItemReplyExactly` | go/agent-runtime-harness/memory_store.go:763-777 | A stored Item is answered with the stored record if nothing but its number differs, and is a conflict otherwise |
| `StoreGuards.ChildMeans` | go/agent-runtime-harness/retry_child_execution_fence.go:34-60 | A child stands in nobody's way exactly when it is finished, and proven idle if it is a composite, or was never started and every grant of it was for its current Run and rejected |
| `StoreGuards.PermittedMeans` | go/agent-runtime-harness/retry_child_execution_fence.go:20-64 | For any listing of children a rotation is permitted exactly when a composite is proven idle and every other child is out of the way |
| `StoreGuards.RetryExactly` | go/agent-runtime-harness/memory_store.go:137-186 | A Retry is granted exactly for a failed or cancelled Invocation with an Input at the stored revision, without an open fence or an owed receipt in the Turn, with every other child out of the way, a root only in a finished Turn, under a Run that is nobody else's |
| `StoreGuards.RotationLeavesNoEffect` | go/agent-runtime-harness/retry_child_execution_fence.go:34-64 | At a Retry and ever after, each grant of a finished composite child of the Turn is settled as having had no effect, and each grant of a child that was not started is settled as rejected |
| `StoreGuards.UngrantedCompositeBlocks` | go/agent-runtime-harness/retry_child_execution_fence.go:66-90 | A finished composite child without any grant blocks every Retry in its Turn |
| `StoreGuards.WaitExactly` | go/agent-runtime-harness/memory_store.go:222-301 | A wait is admitted exactly without an open fence, for stored owners of one Turn at their stored revisions, in one of the pairs of statuses that may wait, and with nothing else waiting |
| `StoreGuards.WaitReplayExactly` | go/agent-runtime-harness/memory_store.go:250-259 | A repeated wait is answered with the stored record exactly when owner and question agree |
| `StoreGuards.ResolveExactly` | go/agent-runtime-harness/memory_store.go:331-381 | An answer is accepted exactly once, for an unanswered Interaction at its stored revision whose Turn and owner both wait, without an open fence |
| `StoreGuards.OneWaitingReachable` | go/agent-runtime-harness/memory_store.go:294-301 | In every reachable state at most one Interaction of a Turn is unanswered |
| `StoreGuards.AnswerIsFinal` | go/agent-runtime-harness/memory_store.go:331-369 | Along every script an Interaction keeps its owner and question, and an answer is final |
| `StoreGuards.TurnEffect` | go/agent-runtime-harness/memory_store.go:693-735 | A granted Turn request changes that Turn's record and nothing else |
| `StoreGuards.InvocationEffect` | go/agent-runtime-harness/memory_store.go:44-135 | A granted create stores the record and indexes its Run; a granted update replaces the record |
| `StoreGuards.RetryEffect` | go/agent-runtime-harness/memory_store.go:187-206 | A Retry stores the next Attempt, moves the Run index, reopens a root's Turn and changes nothing else |
| `StoreGuards.ItemEffect` | go/agent-runtime-harness/memory_store.go:797-817 | An appended Item ends its Turn's ledger and is indexed by its identity, and nothing else changes |
| `StoreGuards.InteractionEffect` | go/agent-runtime-harness/memory_store.go:222-369 | A granted wait stores the question, a granted answer replaces it, and nothing else changes |
| `Cancellation.HasVerifiedInteractionResponse` | go/agent-runtime-harness/interaction_receipt.go:119-141 | True exactly when the first Item with the receipt's identity verifies this Interaction for this owner and Run |
| `Cancellation.PendingTargets` | go/agent-runtime-harness/execution_dispatch.go:129-171 | Quiet exactly when no unsettled grant is undecodable or concerns a target owner or Run |
| `Cancellation.FenceBlocks` | go/agent-runtime-harness/memory_store.go:44-135 | Under an open fence no write admits an Invocation, Interaction or grant in the Turn, rotates one, or starts one Running |
| `Cancellation.FactStable` | go/agent-runtime-harness/cancellation_fence.go:88-165 | Each inspected fact persists under every script for as long as the fence stays open |
| `Cancellation.QuiescenceStable` | go/agent-runtime-harness/cancellation_fence.go:88-165 | The inspection reads Invocations, Interactions, each owner, the response Items and the grant Items in separate calls, with arbitrary requests before, between and after; if every read passed and the fence is still open at the end, callbacks, responses and grants are quiet together at the end |
| `Cancellation.QuietMeans` | go/agent-runtime-harness/cancellation_fence.go:103-163 | The three facts, said of records and Items: no targeted Application runs, every grant still owed a receipt is readable and concerns neither a target nor an affected Run, and every answered Interaction of a running target has the Host's verified response on record |
| `ItemChain.ChainStable` | go/agent-runtime-harness/execution_dispatch.go:345-375 | A complete Item chain is the same in every later state, so reading it link by link equals reading it at once |
| `ParentCheck.RequireLiveInvocationParents` | go/agent-runtime-harness/execution_dispatch.go:331-403 | Passes exactly when the sealed proof is readable, every Item above the child is in its Turn and owned by a frozen ancestor, and every frozen ancestor and the root still run the frozen Attempt |
| `ParentCheck.ExpectedOwners` | go/agent-runtime-harness/execution_dispatch.go:341-344 | The lookup table names exactly the frozen parents |
| `ParentCheck.WalkItems` | go/agent-runtime-harness/execution_dispatch.go:345-375 | Accepts exactly complete, acyclic chains whose every Item is owned by nobody, the child or a frozen ancestor |
| `ParentCheck.LiveMeans` | go/agent-runtime-harness/child_root_binding.go:126-188 | A live parent is the stored Invocation at exactly the frozen Attempt, in the Turn, a child, not completed, failed or cancelled, and claimed if it is an Application; a live root is the same without a parent and is not the child |
| `ParentCheck.ChainMeans` | go/agent-runtime-harness/execution_dispatch.go:345-375 | The chain check passes exactly when the chain is complete and every Item is a numbered Item of the Turn naming nobody, the child, or, by a Run that descends from it, an Invocation of the proof |
| `ParentCheck.ParentsLiveMeans` | go/agent-runtime-harness/execution_dispatch.go:331-403 | The whole check, said of the stored records |
| `Dispatch.FreshGrantOpen` | go/agent-runtime-harness/execution_dispatch.go:292-321 | A grant is unsettled when it is admitted, whatever claims were in the ledger before |
| `Dispatch.AnchoredWrite` | go/agent-runtime-harness/memory_store.go:155-162 | While a grant of the Turn is open no legal write moves an Attempt of that Turn |
| `Dispatch.NextKeeps` | go/agent-runtime-harness/execution_dispatch.go:227-327 | Every step of every worker, crash, recovery and foreign write keeps the protocol invariant |
| `Dispatch.RecoverKeeps` | go/agent-runtime-harness/fenced_native_recovery.go:19-88 | A recovery receipt for the start grant of a root Agent keeps the protocol invariant, whether or not the worker is still alive |
| `Dispatch.Protocol` | go/agent-runtime-harness/execution_dispatch.go:227-327 | Every reachable protocol state satisfies the invariant |
| `DispatchTheorems.NextWrite` | go/agent-runtime-harness/execution_dispatch.go:227-327 | Every protocol step is at most one legal Store write |
| `DispatchTheorems.NextEntered` | go/agent-runtime-harness/execution_dispatch.go:322-327 | Only a worker whose post-grant checks have all passed enters an executor |
| `DispatchTheorems.AtMostOneInFlight` | go/agent-runtime-harness/execution_dispatch.go:227-327 | Over every run an Invocation has at most one unsettled grant, so at most one executor in flight, counting workers that crashed |
| `DispatchTheorems.ExecutorsDisjoint` | go/agent-runtime-harness/execution_dispatch.go:227-287 | Two workers inside executors at the same time work for different Invocations, unless a step of the run was the native recovery of one of their grants |
| `DispatchTheorems.RecoveredByRecovery` | go/agent-runtime-harness/fenced_native_recovery.go:75-87 | A grant is settled as recovered only by a recovery of that very grant |
| `DispatchTheorems.UnrecoveredDisjoint` | go/agent-runtime-harness/execution_dispatch.go:227-287 | In a run without native recovery two workers inside executors always work for different Invocations |
| `DispatchTheorems.AncestorsPinned` | go/agent-runtime-harness/execution_dispatch.go:292-327 | From a passing check of an ancestor until the grant is settled that ancestor keeps its identity, ref and Attempt, whether or not the worker is alive |
| `DispatchTheorems.ReceiptsAreTrue` | go/agent-runtime-harness/execution_dispatch.go:405-426 | A grant settled as rejected is never entered, not even later; one settled by native recovery belongs to a root Agent and was recovered in this run; one settled any other way had been entered |
| `DispatchTheorems.UnrecoveredTruth` | go/agent-runtime-harness/execution_dispatch.go:405-426 | The receipt of a grant that was not recovered says rejected if and only if its executor was not entered |
| `DispatchTheorems.WalkStable` | go/agent-runtime-harness/execution_dispatch.go:345-375 | A walk over the Items above a child that passes at one moment passes, over the same Items, at every later moment of the run, so reading them one by one or all at once makes no difference |
| `DispatchTheorems.RotationStales` | go/agent-runtime-harness/memory_store.go:187-197 | A Retry makes the Attempt it replaces stale |
| `DispatchTheorems.StrandedFails` | go/agent-runtime-harness/execution_dispatch.go:331-403 | A child with a stale frozen ancestor fails the parent check whatever the Kernel answers |
| `DispatchTheorems.StrandedForever` | go/agent-runtime-harness/child_root_binding.go:126-157 | Once the root or any frozen ancestor has rotated, in every later state the child fails the parent check, no executor is entered for it, and each of its unentered grants is unsettled or settled as rejected |
| `DispatchTheorems.LiveParentsEnter` | go/agent-runtime-harness/execution_dispatch.go:322-403 | The check refuses nothing it should let through: with live parents and no disturbance the holder of a grant enters its executor |
| `DispatchTheorems.ReceiptAdmitted` | go/agent-runtime-harness/memory_store.go:798-812 | The receipt a worker writes is the one its grant's guard admits |
| `DispatchTheorems.ReturnSettles` | go/agent-runtime-harness/execution_dispatch.go:280-287 | A returning executor settles its grant with exactly the boundary it reports, unless the receipt's identity or the grant was claimed already |
| `DispatchHistory.EnteredAfterLiveParents` | go/agent-runtime-harness/execution_dispatch.go:292-327 | Over every run, before an executor was entered for a child and after its grant was appended, the Items above it were found to name only Invocations of its proof and each frozen ancestor, the root included, was found stored, unfinished and claimed at exactly the frozen Attempt |
| `DispatchHistory.NextChecking` | go/agent-runtime-harness/execution_dispatch.go:331-403 | A worker stays in the check only by finding its next ancestor so, or by a walk that found the chain so |
| `DispatchHistory.GrantAndReceipt` | go/agent-runtime-harness/execution_dispatch.go:227-287 | What a grant and its receipt name |
| `DispatchHistory.BeginsAndWrites` | go/agent-runtime-harness/execution_dispatch.go:227-287 | A worker whose grant is appended goes on with exactly that grant |
| `DispatchHistory.LoadsAndRecovers` | go/agent-runtime-harness/fenced_native_recovery.go:19-88 | Recovery writes only the receipt of an interrupted start of a parentless Agent |
| `Ancestry.Gather` | go/agent-runtime-harness/child_root_binding.go:253-266 | Gathering yields exactly the listed and the new Attempts |
| `Ancestry.GatherDistinct` | go/agent-runtime-harness/child_root_binding.go:253-266 | Gathering never lists an Invocation twice, nor the root |
| `Ancestry.GatherFails` | go/agent-runtime-harness/child_root_binding.go:253-266 | Gathering stops exactly at an invalid binding, the root, or a second Attempt of a listed Invocation |
| `Ancestry.AppendParents` | go/agent-runtime-harness/child_root_binding.go:253-266 | The map-indexed append agrees with gathering, failures included |
| `Ancestry.ClimbExact` | go/agent-runtime-harness/child_root_binding.go:267-300 | The frozen parents are exactly what the Items above the child contribute, one Attempt per Invocation |
| `Ancestry.ClimbOwners` | go/agent-runtime-harness/child_root_binding.go:267-300 | Every Item of a climbed chain is a numbered Item of the Turn whose owner is in the Turn; the gathered Attempts are the current Attempts of its non-root owners, each frozen under this root Attempt, and everything frozen into them, and nothing else |
| `Ancestry.InheritExactly` | go/agent-runtime-harness/child_root_binding.go:267-300 | Exactly when one Item proves something and what it adds |
| `Ancestry.ClimbComplete` | go/agent-runtime-harness/child_root_binding.go:267-300 | A climb succeeds whenever every Item proves something and all that they add agrees |
| `Ancestry.GatherSucceeds` | go/agent-runtime-harness/child_root_binding.go:253-266 | Gathering succeeds exactly when all bindings are valid, none is the root's and no two of one Invocation differ |
| `Ancestry.RootsMeans` | go/agent-runtime-harness/child_root_binding.go:56-72 | A root may be frozen exactly when it is parentless, in the Turn, bound to a Run and not finished |
| `Ancestry.ClimbParents` | go/agent-runtime-harness/child_root_binding.go:267-300 | The loop over Items computes exactly the gathered Attempts and fails on cyclic, dangling, foreign or contradictory ancestry |
| `Ancestry.FreezeChildParentAttempts` | go/agent-runtime-harness/child_root_binding.go:247-307 | Succeeds exactly when the climb does and every gathered parent is live; returns the gathered Attempts |
| `Ancestry.InheritCovered` | go/agent-runtime-harness/child_root_binding.go:284-297 | One owner's Attempt brings all of its own ancestors along |
| `Ancestry.FrozenAncestryClosed` | go/agent-runtime-harness/child_root_binding.go:247-307 | Over every interleaving each admitted child's ancestry is transitively closed, duplicate-free, of one root Attempt and acyclic, a parent having strictly fewer ancestors |
| `AncestryTheorems.EveryOwnerFrozen` | go/agent-runtime-harness/child_root_binding.go:247-307 | Over every interleaving the Items above an admitted child form a complete chain; the child has frozen an Attempt of each of their owners but the root, with everything frozen into that owner, and nobody else |
| `AncestryTheorems.FrozenParentsWereRunning` | go/agent-runtime-harness/child_root_binding.go:300-307 | Over every interleaving each Attempt frozen into an admitted child was, at some moment before, the stored Attempt of an unfinished, claimed child of that Turn |
| `AncestryTheorems.Admitted` | go/agent-runtime-harness/child_root_binding.go:56-92 | An admitted child starts unclaimed at its first Attempt, under the climbed parent, with the climbed ancestry |
| `AncestryTheorems.UndisturbedAdmits` | go/agent-runtime-harness/child_root_binding.go:247-307 | Nothing is refused that should be let through: below a complete chain whose climb succeeds, over live parents, an undisturbed worker admits a child that has frozen exactly the climbed Attempts |
| `AncestryTheorems.NextClimber` | go/agent-runtime-harness/child_root_binding.go:300-307 | A parent is checked off only if it runs its Attempt and, unless it is an Application, the Kernel knows its Run |
| `ApplicationProtocol.ClaimLegal` | go/agent-runtime-harness/application_capability.go:204-232 | A winning claim read the stored Accepted record and moves exactly it to Running |
| `ApplicationProtocol.EnteredOncePerClaim` | go/agent-runtime-harness/application_capability.go:131-185 | Over every run a claimed Attempt authorizes at most one executor entry; the request carries that Attempt or, after a rotation, a later one |
| `ApplicationProtocol.FreshRequestsDiffer` | go/agent-runtime-harness/application_capability.go:233-247 | Entries whose request still carries the claimed Attempt never repeat a request |
| `ApplicationProtocol.StaleHoldRepeats` | go/agent-runtime-harness/application_capability.go:240-247 | While the Attempt that the read after the claim returned is still Accepted and its Turn has no open fence, it can be entered by that worker and by its claimant |
| `ApplicationProtocol.StaleHoldReachable` | go/agent-runtime-harness/application_capability.go:204-247 | A reachable run in which a worker that claimed Attempt 1 holds a request for the still claimable Attempt 2 |
| `ApplicationProtocol.WorkerSteps` | go/agent-runtime-harness/application_capability.go:204-247 | Where a worker's position comes from: an unclaimed stored Application, unchanged and with live parents when it got ready, moved by exactly that claim, read again |
| `ApplicationProtocol.EntrySteps` | go/agent-runtime-harness/application_capability.go:131-185 | The executor is entered only by a worker that holds a request and whose parents are live at the end |
| `ApplicationProtocol.UnclaimsMeans` | go/agent-runtime-harness/application_capability.go:204-232 | The one excluded foreign write: an Application taken back to Accepted |
| `RepeatedEntry.HoldRepeatsIff` | go/agent-runtime-harness/application_capability.go:233-247 | For every worker holding a request, in every state the protocol reaches: some continuation enters that Attempt twice if and only if it was entered before, another worker holds it too, or it is still stored and is Accepted or about to be read by a claimant |
| `RepeatedEntry.FenceCloses` | go/agent-runtime-harness/cancellation_intent.go:28-48 | The one open fence of a Turn can be closed by one Item that changes no Invocation |
| `RepeatedEntry.RepeatReachable` | go/agent-runtime-harness/application_capability.go:204-247 | A run from the empty Store enters one requested Attempt twice |
| `InteractionProtocol.CasLegal` | go/agent-runtime-harness/interaction.go:420-432 | A winning compare-and-set read the stored record and writes the next revision of exactly it |
| `InteractionProtocol.ContinuedAtMostOnce` | go/agent-runtime-harness/interaction_receipt.go:40-81 | A Runtime continuation is entered at most once per Interaction, ever, across callers, reconcilers and crashes |
| `InteractionProtocol.CallbackOncePerClaim` | go/agent-runtime-harness/interaction.go:409-447 | Each committed claim authorizes at most one callback entry |
| `InteractionProtocol.CancelKeeps` | go/agent-runtime-harness/interaction.go:672-686 | A cancellation by compare-and-set, won or lost, keeps the protocol invariant: a cancelled Attempt stays cancelled until the Invocation leaves it behind |
| `InteractionTheorems.NoLateCallback` | go/agent-runtime-harness/interaction.go:409-443 | Over every run in which claimants and cancellers race freely and nobody else overwrites a won, unused claim, no callback is entered after a cancellation of its Attempt committed at any earlier point |
| `InteractionTheorems.CancelSpares` | go/agent-runtime-harness/application_capability.go:518-533 | A canceller whose compare-and-set succeeds hit an Attempt that no worker holds an unused claim of |
| `InteractionTheorems.CancellationMissesClaims` | go/agent-runtime-harness/interaction.go:672-686 | The same over every such run: a cancellation that commits never takes a won claim away |
| `InteractionTheorems.RememberedExactly` | go/agent-runtime-harness/interaction.go:672-686 | What makes an entry late is exactly that its Attempt was stored as Cancelled at some earlier point of the run |
| `InteractionTheorems.OverwrittenClaimEntersLate` | go/agent-runtime-harness/runner.go:1259-1284 | After every status write over a won, unused claim a cancellation can commit and the holder of the claim still enters: the condition of NoLateCallback is exact |
| `InteractionTheorems.HandedBackClaimEntersLate` | go/agent-runtime-harness/interaction.go:920-941 | Once a claimed Attempt is handed back to waiting, a canceller that keeps to its guard cancels it and the holder of the claim still enters |
| `InteractionTheorems.LateCallbackReachable` | go/agent-runtime-harness/interaction.go:920-941 | A run of Store requests and worker steps from the empty Store, with one status reconciliation, that enters a callback after a committed cancellation of its Attempt |
| `InteractionTheorems.SecondCallbackNeedsReopening` | go/agent-runtime-harness/interaction.go:420-447 | Once an Attempt is not waiting and has no unused claim, no callback is entered for it until a holder releases it or somebody writes it back |
| `InteractionTheorems.OncePerAttempt` | go/agent-runtime-harness/interaction.go:409-447 | After a callback entered on a claim that was not overwritten, no other callback of that Attempt, for the same Interaction or another, is entered unless the Attempt was released or written back in between |
| `InteractionTheorems.CallbackAnswersItsOwner` | go/agent-runtime-harness/interaction.go:360-430 | Over every run each callback was entered for an answered Interaction, on a claim of the very Invocation that asked, in its Turn |
| `InteractionTheorems.PositionSteps` | go/agent-runtime-harness/interaction.go:403-447 | Where a worker's or canceller's position comes from: what it read, what its compare-and-set replaced, and that entering needs live parents |
| `InteractionTheorems.NextCallbacks` | go/agent-runtime-harness/interaction.go:433-443 | Callbacks are entered only by the holder of a won claim whose parents are live |
| `InteractionTheorems.ContinuationSteps` | go/agent-runtime-harness/interaction_receipt.go:40-81 | A continuation is entered only by inserting the Interaction's own continuation Item |
| `InteractionTheorems.StartSteps` | go/agent-runtime-harness/interaction.go:660-690 | What a canceller, a reader and a reconciler may start from |
| `CancellationScope.FrozenOwned` | go/agent-runtime-harness/cancellation_fence.go:190-202 | True exactly when the root or a parent in the frozen proof is a target |
| `CancellationScope.ItemOwned` | go/agent-runtime-harness/cancellation_fence.go:203-219 | True exactly when an Item on the chain before its end or first broken link is owned by a target; broken only if the chain is |
| `CancellationScope.AddItemOwnedDescendants` | go/agent-runtime-harness/cancellation_fence.go:171-225 | Adds exactly descendants until none is missing; fails only on a child whose Item chain is broken |
| `CancellationScope.ExpandRuns` | go/agent-runtime-harness/cancellation_fence.go:56-68 | Visits every Run of the pass, in any order and whether or not newly found Runs are visited too; stops at an unreadable one |
| `CancellationScope.OwnersOf` | go/agent-runtime-harness/cancellation_fence.go:69-73 | Adds exactly owners of affected Runs |
| `CancellationScope.RunsOf` | go/agent-runtime-harness/cancellation_fence.go:77-81 | Adds exactly Runs of targets |
| `CancellationScope.CollectCancellationScope` | go/agent-runtime-harness/cancellation_fence.go:39-86 | Terminates on every graph, cyclic ones included; success is the least closed pair of sets; failure only on a blank root, an unreadable relation inside the scope or a broken chain |
| `CancellationScope.ScopeUnique` | go/agent-runtime-harness/cancellation_fence.go:39-86 | There is one least closed pair, so no enumeration order can yield another result |
| `CancellationScope.UnrelatedStaysOut` | go/agent-runtime-harness/cancellation_fence.go:171-225 | An Invocation whose Run no relation reaches is in the scope only by descending from another target |
| `CancellationReach.OwnersMeans` | go/agent-runtime-harness/cancellation_fence.go:203-219 | The owners along an Item chain are exactly the Invocations that an Item met on the way up names |
| `CancellationReach.OwnersOfChain` | go/agent-runtime-harness/cancellation_fence.go:203-219 | When the chain is complete they are the owners of its Items |
| `CancellationReach.DescendsMeans` | go/agent-runtime-harness/cancellation_fence.go:171-225 | A child descends from the targets exactly when its proof or an Item above it names one of them |
| `CancellationReach.ScopeIsReach` | go/agent-runtime-harness/cancellation_fence.go:39-86 | The scope is exactly what a finite path reaches from the root Run along relations, ownership and descent |
| `RetryQuery.Find` | go/agent-runtime-harness-postgres/retry_child_execution.go:32-37 | A query returns exactly the selected rows, each as often as stored, in any order |
| `RetryQuery.SelfClaim` | go/agent-runtime-harness-postgres/execution_dispatch.go:85-119 | A grant stored under the reserved parent's identity is unsettled on both paths |
| `RetryQuery.PendingExecutionDispatchTx` | go/agent-runtime-harness-postgres/execution_dispatch.go:85-119 | The per-grant queries agree with the whole-ledger pending decision, for every table and row order |
| `RetryQuery.NarrowedOutcome` | go/agent-runtime-harness-postgres/retry_child_execution.go:28-61 | Every loaded grant is settled by the loaded rows exactly as by the whole ledger |
| `RetryQuery.NarrowedRetry` | go/agent-runtime-harness-postgres/retry_child_execution.go:12-63 | The narrowed evidence and the whole ledger permit exactly the same retries |
| `RetryQuery.FindChildren` | go/agent-runtime-harness-postgres/retry_child_execution.go:13-18 | Exactly the other Invocations of the Turn that have a parent, in any order |
| `RetryQuery.RetryChildEffectFenceTx` | go/agent-runtime-harness-postgres/retry_child_execution.go:12-63 | Accepts exactly when the full-ledger decision does, for every table and row order |
| `RetryQuery.CheckExecutionDispatchCompletionTx` | go/agent-runtime-harness-postgres/execution_dispatch.go:57-83 | A diagnostic child of a grant is accepted exactly as its first and matching receipt |
| `RetryQuery.SelectsMeans` | go/agent-runtime-harness-postgres/retry_child_execution.go:28-61 | Which rows each query selects: the Turn's ledger, grants of some owners or of one, and diagnostics naming a given parent |
| `RetryQuery.ChildMeans` | go/agent-runtime-harness-postgres/retry_child_execution.go:13-18 | Which Invocations the fence asks about |
| `CheckpointSearch.LessTotal` | go/agent-runtime-harness-postgres/store.go:1043-1051 | Identity order is total and asymmetric |
| `CheckpointSearch.NormalizeQuery` | go/agent-runtime-harness/store.go:38-58 | Accepts exactly non-blank queries over non-empty paths of distinct non-blank sources |
| `CheckpointSearch.SourceIndex` | go/agent-runtime/context/window.go:1054-1066 | The position the record covers, or -1 when it covers none |
| `CheckpointSearch.FindInMemory` | go/agent-runtime-harness/memory_store.go:506-552 | The lexicographic maximum of path index, generation, revision and identity, or not found when no record covers the path |
| `CheckpointSearch.PathIndex` | go/agent-runtime-harness-postgres/store.go:1015-1025 | Positions and running hashes of the whole path |
| `CheckpointSearch.LoadCandidates` | go/agent-runtime-harness-postgres/store.go:986-1009 | Exactly the aligned records of the scope whose path hash is asked for, in any order |
| `CheckpointSearch.BestOfChunk` | go/agent-runtime-harness-postgres/store.go:955-968 | The best record among all that cover a position of the chunk |
| `CheckpointSearch.FindContextCheckpointForPath` | go/agent-runtime-harness-postgres/store.go:944-982 | The same maximum, for every path length, row order and hash function; the recheck never reports a conflict |
| `CheckpointSearch.BestUnique` | go/agent-runtime-harness-postgres/store.go:1027-1051 | There is at most one maximum |
| `CheckpointSearch.SearchesAgree` | go/agent-runtime-harness-postgres/store.go:944-982 | The chunked search and the full scan return the same result |
| `CheckpointSearch.LessMeans` | go/agent-runtime-harness-postgres/store.go:1043-1051 | Identities compare at the first place where they differ, a proper prefix first |
| `CheckpointSearch.NewerMeans` | go/agent-runtime-harness-postgres/store.go:1027-1051 | The later path position wins; then the later generation, the later revision, the greater identity |
| `CheckpointSearch.CoversMeans` | go/agent-runtime/context/window.go:1054-1066 | A record is reusable exactly at a position whose source it covers last and whose path so far folds to the recorded hash, aligned and of the same scope and fingerprint |
| `CheckpointSearch.NormalizedMeans` | go/agent-runtime-harness/store.go:38-58 | Which queries may be asked |
| `ContextLineage.Store.constructor` | go/agent-runtime-harness/memory_store.go:448-457 | A new Store holds nothing |
| `ContextLineage.Store.ValidateDependencies` | go/agent-runtime-harness/memory_store.go:624-638 | True exactly when parent and artifacts are stored in the checkpoint's scope |
| `ContextLineage.Store.PutContextCheckpoint` | go/agent-runtime-harness/memory_store.go:459-479 | Insert, replay or conflict, with the whole new state; the lineage invariant is kept |
| `ContextLineage.Store.PutContextArtifact` | go/agent-runtime-harness/memory_store.go:640-655 | Insert, replay or conflict, with the whole new state; the lineage invariant is kept |
| `ContextLineage.Store.CommitContextCheckpoint` | go/agent-runtime-harness/memory_store.go:564-622 | Checkpoint, Turn and head are written together or not at all; a stale expected head leaves the head alone; the lineage invariant is kept |
| `ContextLineage.LineageGrounded` | go/agent-runtime-harness/memory_store.go:564-638 | In every reachable state each checkpoint's parent chain is finite, stays in its scope and ends parentless, its artifacts are stored in that scope, and heads are stored |
| `ContextLineage.Immutable` | go/agent-runtime-harness/memory_store.go:471-477 | A stored checkpoint or artifact never changes or disappears, under every script |
| `ContextLineage.HeadMovesByCas` | go/agent-runtime-harness/memory_store.go:594-622 | A head moves only by a commit that expected its value, to a checkpoint of that scope; a Turn commits only on top of its own checkpoint |
| `ContextLineage.PutExactly` | go/agent-runtime-harness/memory_store.go:459-479 | A checkpoint is stored or replayed exactly when its parent and artifacts are stored in its scope and no other checkpoint has its identity |
| `ContextLineage.CommitExactly` | go/agent-runtime-harness/memory_store.go:564-592 | A commit is accepted exactly when its Turn is stored at the expected revision and checkpoint in that scope, the checkpoint extends the Turn's last one and may be stored, and a scope without a head was not expected to have one |
| `ContextLineage.CommitEffect` | go/agent-runtime-harness/memory_store.go:594-622 | An accepted commit stores the checkpoint, moves the Turn onto it, and leaves as head the new checkpoint if the old head was the expected one and the old head otherwise; nothing else changes |
| `ContextLineage.HeadAdvances` | go/agent-runtime-harness/memory_store.go:587-622 | The first commit in a scope sets its head, and every commit that names the head moves it |
| `ContextLineage.PutEffect` | go/agent-runtime-harness/memory_store.go:459-479 | A stored checkpoint or artifact changes nothing else |
| `Subscription.Hub.constructor` | go/agent-runtime-a2a/host_subscription.go:32-34 | An empty hub lists exactly its open channels |
| `Subscription.Hub.Send` | go/agent-runtime-a2a/host_subscription.go:72 | One update enters an open channel with room; needs the channel open |
| `Subscription.Hub.Close` | go/agent-runtime-a2a/host_subscription.go:74 | Closes an open channel; needs the channel open, so none is closed twice |
| `Subscription.Hub.Subscribe` | go/agent-runtime-a2a/host_subscription.go:36-49 | A new channel under a new identity, listed under its key |
| `Subscription.Hub.Unsubscribe` | go/agent-runtime-a2a/host_subscription.go:51-64 | Closes and delists exactly that channel, once |
| `Subscription.Hub.Serve` | go/agent-runtime-a2a/host_subscription.go:70-80 | Delivers, and closes on a terminal update or a full buffer |
| `Subscription.Hub.Publish` | go/agent-runtime-a2a/host_subscription.go:66-85 | Every open channel of the key gets the update or is closed, in any order; the index keeps listing exactly the open channels |
| `Subscription.ClientPublish` | go/agent-runtime-a2a/host_subscription.go:66-85 | A publish extends the log and every open channel of that key together |
| `Subscription.NextOk` | go/agent-runtime-a2a/host_task_store.go:107-154 | Every step of every writer and client keeps the stream invariant |
| `Subscription.GapFree` | go/agent-runtime-a2a/host_subscription.go:188-280 | Over every interleaving, what a client wrote followed by the newer updates still in its channel is, in publish order, exactly the updates newer than its snapshot published before the channel ended; all of them while it is open |
| `SubscriptionOrder.SeenInOrder` | go/agent-runtime-a2a/host_subscription.go:188-280 | Over every run in which no writer of a Task commits an update while another has yet to publish, the log is in version order and a client writes strictly increasing versions, all newer than its snapshot |
| `SubscriptionOrder.OverlapReorders` | go/agent-runtime-a2a/host_task_store.go:131-150 | After every overlapping commit the two writers can publish in the wrong order: the condition of SeenInOrder is exact |
| `SubscriptionOrder.SeenOutOfOrder` | go/agent-runtime-a2a/host_task_store.go:131-150 | A run in which a client writes version 3 and then version 2 |
| `SubscriptionOrder.EarlyTerminalDrops` | go/agent-runtime-a2a/host_subscription.go:66-85 | A run in which a terminal update published early ends the stream and an older update is never sent |
| `SubscriptionOrder.DeliveredMeans` | go/agent-runtime-a2a/host_subscription.go:70-80 | What a channel does with an update: take it, end with it, or end by overflow |
| `SubscriptionOrder.PublishedMeans` | go/agent-runtime-a2a/host_subscription.go:66-85 | Publishing serves every listed channel of the key and no other, and lists afterwards exactly those still open |
| `SubscriptionOrder.SubscriptionMeans` | go/agent-runtime-a2a/host_subscription.go:36-64 | Subscribing lists a new open channel; unsubscribing ends and delists exactly one |
| `SubscriptionOrder.ClientSteps` | go/agent-runtime-a2a/host_subscription.go:230-280 | A client takes updates in order, writes exactly the newer ones and stops after a newer terminal one or when its channel has ended |
| `SubscriptionOrder.ReadSteps` | go/agent-runtime-a2a/host_subscription.go:188-230 | A missing or finished Task ends the stream, any other fixes the version to stream from |
| `SubscriptionOrder.WriterSteps` | go/agent-runtime-a2a/host_task_store.go:107-154 | A commit that read the stored version and raises it leaves its update to be published under the new version |
| `TerminalFeed.ReadableFrom` | go/agent-runtime/memory/runfeed.go:131-139 | Readable cursors are exactly those at or after the position before the first retained event |
| `TerminalFeed.TurnFeed.constructor` | go/agent-runtime/runfeed/runfeed.go:124-126 | An empty window with a positive page size |
| `TerminalFeed.TurnFeed.Replay` | go/agent-runtime/memory/runfeed.go:73-96 | A non-empty prefix of the unread events if there are any, or expired exactly when the cursor is before the retained window |
| `TerminalFeed.TurnFeed.FirstRetainedCursor` | go/agent-runtime-harness/feed.go:152-178 | The least readable cursor |
| `TerminalFeed.TurnFeed.ScanPage` | go/agent-runtime-harness/feed.go:130-138 | Finds a matching terminal event exactly when the page holds one, and otherwise advances over the whole page |
| `TerminalFeed.TurnFeed.ScanRetained` | go/agent-runtime-harness/feed.go:113-139 | The scan terminates, covers every retained event, and finds the terminal event exactly when one is retained; it never reports a conflict |
| `TerminalFeed.TurnFeed.PublishTerminalOnce` | go/agent-runtime-harness/feed.go:103-145 | Appends exactly when no retained event is this terminal event |
| `TerminalFeed.ExactlyOneTerminal` | go/agent-runtime-harness/feed.go:99-145 | However many publishers run, with progress events and retention in between, at most one terminal event of a kind is retained, and exactly one if it was published and nothing was evicted |
| `BaselineReport.SortedAscending` | scripts/run-agent-baseline.py:1155-1163 | The durations the percentiles are read from are in ascending order |
| `BaselineReport.SortedLength` | scripts/run-agent-baseline.py:1155-1163 | They are the samples' durations, each as often as it occurred |
| `BaselineReport.Rank` | scripts/run-agent-baseline.py:1161-1162 | The percentile position is the nearest rank |
| `BaselineReport.AcceptBuilt` | scripts/run-agent-baseline.py:1182-1378 | Every accepted event leaves each part of the report acceptable given the parts it depends on |
| `BaselineReport.RebuildExact` | scripts/run-agent-baseline.py:1693-1705 | Replaying a report in canonical order rebuilds exactly what was accepted |
| `BaselineReport.FinishAgain` | scripts/run-agent-baseline.py:1381-1424 | Closing the rebuilt report with the recorded failure gives the same status |
| `BaselineReport.ReportReplays` | scripts/run-agent-baseline.py:1669-1724 | Every report built from accepted events and closed by the launcher is re-accepted with its status if and only if it never started or records a positive input ceiling, wherever the error event fell |
| `BaselineReport.NoCeilingNotReplayed` | scripts/run-agent-baseline.py:1669-1724 | One accepted start event without an input ceiling makes a report that is refused however it is closed; the same event with a ceiling makes one that is accepted |
| `BaselineReport.StartForgetsError` | scripts/run-agent-baseline.py:1222-1237 | An error before the start is dropped by it, so a later error is not a duplicate |
| `BaselineReport.CasesInSuite` | scripts/run-agent-baseline.py:1313-1325 | Accepted samples name no more cases than the suite has |
| `BaselineReport.PassedMeans` | scripts/run-agent-baseline.py:1412-1419 | A passed report means exit zero, every sample passed with full evidence, and every case of the suite ran exactly once in every repetition |
| `BaselineReport.StatusMeans` | scripts/run-agent-baseline.py:1381-1424 | What the preflight-only, pilot and failed statuses say about the exit code and the samples |
| `BaselineReport.Journal.constructor` | scripts/run-agent-baseline.py:376-382 | A new report is empty and running |
| `BaselineReport.Journal.AcceptEvent` | scripts/run-agent-baseline.py:1182-1378 | Accepts or refuses an event, with the whole new report; a refusal changes nothing |
| `BaselineReport.Journal.FinishReport` | scripts/run-agent-baseline.py:1381-1424 | Sets status, exit code and failure as the closing rules say |
| `BaselineReport.Replay` | scripts/run-agent-baseline.py:1693-1705 | Replays a saved report into a new one, failing exactly when an event is refused |
| `BaselineReport.ReplaySamples` | scripts/run-agent-baseline.py:1698-1699 | Accepts the saved samples one by one in order |
| `BaselineReport.ValidateReport` | scripts/run-agent-baseline.py:1669-1724 | Accepts exactly the valid reports |
| `ReportMeaning.PercentileMeans` | scripts/run-agent-baseline.py:1155-1163 | At least that share of the durations is at or below a reported percentile, and less than that share strictly below it |
| `ReportMeaning.DurationsMean` | scripts/run-agent-baseline.py:1155-1163 | The duration figures by their defining properties: count, total, extremes and percentiles |
| `ReportMeaning.CountPassedMeans` | scripts/run-agent-baseline.py:1326-1378 | The number of passed samples |
| `ReportMeaning.TotalsMean` | scripts/run-agent-baseline.py:1326-1378 | Usage and call totals are the sums over all samples |
| `ReportMeaning.StartExactly` | scripts/run-agent-baseline.py:1188-1237 | Exactly which start events are accepted |
| `ReportMeaning.OtherExactly` | scripts/run-agent-baseline.py:1182-1243 | An error is accepted once per start, and a report with its summary accepts nothing more |
| `ReportMeaning.PreflightExactly` | scripts/run-agent-baseline.py:1244-1288 | Exactly which preflight events are accepted, and when |
| `ReportMeaning.SampleExactly` | scripts/run-agent-baseline.py:1289-1325 | A sample is accepted exactly after a passed preflight, while one is asked for, under a new identity and a new pair of case and repetition, with agreeing receipts and the full evidence if it passed |
| `ReportMeaning.SummaryExactly` | scripts/run-agent-baseline.py:1326-1378 | A summary is accepted exactly when its counts, figures and totals are true of the samples |
| `ReportMeaning.ClosedExactly` | scripts/run-agent-baseline.py:1381-1424 | Exactly when each closing status is given |
| `ReportMeaning.AddedFailure` | scripts/run-agent-baseline.py:1381-1424 | The failure the launcher adds itself, and when it adds none |
| `ReportMeaning.LauncherFailure` | scripts/run-agent-baseline.py:1381-1424 | With a launcher failure its code alone decides the status |
| `ReportMeaning.ConfigExactly` | scripts/run-agent-baseline.py:194-208 | Exactly which configurations are admitted |
| `ReportMeaning.RebuildMeans` | scripts/run-agent-baseline.py:1693-1705 | Rebuilding a report is accepting its parts in canonical order into a new one |
| `ReportMeaning.ValidExactly` | scripts/run-agent-baseline.py:1669-1724 | Exactly which saved reports are valid |

## Left out

- The Kernel consent behind native recovery: recovery may settle any start grant of a root Agent at any time. The native-Agent exception to pending grants is taken as false.
- Kernel ownership checks, Run relations behind an Item's Run and Runtime liveness: verdicts chosen by the environment, never assumed to pass.
- Which error a refused Retry reports: it depends on map enumeration order in the source; only acceptance and refusal are modelled.
- `UpdateInteraction`: it has no status or fence guard and nothing in the Runner calls it, so it is not among the requests.
- The widening of a cancellation inspection to all owners when relations are unavailable, and the Turn-wide response check for unmatched Runs: only the targeted facts are modelled.
- CollectCancellationScope: whether it fails on a broken chain can depend on the order in which children are listed; only its successful results are shown to be order-free.
- Handoff and nested Runtime relations inside the parent check (`requireRunDescendsFrom`): one verdict per Item.
- Host references, output references, error texts, timestamps and fixed integer widths in Turns, Invocations and Items.
- The relational Store's transactions, locking, record conversion and replay paths; each transaction is one atomic step, and only its decisions are compared.
- The root-Retry difference between the two Stores (any terminal Turn in memory, only failed or cancelled ones in SQL): the memory rule is the one modelled.
- Budget ledgers, configuration sealing, role and tool schemas, session and configuration records: field validation with easy claims.
- Cancellation cleanup (Kernel cancellation calls, settlement contexts, feed publication after it).
- A2A transport, authentication, keep-alives and payload encoding; a client that stops reading is one that unsubscribes.
- ExecutorsDisjoint: a worker whose grant native recovery has settled may still be inside, because the Kernel epoch that fences it off is not part of this model.
- ReceiptsAreTrue: does not say whether a grant settled by native recovery was entered, for the same reason.
- Hub.Send: blocking is not modelled, because a send happens only when the buffer has room.
- TurnFeed.PublishTerminalOnce: one call runs alone; retention or a progress event arriving during its scan is not modelled, between calls both are.
- Shape checks of nested diagnostic documents in the baseline report, and which protocol failure code a refusal carries.
- Redaction, Markdown rendering, prompts, subprocess handling and the launcher's override of a status after closing.
