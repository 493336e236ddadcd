/**
 The relational Store's view of the same decisions. A query returns its rows in no particular order,
 and the retry query loads only the affected owners' grants and every diagnostic that claims one of
 them. These decisions must still be the ones the whole Turn ledger would give.
 */
module RetryQuery {
  import opened Records
  import opened Ledger
  import opened LedgerMeaning
  import opened RetryFence

  datatype Query =
    | WholeTurn(turn: Id)
    | GrantsOf(turn: Id, owners: set<Id>)
    | Starts(turn: Id, invocation: Id)
    | ClaimsFor(turn: Id, ids: set<Id>)

  predicate Selects(q: Query, v: Item) {
    v.turn == q.turn &&
    match q
    case WholeTurn(_) => true
    case GrantsOf(_, owners) => v.invocation in owners && IsGrant(v)
    case Starts(_, invocation) => IsGrant(v) && (invocation == Empty || v.invocation == invocation)
    case ClaimsFor(_, ids) => v.parent in ids && v.kind == Diagnostic
  }

  function Where(table: seq<Item>, q: Query): (r: seq<Item>)
    ensures forall v :: v in r <==> v in table && Selects(q, v)
  {
    if table == [] then []
    else Where(table[..|table| - 1], q) + (if Selects(q, table[|table| - 1]) then [table[|table| - 1]] else [])
  }

  lemma {:induction false} CountWhere(table: seq<Item>, q: Query, v: Item)
    ensures multiset(Where(table, q))[v] == if Selects(q, v) then multiset(table)[v] else 0
  {
    if table != [] {
      assert table == table[..|table| - 1] + [table[|table| - 1]];
      CountWhere(table[..|table| - 1], q, v);
    }
  }

  /** The database: the selected rows, each as often as it is stored, in an order of its own. */
  method Find(table: seq<Item>, q: Query) returns (rows: seq<Item>)
    ensures multiset(rows) == multiset(Where(table, q))
    ensures forall v :: v in rows <==> v in table && Selects(q, v)
  {
    hide Where, Selects;
    rows := [];
    NoRows(q);
    for i := 0 to |table|
      invariant multiset(rows) == multiset(Where(table[..i], q))
    {
      WhereStep(table, i, q);
      if Selects(q, table[i]) {
        var last: bool := *;
        rows := if last then rows + [table[i]] else [table[i]] + rows;
      }
    }
    assert table[..|table|] == table;
    SameRows(rows, Where(table, q));
  }

  lemma NoRows(q: Query)
    ensures Where([], q) == []
  {
  }

  lemma WhereStep(table: seq<Item>, i: nat, q: Query)
    requires i < |table|
    ensures Where(table[..i + 1], q) == Where(table[..i], q) + (if Selects(q, table[i]) then [table[i]] else [])
  {
    assert table[..i + 1][..i] == table[..i];
  }

  lemma SameRows(a: seq<Item>, b: seq<Item>)
    requires multiset(a) == multiset(b)
    ensures forall v :: v in a <==> v in b
  {
    assert forall v :: v in a <==> v in multiset(a);
    assert forall v :: v in b <==> v in multiset(b);
  }

  // ---------------------------------------------------------------- settlement only counts claims

  lemma {:induction false} CountClaims(items: seq<Item>, g: Id, v: Item)
    ensures multiset(ClaimsOf(items, g))[v] == if ClaimsId(v, g) then multiset(items)[v] else 0
  {
    if items != [] {
      assert items == items[..|items| - 1] + [items[|items| - 1]];
      CountClaims(items[..|items| - 1], g, v);
    }
  }

  /** Two listings that agree on every claim of `g` settle it alike. */
  lemma SameClaims(a: seq<Item>, b: seq<Item>, g: Item)
    requires forall v :: ClaimsId(v, g.id) ==> multiset(a)[v] == multiset(b)[v]
    ensures Settlement(a, g) == Settlement(b, g)
  {
    var x, y := ClaimsOf(a, g.id), ClaimsOf(b, g.id);
    forall v ensures multiset(x)[v] == multiset(y)[v] {
      CountClaims(a, g.id, v);
      CountClaims(b, g.id, v);
    }
    assert multiset(x) == multiset(y);
    assert |x| == |multiset(x)| == |multiset(y)| == |y|;
    if |x| == 1 {
      assert x == [x[0]] && y == [y[0]];
      assert x[0] in multiset(x) && x[0] in multiset(y);
    }
  }

  /** A grant stored under the reserved parent's own identity claims itself, so it is not settled on
      either path. */
  lemma SelfClaim(items: seq<Item>, g: Item)
    requires g in items && IsGrant(g)
    ensures GrantOutcome(items, g) == Settlement(items, g)
  {
    if g.id == ExecutionDispatchParent {
      assert g in ClaimsOf(items, g.id);
      assert |ClaimsOf(items, g.id)| == 1 ==> ClaimsOf(items, g.id)[0] == g;
    }
  }

  // ---------------------------------------------------------------- pending grants

  method PendingExecutionDispatchTx(table: seq<Item>, turn: Id, invocation: Id) returns (pending: bool)
    ensures pending <==> Pending(Where(table, WholeTurn(turn)), invocation)
  {
    hide Pending, GrantOutcome, Settlement, Where;
    ghost var ledger := Where(table, WholeTurn(turn));
    var starts := Find(table, Starts(turn, invocation));
    for i := 0 to |starts|
      invariant forall k :: 0 <= k < i ==> GrantOutcome(ledger, starts[k]).Some?
    {
      var grant := starts[i];
      assert grant in starts;
      var receipts := Find(table, ClaimsFor(turn, {grant.id}));
      var settled := VerifiedExecutionDispatchReceipt(grant, receipts);
      QueriedOutcome(table, turn, receipts, grant);
      if settled.None? {
        PendingWitness(ledger, invocation, grant);
        return true;
      }
    }
    NothingPending(table, turn, invocation, starts);
    return false;
  }

  lemma QueriedOutcome(table: seq<Item>, turn: Id, rows: seq<Item>, g: Item)
    requires multiset(rows) == multiset(Where(table, ClaimsFor(turn, {g.id}))) && g in table && g.turn == turn && IsGrant(g)
    ensures Settlement(rows, g) == GrantOutcome(Where(table, WholeTurn(turn)), g)
  {
    QueriedSettlement(table, turn, {g.id}, rows, g);
    SelfClaim(Where(table, WholeTurn(turn)), g);
  }

  lemma PendingWitness(ledger: seq<Item>, invocation: Id, g: Item)
    requires g in ledger && IsGrant(g) && GrantOutcome(ledger, g).None? && (invocation == Empty || g.invocation == invocation)
    ensures Pending(ledger, invocation)
  {
    var k :| 0 <= k < |ledger| && ledger[k] == g;
    assert Unsettled(ledger, k);
  }

  lemma NothingPending(table: seq<Item>, turn: Id, invocation: Id, starts: seq<Item>)
    requires forall v :: v in starts <==> v in table && Selects(Starts(turn, invocation), v)
    requires forall k :: 0 <= k < |starts| ==> GrantOutcome(Where(table, WholeTurn(turn)), starts[k]).Some?
    ensures !Pending(Where(table, WholeTurn(turn)), invocation)
  {
    hide GrantOutcome;
    var ledger := Where(table, WholeTurn(turn));
    assert forall v :: v in starts ==> GrantOutcome(ledger, v).Some?;
    forall k | 0 <= k < |ledger| && Unsettled(ledger, k)
      ensures invocation != Empty && ledger[k].invocation != invocation
    {
      assert ledger[k] in ledger;
      assert ledger[k] in starts <==> invocation == Empty || ledger[k].invocation == invocation;
    }
  }

  lemma QueriedSettlement(table: seq<Item>, turn: Id, ids: set<Id>, rows: seq<Item>, g: Item)
    requires multiset(rows) == multiset(Where(table, ClaimsFor(turn, ids))) && g.id in ids
    ensures Settlement(rows, g) == Settlement(Where(table, WholeTurn(turn)), g)
  {
    forall v | ClaimsId(v, g.id) ensures multiset(rows)[v] == multiset(Where(table, WholeTurn(turn)))[v] {
      CountWhere(table, ClaimsFor(turn, ids), v);
      CountWhere(table, WholeTurn(turn), v);
    }
    SameClaims(rows, Where(table, WholeTurn(turn)), g);
  }

  // ---------------------------------------------------------------- the narrowed evidence

  /** The rows the retry decision loads, in any order. */
  ghost predicate Narrowed(table: seq<Item>, turn: Id, owners: set<Id>, ids: set<Id>, grants: seq<Item>, receipts: seq<Item>) {
    && multiset(grants) == multiset(Where(table, GrantsOf(turn, owners)))
    && multiset(receipts) == multiset(Where(table, ClaimsFor(turn, ids)))
    && (forall v :: v in grants <==> v in table && Selects(GrantsOf(turn, owners), v))
    && (forall v :: v in receipts <==> v in table && Selects(ClaimsFor(turn, ids), v))
    && (forall id :: id in ids <==> exists g :: g in grants && g.id == id)
  }

  /** Every loaded grant is settled by the loaded rows exactly as it is by the whole ledger. */
  lemma NarrowedOutcome(table: seq<Item>, turn: Id, owners: set<Id>, ids: set<Id>, grants: seq<Item>, receipts: seq<Item>,
                        g: Item)
    requires Narrowed(table, turn, owners, ids, grants, receipts) && g in grants
    ensures GrantOutcome(grants + receipts, g) == GrantOutcome(Where(table, WholeTurn(turn)), g)
  {
    var rows := grants + receipts;
    if g.id != ExecutionDispatchParent {
      forall v | ClaimsId(v, g.id) ensures multiset(rows)[v] == multiset(receipts)[v] {
        assert v !in grants;
        assert multiset(rows) == multiset(grants) + multiset(receipts);
      }
      SameClaims(rows, receipts, g);
      QueriedSettlement(table, turn, ids, receipts, g);
    }
  }

  /** The grants of an affected owner are the same in both listings. */
  lemma NarrowedGrants(table: seq<Item>, turn: Id, owners: set<Id>, ids: set<Id>, grants: seq<Item>, receipts: seq<Item>,
                       g: Item, owner: Id)
    requires Narrowed(table, turn, owners, ids, grants, receipts) && GrantOf(g, owner) && owner in owners
    ensures g in grants + receipts <==> g in Where(table, WholeTurn(turn))
    ensures g in grants + receipts ==> GrantOutcome(grants + receipts, g) == GrantOutcome(Where(table, WholeTurn(turn)), g)
  {
    if g in grants + receipts {
      assert g in grants;
      NarrowedOutcome(table, turn, owners, ids, grants, receipts, g);
    }
  }

  lemma SameOwnerEvidence(table: seq<Item>, turn: Id, owners: set<Id>, ids: set<Id>, grants: seq<Item>, receipts: seq<Item>,
                          v: Invocation)
    requires Narrowed(table, turn, owners, ids, grants, receipts) && v.id in owners
    ensures MayHaveDescendants(grants + receipts, v) == MayHaveDescendants(Where(table, WholeTurn(turn)), v)
    ensures EffectPossible(grants + receipts, v) == EffectPossible(Where(table, WholeTurn(turn)), v)
  {
    hide Narrowed, GrantOutcome;
    forall g | GrantOf(g, v.id)
      ensures g in grants + receipts <==> g in Where(table, WholeTurn(turn))
      ensures g in grants + receipts ==> GrantOutcome(grants + receipts, g) == GrantOutcome(Where(table, WholeTurn(turn)), g)
    {
      NarrowedGrants(table, turn, owners, ids, grants, receipts, g, v.id);
    }
  }

  /** The narrowed query and the whole ledger permit exactly the same retries. */
  lemma NarrowedRetry(table: seq<Item>, turn: Id, owners: set<Id>, ids: set<Id>, grants: seq<Item>, receipts: seq<Item>,
                      children: set<Invocation>, rotating: Invocation)
    requires Narrowed(table, turn, owners, ids, grants, receipts) && rotating.id in owners
    requires forall c :: c in children ==> c.id in owners
    ensures RetryPermitted(children, grants + receipts, rotating) ==
            RetryPermitted(children, Where(table, WholeTurn(turn)), rotating)
  {
    hide Narrowed, MayHaveDescendants, EffectPossible, IsHandoff;
    SameOwnerEvidence(table, turn, owners, ids, grants, receipts, rotating);
    forall c | c in children
      ensures ChildPermitsRetry(grants + receipts, c) == ChildPermitsRetry(Where(table, WholeTurn(turn)), c)
    {
      SameOwnerEvidence(table, turn, owners, ids, grants, receipts, c);
    }
  }

  predicate IsChild(turn: Id, rotating: Invocation, v: Invocation) {
    v.turn == turn && v.id != rotating.id && v.parent != Empty
  }

  method FindChildren(table: seq<Invocation>, turn: Id, rotating: Invocation) returns (rows: seq<Invocation>)
    ensures forall v :: v in rows <==> v in table && IsChild(turn, rotating, v)
  {
    rows := [];
    for i := 0 to |table|
      invariant forall v :: v in rows <==> v in table[..i] && IsChild(turn, rotating, v)
    {
      assert table[..i + 1] == table[..i] + [table[i]];
      if IsChild(turn, rotating, table[i]) {
        var last: bool := *;
        rows := if last then rows + [table[i]] else [table[i]] + rows;
      }
    }
    assert table[..|table|] == table;
  }

  method RetryChildEffectFenceTx(invocations: seq<Invocation>, table: seq<Item>, turn: Id, rotating: Invocation)
    returns (refusal: Option<Error>)
    ensures refusal.None? <==>
              RetryPermitted((set c | c in invocations && IsChild(turn, rotating, c)), Where(table, WholeTurn(turn)), rotating)
  {
    var children := FindChildren(invocations, turn, rotating);
    var owners := {rotating.id};
    for i := 0 to |children|
      invariant forall id :: id in owners <==> id == rotating.id || exists k :: 0 <= k < i && children[k].id == id
    {
      owners := owners + {children[i].id};
    }
    var grants := Find(table, GrantsOf(turn, owners));
    var ids: set<Id> := {};
    for i := 0 to |grants|
      invariant forall id :: id in ids <==> exists k :: 0 <= k < i && grants[k].id == id
    {
      ids := ids + {grants[i].id};
    }
    var receipts := [];
    if ids != {} {
      receipts := Find(table, ClaimsFor(turn, ids));
    } else {
      NothingClaimed(table, turn);
    }
    var all := (set c | c in children);
    assert all == (set c | c in invocations && IsChild(turn, rotating, c));
    NarrowedRetry(table, turn, owners, ids, grants, receipts, all, rotating);
    refusal := RetryChildEffectFence(children, grants + receipts, rotating);
  }

  lemma {:induction false} NothingClaimed(table: seq<Item>, turn: Id)
    ensures Where(table, ClaimsFor(turn, {})) == []
  {
    if table != [] { NothingClaimed(table[..|table| - 1], turn); }
  }

  // ---------------------------------------------------------------- settling

  /** A diagnostic child of a grant is accepted only as its first claim and its matching receipt. */
  method CheckExecutionDispatchCompletionTx(table: seq<Item>, found: Option<Item>, completion: Item) returns (ok: bool)
    ensures ok <==> (completion.kind == Diagnostic && completion.parent != Empty && found.Some? && IsGrant(found.value) ==>
                       var g := found.value;
                       && WellFormedGrant(g) && ClaimsId(completion, g.id) && ReceiptMatches(g, completion)
                       && forall v :: v in table && v.turn == g.turn ==> !ClaimsId(v, g.id))
  {
    if completion.kind != Diagnostic || completion.parent == Empty || found.None? || !IsGrant(found.value) { return true; }
    var g := found.value;
    var valid := VerifiedExecutionDispatchReceipt(g, [completion]);
    assert [completion] == [] + [completion];
    ClaimsOfAppend([], completion, g.id);
    if valid.None? { return false; }
    var existing := Find(table, ClaimsFor(g.turn, {g.id}));
    if |existing| != 0 {
      assert existing[0] in existing;
      return false;
    }
    return true;
  }

  // ---------------------------------------------------------------- what the queries select

  /** Each query stays in its Turn: the whole ledger of the Turn; its grants of some owners; its grants of one owner
      or of anyone; and the diagnostics that name one of the given parents. */
  lemma SelectsMeans(turn: Id, owners: set<Id>, owner: Id, v: Item)
    ensures Selects(WholeTurn(turn), v) <==> v.turn == turn
    ensures Selects(GrantsOf(turn, owners), v) <==> v.turn == turn && v.invocation in owners && DispatchGrant(v)
    ensures Selects(Starts(turn, owner), v) <==> v.turn == turn && DispatchGrant(v) && owner in {Empty, v.invocation}
    ensures Selects(ClaimsFor(turn, owners), v) <==> v.turn == turn && v.kind.Diagnostic? && v.parent in owners
  {
  }

  /** The children of a Turn that the fence asks about. */
  lemma ChildMeans(turn: Id, rotating: Invocation, v: Invocation)
    ensures IsChild(turn, rotating, v) <==> v.turn == turn && v.parent != Empty && v.id != rotating.id
  {
  }
}
