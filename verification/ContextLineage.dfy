/**
 Immutable Context checkpoints. A checkpoint names its parent and its artifacts; a Turn points at the
 checkpoint it last committed; a scope's head is moved by compare-and-set. Content hashes are
 abstracted into an opaque `content`.
 */
module ContextLineage {
  import opened Records

  datatype Checkpoint = Checkpoint(id: Id, scope: Id, parent: Id, artifacts: seq<Id>, content: string)

  datatype Artifact = Artifact(id: Id, scope: Id, content: string)

  datatype ContextTurn = ContextTurn(id: Id, session: Id, checkpoint: Id, revision: nat)

  datatype Value = Value(
    turns: map<Id, ContextTurn>, checkpoints: map<Id, Checkpoint>, heads: map<Id, Id>, artifacts: map<Id, Artifact>)

  const EMPTY := Value(map[], map[], map[], map[])

  datatype Request = Request(
    turn: Id, expectedRevision: nat, expectedCheckpoint: Id, expectedHead: Id, checkpoint: Checkpoint)

  // ---------------------------------------------------------------- replies

  predicate ValidCheckpoint(c: Checkpoint) {
    c.id != Empty && c.scope != Empty
  }

  predicate ValidArtifact(a: Artifact) {
    a.id != Empty && a.scope != Empty
  }

  /** Everything a checkpoint names is already stored in its own scope. */
  predicate Grounded(m: map<Id, Checkpoint>, artifacts: map<Id, Artifact>, c: Checkpoint) {
    && (c.parent != Empty ==> c.parent in m && m[c.parent].scope == c.scope)
    && (forall a :: a in c.artifacts ==> a in artifacts && artifacts[a].scope == c.scope)
  }

  function PutCheckpoint(s: Value, c: Checkpoint): Outcome<(Checkpoint, bool)> {
    if !ValidCheckpoint(c) then Err(InvalidRequest)
    else if !Grounded(s.checkpoints, s.artifacts, c) then Err(Conflict)
    else if c.id in s.checkpoints then
      if s.checkpoints[c.id] == c then Ok((c, false)) else Err(Conflict)
    else Ok((c, true))
  }

  function PutArtifact(s: Value, a: Artifact): Outcome<(Artifact, bool)> {
    if !ValidArtifact(a) then Err(InvalidRequest)
    else if a.id in s.artifacts then
      if s.artifacts[a.id] == a then Ok((a, false)) else Err(Conflict)
    else Ok((a, true))
  }

  function HeadOf(s: Value, scope: Id): Id {
    if scope in s.heads then s.heads[scope] else Empty
  }

  predicate Committable(s: Value, r: Request)
    requires r.turn in s.turns
  {
    var c := r.checkpoint;
    && s.turns[r.turn].revision == r.expectedRevision && s.turns[r.turn].checkpoint == r.expectedCheckpoint
    && s.turns[r.turn].session == c.scope
    && (r.expectedCheckpoint != Empty ==> c.parent == r.expectedCheckpoint)
    && Grounded(s.checkpoints, s.artifacts, c) && (c.id in s.checkpoints ==> s.checkpoints[c.id] == c)
    && (HeadOf(s, c.scope) == Empty ==> r.expectedHead == Empty)
  }

  /** The updated Turn, and whether the scope's head advances with it. */
  function CommitCheckpoint(s: Value, r: Request): Outcome<(ContextTurn, bool)> {
    if r.turn == Empty || r.expectedRevision == 0 || !ValidCheckpoint(r.checkpoint) then Err(InvalidRequest)
    else if r.turn !in s.turns then Err(NotFound)
    else if !Committable(s, r) then Err(Conflict)
    else Ok((s.turns[r.turn].(checkpoint := r.checkpoint.id, revision := r.expectedRevision + 1),
             HeadOf(s, r.checkpoint.scope) == r.expectedHead))
  }

  // ---------------------------------------------------------------- scripts

  datatype Op =
    | DoPutCheckpoint(checkpoint: Checkpoint)
    | DoPutArtifact(artifact: Artifact)
    | DoCommit(request: Request)
    | DoPutTurn(turn: ContextTurn)

  function Committed(s: Value, r: Request, t: ContextTurn, advance: bool): Value {
    s.(turns := s.turns[t.id := t], checkpoints := s.checkpoints[r.checkpoint.id := r.checkpoint],
       heads := if advance then s.heads[r.checkpoint.scope := r.checkpoint.id] else s.heads)
  }

  /** `DoPutTurn` stands for whatever other operations do to Turns. */
  function Step(s: Value, op: Op): Value {
    match op
    case DoPutCheckpoint(c) =>
      (match PutCheckpoint(s, c) case Ok((v, true)) => s.(checkpoints := s.checkpoints[v.id := v]) case _ => s)
    case DoPutArtifact(a) =>
      (match PutArtifact(s, a) case Ok((v, true)) => s.(artifacts := s.artifacts[v.id := v]) case _ => s)
    case DoCommit(r) =>
      (match CommitCheckpoint(s, r) case Ok((t, advance)) => Committed(s, r, t, advance) case Err(_) => s)
    case DoPutTurn(t) => s.(turns := s.turns[t.id := t])
  }

  function Run(s: Value, script: seq<Op>): Value {
    if script == [] then s else Step(Run(s, script[..|script| - 1]), script[|script| - 1])
  }

  lemma RunLast(s: Value, script: seq<Op>, op: Op)
    ensures Run(s, script + [op]) == Step(Run(s, script), op)
  {
    assert (script + [op])[..|script|] == script;
  }

  // ---------------------------------------------------------------- lineage

  /** The parent chain from `id` upwards; None when a link dangles or closes a cycle. */
  function Lineage(m: map<Id, Checkpoint>, id: Id, seen: set<Id>): Option<seq<Checkpoint>>
    decreases m.Keys - seen
  {
    if id == Empty then Some([])
    else if id in seen || id !in m then None
    else
      assert id in m.Keys - seen;
      match Lineage(m, m[id].parent, seen + {id})
      case None => None
      case Some(rest) => Some([m[id]] + rest)
  }

  /** A finite chain in one scope that ends at a parentless checkpoint. */
  ghost predicate Rooted(m: map<Id, Checkpoint>, id: Id) {
    id in m && match Lineage(m, id, {})
               case None => false
               case Some(chain) =>
                 && chain != [] && chain[0] == m[id] && chain[|chain| - 1].parent == Empty
                 && (forall c :: c in chain ==> c.scope == m[id].scope && c.id in m && m[c.id] == c)
                 && (forall i :: 0 <= i < |chain| - 1 ==> chain[i].parent == chain[i + 1].id)
  }

  ghost predicate StoredOk(m: map<Id, Checkpoint>, artifacts: map<Id, Artifact>, id: Id) {
    id in m && m[id].id == id && id != Empty && Rooted(m, id) && Grounded(m, artifacts, m[id])
  }

  ghost predicate AllStored(m: map<Id, Checkpoint>, artifacts: map<Id, Artifact>) {
    forall id :: id in m ==> StoredOk(m, artifacts, id)
  }

  ghost predicate HeadsStored(m: map<Id, Checkpoint>, heads: map<Id, Id>) {
    forall scope :: scope in heads ==> heads[scope] in m && m[heads[scope]].scope == scope
  }

  ghost predicate TurnsKeyed(turns: map<Id, ContextTurn>) {
    forall t :: t in turns ==> turns[t].id == t
  }

  ghost predicate Inv(s: Value) {
    AllStored(s.checkpoints, s.artifacts) && HeadsStored(s.checkpoints, s.heads) && TurnsKeyed(s.turns)
  }

  /** Adding a checkpoint, or forbidding an identity that is not on the chain, leaves a chain alone. */
  lemma {:induction false} LineageKept(m: map<Id, Checkpoint>, n: map<Id, Checkpoint>, id: Id, seen: set<Id>, more: set<Id>)
    requires forall k :: k in m ==> k in n && n[k] == m[k]
    requires Lineage(m, id, seen).Some? && more !! m.Keys
    ensures Lineage(n, id, seen + more) == Lineage(m, id, seen)
    decreases m.Keys - seen
  {
    if id != Empty {
      assert id in m.Keys - seen;
      LineageKept(m, n, m[id].parent, seen + {id}, more);
      assert seen + {id} + more == seen + more + {id};
    }
  }

  lemma RootedKept(m: map<Id, Checkpoint>, n: map<Id, Checkpoint>, id: Id)
    requires (forall k :: k in m ==> k in n && n[k] == m[k]) && Rooted(m, id)
    ensures Rooted(n, id)
  {
    var none: set<Id> := {};
    LineageKept(m, n, id, none, none);
    assert none + none == none;
  }

  lemma RootedNew(m: map<Id, Checkpoint>, c: Checkpoint)
    requires c.id !in m && c.id != Empty
    requires c.parent != Empty ==> Rooted(m, c.parent) && m[c.parent].scope == c.scope && m[c.parent].id == c.parent
    ensures Rooted(m[c.id := c], c.id)
  {
    var n := m[c.id := c];
    if c.parent == Empty {
      assert Lineage(n, c.parent, {c.id}) == Some([]);
      assert Lineage(n, c.id, {}) == Some([c]) by { assert {} + {c.id} == {c.id}; assert [c] + [] == [c]; }
    } else {
      var rest := Lineage(m, c.parent, {}).value;
      LineageKept(m, n, c.parent, {}, {c.id});
      assert {} + {c.id} == {c.id};
      assert Lineage(n, c.id, {}) == Some([c] + rest);
    }
  }

  lemma StoreOne(m: map<Id, Checkpoint>, artifacts: map<Id, Artifact>, c: Checkpoint)
    requires AllStored(m, artifacts) && c.id != Empty && Grounded(m, artifacts, c) && (c.id in m ==> m[c.id] == c)
    ensures AllStored(m[c.id := c], artifacts)
  {
    var n := m[c.id := c];
    hide Rooted;
    if c.parent != Empty { assert StoredOk(m, artifacts, c.parent); }
    forall id | id in n ensures StoredOk(n, artifacts, id) {
      if id in m {
        assert StoredOk(m, artifacts, id);
        RootedKept(m, n, id);
      } else {
        RootedNew(m, c);
      }
    }
  }

  lemma StoreArtifact(m: map<Id, Checkpoint>, artifacts: map<Id, Artifact>, a: Artifact)
    requires AllStored(m, artifacts) && a.id !in artifacts
    ensures AllStored(m, artifacts[a.id := a])
  {
    hide Rooted;
    forall id | id in m ensures StoredOk(m, artifacts[a.id := a], id) { assert StoredOk(m, artifacts, id); }
  }

  lemma MoveHead(m: map<Id, Checkpoint>, heads: map<Id, Id>, c: Checkpoint)
    requires HeadsStored(m, heads) && (c.id in m ==> m[c.id] == c)
    ensures HeadsStored(m[c.id := c], heads) && HeadsStored(m[c.id := c], heads[c.scope := c.id])
  {
  }

  lemma InvStep(s: Value, op: Op)
    requires Inv(s)
    ensures Inv(Step(s, op))
  {
    hide AllStored, HeadsStored, Grounded;
    match op {
      case DoPutCheckpoint(c) =>
        if PutCheckpoint(s, c).Ok? && PutCheckpoint(s, c).value.1 {
          StoreOne(s.checkpoints, s.artifacts, c);
          MoveHead(s.checkpoints, s.heads, c);
        }
      case DoPutArtifact(a) =>
        if PutArtifact(s, a).Ok? && PutArtifact(s, a).value.1 { StoreArtifact(s.checkpoints, s.artifacts, a); }
      case DoCommit(r) =>
        if CommitCheckpoint(s, r).Ok? {
          StoreOne(s.checkpoints, s.artifacts, r.checkpoint);
          MoveHead(s.checkpoints, s.heads, r.checkpoint);
        }
      case DoPutTurn(t) =>
    }
  }

  lemma {:induction false} InvRun(s: Value, script: seq<Op>)
    requires Inv(s)
    ensures Inv(Run(s, script))
  {
    hide Step, Inv;
    if script != [] {
      InvRun(s, script[..|script| - 1]);
      InvStep(Run(s, script[..|script| - 1]), script[|script| - 1]);
    }
  }

  /** In every reachable state each stored checkpoint has a finite parent chain in its own scope ending
      at a parentless checkpoint, its parent and all its artifacts are stored in that scope, and every
      scope head is a stored checkpoint of that scope. */
  lemma LineageGrounded(script: seq<Op>, id: Id)
    requires id in Run(EMPTY, script).checkpoints
    ensures var s := Run(EMPTY, script); StoredOk(s.checkpoints, s.artifacts, id)
    ensures var s := Run(EMPTY, script);
            forall scope :: scope in s.heads ==> s.heads[scope] in s.checkpoints && s.checkpoints[s.heads[scope]].scope == scope
  {
    hide Run, StoredOk;
    assert Inv(EMPTY);
    InvRun(EMPTY, script);
  }

  /** A stored checkpoint or artifact never changes and never disappears. */
  lemma {:induction false} Immutable(s: Value, script: seq<Op>, id: Id)
    ensures id in s.checkpoints ==> id in Run(s, script).checkpoints && Run(s, script).checkpoints[id] == s.checkpoints[id]
    ensures id in s.artifacts ==> id in Run(s, script).artifacts && Run(s, script).artifacts[id] == s.artifacts[id]
  {
    if script != [] {
      Immutable(s, script[..|script| - 1], id);
      ImmutableStep(Run(s, script[..|script| - 1]), script[|script| - 1], id);
    }
  }

  lemma ImmutableStep(s: Value, op: Op, id: Id)
    ensures id in s.checkpoints ==> id in Step(s, op).checkpoints && Step(s, op).checkpoints[id] == s.checkpoints[id]
    ensures id in s.artifacts ==> id in Step(s, op).artifacts && Step(s, op).artifacts[id] == s.artifacts[id]
  {
    hide Grounded;
  }

  /** A head moves only by a commit that named its current value, to a checkpoint of that scope; and the
      Turn that commits on top of a checkpoint extends it. */
  lemma HeadMovesByCas(script: seq<Op>, op: Op, scope: Id)
    ensures var s, s' := Run(EMPTY, script), Step(Run(EMPTY, script), op);
            HeadOf(s', scope) != HeadOf(s, scope) ==>
              && op.DoCommit? && op.request.expectedHead == HeadOf(s, scope)
              && op.request.checkpoint.scope == scope && HeadOf(s', scope) == op.request.checkpoint.id
              && op.request.turn in s.turns && s.turns[op.request.turn].session == scope
    ensures var s, s' := Run(EMPTY, script), Step(Run(EMPTY, script), op);
            op.DoCommit? && CommitCheckpoint(s, op.request).Ok? ==>
              && op.request.turn in s.turns && op.request.turn in s'.turns
              && s'.turns[op.request.turn].revision == s.turns[op.request.turn].revision + 1
              && s'.turns[op.request.turn].checkpoint in s'.checkpoints
              && (s.turns[op.request.turn].checkpoint != Empty ==>
                    s'.checkpoints[s'.turns[op.request.turn].checkpoint].parent == s.turns[op.request.turn].checkpoint)
  {
    hide Run, AllStored, HeadsStored, Grounded;
    EmptyOk();
    InvRun(EMPTY, script);
  }

  lemma EmptyOk()
    ensures Inv(EMPTY)
  {
  }

  // ---------------------------------------------------------------- exactly what is accepted

  /** The parent, if any, and every artifact are stored in the checkpoint's own scope. */
  ghost predicate DependenciesStored(s: Value, c: Checkpoint) {
    && (c.parent == Empty || exists p :: p in s.checkpoints && p == c.parent && s.checkpoints[p].scope == c.scope)
    && (forall i :: 0 <= i < |c.artifacts| ==> c.artifacts[i] in s.artifacts && s.artifacts[c.artifacts[i]].scope == c.scope)
  }

  /** A checkpoint is stored, or replayed, exactly when it is well formed, its dependencies are stored and no
      other checkpoint has its identity; an artifact exactly when no other artifact does. */
  lemma PutExactly(s: Value, c: Checkpoint, a: Artifact)
    ensures PutCheckpoint(s, c).Ok? <==>
              Empty !in {c.id, c.scope} && DependenciesStored(s, c) && (c.id in s.checkpoints ==> s.checkpoints[c.id] == c)
    ensures PutCheckpoint(s, c).Ok? ==> PutCheckpoint(s, c).value == (c, c.id !in s.checkpoints)
    ensures PutArtifact(s, a).Ok? <==> Empty !in {a.id, a.scope} && (a.id in s.artifacts ==> s.artifacts[a.id] == a)
    ensures PutArtifact(s, a).Ok? ==> PutArtifact(s, a).value == (a, a.id !in s.artifacts)
  {
    GroundedMeans(s, c);
    hide Grounded, DependenciesStored;
  }

  lemma GroundedMeans(s: Value, c: Checkpoint)
    ensures Grounded(s.checkpoints, s.artifacts, c) <==> DependenciesStored(s, c)
  {
    if DependenciesStored(s, c) {
      forall a | a in c.artifacts ensures a in s.artifacts && s.artifacts[a].scope == c.scope {
        var i :| 0 <= i < |c.artifacts| && c.artifacts[i] == a;
      }
    }
  }

  /** A commit is accepted exactly when its Turn is stored at the expected revision and checkpoint, in the
      checkpoint's scope; the checkpoint extends the Turn's last one, if there is one, and may be stored; and
      a scope without a head was not expected to have one. */
  lemma CommitExactly(s: Value, r: Request)
    ensures var c := r.checkpoint;
            CommitCheckpoint(s, r).Ok? <==>
              && Empty !in {r.turn, c.id, c.scope} && r.expectedRevision > 0 && r.turn in s.turns
              && s.turns[r.turn].revision == r.expectedRevision && s.turns[r.turn].checkpoint == r.expectedCheckpoint
              && s.turns[r.turn].session == c.scope && r.expectedCheckpoint in {Empty, c.parent}
              && DependenciesStored(s, c) && (c.id in s.checkpoints ==> s.checkpoints[c.id] == c)
              && (c.scope !in s.heads || s.heads[c.scope] == Empty ==> r.expectedHead == Empty)
  {
    GroundedMeans(s, r.checkpoint);
    hide Grounded, DependenciesStored;
  }

  /** What an accepted commit leaves: the checkpoint stored, the Turn on it at the next revision, and as the
      head of the scope the new checkpoint if the old head was the expected one, and the old head otherwise.
      Nothing else changes, and a refused commit changes nothing. */
  lemma CommitEffect(s: Value, r: Request, scope: Id, turn: Id)
    requires r.turn in s.turns ==> s.turns[r.turn].id == r.turn
    ensures var s', c := Step(s, DoCommit(r)), r.checkpoint;
            if CommitCheckpoint(s, r).Err? then s' == s
            else
              && s'.checkpoints == s.checkpoints[c.id := c] && s'.artifacts == s.artifacts
              && r.turn in s.turns && s'.turns.Keys == s.turns.Keys
              && s'.turns[r.turn] == s.turns[r.turn].(checkpoint := c.id, revision := s.turns[r.turn].revision + 1)
              && (turn in s.turns && turn != r.turn ==> s'.turns[turn] == s.turns[turn])
              && HeadOf(s', c.scope) == (if HeadOf(s, c.scope) == r.expectedHead then c.id else HeadOf(s, c.scope))
              && (scope != c.scope ==> HeadOf(s', scope) == HeadOf(s, scope))
  {
    hide Grounded;
  }

  /** A stored checkpoint or artifact changes nothing else; a refusal or a replay changes nothing. */
  lemma PutEffect(s: Value, c: Checkpoint, a: Artifact)
    ensures Step(s, DoPutCheckpoint(c)) ==
            if PutCheckpoint(s, c).Ok? && c.id !in s.checkpoints then s.(checkpoints := s.checkpoints[c.id := c]) else s
    ensures Step(s, DoPutArtifact(a)) ==
            if PutArtifact(s, a).Ok? && a.id !in s.artifacts then s.(artifacts := s.artifacts[a.id := a]) else s
  {
    hide Grounded;
  }

  /** The first commit in a scope sets its head, and every later commit that names the head moves it. */
  lemma HeadAdvances(s: Value, r: Request)
    requires CommitCheckpoint(s, r).Ok? && (r.checkpoint.scope in s.heads ==> s.heads[r.checkpoint.scope] == r.expectedHead)
    ensures var s' := Step(s, DoCommit(r));
            r.checkpoint.scope in s'.heads && s'.heads[r.checkpoint.scope] == r.checkpoint.id
  {
    hide Grounded;
  }

  // ---------------------------------------------------------------- the Store object

  class Store {
    var turns: map<Id, ContextTurn>
    var checkpoints: map<Id, Checkpoint>
    var heads: map<Id, Id>
    var artifacts: map<Id, Artifact>

    ghost function View(): Value
      reads this
    {
      Value(turns, checkpoints, heads, artifacts)
    }

    constructor ()
      ensures View() == EMPTY && Inv(View())
    {
      turns, checkpoints, heads, artifacts := map[], map[], map[], map[];
    }

    method ValidateDependencies(c: Checkpoint) returns (ok: bool)
      ensures ok <==> Grounded(checkpoints, artifacts, c)
    {
      if c.parent != Empty {
        if c.parent !in checkpoints || checkpoints[c.parent].scope != c.scope { return false; }
      }
      for i := 0 to |c.artifacts|
        invariant forall k :: 0 <= k < i ==> c.artifacts[k] in artifacts && artifacts[c.artifacts[k]].scope == c.scope
      {
        if c.artifacts[i] !in artifacts || artifacts[c.artifacts[i]].scope != c.scope { return false; }
      }
      return true;
    }

    method PutContextCheckpoint(c: Checkpoint) returns (r: Outcome<(Checkpoint, bool)>)
      requires Inv(View())
      modifies this
      ensures r == PutCheckpoint(old(View()), c)
      ensures View() == Step(old(View()), DoPutCheckpoint(c)) && Inv(View())
    {
      hide Inv, Grounded;
      InvStep(View(), DoPutCheckpoint(c));
      if !ValidCheckpoint(c) { return Err(InvalidRequest); }
      var ok := ValidateDependencies(c);
      if !ok { return Err(Conflict); }
      if c.id in checkpoints {
        if checkpoints[c.id] != c { return Err(Conflict); }
        return Ok((checkpoints[c.id], false));
      }
      checkpoints := checkpoints[c.id := c];
      return Ok((c, true));
    }

    method PutContextArtifact(a: Artifact) returns (r: Outcome<(Artifact, bool)>)
      requires Inv(View())
      modifies this
      ensures r == PutArtifact(old(View()), a)
      ensures View() == Step(old(View()), DoPutArtifact(a)) && Inv(View())
    {
      hide Inv;
      InvStep(View(), DoPutArtifact(a));
      if !ValidArtifact(a) { return Err(InvalidRequest); }
      if a.id in artifacts {
        if artifacts[a.id] != a { return Err(Conflict); }
        return Ok((artifacts[a.id], false));
      }
      artifacts := artifacts[a.id := a];
      return Ok((a, true));
    }

    /** The checkpoint, the Turn and the head are written together or not at all; a commit whose
        expected head is stale still lands, detached from the head. */
    method CommitContextCheckpoint(q: Request) returns (r: Outcome<(ContextTurn, bool)>)
      requires Inv(View())
      modifies this
      ensures r == CommitCheckpoint(old(View()), q)
      ensures View() == Step(old(View()), DoCommit(q)) && Inv(View())
    {
      hide AllStored, HeadsStored, Grounded;
      InvStep(View(), DoCommit(q));
      var c := q.checkpoint;
      if q.turn == Empty || q.expectedRevision == 0 || !ValidCheckpoint(c) { return Err(InvalidRequest); }
      if q.turn !in turns { return Err(NotFound); }
      var turn := turns[q.turn];
      if turn.revision != q.expectedRevision || turn.checkpoint != q.expectedCheckpoint || turn.session != c.scope {
        return Err(Conflict);
      }
      if q.expectedCheckpoint != Empty && c.parent != q.expectedCheckpoint { return Err(Conflict); }
      var ok := ValidateDependencies(c);
      if !ok { return Err(Conflict); }
      if c.id in checkpoints && checkpoints[c.id] != c { return Err(Conflict); }
      var head := if c.scope in heads then heads[c.scope] else Empty;
      if head == Empty && q.expectedHead != Empty { return Err(Conflict); }
      turn := turn.(checkpoint := c.id, revision := q.expectedRevision + 1);
      checkpoints := checkpoints[c.id := c];
      if head == q.expectedHead { heads := heads[c.scope := c.id]; }
      turns := turns[turn.id := turn];
      return Ok((turn, head == q.expectedHead));
    }
  }
}
