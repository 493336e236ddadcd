/**
 Sealing a child's Input to the Attempts it was admitted under, and reading that proof back.
 The proof lives inside the hashed Input, so a later Attempt of an ancestor cannot rebind the child.
 */
module ChildRoot {
  import opened Records

  /** The root and the parents name valid Attempts of pairwise distinct Invocations. */
  predicate DistinctOwners(p: RootBinding) {
    && ValidBinding(p.root)
    && (forall i :: 0 <= i < |p.parents| ==>
          ValidBinding(p.parents[i]) && p.parents[i].invocation != p.root.invocation)
    && (forall i, j :: 0 <= i < j < |p.parents| ==> p.parents[i].invocation != p.parents[j].invocation)
  }

  /** The immutable ancestry proof of a child, if its Input carries a well-formed one. */
  function Frozen(v: Invocation): Option<RootBinding> {
    if && v.parent != Empty && v.input.Object? && v.inputHash == Sha256(v.input)
       && HarnessRoot in v.input.fields && v.input.fields[HarnessRoot].Proof?
       && DistinctOwners(v.input.fields[HarnessRoot].proof)
    then Some(v.input.fields[HarnessRoot].proof)
    else None
  }

  /** Every Attempt the child depends on: its non-root ancestors, then the root. */
  function Ancestors(p: RootBinding): seq<Binding> {
    p.parents + [p.root]
  }

  predicate Sealable(input: Input, inputHash: Digest, root: Invocation, parents: seq<Binding>) {
    && input.Object? && inputHash == Sha256(input) && HarnessRoot !in input.fields
    && root.parent == Empty && !Terminal(root.status)
    && DistinctOwners(RootBinding(Attempt(root), parents))
  }

  function Seal(input: Input, root: Invocation, parents: seq<Binding>): Input
    requires input.Object?
  {
    Object(input.fields[HarnessRoot := Proof(RootBinding(Attempt(root), parents))])
  }

  method DistinctAttempts(root: Binding, parents: seq<Binding>) returns (ok: bool)
    ensures ok == DistinctOwners(RootBinding(root, parents))
  {
    if !ValidBinding(root) { return false; }
    var seen := {root.invocation};
    for i := 0 to |parents|
      invariant forall id :: id in seen <==>
                  id == root.invocation || exists k :: 0 <= k < i && parents[k].invocation == id
      invariant DistinctOwners(RootBinding(root, parents[..i]))
    {
      if !ValidBinding(parents[i]) || parents[i].invocation in seen {
        if parents[i].invocation in seen && parents[i].invocation != root.invocation {
          ghost var k :| 0 <= k < i && parents[k].invocation == parents[i].invocation;
        }
        return false;
      }
      seen := seen + {parents[i].invocation};
    }
    assert parents[..|parents|] == parents;
    return true;
  }

  method SealChildRootInput(input: Input, inputHash: Digest, root: Invocation, parents: seq<Binding>)
    returns (r: Outcome<(Input, Digest)>)
    ensures r.Ok? <==> Sealable(input, inputHash, root, parents)
    ensures r.Err? ==> r.error == Conflict
    ensures r.Ok? ==> r.value == (Seal(input, root, parents), Sha256(Seal(input, root, parents)))
  {
    if input == NoInput || inputHash != Sha256(input) || root.parent != Empty || Terminal(root.status) {
      return Err(Conflict);
    }
    var distinct := DistinctAttempts(Attempt(root), parents);
    if !distinct { return Err(Conflict); }
    if !input.Object? || HarnessRoot in input.fields { return Err(Conflict); }
    var sealed := Object(input.fields[HarnessRoot := Proof(RootBinding(Attempt(root), parents))]);
    return Ok((sealed, Sha256(sealed)));
  }

  method FrozenChildRoot(v: Invocation) returns (r: Outcome<RootBinding>)
    ensures r == match Frozen(v) case Some(p) => Ok(p) case None => Err(Conflict)
  {
    if v.parent == Empty || v.input == NoInput || v.inputHash != Sha256(v.input) || !v.input.Object? {
      return Err(Conflict);
    }
    if HarnessRoot !in v.input.fields { return Err(Conflict); }
    match v.input.fields[HarnessRoot] {
      case Raw(_) => return Err(Conflict);
      case Proof(p) =>
        var distinct := DistinctAttempts(p.root, p.parents);
        return if distinct then Ok(p) else Err(Conflict);
    }
  }

  /** Unsealing is the inverse of sealing, and sealing touches no other field. */
  lemma SealRoundTrip(input: Input, inputHash: Digest, root: Invocation, parents: seq<Binding>, child: Invocation)
    requires Sealable(input, inputHash, root, parents)
    requires child.parent != Empty && child.input == Seal(input, root, parents) && child.inputHash == Sha256(child.input)
    ensures Frozen(child) == Some(RootBinding(Attempt(root), parents))
    ensures child.input.fields - {HarnessRoot} == input.fields
  {
    assert input.fields - {HarnessRoot} == input.fields;
  }

  /** Two inputs seal to the same Input only when they were the same input under the same Attempts. */
  lemma SealInjective(a: Input, b: Input, h1: Digest, h2: Digest, r1: Invocation, r2: Invocation,
                      p1: seq<Binding>, p2: seq<Binding>)
    requires Sealable(a, h1, r1, p1) && Sealable(b, h2, r2, p2)
    requires Seal(a, r1, p1) == Seal(b, r2, p2)
    ensures a == b && Attempt(r1) == Attempt(r2) && p1 == p2
  {
    var f := Seal(a, r1, p1).fields;
    assert f[HarnessRoot] == Proof(RootBinding(Attempt(r1), p1)) == Proof(RootBinding(Attempt(r2), p2));
    assert a.fields == f - {HarnessRoot} && b.fields == f - {HarnessRoot};
  }

  /** Everybody the proof names, the root first. */
  function Named(p: RootBinding): seq<Binding> {
    [p.root] + p.parents
  }

  /** Well-formed Attempts, no two of one Invocation. */
  ghost predicate WellFormed(all: seq<Binding>) {
    && (forall i :: 0 <= i < |all| ==> Empty !in {all[i].invocation, all[i].ref} && all[i].attempt > 0)
    && (forall i, j :: 0 <= i < j < |all| ==> all[i].invocation != all[j].invocation)
  }

  lemma DistinctMeans(p: RootBinding)
    ensures DistinctOwners(p) <==> WellFormed(Named(p))
  {
    var all := Named(p);
    assert all[0] == p.root;
    assert forall i :: 0 < i < |all| ==> all[i] == p.parents[i - 1];
    assert forall i :: 0 <= i < |p.parents| ==> p.parents[i] == all[i + 1];
    hide Named;
  }

  /** A proof is read exactly from a child whose Input is an object, matches its hash and carries it, well formed. */
  lemma FrozenMeans(v: Invocation, p: RootBinding)
    ensures Frozen(v) == Some(p) <==>
              && v.parent != Empty && v.input.Object? && v.inputHash == Sha256(v.input)
              && HarnessRoot in v.input.fields && v.input.fields[HarnessRoot] == Proof(p) && WellFormed(Named(p))
  {
    DistinctMeans(p);
    hide DistinctOwners, WellFormed, Named;
  }

  /** What may be sealed: a hashed object without a proof, under a parentless root that has not finished. */
  lemma SealableMeans(input: Input, hash: Digest, root: Invocation, parents: seq<Binding>, child: Invocation)
    requires child.parent != Empty && child.input == (if input.Object? then Seal(input, root, parents) else input)
    requires child.inputHash == Sha256(child.input)
    ensures Sealable(input, hash, root, parents) <==>
              && input.Object? && hash == Sha256(input) && HarnessRoot !in input.fields
              && root.parent == Empty && root.status !in FINAL
              && Frozen(child) == Some(RootBinding(Binding(root.id, root.ref, root.attempt), parents))
  {
  }
}
