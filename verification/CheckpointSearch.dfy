/**
 Finding the newest reusable Context checkpoint on one source path. The memory Store scans every
 checkpoint; the relational Store hashes the path and asks for candidates 256 hashes at a time,
 newest suffix first. Both must return the same record for every hash function and row order.
 */
module CheckpointSearch {
  import opened Records

  /** The columns the search reads. */
  datatype Checkpoint = Checkpoint(
    id: string, scope: string, fingerprint: string, generation: nat, revision: nat,
    covered: string, pathHash: string, aligned: bool)

  datatype Query = Query(scope: string, fingerprint: string, path: seq<string>)

  type Hash = (string, string) -> string

  const CHUNK: nat := 256

  // ---------------------------------------------------------------- order on identities

  /** Byte-wise order on identities. */
  predicate Less(a: string, b: string) {
    b != [] && (a == [] || a[0] < b[0] || (a[0] == b[0] && Less(a[1..], b[1..])))
  }

  lemma {:induction false} LessTotal(a: string, b: string)
    ensures Less(a, b) || Less(b, a) || a == b
    ensures !(Less(a, b) && Less(b, a))
  {
    if a != [] && b != [] && a[0] == b[0] {
      LessTotal(a[1..], b[1..]);
      assert a == [a[0]] + a[1..] && b == [b[0]] + b[1..];
    }
  }

  lemma {:induction false} LessTransitive(a: string, b: string, c: string)
    requires Less(a, b) && Less(b, c)
    ensures Less(a, c)
  {
    if a != [] && a[0] == b[0] == c[0] { LessTransitive(a[1..], b[1..], c[1..]); }
  }

  // ---------------------------------------------------------------- which record wins

  predicate Normalized(q: Query) {
    && q.scope != "" && q.fingerprint != "" && q.path != []
    && (forall i :: 0 <= i < |q.path| ==> q.path[i] != "")
    && (forall i, j :: 0 <= i < j < |q.path| ==> q.path[i] != q.path[j])
  }

  /** The ancestry hash of the path up to and including position `i`. */
  function PathHash(h: Hash, path: seq<string>, i: nat): string
    requires i < |path|
  {
    h(if i == 0 then "" else PathHash(h, path, i - 1), path[i])
  }

  /** The record covers exactly the first `i + 1` sources of the path. */
  predicate CoversAt(h: Hash, q: Query, c: Checkpoint, i: int) {
    && c.scope == q.scope && c.fingerprint == q.fingerprint && c.aligned
    && 0 <= i < |q.path| && c.covered == q.path[i] && c.pathHash == PathHash(h, q.path, i)
  }

  /** Newest first: later path position, then generation, then revision, then identity. */
  predicate Newer(l: Checkpoint, i: int, r: Checkpoint, j: int) {
    i > j || (i == j && (l.generation > r.generation || (l.generation == r.generation &&
      (l.revision > r.revision || (l.revision == r.revision && Less(r.id, l.id))))))
  }

  lemma NewerTransitive(a: Checkpoint, i: int, b: Checkpoint, j: int, c: Checkpoint, k: int)
    requires Newer(a, i, b, j) && Newer(b, j, c, k)
    ensures Newer(a, i, c, k)
  {
    if Less(b.id, a.id) && Less(c.id, b.id) { LessTransitive(c.id, b.id, a.id); }
  }

  /** The lexicographic maximum among all records that cover a prefix of the path. */
  ghost predicate Best(h: Hash, q: Query, table: seq<Checkpoint>, c: Checkpoint, i: int) {
    && c in table && CoversAt(h, q, c, i)
    && forall d, j :: d in table && CoversAt(h, q, d, j) && d != c ==> Newer(c, i, d, j)
  }

  /** Stored records are valid and keyed by their identity. */
  ghost predicate Table(table: seq<Checkpoint>) {
    && (forall c :: c in table ==> c.id != "")
    && (forall c, d :: c in table && d in table && c.id == d.id ==> c == d)
  }

  lemma CoversOnce(h: Hash, q: Query, c: Checkpoint, i: int, j: int)
    requires Normalized(q) && CoversAt(h, q, c, i) && CoversAt(h, q, c, j)
    ensures i == j
  {
  }

  /** There is one winner, however it is found. */
  lemma BestUnique(h: Hash, q: Query, table: seq<Checkpoint>, c: Checkpoint, i: int, d: Checkpoint, j: int)
    requires Normalized(q) && Best(h, q, table, c, i) && Best(h, q, table, d, j)
    ensures c == d && i == j
  {
    if c != d {
      LessTotal(c.id, d.id);
    } else {
      CoversOnce(h, q, c, i, j);
    }
  }

  // ---------------------------------------------------------------- the full scan

  method NormalizeQuery(q: Query) returns (ok: bool)
    ensures ok <==> Normalized(q)
  {
    if q.scope == "" || q.fingerprint == "" || q.path == [] { return false; }
    var seen: set<string> := {};
    for i := 0 to |q.path|
      invariant forall s :: s in seen <==> exists k :: 0 <= k < i && q.path[k] == s
      invariant forall k :: 0 <= k < i ==> q.path[k] != ""
      invariant forall j, k :: 0 <= j < k < i ==> q.path[j] != q.path[k]
    {
      if q.path[i] == "" || q.path[i] in seen { return false; }
      seen := seen + {q.path[i]};
    }
    return true;
  }

  method SourceIndex(h: Hash, q: Query, c: Checkpoint) returns (index: int)
    requires c.scope == q.scope && c.fingerprint == q.fingerprint
    ensures index >= 0 ==> CoversAt(h, q, c, index)
    ensures index < 0 ==> index == -1 && forall i :: !CoversAt(h, q, c, i)
  {
    if !c.aligned { return -1; }
    var current := "";
    for i := 0 to |q.path|
      invariant i > 0 ==> current == PathHash(h, q.path, i - 1)
      invariant i == 0 ==> current == ""
      invariant forall k :: 0 <= k < i ==> !CoversAt(h, q, c, k)
    {
      current := h(current, q.path[i]);
      if q.path[i] == c.covered && current == c.pathHash { return i; }
    }
    return -1;
  }

  /** `best` leads every record of `done` that covers a position in `[start, end)`. */
  ghost predicate Leads(h: Hash, q: Query, done: seq<Checkpoint>, start: int, end: int, best: Checkpoint, bestIndex: int) {
    && (bestIndex < 0 ==> bestIndex == -1 && forall d, j :: d in done && start <= j < end ==> !CoversAt(h, q, d, j))
    && (bestIndex >= 0 ==>
          && best in done && start <= bestIndex < end && CoversAt(h, q, best, bestIndex)
          && forall d, j :: d in done && start <= j < end && CoversAt(h, q, d, j) && d != best ==> Newer(best, bestIndex, d, j))
  }

  /** The loop's acceptance test, for a candidate at `index` against the best so far. */
  predicate Replaces(c: Checkpoint, index: int, best: Checkpoint, bestIndex: int) {
    index >= 0 && index >= bestIndex && (index == bestIndex ==> best.id == "" || NewerRecord(c, best))
  }

  predicate NewerRecord(l: Checkpoint, r: Checkpoint) {
    if l.generation != r.generation then l.generation > r.generation
    else if l.revision != r.revision then l.revision > r.revision
    else Less(r.id, l.id)
  }

  /** One more record: the winner so far changes exactly when the test says so. */
  lemma LeadsMore(h: Hash, q: Query, table: seq<Checkpoint>, done: seq<Checkpoint>, start: int, end: int,
                  best: Checkpoint, bestIndex: int, c: Checkpoint, index: int)
    requires Normalized(q) && Table(table) && (forall d :: d in done + [c] ==> d in table)
    requires Leads(h, q, done, start, end, best, bestIndex)
    requires start <= index < end && CoversAt(h, q, c, index)
    ensures Replaces(c, index, best, bestIndex) ==> Leads(h, q, done + [c], start, end, c, index)
    ensures !Replaces(c, index, best, bestIndex) ==> Leads(h, q, done + [c], start, end, best, bestIndex)
  {
    forall j | CoversAt(h, q, c, j) ensures j == index { CoversOnce(h, q, c, index, j); }
    if bestIndex >= 0 {
      LessTotal(c.id, best.id);
      if Replaces(c, index, best, bestIndex) {
        assert Newer(c, index, best, bestIndex);
        forall d, j | d in done && start <= j < end && CoversAt(h, q, d, j) && d != c ensures Newer(c, index, d, j) {
          if d != best {
            NewerTransitive(c, index, best, bestIndex, d, j);
          } else {
            CoversOnce(h, q, best, bestIndex, j);
          }
        }
      } else {
        assert c != best ==> Newer(best, bestIndex, c, index);
      }
    }
  }

  lemma LeadsSkip(h: Hash, q: Query, done: seq<Checkpoint>, start: int, end: int, best: Checkpoint, bestIndex: int,
                  c: Checkpoint)
    requires Leads(h, q, done, start, end, best, bestIndex) && forall j :: start <= j < end ==> !CoversAt(h, q, c, j)
    ensures Leads(h, q, done + [c], start, end, best, bestIndex)
  {
  }

  /** The memory Store: one pass over all records, in whatever order the map yields them. */
  method FindInMemory(h: Hash, q: Query, table: seq<Checkpoint>) returns (r: Outcome<Checkpoint>)
    requires Table(table)
    ensures r == Err(InvalidRequest) <==> !Normalized(q)
    ensures r.Ok? ==> exists i :: Best(h, q, table, r.value, i)
    ensures r.Err? && Normalized(q) ==> r.error == NotFound && forall d, j :: d in table ==> !CoversAt(h, q, d, j)
  {
    var ok := NormalizeQuery(q);
    if !ok { return Err(InvalidRequest); }
    var bestIndex := -1;
    var best := Checkpoint("", "", "", 0, 0, "", "", false);
    for n := 0 to |table|
      invariant Leads(h, q, table[..n], 0, |q.path|, best, bestIndex)
    {
      var c := table[n];
      assert table[..n + 1] == table[..n] + [c];
      var index := -1;
      if c.scope == q.scope && c.fingerprint == q.fingerprint { index := SourceIndex(h, q, c); }
      if index >= 0 {
        LeadsMore(h, q, table, table[..n], 0, |q.path|, best, bestIndex, c, index);
      } else {
        LeadsSkip(h, q, table[..n], 0, |q.path|, best, bestIndex, c);
      }
      if Replaces(c, index, best, bestIndex) { best, bestIndex := c, index; }
    }
    assert table[..|table|] == table;
    if bestIndex < 0 { return Err(NotFound); }
    assert Best(h, q, table, best, bestIndex);
    return Ok(best);
  }

  // ---------------------------------------------------------------- the chunked search

  method PathIndex(h: Hash, path: seq<string>) returns (positions: map<string, int>, hashes: seq<string>)
    requires forall i, j :: 0 <= i < j < |path| ==> path[i] != path[j]
    ensures |hashes| == |path| && forall i :: 0 <= i < |path| ==> hashes[i] == PathHash(h, path, i)
    ensures forall i :: 0 <= i < |path| ==> path[i] in positions && positions[path[i]] == i
    ensures forall s :: s in positions ==> 0 <= positions[s] < |path| && path[positions[s]] == s
  {
    hide PathHash;
    positions, hashes := map[], [];
    var current := "";
    for i := 0 to |path|
      invariant |hashes| == i && forall k :: 0 <= k < i ==> hashes[k] == PathHash(h, path, k)
      invariant i > 0 ==> current == PathHash(h, path, i - 1)
      invariant i == 0 ==> current == ""
      invariant forall k :: 0 <= k < i ==> path[k] in positions && positions[path[k]] == k
      invariant forall s :: s in positions ==> 0 <= positions[s] < i && path[positions[s]] == s
    {
      HashStep(h, path, i, current);
      current := h(current, path[i]);
      positions := positions[path[i] := i];
      hashes := hashes + [current];
    }
  }

  lemma HashStep(h: Hash, path: seq<string>, i: nat, current: string)
    requires i < |path| && current == if i == 0 then "" else PathHash(h, path, i - 1)
    ensures PathHash(h, path, i) == h(current, path[i])
  {
  }

  /** The database: candidates with one of these path hashes, in an order of its own. */
  method LoadCandidates(q: Query, table: seq<Checkpoint>, hashes: seq<string>) returns (rows: seq<Checkpoint>)
    ensures forall c :: c in rows <==>
              c in table && c.scope == q.scope && c.fingerprint == q.fingerprint && c.aligned && c.pathHash in hashes
  {
    rows := [];
    for i := 0 to |table|
      invariant forall c :: c in rows <==>
                  c in table[..i] && c.scope == q.scope && c.fingerprint == q.fingerprint && c.aligned && c.pathHash in hashes
    {
      assert table[..i + 1] == table[..i] + [table[i]];
      if table[i].scope == q.scope && table[i].fingerprint == q.fingerprint && table[i].aligned && table[i].pathHash in hashes {
        var last: bool := *;
        rows := if last then rows + [table[i]] else [table[i]] + rows;
      }
    }
    assert table[..|table|] == table;
  }

  /** The best candidate of one chunk. */
  method BestOfChunk(h: Hash, q: Query, table: seq<Checkpoint>, positions: map<string, int>, hashes: seq<string>,
                     start: nat, end: nat)
    returns (best: Checkpoint, bestIndex: int)
    requires Normalized(q) && Table(table) && start <= end <= |q.path| == |hashes|
    requires forall i :: 0 <= i < |q.path| ==> hashes[i] == PathHash(h, q.path, i)
    requires forall i :: 0 <= i < |q.path| ==> q.path[i] in positions && positions[q.path[i]] == i
    requires forall s :: s in positions ==> 0 <= positions[s] < |q.path| && q.path[positions[s]] == s
    ensures Leads(h, q, table, start, end, best, bestIndex)
  {
    var rows := LoadCandidates(q, table, hashes[start..end]);
    bestIndex := -1;
    best := Checkpoint("", "", "", 0, 0, "", "", false);
    for n := 0 to |rows|
      invariant Leads(h, q, rows[..n], start, end, best, bestIndex)
    {
      var c := rows[n];
      assert rows[..n + 1] == rows[..n] + [c] && c in rows;
      var index := -1;
      if c.covered in positions && c.pathHash == hashes[positions[c.covered]] { index := positions[c.covered]; }
      if start <= index < end {
        LeadsMore(h, q, table, rows[..n], start, end, best, bestIndex, c, index);
      } else {
        LeadsSkip(h, q, rows[..n], start, end, best, bestIndex, c);
      }
      if Replaces(c, index, best, bestIndex) && start <= index < end { best, bestIndex := c, index; }
    }
    assert rows[..|rows|] == rows;
    forall d, j | d in table && start <= j < end && CoversAt(h, q, d, j) ensures d in rows {
      assert hashes[start..end][j - start] == d.pathHash;
    }
  }

  /** The relational Store: newest 256 positions first. It finds the record the full scan finds, and
      its final recheck never reports a conflict. */
  method FindContextCheckpointForPath(h: Hash, q: Query, table: seq<Checkpoint>) returns (r: Outcome<Checkpoint>)
    requires Table(table)
    ensures r == Err(InvalidRequest) <==> !Normalized(q)
    ensures r.Ok? ==> exists i :: Best(h, q, table, r.value, i)
    ensures r.Err? && Normalized(q) ==> r.error == NotFound && forall d, j :: d in table ==> !CoversAt(h, q, d, j)
  {
    var ok := NormalizeQuery(q);
    if !ok { return Err(InvalidRequest); }
    var positions, hashes := PathIndex(h, q.path);
    var end := |hashes|;
    while end > 0
      invariant 0 <= end <= |q.path|
      invariant forall d, j :: d in table && j >= end ==> !CoversAt(h, q, d, j)
    {
      var start := if end - CHUNK > 0 then end - CHUNK else 0;
      var best, bestIndex := BestOfChunk(h, q, table, positions, hashes, start, end);
      if bestIndex >= 0 {
        assert Best(h, q, table, best, bestIndex);
        var again := SourceIndex(h, q, best);
        assert again == bestIndex by { CoversOnce(h, q, best, if again >= 0 then again else bestIndex, bestIndex); }
        if again != bestIndex { return Err(Conflict); }
        return Ok(best);
      }
      end := start;
    }
    return Err(NotFound);
  }

  /** The two searches agree on every path, table and hash function. */
  lemma SearchesAgree(h: Hash, q: Query, table: seq<Checkpoint>, scanned: Outcome<Checkpoint>, chunked: Outcome<Checkpoint>,
                      i: int, j: int)
    requires Table(table) && Normalized(q)
    requires if scanned.Ok? then Best(h, q, table, scanned.value, i)
             else scanned.error == NotFound && forall d, k :: d in table ==> !CoversAt(h, q, d, k)
    requires if chunked.Ok? then Best(h, q, table, chunked.value, j)
             else chunked.error == NotFound && forall d, k :: d in table ==> !CoversAt(h, q, d, k)
    ensures scanned == chunked
  {
    if scanned.Ok? && chunked.Ok? { BestUnique(h, q, table, scanned.value, i, chunked.value, j); }
  }

  // ---------------------------------------------------------------- what the order means

  /** Identities compare at the first place where they differ; a proper prefix comes first. */
  ghost predicate DiffersAt(a: string, b: string, k: nat) {
    && k <= |a| && k < |b| && (forall i :: 0 <= i < k ==> a[i] == b[i])
    && (k == |a| || a[k] < b[k])
  }

  lemma {:induction false} LessMeans(a: string, b: string)
    ensures Less(a, b) <==> exists k: nat :: DiffersAt(a, b, k)
  {
    if b != [] && a != [] && a[0] == b[0] {
      LessMeans(a[1..], b[1..]);
      if k: nat :| DiffersAt(a[1..], b[1..], k) {
        forall i | 0 <= i < k + 1 ensures a[i] == b[i] {
          if i > 0 { assert a[1..][i - 1] == b[1..][i - 1]; }
        }
        assert DiffersAt(a, b, k + 1);
      }
      if k: nat :| DiffersAt(a, b, k) {
        assert k > 0;
        assert DiffersAt(a[1..], b[1..], k - 1);
      }
    } else {
      if Less(a, b) { assert DiffersAt(a, b, 0); }
      if k: nat :| DiffersAt(a, b, k) { assert k == 0; }
    }
  }

  /** Between two records: the later path position wins whatever else; at one position the later generation, in one
      generation the later revision, and in one revision the greater identity. */
  lemma NewerMeans(l: Checkpoint, i: int, r: Checkpoint, j: int)
    ensures i != j ==> (Newer(l, i, r, j) <==> i > j)
    ensures i == j && l.generation != r.generation ==> (Newer(l, i, r, j) <==> l.generation > r.generation)
    ensures i == j && l.generation == r.generation && l.revision != r.revision ==> (Newer(l, i, r, j) <==> l.revision > r.revision)
    ensures i == j && l.generation == r.generation && l.revision == r.revision ==> (Newer(l, i, r, j) <==> Less(r.id, l.id))
  {
  }

  /** The running hash of a list of sources. */
  function Folded(h: Hash, start: string, path: seq<string>): string
    decreases |path|
  {
    if path == [] then start else Folded(h, h(start, path[0]), path[1..])
  }

  lemma {:induction false} FoldLast(h: Hash, start: string, path: seq<string>, x: string)
    ensures Folded(h, start, path + [x]) == h(Folded(h, start, path), x)
    decreases |path|
  {
    if path == [] {
      assert path + [x] == [x] && [x][1..] == [];
    } else {
      assert (path + [x])[1..] == path[1..] + [x];
      FoldLast(h, h(start, path[0]), path[1..], x);
    }
  }

  lemma {:induction false} PathHashMeans(h: Hash, path: seq<string>, i: nat)
    requires i < |path|
    ensures PathHash(h, path, i) == Folded(h, "", path[..i + 1])
  {
    assert path[..i + 1] == path[..i] + [path[i]];
    FoldLast(h, "", path[..i], path[i]);
    if i > 0 { PathHashMeans(h, path, i - 1); }
  }

  /** A record is reusable exactly at a position whose source it covers last and whose whole path so far hashes to
      the recorded hash, for an aligned record of the same scope and fingerprint. */
  lemma CoversMeans(h: Hash, q: Query, c: Checkpoint, i: nat)
    requires i < |q.path|
    ensures CoversAt(h, q, c, i) <==>
              && (c.scope, c.fingerprint, c.covered) == (q.scope, q.fingerprint, q.path[i]) && c.aligned
              && c.pathHash == Folded(h, "", q.path[..i + 1])
    ensures !CoversAt(h, q, c, |q.path|) && !CoversAt(h, q, c, -1)
  {
    PathHashMeans(h, q.path, i);
    hide PathHash, Folded;
  }

  /** A query may be asked exactly when it names a scope, a fingerprint and a path of sources, all different and none
      of them blank. */
  lemma NormalizedMeans(q: Query)
    ensures Normalized(q) <==>
              q.path != [] && "" !in [q.scope, q.fingerprint] + q.path && |set x | x in q.path| == |q.path|
  {
    assert "" in [q.scope, q.fingerprint] + q.path <==> q.scope == "" || q.fingerprint == "" || "" in q.path by {
      assert ([q.scope, q.fingerprint] + q.path)[0] == q.scope && ([q.scope, q.fingerprint] + q.path)[1] == q.fingerprint;
    }
    DistinctMeans(q.path);
  }

  lemma {:induction false} DistinctMeans(path: seq<string>)
    ensures |set x | x in path| <= |path|
    ensures |set x | x in path| == |path| <==> forall i, j :: 0 <= i < j < |path| ==> path[i] != path[j]
  {
    if path != [] {
      var front, last := path[..|path| - 1], path[|path| - 1];
      DistinctMeans(front);
      assert (set x | x in path) == (set x | x in front) + {last};
      if last in front {
        var i :| 0 <= i < |front| && front[i] == last;
        assert path[i] == path[|path| - 1];
        assert (set x | x in path) == (set x | x in front);
      } else {
        assert forall i :: 0 <= i < |front| ==> front[i] in front;
      }
    }
  }
}
