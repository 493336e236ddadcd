/** The small Stores in which counterexample runs are played. */
module Scene {
  import opened Records
  import opened Ledger
  import opened Admission

  const TURN := Turn(Name("turn"), Name("session"), Empty, Running, 1)
  const INPUT := Object(map[])
  const ROOT := Invocation(Name("root"), Name("turn"), Empty, Name("app"), "v1", Application, INPUT, Sha256(INPUT),
                           Name("run"), Accepted, 1, 1)

  /** A Store holding one Turn and its root. */
  function Alone(t: Turn, v: Invocation): State {
    State(map[t.id := t], map[v.id := v], map[v.ref := v.id], map[], map[], map[])
  }

  lemma QuietLedger(s: State, t: Id, id: Id)
    requires t !in s.items
    ensures LedgerOf(s, t) == [] && !ActiveFence(LedgerOf(s, t)) && !Pending(LedgerOf(s, t), id)
  {
  }

  lemma RunNone(s: State)
    ensures Run(s, []) == s
  {
  }

  lemma RunSnoc(s: State, script: seq<Op>, op: Op)
    ensures Run(s, script + [op]) == Step(Run(s, script), op)
  {
    assert (script + [op])[..|script|] == script;
  }
}
