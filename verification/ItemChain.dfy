/** Walking an Item's parent links. Links are data: they may dangle or form a cycle. */
module ItemChain {
  import opened Records

  /** The Items from `id` upwards, or None when a link dangles or closes a cycle. */
  function Chain(byId: map<Id, Item>, id: Id, seen: set<Id>): Option<seq<Item>>
    decreases byId.Keys - seen
  {
    if id == Empty then Some([])
    else if id in seen || id !in byId then None
    else
      assert id in byId.Keys - seen;
      match Chain(byId, byId[id].parent, seen + {id})
      case None => None
      case Some(rest) => Some([byId[id]] + rest)
  }

  /** Items are immutable and never removed, so a complete chain stays what it is. */
  lemma {:induction false} ChainStable(byId: map<Id, Item>, more: map<Id, Item>, id: Id, seen: set<Id>)
    requires forall k :: k in byId ==> k in more && more[k] == byId[k]
    requires Chain(byId, id, seen).Some?
    ensures Chain(more, id, seen) == Chain(byId, id, seen)
    decreases byId.Keys - seen
  {
    if id != Empty {
      assert id in byId.Keys - seen;
      ChainStable(byId, more, byId[id].parent, seen + {id});
    }
  }

  /** `passed` are the Items from `parent` upwards, each the stored parent of the one before and all distinct,
      and `cursor` comes next. */
  ghost predicate Path(byId: map<Id, Item>, parent: Id, passed: seq<Item>, cursor: Id, seen: set<Id>)
    decreases |passed|
  {
    if passed == [] then cursor == parent && seen == {}
    else
      var last := passed[|passed| - 1];
      && last.id != Empty && last.id in seen && last.id in byId && byId[last.id] == last && last.parent == cursor
      && Path(byId, parent, passed[..|passed| - 1], last.id, seen - {last.id})
  }

  lemma {:induction false} PathGrows(byId: map<Id, Item>, more: map<Id, Item>, parent: Id, passed: seq<Item>, cursor: Id,
                                     seen: set<Id>)
    requires forall k :: k in byId ==> k in more && more[k] == byId[k]
    requires Path(byId, parent, passed, cursor, seen)
    ensures Path(more, parent, passed, cursor, seen)
    decreases |passed|
  {
    if passed != [] {
      var last := passed[|passed| - 1];
      PathGrows(byId, more, parent, passed[..|passed| - 1], last.id, seen - {last.id});
    }
  }

  /** A path and the chain from its end make the whole chain. */
  lemma {:induction false} PathWhole(byId: map<Id, Item>, parent: Id, passed: seq<Item>, cursor: Id, seen: set<Id>)
    requires Path(byId, parent, passed, cursor, seen)
    ensures Whole(passed, Chain(byId, cursor, seen)) == Chain(byId, parent, {})
    decreases |passed|
  {
    hide Chain, Whole;
    if passed == [] {
      WholeStart(byId, parent);
    } else {
      var front, last := passed[..|passed| - 1], passed[|passed| - 1];
      PathWhole(byId, parent, front, last.id, seen - {last.id});
      WholeStep(byId, last.id, seen - {last.id}, front);
      assert seen - {last.id} + {last.id} == seen && front + [last] == passed;
    }
  }

  /** The whole chain, given the Items already passed and what is still above. */
  ghost function Whole(passed: seq<Item>, rest: Option<seq<Item>>): Option<seq<Item>> {
    match rest case None => None case Some(r) => Some(passed + r)
  }

  lemma WholeStart(byId: map<Id, Item>, id: Id)
    ensures Whole([], Chain(byId, id, {})) == Chain(byId, id, {})
  {
    assert forall r: seq<Item> :: [] + r == r;
  }

  lemma WholeEnd(byId: map<Id, Item>, passed: seq<Item>, seen: set<Id>)
    ensures Whole(passed, Chain(byId, Empty, seen)) == Some(passed)
  {
    assert passed + [] == passed;
  }

  /** One link up: a repeated or dangling link breaks the chain, any other moves one Item over. */
  lemma WholeStep(byId: map<Id, Item>, id: Id, seen: set<Id>, passed: seq<Item>)
    requires id != Empty
    ensures if id in seen || id !in byId then Whole(passed, Chain(byId, id, seen)) == None
            else Whole(passed, Chain(byId, id, seen)) == Whole(passed + [byId[id]], Chain(byId, byId[id].parent, seen + {id}))
    ensures id in byId && Whole(passed, Chain(byId, id, seen)).Some? ==>
              passed + [byId[id]] <= Whole(passed, Chain(byId, id, seen)).value
  {
    if id !in seen && id in byId {
      var rest := Chain(byId, byId[id].parent, seen + {id});
      if rest.Some? { assert passed + ([byId[id]] + rest.value) == (passed + [byId[id]]) + rest.value; }
    }
  }
}
