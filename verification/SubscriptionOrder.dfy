/**
 The order in which a subscriber sees updates. A writer commits a version and publishes it in two
 separate steps, so two writers of one Task can publish out of commit order. Updates arrive in version
 order exactly as long as no writer commits a published update of the Task while another has yet to
 publish its own.
 */
module SubscriptionOrder {
  import opened Records
  import opened Subscription

  ghost predicate Ascending(log: seq<Update>) {
    forall i, j :: 0 <= i < j < |log| ==> log[i].version < log[j].version
  }

  /** This step commits an update of the key while writer `v` has committed one and not published it. */
  ghost predicate OverlapsWith(y: Sys, l: Label, key: string, v: nat) {
    && l.Commit? && l.key == key && l.update.Some? && l.w !in y.writers && v in y.writers && y.writers[v].key == key
    && key in y.tasks && y.tasks[key].version == l.previous && l.task.version > l.previous
  }

  ghost predicate Overlaps(y: Sys, l: Label, key: string) {
    exists v :: OverlapsWith(y, l, key, v)
  }

  ghost predicate InTurn(y: Sys, labels: seq<Label>, key: string) {
    labels == [] ||
    (&& InTurn(y, labels[..|labels| - 1], key)
     && !Overlaps(Steps(y, labels[..|labels| - 1]), labels[|labels| - 1], key))
  }

  // ---------------------------------------------------------------- in turn

  /** The log of the key is in version order, and the one update still to be published comes after it. */
  ghost predicate Ordered(log: seq<Update>, writers: map<nat, Writer>, key: string) {
    && Ascending(log)
    && (forall w, i :: w in writers && writers[w].key == key && 0 <= i < |log| ==> log[i].version < writers[w].update.version)
    && (forall a, b :: a in writers && b in writers && writers[a].key == key && writers[b].key == key ==> a == b)
  }

  lemma CommitOrdered(y: Sys, l: Label, key: string)
    requires SysInv(y) && Ordered(LogOf(y, key), y.writers, key) && l.Commit? && !Overlaps(y, l, key)
    ensures Ordered(LogOf(Next(y, l), key), Next(y, l).writers, key)
  {
    hide HubOk, ClientsOk;
    if key in y.tasks { Covered(y, key); }
    assert forall v :: !OverlapsWith(y, l, key, v);
    if l.update.Some? && l.w !in y.writers && l.key == key && key in y.tasks && y.tasks[key].version == l.previous &&
       l.task.version > l.previous {
      forall v | v in y.writers ensures y.writers[v].key != key { assert !OverlapsWith(y, l, key, v); }
      forall i | 0 <= i < |LogOf(y, key)| ensures LogOf(y, key)[i].version < l.task.version {
        assert LogOf(y, key)[i] in LogOf(y, key);
      }
    }
  }

  lemma PublishOrdered(y: Sys, w: nat, key: string)
    requires Ordered(LogOf(y, key), y.writers, key) && w in y.writers
    ensures Ordered(LogOf(Next(y, Publish(w)), key), Next(y, Publish(w)).writers, key)
  {
    hide Published;
  }

  lemma NextOrdered(y: Sys, l: Label, key: string)
    requires SysInv(y) && Ordered(LogOf(y, key), y.writers, key) && !Overlaps(y, l, key)
    ensures Ordered(LogOf(Next(y, l), key), Next(y, l).writers, key)
  {
    hide SysInv, Published, Unsubscribed, Subscribed, Overlaps;
    if l.Commit? {
      CommitOrdered(y, l, key);
    } else if l.Publish? {
      if l.w in y.writers { PublishOrdered(y, l.w, key); }
    }
  }

  lemma {:induction false} StepsOrdered(labels: seq<Label>, key: string)
    requires InTurn(START, labels, key)
    ensures Ordered(LogOf(Steps(START, labels), key), Steps(START, labels).writers, key)
  {
    hide Next, SysInv, Overlaps;
    if labels != [] {
      StepsOrdered(labels[..|labels| - 1], key);
      StepsOk(labels[..|labels| - 1]);
      NextOrdered(Steps(START, labels[..|labels| - 1]), labels[|labels| - 1], key);
    }
  }

  lemma {:induction false} NewerFrom(updates: seq<Update>, v: int)
    ensures forall u :: u in Newer(updates, v) ==> u in updates && u.version > v
  {
    if updates != [] {
      var front := updates[..|updates| - 1];
      NewerFrom(front, v);
      assert updates == front + [updates[|updates| - 1]];
    }
  }

  lemma {:induction false} NewerAscending(updates: seq<Update>, v: int)
    requires Ascending(updates)
    ensures Ascending(Newer(updates, v))
  {
    if updates != [] {
      var front, last := updates[..|updates| - 1], updates[|updates| - 1];
      NewerAscending(front, v);
      NewerFrom(front, v);
      var n := Newer(front, v);
      forall i | 0 <= i < |n| ensures n[i].version < last.version {
        assert n[i] in front;
        var k :| 0 <= k < |front| && front[k] == n[i];
      }
    }
  }

  /** Over every run in which the writers of a Task take turns, its log is in version order, and each of
      its clients writes strictly increasing versions, all newer than the snapshot. */
  lemma SeenInOrder(labels: seq<Label>, c: nat)
    requires c in Steps(START, labels).clients && Steps(START, labels).clients[c].snapshot.Some?
    requires InTurn(START, labels, Steps(START, labels).clients[c].key)
    ensures var cl := Steps(START, labels).clients[c];
            Ascending(cl.seen) && forall u :: u in cl.seen ==> u.version > cl.snapshot.value
    ensures Ascending(LogOf(Steps(START, labels), Steps(START, labels).clients[c].key))
  {
    hide Steps, Newer, InTurn;
    var y := Steps(START, labels);
    var cl := y.clients[c];
    var log, v := LogOf(y, cl.key), cl.snapshot.value;
    GapFree(labels, c);
    StepsOrdered(labels, cl.key);
    NewerAscending(log, v);
    NewerFrom(log, v);
    assert forall i :: 0 <= i < |cl.seen| ==> cl.seen[i] == Newer(log, v)[i];
    forall u | u in cl.seen ensures u.version > v {
      var i :| 0 <= i < |cl.seen| && cl.seen[i] == u;
      assert Newer(log, v)[i] in Newer(log, v);
    }
  }

  // ---------------------------------------------------------------- out of turn

  /** The condition is exact: after every overlapping commit the two writers can publish in the wrong order. */
  lemma OverlapReorders(y: Sys, l: Label, key: string, v: nat)
    requires SysInv(y) && OverlapsWith(y, l, key, v)
    ensures var z := Next(Next(Next(y, l), Publish(l.w)), Publish(v));
            var log := LogOf(z, key);
            && |log| == |LogOf(y, key)| + 2 && log[|log| - 1] == y.writers[v].update
            && log[|log| - 2].version == l.task.version > log[|log| - 1].version
            && !Ascending(log)
  {
    hide HubOk, ClientsOk, Published;
    assert Behind(y.tasks, y.writers[v].key, y.writers[v].update);
  }

  const KEY := "task"

  function Event(version: int, terminal: bool): Update {
    Update(version, "", terminal)
  }

  /** A hub whose only channel is `ch`. */
  function One(ch: Channel): Value {
    Value(1, if ch.ending.Open? then map[KEY := {1}] else map[], map[1 := ch])
  }

  lemma PublishOne(ch: Channel, u: Update)
    requires ch.key == KEY
    ensures Published(One(ch), KEY, u) == One(if ch.ending.Open? then Delivered(ch, u) else ch)
  {
    var h := One(ch);
    var ch' := if ch.ending.Open? then Delivered(ch, u) else ch;
    assert Subscribers(h, KEY) == if ch.ending.Open? then {1} else {};
    assert Served(h, KEY, u) == map[1 := ch'];
    assert StillOpen(Subscribers(h, KEY), map[1 := ch']) == if ch'.ending.Open? && ch.ending.Open? then {1} else {};
  }

  function Race(terminal: bool): seq<Label> {
    [Create(KEY, Task(1, false)), Subscribe(0, KEY), Read(0), Commit(0, KEY, 1, Task(2, false), Some(Event(2, false))),
     Commit(1, KEY, 2, Task(3, terminal), Some(Event(3, terminal))), Publish(1), Publish(0)]
  }

  lemma StepsSnoc(y: Sys, labels: seq<Label>, l: Label)
    ensures Steps(y, labels + [l]) == Next(Steps(y, labels), l)
  {
    assert (labels + [l])[..|labels|] == labels;
  }

  /** Two writers have committed versions 2 and 3, and a client that read version 1 is listening. */
  function Raced(terminal: bool): Sys {
    Sys(map[KEY := Task(3, terminal)], One(Channel(KEY, [], Open, [])), map[],
        map[0 := Client(KEY, 1, 0, Some(1), [], [], false)],
        map[0 := Writer(KEY, Event(2, false)), 1 := Writer(KEY, Event(3, terminal))])
  }

  /** The client has subscribed and read version 1; nobody has written yet. */
  function Listening(): Sys {
    Sys(map[KEY := Task(1, false)], One(Channel(KEY, [], Open, [])), map[],
        map[0 := Client(KEY, 1, 0, Some(1), [], [], false)], map[])
  }

  lemma Listens(terminal: bool)
    ensures var ls := Race(terminal);
            Next(Next(Next(START, ls[0]), ls[1]), ls[2]) == Listening()
  {
    hide Published, Unsubscribed;
    var y := Next(START, Race(terminal)[0]);
    assert y == START.(tasks := map[KEY := Task(1, false)]);
    assert Subscribers(y.hub, KEY) + {1} == {1};
    assert Subscribed(y.hub, KEY) == One(Channel(KEY, [], Open, []));
  }

  lemma Commits(terminal: bool)
    ensures Next(Next(Listening(), Race(terminal)[3]), Race(terminal)[4]) == Raced(terminal)
  {
    hide One, Published, Unsubscribed;
  }

  lemma RacedReachable(terminal: bool)
    ensures Steps(START, Race(terminal)[..5]) == Raced(terminal)
  {
    hide Steps, Next, Raced, Listening;
    var ls := Race(terminal);
    assert ls[..5] == [] + [ls[0]] + [ls[1]] + [ls[2]] + [ls[3]] + [ls[4]];
    StepsNone(START);
    StepsSnoc(START, [], ls[0]);
    StepsSnoc(START, [] + [ls[0]], ls[1]);
    StepsSnoc(START, [] + [ls[0]] + [ls[1]], ls[2]);
    StepsSnoc(START, [] + [ls[0]] + [ls[1]] + [ls[2]], ls[3]);
    StepsSnoc(START, [] + [ls[0]] + [ls[1]] + [ls[2]] + [ls[3]], ls[4]);
    Listens(terminal);
    Commits(terminal);
  }

  lemma StepsNone(y: Sys)
    ensures Steps(y, []) == y
  {
  }

  lemma BothPublish(terminal: bool)
    ensures var early := Delivered(Channel(KEY, [], Open, []), Event(3, terminal));
            var y := Next(Next(Raced(terminal), Publish(1)), Publish(0));
            && y.hub == One(if terminal then early else Delivered(early, Event(2, false)))
            && y.log == map[KEY := [Event(3, terminal), Event(2, false)]] && y.clients == Raced(terminal).clients
  {
    hide Published, One, Unsubscribed;
    var ch := Channel(KEY, [], Open, []);
    PublishOne(ch, Event(3, terminal));
    PublishOne(Delivered(ch, Event(3, terminal)), Event(2, false));
    var y := Next(Raced(terminal), Publish(1));
    assert LogOf(Raced(terminal), KEY) + [Event(3, terminal)] == [Event(3, terminal)];
    assert y.log == map[KEY := [Event(3, terminal)]] && y.writers == map[0 := Writer(KEY, Event(2, false))];
    assert [Event(3, terminal)] + [Event(2, false)] == [Event(3, terminal), Event(2, false)];
  }

  /** Both publish, the later version first. */
  lemma RacePublished(terminal: bool)
    ensures var early := Delivered(Channel(KEY, [], Open, []), Event(3, terminal));
            var y := Steps(START, Race(terminal));
            && y.hub == One(if terminal then early else Delivered(early, Event(2, false)))
            && y.log == map[KEY := [Event(3, terminal), Event(2, false)]] && y.clients == Raced(terminal).clients
  {
    hide Steps, Next, One, Delivered, Raced;
    var ls := Race(terminal);
    RacedReachable(terminal);
    assert ls == ls[..5] + [ls[5]] + [ls[6]];
    StepsSnoc(START, ls[..5], ls[5]);
    StepsSnoc(START, ls[..5] + [ls[5]], ls[6]);
    BothPublish(terminal);
  }

  /** Counterexample to version order: this client writes version 3 and then version 2. */
  lemma SeenOutOfOrder()
    ensures var y := Steps(START, Race(false) + [Receive(0)] + [Receive(0)]);
            0 in y.clients && y.clients[0].seen == [Event(3, false), Event(2, false)] && !Ascending(y.clients[0].seen)
  {
    hide Steps, Race, Published, Unsubscribed, Subscribed;
    RacePublished(false);
    StepsSnoc(START, Race(false), Receive(0));
    StepsSnoc(START, Race(false) + [Receive(0)], Receive(0));
    var y := Steps(START, Race(false));
    var y1 := Next(y, Receive(0));
    assert y1.clients[0].seen == [Event(3, false)] && y1.hub.channels[1].buffer == [Event(2, false)];
  }

  /** An early terminal update closes the stream, and the older update published after it is never sent. */
  lemma EarlyTerminalDrops()
    ensures var y := Steps(START, Race(true) + [Receive(0)]);
            && 0 in y.clients && y.clients[0].seen == [Event(3, true)] && y.clients[0].done
            && LogOf(y, KEY) == [Event(3, true), Event(2, false)] && y.clients[0].snapshot == Some(1)
  {
    hide Steps, Race, Published, Unsubscribed, Subscribed;
    RacePublished(true);
    StepsSnoc(START, Race(true), Receive(0));
  }

  // ---------------------------------------------------------------- what each step does

  /** A channel with room takes the update and ends with it if it is terminal; a full one ends by overflow and takes
      nothing. */
  lemma DeliveredMeans(c: Channel, u: Update)
    ensures |c.buffer| < 64 ==>
              && Delivered(c, u).buffer == c.buffer + [u] && Delivered(c, u).delivered == c.delivered + [u]
              && Delivered(c, u).ending == (if u.terminal then ByTerminal else c.ending)
    ensures |c.buffer| >= 64 ==> Delivered(c, u) == c.(ending := ByOverflow)
    ensures Delivered(c, u).key == c.key
  {
  }

  /** Publishing serves every listed channel of the key and no other, and lists afterwards exactly those still open. */
  lemma PublishedMeans(h: Value, key: string, u: Update, id: nat, other: string)
    ensures id in h.channels ==>
              && id in Published(h, key, u).channels
              && Published(h, key, u).channels[id] ==
                 if key in h.subscribers && id in h.subscribers[key] then Delivered(h.channels[id], u) else h.channels[id]
    ensures id in Published(h, key, u).channels ==> id in h.channels
    ensures id in Subscribers(Published(h, key, u), key) <==>
              key in h.subscribers && id in h.subscribers[key] && id in h.channels && Delivered(h.channels[id], u).ending.Open?
    ensures other != key ==> Subscribers(Published(h, key, u), other) == Subscribers(h, other)
  {
    hide Delivered;
  }

  /** Subscribing lists a new open, empty channel; unsubscribing ends and delists a listed one and nothing else. */
  lemma SubscriptionMeans(h: Value, key: string, id: nat, other: nat)
    ensures var p := Subscribed(h, key);
            && p.nextId == h.nextId + 1 && p.channels == h.channels[p.nextId := Channel(key, [], Open, [])]
            && Subscribers(p, key) == Subscribers(h, key) + {p.nextId}
    ensures var p := Unsubscribed(h, key, id);
            if id in Subscribers(h, key) && id in h.channels
            then && p.channels == h.channels[id := h.channels[id].(ending := ByUnsubscribe)] && p.nextId == h.nextId
                 && (other in Subscribers(p, key) <==> other in Subscribers(h, key) && other != id)
            else p == h
  {
  }

  /** A client that is still streaming takes the next update; it writes it exactly if it is newer than the snapshot,
      and stops after a newer terminal one. With nothing left it waits while its channel is open, and stops once it
      has ended. A client that has stopped takes nothing, and quitting stops it. */
  lemma ClientSteps(y: Sys, c: nat)
    requires c in y.clients && y.clients[c].snapshot.Some? && y.clients[c].channel in y.hub.channels
    ensures var cl, ch, z := y.clients[c], y.hub.channels[y.clients[c].channel], Next(y, Receive(c));
            && c in z.clients
            && (cl.done || (ch.buffer == [] && ch.ending.Open?) ==> z == y)
            && (!cl.done && ch.buffer == [] && !ch.ending.Open? ==> z.clients[c] == cl.(done := true))
            && (!cl.done && ch.buffer != [] ==>
                  var u := ch.buffer[0];
                  var newer := u.version > cl.snapshot.value;
                  && z.clients[c] == cl.(taken := cl.taken + [u], seen := if newer then cl.seen + [u] else cl.seen,
                                         done := newer && u.terminal)
                  && cl.channel in z.hub.channels && z.hub.channels[cl.channel].buffer == ch.buffer[1..])
    ensures Next(y, Quit(c)) ==
            if y.clients[c].done then y
            else y.(clients := y.clients[c := y.clients[c].(done := true)],
                    hub := Unsubscribed(y.hub, y.clients[c].key, y.clients[c].channel))
  {
    hide Without, Published, Subscribed;
  }

  /** Reading the snapshot: a missing or finished Task ends the stream, any other fixes the version to stream from,
      once. */
  lemma ReadSteps(y: Sys, c: nat)
    requires c in y.clients
    ensures var cl, z := y.clients[c], Next(y, Read(c));
            && c in z.clients
            && (cl.done || cl.snapshot.Some? ==> z == y)
            && (!cl.done && cl.snapshot.None? ==>
                  z.clients[c] == if cl.key in y.tasks && !y.tasks[cl.key].terminal
                                  then cl.(snapshot := Some(y.tasks[cl.key].version)) else cl.(done := true))
  {
    hide Without, Published, Subscribed;
  }

  /** A commit that read the stored version and raises it stores the Task and leaves its update to be published under
      the new version; any other is refused; a publish adds the update to the log and serves the hub. */
  lemma WriterSteps(y: Sys, w: nat, key: string, previous: int, task: Task, update: Option<Update>)
    ensures var z := Next(y, Commit(w, key, previous, task, update));
            if w !in y.writers && key in y.tasks && y.tasks[key].version == previous && task.version > previous
            then && z.tasks == y.tasks[key := task] && z.hub == y.hub && z.log == y.log && z.clients == y.clients
                 && z.writers == (if update.None? then y.writers
                                  else y.writers[w := Writer(key, update.value.(version := task.version))])
            else z == y
    ensures w in y.writers ==>
              var z, p := Next(y, Publish(w)), y.writers[w];
              && z.hub == Published(y.hub, p.key, p.update) && LogOf(z, p.key) == LogOf(y, p.key) + [p.update]
              && z.writers == y.writers - {w} && z.tasks == y.tasks && z.clients == y.clients
  {
    hide Published;
  }
}
