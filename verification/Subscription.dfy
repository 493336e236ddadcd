/**
 Task subscriptions (Subscribe to Task, section 3.1.6 of the A2A v1.0 specification). A client first
 subscribes, then reads a snapshot, then streams the updates that are newer than it; a writer first
 commits, then publishes. Writers and clients interleave freely, publish order need not follow
 version order, and a writer may crash between its commit and its publish.
 */
module Subscription {
  import opened Records

  datatype Update = Update(version: int, payload: string, terminal: bool)

  datatype Ending = Open | ByTerminal | ByOverflow | ByUnsubscribe

  /** A bounded channel; `delivered` remembers everything that was ever sent into it. */
  datatype Channel = Channel(key: string, buffer: seq<Update>, ending: Ending, delivered: seq<Update>)

  const BUFFER: nat := 64

  datatype Value = Value(nextId: nat, subscribers: map<string, set<nat>>, channels: map<nat, Channel>)

  function Subscribers(h: Value, key: string): set<nat> {
    if key in h.subscribers then h.subscribers[key] else {}
  }

  function Without(subscribers: map<string, set<nat>>, key: string, left: set<nat>): map<string, set<nat>> {
    if left == {} then subscribers - {key} else subscribers[key := left]
  }

  // ---------------------------------------------------------------- what the hub does

  function Subscribed(h: Value, key: string): Value {
    var id := h.nextId + 1;
    Value(id, h.subscribers[key := Subscribers(h, key) + {id}], h.channels[id := Channel(key, [], Open, [])])
  }

  function Unsubscribed(h: Value, key: string, id: nat): Value {
    if id !in Subscribers(h, key) || id !in h.channels then h
    else h.(subscribers := Without(h.subscribers, key, Subscribers(h, key) - {id}),
            channels := h.channels[id := h.channels[id].(ending := ByUnsubscribe)])
  }

  function Delivered(c: Channel, u: Update): Channel {
    if |c.buffer| >= BUFFER then c.(ending := ByOverflow)
    else c.(buffer := c.buffer + [u], delivered := c.delivered + [u], ending := if u.terminal then ByTerminal else c.ending)
  }

  function Served(h: Value, key: string, u: Update): map<nat, Channel> {
    map id | id in h.channels :: if id in Subscribers(h, key) then Delivered(h.channels[id], u) else h.channels[id]
  }

  function StillOpen(ids: set<nat>, channels: map<nat, Channel>): set<nat> {
    set id | id in ids && id in channels && channels[id].ending.Open?
  }

  function Published(h: Value, key: string, u: Update): Value {
    var channels := Served(h, key, u);
    Value(h.nextId, Without(h.subscribers, key, StillOpen(Subscribers(h, key), channels)), channels)
  }

  /** The subscriber index lists exactly the open channels, each under its own key. */
  ghost predicate HubOk(h: Value) {
    && (forall key, id :: key in h.subscribers && id in h.subscribers[key] ==>
          id in h.channels && h.channels[id].key == key && h.channels[id].ending.Open?)
    && (forall id :: id in h.channels ==>
          id <= h.nextId && (h.channels[id].ending.Open? ==> id in Subscribers(h, h.channels[id].key)))
  }

  lemma SubscribedOk(h: Value, key: string)
    requires HubOk(h)
    ensures HubOk(Subscribed(h, key))
  {
    var p := Subscribed(h, key);
    forall k, id | k in p.subscribers && id in p.subscribers[k]
      ensures id in p.channels && p.channels[id].key == k && p.channels[id].ending.Open?
    {
      if k in h.subscribers && id in h.subscribers[k] { assert id in h.channels && id <= h.nextId; }
    }
    forall id | id in p.channels
      ensures id <= p.nextId && (p.channels[id].ending.Open? ==> id in Subscribers(p, p.channels[id].key))
    {
      assert id != p.nextId ==> id in h.channels && id <= h.nextId;
    }
  }

  lemma UnsubscribedOk(h: Value, key: string, id: nat)
    requires HubOk(h)
    ensures HubOk(Unsubscribed(h, key, id))
  {
    var p := Unsubscribed(h, key, id);
    forall k, i | k in p.subscribers && i in p.subscribers[k]
      ensures i in p.channels && p.channels[i].key == k && p.channels[i].ending.Open?
    {
      assert k in h.subscribers && i in h.subscribers[k];
    }
    forall i | i in p.channels
      ensures i <= p.nextId && (p.channels[i].ending.Open? ==> i in Subscribers(p, p.channels[i].key))
    {
      assert i in h.channels && p.channels[i].key == h.channels[i].key;
    }
  }

  lemma PublishedOk(h: Value, key: string, u: Update)
    requires HubOk(h)
    ensures HubOk(Published(h, key, u))
  {
    hide Delivered;
    var p := Published(h, key, u);
    DeliveredKey(u);
    forall k, id | k in p.subscribers && id in p.subscribers[k]
      ensures id in p.channels && p.channels[id].key == k && p.channels[id].ending.Open?
    {
      assert k in h.subscribers && id in h.subscribers[k];
    }
    forall id | id in p.channels
      ensures id <= p.nextId && (p.channels[id].ending.Open? ==> id in Subscribers(p, p.channels[id].key))
    {
      assert id in h.channels && p.channels[id].key == h.channels[id].key;
      assert id in Subscribers(h, key) ==> h.channels[id].key == key;
    }
  }

  lemma DeliveredKey(u: Update)
    ensures forall c :: Delivered(c, u).key == c.key && (Delivered(c, u).ending.Open? ==> c.ending.Open?)
  {
  }

  // ---------------------------------------------------------------- the hub object

  class Hub {
    var nextId: nat
    var subscribers: map<string, set<nat>>
    var channels: map<nat, Channel>

    ghost function View(): Value
      reads this
    {
      Value(nextId, subscribers, channels)
    }

    constructor ()
      ensures HubOk(View()) && View() == Value(0, map[], map[])
    {
      nextId, subscribers, channels := 0, map[], map[];
    }

    /** Sending into a closed or full channel would panic or block. */
    method Send(id: nat, u: Update)
      requires id in channels && channels[id].ending.Open? && |channels[id].buffer| < BUFFER
      modifies this`channels
      ensures channels == old(channels)[id := old(channels)[id].(buffer := old(channels)[id].buffer + [u],
                                                                  delivered := old(channels)[id].delivered + [u])]
    {
      channels := channels[id := channels[id].(buffer := channels[id].buffer + [u], delivered := channels[id].delivered + [u])];
    }

    /** Closing a closed channel would panic. */
    method Close(id: nat, ending: Ending)
      requires id in channels && channels[id].ending.Open? && !ending.Open?
      modifies this`channels
      ensures channels == old(channels)[id := old(channels)[id].(ending := ending)]
    {
      channels := channels[id := channels[id].(ending := ending)];
    }

    method Subscribe(key: string) returns (id: nat)
      requires HubOk(View())
      modifies this
      ensures View() == Subscribed(old(View()), key) && id == nextId && HubOk(View())
    {
      SubscribedOk(View(), key);
      nextId := nextId + 1;
      id := nextId;
      channels := channels[id := Channel(key, [], Open, [])];
      var others := if key in subscribers then subscribers[key] else {};
      subscribers := subscribers[key := others + {id}];
    }

    method Unsubscribe(key: string, id: nat)
      requires HubOk(View())
      modifies this
      ensures View() == Unsubscribed(old(View()), key, id) && HubOk(View())
    {
      UnsubscribedOk(View(), key, id);
      if key !in subscribers || id !in subscribers[key] { return; }
      var left := subscribers[key] - {id};
      Close(id, ByUnsubscribe);
      subscribers := if left == {} then subscribers - {key} else subscribers[key := left];
    }

    /** One subscriber's turn: deliver, or close on a terminal update or a full buffer. */
    method Serve(id: nat, u: Update) returns (open: bool)
      requires id in channels && channels[id].ending.Open?
      modifies this`channels
      ensures channels == old(channels)[id := Delivered(old(channels)[id], u)] && open == channels[id].ending.Open?
    {
      open := true;
      if |channels[id].buffer| < BUFFER {
        Send(id, u);
        if u.terminal {
          Close(id, ByTerminal);
          open := false;
        }
      } else {
        Close(id, ByOverflow);
        open := false;
      }
    }

    /** Subscribers are served in any order; no channel is closed twice or sent to after it closed. */
    method Publish(key: string, u: Update)
      requires HubOk(View())
      modifies this
      ensures View() == Published(old(View()), key, u) && HubOk(View())
    {
      hide HubOk, Delivered, Published, Without;
      PublishedOk(View(), key, u);
      ghost var h := View();
      OpenSubscribers(h, key);
      var all := if key in subscribers then subscribers[key] else {};
      var todo, left := all, all;
      while todo != {}
        invariant todo <= left <= all && nextId == h.nextId && subscribers == h.subscribers
        invariant channels.Keys == h.channels.Keys
        invariant forall id :: id in channels ==>
                    channels[id] == if id in all && id !in todo then Delivered(h.channels[id], u) else h.channels[id]
        invariant forall id :: id in all && id !in todo ==> (id in left <==> channels[id].ending.Open?)
        decreases todo
      {
        var id :| id in todo;
        todo := todo - {id};
        var open := Serve(id, u);
        if !open { left := left - {id}; }
      }
      PublishedParts(h, key, u, channels, left);
      subscribers := if left == {} then subscribers - {key} else subscribers[key := left];
    }
  }

  lemma OpenSubscribers(h: Value, key: string)
    requires HubOk(h)
    ensures forall id :: id in Subscribers(h, key) ==> id in h.channels && h.channels[id].ending.Open?
  {
  }

  lemma PublishedParts(h: Value, key: string, u: Update, channels: map<nat, Channel>, left: set<nat>)
    requires left <= Subscribers(h, key) && channels.Keys == h.channels.Keys
    requires forall id :: id in Subscribers(h, key) ==> id in h.channels
    requires forall id :: id in channels ==>
               channels[id] == if id in Subscribers(h, key) then Delivered(h.channels[id], u) else h.channels[id]
    requires forall id :: id in Subscribers(h, key) ==> (id in left <==> channels[id].ending.Open?)
    ensures Published(h, key, u) ==
            Value(h.nextId, if left == {} then h.subscribers - {key} else h.subscribers[key := left], channels)
  {
    hide Delivered;
    assert channels == Served(h, key, u);
    assert left == StillOpen(Subscribers(h, key), channels);
  }

  // ---------------------------------------------------------------- clients and writers

  datatype Task = Task(version: int, terminal: bool)

  /** `from` is the length of the key's log when the client subscribed; `taken` is what it received,
      `seen` what it wrote to its stream. */
  datatype Client = Client(
    key: string, channel: nat, from: nat, snapshot: Option<int>, taken: seq<Update>, seen: seq<Update>, done: bool)

  datatype Writer = Writer(key: string, update: Update)

  datatype Sys = Sys(
    tasks: map<string, Task>, hub: Value, log: map<string, seq<Update>>, clients: map<nat, Client>, writers: map<nat, Writer>)

  datatype Label =
    | Create(key: string, task: Task)
    | Commit(w: nat, key: string, previous: int, task: Task, update: Option<Update>)
    | Publish(w: nat)
    | CrashWriter(w: nat)
    | Subscribe(c: nat, key: string)
    | Read(c: nat)
    | Receive(c: nat)
    | Quit(c: nat)

  function LogOf(y: Sys, key: string): seq<Update> {
    if key in y.log then y.log[key] else []
  }

  function Newer(updates: seq<Update>, version: int): seq<Update> {
    if updates == [] then []
    else
      var last := updates[|updates| - 1];
      Newer(updates[..|updates| - 1], version) + (if last.version > version then [last] else [])
  }

  function Stop(y: Sys, c: nat): Sys
    requires c in y.clients
  {
    y.(clients := y.clients[c := y.clients[c].(done := true)],
       hub := Unsubscribed(y.hub, y.clients[c].key, y.clients[c].channel))
  }

  /** The state after the client has taken one update and written it if it is newer. */
  function Took(y: Sys, c: nat): Sys
    requires c in y.clients && y.clients[c].snapshot.Some? && y.clients[c].channel in y.hub.channels
    requires y.hub.channels[y.clients[c].channel].buffer != []
  {
    var cl := y.clients[c];
    var ch := y.hub.channels[cl.channel];
    y.(hub := y.hub.(channels := y.hub.channels[cl.channel := ch.(buffer := ch.buffer[1..])]),
       clients := y.clients[c := Taken(cl, ch.buffer[0])])
  }

  function Taken(cl: Client, u: Update): Client
    requires cl.snapshot.Some?
  {
    cl.(taken := cl.taken + [u], seen := if u.version > cl.snapshot.value then cl.seen + [u] else cl.seen)
  }

  /** One receive from the client's channel, or the end of its stream. */
  function Received(y: Sys, c: nat): Sys
    requires c in y.clients && y.clients[c].snapshot.Some? && y.clients[c].channel in y.hub.channels
  {
    var cl := y.clients[c];
    var ch := y.hub.channels[cl.channel];
    if ch.buffer == [] then (if ch.ending.Open? then y else Stop(y, c))
    else if ch.buffer[0].version > cl.snapshot.value && ch.buffer[0].terminal then Stop(Took(y, c), c)
    else Took(y, c)
  }

  function Next(y: Sys, l: Label): Sys {
    match l
    case Create(key, task) => if key in y.tasks then y else y.(tasks := y.tasks[key := task])
    case Commit(w, key, previous, task, update) =>
      if w in y.writers || key !in y.tasks || y.tasks[key].version != previous || task.version <= previous then y
      else
        var y' := y.(tasks := y.tasks[key := task]);
        (match update
         case None => y'
         case Some(u) => y'.(writers := y.writers[w := Writer(key, u.(version := task.version))]))
    case Publish(w) =>
      if w !in y.writers then y
      else
        var p := y.writers[w];
        y.(hub := Published(y.hub, p.key, p.update), log := y.log[p.key := LogOf(y, p.key) + [p.update]],
           writers := y.writers - {w})
    case CrashWriter(w) => y.(writers := y.writers - {w})
    case Subscribe(c, key) =>
      if c in y.clients then y
      else y.(hub := Subscribed(y.hub, key),
              clients := y.clients[c := Client(key, y.hub.nextId + 1, |LogOf(y, key)|, None, [], [], false)])
    case Read(c) =>
      if c !in y.clients || y.clients[c].done || y.clients[c].snapshot.Some? then y
      else if y.clients[c].key !in y.tasks || y.tasks[y.clients[c].key].terminal then Stop(y, c)
      else y.(clients := y.clients[c := y.clients[c].(snapshot := Some(y.tasks[y.clients[c].key].version))])
    case Receive(c) =>
      if c !in y.clients || y.clients[c].done || y.clients[c].snapshot.None? || y.clients[c].channel !in y.hub.channels then y
      else Received(y, c)
    case Quit(c) => if c !in y.clients || y.clients[c].done then y else Stop(y, c)
  }

  function Steps(y: Sys, labels: seq<Label>): Sys {
    if labels == [] then y else Next(Steps(y, labels[..|labels| - 1]), labels[|labels| - 1])
  }

  const START := Sys(map[], Value(0, map[], map[]), map[], map[], map[])

  // ---------------------------------------------------------------- the invariant

  /** Everything delivered to a channel is a contiguous part of the log, up to now while it is open. */
  ghost predicate Feeds(ch: Channel, from: nat, log: seq<Update>) {
    && from + |ch.delivered| <= |log| && ch.delivered == log[from..from + |ch.delivered|]
    && (ch.ending.Open? ==> from + |ch.delivered| == |log|)
    && (ch.ending.ByTerminal? ==> ch.delivered != [] && ch.delivered[|ch.delivered| - 1].terminal)
    && (ch.ending.ByOverflow? ==> |ch.delivered| >= BUFFER && from + |ch.delivered| < |log|)
  }

  ghost predicate ClientOk(ch: Channel, log: seq<Update>, cl: Client) {
    && ch.key == cl.key && Feeds(ch, cl.from, log) && cl.taken + ch.buffer == ch.delivered
    && (cl.snapshot.None? ==> cl.taken == [] && cl.seen == [])
    && (cl.snapshot.Some? ==>
          && cl.seen == Newer(cl.taken, cl.snapshot.value)
          && forall i :: 0 <= i < cl.from ==> log[i].version <= cl.snapshot.value)
  }

  /** A log or a pending update never runs ahead of the committed version. */
  ghost predicate Behind(tasks: map<string, Task>, key: string, u: Update) {
    key in tasks && u.version <= tasks[key].version
  }

  ghost predicate LogsOk(y: Sys) {
    && (forall key, i :: key in y.log && 0 <= i < |y.log[key]| ==> Behind(y.tasks, key, y.log[key][i]))
    && (forall w :: w in y.writers ==> Behind(y.tasks, y.writers[w].key, y.writers[w].update))
  }

  ghost predicate ClientsOk(y: Sys) {
    && (forall c :: c in y.clients ==>
          && y.clients[c].channel in y.hub.channels
          && ClientOk(y.hub.channels[y.clients[c].channel], LogOf(y, y.clients[c].key), y.clients[c]))
    && (forall a, b | a in y.clients && b in y.clients && a != b :: y.clients[a].channel != y.clients[b].channel)
  }

  ghost predicate SysInv(y: Sys) {
    HubOk(y.hub) && LogsOk(y) && ClientsOk(y)
  }

  lemma {:induction false} NewerSplit(a: seq<Update>, b: seq<Update>, v: int)
    ensures Newer(a + b, v) == Newer(a, v) + Newer(b, v)
  {
    if b == [] {
      assert a + b == a;
    } else {
      assert (a + b)[..|a + b| - 1] == a + b[..|b| - 1];
      NewerSplit(a, b[..|b| - 1], v);
    }
  }

  lemma {:induction false} NewerNone(a: seq<Update>, v: int)
    requires forall i :: 0 <= i < |a| ==> a[i].version <= v
    ensures Newer(a, v) == []
  {
    if a != [] { NewerNone(a[..|a| - 1], v); }
  }

  /** A client changes itself and its own channel only. */
  lemma OneClient(y: Sys, c: nat, hub: Value, ch: Channel, cl: Client)
    requires SysInv(y) && c in y.clients && HubOk(hub)
    requires cl.channel == y.clients[c].channel && hub.channels == y.hub.channels[cl.channel := ch]
    requires ClientOk(ch, LogOf(y, cl.key), cl)
    ensures SysInv(y.(hub := hub, clients := y.clients[c := cl]))
  {
    hide HubOk, ClientOk;
  }

  lemma ClientAt(y: Sys, c: nat)
    requires SysInv(y) && c in y.clients
    ensures y.clients[c].channel in y.hub.channels && HubOk(y.hub)
    ensures ClientOk(y.hub.channels[y.clients[c].channel], LogOf(y, y.clients[c].key), y.clients[c])
  {
    hide HubOk, ClientOk;
  }

  lemma ClosedOk(ch: Channel, log: seq<Update>, cl: Client)
    requires ClientOk(ch, log, cl)
    ensures ClientOk(ch, log, cl.(done := true)) && ClientOk(ch.(ending := ByUnsubscribe), log, cl.(done := true))
  {
    hide Newer;
  }

  lemma StopOk(y: Sys, c: nat)
    requires SysInv(y) && c in y.clients
    ensures SysInv(Stop(y, c))
  {
    hide SysInv, HubOk, ClientOk, Without;
    var cl := y.clients[c];
    ClientAt(y, c);
    var ch := y.hub.channels[cl.channel];
    UnsubscribedOk(y.hub, cl.key, cl.channel);
    ClosedOk(ch, LogOf(y, cl.key), cl);
    var hub := Unsubscribed(y.hub, cl.key, cl.channel);
    assert hub.channels == y.hub.channels[cl.channel := hub.channels[cl.channel]];
    OneClient(y, c, hub, hub.channels[cl.channel], cl.(done := true));
  }

  lemma TakenOk(ch: Channel, log: seq<Update>, cl: Client)
    requires ClientOk(ch, log, cl) && cl.snapshot.Some? && ch.buffer != []
    ensures ClientOk(ch.(buffer := ch.buffer[1..]), log, Taken(cl, ch.buffer[0]))
  {
    assert cl.taken + ch.buffer == (cl.taken + [ch.buffer[0]]) + ch.buffer[1..];
    NewerSplit(cl.taken, [ch.buffer[0]], cl.snapshot.value);
    assert [ch.buffer[0]][..0] == [];
  }

  lemma TakeHub(h: Value, id: nat, ch: Channel)
    requires HubOk(h) && id in h.channels && ch.key == h.channels[id].key && ch.ending == h.channels[id].ending
    ensures HubOk(h.(channels := h.channels[id := ch]))
  {
  }

  lemma ReceiveOk(y: Sys, c: nat)
    requires SysInv(y) && c in y.clients && y.clients[c].snapshot.Some? && y.clients[c].channel in y.hub.channels
    ensures SysInv(Received(y, c))
  {
    hide SysInv, HubOk, ClientOk, Stop;
    var cl := y.clients[c];
    var ch := y.hub.channels[cl.channel];
    StopOk(y, c);
    if ch.buffer != [] {
      ClientAt(y, c);
      TakenOk(ch, LogOf(y, cl.key), cl);
      TakeHub(y.hub, cl.channel, ch.(buffer := ch.buffer[1..]));
      OneClient(y, c, Took(y, c).hub, ch.(buffer := ch.buffer[1..]), Taken(cl, ch.buffer[0]));
      StopOk(Took(y, c), c);
    }
  }

  /** Publishing extends the log and every open channel of that key together. */
  lemma ClientPublish(h: Value, log: seq<Update>, cl: Client, key: string, u: Update)
    requires HubOk(h) && cl.channel in h.channels && ClientOk(h.channels[cl.channel], log, cl)
    ensures cl.channel in Published(h, key, u).channels
    ensures ClientOk(Published(h, key, u).channels[cl.channel], if cl.key == key then log + [u] else log, cl)
  {
    hide Newer, Without;
    var ch := h.channels[cl.channel];
    assert cl.channel in Subscribers(h, key) <==> cl.key == key && ch.ending.Open?;
    if cl.key == key {
      assert (log + [u])[cl.from..cl.from + |ch.delivered|] == log[cl.from..cl.from + |ch.delivered|];
      if ch.ending.Open? && |ch.buffer| < BUFFER {
        assert cl.taken + (ch.buffer + [u]) == (cl.taken + ch.buffer) + [u];
        assert (log + [u])[cl.from..] == log[cl.from..] + [u];
      }
    }
  }

  lemma PublishOk(y: Sys, w: nat)
    requires SysInv(y) && w in y.writers
    ensures SysInv(Next(y, Publish(w)))
  {
    hide HubOk, ClientOk, Published;
    var y', p := Next(y, Publish(w)), y.writers[w];
    PublishedOk(y.hub, p.key, p.update);
    forall k | k in y.clients
      ensures y.clients[k].channel in y'.hub.channels
      ensures ClientOk(y'.hub.channels[y.clients[k].channel], LogOf(y', y.clients[k].key), y.clients[k])
    {
      ClientPublish(y.hub, LogOf(y, y.clients[k].key), y.clients[k], p.key, p.update);
    }
  }

  lemma SubscribeOk(y: Sys, c: nat, key: string)
    requires SysInv(y) && c !in y.clients
    ensures SysInv(Next(y, Subscribe(c, key)))
  {
    hide ClientOk, HubOk;
    SubscribedOk(y.hub, key);
    NewChannel(y.hub, key);
    NewClientOk(key, y.hub.nextId + 1, LogOf(y, key));
  }

  lemma NewChannel(h: Value, key: string)
    requires HubOk(h)
    ensures h.nextId + 1 !in h.channels
    ensures Subscribed(h, key).channels == h.channels[h.nextId + 1 := Channel(key, [], Open, [])]
  {
  }

  lemma NewClientOk(key: string, id: nat, log: seq<Update>)
    ensures ClientOk(Channel(key, [], Open, []), log, Client(key, id, |log|, None, [], [], false))
  {
  }

  /** The snapshot is read after subscribing, so it covers everything published before. */
  lemma ReadOk(y: Sys, c: nat)
    requires SysInv(y) && c in y.clients && y.clients[c].snapshot.None?
    ensures SysInv(Next(y, Read(c)))
  {
    hide SysInv, HubOk, ClientOk, Stop;
    StopOk(y, c);
    var cl := y.clients[c];
    if !cl.done && cl.key in y.tasks && !y.tasks[cl.key].terminal {
      ClientAt(y, c);
      var ch, now := y.hub.channels[cl.channel], cl.(snapshot := Some(y.tasks[cl.key].version));
      Covered(y, cl.key);
      SnapshotOk(ch, LogOf(y, cl.key), cl, y.tasks[cl.key].version);
      assert y.hub.channels == y.hub.channels[cl.channel := ch];
      OneClient(y, c, y.hub, ch, now);
    }
  }

  lemma Covered(y: Sys, key: string)
    requires SysInv(y) && key in y.tasks
    ensures forall u :: u in LogOf(y, key) ==> u.version <= y.tasks[key].version
  {
    hide HubOk, ClientsOk;
    forall u | u in LogOf(y, key) ensures u.version <= y.tasks[key].version {
      var i :| 0 <= i < |y.log[key]| && y.log[key][i] == u;
      assert Behind(y.tasks, key, y.log[key][i]);
    }
  }

  lemma SnapshotOk(ch: Channel, log: seq<Update>, cl: Client, version: int)
    requires ClientOk(ch, log, cl) && cl.snapshot.None? && forall u :: u in log ==> u.version <= version
    ensures ClientOk(ch, log, cl.(snapshot := Some(version)))
  {
  }

  lemma TasksOk(y: Sys, y': Sys)
    requires SysInv(y) && y'.hub == y.hub && y'.log == y.log && y'.clients == y.clients
    requires forall key :: key in y.tasks ==> key in y'.tasks && y.tasks[key].version <= y'.tasks[key].version
    requires forall w :: w in y'.writers ==> Behind(y'.tasks, y'.writers[w].key, y'.writers[w].update)
    ensures SysInv(y')
  {
    hide HubOk, ClientOk;
  }

  lemma NextOk(y: Sys, l: Label)
    requires SysInv(y)
    ensures SysInv(Next(y, l))
  {
    hide HubOk, ClientsOk;
    match l {
      case Create(key, task) => TasksOk(y, Next(y, l));
      case Commit(w, key, previous, task, update) => TasksOk(y, Next(y, l));
      case Publish(w) => if w in y.writers { PublishOk(y, w); }
      case CrashWriter(w) => TasksOk(y, Next(y, l));
      case Subscribe(c, key) => if c !in y.clients { SubscribeOk(y, c, key); }
      case Read(c) => if c in y.clients && y.clients[c].snapshot.None? { ReadOk(y, c); }
      case Receive(c) =>
        if c in y.clients && y.clients[c].snapshot.Some? && y.clients[c].channel in y.hub.channels { ReceiveOk(y, c); }
      case Quit(c) => if c in y.clients { StopOk(y, c); }
    }
  }

  lemma {:induction false} StepsOk(labels: seq<Label>)
    ensures SysInv(Steps(START, labels))
  {
    hide Next, SysInv;
    if labels == [] {
      StartOk();
    } else {
      StepsOk(labels[..|labels| - 1]);
      NextOk(Steps(START, labels[..|labels| - 1]), labels[|labels| - 1]);
    }
  }

  lemma StartOk()
    ensures SysInv(START)
  {
  }

  /** Gap-free: whatever the interleaving, what a client has written followed by the newer updates still
      in its channel is, in publish order, exactly the updates newer than its snapshot among those
      published before its channel ended; all of them while the channel is open. A channel ends only
      with its terminal update, with a full buffer while more was being published, or by unsubscribing. */
  lemma GapFree(labels: seq<Label>, c: nat)
    requires c in Steps(START, labels).clients && Steps(START, labels).clients[c].snapshot.Some?
    ensures var y := Steps(START, labels);
            var cl := y.clients[c];
            && cl.channel in y.hub.channels
            && var ch, log, v := y.hub.channels[cl.channel], LogOf(y, cl.key), cl.snapshot.value;
               var end := cl.from + |ch.delivered|;
               && end <= |log| && cl.seen + Newer(ch.buffer, v) == Newer(log[..end], v) && cl.seen <= Newer(log, v)
               && (ch.ending.Open? ==> end == |log|)
               && (ch.ending.ByTerminal? ==> 0 < end && log[end - 1].terminal)
               && (ch.ending.ByOverflow? ==> |ch.delivered| >= BUFFER && end < |log|)
  {
    hide Steps, SysInv, ClientOk, Newer;
    StepsOk(labels);
    var y := Steps(START, labels);
    ClientAt(y, c);
    StreamExact(y.hub.channels[y.clients[c].channel], LogOf(y, y.clients[c].key), y.clients[c]);
  }

  lemma StreamExact(ch: Channel, log: seq<Update>, cl: Client)
    requires ClientOk(ch, log, cl) && cl.snapshot.Some?
    ensures var v, end := cl.snapshot.value, cl.from + |ch.delivered|;
            && end <= |log| && cl.seen + Newer(ch.buffer, v) == Newer(log[..end], v) && cl.seen <= Newer(log, v)
            && (ch.ending.Open? ==> end == |log|)
            && (ch.ending.ByTerminal? ==> 0 < end && log[end - 1].terminal)
            && (ch.ending.ByOverflow? ==> |ch.delivered| >= BUFFER && end < |log|)
  {
    hide Newer, Feeds;
    var v, end := cl.snapshot.value, cl.from + |ch.delivered|;
    FeedEnd(ch, cl.from, log);
    Conveyed(cl.taken, ch.buffer, log, cl.from, end, v);
  }

  lemma FeedEnd(ch: Channel, from: nat, log: seq<Update>)
    requires Feeds(ch, from, log)
    ensures var end := from + |ch.delivered|;
            && end <= |log| && ch.delivered == log[from..end]
            && (ch.ending.Open? ==> end == |log|)
            && (ch.ending.ByTerminal? ==> 0 < end && log[end - 1].terminal)
            && (ch.ending.ByOverflow? ==> |ch.delivered| >= BUFFER && end < |log|)
  {
  }

  lemma Conveyed(taken: seq<Update>, buffer: seq<Update>, log: seq<Update>, from: nat, end: nat, v: int)
    requires from <= end <= |log| && taken + buffer == log[from..end] && forall i :: 0 <= i < from ==> log[i].version <= v
    ensures Newer(taken, v) + Newer(buffer, v) == Newer(log[..end], v) && Newer(taken, v) <= Newer(log, v)
  {
    hide Newer;
    NewerSince(log, from, end, v);
    NewerSplit(taken, buffer, v);
    NewerPrefix(log, end, v);
  }

  /** Nothing published before the snapshot is newer than it. */
  lemma NewerSince(log: seq<Update>, from: nat, end: nat, v: int)
    requires from <= end <= |log| && forall i :: 0 <= i < from ==> log[i].version <= v
    ensures Newer(log[..end], v) == Newer(log[from..end], v)
  {
    hide Newer;
    assert log[..end] == log[..from] + log[from..end];
    NewerSplit(log[..from], log[from..end], v);
    NewerNone(log[..from], v);
  }

  lemma NewerPrefix(log: seq<Update>, end: nat, v: int)
    requires end <= |log|
    ensures Newer(log[..end], v) <= Newer(log, v)
  {
    hide Newer;
    assert log == log[..end] + log[end..];
    NewerSplit(log[..end], log[end..], v);
  }
}
