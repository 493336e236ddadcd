/**
 One Turn's retained event window and the publication of its terminal event. Events are numbered
 without gaps up to the head; retention drops all of them but keeps the head. A reader that asks for a
 cursor before the retained suffix is told that the cursor has expired.
 */
module TerminalFeed {
  import opened Records

  datatype Event = Event(seqNo: int, kind: string, terminal: bool)

  datatype Window = Window(sequence: int, events: seq<Event>)

  ghost predicate Contiguous(w: Window) {
    && 0 <= |w.events| <= w.sequence
    && forall i :: 0 <= i < |w.events| ==> w.events[i].seqNo == w.sequence - |w.events| + 1 + i
  }

  predicate Expired(w: Window, after: int) {
    w.sequence > after && (w.events == [] || w.events[0].seqNo > after + 1)
  }

  /** The retained events that a readable cursor has not seen yet. */
  ghost function Unread(w: Window, after: int): seq<Event>
    requires Contiguous(w) && after >= w.sequence - |w.events|
  {
    if after >= w.sequence then [] else w.events[after - (w.sequence - |w.events|)..]
  }

  /** Readable cursors are upward closed, and the least one is just before the first retained event. */
  lemma ReadableFrom(w: Window, after: int)
    requires Contiguous(w)
    ensures !Expired(w, after) <==> after >= w.sequence - |w.events|
  {
  }

  predicate Matches(e: Event, kind: string) {
    e.terminal && e.kind == kind
  }

  function Count(events: seq<Event>, kind: string): nat {
    if events == [] then 0
    else Count(events[..|events| - 1], kind) + (if Matches(events[|events| - 1], kind) then 1 else 0)
  }

  lemma {:induction false} CountNone(events: seq<Event>, kind: string)
    ensures Count(events, kind) == 0 <==> forall e :: e in events ==> !Matches(e, kind)
  {
    if events != [] {
      CountNone(events[..|events| - 1], kind);
      assert events == events[..|events| - 1] + [events[|events| - 1]];
    }
  }

  function Appended(w: Window, kind: string, terminal: bool): Window {
    Window(w.sequence + 1, w.events + [Event(w.sequence + 1, kind, terminal)])
  }

  /** What one publication must do: nothing if the window already holds such a terminal event. */
  ghost function PublishedOnce(w: Window, kind: string): Window {
    if exists e :: e in w.events && Matches(e, kind) then w else Appended(w, kind, true)
  }

  class TurnFeed {
    var sequence: int
    var events: seq<Event>
    const batch: nat

    ghost function View(): Window
      reads this
    {
      Window(sequence, events)
    }

    ghost predicate Valid()
      reads this
    {
      Contiguous(View()) && batch > 0
    }

    constructor (batchSize: int)
      ensures Valid() && View() == Window(0, [])
    {
      sequence, events := 0, [];
      batch := if batchSize <= 0 then 128 else batchSize;
    }

    /** One bounded page after the cursor, or None when the cursor has expired. */
    method Replay(after: int) returns (page: Option<seq<Event>>)
      requires Valid() && after >= 0
      ensures page.None? <==> Expired(View(), after)
      ensures page.Some? ==> after >= sequence - |events| && page.value <= Unread(View(), after)
      ensures page.Some? && Unread(View(), after) != [] ==> page.value != []
    {
      ReadableFrom(View(), after);
      if Expired(Window(sequence, events), after) { return None; }
      var result := [];
      ghost var skip := if after >= sequence then |events| else after - (sequence - |events|);
      for i := 0 to |events|
        invariant |result| == if i <= skip then 0 else i - skip
        invariant i > skip ==> result == events[skip..i]
        invariant |result| < batch
      {
        if events[i].seqNo > after {
          result := result + [events[i]];
          assert i >= skip && result == events[skip..i + 1];
          if |result| >= batch { return Some(result); }
        }
      }
      return Some(result);
    }

    /** The least readable cursor, by binary search over cursors alone. */
    method FirstRetainedCursor() returns (cursor: int)
      requires Valid()
      ensures cursor >= 0 && !Expired(View(), cursor)
      ensures forall k :: 0 <= k < cursor ==> Expired(View(), k)
    {
      forall k ensures !Expired(View(), k) <==> k >= sequence - |events| { ReadableFrom(View(), k); }
      var page := Replay(0);
      if page.Some? { return 0; }
      var low, high := 0, sequence;
      while low + 1 < high
        invariant 0 <= low < high <= sequence && Expired(View(), low) && !Expired(View(), high)
      {
        var mid := low + (high - low) / 2;
        page := Replay(mid);
        if page.Some? { high := mid; } else { low := mid; }
      }
      return high;
    }

    /** One page in order; a sequence number that does not advance would be a conflict. */
    static method ScanPage(page: seq<Event>, after: int, kind: string) returns (error: Option<Error>, found: bool, next: int)
      requires forall i :: 0 <= i < |page| ==> page[i].seqNo == after + 1 + i
      ensures error.None? && (found <==> exists e :: e in page && Matches(e, kind))
      ensures !found ==> next == after + |page|
    {
      next := after;
      for i := 0 to |page|
        invariant next == after + i
        invariant forall k :: 0 <= k < i ==> !Matches(page[k], kind)
      {
        if page[i].seqNo <= next { return Some(Conflict), false, next; }
        next := page[i].seqNo;
        if Matches(page[i], kind) {
          assert page[i] in page;
          return None, true, next;
        }
      }
      return None, false, next;
    }

    /** Scans every retained page from the first readable cursor on. */
    method ScanRetained(kind: string) returns (error: Option<Error>, found: bool)
      requires Valid()
      ensures error.None? && (found <==> exists e :: e in events && Matches(e, kind))
    {
      hide Matches;
      var after := FirstRetainedCursor();
      ghost var first := sequence - |events|;
      ReadableFrom(View(), after);
      ReadableFrom(View(), first);
      while true
        invariant first <= after <= sequence
        invariant forall i :: 0 <= i < after - first ==> !Matches(events[i], kind)
        decreases sequence - after
      {
        var page := Replay(after);
        ReadableFrom(View(), after);
        if page.None? { return Some(Conflict), false; }
        if page.value == [] { break; }
        ghost var start := after - first;
        assert forall i :: 0 <= i < |page.value| ==> page.value[i] == events[start + i];
        error, found, after := ScanPage(page.value, after, kind);
        if error.Some? { return; }
        if found {
          ghost var e :| e in page.value && Matches(e, kind);
          assert e in events;
          return None, true;
        }
        forall i | start <= i < after - first ensures !Matches(events[i], kind) {
          assert page.value[i - start] == events[i] && page.value[i - start] in page.value;
        }
      }
      assert forall e :: e in events ==> !Matches(e, kind);
      return None, false;
    }

    /** Publishes only if no such terminal event is retained. */
    method PublishTerminalOnce(kind: string) returns (error: Option<Error>)
      requires Valid()
      modifies this
      ensures Valid() && error.None? && View() == PublishedOnce(old(View()), kind)
    {
      hide Matches;
      var found;
      error, found := ScanRetained(kind);
      if error.Some? || found { return; }
      sequence := sequence + 1;
      events := events + [Event(sequence, kind, true)];
    }
  }

  // ---------------------------------------------------------------- any number of publishers

  /** Retention drops the events and keeps the head, or forgets a released Turn altogether. */
  datatype Op = Once(kind: string) | Progress(kind: string) | Evict | Forget

  ghost function Step(w: Window, op: Op): Window {
    match op
    case Once(kind) => PublishedOnce(w, kind)
    case Progress(kind) => Appended(w, kind, false)
    case Evict => w.(events := [])
    case Forget => Window(0, [])
  }

  ghost function Run(w: Window, script: seq<Op>): Window {
    if script == [] then w else Step(Run(w, script[..|script| - 1]), script[|script| - 1])
  }

  lemma CountAppend(events: seq<Event>, e: Event, kind: string)
    ensures Count(events + [e], kind) == Count(events, kind) + (if Matches(e, kind) then 1 else 0)
  {
    assert (events + [e])[..|events|] == events;
  }

  lemma CountStep(w: Window, op: Op, kind: string)
    ensures Count(Step(w, op).events, kind) ==
            if op.Evict? || op.Forget? then 0
            else if op == Once(kind) && Count(w.events, kind) == 0 then 1
            else Count(w.events, kind)
  {
    CountNone(w.events, kind);
    match op {
      case Once(k) =>
        CountNone(w.events, k);
        CountAppend(w.events, Event(w.sequence + 1, k, true), kind);
      case Progress(k) => CountAppend(w.events, Event(w.sequence + 1, k, false), kind);
      case Evict =>
      case Forget =>
    }
  }

  /** However many publishers run, interleaved with progress events and retention, at most one terminal
      event of a kind is retained; and if anyone published it and nothing was evicted, exactly one is. */
  lemma {:induction false} ExactlyOneTerminal(w: Window, script: seq<Op>, kind: string)
    requires Count(w.events, kind) <= 1
    ensures Count(Run(w, script).events, kind) <= 1
    ensures Once(kind) in script && Evict !in script && Forget !in script ==> Count(Run(w, script).events, kind) == 1
    ensures Count(w.events, kind) == 1 && Evict !in script && Forget !in script ==> Count(Run(w, script).events, kind) == 1
  {
    if script != [] {
      var front, op := script[..|script| - 1], script[|script| - 1];
      assert script == front + [op];
      ExactlyOneTerminal(w, front, kind);
      CountStep(Run(w, front), op, kind);
    }
  }
}
