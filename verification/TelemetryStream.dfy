/**
 The telemetry stream: two bounded buffers, a drop counter, and the methods that move events
 between them.  `Tel` and the functions on it are the specification; `TelemetryStream` is the
 object that changes the same state in place.
 */
module TelemetryStream {
  import opened Common

  /** An event, with its place in the order of emission and whether it was emitted on the
      thread of the stream's loop. */
  datatype Event = Event(id: nat, name: string, local: bool)

  /** A slot of the live queue; `None` is the sentinel that ends a stream. */
  type Slot = Option<Event>

  datatype Control =
    | Toggle(on: bool)
    | Sampling(rate: real)
    | Filter(allow: seq<string>, deny: seq<string>)
    | Unset

  datatype Tel = Tel(
    maxBuffer: int,
    enabled: bool,
    samplingRate: real,
    allow: seq<string>,
    deny: seq<string>,
    queue: seq<Slot>,
    attached: bool,       // _loop is not None
    pre: seq<Event>,
    dropped: nat,
    closed: bool)

  /** `asyncio.Queue` takes a non-positive size to mean that there is no bound. */
  predicate QueueHasRoom(t: Tel) {
    t.maxBuffer <= 0 || |t.queue| < t.maxBuffer
  }

  function EnqueueNowait(t: Tel, slot: Slot): Tel {
    t.(queue := if QueueHasRoom(t) then t.queue + [slot] else t.queue,
       dropped := if QueueHasRoom(t) then t.dropped else t.dropped + 1)
  }

  function EnqueuePreStream(t: Tel, e: Event): Tel {
    t.(pre := if !t.closed && |t.pre| < t.maxBuffer then t.pre + [e] else t.pre,
       dropped := if !t.closed && |t.pre| >= t.maxBuffer then t.dropped + 1 else t.dropped)
  }

  /** How many of `n` items the queue still takes. */
  function Fits(t: Tel, n: nat): (k: nat)
    ensures k <= n
  {
    if t.maxBuffer <= 0 || |t.queue| + n <= t.maxBuffer then n
    else if |t.queue| < t.maxBuffer then t.maxBuffer - |t.queue|
    else 0
  }

  function Slots(events: seq<Event>): (slots: seq<Slot>)
    ensures |slots| == |events| && forall i :: 0 <= i < |events| ==> slots[i] == Some(events[i])
  {
    seq(|events|, i requires 0 <= i < |events| => Some(events[i]))
  }

  /** The flush: the oldest events that fit go to the live queue, the others are dropped. */
  function Flushed(t: Tel): Tel {
    var k := Fits(t, |t.pre|);
    var t' := t.(queue := t.queue + Slots(t.pre[..k]), dropped := t.dropped + (|t.pre| - k), pre := []);
    if t.closed then EnqueueNowait(t', None) else t'
  }

  /** What `stream` does before it starts to yield. */
  function Attached(t: Tel): Tel {
    Flushed(t.(attached := true))
  }

  function Controlled(t: Tel, control: Control): Tel {
    match control
    case Toggle(on) => t.(enabled := on)
    case Sampling(rate) => t.(samplingRate := if rate > 1.0 then 1.0 else if rate < 0.0 then 0.0 else rate)
    case Filter(allow, deny) => t.(allow := allow, deny := deny)
    case Unset => t
  }

  predicate Matches(glob: (string, string) -> bool, name: string, patterns: seq<string>) {
    exists i :: 0 <= i < |patterns| && glob(name, patterns[i])
  }

  predicate EventAllowed(t: Tel, glob: (string, string) -> bool, name: string) {
    !Matches(glob, name, t.deny) && (t.allow == [] || Matches(glob, name, t.allow))
  }

  /** `emit` goes on to build an event; `sample` is the random number it drew. */
  predicate Admits(t: Tel, glob: (string, string) -> bool, name: string, sample: real) {
    t.enabled && !(t.samplingRate < 1.0 && sample > t.samplingRate) && EventAllowed(t, glob, name)
  }

  class TelemetryStream {
    const maxBuffer: int
    var enabled: bool
    var samplingRate: real
    var allowPatterns: seq<string>
    var denyPatterns: seq<string>
    var queue: seq<Slot>
    var attached: bool
    var preStreamEvents: seq<Event>
    var droppedCount: nat
    var closed: bool

    ghost function Snapshot(): Tel
      reads this
    {
      Tel(maxBuffer, enabled, samplingRate, allowPatterns, denyPatterns, queue, attached, preStreamEvents,
          droppedCount, closed)
    }

    constructor (maxBuffer: int)
      ensures Snapshot() == Tel(maxBuffer, true, 1.0, [], [], [], false, [], 0, false)
    {
      this.maxBuffer := maxBuffer;
      enabled, samplingRate, allowPatterns, denyPatterns := true, 1.0, [], [];
      queue, attached, preStreamEvents, droppedCount, closed := [], false, [], 0, false;
    }

    method AnyMatch(glob: (string, string) -> bool, name: string, patterns: seq<string>) returns (found: bool)
      ensures found == Matches(glob, name, patterns)
    {
      for i := 0 to |patterns|
        invariant forall j :: 0 <= j < i ==> !glob(name, patterns[j])
      {
        if glob(name, patterns[i]) {
          return true;
        }
      }
      return false;
    }

    method IsEventAllowed(glob: (string, string) -> bool, name: string) returns (allowed: bool)
      ensures allowed == EventAllowed(Snapshot(), glob, name)
      ensures allowed <==>
              && (forall p :: p in denyPatterns ==> !glob(name, p))
              && (allowPatterns == [] || exists p :: p in allowPatterns && glob(name, p))
    {
      var denied := AnyMatch(glob, name, denyPatterns);
      if denied {
        return false;
      }
      if allowPatterns == [] {
        return true;
      }
      allowed := AnyMatch(glob, name, allowPatterns);
    }

    method Enqueue(slot: Slot)
      modifies this`queue, this`droppedCount
      ensures Snapshot() == EnqueueNowait(old(Snapshot()), slot)
    {
      if maxBuffer <= 0 || |queue| < maxBuffer {
        queue := queue + [slot];
      } else {
        droppedCount := droppedCount + 1;
      }
    }

    method BufferPreStream(e: Event)
      modifies this`preStreamEvents, this`droppedCount
      ensures Snapshot() == EnqueuePreStream(old(Snapshot()), e)
    {
      if closed {
        return;
      }
      if |preStreamEvents| >= maxBuffer {
        droppedCount := droppedCount + 1;
        return;
      }
      preStreamEvents := preStreamEvents + [e];
    }

    method FlushPreStreamEvents()
      modifies this`queue, this`droppedCount, this`preStreamEvents
      ensures Snapshot() == Flushed(old(Snapshot()))
    {
      var buffered := preStreamEvents;
      preStreamEvents := [];
      ghost var t := Snapshot();
      for i := 0 to |buffered|
        invariant preStreamEvents == []
        invariant queue == t.queue + Slots(buffered[..Fits(t, i)])
        invariant droppedCount == t.dropped + (i - Fits(t, i))
      {
        Enqueue(Some(buffered[i]));
        if Fits(t, i + 1) > Fits(t, i) {
          assert Slots(buffered[..i + 1]) == Slots(buffered[..i]) + [Some(buffered[i])];
        }
      }
      assert Fits(t, |buffered|) == Fits(old(Snapshot()), |buffered|);
      if closed {
        Enqueue(None);
      }
    }

    method Attach()
      modifies this`queue, this`droppedCount, this`preStreamEvents, this`attached
      ensures Snapshot() == Attached(old(Snapshot()))
    {
      attached := true;
      FlushPreStreamEvents();
    }

    method Detach()
      modifies this`attached
      ensures Snapshot() == old(Snapshot()).(attached := false)
    {
      attached := false;
    }

    method HandleControl(control: Control)
      modifies this`enabled, this`samplingRate, this`allowPatterns, this`denyPatterns
      ensures Snapshot() == Controlled(old(Snapshot()), control)
    {
      match control {
        case Toggle(on) =>
          enabled := on;
        case Sampling(rate) =>
          samplingRate := if rate > 1.0 then 1.0 else if rate < 0.0 then 0.0 else rate;
        case Filter(allow, deny) =>
          allowPatterns, denyPatterns := allow, deny;
        case Unset =>
      }
    }

    /** `emit`, with the random number that it draws for sampling.  `handOff` says that the event
        is left to a callback on the loop; that fails, and counts a drop, when the loop is
        closed. */
    method Emit(
      e: Event, glob: (string, string) -> bool, sample: real, onLoop: bool, loopAlive: bool)
      returns (handOff: bool)
      modifies this`queue, this`preStreamEvents, this`droppedCount
      ensures handOff ==
              (Admits(old(Snapshot()), glob, e.name, sample) && attached && !onLoop && loopAlive)
      ensures Snapshot() ==
              if !Admits(old(Snapshot()), glob, e.name, sample) then old(Snapshot())
              else if !attached then EnqueuePreStream(old(Snapshot()), e)
              else if onLoop then EnqueueNowait(old(Snapshot()), Some(e))
              else if loopAlive then old(Snapshot())
              else old(Snapshot()).(dropped := old(droppedCount) + 1)
    {
      handOff := false;
      if !enabled || (samplingRate < 1.0 && sample > samplingRate) {
        return;
      }
      var allowed := IsEventAllowed(glob, e.name);
      if !allowed {
        return;
      }
      if !attached {
        BufferPreStream(e);
        return;
      }
      if onLoop {
        Enqueue(Some(e));
        return;
      }
      if loopAlive {
        handOff := true;
      } else {
        droppedCount := droppedCount + 1;
      }
    }

    method Close(onLoop: bool, loopAlive: bool) returns (handOff: bool)
      modifies this`queue, this`droppedCount, this`closed
      ensures handOff == (!old(closed) && attached && !onLoop && loopAlive)
      ensures Snapshot() ==
              if old(closed) then old(Snapshot())
              else if attached && onLoop then EnqueueNowait(old(Snapshot()).(closed := true), None)
              else old(Snapshot()).(closed := true)
    {
      handOff := false;
      if closed {
        return;
      }
      closed := true;
      if attached {
        if onLoop {
          Enqueue(None);
        } else {
          handOff := loopAlive;
        }
      }
    }
  }
}
