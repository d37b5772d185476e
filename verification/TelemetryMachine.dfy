/**
 Runs of the telemetry stream.  The stream's loop thread and any number of other threads take
 turns: an emit or a close on the loop thread is one step; on another thread the reading of
 `_loop` and what follows from it are two steps, with anything in between.  An attach sets `_loop`
 in one step and flushes in another; the loop thread does nothing else in between, but the other
 threads may.
 */
module TelemetryMachine {
  import opened Common
  import opened TelemetryStream

  datatype InFlight = InFlight(event: Event, sawLoop: bool)

  datatype Sys = Sys(
    tel: Tel,
    loopAlive: bool,
    scheduled: seq<Slot>,        // callbacks handed to the loop, in order
    inFlight: seq<InFlight>,     // emits of other threads that have read `_loop`
    closing: nat,                // closes of other threads that have read `_loop`
    attaching: bool,             // a stream has set `_loop` and is about to flush
    streams: nat,                // streams that are yielding
    ending: nat,                 // streams that have stopped yielding but not detached
    everAttached: bool,
    // history
    accepted: seq<Event>,
    yielded: seq<Event>,
    lost: seq<Event>,            // events that were dropped
    lostSentinels: nat,          // sentinels that were dropped
    ignored: seq<Event>)         // events emitted before an attach but after the close

  function Init(maxBuffer: int): Sys {
    Sys(Tel(maxBuffer, true, 1.0, [], [], [], false, [], 0, false), true, [], [], 0, false, 0, 0, false,
        [], [], [], 0, [])
  }

  datatype Step =
    | EmitLocal(name: string, sample: real)
    | EmitBegin(name: string, sample: real)
    | EmitEnd(index: nat)
    | Callback
    | SetLoop
    | Flush
    | Take
    | Cancel
    | Detach
    | Steer(control: Control)
    | CloseLocal
    | CloseBegin
    | CloseEnd
    | LoopEnds

  /** The loop thread can take up something new. */
  predicate LoopFree(s: Sys) {
    s.loopAlive && !s.attaching
  }

  predicate Enabled(s: Sys, glob: (string, string) -> bool, step: Step) {
    match step
    case EmitLocal(name, sample) => LoopFree(s) && Admits(s.tel, glob, name, sample)
    case EmitBegin(name, sample) => Admits(s.tel, glob, name, sample)
    case EmitEnd(index) => index < |s.inFlight|
    case Callback => LoopFree(s) && s.scheduled != []
    case SetLoop => LoopFree(s)
    case Flush => s.attaching
    case Take => LoopFree(s) && s.streams > 0 && s.tel.queue != []
    case Cancel => LoopFree(s) && s.streams > 0
    case Detach => LoopFree(s) && s.ending > 0
    case Steer(_) => LoopFree(s)
    case CloseLocal => LoopFree(s) && !s.tel.closed
    case CloseBegin => !s.tel.closed
    case CloseEnd => s.closing > 0
    case LoopEnds => LoopFree(s)
  }

  /** The loop thread offers a slot to the live queue. */
  function Offered(s: Sys, slot: Slot): Sys {
    var fits := QueueHasRoom(s.tel);
    s.(tel := EnqueueNowait(s.tel, slot),
       lost := if !fits && slot.Some? then s.lost + [slot.value] else s.lost,
       lostSentinels := if !fits && slot.None? then s.lostSentinels + 1 else s.lostSentinels)
  }

  /** An event is offered to the pre-stream buffer. */
  function Buffered(s: Sys, e: Event): Sys {
    var fits := |s.tel.pre| < s.tel.maxBuffer;
    s.(tel := EnqueuePreStream(s.tel, e),
       lost := if !s.tel.closed && !fits then s.lost + [e] else s.lost,
       ignored := if s.tel.closed then s.ignored + [e] else s.ignored)
  }

  function EmittedLocal(s: Sys, name: string): Sys {
    var e := Event(|s.accepted|, name, true);
    var s' := s.(accepted := s.accepted + [e]);
    if s.tel.attached then Offered(s', Some(e)) else Buffered(s', e)
  }

  function EmitBegun(s: Sys, name: string): Sys {
    var e := Event(|s.accepted|, name, false);
    s.(accepted := s.accepted + [e], inFlight := s.inFlight + [InFlight(e, s.tel.attached)])
  }

  function EmitEnded(s: Sys, index: nat): Sys
    requires index < |s.inFlight|
  {
    var (e, sawLoop) := (s.inFlight[index].event, s.inFlight[index].sawLoop);
    var s' := s.(inFlight := s.inFlight[..index] + s.inFlight[index + 1..]);
    if !sawLoop then Buffered(s', e)
    else if s.loopAlive then s'.(scheduled := s.scheduled + [Some(e)])
    else s'.(tel := s.tel.(dropped := s.tel.dropped + 1), lost := s.lost + [e])
  }

  function LoopSet(s: Sys): Sys {
    s.(tel := s.tel.(attached := true), attaching := true)
  }

  function FlushedTo(s: Sys): Sys {
    var noRoom := !QueueHasRoom(Flushed(s.tel.(closed := false)));
    s.(tel := Flushed(s.tel),
       attaching := false,
       streams := s.streams + 1,
       everAttached := true,
       lost := s.lost + s.tel.pre[Fits(s.tel, |s.tel.pre|)..],
       lostSentinels := if s.tel.closed && noRoom then s.lostSentinels + 1 else s.lostSentinels)
  }

  function TookOne(s: Sys): Sys
    requires s.streams > 0 && s.tel.queue != []
  {
    var slot := s.tel.queue[0];
    s.(tel := s.tel.(queue := s.tel.queue[1..]),
       yielded := if slot.Some? then s.yielded + [slot.value] else s.yielded,
       streams := if slot.Some? then s.streams else s.streams - 1,
       ending := if slot.Some? then s.ending else s.ending + 1)
  }

  function Closed(s: Sys, onLoop: bool): Sys {
    var s' := s.(tel := s.tel.(closed := true));
    if onLoop && s.tel.attached then Offered(s', None)
    else s'.(closing := if s.tel.attached then s.closing + 1 else s.closing)
  }

  function CloseEnded(s: Sys): Sys
    requires s.closing > 0
  {
    s.(closing := s.closing - 1,
       scheduled := if s.loopAlive then s.scheduled + [None] else s.scheduled)
  }

  function Apply(s: Sys, glob: (string, string) -> bool, step: Step): Sys
    requires Enabled(s, glob, step)
  {
    match step
    case EmitLocal(name, _) => EmittedLocal(s, name)
    case EmitBegin(name, _) => EmitBegun(s, name)
    case EmitEnd(index) => EmitEnded(s, index)
    case Callback => Offered(s.(scheduled := s.scheduled[1..]), s.scheduled[0])
    case SetLoop => LoopSet(s)
    case Flush => FlushedTo(s)
    case Take => TookOne(s)
    case Cancel => s.(streams := s.streams - 1, ending := s.ending + 1)
    case Detach => s.(ending := s.ending - 1, tel := s.tel.(attached := false))
    case Steer(control) => s.(tel := Controlled(s.tel, control))
    case CloseLocal => Closed(s, true)
    case CloseBegin => Closed(s, false)
    case CloseEnd => CloseEnded(s)
    case LoopEnds => s.(loopAlive := false)
  }

  predicate CanRun(s: Sys, glob: (string, string) -> bool, steps: seq<Step>)
    decreases |steps|
  {
    steps == [] || (Enabled(s, glob, steps[0]) && CanRun(Apply(s, glob, steps[0]), glob, steps[1..]))
  }

  function Run(s: Sys, glob: (string, string) -> bool, steps: seq<Step>): Sys
    requires CanRun(s, glob, steps)
    decreases |steps|
  {
    if steps == [] then s else Run(Apply(s, glob, steps[0]), glob, steps[1..])
  }

  function Events(slots: seq<Slot>): seq<Event> {
    if slots == [] then []
    else (if slots[0].Some? then [slots[0].value] else []) + Events(slots[1..])
  }

  lemma {:induction false} EventsConcat(a: seq<Slot>, b: seq<Slot>)
    ensures Events(a + b) == Events(a) + Events(b)
  {
    if a == [] {
      assert a + b == b;
    } else {
      var first := if a[0].Some? then [a[0].value] else [];
      EventsConcat(a[1..], b);
      assert (a + b)[0] == a[0] && (a + b)[1..] == a[1..] + b;
      assert Events(a + b) == first + Events(a[1..] + b);
      assert Events(a) == first + Events(a[1..]);
    }
  }

  lemma {:induction false} EventsOfSlots(events: seq<Event>)
    ensures Events(Slots(events)) == events
  {
    if events != [] {
      assert Slots(events)[1..] == Slots(events[1..]);
      EventsOfSlots(events[1..]);
    }
  }

  function InHand(inFlight: seq<InFlight>): (events: seq<Event>)
    ensures |events| == |inFlight|
  {
    seq(|inFlight|, i requires 0 <= i < |inFlight| => inFlight[i].event)
  }
}
