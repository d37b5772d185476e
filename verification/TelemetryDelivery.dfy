/** What the telemetry stream owes to an event that it accepted. */
module TelemetryDelivery {
  import opened Common
  import opened TelemetryStream
  import opened TelemetryMachine
  import TelemetrySafety

  /** How many of `n` items do not fit when `used` of `bound` places are taken; a bound of zero or
      less is none. */
  function Overflow(bound: int, used: nat, n: nat): nat {
    if bound <= 0 || used + n <= bound then 0 else if used >= bound then n else used + n - bound
  }

  lemma OfferDrops(s: Sys, slot: Slot)
    ensures var t, over := Offered(s, slot), Overflow(s.tel.maxBuffer, |s.tel.queue|, 1);
            && |t.lost| - |s.lost| == (if slot.Some? then over else 0)
            && t.lostSentinels - s.lostSentinels == (if slot.None? then over else 0)
            && t.ignored == s.ignored
  {
  }

  lemma BufferDrops(s: Sys, e: Event)
    ensures var t := Buffered(s, e);
            && |t.lost| - |s.lost| == (if !s.tel.closed && |s.tel.pre| >= s.tel.maxBuffer then 1 else 0)
            && t.lostSentinels == s.lostSentinels
            && (t.ignored == s.ignored || s.tel.closed)
  {
  }

  lemma FlushDrops(s: Sys)
    ensures var t, bound := FlushedTo(s), s.tel.maxBuffer;
            && |t.lost| - |s.lost| == Overflow(bound, |s.tel.queue|, |s.tel.pre|)
            && t.lostSentinels - s.lostSentinels ==
               (if s.tel.closed && 0 < bound <= |s.tel.queue| + |s.tel.pre| then 1 else 0)
            && t.ignored == s.ignored
  {
  }

  /** Nothing is dropped without need.  An event is dropped only by the queue or the buffer that was
      full when it came, or on its way to a loop that has ended; a sentinel only by a full queue;
      and an event is ignored only after the close. */
  lemma DropsOnlyWhenFull(s: Sys, glob: (string, string) -> bool, step: Step)
    requires Enabled(s, glob, step)
    ensures var t, bound := Apply(s, glob, step), s.tel.maxBuffer;
            var dropped := |t.lost| - |s.lost|;
            match step
            case EmitLocal(_, _) =>
              dropped == if s.tel.attached then Overflow(bound, |s.tel.queue|, 1)
                         else if !s.tel.closed && |s.tel.pre| >= bound then 1 else 0
            case EmitEnd(index) =>
              dropped == if s.inFlight[index].sawLoop then (if s.loopAlive then 0 else 1)
                         else if !s.tel.closed && |s.tel.pre| >= bound then 1 else 0
            case Callback =>
              dropped == if s.scheduled[0].Some? then Overflow(bound, |s.tel.queue|, 1) else 0
            case Flush =>
              dropped == Overflow(bound, |s.tel.queue|, |s.tel.pre|)
            case _ => dropped == 0
    ensures var t, bound := Apply(s, glob, step), s.tel.maxBuffer;
            t.lostSentinels - s.lostSentinels ==
            if step.CloseLocal? && s.tel.attached then Overflow(bound, |s.tel.queue|, 1)
            else if step.Callback? && s.scheduled[0].None? then Overflow(bound, |s.tel.queue|, 1)
            else if step.Flush? && s.tel.closed && 0 < bound <= |s.tel.queue| + |s.tel.pre| then 1
            else 0
    ensures Apply(s, glob, step).ignored == s.ignored || s.tel.closed
  {
    hide Admits, Controlled, Offered, Buffered, FlushedTo;
    match step {
      case EmitLocal(name, _) =>
        var e := Event(|s.accepted|, name, true);
        OfferDrops(s.(accepted := s.accepted + [e]), Some(e));
        BufferDrops(s.(accepted := s.accepted + [e]), e);
      case EmitEnd(index) =>
        var rest := s.inFlight[..index] + s.inFlight[index + 1..];
        BufferDrops(s.(inFlight := rest), s.inFlight[index].event);
      case Callback =>
        OfferDrops(s.(scheduled := s.scheduled[1..]), s.scheduled[0]);
      case Flush =>
        FlushDrops(s);
      case CloseLocal =>
        OfferDrops(s.(tel := s.tel.(closed := true)), None);
      case _ =>
    }
  }

  /** Nothing is under way: no emit, callback or close of another thread is unfinished, and there is
      nothing to take. */
  ghost predicate Settled(s: Sys, glob: (string, string) -> bool) {
    forall step: Step :: step.EmitEnd? || step.Callback? || step.Take? || step.CloseEnd? ==> !Enabled(s, glob, step)
  }

  /** When a stream is attached and nothing is under way, every accepted event has been yielded, but
      for those that were dropped, that came after the close, or that wait for the next attach. */
  lemma SettledMeansDelivered(maxBuffer: int, glob: (string, string) -> bool, steps: seq<Step>)
    requires CanRun(Init(maxBuffer), glob, steps)
    requires var s := Run(Init(maxBuffer), glob, steps);
             s.loopAlive && !s.attaching && s.streams > 0 && Settled(s, glob)
    ensures var s := Run(Init(maxBuffer), glob, steps);
            && multiset(s.accepted) ==
               multiset(s.yielded) + multiset(s.tel.pre) + multiset(s.lost) + multiset(s.ignored)
            && s.tel.queue == [] && s.scheduled == [] && s.inFlight == [] && s.closing == 0
  {
    hide Run, CanRun, Settled;
    TelemetrySafety.Conservation(maxBuffer, glob, steps);
    var s := Run(Init(maxBuffer), glob, steps);
    SettledIsEmpty(s, glob);
    var yielded, pre, lost, ignored :=
      multiset(s.yielded), multiset(s.tel.pre), multiset(s.lost), multiset(s.ignored);
    assert Events(s.scheduled) == [] && Events(s.tel.queue) == [] && InHand(s.inFlight) == [];
    assert multiset{} + pre + multiset{} + multiset{} + yielded + lost + ignored == yielded + pre + lost + ignored;
  }

  lemma SettledIsEmpty(s: Sys, glob: (string, string) -> bool)
    requires Settled(s, glob) && s.loopAlive && !s.attaching && s.streams > 0
    ensures s.tel.queue == [] && s.scheduled == [] && s.inFlight == [] && s.closing == 0
  {
    assert !Enabled(s, glob, EmitEnd(0)) && !Enabled(s, glob, Callback);
    assert !Enabled(s, glob, Take) && !Enabled(s, glob, CloseEnd);
  }

  /** The loop is set only while a stream is about to flush, yields, or has yet to detach. */
  predicate SetByAStream(s: Sys) {
    s.tel.attached ==> s.attaching || s.streams > 0 || s.ending > 0
  }

  lemma SetByAStreamKept(s: Sys, glob: (string, string) -> bool, step: Step)
    requires SetByAStream(s) && Enabled(s, glob, step)
    ensures SetByAStream(Apply(s, glob, step))
  {
    hide Admits;
  }

  /** So after the last stream has detached, events are buffered for the next one. */
  lemma {:induction false} DetachedMeansBuffering(s: Sys, glob: (string, string) -> bool, steps: seq<Step>)
    requires SetByAStream(s) && CanRun(s, glob, steps)
    ensures var t := Run(s, glob, steps); SetByAStream(t)
    decreases |steps|
  {
    hide Apply, Enabled, SetByAStream;
    if steps != [] {
      SetByAStreamKept(s, glob, steps[0]);
      DetachedMeansBuffering(Apply(s, glob, steps[0]), glob, steps[1..]);
    }
  }

  /** Without a stream, an event that the loop thread emits is buffered, if there is room. */
  lemma WithoutStreamBuffers(
    maxBuffer: int, glob: (string, string) -> bool, steps: seq<Step>, name: string, sample: real)
    requires CanRun(Init(maxBuffer), glob, steps)
    requires var s := Run(Init(maxBuffer), glob, steps);
             && s.streams == 0 && s.ending == 0 && !s.tel.closed && |s.tel.pre| < maxBuffer
             && Enabled(s, glob, EmitLocal(name, sample))
    ensures var s := Run(Init(maxBuffer), glob, steps);
            Apply(s, glob, EmitLocal(name, sample)).tel.pre == s.tel.pre + [Event(|s.accepted|, name, true)]
  {
    hide Run, CanRun, Admits;
    DetachedMeansBuffering(Init(maxBuffer), glob, steps);
    TelemetrySafety.InitInv(maxBuffer);
    TelemetrySafety.RunKeepsInv(Init(maxBuffer), glob, steps);
  }

  lemma RunCons(s: Sys, glob: (string, string) -> bool, step: Step, rest: seq<Step>)
    requires Enabled(s, glob, step) && CanRun(Apply(s, glob, step), glob, rest)
    ensures CanRun(s, glob, [step] + rest)
    ensures Run(s, glob, [step] + rest) == Run(Apply(s, glob, step), glob, rest)
  {
    hide Apply, Enabled;
    assert ([step] + rest)[1..] == rest;
  }

  /** One stream, attached for the first time, with nothing under way. */
  function Streaming(yielded: seq<Event>, queue: seq<Slot>, accepted: seq<Event>): Sys {
    Sys(Tel(8, true, 1.0, [], [], queue, true, [], 0, false), true, [], [], 0, false, 1, 0, true,
        accepted, yielded, [], 0, [])
  }

  /** Nobody has attached, and one event of another thread waits. */
  function Waiting(e: Event): Sys {
    var s := Init(8);
    s.(tel := s.tel.(pre := [e]), accepted := [e])
  }

  lemma FirstEvent(glob: (string, string) -> bool, name: string)
    ensures var begin, e := EmitBegin(name, 0.0), Event(0, name, false);
            && Enabled(Init(8), glob, begin)
            && Enabled(Apply(Init(8), glob, begin), glob, EmitEnd(0))
            && Apply(Apply(Init(8), glob, begin), glob, EmitEnd(0)) == Waiting(e)
  {
    var e := Event(0, name, false);
    assert Apply(Init(8), glob, EmitBegin(name, 0.0)).inFlight == [InFlight(e, false)];
  }

  lemma FirstAttach(glob: (string, string) -> bool, e: Event)
    ensures Enabled(Waiting(e), glob, SetLoop) && Enabled(Apply(Waiting(e), glob, SetLoop), glob, Flush)
    ensures Apply(Apply(Waiting(e), glob, SetLoop), glob, Flush) == Streaming([], [Some(e)], [e])
  {
    var s := Apply(Waiting(e), glob, SetLoop);
    assert s.tel.pre[..1] == [e] && s.tel.pre[1..] == [];
    assert Slots([e]) == [Some(e)];
  }

  /** An event of another thread before the first stream, one during it, a close of another thread,
      the end of the stream, and the end of its loop: both events are yielded, and nothing is
      lost. */
  lemma LifeOfAStream(glob: (string, string) -> bool, name: string) returns (steps: seq<Step>)
    ensures CanRun(Init(8), glob, steps)
    ensures var s := Run(Init(8), glob, steps);
            && s.yielded == [Event(0, name, false), Event(1, name, false)] && s.accepted == s.yielded
            && s.tel.dropped == 0 && s.streams == 0 && s.ending == 0 && !s.tel.attached && s.tel.closed
            && !s.loopAlive
  {
    hide Apply, Enabled;
    steps := SecondHalf(glob, name);
    FirstEvent(glob, name);
    FirstAttach(glob, Event(0, name, false));
    var emit := EmitBegin(name, 0.0);
    var s0 := Init(8);
    var s1 := Apply(s0, glob, emit);
    var s2 := Apply(s1, glob, EmitEnd(0));
    var s3 := Apply(s2, glob, SetLoop);
    RunCons(s3, glob, Flush, steps);
    steps := [Flush] + steps;
    RunCons(s2, glob, SetLoop, steps);
    steps := [SetLoop] + steps;
    RunCons(s1, glob, EmitEnd(0), steps);
    steps := [EmitEnd(0)] + steps;
    RunCons(s0, glob, emit, steps);
    steps := [emit] + steps;
  }

  lemma SecondHalf(glob: (string, string) -> bool, name: string) returns (steps: seq<Step>)
    ensures var s := Streaming([], [Some(Event(0, name, false))], [Event(0, name, false)]);
            && CanRun(s, glob, steps)
            && var t := Run(s, glob, steps);
            && t.yielded == [Event(0, name, false), Event(1, name, false)] && t.accepted == t.yielded
            && t.tel.dropped == 0 && t.streams == 0 && t.ending == 0 && !t.tel.attached && t.tel.closed
            && !t.loopAlive
  {
    steps := LastPart(glob, name);
    var e0, e1 := Event(0, name, false), Event(1, name, false);
    var emit := EmitBegin(name, 0.0);
    var s0 := Streaming([], [Some(e0)], [e0]);
    var s1 := Apply(s0, glob, Take);
    var s2 := Apply(s1, glob, Steer(Sampling(1.0)));
    var s3 := Apply(s2, glob, emit);
    var s4 := Apply(s3, glob, EmitEnd(0));
    var s5 := Apply(s4, glob, Callback);
    assert s1 == Streaming([e0], [], [e0]);
    assert s2 == s1;
    assert s5 == Streaming([e0], [Some(e1)], [e0, e1]);
    RunCons(s4, glob, Callback, steps);
    steps := [Callback] + steps;
    RunCons(s3, glob, EmitEnd(0), steps);
    steps := [EmitEnd(0)] + steps;
    RunCons(s2, glob, emit, steps);
    steps := [emit] + steps;
    RunCons(s1, glob, Steer(Sampling(1.0)), steps);
    steps := [Steer(Sampling(1.0))] + steps;
    RunCons(s0, glob, Take, steps);
    steps := [Take] + steps;
  }

  /** That stream after a close: the sentinel is the last in its queue. */
  function Ending(name: string): Sys {
    var e0, e1 := Event(0, name, false), Event(1, name, false);
    var s := Streaming([e0], [Some(e1), None], [e0, e1]);
    s.(tel := s.tel.(closed := true))
  }

  lemma LastPart(glob: (string, string) -> bool, name: string) returns (steps: seq<Step>)
    ensures var s := Streaming([Event(0, name, false)], [Some(Event(1, name, false))],
                               [Event(0, name, false), Event(1, name, false)]);
            && CanRun(s, glob, steps)
            && var t := Run(s, glob, steps);
            && t.yielded == [Event(0, name, false), Event(1, name, false)] && t.accepted == t.yielded
            && t.tel.dropped == 0 && t.streams == 0 && t.ending == 0 && !t.tel.attached && t.tel.closed
            && !t.loopAlive
  {
    steps := Winding(glob, name);
    var e0, e1 := Event(0, name, false), Event(1, name, false);
    var s0 := Streaming([e0], [Some(e1)], [e0, e1]);
    var s1 := Apply(s0, glob, CloseBegin);
    var s2 := Apply(s1, glob, CloseEnd);
    assert Apply(s2, glob, Callback) == Ending(name);
    RunCons(s2, glob, Callback, steps);
    steps := [Callback] + steps;
    RunCons(s1, glob, CloseEnd, steps);
    steps := [CloseEnd] + steps;
    RunCons(s0, glob, CloseBegin, steps);
    steps := [CloseBegin] + steps;
  }

  lemma Winding(glob: (string, string) -> bool, name: string) returns (steps: seq<Step>)
    ensures CanRun(Ending(name), glob, steps)
    ensures var t := Run(Ending(name), glob, steps);
            && t.yielded == [Event(0, name, false), Event(1, name, false)] && t.accepted == t.yielded
            && t.tel.dropped == 0 && t.streams == 0 && t.ending == 0 && !t.tel.attached && t.tel.closed
            && !t.loopAlive
  {
    var s3 := Ending(name);
    var s4 := Apply(s3, glob, Take);
    var s5 := Apply(s4, glob, Take);
    var s6 := Apply(s5, glob, Detach);
    var s7 := Apply(s6, glob, LoopEnds);
    assert s4.tel.queue == [None] && s4.yielded == [Event(0, name, false), Event(1, name, false)];
    steps := [];
    assert CanRun(s7, glob, steps);
    RunCons(s6, glob, LoopEnds, steps);
    steps := [LoopEnds] + steps;
    RunCons(s5, glob, Detach, steps);
    steps := [Detach] + steps;
    RunCons(s4, glob, Take, steps);
    steps := [Take] + steps;
    RunCons(s3, glob, Take, steps);
    steps := [Take] + steps;
  }
}
