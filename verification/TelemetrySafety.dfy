/** What holds in every state of every run of the telemetry stream. */
module TelemetrySafety {
  import opened Common
  import opened TelemetryStream
  import opened TelemetryMachine

  // Conservation.

  /** The events in the seven places an event can be. */
  function Sum(
    inFlight: multiset<Event>, pre: multiset<Event>, scheduled: multiset<Event>, queue: multiset<Event>,
    yielded: multiset<Event>, lost: multiset<Event>, ignored: multiset<Event>): multiset<Event>
  {
    inFlight + pre + scheduled + queue + yielded + lost + ignored
  }

  function Held(s: Sys): multiset<Event> {
    Sum(multiset(InHand(s.inFlight)), multiset(s.tel.pre), multiset(Events(s.scheduled)),
        multiset(Events(s.tel.queue)), multiset(s.yielded), multiset(s.lost), multiset(s.ignored))
  }

  /** It does not matter in which place `m` is. */
  lemma Move(
    f: multiset<Event>, p: multiset<Event>, c: multiset<Event>, q: multiset<Event>, y: multiset<Event>,
    l: multiset<Event>, i: multiset<Event>, m: multiset<Event>)
    ensures Sum(f + m, p, c, q, y, l, i) == Sum(f, p, c, q, y, l, i) + m
    ensures Sum(f, p + m, c, q, y, l, i) == Sum(f, p, c, q, y, l, i) + m
    ensures Sum(f, p, c + m, q, y, l, i) == Sum(f, p, c, q, y, l, i) + m
    ensures Sum(f, p, c, q + m, y, l, i) == Sum(f, p, c, q, y, l, i) + m
    ensures Sum(f, p, c, q, y + m, l, i) == Sum(f, p, c, q, y, l, i) + m
    ensures Sum(f, p, c, q, y, l + m, i) == Sum(f, p, c, q, y, l, i) + m
    ensures Sum(f, p, c, q, y, l, i + m) == Sum(f, p, c, q, y, l, i) + m
  {
  }

  lemma MultisetOf(s: seq<Event>, t: seq<Event>)
    ensures multiset(s + t) == multiset(s) + multiset(t)
  {
  }

  predicate Accounts(s: Sys) {
    && multiset(s.accepted) == Held(s)
    && s.tel.dropped == |s.lost| + s.lostSentinels
    && (s.ignored != [] ==> s.tel.closed)
  }

  predicate WithinBounds(s: Sys) {
    && (s.tel.maxBuffer >= 1 ==> |s.tel.queue| <= s.tel.maxBuffer && |s.tel.pre| <= s.tel.maxBuffer)
    && (s.tel.maxBuffer <= 0 ==> s.tel.pre == [])
  }

  /** Nothing has reached the loop before the first attach, or been queued before its flush. */
  predicate Untouched(s: Sys) {
    !s.everAttached ==>
      && s.tel.queue == [] && s.streams == 0 && s.ending == 0
      && (s.scheduled != [] || s.tel.attached || s.closing > 0 ==> s.attaching)
      && (forall i :: 0 <= i < |s.inFlight| && s.inFlight[i].sawLoop ==> s.attaching)
  }

  predicate Inv(s: Sys) {
    Accounts(s) && WithinBounds(s) && Untouched(s) && (s.attaching ==> s.tel.attached && s.loopAlive)
  }

  predicate SameBound(s: Sys, t: Sys) {
    t.tel.maxBuffer == s.tel.maxBuffer
  }

  /** `Move`, for the places as they are in `s`. */
  lemma MoveIn(s: Sys, m: multiset<Event>)
    ensures var f, p := multiset(InHand(s.inFlight)), multiset(s.tel.pre);
            var c, q := multiset(Events(s.scheduled)), multiset(Events(s.tel.queue));
            var y, l, i := multiset(s.yielded), multiset(s.lost), multiset(s.ignored);
            && Sum(f + m, p, c, q, y, l, i) == Held(s) + m
            && Sum(f, p + m, c, q, y, l, i) == Held(s) + m
            && Sum(f, p, c + m, q, y, l, i) == Held(s) + m
            && Sum(f, p, c, q + m, y, l, i) == Held(s) + m
            && Sum(f, p, c, q, y + m, l, i) == Held(s) + m
            && Sum(f, p, c, q, y, l + m, i) == Held(s) + m
            && Sum(f, p, c, q, y, l, i + m) == Held(s) + m
  {
    hide Sum;
    Move(multiset(InHand(s.inFlight)), multiset(s.tel.pre), multiset(Events(s.scheduled)),
         multiset(Events(s.tel.queue)), multiset(s.yielded), multiset(s.lost), multiset(s.ignored), m);
  }

  function Content(slot: Slot): multiset<Event> {
    if slot.Some? then multiset{slot.value} else multiset{}
  }

  lemma EventsSnoc(slots: seq<Slot>, slot: Slot)
    ensures multiset(Events(slots + [slot])) ==
            multiset(Events(slots)) + Content(slot)
  {
    EventsConcat(slots, [slot]);
    assert Events([slot]) == if slot.Some? then [slot.value] else [];
    MultisetOf(Events(slots), Events([slot]));
  }

  lemma OfferHolds(s: Sys, slot: Slot)
    ensures Held(Offered(s, slot)) == Held(s) + Content(slot)
  {
    hide Sum, Events;
    MoveIn(s, Content(slot));
    EventsSnoc(s.tel.queue, slot);
    if slot.Some? {
      MultisetOf(s.lost, [slot.value]);
    }
  }

  lemma BufferHolds(s: Sys, e: Event)
    ensures Held(Buffered(s, e)) == Held(s) + multiset{e}
  {
    hide Sum, Events;
    MoveIn(s, multiset{e});
    MultisetOf(s.tel.pre, [e]);
    MultisetOf(s.lost, [e]);
    MultisetOf(s.ignored, [e]);
  }

  /** The invariant, but for the events `m`, which are on their way from one place to another. */
  predicate Owes(s: Sys, m: multiset<Event>) {
    && multiset(s.accepted) == Held(s) + m
    && s.tel.dropped == |s.lost| + s.lostSentinels
    && (s.ignored != [] ==> s.tel.closed)
    && WithinBounds(s) && Untouched(s) && (s.attaching ==> s.tel.attached && s.loopAlive)
  }

  lemma OfferKeeps(s: Sys, slot: Slot)
    requires Owes(s, Content(slot)) && s.everAttached
    ensures Inv(Offered(s, slot)) && SameBound(s, Offered(s, slot))
  {
    hide Held;
    OfferHolds(s, slot);
  }

  lemma BufferKeeps(s: Sys, e: Event)
    requires Owes(s, multiset{e})
    ensures Inv(Buffered(s, e)) && SameBound(s, Buffered(s, e))
  {
    hide Held;
    BufferHolds(s, e);
  }

  lemma EmitLocalKeeps(s: Sys, name: string)
    requires Inv(s) && !s.attaching
    ensures Inv(EmittedLocal(s, name)) && SameBound(s, EmittedLocal(s, name))
  {
    hide Sum, Events, Offered, Buffered;
    var e := Event(|s.accepted|, name, true);
    var s' := s.(accepted := s.accepted + [e]);
    MultisetOf(s.accepted, [e]);
    if s.tel.attached {
      OfferKeeps(s', Some(e));
    } else {
      BufferKeeps(s', e);
    }
  }

  lemma EmitBeginKeeps(s: Sys, name: string)
    requires Inv(s)
    ensures Inv(EmitBegun(s, name)) && SameBound(s, EmitBegun(s, name))
  {
    hide Sum, Events;
    var e := Event(|s.accepted|, name, false);
    assert InHand(s.inFlight + [InFlight(e, s.tel.attached)]) == InHand(s.inFlight) + [e];
    MultisetOf(s.accepted, [e]);
    MultisetOf(InHand(s.inFlight), [e]);
    MoveIn(s, multiset{e});
  }

  lemma EmitEndKeeps(s: Sys, index: nat)
    requires Inv(s) && index < |s.inFlight|
    ensures Inv(EmitEnded(s, index)) && SameBound(s, EmitEnded(s, index))
  {
    hide Sum, Events, Buffered;
    var e := s.inFlight[index].event;
    var s' := s.(inFlight := s.inFlight[..index] + s.inFlight[index + 1..]);
    EmitEndHolds(s, index);
    assert Owes(s', multiset{e}) by {
      hide Held;
    }
    if !s.inFlight[index].sawLoop {
      BufferKeeps(s', e);
    } else if s.loopAlive {
      EventsSnoc(s.scheduled, Some(e));
      MoveIn(s', multiset{e});
    } else {
      MultisetOf(s.lost, [e]);
      MoveIn(s', multiset{e});
    }
  }

  lemma EmitEndHolds(s: Sys, index: nat)
    requires index < |s.inFlight|
    ensures Held(s) == Held(s.(inFlight := s.inFlight[..index] + s.inFlight[index + 1..]))
                       + multiset{s.inFlight[index].event}
  {
    hide Sum, Events;
    var e := s.inFlight[index].event;
    var rest := s.inFlight[..index] + s.inFlight[index + 1..];
    var before, after := InHand(s.inFlight[..index]), InHand(s.inFlight[index + 1..]);
    assert InHand(s.inFlight) == before + ([e] + after);
    assert InHand(rest) == before + after;
    MultisetOf(before, after);
    MultisetOf(before, [e] + after);
    MultisetOf([e], after);
    assert multiset(InHand(s.inFlight)) == multiset(InHand(rest)) + multiset{e};
    MoveIn(s.(inFlight := rest), multiset{e});
  }

  lemma {:induction false} EventsHead(slots: seq<Slot>)
    requires slots != []
    ensures multiset(Events(slots)) == multiset(Events(slots[1..])) + Content(slots[0])
  {
    MultisetOf(if slots[0].Some? then [slots[0].value] else [], Events(slots[1..]));
  }

  lemma CallbackKeeps(s: Sys)
    requires Inv(s) && !s.attaching && s.scheduled != []
    ensures var t := Offered(s.(scheduled := s.scheduled[1..]), s.scheduled[0]); Inv(t) && SameBound(s, t)
  {
    hide Sum, Events, Offered, Content;
    var s' := s.(scheduled := s.scheduled[1..]);
    EventsHead(s.scheduled);
    MoveIn(s', Content(s.scheduled[0]));
    OfferKeeps(s', s.scheduled[0]);
  }

  /** The flush moves the events that fit to the live queue and the others to the lost ones. */
  lemma FlushHolds(s: Sys, kept: seq<Event>, dropped: seq<Event>, queue: seq<Slot>)
    requires s.tel.pre == kept + dropped
    requires multiset(Events(queue)) == multiset(Events(s.tel.queue)) + multiset(kept)
    ensures Held(s.(tel := s.tel.(queue := queue, pre := []), lost := s.lost + dropped)) == Held(s)
  {
    hide Events;
    var f, c, y := multiset(InHand(s.inFlight)), multiset(Events(s.scheduled)), multiset(s.yielded);
    var q, l, i := multiset(Events(s.tel.queue)), multiset(s.lost), multiset(s.ignored);
    MultisetOf(kept, dropped);
    MultisetOf(s.lost, dropped);
    var k, d := multiset(kept), multiset(dropped);
    assert f + (k + d) + c + q + y + l + i == f + multiset{} + c + (q + k) + y + (l + d) + i;
  }

  lemma FlushStepHolds(s: Sys)
    ensures Held(FlushedTo(s)) == Held(s)
  {
    hide Sum, Events;
    var k := Fits(s.tel, |s.tel.pre|);
    var kept, dropped := s.tel.pre[..k], s.tel.pre[k..];
    var flushed := s.tel.queue + Slots(kept);
    EventsConcat(s.tel.queue, Slots(kept));
    EventsOfSlots(kept);
    MultisetOf(Events(s.tel.queue), kept);
    EventsSnoc(flushed, None);
    assert multiset(Events(flushed)) + multiset{} == multiset(Events(flushed));
    FlushHolds(s, kept, dropped, flushed);
    FlushHolds(s, kept, dropped, flushed + [None]);
  }

  lemma FlushKeeps(s: Sys)
    requires Inv(s)
    ensures Inv(FlushedTo(s)) && SameBound(s, FlushedTo(s))
  {
    hide Held;
    FlushStepHolds(s);
  }

  lemma TakeKeeps(s: Sys)
    requires Inv(s) && s.streams > 0 && s.tel.queue != []
    ensures Inv(TookOne(s)) && SameBound(s, TookOne(s))
  {
    hide Sum, Events;
    var slot := s.tel.queue[0];
    EventsHead(s.tel.queue);
    MoveIn(s.(tel := s.tel.(queue := s.tel.queue[1..])), Content(slot));
    if slot.Some? {
      MultisetOf(s.yielded, [slot.value]);
    }
  }

  lemma CloseKeeps(s: Sys, onLoop: bool)
    requires Inv(s) && (onLoop ==> !s.attaching)
    ensures Inv(Closed(s, onLoop)) && SameBound(s, Closed(s, onLoop))
  {
    hide Sum, Events, Offered;
    var s' := s.(tel := s.tel.(closed := true));
    assert Held(s) + multiset{} == Held(s);
    if onLoop && s.tel.attached {
      OfferKeeps(s', None);
    }
  }

  lemma CloseEndKeeps(s: Sys)
    requires Inv(s) && s.closing > 0
    ensures Inv(CloseEnded(s)) && SameBound(s, CloseEnded(s))
  {
    hide Sum, Events;
    EventsSnoc(s.scheduled, None);
    assert multiset(Events(s.scheduled)) + multiset{} == multiset(Events(s.scheduled));
  }

  /** A step that moves no event and drops nothing. */
  lemma QuietKeeps(s: Sys, t: Sys)
    requires Inv(s)
    requires t.accepted == s.accepted && t.inFlight == s.inFlight && t.scheduled == s.scheduled
    requires t.yielded == s.yielded && t.lost == s.lost && t.ignored == s.ignored
    requires t.lostSentinels == s.lostSentinels && t.closing == s.closing && t.everAttached == s.everAttached
    requires t.tel.queue == s.tel.queue && t.tel.pre == s.tel.pre && t.tel.dropped == s.tel.dropped
    requires SameBound(s, t) && t.tel.closed == s.tel.closed
    requires t.attaching ==> t.tel.attached && t.loopAlive
    requires s.attaching || t.tel.attached ==> s.tel.attached || t.attaching
    requires !s.everAttached && s.attaching ==> t.attaching
    requires !s.everAttached ==> t.streams == 0 && t.ending == 0
    ensures Inv(t) && SameBound(s, t)
  {
    hide Sum, Events;
  }

  lemma UntouchedIn(s: Sys)
    requires Inv(s)
    ensures Untouched(s)
  {
  }

  lemma InvKept(s: Sys, glob: (string, string) -> bool, step: Step)
    requires Inv(s) && Enabled(s, glob, step)
    ensures Inv(Apply(s, glob, step)) && SameBound(s, Apply(s, glob, step))
  {
    hide Inv, EmittedLocal, EmitBegun, EmitEnded, FlushedTo, TookOne, Closed, CloseEnded, Offered;
    match step {
      case EmitLocal(name, _) => EmitLocalKeeps(s, name);
      case EmitBegin(name, _) => EmitBeginKeeps(s, name);
      case EmitEnd(index) => EmitEndKeeps(s, index);
      case Callback => CallbackKeeps(s);
      case Flush => FlushKeeps(s);
      case Take => TakeKeeps(s);
      case CloseLocal => CloseKeeps(s, true);
      case CloseBegin => CloseKeeps(s, false);
      case CloseEnd => CloseEndKeeps(s);
      case _ =>
        assert s.streams > 0 || s.ending > 0 ==> s.everAttached by { UntouchedIn(s); }
        QuietKeeps(s, Apply(s, glob, step));
    }
  }

  lemma {:induction false} RunKeepsInv(s: Sys, glob: (string, string) -> bool, steps: seq<Step>)
    requires Inv(s) && CanRun(s, glob, steps)
    ensures Inv(Run(s, glob, steps))
    ensures SameBound(s, Run(s, glob, steps))
    decreases |steps|
  {
    hide Inv, Enabled, Apply;
    if steps != [] {
      InvKept(s, glob, steps[0]);
      RunKeepsInv(Apply(s, glob, steps[0]), glob, steps[1..]);
    }
  }

  lemma InitInv(maxBuffer: int)
    ensures Inv(Init(maxBuffer))
  {
  }

  /** Conservation: after any run of emits, attaches, detaches, closes and control messages,
      every accepted event is still in hand, buffered, scheduled, queued, yielded, dropped or
      ignored after the close, exactly once; the counter counts the drops of events and of
      sentinels; and neither buffer outgrows its bound. */
  lemma Conservation(maxBuffer: int, glob: (string, string) -> bool, steps: seq<Step>)
    requires CanRun(Init(maxBuffer), glob, steps)
    ensures var s := Run(Init(maxBuffer), glob, steps);
            && multiset(s.accepted) ==
               multiset(InHand(s.inFlight)) + multiset(s.tel.pre) + multiset(Events(s.scheduled))
               + multiset(Events(s.tel.queue)) + multiset(s.yielded) + multiset(s.lost) + multiset(s.ignored)
            && s.tel.dropped == |s.lost| + s.lostSentinels
            && (maxBuffer >= 1 ==> |s.tel.queue| <= maxBuffer && |s.tel.pre| <= maxBuffer)
  {
    InitInv(maxBuffer);
    RunKeepsInv(Init(maxBuffer), glob, steps);
  }

  /** The first attach moves the whole pre-stream buffer to the live queue and drops no event.
      A stream that was closed before gets its sentinel if and only if the buffer was not
      full. */
  lemma FirstAttachFlushesAll(maxBuffer: int, glob: (string, string) -> bool, steps: seq<Step>)
    requires CanRun(Init(maxBuffer), glob, steps)
    ensures var s := Run(Init(maxBuffer), glob, steps);
            var t := FlushedTo(s);
            !s.everAttached ==>
              && t.lost == s.lost
              && t.tel.pre == []
              && t.tel.queue == Slots(s.tel.pre)
                                + (if s.tel.closed && (maxBuffer <= 0 || |s.tel.pre| < maxBuffer) then [None] else [])
              && t.lostSentinels == s.lostSentinels
                                    + (if s.tel.closed && 0 < maxBuffer == |s.tel.pre| then 1 else 0)
  {
    hide FlushedTo;
    InitInv(maxBuffer);
    RunKeepsInv(Init(maxBuffer), glob, steps);
    if !Run(Init(maxBuffer), glob, steps).everAttached {
      FlushOfAll(Run(Init(maxBuffer), glob, steps));
    }
  }

  lemma FlushOfAll(s: Sys)
    requires Inv(s) && !s.everAttached
    ensures FlushedTo(s).lost == s.lost && FlushedTo(s).tel.pre == []
    ensures var endsAtOnce := s.tel.closed && (s.tel.maxBuffer <= 0 || |s.tel.pre| < s.tel.maxBuffer);
            FlushedTo(s).tel.queue == Slots(s.tel.pre) + (if endsAtOnce then [None] else [])
    ensures FlushedTo(s).lostSentinels ==
            s.lostSentinels + (if s.tel.closed && 0 < s.tel.maxBuffer == |s.tel.pre| then 1 else 0)
  {
    hide Accounts;
    assert s.tel.pre[..|s.tel.pre|] == s.tel.pre && s.tel.pre[|s.tel.pre|..] == [];
  }
}
