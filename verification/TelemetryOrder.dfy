/** The order in which the telemetry stream yields, and what a close does to it. */
module TelemetryOrder {
  import opened Common
  import opened TelemetryStream
  import opened TelemetryMachine
  import TelemetrySafety

  /** The local events of `events` are in the order of their emission. */
  predicate LocalsInOrder(events: seq<Event>) {
    forall i, j :: 0 <= i < j < |events| && events[i].local && events[j].local ==> events[i].id < events[j].id
  }

  predicate NoLocals(events: seq<Event>) {
    forall i :: 0 <= i < |events| ==> !events[i].local
  }

  predicate Below(events: seq<Event>, n: nat) {
    forall i :: 0 <= i < |events| ==> events[i].id < n
  }

  /** The events on their way to the client, the next to be yielded first. */
  function Line(s: Sys): seq<Event> {
    s.yielded + Events(s.tel.queue) + s.tel.pre
  }

  predicate Ordered(s: Sys) {
    && LocalsInOrder(Line(s)) && Below(Line(s), |s.accepted|)
    && NoLocals(InHand(s.inFlight)) && Below(InHand(s.inFlight), |s.accepted|)
    && NoLocals(Events(s.scheduled)) && Below(Events(s.scheduled), |s.accepted|)
    && (s.tel.attached && !s.attaching ==> NoLocals(s.tel.pre))
  }

  lemma Insert(before: seq<Event>, e: Event, after: seq<Event>, n: nat)
    requires LocalsInOrder(before + after) && Below(before + after, n) && e.id <= n
    requires !e.local || (NoLocals(after) && e.id == n)
    ensures LocalsInOrder(before + [e] + after) && Below(before + [e] + after, n + 1)
    ensures e.id < n ==> Below(before + [e] + after, n)
  {
    var line, longer := before + after, before + [e] + after;
    assert forall k :: 0 <= k < |before| ==> longer[k] == line[k];
    assert forall k :: |before| < k < |longer| ==> longer[k] == line[k - 1];
    assert NoLocals(after) ==> forall k :: |before| <= k < |line| ==> !line[k].local by {
      assert forall k :: |before| <= k < |line| ==> line[k] == after[k - |before|];
    }
  }

  lemma Cut(before: seq<Event>, after: seq<Event>, n: nat)
    requires LocalsInOrder(before + after) && Below(before + after, n)
    ensures LocalsInOrder(before) && Below(before, n)
  {
    assert forall k :: 0 <= k < |before| ==> (before + after)[k] == before[k];
  }

  lemma Snoc(events: seq<Event>, e: Event, n: nat)
    requires NoLocals(events) && Below(events, n) && !e.local && e.id < n
    ensures NoLocals(events + [e]) && Below(events + [e], n)
  {
  }

  lemma EventsSnoc(slots: seq<Slot>, slot: Slot)
    ensures Events(slots + [slot]) == if slot.Some? then Events(slots) + [slot.value] else Events(slots)
  {
    EventsConcat(slots, [slot]);
    assert Events([slot]) == if slot.Some? then [slot.value] else [];
  }

  /** An event joins the line at the end of the live queue. */
  lemma QueueInOrder(s: Sys, slot: Slot)
    requires Ordered(s)
    requires slot.Some? ==> slot.value.id < |s.accepted|
    requires slot.Some? && slot.value.local ==>
               s.tel.attached && !s.attaching && slot.value.id == |s.accepted| - 1 && Below(Line(s), |s.accepted| - 1)
    ensures Ordered(Offered(s, slot))
  {
    EventsSnoc(s.tel.queue, slot);
    if slot.Some? {
      var front := s.yielded + Events(s.tel.queue);
      Insert(front, slot.value, s.tel.pre, if slot.value.local then |s.accepted| - 1 else |s.accepted|);
      assert s.yielded + (Events(s.tel.queue) + [slot.value]) + s.tel.pre == front + [slot.value] + s.tel.pre;
    }
  }

  lemma BufferInOrder(s: Sys, e: Event)
    requires Ordered(s) && e.id < |s.accepted|
    requires e.local ==> !s.tel.attached && e.id == |s.accepted| - 1 && Below(Line(s), |s.accepted| - 1)
    ensures Ordered(Buffered(s, e))
  {
    Insert(Line(s), e, [], if e.local then |s.accepted| - 1 else |s.accepted|);
    assert Line(s) + [] == Line(s);
    assert s.yielded + Events(s.tel.queue) + (s.tel.pre + [e]) == Line(s) + [e] + [];
  }

  lemma EmitLocalInOrder(s: Sys, name: string)
    requires Ordered(s) && !s.attaching
    ensures Ordered(EmittedLocal(s, name))
  {
    hide Offered, Buffered, Line, LocalsInOrder, NoLocals;
    var e := Event(|s.accepted|, name, true);
    var s' := s.(accepted := s.accepted + [e]);
    assert Line(s') == Line(s) by {
      SameLine(s, s');
    }
    if s.tel.attached {
      QueueInOrder(s', Some(e));
    } else {
      BufferInOrder(s', e);
    }
  }

  lemma SameLine(s: Sys, t: Sys)
    requires t.yielded == s.yielded && t.tel.queue == s.tel.queue && t.tel.pre == s.tel.pre
    ensures Line(t) == Line(s)
  {
  }

  lemma EmitBeginInOrder(s: Sys, name: string)
    requires Ordered(s)
    ensures Ordered(EmitBegun(s, name))
  {
    hide LocalsInOrder, Events;
    var e := Event(|s.accepted|, name, false);
    assert InHand(s.inFlight + [InFlight(e, s.tel.attached)]) == InHand(s.inFlight) + [e];
  }

  lemma EmitEndInOrder(s: Sys, index: nat)
    requires Ordered(s) && index < |s.inFlight|
    ensures Ordered(EmitEnded(s, index))
  {
    hide Offered, Buffered, Line, LocalsInOrder;
    var e := s.inFlight[index].event;
    var rest := s.inFlight[..index] + s.inFlight[index + 1..];
    var s' := s.(inFlight := rest);
    assert InHand(s.inFlight)[index] == e;
    assert InHand(rest) == InHand(s.inFlight)[..index] + InHand(s.inFlight)[index + 1..];
    SameLine(s, s');
    if !s.inFlight[index].sawLoop {
      BufferInOrder(s', e);
    } else if s.loopAlive {
      EventsSnoc(s.scheduled, Some(e));
      Snoc(Events(s.scheduled), e, |s.accepted|);
      SameLine(s, EmitEnded(s, index));
    } else {
      SameLine(s, EmitEnded(s, index));
    }
  }

  lemma CallbackInOrder(s: Sys)
    requires Ordered(s) && s.scheduled != []
    ensures Ordered(Offered(s.(scheduled := s.scheduled[1..]), s.scheduled[0]))
  {
    hide Offered, LocalsInOrder, Line;
    var s' := s.(scheduled := s.scheduled[1..]);
    var slot := s.scheduled[0];
    assert Events(s.scheduled) == (if slot.Some? then [slot.value] else []) + Events(s'.scheduled);
    assert slot.Some? ==> Events(s.scheduled)[0] == slot.value;
    assert forall i :: 0 <= i < |Events(s'.scheduled)| ==>
      Events(s'.scheduled)[i] == Events(s.scheduled)[if slot.Some? then i + 1 else i];
    SameLine(s, s');
    QueueInOrder(s', slot);
  }

  lemma FlushedEvents(queue: seq<Slot>, kept: seq<Event>)
    ensures Events(queue + Slots(kept)) == Events(queue) + kept
    ensures Events(queue + Slots(kept) + [None]) == Events(queue) + kept
  {
    hide Events, Slots;
    EventsConcat(queue, Slots(kept));
    EventsOfSlots(kept);
    EventsSnoc(queue + Slots(kept), None);
  }

  /** An attach keeps a front part of the line and drops the rest. */
  lemma AttachedLine(s: Sys)
    ensures var k := Fits(s.tel, |s.tel.pre|);
            Line(FlushedTo(s)) == s.yielded + Events(s.tel.queue) + s.tel.pre[..k] &&
            Line(s) == Line(FlushedTo(s)) + s.tel.pre[k..]
  {
    hide Events, Slots;
    var k := Fits(s.tel, |s.tel.pre|);
    var events, kept, rest := Events(s.tel.queue), s.tel.pre[..k], s.tel.pre[k..];
    FlushedEvents(s.tel.queue, kept);
    assert Events(FlushedTo(s).tel.queue) == events + kept;
    assert FlushedTo(s).tel.pre == [] && s.tel.pre == kept + rest;
    Regroup(s.yielded, events, kept, rest);
  }

  lemma Regroup<T>(a: seq<T>, b: seq<T>, c: seq<T>, d: seq<T>)
    ensures a + (b + c) + [] == a + b + c
    ensures a + b + (c + d) == a + b + c + d
  {
  }

  lemma AttachInOrder(s: Sys)
    requires Ordered(s)
    ensures Ordered(FlushedTo(s))
  {
    hide LocalsInOrder, Line, Below, Events, Fits;
    AttachedLine(s);
    Cut(Line(FlushedTo(s)), s.tel.pre[Fits(s.tel, |s.tel.pre|)..], |s.accepted|);
  }

  lemma TakeInOrder(s: Sys)
    requires Ordered(s) && s.streams > 0 && s.tel.queue != []
    ensures Ordered(TookOne(s))
  {
    hide LocalsInOrder, NoLocals;
    assert Line(TookOne(s)) == Line(s);
  }

  lemma OrderKept(s: Sys, glob: (string, string) -> bool, step: Step)
    requires Ordered(s) && Enabled(s, glob, step)
    ensures Ordered(Apply(s, glob, step))
  {
    hide LocalsInOrder, NoLocals, Below, Line, EmittedLocal, EmitBegun, EmitEnded, FlushedTo, TookOne, Offered;
    match step {
      case EmitLocal(name, _) => EmitLocalInOrder(s, name);
      case EmitBegin(name, _) => EmitBeginInOrder(s, name);
      case EmitEnd(index) => EmitEndInOrder(s, index);
      case Callback => CallbackInOrder(s);
      case Flush => AttachInOrder(s);
      case Take => TakeInOrder(s);
      case CloseLocal =>
        SameLine(s, s.(tel := s.tel.(closed := true)));
        QueueInOrder(s.(tel := s.tel.(closed := true)), None);
      case CloseEnd =>
        EventsSnoc(s.scheduled, None);
        SameLine(s, CloseEnded(s));
      case _ =>
        SameLine(s, Apply(s, glob, step));
    }
  }

  predicate Numbered(accepted: seq<Event>) {
    forall i :: 0 <= i < |accepted| ==> accepted[i].id == i
  }

  lemma NumberedKept(s: Sys, glob: (string, string) -> bool, step: Step)
    requires Numbered(s.accepted) && Enabled(s, glob, step)
    ensures Numbered(Apply(s, glob, step).accepted)
  {
    match step {
      case EmitLocal(name, _) =>
      case EmitBegin(name, _) =>
      case _ => assert Apply(s, glob, step).accepted == s.accepted;
    }
  }

  lemma {:induction false} RunKeepsOrder(s: Sys, glob: (string, string) -> bool, steps: seq<Step>)
    requires Ordered(s) && Numbered(s.accepted) && CanRun(s, glob, steps)
    ensures Ordered(Run(s, glob, steps)) && Numbered(Run(s, glob, steps).accepted)
    decreases |steps|
  {
    hide Ordered, Numbered, Apply, Enabled;
    if steps != [] {
      OrderKept(s, glob, steps[0]);
      NumberedKept(s, glob, steps[0]);
      RunKeepsOrder(Apply(s, glob, steps[0]), glob, steps[1..]);
    }
  }

  /** Events emitted on the loop thread are yielded in the order of their emission, across any
      number of attaches and detaches; every event that is yielded was accepted. */
  lemma LocalEventsKeepOrder(maxBuffer: int, glob: (string, string) -> bool, steps: seq<Step>)
    requires CanRun(Init(maxBuffer), glob, steps)
    ensures var s := Run(Init(maxBuffer), glob, steps);
            && LocalsInOrder(s.yielded)
            && (forall i :: 0 <= i < |s.yielded| ==>
                  s.yielded[i].id < |s.accepted| && s.accepted[s.yielded[i].id] == s.yielded[i])
  {
    InitInOrder(maxBuffer);
    hide Run, CanRun, LocalsInOrder, Below, Events;
    RunKeepsOrder(Init(maxBuffer), glob, steps);
    TelemetrySafety.Conservation(maxBuffer, glob, steps);
    var s := Run(Init(maxBuffer), glob, steps);
    assert Line(s) == s.yielded + (Events(s.tel.queue) + s.tel.pre);
    Cut(s.yielded, Events(s.tel.queue) + s.tel.pre, |s.accepted|);
    assert multiset(s.yielded) <= multiset(s.accepted);
    FoundByNumber(s.yielded, s.accepted);
  }

  lemma InitInOrder(maxBuffer: int)
    ensures Ordered(Init(maxBuffer)) && Numbered(Init(maxBuffer).accepted)
  {
  }

  lemma FoundByNumber(some: seq<Event>, accepted: seq<Event>)
    requires Numbered(accepted) && multiset(some) <= multiset(accepted)
    ensures forall i :: 0 <= i < |some| ==> some[i].id < |accepted| && accepted[some[i].id] == some[i]
  {
    forall i | 0 <= i < |some|
      ensures some[i].id < |accepted| && accepted[some[i].id] == some[i]
    {
      assert some[i] in multiset(some) && some[i] in multiset(accepted);
      var j :| 0 <= j < |accepted| && accepted[j] == some[i];
    }
  }

  // Closing.

  predicate AllSome(slots: seq<Slot>) {
    forall i :: 0 <= i < |slots| ==> slots[i].Some?
  }

  /** No sentinel is queued, scheduled or about to be scheduled. */
  predicate NoSentinel(s: Sys) {
    AllSome(s.tel.queue) && AllSome(s.scheduled) && s.closing == 0
  }

  /** A step that neither starts a further stream nor cancels the one that runs. */
  predicate Undisturbing(step: Step) {
    !step.SetLoop? && !step.Flush? && !step.Cancel?
  }

  lemma NoSentinelKept(s: Sys, glob: (string, string) -> bool, step: Step)
    requires NoSentinel(s) && Enabled(s, glob, step) && !step.CloseLocal? && !step.CloseBegin?
    requires s.tel.closed ==> !step.Flush?
    ensures NoSentinel(Apply(s, glob, step)) && Apply(s, glob, step).tel.closed == s.tel.closed
    ensures Undisturbing(step) ==> Apply(s, glob, step).streams == s.streams
  {
    hide Offered, Buffered, FlushedTo, Admits, AllSome;
    match step {
      case EmitLocal(name, _) =>
        var e := Event(|s.accepted|, name, true);
        AddsNoSentinel(s.(accepted := s.accepted + [e]), e);
      case EmitEnd(index) =>
        var rest := s.inFlight[..index] + s.inFlight[index + 1..];
        AddsNoSentinel(s.(inFlight := rest), s.inFlight[index].event);
        AllSomeSnoc(s.scheduled, s.inFlight[index].event);
      case Callback =>
        AllSomeTail(s.scheduled);
        AddsNoSentinel(s.(scheduled := s.scheduled[1..]), s.scheduled[0].value);
      case Flush =>
        FlushAddsNoSentinel(s);
      case Take =>
        AllSomeTail(s.tel.queue);
      case _ =>
    }
  }

  lemma AllSomeSnoc(slots: seq<Slot>, e: Event)
    requires AllSome(slots)
    ensures AllSome(slots + [Some(e)])
  {
  }

  lemma AllSomeTail(slots: seq<Slot>)
    requires AllSome(slots) && slots != []
    ensures slots[0].Some? && AllSome(slots[1..])
  {
  }

  lemma AddsNoSentinel(s: Sys, e: Event)
    requires NoSentinel(s)
    ensures NoSentinel(Offered(s, Some(e))) && NoSentinel(Buffered(s, e))
    ensures Offered(s, Some(e)).tel.closed == s.tel.closed && Offered(s, Some(e)).streams == s.streams
    ensures Buffered(s, e).tel.closed == s.tel.closed && Buffered(s, e).streams == s.streams
  {
  }

  lemma FlushAddsNoSentinel(s: Sys)
    requires NoSentinel(s) && !s.tel.closed
    ensures NoSentinel(FlushedTo(s)) && !FlushedTo(s).tel.closed
  {
  }

  /** Before the close there is no sentinel anywhere. */
  lemma {:induction false} OpenMeansNoSentinel(s: Sys, glob: (string, string) -> bool, steps: seq<Step>)
    requires (!s.tel.closed ==> NoSentinel(s)) && CanRun(s, glob, steps)
    ensures !Run(s, glob, steps).tel.closed ==> NoSentinel(Run(s, glob, steps))
    decreases |steps|
  {
    hide NoSentinel, Apply, Enabled;
    if steps != [] {
      if s.tel.closed || steps[0].CloseLocal? || steps[0].CloseBegin? {
        StaysClosed(s, glob, steps[0]);
      } else {
        NoSentinelKept(s, glob, steps[0]);
      }
      OpenMeansNoSentinel(Apply(s, glob, steps[0]), glob, steps[1..]);
    }
  }

  lemma StaysClosed(s: Sys, glob: (string, string) -> bool, step: Step)
    requires Enabled(s, glob, step) && (s.tel.closed || step.CloseLocal? || step.CloseBegin?)
    ensures Apply(s, glob, step).tel.closed
  {
  }

  /** With the close done and no sentinel in sight, the stream does not end by itself. */
  lemma {:induction false} NeverEnds(s: Sys, glob: (string, string) -> bool, steps: seq<Step>)
    requires s.tel.closed && NoSentinel(s) && CanRun(s, glob, steps)
    requires forall i :: 0 <= i < |steps| ==> Undisturbing(steps[i])
    ensures Run(s, glob, steps).streams == s.streams
    decreases |steps|
  {
    hide NoSentinel, Apply;
    if steps != [] {
      assert Undisturbing(steps[0]) && !steps[0].CloseLocal? && !steps[0].CloseBegin?;
      NoSentinelKept(s, glob, steps[0]);
      assert forall i :: 0 <= i < |steps| - 1 ==> steps[1..][i] == steps[i + 1];
      NeverEnds(Apply(s, glob, steps[0]), glob, steps[1..]);
    }
  }

  /** The one stream has yielded a part of `ahead` since it had yielded `base`; the rest of
      `ahead` and then a sentinel are next in the queue.  Or it has yielded all and ended. */
  predicate Draining(s: Sys, base: seq<Event>, ahead: seq<Event>) {
    var done := |s.yielded| - |base|;
    if s.streams == 0 then s.yielded == base + ahead
    else
      && s.streams == 1
      && 0 <= done <= |ahead| < done + |s.tel.queue|
      && s.yielded == base + ahead[..done]
      && (forall i :: 0 <= i < |ahead| - done ==> s.tel.queue[i] == Some(ahead[done + i]))
      && s.tel.queue[|ahead| - done].None?
  }

  /** A step other than a take only adds to the end of the queue, if it touches it at all. */
  lemma QueueGrows(s: Sys, glob: (string, string) -> bool, step: Step)
    requires Enabled(s, glob, step) && Undisturbing(step) && !step.Take?
    ensures var t := Apply(s, glob, step);
            t.yielded == s.yielded && t.streams == s.streams && s.tel.queue <= t.tel.queue
  {
  }

  /** The takes that are left until the stream has ended. */
  function LeftToTake(s: Sys, base: seq<Event>, ahead: seq<Event>): int {
    if s.streams == 0 then 0 else |ahead| - (|s.yielded| - |base|) + 1
  }

  function Takes(steps: seq<Step>): nat {
    if steps == [] then 0 else (if steps[0].Take? then 1 else 0) + Takes(steps[1..])
  }

  lemma DrainingKept(s: Sys, glob: (string, string) -> bool, step: Step, base: seq<Event>, ahead: seq<Event>)
    requires Draining(s, base, ahead) && Enabled(s, glob, step) && Undisturbing(step)
    ensures Draining(Apply(s, glob, step), base, ahead)
    ensures LeftToTake(Apply(s, glob, step), base, ahead) ==
            LeftToTake(s, base, ahead) - (if step.Take? then 1 else 0)
  {
    hide EmittedLocal, EmitBegun, EmitEnded, FlushedTo, Closed, CloseEnded, Offered, Controlled;
    if step.Take? {
      var done := |s.yielded| - |base|;
      if done < |ahead| {
        assert s.tel.queue[0] == Some(ahead[done]);
        assert ahead[..done + 1] == ahead[..done] + [ahead[done]];
      } else {
        assert ahead[..done] == ahead;
      }
    } else {
      QueueGrows(s, glob, step);
    }
  }

  lemma {:induction false} Drains(
    s: Sys, glob: (string, string) -> bool, steps: seq<Step>, base: seq<Event>, ahead: seq<Event>)
    requires Draining(s, base, ahead) && CanRun(s, glob, steps)
    requires forall i :: 0 <= i < |steps| ==> Undisturbing(steps[i])
    ensures Draining(Run(s, glob, steps), base, ahead)
    ensures LeftToTake(Run(s, glob, steps), base, ahead) + Takes(steps) == LeftToTake(s, base, ahead)
    decreases |steps|
  {
    hide Draining, LeftToTake, Apply, Enabled, Undisturbing;
    if steps != [] {
      DrainingKept(s, glob, steps[0], base, ahead);
      assert forall i :: 0 <= i < |steps| - 1 ==> steps[1..][i] == steps[i + 1];
      Drains(Apply(s, glob, steps[0]), glob, steps[1..], base, ahead);
    }
  }

  lemma {:induction false} AllEvents(slots: seq<Slot>)
    requires AllSome(slots)
    ensures |Events(slots)| == |slots|
    ensures forall i :: 0 <= i < |slots| ==> slots[i] == Some(Events(slots)[i])
  {
    if slots != [] {
      AllEvents(slots[1..]);
    }
  }

  function Min(a: int, b: int): int {
    if a <= b then a else b
  }

  /** After `takes` takes the stream has yielded that much of `ahead`, and it has ended exactly
      when it has taken all of it and the sentinel; it cannot take more, and until then there is
      something to take. */
  predicate EndsAfter(s: Sys, base: seq<Event>, ahead: seq<Event>, takes: nat) {
    && takes <= |ahead| + 1
    && s.yielded == base + ahead[..Min(takes, |ahead|)]
    && (s.streams == 0 <==> takes == |ahead| + 1)
    && (s.streams > 0 ==> s.tel.queue != [])
  }

  lemma DrainingRead(s: Sys, base: seq<Event>, ahead: seq<Event>, takes: nat)
    requires Draining(s, base, ahead) && LeftToTake(s, base, ahead) + takes == |ahead| + 1
    ensures EndsAfter(s, base, ahead, takes)
  {
    assert ahead[..|ahead|] == ahead;
  }

  lemma DrainingStarts(s: Sys)
    requires s.streams == 1 && QueueHasRoom(s.tel) && AllSome(s.tel.queue)
    ensures |Events(s.tel.queue)| == |s.tel.queue|
    ensures Draining(Offered(s, None), s.yielded, Events(s.tel.queue))
    ensures LeftToTake(Offered(s, None), s.yielded, Events(s.tel.queue)) == |s.tel.queue| + 1
  {
    AllEvents(s.tel.queue);
    hide Events;
    assert s.yielded == s.yielded + Events(s.tel.queue)[..0];
  }

  /** The only sentinel is offered to the queue of the one stream.  If a slot is free the stream
      will yield what is queued and end; if not the sentinel is dropped, and the stream goes on. */
  lemma SentinelOffered(s: Sys, glob: (string, string) -> bool, after: seq<Step>)
    requires s.tel.closed && s.streams == 1 && NoSentinel(s)
    requires CanRun(Offered(s, None), glob, after)
    requires forall i :: 0 <= i < |after| ==> Undisturbing(after[i])
    ensures var t := Run(Offered(s, None), glob, after);
            if QueueHasRoom(s.tel) then
              EndsAfter(t, s.yielded, Events(s.tel.queue), Takes(after)) && |Events(s.tel.queue)| == |s.tel.queue|
            else
              t.streams == 1 && Offered(s, None).lostSentinels == s.lostSentinels + 1
  {
    hide CanRun, Run, Draining, LeftToTake, Events, Undisturbing, EndsAfter, Takes;
    if QueueHasRoom(s.tel) {
      DrainingStarts(s);
      Drains(Offered(s, None), glob, after, s.yielded, Events(s.tel.queue));
      DrainingRead(Run(Offered(s, None), glob, after), s.yielded, Events(s.tel.queue), Takes(after));
    } else {
      NeverEnds(Offered(s, None), glob, after);
    }
  }

  /** Closing on the loop thread, with one stream attached, ends that stream if and only if a
      slot of the queue was free.  If it was, then whatever happens later, short of a further
      attach or a cancellation, the stream yields what was queued at the close, in order, and has
      ended after one more take; if it was not, the sentinel is dropped, and the stream never ends
      by itself. */
  lemma CloseEndsStreamIffRoom(
    maxBuffer: int, glob: (string, string) -> bool, before: seq<Step>, after: seq<Step>)
    requires CanRun(Init(maxBuffer), glob, before)
    requires var s := Run(Init(maxBuffer), glob, before);
             && s.tel.attached && !s.attaching && s.streams == 1 && !s.tel.closed
             && CanRun(Closed(s, true), glob, after)
    requires forall i :: 0 <= i < |after| ==> Undisturbing(after[i])
    ensures var s := Run(Init(maxBuffer), glob, before);
            var t := Run(Closed(s, true), glob, after);
            if QueueHasRoom(s.tel) then
              EndsAfter(t, s.yielded, Events(s.tel.queue), Takes(after)) && |Events(s.tel.queue)| == |s.tel.queue|
            else
              t.streams == 1 && Closed(s, true).lostSentinels == s.lostSentinels + 1
  {
    hide CanRun, Run, Events, Undisturbing, EndsAfter, Takes, Offered;
    var s := Run(Init(maxBuffer), glob, before);
    OpenAtStart(maxBuffer);
    OpenMeansNoSentinel(Init(maxBuffer), glob, before);
    SentinelOffered(s.(tel := s.tel.(closed := true)), glob, after);
  }

  lemma OpenAtStart(maxBuffer: int)
    ensures NoSentinel(Init(maxBuffer))
  {
  }

  // A run in which the close finds the queue full.

  lemma RunCons(s: Sys, glob: (string, string) -> bool, step: Step, rest: seq<Step>)
    requires Enabled(s, glob, step) && CanRun(Apply(s, glob, step), glob, rest)
    ensures CanRun(s, glob, [step] + rest)
    ensures Run(s, glob, [step] + rest) == Run(Apply(s, glob, step), glob, rest)
  {
    hide Apply, Enabled;
    assert ([step] + rest)[1..] == rest;
  }

  /** One open stream that admits everything, with nothing under way. */
  predicate Filling(s: Sys) {
    && s.tel.attached && LoopFree(s) && s.streams == 1 && !s.tel.closed
    && s.tel.enabled && s.tel.samplingRate == 1.0 && s.tel.allow == [] && s.tel.deny == []
    && 1 <= s.tel.maxBuffer && |s.tel.queue| <= s.tel.maxBuffer
  }

  lemma {:induction false} FillQueue(s: Sys, glob: (string, string) -> bool, name: string) returns (steps: seq<Step>)
    requires Filling(s)
    ensures CanRun(s, glob, steps)
    ensures Filling(Run(s, glob, steps)) && !QueueHasRoom(Run(s, glob, steps).tel)
    decreases s.tel.maxBuffer - |s.tel.queue|
  {
    if QueueHasRoom(s.tel) {
      var emit := EmitLocal(name, 0.0);
      assert Enabled(s, glob, emit);
      steps := FillQueue(Apply(s, glob, emit), glob, name);
      RunCons(s, glob, emit, steps);
      steps := [emit] + steps;
    } else {
      steps := [];
    }
  }

  /** For every bound there is a run after which a close finds the queue of its one stream full. */
  lemma CloseCanFindQueueFull(maxBuffer: int, glob: (string, string) -> bool, name: string)
    returns (before: seq<Step>)
    requires maxBuffer >= 1
    ensures CanRun(Init(maxBuffer), glob, before)
    ensures var s := Run(Init(maxBuffer), glob, before);
            && s.tel.attached && !s.attaching && s.streams == 1 && !s.tel.closed
            && Enabled(s, glob, CloseLocal) && !QueueHasRoom(s.tel)
  {
    var s := Init(maxBuffer);
    var t := Apply(s, glob, SetLoop);
    var u := Apply(t, glob, Flush);
    assert Filling(u);
    before := FillQueue(u, glob, name);
    RunCons(t, glob, Flush, before);
    before := [Flush] + before;
    RunCons(s, glob, SetLoop, before);
    before := [SetLoop] + before;
  }

  // A close on another thread: its sentinel reaches the queue by a callback.

  function Sentinels(slots: seq<Slot>): nat {
    if slots == [] then 0 else (if slots[0].None? then 1 else 0) + Sentinels(slots[1..])
  }

  lemma {:induction false} SentinelsSnoc(slots: seq<Slot>, slot: Slot)
    ensures Sentinels(slots + [slot]) == Sentinels(slots) + (if slot.None? then 1 else 0)
  {
    if slots == [] {
      assert slots + [slot] == [slot];
    } else {
      assert (slots + [slot])[1..] == slots[1..] + [slot] && (slots + [slot])[0] == slots[0];
      SentinelsSnoc(slots[1..], slot);
    }
  }

  lemma {:induction false} NoneLeft(slots: seq<Slot>)
    ensures Sentinels(slots) == 0 <==> AllSome(slots)
  {
    if slots != [] {
      NoneLeft(slots[1..]);
      assert slots == [slots[0]] + slots[1..];
    }
  }

  /** The sentinels on their way to the queue. */
  function OnTheWay(s: Sys): nat {
    s.closing + Sentinels(s.scheduled)
  }

  /** At most one sentinel is on its way, and while it is, the one stream goes on and has none
      in its queue. */
  predicate OneOnTheWay(s: Sys) {
    && s.tel.closed && OnTheWay(s) <= 1
    && (OnTheWay(s) == 1 ==> s.streams == 1 && AllSome(s.tel.queue))
  }

  lemma OneOnTheWayKept(s: Sys, glob: (string, string) -> bool, step: Step)
    requires OneOnTheWay(s) && Enabled(s, glob, step) && Undisturbing(step)
    ensures OneOnTheWay(Apply(s, glob, step))
  {
    match step {
      case EmitEnd(index) => SentinelsSnoc(s.scheduled, Some(s.inFlight[index].event));
      case CloseEnd => SentinelsSnoc(s.scheduled, None);
      case _ =>
    }
  }

  lemma {:induction false} OneOnTheWayRun(s: Sys, glob: (string, string) -> bool, steps: seq<Step>)
    requires OneOnTheWay(s) && CanRun(s, glob, steps)
    requires forall i :: 0 <= i < |steps| ==> Undisturbing(steps[i])
    ensures OneOnTheWay(Run(s, glob, steps))
    decreases |steps|
  {
    hide OneOnTheWay, Apply, Enabled;
    if steps != [] {
      OneOnTheWayKept(s, glob, steps[0]);
      assert forall i :: 0 <= i < |steps| - 1 ==> steps[1..][i] == steps[i + 1];
      OneOnTheWayRun(Apply(s, glob, steps[0]), glob, steps[1..]);
    }
  }

  lemma RemoteCloseStarts(s: Sys)
    requires NoSentinel(s) && s.tel.attached && s.streams == 1
    ensures OneOnTheWay(Closed(s, false))
  {
    NoneLeft(s.scheduled);
  }

  lemma OneArrives(t: Sys)
    requires OneOnTheWay(t) && t.scheduled != [] && t.scheduled[0].None?
    ensures t.tel.closed && t.streams == 1 && NoSentinel(t.(scheduled := t.scheduled[1..]))
  {
    NoneLeft(t.scheduled[1..]);
  }

  /** Closing on another thread: whatever happens until its sentinel is next in line, the
      callback ends the stream if and only if a slot of the queue is free at that moment. */
  lemma RemoteCloseEndsStreamIffRoom(
    maxBuffer: int, glob: (string, string) -> bool, before: seq<Step>, between: seq<Step>, after: seq<Step>)
    requires CanRun(Init(maxBuffer), glob, before)
    requires var s := Run(Init(maxBuffer), glob, before);
             && s.tel.attached && !s.attaching && s.streams == 1 && !s.tel.closed
             && CanRun(Closed(s, false), glob, between)
             && var t := Run(Closed(s, false), glob, between);
             && t.scheduled != [] && t.scheduled[0].None?
             && CanRun(Offered(t.(scheduled := t.scheduled[1..]), None), glob, after)
    requires forall i :: 0 <= i < |between| ==> Undisturbing(between[i])
    requires forall i :: 0 <= i < |after| ==> Undisturbing(after[i])
    ensures var t := Run(Closed(Run(Init(maxBuffer), glob, before), false), glob, between);
            var u := Run(Offered(t.(scheduled := t.scheduled[1..]), None), glob, after);
            if QueueHasRoom(t.tel) then
              EndsAfter(u, t.yielded, Events(t.tel.queue), Takes(after)) && |Events(t.tel.queue)| == |t.tel.queue|
            else
              u.streams == 1
  {
    hide CanRun, Run, OneOnTheWay, Closed, Offered, EndsAfter, Takes, Events, NoSentinel, Undisturbing;
    var s := Run(Init(maxBuffer), glob, before);
    OpenAtStart(maxBuffer);
    OpenMeansNoSentinel(Init(maxBuffer), glob, before);
    RemoteCloseStarts(s);
    OneOnTheWayRun(Closed(s, false), glob, between);
    var t := Run(Closed(s, false), glob, between);
    OneArrives(t);
    SentinelOffered(t.(scheduled := t.scheduled[1..]), glob, after);
  }

  /** The one sentinel is on its way, in the queue, or lost, or has ended the stream. */
  predicate Balanced(s: Sys, lostBefore: nat) {
    s.tel.closed && s.streams <= 1 && s.lostSentinels >= lostBefore &&
    OnTheWay(s) + Sentinels(s.tel.queue) + (s.lostSentinels - lostBefore) + (1 - s.streams) == 1
  }

  lemma OfferBalance(s: Sys, slot: Slot, e: Event)
    ensures var t := Offered(s, slot);
            && Sentinels(t.tel.queue) + t.lostSentinels ==
               Sentinels(s.tel.queue) + s.lostSentinels + (if slot.None? then 1 else 0)
            && t.lostSentinels >= s.lostSentinels && t.scheduled == s.scheduled && t.closing == s.closing && t.streams == s.streams
            && t.tel.closed == s.tel.closed
    ensures var t := Buffered(s, e);
            && t.tel.queue == s.tel.queue && t.lostSentinels == s.lostSentinels
            && t.scheduled == s.scheduled && t.closing == s.closing && t.streams == s.streams
            && t.tel.closed == s.tel.closed
  {
    SentinelsSnoc(s.tel.queue, slot);
  }

  lemma BalanceKept(s: Sys, glob: (string, string) -> bool, step: Step, lostBefore: nat)
    requires Balanced(s, lostBefore) && Enabled(s, glob, step) && Undisturbing(step) && (s.loopAlive && !step.LoopEnds?)
    ensures Balanced(Apply(s, glob, step), lostBefore) && Apply(s, glob, step).loopAlive
  {
    hide Offered, Buffered, Admits;
    match step {
      case EmitLocal(name, _) =>
        var e := Event(|s.accepted|, name, true);
        OfferBalance(s.(accepted := s.accepted + [e]), Some(e), e);
        OfferedKeepsLoop(s.(accepted := s.accepted + [e]), Some(e), e);
      case EmitEnd(index) =>
        var e := s.inFlight[index].event;
        var rest := s.(inFlight := s.inFlight[..index] + s.inFlight[index + 1..]);
        SentinelsSnoc(s.scheduled, Some(e));
        OfferBalance(rest, None, e);
        OfferedKeepsLoop(rest, None, e);
      case Callback =>
        var rest := s.(scheduled := s.scheduled[1..]);
        OfferBalance(rest, s.scheduled[0], Event(0, "", true));
        OfferedKeepsLoop(rest, s.scheduled[0], Event(0, "", true));
      case CloseEnd =>
        SentinelsSnoc(s.scheduled, None);
      case _ =>
    }
  }

  lemma OfferedKeepsLoop(s: Sys, slot: Slot, e: Event)
    ensures Offered(s, slot).loopAlive == s.loopAlive && Buffered(s, e).loopAlive == s.loopAlive
  {
  }

  lemma {:induction false} BalanceRun(s: Sys, glob: (string, string) -> bool, steps: seq<Step>, lostBefore: nat)
    requires Balanced(s, lostBefore) && s.loopAlive && CanRun(s, glob, steps)
    requires forall i :: 0 <= i < |steps| ==> Undisturbing(steps[i]) && !steps[i].LoopEnds?
    ensures Balanced(Run(s, glob, steps), lostBefore)
    decreases |steps|
  {
    hide Balanced, Apply, Enabled, Undisturbing;
    if steps != [] {
      BalanceKept(s, glob, steps[0], lostBefore);
      assert forall i :: 0 <= i < |steps| - 1 ==> steps[1..][i] == steps[i + 1];
      BalanceRun(Apply(s, glob, steps[0]), glob, steps[1..], lostBefore);
    }
  }

  /** The sentinel of a close on another thread gets there: when nothing is on its way any more and
      the loop lives, the stream has ended, or has one sentinel in its queue, or the sentinel was
      dropped and counted. */
  lemma RemoteCloseArrives(
    maxBuffer: int, glob: (string, string) -> bool, before: seq<Step>, after: seq<Step>)
    requires CanRun(Init(maxBuffer), glob, before)
    requires var s := Run(Init(maxBuffer), glob, before);
             && s.tel.attached && !s.attaching && s.loopAlive && s.streams == 1 && !s.tel.closed
             && CanRun(Closed(s, false), glob, after)
             && var t := Run(Closed(s, false), glob, after); t.closing == 0 && t.scheduled == []
    requires forall i :: 0 <= i < |after| ==> Undisturbing(after[i]) && !after[i].LoopEnds?
    ensures var s := Run(Init(maxBuffer), glob, before);
            var t := Run(Closed(s, false), glob, after);
            || (t.streams == 0 && t.lostSentinels == s.lostSentinels && AllSome(t.tel.queue))
            || (t.streams == 1 && t.lostSentinels == s.lostSentinels && None in t.tel.queue)
            || (t.streams == 1 && t.lostSentinels == s.lostSentinels + 1 && AllSome(t.tel.queue))
  {
    hide CanRun, Run, Undisturbing;
    var s := Run(Init(maxBuffer), glob, before);
    OpenAtStart(maxBuffer);
    OpenMeansNoSentinel(Init(maxBuffer), glob, before);
    NoneLeft(s.scheduled);
    NoneLeft(s.tel.queue);
    BalanceRun(Closed(s, false), glob, after, s.lostSentinels);
    var t := Run(Closed(s, false), glob, after);
    NoneLeft(t.tel.queue);
    assert AllSome(t.tel.queue) || None in t.tel.queue;
  }

  /** A close on another thread between the setting of `_loop` and the flush is seen by both: the
      flush queues a sentinel, if it has room, and the close has a second one on its way. */
  lemma CloseDuringAttach(maxBuffer: int, glob: (string, string) -> bool, before: seq<Step>)
    requires CanRun(Init(maxBuffer), glob, before)
    requires var s := Run(Init(maxBuffer), glob, before); s.attaching && !s.tel.closed
    ensures var s := Run(Init(maxBuffer), glob, before);
            var t := FlushedTo(Closed(s, false));
            && OnTheWay(t) == 1
            && Sentinels(t.tel.queue) == if QueueHasRoom(Flushed(s.tel)) then 1 else 0
  {
    hide CanRun, Run, Flushed;
    var s := Run(Init(maxBuffer), glob, before);
    OpenAtStart(maxBuffer);
    OpenMeansNoSentinel(Init(maxBuffer), glob, before);
    TelemetrySafety.InitInv(maxBuffer);
    TelemetrySafety.RunKeepsInv(Init(maxBuffer), glob, before);
    NoneLeft(s.scheduled);
    FlushAdds(s);
  }

  lemma FlushAdds(s: Sys)
    requires NoSentinel(s) && !s.tel.closed
    ensures Sentinels(Flushed(s.tel.(closed := true)).queue) == if QueueHasRoom(Flushed(s.tel)) then 1 else 0
  {
    var queue := Flushed(s.tel).queue;
    NoneLeft(queue);
    SentinelsSnoc(queue, None);
  }
}
