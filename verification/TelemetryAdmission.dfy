/** Which events the telemetry stream accepts, and what its control messages have to do with it. */
module TelemetryAdmission {
  import opened Common
  import opened TelemetryStream
  import opened TelemetryMachine

  predicate SameAdmission(t: Tel, u: Tel) {
    t.enabled == u.enabled && t.samplingRate == u.samplingRate && t.allow == u.allow && t.deny == u.deny
  }

  function ControlsOf(steps: seq<Step>): seq<Control> {
    if steps == [] then []
    else (if steps[0].Steer? then [steps[0].control] else []) + ControlsOf(steps[1..])
  }

  function ControlledBy(t: Tel, controls: seq<Control>): Tel
    decreases |controls|
  {
    if controls == [] then t else ControlledBy(Controlled(t, controls[0]), controls[1..])
  }

  lemma MovesKeepAdmission(s: Sys, slot: Slot, e: Event)
    ensures SameAdmission(Offered(s, slot).tel, s.tel)
    ensures SameAdmission(Buffered(s, e).tel, s.tel)
    ensures SameAdmission(FlushedTo(s).tel, s.tel)
  {
  }

  lemma AdmissionStep(s: Sys, glob: (string, string) -> bool, step: Step)
    requires Enabled(s, glob, step)
    ensures SameAdmission(Apply(s, glob, step).tel, if step.Steer? then Controlled(s.tel, step.control) else s.tel)
  {
    hide Offered, Buffered, FlushedTo, Controlled, Admits;
    var none := Event(0, "", true);
    match step {
      case EmitLocal(name, _) =>
        var e := Event(|s.accepted|, name, true);
        MovesKeepAdmission(s.(accepted := s.accepted + [e]), Some(e), e);
      case EmitEnd(index) =>
        var rest := s.inFlight[..index] + s.inFlight[index + 1..];
        MovesKeepAdmission(s.(inFlight := rest), None, s.inFlight[index].event);
      case Callback =>
        MovesKeepAdmission(s.(scheduled := s.scheduled[1..]), s.scheduled[0], none);
      case Flush =>
        MovesKeepAdmission(s, None, none);
      case CloseLocal =>
        MovesKeepAdmission(s.(tel := s.tel.(closed := true)), None, none);
      case _ =>
    }
  }

  lemma {:induction false} ControlledAlike(t: Tel, u: Tel, controls: seq<Control>)
    requires SameAdmission(t, u)
    ensures SameAdmission(ControlledBy(t, controls), ControlledBy(u, controls))
    decreases |controls|
  {
    if controls != [] {
      ControlledAlike(Controlled(t, controls[0]), Controlled(u, controls[0]), controls[1..]);
    }
  }

  /** What is admitted after a run is decided by its control messages alone, in their order. */
  lemma {:induction false} AdmissionFollowsControls(s: Sys, glob: (string, string) -> bool, steps: seq<Step>)
    requires CanRun(s, glob, steps)
    ensures SameAdmission(Run(s, glob, steps).tel, ControlledBy(s.tel, ControlsOf(steps)))
    decreases |steps|
  {
    hide Apply, Enabled, Controlled;
    if steps != [] {
      var next := Apply(s, glob, steps[0]);
      AdmissionStep(s, glob, steps[0]);
      AdmissionFollowsControls(next, glob, steps[1..]);
      var first := if steps[0].Steer? then Controlled(s.tel, steps[0].control) else s.tel;
      ControlledAlike(next.tel, first, ControlsOf(steps[1..]));
      if steps[0].Steer? {
        assert ControlsOf(steps)[1..] == ControlsOf(steps[1..]);
      } else {
        assert ControlsOf(steps) == ControlsOf(steps[1..]);
      }
    }
  }

  lemma {:induction false} ControlledRate(t: Tel, controls: seq<Control>)
    requires 0.0 <= t.samplingRate <= 1.0
    ensures 0.0 <= ControlledBy(t, controls).samplingRate <= 1.0
    decreases |controls|
  {
    if controls != [] {
      ControlledRate(Controlled(t, controls[0]), controls[1..]);
    }
  }

  /** The sampling rate stays within 0 to 1 in every run, whatever the control messages ask for. */
  lemma RateWithinBounds(maxBuffer: int, glob: (string, string) -> bool, steps: seq<Step>)
    requires CanRun(Init(maxBuffer), glob, steps)
    ensures 0.0 <= Run(Init(maxBuffer), glob, steps).tel.samplingRate <= 1.0
  {
    AdmissionFollowsControls(Init(maxBuffer), glob, steps);
    ControlledRate(Init(maxBuffer).tel, ControlsOf(steps));
  }

  /** A stream that is switched off accepts nothing until it is switched on again. */
  lemma {:induction false} MutedAcceptsNothing(s: Sys, glob: (string, string) -> bool, steps: seq<Step>)
    requires CanRun(s, glob, steps) && !s.tel.enabled
    requires forall i :: 0 <= i < |steps| ==> steps[i] != Steer(Toggle(true))
    ensures Run(s, glob, steps).accepted == s.accepted && !Run(s, glob, steps).tel.enabled
    decreases |steps|
  {
    if steps != [] {
      MutedStep(s, glob, steps[0]);
      hide Apply, Enabled;
      assert forall i :: 0 <= i < |steps| - 1 ==> steps[1..][i] == steps[i + 1];
      MutedAcceptsNothing(Apply(s, glob, steps[0]), glob, steps[1..]);
    }
  }

  lemma MutedStep(s: Sys, glob: (string, string) -> bool, step: Step)
    requires Enabled(s, glob, step) && !s.tel.enabled && step != Steer(Toggle(true))
    ensures Apply(s, glob, step).accepted == s.accepted && !Apply(s, glob, step).tel.enabled
  {
  }

  // The exact condition, in terms of the last message of each kind.

  /** The last toggle; a stream starts switched on. */
  predicate SwitchedOn(controls: seq<Control>) {
    if controls == [] then true
    else match controls[|controls| - 1]
         case Toggle(on) => on
         case _ => SwitchedOn(controls[..|controls| - 1])
  }

  /** The rate that was asked for last; a stream starts with all events. */
  function RateAsked(controls: seq<Control>): real {
    if controls == [] then 1.0
    else match controls[|controls| - 1]
         case Sampling(rate) => rate
         case _ => RateAsked(controls[..|controls| - 1])
  }

  /** The last filter, as its allow and deny lists. */
  function LastFilter(controls: seq<Control>): (seq<string>, seq<string>) {
    if controls == [] then ([], [])
    else match controls[|controls| - 1]
         case Filter(allow, deny) => (allow, deny)
         case _ => LastFilter(controls[..|controls| - 1])
  }

  /** No deny pattern matches, and some allow pattern does, unless there is none. */
  ghost predicate PassesFilter(glob: (string, string) -> bool, name: string, allow: seq<string>, deny: seq<string>) {
    && (forall p :: p in deny ==> !glob(name, p))
    && (allow == [] || exists p :: p in allow && glob(name, p))
  }

  /** The sample is within a rate below one; a negative rate counts as zero. */
  predicate WithinRate(sample: real, rate: real) {
    rate >= 1.0 || sample <= rate || (rate < 0.0 && sample <= 0.0)
  }

  lemma {:induction false} ControlledBySnoc(t: Tel, controls: seq<Control>, last: Control)
    ensures ControlledBy(t, controls + [last]) == Controlled(ControlledBy(t, controls), last)
    decreases |controls|
  {
    hide Controlled;
    if controls == [] {
      assert (controls + [last])[1..] == [];
    } else {
      assert (controls + [last])[1..] == controls[1..] + [last] && (controls + [last])[0] == controls[0];
      ControlledBySnoc(Controlled(t, controls[0]), controls[1..], last);
    }
  }

  predicate Governed(t: Tel, controls: seq<Control>) {
    && t.enabled == SwitchedOn(controls) && (t.allow, t.deny) == LastFilter(controls)
    && var rate := RateAsked(controls);
       t.samplingRate == if rate > 1.0 then 1.0 else if rate < 0.0 then 0.0 else rate
  }

  lemma GovernedStep(t: Tel, controls: seq<Control>, last: Control)
    requires Governed(t, controls)
    ensures Governed(Controlled(t, last), controls + [last])
  {
    assert (controls + [last])[..|controls|] == controls;
  }

  lemma {:induction false} LastControlsGovern(t: Tel, controls: seq<Control>)
    requires Governed(t, [])
    ensures Governed(ControlledBy(t, controls), controls)
  {
    hide Governed, Controlled;
    if controls != [] {
      var init, last := controls[..|controls| - 1], controls[|controls| - 1];
      assert controls == init + [last];
      LastControlsGovern(t, init);
      ControlledBySnoc(t, init, last);
      GovernedStep(ControlledBy(t, init), init, last);
    }
  }

  lemma AllowedMeansPasses(t: Tel, glob: (string, string) -> bool, name: string)
    ensures EventAllowed(t, glob, name) <==> PassesFilter(glob, name, t.allow, t.deny)
  {
    assert forall patterns :: Matches(glob, name, patterns) <==> exists p :: p in patterns && glob(name, p) by {
      forall patterns | exists p :: p in patterns && glob(name, p)
        ensures Matches(glob, name, patterns)
      {
        var p :| p in patterns && glob(name, p);
        var i :| 0 <= i < |patterns| && patterns[i] == p;
      }
    }
  }

  /** After any run an event is accepted if and only if the last toggle switched the stream on, its
      sample is within the last rate, and its name passes the last filter. */
  lemma AdmissionIsExact(
    maxBuffer: int, glob: (string, string) -> bool, steps: seq<Step>, name: string, sample: real)
    requires CanRun(Init(maxBuffer), glob, steps)
    ensures var s := Run(Init(maxBuffer), glob, steps);
            var controls := ControlsOf(steps);
            var accepts := SwitchedOn(controls) && WithinRate(sample, RateAsked(controls)) &&
                           PassesFilter(glob, name, LastFilter(controls).0, LastFilter(controls).1);
            && (Enabled(s, glob, EmitBegin(name, sample)) <==> accepts)
            && (Enabled(s, glob, EmitLocal(name, sample)) <==> s.loopAlive && !s.attaching && accepts)
  {
    hide EventAllowed, PassesFilter, Run, CanRun;
    AdmissionFollowsControls(Init(maxBuffer), glob, steps);
    LastControlsGovern(Init(maxBuffer).tel, ControlsOf(steps));
    var tel := Run(Init(maxBuffer), glob, steps).tel;
    AllowedMeansPasses(tel, glob, name);
  }

  /** A step accepts one event, with the name that it carries, or none. */
  lemma StepAccepts(s: Sys, glob: (string, string) -> bool, step: Step)
    requires Enabled(s, glob, step)
    ensures Apply(s, glob, step).accepted ==
            s.accepted + (if step.EmitLocal? || step.EmitBegin?
                          then [Event(|s.accepted|, step.name, step.EmitLocal?)] else [])
  {
  }

  lemma {:induction false} AcceptedPass(
    s: Sys, glob: (string, string) -> bool, steps: seq<Step>, allow: seq<string>, deny: seq<string>)
    requires CanRun(s, glob, steps) && s.tel.allow == allow && s.tel.deny == deny
    requires forall i :: 0 <= i < |steps| ==> !(steps[i].Steer? && steps[i].control.Filter?)
    ensures s.accepted <= Run(s, glob, steps).accepted
    ensures forall e :: e in Run(s, glob, steps).accepted[|s.accepted|..] ==> PassesFilter(glob, e.name, allow, deny)
    decreases |steps|
  {
    hide PassesFilter, EventAllowed, Apply;
    if steps != [] {
      var next := Apply(s, glob, steps[0]);
      AdmissionStep(s, glob, steps[0]);
      StepAccepts(s, glob, steps[0]);
      assert forall i :: 0 <= i < |steps| - 1 ==> steps[1..][i] == steps[i + 1];
      AcceptedPass(next, glob, steps[1..], allow, deny);
      if steps[0].EmitLocal? || steps[0].EmitBegin? {
        AllowedMeansPasses(s.tel, glob, steps[0].name);
      }
      var all := Run(s, glob, steps).accepted;
      assert all == Run(next, glob, steps[1..]).accepted;
      assert all[|s.accepted|..] == next.accepted[|s.accepted|..] + all[|next.accepted|..];
    }
  }

  /** From a filter message to the next one, every event accepted, on whatever thread, has a name
      that passes it. */
  lemma FilterGoverns(
    s: Sys, glob: (string, string) -> bool, allow: seq<string>, deny: seq<string>, steps: seq<Step>)
    requires Enabled(s, glob, Steer(Filter(allow, deny)))
    requires CanRun(Apply(s, glob, Steer(Filter(allow, deny))), glob, steps)
    requires forall i :: 0 <= i < |steps| ==> !(steps[i].Steer? && steps[i].control.Filter?)
    ensures var t := Run(Apply(s, glob, Steer(Filter(allow, deny))), glob, steps);
            s.accepted <= t.accepted &&
            forall e :: e in t.accepted[|s.accepted|..] ==>
              (forall p :: p in deny ==> !glob(e.name, p)) &&
              (allow == [] || exists p :: p in allow && glob(e.name, p))
  {
    AcceptedPass(Apply(s, glob, Steer(Filter(allow, deny))), glob, steps, allow, deny);
  }
}
