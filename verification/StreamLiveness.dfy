/**
 Termination of the streaming call: a measure that every step decreases, the absence of
 deadlock, and the two ways in which a call can fail to wind down.
 */
module StreamLiveness {
  import opened Common
  import opened StreamQueue
  import opened StreamMachine
  import opened StreamInvariant
  import opened StreamSafety

  function ProducerRank(pc: ProducerPc): nat {
    match pc
    case PStart => 14
    case PDraining => 10
    case PPutting(_, ThenDrain) => 12
    case PPutting(_, ThenFinish) => 12
    case PPutting(_, ThenSeal) => 7
    case PPutting(_, ThenFail) => 6
    case PPutting(_, ThenDone) => 3
    case PFinishing => 8
    case PSealing => 4
    case PDone => 0
  }

  function ThreadRank(pc: ThreadPc): nat {
    match pc
    case TIdle => 0
    case TPulling => 1
    case TBuilding(_) => 5
    case TPutting(_) => 4
    case TFailing => 2
    case TDone(_) => 0
  }

  function ConsumerRank(pc: ConsumerPc): nat {
    match pc
    case CReading => 3
    case CAborting => 2
    case CLeaving(_) => 1
    case CDone(_) => 0
  }

  /** The items that can still be pulled: those left in a finite source; for an endless one,
      once the call is cancelled, the last pull. */
  function PullsLeft(s: State): nat {
    match s.src
    case Finite(items, _) => if s.pulled <= |items| then |items| - s.pulled else 0
    case Endless(_) => if s.pullsAfterCancel == 0 then 1 else 0
  }

  /** The source is finite, or the call has been cancelled. */
  predicate Winding(s: State) {
    s.src.Finite? || s.sh.cancelled
  }

  function Rank(s: State): nat {
    5 * PullsLeft(s) + ProducerRank(s.producer) + ThreadRank(s.thread) + ConsumerRank(s.consumer)
    + |s.sh.queue| + (if s.watching then 2 else 0) + (if s.active then 1 else 0)
  }

  lemma ProducerPullDecreases(s: State)
    requires Enabled(s, ProducerPull) && Winding(s)
    requires s.src.Endless? && s.sh.cancelled ==> s.pullsAfterCancel == 0
    ensures Rank(Pulled(s)) < Rank(s) && Winding(Pulled(s))
  {
  }

  lemma ProducerPutDecreases(s: State)
    requires Enabled(s, ProducerPut) && Winding(s)
    requires PutIsTyped(s.producer, s.mode)
    ensures Rank(ProducerHasPut(s)) < Rank(s) && Winding(ProducerHasPut(s))
  {
  }

  lemma ProducerFinishDecreases(s: State)
    requires Enabled(s, ProducerFinish) && Winding(s)
    ensures Rank(Finished(s)) < Rank(s) && Winding(Finished(s))
  {
  }

  lemma ThreadPullDecreases(s: State)
    requires Enabled(s, ThreadPull) && Winding(s)
    requires s.src.Endless? && s.sh.cancelled ==> s.pullsAfterCancel == 0
    ensures Rank(ThreadPulled(s)) < Rank(s) && Winding(ThreadPulled(s))
  {
  }

  lemma ThreadBuildDecreases(s: State)
    requires Enabled(s, ThreadBuild) && Winding(s)
    ensures Rank(ThreadBuilt(s)) < Rank(s) && Winding(ThreadBuilt(s))
  {
  }

  lemma ThreadPutDecreases(s: State)
    requires Enabled(s, ThreadPut) && Winding(s)
    ensures Rank(ThreadHasPut(s)) < Rank(s) && Winding(ThreadHasPut(s))
  {
  }

  lemma WatcherFireDecreases(s: State)
    requires Enabled(s, WatcherFire) && Winding(s)
    ensures Rank(Fired(s)) < Rank(s) && Winding(Fired(s))
  {
  }

  lemma ConsumerTakeDecreases(s: State)
    requires Enabled(s, ConsumerTake) && Winding(s)
    ensures Rank(Taken(s)) < Rank(s) && Winding(Taken(s))
  {
  }

  lemma ProducerStartDecreases(s: State)
    requires Enabled(s, ProducerStart) && Winding(s)
    requires s.thread.TIdle?
    ensures Rank(Started(s)) < Rank(s) && Winding(Started(s))
  {
  }

  lemma ProducerJoinDecreases(s: State)
    requires Enabled(s, ProducerJoin) && Winding(s)
    ensures Rank(Joined(s)) < Rank(s) && Winding(Joined(s))
  {
  }

  lemma ProducerSealDecreases(s: State)
    requires Enabled(s, ProducerSeal) && Winding(s)
    ensures Rank(Sealed(s)) < Rank(s) && Winding(Sealed(s))
  {
  }

  lemma ProducerCancelledDecreases(s: State)
    requires Enabled(s, ProducerCancelled) && Winding(s)
    ensures Rank(Cancelled(s)) < Rank(s) && Winding(Cancelled(s))
  {
  }

  lemma OtherDecreases(s: State, step: Step)
    requires Enabled(s, step) && Winding(s)
    requires step.ThreadFail? || step.WatcherStop? || step.ConsumerAbort? || step.ConsumerFinish? || External(step)
    ensures Rank(Apply(s, step)) < Rank(s) && Winding(Apply(s, step))
  {
    hide Pulled, ProducerHasPut, Finished, ThreadPulled, ThreadBuilt, ThreadHasPut, Fired, Taken;
  }

  /** Every step of a call on a finite source, and every step once a call is cancelled, brings
      it closer to rest. */
  lemma RankDecreases(s: State, step: Step)
    requires Inv(s) && Enabled(s, step) && Winding(s)
    ensures Rank(Apply(s, step)) < Rank(s) && Winding(Apply(s, step))
  {
    hide Pulled, ProducerHasPut, Finished, ThreadPulled, ThreadBuilt, ThreadHasPut, Fired, Taken, Started, Joined,
         Sealed, Cancelled;
    hide Rank, Winding, Wakeup, Position, Rejection, ThreadCanEnd, Story, Delivery, Legal, PutIsTyped;
    match step {
      case ProducerPull => ProducerPullDecreases(s);
      case ProducerPut => ProducerPutDecreases(s);
      case ProducerFinish => ProducerFinishDecreases(s);
      case ThreadPull => ThreadPullDecreases(s);
      case ThreadBuild => ThreadBuildDecreases(s);
      case ThreadPut => ThreadPutDecreases(s);
      case WatcherFire => WatcherFireDecreases(s);
      case ConsumerTake => ConsumerTakeDecreases(s);
      case ProducerStart => ProducerStartDecreases(s);
      case ProducerJoin => ProducerJoinDecreases(s);
      case ProducerSeal => ProducerSealDecreases(s);
      case ProducerCancelled => ProducerCancelledDecreases(s);
      case _ => OtherDecreases(s, step);
    }
  }

  /** A run is no longer than the rank it uses up. */
  lemma {:induction false} RunIsBounded(s: State, steps: seq<Step>)
    requires Inv(s) && Winding(s) && CanRun(s, steps)
    ensures |steps| + Rank(Run(s, steps)) <= Rank(s)
    decreases |steps|
  {
    hide Inv, Rank, Winding, Apply, Enabled;
    if steps != [] {
      InvKept(s, steps[0]);
      RankDecreases(s, steps[0]);
      RunIsBounded(Apply(s, steps[0]), steps[1..]);
    }
  }

  /** A call on a finite source takes a bounded number of steps, whatever the interleaving.
      (Polling of the watcher changes nothing and is not a step.) */
  lemma FiniteCallsEnd(capacity: nat, mode: Mode, src: Source, steps: seq<Step>)
    requires Legal(capacity, mode, src) && src.Finite? && CanRun(Init(capacity, mode, src), steps)
    ensures |steps| <= 5 * |src.items| + 20
  {
    InitInv(capacity, mode, src);
    RunIsBounded(Init(capacity, mode, src), steps);
  }

  /** Once a call is cancelled, it takes a bounded number of further steps, even if its source
      never ends. */
  lemma CancelledCallsEnd(capacity: nat, mode: Mode, src: Source, s: State, steps: seq<Step>)
    requires Reachable(capacity, mode, src, s) && s.sh.cancelled && src.Endless? && CanRun(s, steps)
    ensures |steps| <= capacity + 30
  {
    ReachableInv(capacity, mode, src, s);
    RunIsBounded(s, steps);
    assert ProducerRank(s.producer) + ThreadRank(s.thread) <= 19;
  }

  // Deadlock.

  /** No party can move; only the outside world could take a step. */
  ghost predicate Quiescent(s: State) {
    forall step :: !External(step) ==> !Enabled(s, step)
  }

  /** A step that is enabled as long as the consumer has not ended. */
  function Pick(s: State): Step {
    match s.consumer
    case CReading =>
      if s.sh.queue != [] then ConsumerTake
      else (match s.producer
            case PStart => ProducerStart
            case PPutting(_, _) => ProducerPut
            case PFinishing => ProducerFinish
            case PSealing => ProducerSeal
            case _ =>
              if !s.mode.SyncIterator? then ProducerPull
              else match s.thread
                   case TPulling => ThreadPull
                   case TBuilding(_) => ThreadBuild
                   case TPutting(_) => ThreadPut
                   case TFailing => ThreadFail
                   case _ => ProducerJoin)
    case CAborting => ConsumerAbort
    case _ =>
      if !s.producer.PDone? then ProducerCancelled
      else if s.watching then WatcherStop
      else ConsumerFinish
  }

  lemma Progress(s: State)
    requires Inv(s) && !s.consumer.CDone? && !(s.consumer.CReading? && (s.failed || s.quit))
    ensures !External(Pick(s)) && Enabled(s, Pick(s))
  {
    hide Position, History, Bounds, Flow, Route, Undisturbed, ThreadCanEnd, Rejection;
  }

  /** No deadlock: when no party can move, the consumer has ended, unless the drain thread gave
      up on a rejected item or the producer on a cancellation of the source, and then the
      consumer waits for ever. */
  lemma RestMeansDone(capacity: nat, mode: Mode, src: Source, s: State)
    requires Reachable(capacity, mode, src, s) && Quiescent(s)
    ensures s.consumer.CDone? || (s.consumer.CReading? && (s.failed || s.quit) && !Announced(mode, src))
  {
    ReachableInv(capacity, mode, src, s);
    hide Inv, AllAccepted;
    if !s.consumer.CDone? {
      if !(s.consumer.CReading? && (s.failed || s.quit)) {
        Progress(s);
      }
      if s.failed {
        GivingUpMeansRejected(s);
      } else {
        QuitMeansUnannounced(s);
      }
    }
  }

  ghost predicate Internal(steps: seq<Step>) {
    forall i :: 0 <= i < |steps| ==> !External(steps[i])
  }

  /** From a call that winds down, some run without outside help leads to rest. */
  lemma {:induction false} ComesToRest(s: State) returns (steps: seq<Step>)
    requires Inv(s) && Winding(s)
    ensures Internal(steps) && CanRun(s, steps) && Quiescent(Run(s, steps))
    decreases Rank(s)
  {
    hide Inv, Rank, Winding, Apply, Enabled;
    if Quiescent(s) {
      steps := [];
    } else {
      var step :| !External(step) && Enabled(s, step);
      InvKept(s, step);
      RankDecreases(s, step);
      var rest := ComesToRest(Apply(s, step));
      steps := [step] + rest;
      assert steps[1..] == rest;
    }
  }

  /** A disconnect ends every call that has not lost its watcher: when nobody can move and the
      client is gone, the consumer has ended, unless the drain thread has given up. */
  lemma GoneClientsAreNoticed(capacity: nat, mode: Mode, src: Source, s: State)
    requires Reachable(capacity, mode, src, s) && Quiescent(s) && !s.active
    ensures s.consumer.CDone? || (s.consumer.CReading? && s.failed)
  {
    hide Inv;
    ReachableInv(capacity, mode, src, s);
    if !s.consumer.CDone? && !(s.consumer.CReading? && s.failed) {
      if s.consumer.CReading? && s.quit {
        GoneMeansStep(s);
      } else {
        Progress(s);
      }
    }
  }

  lemma GoneMeansStep(s: State)
    requires Inv(s) && s.consumer.CReading? && !s.failed && !s.active
    ensures Enabled(s, WatcherFire) || Enabled(s, ConsumerTake) || Enabled(s, WatcherStop)
  {
    hide Position, Rejection, Bounds, ThreadCanEnd, Story, Delivery;
  }

  // Sources of which the consumer does not hear the end.

  /** Unless the watcher saw a disconnect or the response was closed from outside, the consumer
      stops reading only if the end of the source is announced. */
  lemma StoppingMeansAnnounced(s: State)
    requires Inv(s) && !s.fired && !s.consumer.CReading? && !(Leaving(s) && s.consumer.exit.Closed?)
    ensures Announced(s.mode, s.src)
  {
    hide Wakeup, Position, Rejection, Bounds, ThreadCanEnd, Flow, MakeChunk, Unpack, AnyFinal;
    var n := ItemCount(s);
    assert s.sealed ==> Exhausted(s.src, n);
    assert s.raised ==> n == |s.built|;
    AcceptedSoFar(s.src, s.built, n);
  }

  /** When the source ends right after items that were all accepted, it has no others. */
  lemma AcceptedSoFar(src: Source, built: seq<Chunk>, n: nat)
    requires ItemsBuilt(src, built, n)
    ensures !PullAt(src, n).Got? ==> AllAccepted(src)
    ensures Exhausted(src, n) ==> !EndsInCancellation(src)
    ensures Throws(src, n) ==> !EndsInCancellation(src)
    ensures Broken(src, n) ==> !EndsInCancellation(src) || !AllAccepted(src)
  {
    assert forall i :: 0 <= i < n ==> ItemChunk(src, i).Some?;
  }

  /** So the consumer of a call whose source is not announced reads on in every reachable state,
      until the watcher sees a disconnect or the response is closed. */
  lemma UnannouncedHangs(capacity: nat, mode: Mode, src: Source, s: State)
    requires Reachable(capacity, mode, src, s) && !Announced(mode, src) && !s.fired
    ensures s.consumer.CReading? || (Leaving(s) && s.consumer.exit.Closed?)
  {
    hide Inv, Announced;
    ReachableInv(capacity, mode, src, s);
    if !s.consumer.CReading? && !(Leaving(s) && s.consumer.exit.Closed?) {
      StoppingMeansAnnounced(s);
    }
  }

  /** The drain thread has given up, and no sentinel was forced in. */
  predicate Deaf(s: State) {
    s.failed && !s.fired && s.consumer.CReading?
  }

  lemma GaveUpForGood(s: State, step: Step)
    requires Inv(s) && Deaf(s) && Enabled(s, step) && !step.EarlyClose?
    ensures var t := Apply(s, step); t.failed && !t.fired && (Leaving(t) ==> !t.consumer.exit.Closed?)
  {
    assert s.sh.cancelled by { assert Control(s); }
    hide Inv;
  }

  lemma DeafKept(s: State, step: Step)
    requires Inv(s) && Deaf(s) && Enabled(s, step) && !step.EarlyClose?
    ensures Deaf(Apply(s, step))
  {
    hide Inv, AllAccepted, Enabled, Apply;
    var t := Apply(s, step);
    InvKept(s, step);
    GaveUpForGood(s, step);
    GivingUpMeansRejected(t);
    if !t.consumer.CReading? {
      StoppingMeansAnnounced(t);
    }
  }

  /** Once the drain thread has given up, nothing but closing the response ends the call: the
      watcher has stopped, so that not even a disconnect is noticed. */
  lemma {:induction false} DeafToDisconnect(s: State, steps: seq<Step>)
    requires Inv(s) && Deaf(s) && CanRun(s, steps)
    requires forall i :: 0 <= i < |steps| ==> !steps[i].EarlyClose?
    ensures Deaf(Run(s, steps))
    decreases |steps|
  {
    hide Inv, Deaf, Apply, Enabled;
    if steps != [] {
      InvKept(s, steps[0]);
      DeafKept(s, steps[0]);
      assert forall i :: 0 <= i < |steps| - 1 ==> steps[1..][i] == steps[i + 1];
      DeafToDisconnect(Apply(s, steps[0]), steps[1..]);
    }
  }

  /** The outside world has not touched the call. */
  predicate Alone(s: State) {
    s.active && !s.fired && (Leaving(s) ==> !s.consumer.exit.Closed?)
  }

  lemma AloneKept(s: State, step: Step)
    requires Alone(s) && Enabled(s, step) && !External(step)
    ensures Alone(Apply(s, step))
  {
  }

  lemma {:induction false} AloneRun(s: State, steps: seq<Step>)
    requires Alone(s) && CanRun(s, steps) && Internal(steps)
    ensures Alone(Run(s, steps))
    decreases |steps|
  {
    hide Alone, Apply, Enabled, External;
    if steps != [] {
      AloneKept(s, steps[0]);
      assert forall i :: 0 <= i < |steps| - 1 ==> steps[1..][i] == steps[i + 1];
      AloneRun(Apply(s, steps[0]), steps[1..]);
    }
  }

  /** A call on a source that is not announced, left to itself, has a run that comes to rest with
      the consumer still waiting. */
  lemma HangingRun(capacity: nat, mode: Mode, src: Source) returns (steps: seq<Step>)
    requires Legal(capacity, mode, src) && src.Finite? && !Announced(mode, src)
    ensures CanRun(Init(capacity, mode, src), steps) && Internal(steps)
    ensures Quiescent(Run(Init(capacity, mode, src), steps))
    ensures Run(Init(capacity, mode, src), steps).consumer.CReading?
  {
    var s := Init(capacity, mode, src);
    InitInv(capacity, mode, src);
    steps := ComesToRest(s);
    AloneRun(s, steps);
    UnannouncedHangs(capacity, mode, src, Run(s, steps));
  }

  /** The exact condition: every run of a call that is left to itself comes to rest with the
      consumer done if and only if the end of its source is announced.  For an asynchronous
      iterator that is: it does not end in a cancellation, or an earlier item is rejected; for a
      synchronous one: it does not end in a cancellation, and every item is accepted. */
  lemma CompletesIff(capacity: nat, mode: Mode, src: Source)
    requires Legal(capacity, mode, src) && src.Finite?
    ensures (forall steps | CanRun(Init(capacity, mode, src), steps) && Internal(steps)
                            && Quiescent(Run(Init(capacity, mode, src), steps)) ::
               Run(Init(capacity, mode, src), steps).consumer.CDone?)
            <==> Announced(mode, src)
  {
    hide Announced, Quiescent, Internal;
    var s := Init(capacity, mode, src);
    if Announced(mode, src) {
      forall steps | CanRun(s, steps) && Internal(steps) && Quiescent(Run(s, steps))
        ensures Run(s, steps).consumer.CDone?
      {
        RestMeansDone(capacity, mode, src, Run(s, steps));
      }
    } else {
      var steps := HangingRun(capacity, mode, src);
    }
  }

  // The drain thread after the teardown.

  /** The drain thread has a chunk in hand for which the queue has no room. */
  predicate WillBlock(s: State) {
    && !Room(s)
    && (s.thread.TPutting? || (s.thread.TBuilding? && MakeChunk(s.sh.counter + 1, Unpack(s.thread.item)).Some?))
  }

  lemma WillBlockKept(s: State, step: Step)
    requires Inv(s) && Leaving(s) && Enabled(s, step)
    ensures Leaving(Apply(s, step)) && WillBlock(Apply(s, step)) == WillBlock(s)
  {
    hide Wakeup, Position, Rejection, Bounds, Story, Delivery, MakeChunk, Unpack, PullAt;
  }

  lemma {:induction false} WillBlockRun(s: State, steps: seq<Step>)
    requires Inv(s) && Leaving(s) && CanRun(s, steps)
    ensures WillBlock(Run(s, steps)) == WillBlock(s)
    decreases |steps|
  {
    hide Inv, Leaving, WillBlock, Apply, Enabled;
    if steps != [] {
      InvKept(s, steps[0]);
      WillBlockKept(s, steps[0]);
      WillBlockRun(Apply(s, steps[0]), steps[1..]);
    }
  }

  /** When a call that is being torn down has come to rest, its drain thread is still at work,
      blocked on a put that nothing will ever make room for, if and only if the queue was full
      and the thread had a chunk in hand when the teardown began; and that takes an early
      close, since a consumer that read to its end leaves room. */
  lemma DrainThreadBlocksIff(capacity: nat, mode: Mode, src: Source, s: State, steps: seq<Step>)
    requires Reachable(capacity, mode, src, s) && Leaving(s)
    requires CanRun(s, steps) && Quiescent(Run(s, steps))
    ensures ThreadAtWork(Run(s, steps)) <==> WillBlock(s)
    ensures WillBlock(s) ==> mode.SyncIterator? && s.consumer.exit.Closed?
  {
    hide Inv, Run, CanRun, Leaving, WillBlock, ThreadAtWork, Quiescent;
    ReachableInv(capacity, mode, src, s);
    RunKeepsInv(s, steps);
    WillBlockRun(s, steps);
    AtRestBlocked(Run(s, steps));
    if WillBlock(s) {
      BlockedMeansClosed(s);
    }
  }

  /** At rest, a thread that is at work is blocked. */
  lemma AtRestBlocked(s: State)
    requires Quiescent(s)
    ensures ThreadAtWork(s) <==> WillBlock(s)
  {
    assert !Enabled(s, ThreadPull) && !Enabled(s, ThreadBuild) && !Enabled(s, ThreadPut) && !Enabled(s, ThreadFail);
  }

  lemma BlockedMeansClosed(s: State)
    requires Inv(s) && Leaving(s) && WillBlock(s)
    ensures s.mode.SyncIterator? && s.consumer.exit.Closed?
  {
    hide Wakeup, Position, Rejection, Bounds, History, Flow, Undisturbed, MakeChunk;
  }

  lemma RunCons(s: State, step: Step, rest: seq<Step>)
    requires Enabled(s, step) && CanRun(Apply(s, step), rest)
    ensures CanRun(s, [step] + rest) && Run(s, [step] + rest) == Run(Apply(s, step), rest)
  {
    hide Apply, Enabled;
    assert ([step] + rest)[1..] == rest;
  }

  lemma {:induction false} RunConcat(s: State, first: seq<Step>, rest: seq<Step>)
    requires CanRun(s, first) && CanRun(Run(s, first), rest)
    ensures CanRun(s, first + rest) && Run(s, first + rest) == Run(Run(s, first), rest)
    decreases |first|
  {
    hide Apply, Enabled;
    if first == [] {
      assert first + rest == rest;
    } else {
      RunConcat(Apply(s, first[0]), first[1..], rest);
      assert (first + rest)[0] == first[0] && (first + rest)[1..] == first[1..] + rest;
    }
  }

  /** A call whose consumer does not read, with a source that never ends and whose items are all
      accepted. */
  ghost predicate Untaken(s: State) {
    && Inv(s) && s.src.Endless? && AllAccepted(s.src)
    && s.active && s.watching && !s.sh.cancelled && s.consumer.CReading?
  }

  lemma ThreadBuildsOne(s: State)
    requires Untaken(s) && s.thread.TPulling?
    ensures Apply(s, ThreadPull) == ThreadPulled(s) && ThreadPulled(s).thread.TBuilding?
    ensures var b := ThreadBuilt(ThreadPulled(s));
            Untaken(b) && b.thread.TPutting? && b.capacity == s.capacity && b.sh.queue == s.sh.queue
  {
    hide Wakeup, Rejection, Bounds, ThreadCanEnd, Route, Delivery, MakeChunk, Unpack;
    InvKept(s, ThreadPull);
    InvKept(ThreadPulled(s), ThreadBuild);
    assert ItemChunk(s.src, s.pulled).Some?;
  }

  /** The thread fills the queue and builds one more chunk. */
  lemma {:induction false} FillQueue(s: State) returns (steps: seq<Step>)
    requires Untaken(s) && s.thread.TPulling?
    ensures CanRun(s, steps)
    ensures var t := Run(s, steps); Untaken(t) && t.thread.TPutting? && !Room(t)
    decreases s.capacity - |s.sh.queue|
  {
    hide Inv, ThreadPulled, ThreadBuilt, AllAccepted;
    ThreadBuildsOne(s);
    var a := ThreadPulled(s);
    var b := ThreadBuilt(a);
    if Room(b) {
      InvKept(b, ThreadPut);
      steps := FillQueue(ThreadHasPut(b));
      RunCons(b, ThreadPut, steps);
      steps := [ThreadPut] + steps;
    } else {
      steps := [];
    }
    RunCons(a, ThreadBuild, steps);
    steps := [ThreadBuild] + steps;
    RunCons(s, ThreadPull, steps);
    steps := [ThreadPull] + steps;
  }

  /** Every capacity can be exhausted by a tool that is faster than its client. */
  lemma QueueCanBeFull(capacity: nat, item: ToolItem) returns (steps: seq<Step>)
    requires capacity >= 1 && !Rejected(item)
    ensures CanRun(Init(capacity, SyncIterator, Endless(_ => item)), steps)
    ensures var s := Run(Init(capacity, SyncIterator, Endless(_ => item)), steps);
            Untaken(s) && s.thread.TPutting? && !Room(s)
  {
    var s := Init(capacity, SyncIterator, Endless(_ => item));
    InitInv(capacity, SyncIterator, Endless(_ => item));
    InvKept(s, ProducerStart);
    forall i: nat
      ensures ItemChunk(s.src, i).Some?
    {
      ChunkCarriesItem(i + 1, item);
    }
    steps := FillQueue(Started(s));
    RunCons(s, ProducerStart, steps);
    steps := [ProducerStart] + steps;
  }

  /** The drain thread of a call can be left blocked, whatever the capacity of the queue. */
  lemma DrainThreadCanBlock(capacity: nat, item: ToolItem) returns (steps: seq<Step>)
    requires capacity >= 1 && !Rejected(item)
    ensures CanRun(Init(capacity, SyncIterator, Endless(_ => item)), steps)
    ensures var s := Run(Init(capacity, SyncIterator, Endless(_ => item)), steps);
            Leaving(s) && WillBlock(s)
  {
    hide Inv;
    steps := QueueCanBeFull(capacity, item);
    var s := Init(capacity, SyncIterator, Endless(_ => item));
    RunCons(Run(s, steps), EarlyClose, []);
    RunConcat(s, steps, [EarlyClose] + []);
    steps := steps + ([EarlyClose] + []);
  }

  /** The gap in the delivery is real: for every capacity there is a run in which the watcher
      drops the first chunk of the call. */
  lemma ChunkCanBeEvicted(capacity: nat, item: ToolItem) returns (steps: seq<Step>)
    requires capacity >= 1 && !Rejected(item)
    ensures CanRun(Init(capacity, SyncIterator, Endless(_ => item)), steps)
    ensures var s := Run(Init(capacity, SyncIterator, Endless(_ => item)), steps);
            s.evicted == Some(|s.yielded|) && s.consumer.CReading?
  {
    steps := QueueCanBeFull(capacity, item);
    var s := Init(capacity, SyncIterator, Endless(_ => item));
    var full := Run(s, steps);
    FullOfChunks(full);
    hide Inv;
    var gone := Disconnected(full);
    RunCons(gone, WatcherFire, []);
    RunCons(full, Disconnect, [WatcherFire] + []);
    RunConcat(s, steps, [Disconnect] + ([WatcherFire] + []));
    steps := steps + ([Disconnect] + ([WatcherFire] + []));
  }

  lemma FullOfChunks(s: State)
    requires Untaken(s) && s.thread.TPutting? && !Room(s)
    ensures s.sh.queue != [] && s.sh.queue[0].Data?
  {
    hide Wakeup, Position, Rejection, Bounds, History, Flow;
  }
}
