/**
 Safety of the streaming call: what holds in every state that some interleaving of the
 parties can reach.
 */
module StreamSafety {
  import opened Common
  import opened StreamQueue
  import opened StreamMachine
  import opened StreamInvariant

  lemma InvKept(s: State, step: Step)
    requires Inv(s) && Enabled(s, step)
    ensures Inv(Apply(s, step)) && SameCall(s, Apply(s, step))
  {
    hide Inv, Started, Pulled, Joined, ProducerHasPut, Finished, Sealed, Cancelled, ThreadPulled, ThreadBuilt,
         ThreadHasPut, GaveUp, Fired, StoppedWatching, Taken, Leave, Done, Disconnected;
    match step {
      case ProducerStart => ProducerStartKeeps(s);
      case ProducerPull => ProducerPullKeeps(s);
      case ProducerJoin => ProducerJoinKeeps(s);
      case ProducerPut => ProducerPutKeeps(s);
      case ProducerFinish => ProducerFinishKeeps(s);
      case ProducerSeal => ProducerSealKeeps(s);
      case ProducerCancelled => ProducerCancelledKeeps(s);
      case ThreadPull => ThreadPullKeeps(s);
      case ThreadBuild => ThreadBuildKeeps(s);
      case ThreadPut => ThreadPutKeeps(s);
      case ThreadFail => ThreadFailKeeps(s);
      case WatcherFire => WatcherFireKeeps(s);
      case WatcherStop => WatcherStopKeeps(s);
      case ConsumerTake => ConsumerTakeKeeps(s);
      case ConsumerAbort => ConsumerAbortKeeps(s);
      case ConsumerFinish => ConsumerFinishKeeps(s);
      case Disconnect => DisconnectKeeps(s);
      case EarlyClose => EarlyCloseKeeps(s);
    }
  }

  /** The invariant holds in every state of every run. */
  lemma {:induction false} RunKeepsInv(s: State, steps: seq<Step>)
    requires Inv(s) && CanRun(s, steps)
    ensures Inv(Run(s, steps))
    ensures SameCall(s, Run(s, steps))
    decreases |steps|
  {
    hide Inv, Apply, Enabled;
    if steps != [] {
      InvKept(s, steps[0]);
      RunKeepsInv(Apply(s, steps[0]), steps[1..]);
    }
  }

  /** `s` is a state that the call with these parameters can reach. */
  ghost predicate Reachable(capacity: nat, mode: Mode, src: Source, s: State) {
    && Legal(capacity, mode, src)
    && exists steps :: CanRun(Init(capacity, mode, src), steps) && s == Run(Init(capacity, mode, src), steps)
  }

  lemma ReachableInv(capacity: nat, mode: Mode, src: Source, s: State)
    requires Reachable(capacity, mode, src, s)
    ensures Inv(s) && s.capacity == capacity && s.mode == mode && s.src == src
  {
    hide Inv;
    InitInv(capacity, mode, src);
    var steps :| CanRun(Init(capacity, mode, src), steps) && s == Run(Init(capacity, mode, src), steps);
    RunKeepsInv(Init(capacity, mode, src), steps);
  }

  /** Every item that the source produces becomes a chunk. */
  ghost predicate AllAccepted(src: Source) {
    forall i: nat :: PullAt(src, i).Got? ==> ItemChunk(src, i).Some?
  }

  predicate EndsInCancellation(src: Source) {
    src.Finite? && src.ending.Cancels?
  }

  /** A source of which the consumer of an undisturbed call will hear the end.  A rejected item
      stops a synchronous iterator without a trace; on the other paths it is an error like any
      other, and comes before the cancellation that the source would end in. */
  ghost predicate Announced(mode: Mode, src: Source) {
    if mode.SyncIterator? then AllAccepted(src) && !EndsInCancellation(src)
    else !EndsInCancellation(src) || !AllAccepted(src)
  }

  /** A producer ends on the source's cancellation only after items that were all accepted. */
  lemma QuitMeansUnannounced(s: State)
    requires Inv(s) && s.quit
    ensures EndsInCancellation(s.src) && AllAccepted(s.src) && !s.mode.PlainValue?
  {
    hide Delivery, MakeChunk, Unpack, AnyFinal, Wakeup, Position, Rejection, Bounds, ThreadCanEnd;
    assert forall i :: 0 <= i < |s.built| ==> ItemChunk(s.src, i).Some?;
    assert |s.built| == |s.src.items| by {
      SourceBound(s.src, s.built, |s.built|);
    }
  }

  /** The drain thread gives up only on an item that was rejected. */
  lemma GivingUpMeansRejected(s: State)
    requires Inv(s) && s.failed
    ensures s.mode.SyncIterator? && !AllAccepted(s.src)
  {
    hide Wakeup, Position, Bounds, ThreadCanEnd, Story, Delivery;
    assert PullAt(s.src, s.pulled - 1).Got? && ItemChunk(s.src, s.pulled - 1).None?;
  }

  /** No lost wake-up: while the consumer still reads and the producer has ended, a sentinel or
      an exception is in the queue.  `StreamLiveness.CompletesIff` says that this needs exactly
      the condition on the source. */
  lemma NoLostWakeup(capacity: nat, mode: Mode, src: Source, s: State)
    requires Reachable(capacity, mode, src, s)
    requires Announced(mode, src)
    requires s.consumer.CReading? && s.producer.PDone?
    ensures exists k :: 0 <= k < |s.sh.queue| && (s.sh.queue[k].Sentinel? || s.sh.queue[k].Failure?)
  {
    ReachableInv(capacity, mode, src, s);
    if s.failed {
      GivingUpMeansRejected(s);
    }
    if s.quit {
      QuitMeansUnannounced(s);
    }
    var k :| 0 <= k < |s.sh.queue| && !s.sh.queue[k].Data?;
    assert s.sh.queue[k].Sentinel? || s.sh.queue[k].Failure?;
  }

  /** After the watcher saw the disconnect, a reading consumer meets a sentinel within the
      reads that are left of `capacity - 1`, whatever the source does. */
  lemma DisconnectReachesConsumer(capacity: nat, mode: Mode, src: Source, s: State)
    requires Reachable(capacity, mode, src, s)
    ensures s.takenAfterFire <= capacity - 1
    ensures s.fired && s.consumer.CReading? ==>
              exists k :: 0 <= k < |s.sh.queue| && k <= capacity - 1 - s.takenAfterFire && s.sh.queue[k].Sentinel?
  {
    ReachableInv(capacity, mode, src, s);
  }

  /** The eviction can cost the client a chunk, but not the tool's error: the failure is at the
      head of a full queue only if the queue holds no more than two items. */
  lemma FailureIsNotEvicted(capacity: nat, mode: Mode, src: Source, s: State)
    requires Reachable(capacity, mode, src, s)
    requires Enabled(s, WatcherFire) && s.consumer.CReading?
    requires !Room(s) && s.sh.queue != [] && s.sh.queue[0].Failure?
    ensures capacity <= 2
  {
    ReachableInv(capacity, mode, src, s);
    hide Control, Position, History, Rejection, Bounds, Flow, Route;
    TakeEnds(s.sh.queue);
  }

  /** Backpressure: the queue is bounded and one put is pending at a time; cancellation: once
      `cancelled` is set there is one more pull and one more chunk at most, and none of the
      latter on the asynchronous path. */
  lemma Backpressure(capacity: nat, mode: Mode, src: Source, s: State)
    requires Reachable(capacity, mode, src, s)
    ensures |s.sh.queue| <= capacity
    ensures !(s.producer.PPutting? && s.thread.TPutting?)
    ensures s.pullsAfterCancel <= 1 && s.buildsAfterCancel <= 1
    ensures mode.AsyncIterator? ==> s.buildsAfterCancel == 0
  {
    ReachableInv(capacity, mode, src, s);
  }

  /** Ordered delivery with at most one gap: the chunks are numbered 1, 2, ...; what was
      yielded, is queued, is about to be queued or was given up by the teardown is, in this
      order, what was built, without at most one chunk that the watcher evicted when it found
      the queue full. */
  lemma OrderedDelivery(capacity: nat, mode: Mode, src: Source, s: State)
    requires Reachable(capacity, mode, src, s)
    ensures forall i :: 0 <= i < |s.built| ==> s.built[i].id == i + 1
    ensures s.yielded + Chunks(s.sh.queue) + Pending(s) + s.abandoned == Without(s.built, s.evicted)
    ensures s.evicted.Some? ==> s.fired && !s.active && s.evicted.value < |s.built|
    ensures |Pending(s)| <= 1 && |s.abandoned| <= 1 && (s.abandoned != [] ==> Leaving(s))
  {
    ReachableInv(capacity, mode, src, s);
    Numbered(s);
    hide Reachable, Story, Wakeup, Bounds, Rejection, Position, ThreadCanEnd, Undisturbed, Chunks, Pending;
  }

  lemma Numbered(s: State)
    requires Inv(s)
    ensures forall i :: 0 <= i < |s.built| ==> s.built[i].id == i + 1
  {
    assert History(s);
    hide Inv;
    forall i | 0 <= i < |s.built|
      ensures s.built[i].id == i + 1
    {
      if i < ItemCount(s) {
        assert ItemChunk(s.src, i) == Some(s.built[i]);
      }
    }
  }

  /** What was built is what the source produced: chunk i carries item i, and after these there is
      at most the producer's own chunk, empty and final. */
  lemma BuiltCarriesItems(capacity: nat, mode: Mode, src: Source, s: State)
    requires Reachable(capacity, mode, src, s)
    ensures var n := if s.synthesized then |s.built| - 1 else |s.built|;
            && 0 <= n <= |s.built|
            && (src.Finite? ==> n <= |src.items|)
            && (forall i :: 0 <= i < n ==>
                  Carries(s.built[i], i + 1, if src.Finite? then src.items[i] else src.item(i)))
            && (s.synthesized ==> s.built[n] == Chunk(n + 1, [], true, map[]))
  {
    ReachableInv(capacity, mode, src, s);
    assert History(s);
    hide Reachable, Inv, AnyFinal, MakeChunk, Unpack;
    var n := ItemCount(s);
    if src.Finite? {
      SourceBound(src, s.built, n);
    }
    forall i | 0 <= i < n
      ensures Carries(s.built[i], i + 1, if src.Finite? then src.items[i] else src.item(i))
    {
      assert ItemChunk(src, i) == Some(s.built[i]);
      ChunkCarriesItem(i + 1, if src.Finite? then src.items[i] else src.item(i));
    }
  }

  // The reference: what a plain loop over the source would send, and how it would end.

  function Final(chunks: seq<Chunk>): seq<Chunk> {
    if AnyFinal(chunks) then chunks else chunks + [FinalChunk(|chunks| + 1)]
  }

  /** The chunks sent for a finite source, with `sent` sent before, and how the call ends; it is
      `Closed` if only the outside world can end it. */
  function Reference(items: seq<ToolItem>, ending: Ending, sent: seq<Chunk>): (seq<Chunk>, Exit)
    requires |sent| <= |items|
    decreases |items| - |sent|
  {
    if |sent| == |items| then
      match ending {
        case Returns => (Final(sent), Ended)
        case Raises => (sent, Errored)
        case Cancels => (sent, Closed)
      }
    else
      var chunk := MakeChunk(|sent| + 1, Unpack(items[|sent|]));
      if chunk.None? then (sent, Errored) else Reference(items, ending, sent + [chunk.value])
  }

  /** The loop gets as far as the first `n` items if these are accepted. */
  lemma {:induction false} ReferenceReaches(src: Source, built: seq<Chunk>, n: nat)
    requires src.Finite? && n <= |src.items| && ItemsBuilt(src, built, n)
    ensures Reference(src.items, src.ending, []) == Reference(src.items, src.ending, built[..n])
  {
    if n > 0 {
      ReferenceReaches(src, built, n - 1);
      assert ItemChunk(src, n - 1) == Some(built[n - 1]);
      assert built[..n - 1] + [built[n - 1]] == built[..n];
    }
  }

  /** An undisturbed call sends what the plain loop sends.  If the watcher did not fire and the
      response was not closed from outside, a finished call has yielded the reference chunks,
      complete and in order, and ends as the reference does. */
  lemma RefinesReference(capacity: nat, mode: Mode, src: Source, s: State)
    requires Reachable(capacity, mode, src, s) && src.Finite?
    requires s.consumer.CDone? && !s.consumer.exit.Closed? && !s.fired
    ensures (s.yielded, s.consumer.exit) == Reference(src.items, src.ending, [])
  {
    ReachableInv(capacity, mode, src, s);
    FinishedCall(s);
    hide Reachable, Inv, Reference, Final, ItemsBuilt, Exhausted, Broken, AnyFinal;
    if s.synthesized {
      var n := |s.built| - 1;
      assert s.built == s.built[..n] + [FinalChunk(n + 1)] by { assert s.built[n] == FinalChunk(n + 1); }
      ReferenceEnds(src, s.built, n);
    } else {
      assert s.built[..|s.built|] == s.built;
      ReferenceEnds(src, s.built, |s.built|);
    }
  }

  /** Where the source ends, the loop ends. */
  lemma ReferenceEnds(src: Source, built: seq<Chunk>, n: nat)
    requires src.Finite? && ItemsBuilt(src, built, n)
    ensures Exhausted(src, n) ==> Reference(src.items, src.ending, []) == (Final(built[..n]), Ended)
    ensures Broken(src, n) ==> Reference(src.items, src.ending, []) == (built[..n], Errored)
  {
    SourceBound(src, built, n);
    ReferenceReaches(src, built, n);
  }

  /** How an undisturbed call that has finished got there. */
  lemma FinishedCall(s: State)
    requires Inv(s) && s.consumer.CDone? && !s.consumer.exit.Closed? && !s.fired
    ensures s.yielded == s.built && ItemsBuilt(s.src, s.built, ItemCount(s))
    ensures if s.consumer.exit.Ended? then Exhausted(s.src, ItemCount(s)) && AnyFinal(s.built)
            else !s.synthesized && Broken(s.src, |s.built|)
    ensures s.synthesized ==>
              s.built != [] && s.built[|s.built| - 1] == FinalChunk(|s.built|) && !AnyFinal(s.built[..|s.built| - 1])
  {
    hide Wakeup, Bounds, Rejection, Position, ThreadCanEnd, Flow, ItemsBuilt, AnyFinal, Exhausted, PullAt, ItemChunk;
  }

  lemma SourceBound(src: Source, built: seq<Chunk>, n: nat)
    requires src.Finite? && ItemsBuilt(src, built, n)
    ensures n <= |src.items|
  {
    assert ItemChunk(src, |src.items|).None?;
  }

  /** The final-chunk contract of the reference, and hence of every undisturbed call: when the
      source returns and its items are accepted, the call ends normally with one chunk per
      item, and with one more, empty and final, exactly if no item was flagged. */
  lemma {:induction false} FinalChunkContract(items: seq<ToolItem>, sent: seq<Chunk>)
    requires |sent| <= |items|
    requires forall i :: |sent| <= i < |items| ==> MakeChunk(i + 1, Unpack(items[i])).Some?
    ensures var (chunks, exit) := Reference(items, Returns, sent);
            var flagged := AnyFinal(sent) || exists i :: |sent| <= i < |items| && Unpack(items[i]).isFinal;
            && exit == Ended
            && sent <= chunks
            && |chunks| == |items| + (if flagged then 0 else 1)
            && (!flagged ==> chunks[|items|] == Chunk(|items| + 1, [], true, map[]) && !AnyFinal(chunks[..|items|]))
            && (forall i :: |sent| <= i < |items| ==> chunks[i].isFinal == Unpack(items[i]).isFinal)
    decreases |items| - |sent|
  {
    if |sent| < |items| {
      var chunk := MakeChunk(|sent| + 1, Unpack(items[|sent|])).value;
      var longer := sent + [chunk];
      FinalChunkContract(items, longer);
      BuildGrows(Finite(items, Returns), sent, chunk);
      assert longer[|sent|] == chunk;
    } else {
      assert (sent + [FinalChunk(|sent| + 1)])[..|items|] == sent;
    }
  }
}
