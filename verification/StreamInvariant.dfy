/**
 What every step of the streaming call keeps.  The invariant is split by subject, and each
 part is shown to be kept by every step.
 */
module StreamInvariant {
  import opened Common
  import opened StreamQueue
  import opened StreamMachine

  /** The chunks among the items of a queue, in order. */
  function Chunks(queue: seq<QItem>): seq<Chunk> {
    if queue == [] then []
    else (if queue[0].Data? then [queue[0].chunk] else []) + Chunks(queue[1..])
  }

  lemma {:induction false} ChunksSnoc(queue: seq<QItem>, item: QItem)
    ensures Chunks(queue + [item]) == Chunks(queue) + (if item.Data? then [item.chunk] else [])
  {
    var longer := queue + [item];
    if queue == [] {
      assert longer == [item];
    } else {
      assert longer[1..] == queue[1..] + [item] && longer[0] == queue[0];
      ChunksSnoc(queue[1..], item);
    }
  }

  /** The chunk a party is about to put. */
  function Pending(s: State): seq<Chunk> {
    if s.thread.TPutting? then [s.thread.chunk] else PendingPut(s.producer)
  }

  function Without(chunks: seq<Chunk>, gap: Option<nat>): seq<Chunk> {
    if gap.Some? && gap.value < |chunks| then chunks[..gap.value] + chunks[gap.value + 1..] else chunks
  }

  /** How many of the chunks built came from the tool. */
  function ItemCount(s: State): nat {
    if s.synthesized && s.built != [] then |s.built| - 1 else |s.built|
  }

  predicate ThreadAtWork(s: State) {
    !s.thread.TIdle? && !s.thread.TDone?
  }

  predicate PutIsTyped(pc: ProducerPc, mode: Mode)
    requires pc.PPutting?
  {
    match pc.after
    case ThenDrain => pc.item.Data? && mode.AsyncIterator?
    case ThenFinish => pc.item.Data? && mode.PlainValue?
    case ThenSeal => pc.item.Data?
    case ThenFail => pc.item.Failure?
    case ThenDone => pc.item.Sentinel?
  }

  /** Which program counters can stand beside each other, and what `cancelled` means. */
  predicate Control(s: State) {
    && Legal(s.capacity, s.mode, s.src)
    && |s.sh.queue| <= s.capacity
    && (s.producer.PPutting? ==> PutIsTyped(s.producer, s.mode))
    && (if s.mode.SyncIterator? then
          && (s.producer.PStart? ==> s.thread.TIdle?)
          && (s.thread.TIdle? ==> s.producer.PStart? || (s.producer.PDone? && Leaving(s)))
          && (ThreadAtWork(s) ==> s.producer.PDraining? || (s.producer.PDone? && Leaving(s)))
        else
          s.thread.TIdle? && !s.producer.PStart? && !s.failed)
    && (Leaving(s) || s.consumer.CAborting? || !s.watching || s.fired || s.failed ==> s.sh.cancelled)
    && (s.fired ==> !s.watching && !s.active)
    && (s.consumer.CReading? && s.sh.cancelled ==> s.fired || s.failed)
    && (s.failed ==> s.thread == TDone(Returns))
    && (s.consumer.CDone? ==> s.producer.PDone? && !s.watching)
  }

  predicate SentinelWithin(queue: seq<QItem>, within: int) {
    exists k :: 0 <= k < |queue| && k <= within && queue[k].Sentinel?
  }

  predicate HasStop(queue: seq<QItem>) {
    exists k :: 0 <= k < |queue| && !queue[k].Data?
  }

  /** The consumer can always be woken: after the disconnect a sentinel is in reach, and a
      producer that ended left a stop behind unless the drain thread gave up or the source
      raised a cancellation. */
  predicate Wakeup(s: State) {
    && s.takenAfterFire < s.capacity
    && (!s.fired ==> s.takenAfterFire == 0)
    && (s.consumer.CReading? && s.fired ==>
          SentinelWithin(s.sh.queue, s.capacity - 1 - s.takenAfterFire))
    && (s.consumer.CReading? && s.producer.PDone? && !s.failed && !s.quit ==> HasStop(s.sh.queue))
  }

  /** Where the iterator stands relative to the chunks built. */
  predicate Position(s: State) {
    if s.mode.SyncIterator? then
      && (s.thread.TIdle? ==> s.pulled == 0 && s.built == [])
      && (s.thread.TPulling? || s.thread.TPutting? ==> s.pulled == |s.built|)
      && (s.thread.TBuilding? ==>
            s.pulled == |s.built| + 1 && PullAt(s.src, |s.built|) == Got(s.thread.item))
      && (ThreadAtWork(s) || s.thread.TIdle? ==> !s.synthesized)
    else
      && (s.producer.PDraining? ==> s.pulled == |s.built|)
      && (s.producer.PPutting? && s.producer.after.ThenDrain? ==> s.pulled == |s.built|)
      && (s.mode.PlainValue? && s.producer.PDraining? ==> s.pulled == 0)
      && (s.mode.PlainValue? && s.producer.PPutting? && s.producer.after.ThenFinish? ==> |s.built| == 1)
  }

  /** The first `n` chunks are the images of the first `n` items. */
  predicate ItemsBuilt(src: Source, built: seq<Chunk>, n: nat) {
    n <= |built| && forall i :: 0 <= i < n ==> ItemChunk(src, i) == Some(built[i])
  }

  predicate AnyFinal(chunks: seq<Chunk>) {
    exists i :: 0 <= i < |chunks| && chunks[i].isFinal
  }

  /** The chunks built are the images of the first items, numbered from 1, and after them at
      most the producer's own final chunk. */
  predicate History(s: State) {
    && s.sh.counter == |s.built| + (if s.rejected then 1 else 0)
    && ItemsBuilt(s.src, s.built, ItemCount(s))
    && s.sh.markedFinal == AnyFinal(s.built)
    && (s.synthesized ==>
          && s.built != []
          && s.built[|s.built| - 1] == FinalChunk(|s.built|)
          && !AnyFinal(s.built[..|s.built| - 1])
          && (s.producer.PDone? || s.producer.PSealing?
              || (s.producer.PPutting? && (s.producer.after.ThenSeal? || s.producer.after.ThenDone?))))
  }

  predicate Rejection(s: State) {
    && (s.rejected ==>
          && s.pulled >= 1
          && PullAt(s.src, s.pulled - 1).Got?
          && ItemChunk(s.src, s.pulled - 1).None?
          && (if s.mode.SyncIterator? then s.thread.TFailing? || s.failed
              else s.producer.PDone?
                   || (s.producer.PPutting? && (s.producer.after.ThenFail? || s.producer.after.ThenDone?))))
    && (s.failed || s.thread.TFailing? ==> s.rejected)
  }

  /** Once `cancelled` is set, the parties pull once more at most and build once more at most. */
  predicate Bounds(s: State) {
    && s.pullsAfterCancel <= 1 && s.buildsAfterCancel <= 1
    && (!s.sh.cancelled ==> s.pullsAfterCancel == 0 && s.buildsAfterCancel == 0)
    && (match s.mode
        case AsyncIterator =>
          && s.buildsAfterCancel == 0
          && (s.producer.PDraining? || (s.producer.PPutting? && s.producer.after.ThenDrain?)
              ==> s.pullsAfterCancel == 0)
        case PlainValue =>
          s.producer.PDraining? ==> s.pullsAfterCancel == 0 && s.buildsAfterCancel == 0
        case SyncIterator =>
          && (!s.thread.TDone? ==> s.pullsAfterCancel == 0)
          && (s.thread.TIdle? || s.thread.TBuilding? ==> s.buildsAfterCancel == 0))
  }

  /** What was yielded, what is queued, what is about to be queued and what the teardown gave
      up make up, in this order, the chunks built without the evicted one. */
  predicate Conserved(
    yielded: seq<Chunk>, queue: seq<QItem>, pending: seq<Chunk>, abandoned: seq<Chunk>,
    built: seq<Chunk>, evicted: Option<nat>)
  {
    && (evicted.Some? ==> evicted.value < |built| && evicted.value <= |yielded|)
    && yielded + Chunks(queue) + pending + abandoned == Without(built, evicted)
  }

  /** No chunk is lost, duplicated or reordered, but for the one the watcher may evict. */
  predicate Flow(s: State) {
    && Conserved(s.yielded, s.sh.queue, Pending(s), s.abandoned, s.built, s.evicted)
    && (s.evicted.Some? ==> s.fired)
    && (s.abandoned != [] ==> Leaving(s) && s.producer.PDone? && !ThreadAtWork(s))
    && |s.abandoned| <= 1
  }

  /** The producer is past the last item, but has not decided on the sentinel. */
  predicate PastLoop(pc: ProducerPc) {
    pc.PFinishing? || (pc.PPutting? && pc.after.ThenFinish?) || PastFinal(pc)
  }

  predicate PastFinal(pc: ProducerPc) {
    pc.PSealing? || (pc.PPutting? && pc.after.ThenSeal?)
  }

  /** Why the producer left its loop. */
  predicate Route(s: State) {
    && (s.raised ==> !s.synthesized && !s.sealed && !ThreadAtWork(s))
    && (s.raised ==> s.producer.PDone? ||
                     (s.producer.PPutting? && (s.producer.after.ThenFail? || s.producer.after.ThenDone?)))
    && (s.raised ==> if s.mode.SyncIterator? then Throws(s.src, |s.built|) else Broken(s.src, |s.built|))
    && (s.quit ==> s.producer.PDone? && !s.raised && !s.sealed && !s.synthesized && Aborts(s.src, |s.built|))
    && (s.mode.SyncIterator? && s.thread == TDone(Raises) ==> !s.synthesized && Throws(s.src, |s.built|))
    && (s.mode.SyncIterator? && s.thread == TDone(Cancels) ==> !s.synthesized && Aborts(s.src, |s.built|))
    && (s.mode.SyncIterator? && s.thread == TDone(Returns) && !s.sh.cancelled ==> Exhausted(s.src, ItemCount(s)))
    && (!s.sh.cancelled && PastLoop(s.producer) ==> Exhausted(s.src, ItemCount(s)) && !ThreadAtWork(s))
    && (!s.sh.cancelled && PastFinal(s.producer) ==> s.sh.markedFinal)
    && (s.sealed ==> Exhausted(s.src, ItemCount(s)) && s.sh.markedFinal && !ThreadAtWork(s))
    && (s.sealed ==> s.producer.PDone? || s.producer == PPutting(Sentinel, ThenDone))
    && (s.producer.PPutting? && s.producer.after.ThenFail? ==> s.raised)
    && (s.producer.PPutting? && s.producer.after.ThenDone? ==> s.sealed || s.raised)
  }

  /** The source returned right after its first `n` items. */
  predicate Exhausted(src: Source, n: nat) {
    PullAt(src, n).Stopped?
  }

  /** The source raised right after its first `n` items. */
  predicate Throws(src: Source, n: nat) {
    PullAt(src, n).Raised?
  }

  /** The source raised `CancelledError` right after its first `n` items. */
  predicate Aborts(src: Source, n: nat) {
    PullAt(src, n).Aborted?
  }

  /** The source raised, or produced something that is rejected, right after its first `n`
      items. */
  predicate Broken(src: Source, n: nat) {
    var pull := PullAt(src, n);
    pull.Raised? || (pull.Got? && ItemChunk(src, n).None?)
  }

  predicate HasFailure(queue: seq<QItem>) {
    exists k :: 0 <= k < |queue| && queue[k].Failure?
  }

  predicate AllData(queue: seq<QItem>) {
    forall k :: 0 <= k < |queue| ==> queue[k].Data?
  }

  /** Chunks, and last of all `stop`. */
  predicate EndsWith(queue: seq<QItem>, stop: QItem) {
    queue != [] && queue[|queue| - 1] == stop && AllData(queue[..|queue| - 1])
  }

  /** Chunks, then the failure, and last of all the sentinel. */
  predicate EndsInBoth(queue: seq<QItem>) {
    queue != [] && queue[|queue| - 1].Sentinel? && EndsWith(queue[..|queue| - 1], Failure)
  }

  /** What a call looks like as long as the watcher has not fired. */
  predicate Undisturbed(s: State) {
    !s.fired ==>
      && (s.consumer.CReading? && s.raised ==>
            if s.producer.PDone? then EndsInBoth(s.sh.queue)
            else if s.producer.PPutting? && s.producer.after.ThenDone? then EndsWith(s.sh.queue, Failure)
            else AllData(s.sh.queue))
      && (s.consumer.CReading? && s.sealed ==>
            if s.producer.PDone? then EndsWith(s.sh.queue, Sentinel) else AllData(s.sh.queue))
      && (s.consumer.CReading? && !s.raised && !s.sealed ==> AllData(s.sh.queue))
      && (Leaving(s) && s.consumer.exit.Ended? ==> s.sealed && s.yielded == s.built)
      && (s.consumer.CAborting? || (Leaving(s) && s.consumer.exit.Errored?) ==>
            s.raised && s.yielded == s.built)
  }

  predicate OnePutLeft(pc: ThreadPc) {
    pc.TBuilding? || pc.TPutting?
  }

  /** A failure in sight means that the drain thread is done, and a consumer that read its way
      to the end leaves room for the drain thread's last put. */
  predicate ThreadCanEnd(s: State) {
    && (HasFailure(s.sh.queue) ==> s.raised)
    && (s.consumer.CAborting? || (Leaving(s) && s.consumer.exit.Errored?) ==> s.raised)
    && (Leaving(s) && s.consumer.exit.Ended? && OnePutLeft(s.thread) ==> Room(s))
  }

  /** The parts about program counters and counters. */
  predicate Shape(s: State) {
    && Control(s)
    && Wakeup(s)
    && Position(s)
    && Rejection(s)
    && Bounds(s)
    && ThreadCanEnd(s)
  }

  /** The parts about what was built, and why the producer stopped building. */
  predicate Story(s: State) {
    && History(s)
    && Route(s)
  }

  /** The parts about what was queued and yielded. */
  predicate Delivery(s: State) {
    && Flow(s)
    && Undisturbed(s)
  }

  predicate Inv(s: State) {
    Shape(s) && Story(s) && Delivery(s)
  }

  lemma InitInv(capacity: nat, mode: Mode, src: Source)
    requires Legal(capacity, mode, src)
    ensures Inv(Init(capacity, mode, src))
  {
  }

  // What the queue operations do to the predicates on queues and chunks.

  lemma SentinelStaysWithin(queue: seq<QItem>, item: QItem, within: int)
    requires SentinelWithin(queue, within)
    ensures SentinelWithin(queue + [item], within)
  {
    var k :| 0 <= k < |queue| && k <= within && queue[k].Sentinel?;
    assert (queue + [item])[k].Sentinel?;
  }

  lemma SentinelComesCloser(queue: seq<QItem>, within: int)
    requires SentinelWithin(queue, within) && queue != [] && !queue[0].Sentinel?
    ensures within >= 1 && SentinelWithin(queue[1..], within - 1)
  {
    var k :| 0 <= k < |queue| && k <= within && queue[k].Sentinel?;
    assert queue[1..][k - 1].Sentinel?;
  }

  lemma SentinelIsStop(queue: seq<QItem>, within: int)
    ensures SentinelWithin(queue, within) ==> HasStop(queue)
  {
  }

  lemma StopStays(queue: seq<QItem>, item: QItem)
    ensures HasStop(queue + [item]) == (HasStop(queue) || !item.Data?)
    ensures HasFailure(queue + [item]) == (HasFailure(queue) || item.Failure?)
    ensures AllData(queue + [item]) == (AllData(queue) && item.Data?)
  {
    var longer := queue + [item];
    assert forall k :: 0 <= k < |queue| ==> longer[k] == queue[k];
    assert longer[|queue|] == item;
  }

  lemma ForceStops(queue: seq<QItem>, capacity: nat)
    requires 1 <= capacity && |queue| <= capacity
    ensures |Forced(queue, capacity)| <= capacity
    ensures SentinelWithin(Forced(queue, capacity), capacity - 1) && HasStop(Forced(queue, capacity))
    ensures HasFailure(Forced(queue, capacity)) ==> HasFailure(queue)
  {
    var forced := Forced(queue, capacity);
    assert forced[|forced| - 1].Sentinel?;
    if HasFailure(forced) {
      var k :| 0 <= k < |forced| && forced[k].Failure?;
      assert queue[if |queue| < capacity then k else k + 1].Failure?;
    }
  }

  lemma TakeStops(queue: seq<QItem>)
    requires queue != []
    ensures HasStop(queue) == (HasStop(queue[1..]) || !queue[0].Data?)
    ensures HasFailure(queue) == (HasFailure(queue[1..]) || queue[0].Failure?)
    ensures AllData(queue) == (AllData(queue[1..]) && queue[0].Data?)
    ensures |queue| >= 2 ==>
              AllData(queue[..|queue| - 1]) == (AllData(queue[1..][..|queue| - 2]) && queue[0].Data?)
  {
    assert queue == [queue[0]] + queue[1..];
    if |queue| >= 2 {
      assert queue[..|queue| - 1] == [queue[0]] + queue[1..][..|queue| - 2];
    }
  }

  lemma TakeEnds(queue: seq<QItem>)
    requires queue != []
    ensures forall stop: QItem | !stop.Data? && EndsWith(queue, stop) ::
              if queue[0].Data? then EndsWith(queue[1..], stop) else queue == [stop]
    ensures EndsInBoth(queue) ==>
              if queue[0].Data? then EndsInBoth(queue[1..]) else queue == [Failure, Sentinel]
    ensures !queue[0].Data? && (EndsWith(queue, Failure) || EndsWith(queue, Sentinel) || EndsInBoth(queue)) ==>
              Chunks(queue[1..]) == []
  {
    if |queue| >= 2 {
      assert queue[1..][..|queue| - 2] == queue[..|queue| - 1][1..];
    }
    if |queue| >= 3 {
      assert queue[1..][..|queue| - 2][..|queue| - 3] == queue[..|queue| - 1][..|queue| - 2][1..];
    }
  }

  lemma AllYielded(yielded: seq<Chunk>, queue: seq<QItem>, built: seq<Chunk>)
    requires Conserved(yielded, queue, [], [], built, None) && Chunks(queue) == []
    ensures yielded == built
  {
    assert yielded + [] + [] + [] == yielded;
  }

  lemma BuildGrows(src: Source, built: seq<Chunk>, chunk: Chunk)
    ensures AnyFinal(built + [chunk]) == (AnyFinal(built) || chunk.isFinal)
    ensures ItemsBuilt(src, built, |built|) ==> ItemsBuilt(src, built + [chunk], |built|)
    ensures ItemsBuilt(src, built, |built|) && ItemChunk(src, |built|) == Some(chunk) ==>
              ItemsBuilt(src, built + [chunk], |built| + 1)
    ensures (built + [chunk])[..|built|] == built
  {
    var longer := built + [chunk];
    assert forall k :: 0 <= k < |built| ==> longer[k] == built[k];
    assert longer[|built|] == chunk;
  }

  lemma BuildConserves(
    yielded: seq<Chunk>, queue: seq<QItem>, built: seq<Chunk>, evicted: Option<nat>, chunk: Chunk)
    requires Conserved(yielded, queue, [], [], built, evicted)
    ensures Conserved(yielded, queue, [chunk], [], built + [chunk], evicted)
  {
    assert Without(built + [chunk], evicted) == Without(built, evicted) + [chunk];
    assert yielded + Chunks(queue) + [] + [] == yielded + Chunks(queue);
  }

  lemma PutConserves(
    yielded: seq<Chunk>, queue: seq<QItem>, abandoned: seq<Chunk>, built: seq<Chunk>, evicted: Option<nat>,
    item: QItem)
    requires Conserved(yielded, queue, if item.Data? then [item.chunk] else [], abandoned, built, evicted)
    ensures Conserved(yielded, queue + [item], [], abandoned, built, evicted)
  {
    ChunksSnoc(queue, item);
  }

  lemma TakeConserves(
    yielded: seq<Chunk>, queue: seq<QItem>, pending: seq<Chunk>, abandoned: seq<Chunk>, built: seq<Chunk>,
    evicted: Option<nat>)
    requires queue != [] && Conserved(yielded, queue, pending, abandoned, built, evicted)
    ensures Conserved(
              yielded + (if queue[0].Data? then [queue[0].chunk] else []),
              queue[1..], pending, abandoned, built, evicted)
  {
  }

  lemma AbandonConserves(
    yielded: seq<Chunk>, queue: seq<QItem>, pending: seq<Chunk>, built: seq<Chunk>, evicted: Option<nat>)
    requires Conserved(yielded, queue, pending, [], built, evicted)
    ensures Conserved(yielded, queue, [], pending, built, evicted)
  {
  }

  lemma ForceConserves(
    yielded: seq<Chunk>, queue: seq<QItem>, pending: seq<Chunk>, built: seq<Chunk>, capacity: nat)
    requires 1 <= capacity && |queue| <= capacity
    requires Conserved(yielded, queue, pending, [], built, None)
    ensures Conserved(
              yielded, Forced(queue, capacity), pending, [], built,
              if |queue| == capacity && queue[0].Data? then Some(|yielded|) else None)
  {
    if |queue| < capacity {
      ChunksSnoc(queue, Sentinel);
    } else {
      ChunksSnoc(queue[1..], Sentinel);
    }
  }

  ghost predicate SameCall(s: State, t: State) {
    t.capacity == s.capacity && t.mode == s.mode && t.src == s.src
  }

  // A step that leaves the producer, the drain thread and what they built alone keeps the
  // parts of the invariant that are about them.

  ghost predicate SameBuilders(s: State, t: State) {
    && t.mode == s.mode && t.src == s.src && t.pulled == s.pulled
    && t.producer == s.producer && t.thread == s.thread
    && t.built == s.built && t.synthesized == s.synthesized && t.rejected == s.rejected
    && t.raised == s.raised && t.quit == s.quit && t.sealed == s.sealed && t.failed == s.failed
    && t.sh.counter == s.sh.counter && t.sh.markedFinal == s.sh.markedFinal
    && t.pullsAfterCancel == s.pullsAfterCancel && t.buildsAfterCancel == s.buildsAfterCancel
    && (s.sh.cancelled ==> t.sh.cancelled)
  }

  lemma StoryFrame(s: State, t: State)
    requires Story(s) && SameBuilders(s, t)
    ensures Story(t)
  {
    hide ItemsBuilt, AnyFinal, Exhausted, Broken, Throws, Aborts;
  }

  lemma BoundsFrame(s: State, t: State)
    requires Position(s) && Rejection(s) && Bounds(s) && SameBuilders(s, t)
    ensures Position(t) && Rejection(t) && Bounds(t)
  {
    hide PullAt, ItemChunk;
  }

  lemma ProducerStartKeeps(s: State)
    requires Inv(s) && Enabled(s, ProducerStart)
    ensures Inv(Started(s)) && SameCall(s, Started(s))
  {
    hide Conserved, Chunks, Without, ItemsBuilt, AnyFinal, SentinelWithin, HasStop, HasFailure, AllData;
  }

  lemma ProducerPullKeepsShape(s: State)
    requires Inv(s) && Enabled(s, ProducerPull)
    ensures Shape(Pulled(s)) && SameCall(s, Pulled(s))
  {
    hide Conserved, Chunks, Without, ItemsBuilt, AnyFinal, SentinelWithin, HasStop, HasFailure, AllData, Flow,
         Undisturbed, Exhausted, Broken, Throws, Aborts, MakeChunk, Unpack;
  }

  lemma BeforePull(s: State)
    requires Inv(s) && Enabled(s, ProducerPull)
    ensures s.pulled == |s.built| == s.sh.counter
    ensures !s.synthesized && !s.raised && !s.sealed && !s.rejected
  {
    hide ItemsBuilt, AnyFinal, PullAt, ItemChunk, Wakeup, Bounds, ThreadCanEnd, Delivery;
  }

  /** Trying to build one more chunk keeps the history. */
  lemma HistoryGrows(s: State, t: State, chunk: Option<Chunk>)
    requires History(s) && !s.synthesized && !s.rejected && !t.synthesized
    requires t.src == s.src && t.sh.counter == s.sh.counter + 1 && t.rejected == chunk.None?
    requires chunk.Some? ==> ItemChunk(s.src, |s.built|) == chunk
    requires t.built == if chunk.Some? then s.built + [chunk.value] else s.built
    requires t.sh.markedFinal == (s.sh.markedFinal || (chunk.Some? && chunk.value.isFinal))
    ensures History(t)
  {
    hide ItemsBuilt, AnyFinal, ItemChunk;
    if chunk.Some? {
      BuildGrows(s.src, s.built, chunk.value);
    }
  }

  /** Building nothing keeps the history. */
  lemma HistoryStays(s: State, t: State)
    requires History(s) && !s.synthesized && !t.synthesized
    requires t.src == s.src && t.sh == s.sh && t.built == s.built && t.rejected == s.rejected
    ensures History(t)
  {
    hide ItemsBuilt, AnyFinal;
  }

  lemma ProducerPullKeepsHistory(s: State)
    requires Inv(s) && Enabled(s, ProducerPull)
    ensures History(Pulled(s))
  {
    BeforePull(s);
    assert History(s);
    hide Inv, History, Unpack, EncodePayload, Legal, Leaving;
    var pull := PullAt(s.src, s.pulled);
    if pull.Got? && !(s.mode.AsyncIterator? && s.sh.cancelled) {
      HistoryGrows(s, Pulled(s), MakeChunk(s.sh.counter + 1, Unpack(pull.item)));
    } else {
      HistoryStays(s, Pulled(s));
    }
  }

  lemma ProducerPullKeepsRoute(s: State)
    requires Inv(s) && Enabled(s, ProducerPull)
    ensures Route(Pulled(s))
  {
    hide Conserved, Chunks, Without, ItemsBuilt, AnyFinal, SentinelWithin, HasStop, HasFailure, AllData, Flow,
         Undisturbed, Wakeup, Bounds, ThreadCanEnd;
    var pull := PullAt(s.src, s.pulled);
    assert s.pulled == |s.built| == s.sh.counter && !s.synthesized && !s.raised && !s.sealed;
    if pull.Got? {
      var chunk := MakeChunk(s.sh.counter + 1, Unpack(pull.item));
      assert ItemChunk(s.src, |s.built|) == chunk;
      assert s.mode.PlainValue? ==> Exhausted(s.src, 1);
    }
    hide Unpack, EncodePayload, MakeChunk, ItemChunk, PullAt, Position, Rejection;
  }

  lemma StoryParts(s: State)
    requires History(s) && Route(s)
    ensures Story(s)
  {
  }

  lemma ProducerPullKeepsDelivery(s: State)
    requires Inv(s) && Enabled(s, ProducerPull)
    ensures Delivery(Pulled(s))
  {
    hide Conserved, Chunks, Without, ItemsBuilt, AnyFinal, SentinelWithin, HasStop, HasFailure, AllData,
         Wakeup, Bounds, Rejection, Position, History;
    var pull := PullAt(s.src, s.pulled);
    if pull.Got? {
      var chunk := MakeChunk(s.sh.counter + 1, Unpack(pull.item));
      if chunk.Some? {
        assert Pending(s) == [] && s.abandoned == [];
        BuildConserves(s.yielded, s.sh.queue, s.built, s.evicted, chunk.value);
      }
    }
  }

  lemma ProducerPullKeeps(s: State)
    requires Inv(s) && Enabled(s, ProducerPull)
    ensures Inv(Pulled(s)) && SameCall(s, Pulled(s))
  {
    hide Shape, Story, Delivery, Pulled, SameCall;
    ProducerPullKeepsShape(s);
    assert Story(Pulled(s)) by {
      ProducerPullKeepsHistory(s);
      ProducerPullKeepsRoute(s);
      StoryParts(Pulled(s));
    }
    ProducerPullKeepsDelivery(s);
  }

  lemma ProducerJoinKeepsShape(s: State)
    requires Inv(s) && Enabled(s, ProducerJoin)
    ensures Shape(Joined(s)) && SameCall(s, Joined(s))
  {
    hide Conserved, Chunks, Without, ItemsBuilt, AnyFinal, SentinelWithin, HasStop, HasFailure, AllData, Flow,
         Undisturbed, History, Exhausted, Broken, MakeChunk;
  }

  lemma ProducerJoinKeepsStory(s: State)
    requires Inv(s) && Enabled(s, ProducerJoin)
    ensures Story(Joined(s))
  {
    hide Conserved, Chunks, Without, ItemsBuilt, AnyFinal, SentinelWithin, HasStop, HasFailure, AllData, Flow,
         Undisturbed, Wakeup, Bounds, ThreadCanEnd, MakeChunk;
  }

  lemma ProducerJoinKeepsDelivery(s: State)
    requires Inv(s) && Enabled(s, ProducerJoin)
    ensures Delivery(Joined(s))
  {
    hide Conserved, Chunks, Without, ItemsBuilt, AnyFinal, SentinelWithin, HasStop, HasFailure, AllData,
         Wakeup, Bounds, Rejection, Position, History, PullAt, ItemChunk, MakeChunk;
  }

  lemma ProducerJoinKeeps(s: State)
    requires Inv(s) && Enabled(s, ProducerJoin)
    ensures Inv(Joined(s)) && SameCall(s, Joined(s))
  {
    hide Shape, Story, Delivery, Joined, SameCall;
    ProducerJoinKeepsShape(s);
    ProducerJoinKeepsStory(s);
    ProducerJoinKeepsDelivery(s);
  }

  lemma ProducerPutKeepsShape(s: State)
    requires Inv(s) && Enabled(s, ProducerPut)
    ensures Shape(ProducerHasPut(s)) && SameCall(s, ProducerHasPut(s))
  {
    hide Conserved, Chunks, Without, ItemsBuilt, AnyFinal, SentinelWithin, HasStop, HasFailure, AllData, Flow,
         Undisturbed, History, PullAt, ItemChunk;
    StopStays(s.sh.queue, s.producer.item);
    if s.consumer.CReading? && s.fired {
      SentinelStaysWithin(s.sh.queue, s.producer.item, s.capacity - 1 - s.takenAfterFire);
    }
  }

  lemma ProducerPutKeepsStory(s: State)
    requires Inv(s) && Enabled(s, ProducerPut)
    ensures Story(ProducerHasPut(s))
  {
    hide Conserved, Chunks, Without, ItemsBuilt, AnyFinal, SentinelWithin, HasStop, HasFailure, AllData, Flow,
         Undisturbed, Wakeup, Bounds, ThreadCanEnd;
  }

  lemma ProducerPutKeepsDelivery(s: State)
    requires Inv(s) && Enabled(s, ProducerPut)
    ensures Delivery(ProducerHasPut(s))
  {
    hide Conserved, Chunks, Without, ItemsBuilt, AnyFinal, SentinelWithin, HasStop, HasFailure, AllData,
         Wakeup, Bounds, Rejection, Position, History;
    StopStays(s.sh.queue, s.producer.item);
    PutConserves(s.yielded, s.sh.queue, s.abandoned, s.built, s.evicted, s.producer.item);
  }

  lemma ProducerPutKeeps(s: State)
    requires Inv(s) && Enabled(s, ProducerPut)
    ensures Inv(ProducerHasPut(s)) && SameCall(s, ProducerHasPut(s))
  {
    hide Shape, Story, Delivery, ProducerHasPut, SameCall;
    ProducerPutKeepsShape(s);
    ProducerPutKeepsStory(s);
    ProducerPutKeepsDelivery(s);
  }

  lemma ProducerFinishKeepsShape(s: State)
    requires Inv(s) && Enabled(s, ProducerFinish)
    ensures Shape(Finished(s)) && SameCall(s, Finished(s))
  {
    hide Conserved, Chunks, Without, ItemsBuilt, AnyFinal, SentinelWithin, HasStop, HasFailure, AllData, Flow,
         Undisturbed;
  }

  lemma ProducerFinishKeepsStory(s: State)
    requires Inv(s) && Enabled(s, ProducerFinish)
    ensures Story(Finished(s))
  {
    hide Conserved, Chunks, Without, ItemsBuilt, AnyFinal, SentinelWithin, HasStop, HasFailure, AllData, Flow,
         Undisturbed, Wakeup, Bounds, ThreadCanEnd, MakeChunk;
    ClosingChunk(s.sh.counter + 1);
    BuildGrows(s.src, s.built, FinalChunk(s.sh.counter + 1));
  }

  lemma ProducerFinishKeepsDelivery(s: State)
    requires Inv(s) && Enabled(s, ProducerFinish)
    ensures Delivery(Finished(s))
  {
    hide Conserved, Chunks, Without, ItemsBuilt, AnyFinal, SentinelWithin, HasStop, HasFailure, AllData,
         Wakeup, Bounds, Rejection, Position, History;
    var chunk := FinalChunk(s.sh.counter + 1);
    if !s.sh.markedFinal && !s.sh.cancelled {
      assert Pending(s) == [] && s.abandoned == [];
      BuildConserves(s.yielded, s.sh.queue, s.built, s.evicted, chunk);
    }
  }

  lemma ProducerFinishKeeps(s: State)
    requires Inv(s) && Enabled(s, ProducerFinish)
    ensures Inv(Finished(s)) && SameCall(s, Finished(s))
  {
    hide Shape, Story, Delivery, Finished, SameCall;
    ProducerFinishKeepsShape(s);
    ProducerFinishKeepsStory(s);
    ProducerFinishKeepsDelivery(s);
  }

  lemma ProducerSealKeepsShape(s: State)
    requires Inv(s) && Enabled(s, ProducerSeal)
    ensures Shape(Sealed(s)) && SameCall(s, Sealed(s))
  {
    hide Conserved, Chunks, Without, ItemsBuilt, AnyFinal, SentinelWithin, HasStop, HasFailure, AllData, Flow,
         Undisturbed, History, Exhausted, Broken, MakeChunk;
    SentinelIsStop(s.sh.queue, s.capacity - 1 - s.takenAfterFire);
  }

  lemma ProducerSealKeepsStory(s: State)
    requires Inv(s) && Enabled(s, ProducerSeal)
    ensures Story(Sealed(s))
  {
    hide Conserved, Chunks, Without, ItemsBuilt, AnyFinal, SentinelWithin, HasStop, HasFailure, AllData, Flow,
         Undisturbed, Wakeup, Bounds, ThreadCanEnd, MakeChunk;
  }

  lemma ProducerSealKeepsDelivery(s: State)
    requires Inv(s) && Enabled(s, ProducerSeal)
    ensures Delivery(Sealed(s))
  {
    hide Conserved, Chunks, Without, ItemsBuilt, AnyFinal, SentinelWithin, HasStop, HasFailure, AllData,
         Wakeup, Bounds, Rejection, Position, History, PullAt, ItemChunk, MakeChunk;
  }

  lemma ProducerSealKeeps(s: State)
    requires Inv(s) && Enabled(s, ProducerSeal)
    ensures Inv(Sealed(s)) && SameCall(s, Sealed(s))
  {
    hide Shape, Story, Delivery, Sealed, SameCall;
    ProducerSealKeepsShape(s);
    ProducerSealKeepsStory(s);
    ProducerSealKeepsDelivery(s);
  }

  lemma ProducerCancelledKeepsShape(s: State)
    requires Inv(s) && Enabled(s, ProducerCancelled)
    ensures Shape(Cancelled(s)) && SameCall(s, Cancelled(s))
  {
    hide Conserved, Chunks, Without, ItemsBuilt, AnyFinal, SentinelWithin, HasStop, HasFailure, AllData, Flow,
         Undisturbed;
  }

  lemma ProducerCancelledKeepsStory(s: State)
    requires Inv(s) && Enabled(s, ProducerCancelled)
    ensures Story(Cancelled(s))
  {
    hide Conserved, Chunks, Without, ItemsBuilt, AnyFinal, SentinelWithin, HasStop, HasFailure, AllData, Flow,
         Undisturbed, Wakeup, Bounds, ThreadCanEnd;
  }

  lemma ProducerCancelledKeepsDelivery(s: State)
    requires Inv(s) && Enabled(s, ProducerCancelled)
    ensures Delivery(Cancelled(s))
  {
    hide Conserved, Chunks, Without, ItemsBuilt, AnyFinal, SentinelWithin, HasStop, HasFailure, AllData,
         Wakeup, Bounds, Rejection, Position, History;
    assert s.abandoned == [] && s.abandoned + PendingPut(s.producer) == PendingPut(s.producer);
    AbandonConserves(s.yielded, s.sh.queue, Pending(s), s.built, s.evicted);
  }

  lemma ProducerCancelledKeeps(s: State)
    requires Inv(s) && Enabled(s, ProducerCancelled)
    ensures Inv(Cancelled(s)) && SameCall(s, Cancelled(s))
  {
    hide Shape, Story, Delivery, Cancelled, SameCall;
    ProducerCancelledKeepsShape(s);
    ProducerCancelledKeepsStory(s);
    ProducerCancelledKeepsDelivery(s);
  }

  lemma ThreadPullKeepsShape(s: State)
    requires Inv(s) && Enabled(s, ThreadPull)
    ensures Shape(ThreadPulled(s)) && SameCall(s, ThreadPulled(s))
  {
    hide Conserved, Chunks, Without, ItemsBuilt, AnyFinal, SentinelWithin, HasStop, HasFailure, AllData, Flow,
         Undisturbed;
  }

  lemma ThreadPullKeepsStory(s: State)
    requires Inv(s) && Enabled(s, ThreadPull)
    ensures Story(ThreadPulled(s))
  {
    hide Conserved, Chunks, Without, ItemsBuilt, AnyFinal, SentinelWithin, HasStop, HasFailure, AllData, Flow,
         Undisturbed, Wakeup, Bounds, ThreadCanEnd;
  }

  lemma ThreadPullKeepsDelivery(s: State)
    requires Inv(s) && Enabled(s, ThreadPull)
    ensures Delivery(ThreadPulled(s))
  {
    hide Conserved, Chunks, Without, ItemsBuilt, AnyFinal, SentinelWithin, HasStop, HasFailure, AllData,
         Wakeup, Bounds, Rejection, Position, History, PullAt, ItemChunk, MakeChunk, Exhausted, Broken, Throws, Aborts;
  }

  lemma ThreadPullKeeps(s: State)
    requires Inv(s) && Enabled(s, ThreadPull)
    ensures Inv(ThreadPulled(s)) && SameCall(s, ThreadPulled(s))
  {
    hide Shape, Story, Delivery, ThreadPulled, SameCall;
    ThreadPullKeepsShape(s);
    ThreadPullKeepsStory(s);
    ThreadPullKeepsDelivery(s);
  }

  lemma ThreadBuildKeepsShape(s: State)
    requires Inv(s) && Enabled(s, ThreadBuild)
    ensures Shape(ThreadBuilt(s)) && SameCall(s, ThreadBuilt(s))
  {
    hide Conserved, Chunks, Without, ItemsBuilt, AnyFinal, SentinelWithin, HasStop, HasFailure, AllData, Flow,
         Undisturbed;
  }

  lemma BeforeThreadBuild(s: State)
    requires Inv(s) && Enabled(s, ThreadBuild)
    ensures s.mode.SyncIterator? && s.sh.counter == |s.built| == ItemCount(s) && !s.synthesized && !s.rejected
    ensures PullAt(s.src, |s.built|) == Got(s.thread.item)
    ensures !s.raised && !s.quit && !s.sealed && (s.producer.PDraining? || s.producer.PDone?)
    ensures History(s)
  {
    hide ItemsBuilt, AnyFinal, Wakeup, Bounds, ThreadCanEnd, Delivery, Exhausted, Broken, Throws, MakeChunk;
  }

  lemma ThreadBuildKeepsHistory(s: State)
    requires Inv(s) && Enabled(s, ThreadBuild)
    ensures History(ThreadBuilt(s))
  {
    BeforeThreadBuild(s);
    hide Inv, History, PullAt, Unpack, EncodePayload, Legal, Leaving;
    HistoryGrows(s, ThreadBuilt(s), MakeChunk(s.sh.counter + 1, Unpack(s.thread.item)));
  }

  lemma ThreadBuildKeepsRoute(s: State)
    requires Inv(s) && Enabled(s, ThreadBuild)
    ensures Route(ThreadBuilt(s))
  {
    BeforeThreadBuild(s);
    hide Inv, History, Exhausted, Broken, Throws, Aborts, MakeChunk, Unpack, PullAt, ItemChunk, Legal, AfterBuild;
  }

  lemma ThreadBuildKeepsStory(s: State)
    requires Inv(s) && Enabled(s, ThreadBuild)
    ensures Story(ThreadBuilt(s))
  {
    hide Inv, ThreadBuilt, History, Route;
    ThreadBuildKeepsHistory(s);
    ThreadBuildKeepsRoute(s);
  }

  lemma ThreadBuildKeepsDelivery(s: State)
    requires Inv(s) && Enabled(s, ThreadBuild)
    ensures Delivery(ThreadBuilt(s))
  {
    hide Conserved, Chunks, Without, ItemsBuilt, AnyFinal, SentinelWithin, HasStop, HasFailure, AllData,
         Wakeup, Bounds, Rejection, Position, History;
    var chunk := MakeChunk(s.sh.counter + 1, Unpack(s.thread.item));
    if chunk.Some? {
      assert Pending(s) == [] && s.abandoned == [];
      BuildConserves(s.yielded, s.sh.queue, s.built, s.evicted, chunk.value);
    }
  }

  lemma ThreadBuildKeeps(s: State)
    requires Inv(s) && Enabled(s, ThreadBuild)
    ensures Inv(ThreadBuilt(s)) && SameCall(s, ThreadBuilt(s))
  {
    hide Shape, Story, Delivery, ThreadBuilt, SameCall;
    ThreadBuildKeepsShape(s);
    ThreadBuildKeepsStory(s);
    ThreadBuildKeepsDelivery(s);
  }

  lemma ThreadPutKeeps(s: State)
    requires Inv(s) && Enabled(s, ThreadPut)
    ensures Inv(ThreadHasPut(s)) && SameCall(s, ThreadHasPut(s))
  {
    hide Conserved, Chunks, Without, ItemsBuilt, AnyFinal, SentinelWithin, HasStop, HasFailure, AllData,
         Exhausted, Broken, Throws, Aborts, PullAt, ItemChunk, MakeChunk, EndsWith, EndsInBoth;
    var item := Data(s.thread.chunk);
    StopStays(s.sh.queue, item);
    if s.consumer.CReading? && s.fired {
      SentinelStaysWithin(s.sh.queue, item, s.capacity - 1 - s.takenAfterFire);
    }
    PutConserves(s.yielded, s.sh.queue, s.abandoned, s.built, s.evicted, item);
  }

  lemma ThreadFailKeeps(s: State)
    requires Inv(s) && Enabled(s, ThreadFail)
    ensures Inv(GaveUp(s)) && SameCall(s, GaveUp(s))
  {
    hide Conserved, Chunks, Without, ItemsBuilt, AnyFinal, SentinelWithin, HasStop, HasFailure, AllData,
         Exhausted, Broken, Throws, Aborts, PullAt, ItemChunk, MakeChunk, EndsWith, EndsInBoth;
  }

  lemma WatcherFireKeeps(s: State)
    requires Inv(s) && Enabled(s, WatcherFire)
    ensures Inv(Fired(s)) && SameCall(s, Fired(s))
  {
    hide Conserved, Chunks, Without, ItemsBuilt, AnyFinal, SentinelWithin, HasStop, HasFailure, AllData,
         Exhausted, Broken, Throws, Aborts, PullAt, ItemChunk, MakeChunk, EndsWith, EndsInBoth, Story,
         Position, Rejection, Bounds;
    StoryFrame(s, Fired(s));
    BoundsFrame(s, Fired(s));
    ForceStops(s.sh.queue, s.capacity);
    ForceConserves(s.yielded, s.sh.queue, Pending(s), s.built, s.capacity);
  }

  lemma WatcherStopKeeps(s: State)
    requires Inv(s) && Enabled(s, WatcherStop)
    ensures Inv(StoppedWatching(s)) && SameCall(s, StoppedWatching(s))
  {
    hide Conserved, Chunks, Without, ItemsBuilt, AnyFinal, SentinelWithin, HasStop, HasFailure, AllData,
         Exhausted, Broken, Throws, Aborts, PullAt, ItemChunk, MakeChunk, EndsWith, EndsInBoth, Story,
         Position, Rejection, Bounds;
    StoryFrame(s, StoppedWatching(s));
    BoundsFrame(s, StoppedWatching(s));
  }

  lemma ConsumerTakeKeeps(s: State)
    requires Inv(s) && Enabled(s, ConsumerTake)
    ensures Inv(Taken(s)) && SameCall(s, Taken(s))
  {
    hide Conserved, Chunks, Without, ItemsBuilt, AnyFinal, SentinelWithin, HasStop, HasFailure, AllData,
         Exhausted, Broken, Throws, Aborts, PullAt, ItemChunk, MakeChunk, EndsWith, EndsInBoth, Story,
         Position, Rejection, Bounds;
    BoundsFrame(s, Taken(s));
    TakeStops(s.sh.queue);
    if s.fired && !s.sh.queue[0].Sentinel? {
      SentinelComesCloser(s.sh.queue, s.capacity - 1 - s.takenAfterFire);
    }
    StoryFrame(s, Taken(s));
    TakeEnds(s.sh.queue);
    TakeConserves(s.yielded, s.sh.queue, Pending(s), s.abandoned, s.built, s.evicted);
    if !s.fired && !s.sh.queue[0].Data? {
      assert Pending(s) == [] && s.abandoned == [] && s.evicted.None?;
      AllYielded(s.yielded, s.sh.queue[1..], s.built);
    }
  }

  lemma ConsumerAbortKeeps(s: State)
    requires Inv(s) && Enabled(s, ConsumerAbort)
    ensures Inv(Leave(s, Errored)) && SameCall(s, Leave(s, Errored))
  {
    hide Conserved, Chunks, Without, ItemsBuilt, AnyFinal, SentinelWithin, HasStop, HasFailure, AllData,
         Exhausted, Broken, Throws, Aborts, PullAt, ItemChunk, MakeChunk, EndsWith, EndsInBoth, Story,
         Position, Rejection, Bounds;
    StoryFrame(s, Leave(s, Errored));
    BoundsFrame(s, Leave(s, Errored));
  }

  lemma ConsumerFinishKeeps(s: State)
    requires Inv(s) && Enabled(s, ConsumerFinish)
    ensures Inv(Done(s)) && SameCall(s, Done(s))
  {
    hide Conserved, Chunks, Without, ItemsBuilt, AnyFinal, SentinelWithin, HasStop, HasFailure, AllData,
         Exhausted, Broken, Throws, Aborts, PullAt, ItemChunk, MakeChunk, EndsWith, EndsInBoth, Story,
         Position, Rejection, Bounds;
    StoryFrame(s, Done(s));
    BoundsFrame(s, Done(s));
  }

  lemma DisconnectKeeps(s: State)
    requires Inv(s) && Enabled(s, Disconnect)
    ensures Inv(Disconnected(s)) && SameCall(s, Disconnected(s))
  {
    hide Conserved, Chunks, Without, ItemsBuilt, AnyFinal, SentinelWithin, HasStop, HasFailure, AllData,
         Exhausted, Broken, Throws, Aborts, PullAt, ItemChunk, MakeChunk, EndsWith, EndsInBoth, Story,
         Position, Rejection, Bounds;
    StoryFrame(s, Disconnected(s));
    BoundsFrame(s, Disconnected(s));
  }

  lemma EarlyCloseKeeps(s: State)
    requires Inv(s) && Enabled(s, EarlyClose)
    ensures Inv(Leave(s, Closed)) && SameCall(s, Leave(s, Closed))
  {
    hide Conserved, Chunks, Without, ItemsBuilt, AnyFinal, SentinelWithin, HasStop, HasFailure, AllData,
         Exhausted, Broken, Throws, Aborts, PullAt, ItemChunk, MakeChunk, EndsWith, EndsInBoth, Story,
         Position, Rejection, Bounds;
    StoryFrame(s, Leave(s, Closed));
    BoundsFrame(s, Leave(s, Closed));
  }
}
