/**
 The streaming call as a state machine: a producer task, the thread that drains a
 synchronous iterator, a disconnect watcher and a consumer, which share a bounded queue.

 A step is the code that runs between two awaits (or, on the drain thread, between two
 blocking calls).  Every await is a possible switch point, so each step may be followed by a
 step of any other party.
 */
module StreamMachine {
  import opened Common
  import opened StreamQueue

  /** How an iterator ends: it is exhausted, it raises an `Exception`, or it raises
      `CancelledError`, as a tool does whose own awaited task was cancelled. */
  datatype Ending = Returns | Raises | Cancels

  /** What the tool's iterator produces. */
  datatype Source =
    | Finite(items: seq<ToolItem>, ending: Ending)
    | Endless(item: nat -> ToolItem)

  datatype Pull = Got(item: ToolItem) | Stopped | Raised | Aborted

  function PullAt(src: Source, i: nat): Pull {
    match src
    case Finite(items, ending) =>
      if i < |items| then Got(items[i])
      else if ending.Returns? then Stopped
      else if ending.Raises? then Raised
      else Aborted
    case Endless(item) => Got(item(i))
  }

  /** The chunk that item `i` of the source becomes, if there is such an item and it is not
      rejected. */
  function ItemChunk(src: Source, i: nat): Option<Chunk> {
    var pull := PullAt(src, i);
    if pull.Got? then MakeChunk(i + 1, Unpack(pull.item)) else None
  }

  /** How `produce_chunks` reads the value that the tool returned. */
  datatype Mode = AsyncIterator | SyncIterator | PlainValue

  /** What the producer does once its pending put has gone through. */
  datatype After = ThenDrain | ThenFinish | ThenSeal | ThenFail | ThenDone

  datatype ProducerPc =
    | PStart                                 // about to start the drain thread
    | PDraining                              // pulling, or waiting for the drain thread
    | PPutting(item: QItem, after: After)    // inside `await queue.put(item)`
    | PFinishing                             // at the head of the `else` branch
    | PSealing                               // about to decide on the sentinel
    | PDone

  datatype ThreadPc =
    | TIdle
    | TPulling
    | TBuilding(item: ToolItem)   // passed the `cancelled` check, enqueue submitted to the loop
    | TPutting(chunk: Chunk)
    | TFailing                    // the submitted enqueue raised
    | TDone(how: Ending)

  datatype Exit = Ended | Errored | Closed

  datatype ConsumerPc = CReading | CAborting | CLeaving(exit: Exit) | CDone(exit: Exit)

  datatype State = State(
    // fixed for the call
    capacity: nat,
    mode: Mode,
    src: Source,
    // shared between the parties
    sh: Shared,
    active: bool,               // context.is_active()
    // one program counter per party
    producer: ProducerPc,
    thread: ThreadPc,
    watching: bool,
    consumer: ConsumerPc,
    pulled: nat,                // position of the iterator
    // history
    built: seq<Chunk>,
    yielded: seq<Chunk>,
    evicted: Option<nat>,       // index in `built` of the chunk the watcher dropped
    abandoned: seq<Chunk>,      // chunk whose put was cancelled by the teardown
    synthesized: bool,          // the last chunk built is the producer's own final chunk
    rejected: bool,             // some item was rejected
    failed: bool,               // the drain thread gave up and set `cancelled`
    raised: bool,               // the producer took its exception branch
    quit: bool,                 // the producer ended on a cancellation that the source raised
    sealed: bool,               // the producer decided on the sentinel
    fired: bool,                // the watcher saw the disconnect
    takenAfterFire: nat,        // items, other than a sentinel, read after that
    pullsAfterCancel: nat,
    buildsAfterCancel: nat)

  predicate Leaving(s: State) {
    s.consumer.CLeaving? || s.consumer.CDone?
  }

  function Init(capacity: nat, mode: Mode, src: Source): State {
    State(capacity, mode, src, Shared([], false, 0, false), true,
          if mode.SyncIterator? then PStart else PDraining, TIdle, true, CReading, 0,
          [], [], None, [], false, false, false, false, false, false, false, 0, 0, 0)
  }

  /** A call that `produce_chunks` can meet: a plain value is a source of one item. */
  predicate Legal(capacity: nat, mode: Mode, src: Source) {
    && capacity >= 1
    && (mode.PlainValue? ==> src.Finite? && |src.items| == 1 && src.ending.Returns?)
  }

  datatype Step =
    | ProducerStart
    | ProducerPull
    | ProducerJoin
    | ProducerPut
    | ProducerFinish
    | ProducerSeal
    | ProducerCancelled
    | ThreadPull
    | ThreadBuild
    | ThreadPut
    | ThreadFail
    | WatcherFire
    | WatcherStop
    | ConsumerTake
    | ConsumerAbort
    | ConsumerFinish
    | Disconnect      // the client goes away
    | EarlyClose      // the response stream is closed or its task cancelled

  /** The steps that only the outside world can take. */
  predicate External(step: Step) {
    step.Disconnect? || step.EarlyClose?
  }

  predicate Room(s: State) {
    |s.sh.queue| < s.capacity
  }

  predicate Enabled(s: State, step: Step) {
    match step
    case ProducerStart => s.producer.PStart? && !Leaving(s)
    case ProducerPull => s.producer.PDraining? && !s.mode.SyncIterator? && !Leaving(s)
    case ProducerJoin => s.producer.PDraining? && s.mode.SyncIterator? && s.thread.TDone? && !Leaving(s)
    case ProducerPut => s.producer.PPutting? && Room(s) && !Leaving(s)
    case ProducerFinish => s.producer.PFinishing? && !Leaving(s)
    case ProducerSeal => s.producer.PSealing? && !Leaving(s)
    case ProducerCancelled => !s.producer.PDone? && Leaving(s)
    case ThreadPull => s.thread.TPulling?
    case ThreadBuild => s.thread.TBuilding?
    case ThreadPut => s.thread.TPutting? && Room(s)
    case ThreadFail => s.thread.TFailing?
    case WatcherFire => s.watching && !s.sh.cancelled && !s.active
    case WatcherStop => s.watching && s.sh.cancelled
    case ConsumerTake => s.consumer.CReading? && s.sh.queue != []
    case ConsumerAbort => s.consumer.CAborting?
    case ConsumerFinish => s.consumer.CLeaving? && s.producer.PDone? && !s.watching
    case Disconnect => s.active
    case EarlyClose => s.consumer.CReading? || s.consumer.CAborting?
  }

  function Enqueue(s: State, item: QItem): State {
    s.(sh := s.sh.(queue := s.sh.queue + [item]))
  }

  /** The producer pulls an item of an asynchronous iterator, or takes the plain value, and
      builds its chunk; it is then at its `queue.put`.  A source that raises and a payload that
      is rejected both take it to its exception branch; a `CancelledError` of the source ends it
      with nothing queued.  The asynchronous loop drops what it pulled once `cancelled` is set. */
  function Pulled(s: State): State
    requires Enabled(s, ProducerPull)
  {
    var pull := PullAt(s.src, s.pulled);
    var builds := pull.Got? && !(s.mode.AsyncIterator? && s.sh.cancelled);
    var chunk := if builds then MakeChunk(s.sh.counter + 1, Unpack(pull.item)) else None;
    var breaks := pull.Raised? || (builds && chunk.None?);
    s.(pulled := s.pulled + (if pull.Got? then 1 else 0),
       pullsAfterCancel := s.pullsAfterCancel + (if pull.Got? && s.sh.cancelled then 1 else 0),
       sh := if builds then AfterBuild(s.sh, Unpack(pull.item)) else s.sh,
       rejected := s.rejected || (builds && chunk.None?),
       built := if chunk.Some? then s.built + [chunk.value] else s.built,
       buildsAfterCancel := s.buildsAfterCancel + (if chunk.Some? && s.sh.cancelled then 1 else 0),
       raised := s.raised || breaks,
       quit := s.quit || pull.Aborted?,
       producer :=
         if breaks then PPutting(Failure, ThenFail)
         else if pull.Aborted? then PDone
         else if chunk.Some? then
           PPutting(Data(chunk.value), if s.mode.PlainValue? then ThenFinish else ThenDrain)
         else PFinishing)
  }

  function AfterPut(after: After): ProducerPc {
    match after
    case ThenDrain => PDraining
    case ThenFinish => PFinishing
    case ThenSeal => PSealing
    case ThenFail => PPutting(Sentinel, ThenDone)
    case ThenDone => PDone
  }

  function ThreadPulled(s: State): State
    requires Enabled(s, ThreadPull)
  {
    var pull := PullAt(s.src, s.pulled);
    s.(thread := match pull {
         case Stopped => TDone(Returns)
         case Raised => TDone(Raises)
         case Aborted => TDone(Cancels)
         case Got(item) => if s.sh.cancelled then TDone(Returns) else TBuilding(item)
       },
       pulled := s.pulled + (if pull.Got? then 1 else 0),
       pullsAfterCancel := s.pullsAfterCancel + (if pull.Got? && s.sh.cancelled then 1 else 0))
  }

  /** The loop runs the enqueue that the thread submitted, up to its `queue.put`. */
  function ThreadBuilt(s: State): State
    requires Enabled(s, ThreadBuild)
  {
    var u := Unpack(s.thread.item);
    var chunk := MakeChunk(s.sh.counter + 1, u);
    s.(sh := AfterBuild(s.sh, u),
       rejected := s.rejected || chunk.None?,
       built := if chunk.Some? then s.built + [chunk.value] else s.built,
       buildsAfterCancel := s.buildsAfterCancel + (if chunk.Some? && s.sh.cancelled then 1 else 0),
       thread := if chunk.None? then TFailing else TPutting(chunk.value))
  }

  function Fired(s: State): State
    requires Enabled(s, WatcherFire)
  {
    var drops := !Room(s) && s.sh.queue != [] && s.sh.queue[0].Data?;
    s.(sh := s.sh.(queue := Forced(s.sh.queue, s.capacity), cancelled := true),
       watching := false,
       fired := true,
       evicted := if drops then Some(|s.yielded|) else s.evicted)
  }

  /** The consumer reads one item: a chunk is yielded; the sentinel starts the teardown; a
      failure signals cancellation before the call is aborted.  Both stops set `cancelled`. */
  function Taken(s: State): State
    requires Enabled(s, ConsumerTake)
  {
    var item := s.sh.queue[0];
    s.(sh := s.sh.(queue := s.sh.queue[1..], cancelled := s.sh.cancelled || !item.Data?),
       consumer := if item.Sentinel? then CLeaving(Ended) else if item.Failure? then CAborting else CReading,
       yielded := s.yielded + (if item.Data? then [item.chunk] else []),
       takenAfterFire := s.takenAfterFire + (if s.fired && !item.Sentinel? then 1 else 0))
  }

  /** The teardown (`finally`) starts: it sets `cancelled` and cancels both tasks, so a task
      that has not ended takes no step but its own end. */
  function Leave(s: State, exit: Exit): State {
    s.(consumer := CLeaving(exit), sh := s.sh.(cancelled := true))
  }

  function Started(s: State): State {
    s.(producer := PDraining, thread := TPulling)
  }

  /** The producer goes on as the drain thread ended. */
  function Joined(s: State): State
    requires Enabled(s, ProducerJoin)
  {
    s.(producer := match s.thread.how {
         case Returns => PFinishing
         case Raises => PPutting(Failure, ThenFail)
         case Cancels => PDone
       },
       raised := s.raised || s.thread.how.Raises?,
       quit := s.quit || s.thread.how.Cancels?)
  }

  function ProducerHasPut(s: State): State
    requires Enabled(s, ProducerPut)
  {
    Enqueue(s, s.producer.item).(producer := AfterPut(s.producer.after))
  }

  /** The `else` branch adds the final chunk unless one was marked or the call is cancelled. */
  function Finished(s: State): State {
    var adds := !s.sh.markedFinal && !s.sh.cancelled;
    var chunk := FinalChunk(s.sh.counter + 1);
    s.(sh := if adds then AfterBuild(s.sh, CLOSING) else s.sh,
       built := if adds then s.built + [chunk] else s.built,
       buildsAfterCancel := s.buildsAfterCancel + (if adds && s.sh.cancelled then 1 else 0),
       synthesized := s.synthesized || adds,
       producer := if adds then PPutting(Data(chunk), ThenSeal) else PSealing)
  }

  function Sealed(s: State): State {
    s.(producer := if s.sh.cancelled then PDone else PPutting(Sentinel, ThenDone),
       sealed := s.sealed || !s.sh.cancelled)
  }

  function PendingPut(pc: ProducerPc): seq<Chunk> {
    if pc.PPutting? && pc.item.Data? then [pc.item.chunk] else []
  }

  function Cancelled(s: State): State {
    s.(producer := PDone, abandoned := s.abandoned + PendingPut(s.producer))
  }

  function ThreadHasPut(s: State): State
    requires Enabled(s, ThreadPut)
  {
    Enqueue(s, Data(s.thread.chunk)).(thread := TPulling)
  }

  function GaveUp(s: State): State {
    s.(thread := TDone(Returns), failed := true, sh := s.sh.(cancelled := true))
  }

  function StoppedWatching(s: State): State {
    s.(watching := false)
  }

  function Done(s: State): State
    requires Enabled(s, ConsumerFinish)
  {
    s.(consumer := CDone(s.consumer.exit))
  }

  function Disconnected(s: State): State {
    s.(active := false)
  }

  function Apply(s: State, step: Step): State
    requires Enabled(s, step)
  {
    match step
    case ProducerStart => Started(s)
    case ProducerPull => Pulled(s)
    case ProducerJoin => Joined(s)
    case ProducerPut => ProducerHasPut(s)
    case ProducerFinish => Finished(s)
    case ProducerSeal => Sealed(s)
    case ProducerCancelled => Cancelled(s)
    case ThreadPull => ThreadPulled(s)
    case ThreadBuild => ThreadBuilt(s)
    case ThreadPut => ThreadHasPut(s)
    case ThreadFail => GaveUp(s)
    case WatcherFire => Fired(s)
    case WatcherStop => StoppedWatching(s)
    case ConsumerTake => Taken(s)
    case ConsumerAbort => Leave(s, Errored)
    case ConsumerFinish => Done(s)
    case Disconnect => Disconnected(s)
    case EarlyClose => Leave(s, Closed)
  }

  /** `steps` can be taken one after the other from `s`. */
  predicate CanRun(s: State, steps: seq<Step>)
    decreases |steps|
  {
    steps == [] || (Enabled(s, steps[0]) && CanRun(Apply(s, steps[0]), steps[1..]))
  }

  function Run(s: State, steps: seq<Step>): State
    requires CanRun(s, steps)
    decreases |steps|
  {
    if steps == [] then s else Run(Apply(s, steps[0]), steps[1..])
  }
}
