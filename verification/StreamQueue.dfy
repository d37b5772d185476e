/**
 The state that the closures of `ExecuteStreamingTool` share, and the code that changes it:
 the bounded queue, the `cancelled` event, the chunk counter and the final-chunk flag.

 `Shared` and the functions on it are the specification; `StreamCall` is the object that
 changes the same state in place.
 */
module StreamQueue {
  import opened Common

  type Bytes = seq<bv8>

  /** A payload as the tool hands it over.  The result of the foreign encoders is part of
      the value: `None` stands for a payload that `str.encode` or `json.dumps` rejects. */
  datatype Payload =
    | NoPayload
    | Binary(bytes: Bytes)
    | Text(utf8: Option<Bytes>)
    | Other(json: Option<Bytes>)

  /** The metadata of an item as text; `None` stands for entries that `str` or the message
      rejects, such as a value that is no valid UTF-8 text. */
  type Metadata = Option<map<string, string>>

  /** One item of the tool's iterator: the object itself and the attributes it may have. */
  datatype ToolItem = ToolItem(
    self: Payload,
    data: Option<Payload>,
    isFinal: Option<bool>,
    metadata: Option<Metadata>)

  datatype Unpacked = Unpacked(payload: Payload, isFinal: bool, metadata: Metadata)

  datatype Chunk = Chunk(id: nat, data: Bytes, isFinal: bool, metadata: map<string, string>)

  datatype QItem = Data(chunk: Chunk) | Failure | Sentinel

  datatype Shared = Shared(queue: seq<QItem>, cancelled: bool, counter: nat, markedFinal: bool)

  function EncodePayload(p: Payload): Option<Bytes> {
    match p
    case NoPayload => Some([])
    case Binary(b) => Some(b)
    case Text(u) => u
    case Other(j) => j
  }

  function Unpack(item: ToolItem): Unpacked {
    Unpacked(
      if item.data.Some? then item.data.value else item.self,
      item.isFinal.Some? && item.isFinal.value,
      if item.metadata.Some? then item.metadata.value else Some(map[]))
  }

  /** The chunk numbered `id`, unless its payload or its metadata is rejected. */
  function MakeChunk(id: nat, u: Unpacked): Option<Chunk> {
    var data := EncodePayload(u.payload);
    if data.None? || u.metadata.None? then None
    else Some(Chunk(id, data.value, u.isFinal, u.metadata.value))
  }

  /** The item has something that the encoders or the message reject. */
  predicate Rejected(item: ToolItem) {
    var payload := if item.data.None? then item.self else item.data.value;
    payload == Text(None) || payload == Other(None) || item.metadata == Some(None)
  }

  /** What the client is to find in chunk `id`: the bytes of the item's data, or of the item itself
      if it has no such attribute, with its flag and its metadata. */
  predicate Carries(c: Chunk, id: nat, item: ToolItem) {
    && c.id == id
    && (match if item.data.None? then item.self else item.data.value
        case NoPayload => c.data == []
        case Binary(bytes) => c.data == bytes
        case Text(utf8) => Some(c.data) == utf8
        case Other(json) => Some(c.data) == json)
    && (c.isFinal <==> item.isFinal == Some(true))
    && (if item.metadata.None? then c.metadata == map[] else item.metadata == Some(Some(c.metadata)))
  }

  /** An item becomes the chunk that carries it, unless it is rejected. */
  lemma ChunkCarriesItem(id: nat, item: ToolItem)
    ensures MakeChunk(id, Unpack(item)).None? <==> Rejected(item)
    ensures forall c :: MakeChunk(id, Unpack(item)) == Some(c) ==> Carries(c, id, item)
  {
  }

  /** The data by the kind of the payload, and the defaults of an item without attributes. */
  lemma ChunkByKind(id: nat, p: Payload, bytes: Bytes, isFinal: bool, metadata: map<string, string>)
    requires p in {Binary(bytes), Text(Some(bytes)), Other(Some(bytes))}
    ensures MakeChunk(id, Unpack(ToolItem(NoPayload, Some(p), Some(isFinal), Some(Some(metadata))))) ==
            Some(Chunk(id, bytes, isFinal, metadata))
    ensures MakeChunk(id, Unpack(ToolItem(p, None, None, None))) == Some(Chunk(id, bytes, false, map[]))
    ensures MakeChunk(id, Unpack(ToolItem(NoPayload, None, None, None))) == Some(Chunk(id, [], false, map[]))
  {
  }

  /** The chunk that the producer adds when the tool marked none as final. */
  function FinalChunk(id: nat): Chunk {
    Chunk(id, [], true, map[])
  }

  const CLOSING: Unpacked := Unpacked(NoPayload, true, Some(map[]))

  /** `build_chunk(None, is_final=True)` cannot fail. */
  lemma ClosingChunk(id: nat)
    ensures MakeChunk(id, CLOSING) == Some(FinalChunk(id))
  {
  }

  /** The shared state after one call of `build_chunk`; the counter moves even when the
      payload or the metadata is rejected. */
  function AfterBuild(sh: Shared, u: Unpacked): Shared {
    var chunk := MakeChunk(sh.counter + 1, u);
    sh.(counter := sh.counter + 1,
        markedFinal := sh.markedFinal || (chunk.Some? && u.isFinal))
  }

  /** The queue after the watcher forced its sentinel in. */
  function Forced(queue: seq<QItem>, capacity: nat): seq<QItem> {
    if |queue| < capacity || queue == [] then queue + [Sentinel] else queue[1..] + [Sentinel]
  }

  class StreamCall {
    const capacity: nat
    var queue: seq<QItem>
    var cancelled: bool
    var chunkIdCounter: nat
    var markedFinal: bool

    ghost predicate Valid()
      reads this
    {
      capacity >= 1 && |queue| <= capacity
    }

    ghost function Snapshot(): Shared
      reads this
    {
      Shared(queue, cancelled, chunkIdCounter, markedFinal)
    }

    constructor (capacity: nat)
      requires capacity >= 1
      ensures Valid() && this.capacity == capacity
      ensures Snapshot() == Shared([], false, 0, false)
    {
      this.capacity := capacity;
      queue, cancelled, chunkIdCounter, markedFinal := [], false, 0, false;
    }

    method BuildChunk(u: Unpacked) returns (chunk: Option<Chunk>)
      requires Valid()
      modifies this
      ensures Valid() && Snapshot() == AfterBuild(old(Snapshot()), u)
      ensures chunk == MakeChunk(old(chunkIdCounter) + 1, u)
    {
      chunkIdCounter := chunkIdCounter + 1;
      var data := EncodePayload(u.payload);
      if data.None? {
        return None;
      }
      if u.metadata.None? {
        return None;
      }
      chunk := Some(Chunk(chunkIdCounter, data.value, u.isFinal, u.metadata.value));
      if u.isFinal {
        markedFinal := true;
      }
    }

    method PutNowait(item: QItem) returns (ok: bool)
      requires Valid()
      modifies this`queue
      ensures Valid() && ok == (|old(queue)| < capacity)
      ensures queue == if ok then old(queue) + [item] else old(queue)
    {
      ok := |queue| < capacity;
      if ok {
        queue := queue + [item];
      }
    }

    method GetNowait() returns (item: Option<QItem>)
      requires Valid()
      modifies this`queue
      ensures Valid() && item.Some? == (old(queue) != [])
      ensures item.Some? ==> old(queue) == [item.value] + queue
      ensures item.None? ==> queue == []
    {
      if queue == [] {
        return None;
      }
      item := Some(queue[0]);
      queue := queue[1..];
    }

    /** The body of `watch_disconnect` once the context is inactive: it signals cancellation
        and evicts buffered items until its sentinel fits. */
    method ForceSentinel()
      requires Valid()
      modifies this`queue, this`cancelled
      ensures Valid()
      ensures Snapshot() == old(Snapshot()).(queue := Forced(old(queue), capacity), cancelled := true)
    {
      cancelled := true;
      var fits := PutNowait(Sentinel);
      while !fits
        invariant Valid() && cancelled
        invariant if fits then queue == Forced(old(queue), capacity)
                  else queue == old(queue) && |queue| == capacity
        decreases !fits
      {
        var evicted := GetNowait();
        if evicted.None? {
          break;
        }
        fits := PutNowait(Sentinel);
      }
    }
  }

  /** Eviction costs the queue its oldest item and nothing else, and leaves the sentinel
      within the consumer's next `capacity` reads. */
  lemma ForcedKeepsTheRest(queue: seq<QItem>, capacity: nat)
    requires 1 <= capacity && |queue| <= capacity
    ensures |Forced(queue, capacity)| <= capacity
    ensures Forced(queue, capacity)[|Forced(queue, capacity)| - 1] == Sentinel
    ensures |queue| < capacity ==> queue <= Forced(queue, capacity)
    ensures |queue| == capacity ==> [queue[0]] + Forced(queue, capacity) == queue + [Sentinel]
  {
  }
}
