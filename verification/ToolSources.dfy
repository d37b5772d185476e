/**
 The showcase generators that feed the streaming pipeline, and what the pipeline makes of them.
 The data and the timing of their chunks are left out: `encode` stands for building the
 payload of a chunk and turning it into JSON.
 */
module ToolSources {
  import opened Common
  import opened StreamQueue
  import opened StreamMachine
  import opened StreamInvariant
  import opened StreamSafety

  type Encoder = int -> Bytes

  /** `StreamChunk(data, is_final)` */
  function StreamChunk(data: Bytes, isFinal: bool): ToolItem {
    ToolItem(NoPayload, Some(Other(Some(data))), Some(isFinal), None)
  }

  /** The items are those of a generator that yields `data` and flags its last item. */
  predicate Yields(items: seq<ToolItem>, data: seq<Bytes>) {
    |items| == |data| && forall i :: 0 <= i < |items| ==> items[i] == StreamChunk(data[i], i == |items| - 1)
  }

  function Max(a: int, b: int): int {
    if a <= b then b else a
  }

  /** `stream_data` and `stream_progress`: one chunk per step, the last one final. */
  method CountedStream(count: int, encode: Encoder) returns (items: seq<ToolItem>)
    ensures Yields(items, seq(Max(count, 0), i => encode(i + 1)))
  {
    items := [];
    var i := 0;
    while i < count
      invariant |items| == i && (i <= count || i == 0)
      invariant forall j :: 0 <= j < i ==> items[j] == StreamChunk(encode(j + 1), j == count - 1)
    {
      items := items + [StreamChunk(encode(i + 1), i == count - 1)];
      i := i + 1;
    }
  }

  function Fib(n: nat): nat {
    if n < 2 then n else Fib(n - 2) + Fib(n - 1)
  }

  lemma FibStep(n: nat)
    ensures Fib(0) == 0 && Fib(1) == 1 && Fib(n + 2) == Fib(n) + Fib(n + 1)
  {
  }

  /** `stream_fibonacci`: chunk i carries the i-th Fibonacci number. */
  method FibonacciStream(count: int, encode: Encoder) returns (items: seq<ToolItem>)
    ensures Yields(items, seq(Max(count, 0), i requires 0 <= i => encode(Fib(i))))
  {
    hide Fib;
    items := [];
    var a, b := 0, 1;
    var i := 0;
    FibStep(0);
    while i < count
      invariant |items| == i && (i <= count || i == 0)
      invariant a == Fib(i) && b == Fib(i + 1)
      invariant forall j :: 0 <= j < i ==> items[j] == StreamChunk(encode(Fib(j)), j == count - 1)
    {
      items := items + [StreamChunk(encode(a), i == count - 1)];
      FibStep(i);
      a, b := b, a + b;
      i := i + 1;
    }
  }

  function Total(sizes: seq<int>): int {
    if sizes == [] then 0 else Total(sizes[..|sizes| - 1]) + sizes[|sizes| - 1]
  }

  /** `generate_dataset`: the sizes of the chunks, the chunks, and whether the generator raises.
      With a chunk size below one it does so on its first chunk, which has no first row. */
  method GenerateDataset(rows: int, chunkSize: int, encode: Encoder)
    returns (items: seq<ToolItem>, sizes: seq<int>, ending: Ending)
    ensures ending == if rows > 0 && chunkSize < 1 then Raises else Returns
    ensures ending.Raises? ==> items == []
    ensures Yields(items, seq(|sizes|, i requires 0 <= i < |sizes| => encode(sizes[i])))
    ensures ending.Returns? ==> Total(sizes) == if rows > 0 then rows else 0
    ensures forall i :: 0 <= i < |sizes| ==> 1 <= sizes[i] <= chunkSize
    ensures forall i :: 0 <= i < |sizes| - 1 ==> sizes[i] == chunkSize
    ensures ending.Returns? && rows > 0 ==> (|sizes| - 1) * chunkSize < rows <= |sizes| * chunkSize
  {
    items, sizes := [], [];
    ending := Returns;
    var totalSent := 0;
    while totalSent < rows
      invariant |items| == |sizes| && Total(sizes) == totalSent
      invariant 0 <= totalSent && (totalSent <= rows || totalSent == 0)
      invariant totalSent > 0 ==> chunkSize >= 1
      invariant forall i :: 0 <= i < |sizes| ==> 1 <= sizes[i] <= chunkSize
      invariant forall i :: 0 <= i < |sizes| - 1 ==> sizes[i] == chunkSize
      invariant totalSent < rows ==> totalSent == |sizes| * chunkSize
      invariant totalSent > 0 ==> (|sizes| - 1) * chunkSize < totalSent <= |sizes| * chunkSize
      invariant totalSent < rows ==> |sizes| > 0 ==> sizes[|sizes| - 1] == chunkSize
      invariant sizes == [] <==> totalSent == 0
      invariant forall i :: 0 <= i < |items| ==>
                  items[i] == StreamChunk(encode(sizes[i]), i == |items| - 1 && totalSent >= rows)
    {
      var rowsInChunk := if chunkSize <= rows - totalSent then chunkSize else rows - totalSent;
      if rowsInChunk < 1 {
        ending := Raises;
        assert totalSent == 0;
        return;
      }
      assert (|sizes| + 1) * chunkSize == |sizes| * chunkSize + chunkSize;
      totalSent := totalSent + rowsInChunk;
      assert (sizes + [rowsInChunk])[..|sizes|] == sizes;
      sizes := sizes + [rowsInChunk];
      items := items + [StreamChunk(encode(rowsInChunk), totalSent >= rows)];
    }
  }

  /** End to end: what such a generator yields, run through an undisturbed pipeline, reaches the
      client in full, byte for byte and numbered, with exactly one final chunk, in last place; if
      there is nothing to yield, that chunk is the producer's own. */
  lemma OneFinalChunkAtTheEnd(
    capacity: nat, mode: Mode, items: seq<ToolItem>, data: seq<Bytes>, s: State)
    requires Yields(items, data)
    requires Reachable(capacity, mode, Finite(items, Returns), s)
    requires s.consumer.CDone? && !s.consumer.exit.Closed? && !s.fired
    ensures s.consumer.exit == Ended
    ensures s.yielded == if data == [] then [Chunk(1, [], true, map[])]
                         else seq(|data|, i requires 0 <= i < |data| =>
                                    Chunk(i + 1, data[i], i == |data| - 1, map[]))
  {
    hide Reachable;
    RefinesReference(capacity, mode, Finite(items, Returns), s);
    ReferenceOf(items, data, []);
  }

  function ChunkOf(data: seq<Bytes>, i: nat): Chunk
    requires i < |data|
  {
    Chunk(i + 1, data[i], i == |data| - 1, map[])
  }

  /** The sequential loop over such items. */
  lemma {:induction false} ReferenceOf(items: seq<ToolItem>, data: seq<Bytes>, sent: seq<Chunk>)
    requires Yields(items, data) && |sent| <= |data|
    requires forall i :: 0 <= i < |sent| ==> sent[i] == ChunkOf(data, i)
    ensures Reference(items, Returns, sent) ==
            (if data == [] then [FinalChunk(1)]
             else seq(|data|, i requires 0 <= i < |data| => ChunkOf(data, i)), Ended)
    decreases |items| - |sent|
  {
    if |sent| < |items| {
      ReferenceOf(items, data, sent + [ChunkOf(data, |sent|)]);
    } else if data == [] {
      assert sent == [] && Final(sent) == [FinalChunk(1)];
    } else {
      assert sent[|data| - 1].isFinal && Final(sent) == sent;
      assert sent == seq(|data|, i requires 0 <= i < |data| => ChunkOf(data, i));
    }
  }
}
