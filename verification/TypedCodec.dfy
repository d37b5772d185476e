/**
 `TypeSerializer`: a value and a type name become a message, by one of two wire paths, and the
 message becomes a value again.  JSON text and pickle bytes stand for the values that they were
 made of; what a JSON library does to numbers and to nesting is modelled.
 */
module TypedCodec {
  import opened Common
  import opened GracefulEncoder
  import opened PyValues
  import opened TypeUrls

  datatype NdArray = NdArray(shape: seq<int>, o: Object)

  datatype Value = Plainly(v: Py) | Array(a: NdArray) | ZeroCopyRef(payload: seq<Entry>)

  datatype Error = ExpectedOther | CannotConvert | CannotWrite | NotSupported

  /** A JSON library: whether it writes floats that are not finite as null, as `orjson` does; the
      integers it accepts, which for `orjson` have 64 bits, and for the standard library a limited
      number of digits; and how deeply it lets lists and dictionaries be nested. */
  datatype Lib = Lib(nulls: bool, acceptsInt: int -> bool, depth: nat)

  /** The same library, one level down. */
  function Inside(lib: Lib): Lib
    requires lib.depth > 0
  {
    lib.(depth := lib.depth - 1)
  }

  /** The library, the policy for objects, and the foreign conversions, which may raise. */
  datatype Env = Env(
    lib: Lib,
    policy: Policy,
    str: Value -> string,
    toFloat: Py -> Option<Float>,
    toInt: Py -> Option<int>,
    reshape: (Py, Py) -> Option<NdArray>)

  /** The message, and the optional binary data that goes with it. */
  datatype Message = Message(typeUrl: string, json: Json, binary: Option<Py>)

  const BINARY_THRESHOLD := 10_240

  const ZERO_COPY_KEY := "__snakepit_zero_copy__"

  // What the JSON library writes.

  predicate Writable(j: Json, lib: Lib)
    decreases j, 1
  {
    match j
    case JInt(i) => lib.acceptsInt(i)
    case JList(items) => lib.depth > 0 && WritableItems(items, Inside(lib))
    case JDict(entries) => lib.depth > 0 && WritableEntries(entries, Inside(lib))
    case _ => true
  }

  /** Writable as a part of a list or dictionary. */
  predicate WritableInside(j: Json, lib: Lib) {
    lib.depth > 0 && Writable(j, Inside(lib))
  }

  predicate WritableItems(items: seq<Json>, lib: Lib)
    decreases items, 0
  {
    items == [] || (Writable(items[0], lib) && WritableItems(items[1..], lib))
  }

  predicate WritableEntries(entries: seq<JEntry>, lib: Lib)
    decreases entries, 0
  {
    entries == [] || (Writable(entries[0].value, lib) && WritableEntries(entries[1..], lib))
  }

  function Written(j: Json, nulls: bool): Json
    decreases j, 1
  {
    match j
    case JFloat(f) => if nulls && !f.Finite? then JNull else j
    case JList(items) => JList(WrittenItems(items, nulls))
    case JDict(entries) => JDict(WrittenEntries(entries, nulls))
    case _ => j
  }

  function WrittenItems(items: seq<Json>, nulls: bool): seq<Json>
    decreases items, 0
  {
    if items == [] then [] else [Written(items[0], nulls)] + WrittenItems(items[1..], nulls)
  }

  function WrittenEntries(entries: seq<JEntry>, nulls: bool): (r: seq<JEntry>)
    ensures |r| == |entries|
    ensures forall i :: 0 <= i < |entries| ==> r[i] == JEntry(entries[i].key, Written(entries[i].value, nulls))
    decreases entries, 0
  {
    if entries == [] then []
    else [JEntry(entries[0].key, Written(entries[0].value, nulls))] + WrittenEntries(entries[1..], nulls)
  }

  function Dumps(v: Py, e: Env): Result<Json, Error> {
    var j := Encode(v, e.policy);
    if Writable(j, e.lib) then Ok(Written(j, e.lib.nulls)) else Err(CannotWrite)
  }

  // Normalizing.

  predicate IsNumber(v: Value) {
    v.Plainly? && (v.v.PyBool? || v.v.PyInt? || v.v.PyFloat?)
  }

  /** `float(v)`. */
  function FloatOf(v: Py, e: Env): Option<Float> {
    if v.PyFloat? then Some(v.f) else e.toFloat(v)
  }

  function FloatsOf(items: seq<Py>, e: Env): Result<seq<Py>, Error> {
    if items == [] then Ok([])
    else
      var first :- Converted(FloatOf(items[0], e));
      var rest :- FloatsOf(items[1..], e);
      Ok([PyFloat(first)] + rest)
  }

  function Truncated(r: real): int {
    if r >= 0.0 then r.Floor else -(-r).Floor
  }

  /** `int(v)`. */
  function IntOf(v: Py, e: Env): Option<int> {
    match v
    case PyInt(i) => Some(i)
    case PyBool(b) => Some(if b then 1 else 0)
    case PyFloat(f) => if f.Finite? then Some(Truncated(f.value)) else None
    case _ => e.toInt(v)
  }

  /** `str(v)`. */
  function StrOf(v: Value, e: Env): string {
    if v.Plainly? && v.v.PyStr? then v.v.s else e.str(v)
  }

  function Converted<T>(value: Option<T>): Result<T, Error> {
    if value.Some? then Ok(value.value) else Err(CannotConvert)
  }

  function ToList(a: NdArray): Result<Py, Error> {
    if a.o.toList.Gives? then Ok(a.o.toList.value) else Err(CannotConvert)
  }

  function InTurn(ints: seq<int>): seq<Py> {
    if ints == [] then [] else [PyInt(ints[0])] + InTurn(ints[1..])
  }

  function TensorOf(shape: Py, data: Py): Py {
    PyDict([Entry("shape", shape), Entry("data", data)])
  }

  predicate IsTensor(v: Py) {
    v.PyDict? && Lookup(v.entries, "shape").Some? && Lookup(v.entries, "data").Some?
  }

  function Normalize(v: Value, t: string, e: Env): Result<Py, Error> {
    if v.ZeroCopyRef? then Ok(PyDict(v.payload))
    else if t == "float" then
      if IsNumber(v) then
        var f :- Converted(FloatOf(v.v, e));
        Ok(PyFloat(f))
      else Err(ExpectedOther)
    else if t == "integer" then
      if IsNumber(v) && !v.v.PyFloat? then Ok(v.v)
      else if IsNumber(v) && v.v.f.Finite? && v.v.f.value == v.v.f.value.Floor as real
      then Ok(PyInt(v.v.f.value.Floor))
      else Err(ExpectedOther)
    else if t in {"string", "choice", "module"} then Ok(PyStr(StrOf(v, e)))
    else if t == "boolean" then
      if v.Plainly? && v.v.PyBool? then Ok(v.v) else Err(ExpectedOther)
    else if t == "embedding" then
      if v.Array? then ToList(v.a)
      else if v.v.PyList? then
        var floats :- FloatsOf(v.v.items, e);
        Ok(PyList(floats))
      else Err(ExpectedOther)
    else if t == "tensor" then
      if v.Array? then
        var data :- ToList(v.a);
        Ok(TensorOf(PyList(InTurn(v.a.shape)), data))
      else if IsTensor(v.v) then Ok(v.v)
      else Err(ExpectedOther)
    else Ok(if v.Array? then PyObj(v.a.o) else v.v)
  }

  // Encoding.

  predicate Large(items: seq<Py>) {
    |items| * 8 > BINARY_THRESHOLD
  }

  predicate UsesBinary(n: Py, t: string) {
    if t == "tensor" then
      n.PyDict? &&
      var data := Lookup(n.entries, "data");
      data.Some? && data.value.PyList? && Large(data.value.items)
    else t == "embedding" && n.PyList? && Large(n.items)
  }

  /** A float that is not finite goes out as a string, since JSON has no such numbers (section 6
      of RFC 8259). */
  function Special(n: Py, t: string): Py {
    if t == "float" && n.PyFloat? && !n.f.Finite? then
      PyStr(if n.f.NaN? then "NaN" else if n.f.PosInf? then "Infinity" else "-Infinity")
    else n
  }

  function Serialize(n: Py, t: string, e: Env): Result<Json, Error> {
    Dumps(Special(n, t), e)
  }

  function GetOr(entries: seq<Entry>, key: string, default: Py): Py {
    var found := Lookup(entries, key);
    if found.Some? then found.value else default
  }

  function Metadata(shape: Py, t: string): Py {
    PyDict([Entry("shape", shape), Entry("dtype", PyStr("float32")),
            Entry("binary_format", PyStr("pickle")), Entry("type", PyStr(t))])
  }

  function ShapeOf(n: Py, t: string): Py
    requires UsesBinary(n, t)
  {
    if t == "tensor" then GetOr(n.entries, "shape", PyList([])) else PyList([PyInt(|n.items|)])
  }

  function DataOf(n: Py, t: string): Py
    requires UsesBinary(n, t)
  {
    if t == "tensor" then GetOr(n.entries, "data", PyList([])) else n
  }

  function EncodeBinary(n: Py, t: string, e: Env): Result<Message, Error>
    requires UsesBinary(n, t)
  {
    var json :- Serialize(Metadata(ShapeOf(n, t), t), "string", e);
    Ok(Message(BinaryUrl(t), json, Some(DataOf(n, t))))
  }

  function EncodeAny(v: Value, t: string, e: Env): Result<Message, Error> {
    var n :- Normalize(v, t, e);
    if UsesBinary(n, t) then EncodeBinary(n, t, e)
    else
      var json :- Serialize(n, t, e);
      Ok(Message(Url(t), json, None))
  }

  // Decoding.

  function Deserialize(v: Py, t: string, e: Env): Result<Value, Error> {
    if t == "float" then
      if v == PyStr("NaN") then Ok(Plainly(PyFloat(NaN)))
      else if v == PyStr("Infinity") then Ok(Plainly(PyFloat(PosInf)))
      else if v == PyStr("-Infinity") then Ok(Plainly(PyFloat(NegInf)))
      else
        var f :- Converted(FloatOf(v, e));
        Ok(Plainly(PyFloat(f)))
    else if t == "integer" then
      var i :- Converted(IntOf(v, e));
      Ok(Plainly(PyInt(i)))
    else if t == "tensor" && IsTensor(v) then
      var a :- Converted(e.reshape(Lookup(v.entries, "data").value, Lookup(v.entries, "shape").value));
      Ok(Array(a))
    else Ok(Plainly(v))
  }

  predicate IsZeroCopy(v: Py) {
    v.PyDict? && var marker := Lookup(v.entries, ZERO_COPY_KEY); marker.Some? && Truthy(marker.value)
  }

  function MaybeZeroCopy(v: Value): Value {
    if v.Plainly? && IsZeroCopy(v.v) then ZeroCopyRef(v.v.entries) else v
  }

  function DecodeBinary(m: Message): Result<Value, Error>
    requires EndsWith(m.typeUrl, ".binary") && m.binary.Some?
  {
    var t := BinaryTypeOf(m.typeUrl);
    if t == "tensor" then
      var metadata := Read(m.json);
      if metadata.PyDict?
      then Ok(Plainly(TensorOf(GetOr(metadata.entries, "shape", PyList([])), m.binary.value)))
      else Err(CannotConvert)
    else if t == "embedding" then Ok(Plainly(m.binary.value))
    else Err(NotSupported)
  }

  function DecodeAny(m: Message, e: Env): Result<Value, Error> {
    if EndsWith(m.typeUrl, ".binary") && m.binary.Some? then DecodeBinary(m)
    else
      var decoded :- Deserialize(Read(m.json), TypeOf(m.typeUrl), e);
      Ok(MaybeZeroCopy(decoded))
  }

  /** Out and back in. */
  function RoundTrip(v: Value, t: string, e: Env): Result<Value, Error> {
    var m :- EncodeAny(v, t, e);
    DecodeAny(m, e)
  }

  // What survives JSON.

  /** The library keeps all numbers of the value, and accepts its nesting. */
  predicate Clean(v: Py, lib: Lib)
    decreases v, 1
  {
    match v
    case PyInt(i) => lib.acceptsInt(i)
    case PyFloat(f) => lib.nulls ==> f.Finite?
    case PyList(items) => lib.depth > 0 && CleanItems(items, Inside(lib))
    case PyDict(entries) => lib.depth > 0 && CleanEntries(entries, Inside(lib))
    case _ => true
  }

  /** Clean as a part of a list or dictionary. */
  predicate CleanInside(v: Py, lib: Lib) {
    lib.depth > 0 && Clean(v, Inside(lib))
  }

  predicate CleanItems(items: seq<Py>, lib: Lib)
    decreases items, 0
  {
    items == [] || (Clean(items[0], lib) && CleanItems(items[1..], lib))
  }

  predicate CleanEntries(entries: seq<Entry>, lib: Lib)
    decreases entries, 0
  {
    entries == [] || (Clean(entries[0].value, lib) && CleanEntries(entries[1..], lib))
  }

  /** A plain value goes through JSON unharmed if and only if it is clean. */
  lemma {:induction false} CleanSurvives(v: Py, p: Policy, lib: Lib)
    requires Plain(v)
    ensures Clean(v, lib) <==> Writable(Encode(v, p), lib) && Written(Encode(v, p), lib.nulls) == Encode(v, p)
    decreases v, 1
  {
    match v {
      case PyList(items) =>
        if lib.depth > 0 {
          CleanItemsSurvive(items, p, Inside(lib));
        }
      case PyDict(entries) =>
        if lib.depth > 0 {
          CleanEntriesSurvive(entries, p, Inside(lib));
        }
      case _ =>
    }
  }

  lemma {:induction false} CleanItemsSurvive(items: seq<Py>, p: Policy, lib: Lib)
    requires AllPlain(items)
    ensures var js := EncodeItems(items, p);
            CleanItems(items, lib) <==> WritableItems(js, lib) && WrittenItems(js, lib.nulls) == js
    decreases items, 0
  {
    if items != [] {
      CleanSurvives(items[0], p, lib);
      CleanItemsSurvive(items[1..], p, lib);
      var js := EncodeItems(items, p);
      assert js[1..] == EncodeItems(items[1..], p);
      assert WrittenItems(js, lib.nulls) == [Written(js[0], lib.nulls)] + WrittenItems(js[1..], lib.nulls);
      assert js == [js[0]] + js[1..];
    }
  }

  lemma {:induction false} CleanEntriesSurvive(entries: seq<Entry>, p: Policy, lib: Lib)
    requires AllEntriesPlain(entries)
    ensures var js := EncodeEntries(entries, p);
            CleanEntries(entries, lib) <==> WritableEntries(js, lib) && WrittenEntries(js, lib.nulls) == js
    decreases entries, 0
  {
    if entries != [] {
      CleanSurvives(entries[0].value, p, lib);
      CleanEntriesSurvive(entries[1..], p, lib);
      var js := EncodeEntries(entries, p);
      assert js[1..] == EncodeEntries(entries[1..], p);
      assert WrittenEntries(js, lib.nulls) ==
             [JEntry(js[0].key, Written(js[0].value, lib.nulls))] + WrittenEntries(js[1..], lib.nulls);
      assert js == [js[0]] + js[1..];
    }
  }

  lemma ReadBack(v: Py, p: Policy, lib: Lib)
    requires Plain(v)
    ensures Clean(v, lib) <==> Writable(Encode(v, p), lib) && Read(Written(Encode(v, p), lib.nulls)) == v
  {
    CleanSurvives(v, p, lib);
    PlainUnchanged(v, p);
    ReadIsPlain(Written(Encode(v, p), lib.nulls), p);
  }

  predicate Bare(t: string) {
    '.' !in t && '/' !in t
  }

  /** The JSON path hands the type name and the written value to the decoder. */
  lemma JsonPath(v: Value, t: string, n: Py, e: Env)
    requires Bare(t) && Normalize(v, t, e) == Ok(n) && !UsesBinary(n, t)
    ensures var j := Encode(Special(n, t), e.policy);
            RoundTrip(v, t, e) ==
            if !Writable(j, e.lib) then Err(CannotWrite)
            else
              var d := Deserialize(Read(Written(j, e.lib.nulls)), t, e);
              if d.Ok? then Ok(MaybeZeroCopy(d.value)) else Err(d.error)
  {
    hide Normalize, UsesBinary, Special, Writable, Written, Encode, Read, Deserialize, MaybeZeroCopy,
         TypeOf, Url, EncodeBinary, DecodeBinary, EndsWith;
    TypeNameRecovered(t);
  }

  /** The type and the value are such that the decoder leaves the value as it was read. */
  predicate Untouched(t: string, n: Py) {
    Bare(t) && t !in {"float", "integer"} && (t == "tensor" ==> !IsTensor(n))
  }

  /** JSON keeps the keys of a dictionary. */
  lemma {:induction false} LookupRead(entries: seq<Entry>, key: string, p: Policy, nulls: bool)
    ensures Lookup(ReadEntries(WrittenEntries(EncodeEntries(entries, p), nulls)), key).Some? <==>
            Lookup(entries, key).Some?
  {
    if entries != [] {
      var js := EncodeEntries(entries, p);
      LookupRead(entries[1..], key, p, nulls);
      assert js[1..] == EncodeEntries(entries[1..], p);
      assert WrittenEntries(js, nulls)[1..] == WrittenEntries(js[1..], nulls);
      var back := ReadEntries(WrittenEntries(js, nulls));
      assert back[1..] == ReadEntries(WrittenEntries(js, nulls)[1..]);
    }
  }

  lemma TensorRead(v: Py, p: Policy, nulls: bool)
    requires Plain(v)
    ensures IsTensor(Read(Written(Encode(v, p), nulls))) <==> IsTensor(v)
  {
    if v.PyDict? {
      LookupRead(v.entries, "shape", p, nulls);
      LookupRead(v.entries, "data", p, nulls);
    }
  }

  /** What then comes back is the normalized value, as a zero-copy reference if it
      is marked as one, if and only if the value is clean. */
  lemma UntouchedRoundTrip(v: Value, t: string, n: Py, e: Env)
    requires Untouched(t, n) && Normalize(v, t, e) == Ok(n) && !UsesBinary(n, t) && Plain(n)
    ensures RoundTrip(v, t, e) == Ok(MaybeZeroCopy(Plainly(n))) <==> Clean(n, e.lib)
    ensures RoundTrip(v, t, e) == Ok(Plainly(n)) <==> Clean(n, e.lib) && !IsZeroCopy(n)
    ensures n.PyDict? ==> (RoundTrip(v, t, e) == Ok(ZeroCopyRef(n.entries)) <==> Clean(n, e.lib) && IsZeroCopy(n))
  {
    hide Normalize, UsesBinary, Writable, Written, Encode, Read, Clean, Plain, RoundTrip, Lookup, Truthy;
    JsonPath(v, t, n, e);
    TensorRead(n, e.policy, e.lib.nulls);
    ReadBack(n, e.policy, e.lib);
  }

  // The types one by one.

  /** Under `float` every number comes back as the float it converts to, NaN and the infinities
      included, with either library; everything else is rejected. */
  lemma FloatRoundTrip(v: Value, e: Env)
    requires !v.ZeroCopyRef?
    ensures RoundTrip(v, "float", e) ==
            if !IsNumber(v) then Err(ExpectedOther)
            else if FloatOf(v.v, e).None? then Err(CannotConvert)
            else Ok(Plainly(PyFloat(FloatOf(v.v, e).value)))
  {
    hide TypeOf, Url;
    var normalized := Normalize(v, "float", e);
    if normalized.Ok? {
      JsonPath(v, "float", normalized.value, e);
    }
  }

  /** Under `integer` the normalized value comes back if and only if it is not a bool and the
      library writes it; a bool comes back as 0 or 1. */
  lemma IntegerRoundTripIff(v: Value, n: Py, e: Env)
    requires !v.ZeroCopyRef? && Normalize(v, "integer", e) == Ok(n)
    ensures RoundTrip(v, "integer", e) == Ok(Plainly(n)) <==> n.PyInt? && Clean(n, e.lib)
    ensures n.PyBool? ==> RoundTrip(v, "integer", e) == Ok(Plainly(PyInt(if n.b then 1 else 0)))
  {
    JsonPath(v, "integer", n, e);
  }

  /** The text types bring back `str(value)`. */
  lemma TextRoundTrip(v: Value, t: string, e: Env)
    requires !v.ZeroCopyRef? && t in {"string", "choice", "module"}
    ensures RoundTrip(v, t, e) == Ok(Plainly(PyStr(StrOf(v, e))))
  {
    hide RoundTrip, StrOf;
    JsonPath(v, t, PyStr(StrOf(v, e)), e);
  }

  /** `boolean` brings back bools and rejects the rest. */
  lemma BooleanRoundTrip(v: Value, e: Env)
    requires !v.ZeroCopyRef?
    ensures RoundTrip(v, "boolean", e) == if v.Plainly? && v.v.PyBool? then Ok(v) else Err(ExpectedOther)
  {
    if v.Plainly? && v.v.PyBool? {
      JsonPath(v, "boolean", v.v, e);
    }
  }

  lemma {:induction false} FloatsOfEach(items: seq<Py>, e: Env)
    ensures FloatsOf(items, e).Ok? <==> forall x :: x in items ==> FloatOf(x, e).Some?
    ensures FloatsOf(items, e).Ok? ==>
      var floats := FloatsOf(items, e).value;
      |floats| == |items| && AllPlain(floats) &&
      forall k :: 0 <= k < |items| ==>
        FloatOf(items[k], e).Some? && floats[k] == PyFloat(FloatOf(items[k], e).value)
  {
    if items != [] {
      FloatsOfEach(items[1..], e);
      assert items == [items[0]] + items[1..];
      if FloatsOf(items, e).Ok? {
        var floats := FloatsOf(items, e).value;
        assert floats[1..] == FloatsOf(items[1..], e).value;
        assert forall k :: 1 <= k < |floats| ==> floats[k] == floats[1..][k - 1];
      }
    }
  }

  lemma {:induction false} CleanFloats(floats: seq<Py>, lib: Lib)
    requires forall x :: x in floats ==> x.PyFloat?
    ensures CleanItems(floats, lib) <==> (lib.nulls ==> forall x :: x in floats ==> x.f.Finite?)
  {
    if floats != [] {
      CleanFloats(floats[1..], lib);
      assert floats == [floats[0]] + floats[1..];
    }
  }

  /** A list under `embedding` comes back as floats.  A large one goes out as pickle, and fails
      only if the library cannot write the metadata with its length; a small one goes out as JSON,
      and comes back if and only if the library writes all floats or all of these are finite. */
  lemma EmbeddingRoundTripIff(items: seq<Py>, floats: seq<Py>, e: Env)
    requires FloatsOf(items, e) == Ok(floats)
    ensures RoundTrip(Plainly(PyList(items)), "embedding", e) == Ok(Plainly(PyList(floats))) <==>
            if Large(floats) then e.lib.depth >= 2 && e.lib.acceptsInt(|floats|)
            else e.lib.depth >= 1 && (e.lib.nulls ==> forall x :: x in floats ==> x.PyFloat? && x.f.Finite?)
  {
    hide RoundTrip, Normalize, Clean, Plain, Encode, Writable, Written, Read;
    var v, n := Plainly(PyList(items)), PyList(floats);
    NormalizedList(items, floats, e);
    FloatsOfEach(items, e);
    CleanLists(floats, e);
    if Large(floats) {
      BinaryPath(v, "embedding", n, e);
    } else {
      if e.lib.depth > 0 {
        CleanFloats(floats, Inside(e.lib));
      }
      UntouchedRoundTrip(v, "embedding", n, e);
    }
  }

  lemma NormalizedList(items: seq<Py>, floats: seq<Py>, e: Env)
    requires FloatsOf(items, e) == Ok(floats)
    ensures Normalize(Plainly(PyList(items)), "embedding", e) == Ok(PyList(floats))
  {
  }

  lemma CleanLists(items: seq<Py>, e: Env)
    ensures Clean(PyList(items), e.lib) <==> e.lib.depth > 0 && CleanItems(items, Inside(e.lib))
    ensures Plain(PyList(items)) <==> AllPlain(items)
    ensures WritableInside(Encode(PyList([PyInt(|items|)]), e.policy), e.lib) <==>
            e.lib.depth >= 2 && e.lib.acceptsInt(|items|)
  {
    var js := [JInt(|items|)];
    assert Encode(PyList([PyInt(|items|)]), e.policy) == JList(js);
    if e.lib.depth >= 2 {
      var lib := Inside(Inside(e.lib));
      assert WritableItems(js, lib) <==> Writable(js[0], lib) && WritableItems(js[1..], lib);
    }
  }

  lemma {:induction false} WritableStrings(entries: seq<JEntry>, lib: Lib)
    requires forall x :: x in entries ==> x.value.JStr?
    ensures WritableEntries(entries, lib)
  {
    if entries != [] {
      WritableStrings(entries[1..], lib);
    }
  }

  lemma MetadataWritable(shape: Py, t: string, e: Env)
    ensures var shapeJson, metadata := Encode(shape, e.policy), Encode(Metadata(shape, t), e.policy);
            (Writable(metadata, e.lib) <==> WritableInside(shapeJson, e.lib)) &&
            Written(metadata, e.lib.nulls).JDict? && |Written(metadata, e.lib.nulls).entries| == 4 &&
            Written(metadata, e.lib.nulls).entries[0] == JEntry("shape", Written(shapeJson, e.lib.nulls))
  {
    var js := EncodeEntries(Metadata(shape, t).entries, e.policy);
    assert js[1].value.JStr? && js[2].value.JStr? && js[3].value.JStr?;
    if e.lib.depth > 0 {
      WritableStrings(js[1..], Inside(e.lib));
    }
  }

  /** On the binary path the data comes back as it was pickled, with the shape as JSON keeps it,
      if the shape can be written. */
  lemma BinaryPath(v: Value, t: string, n: Py, e: Env)
    requires Normalize(v, t, e) == Ok(n) && UsesBinary(n, t)
    ensures var shapeJson := Encode(ShapeOf(n, t), e.policy);
            RoundTrip(v, t, e) ==
            if !WritableInside(shapeJson, e.lib) then Err(CannotWrite)
            else if t == "tensor" then Ok(Plainly(TensorOf(Read(Written(shapeJson, e.lib.nulls)), DataOf(n, t))))
            else Ok(Plainly(DataOf(n, t)))
  {
    hide Normalize, BinaryUrl, EndsWith, BinaryTypeOf, Encode, Writable, WritableInside, Written, ShapeOf, DataOf;
    assert '.' !in "tensor" && '.' !in "embedding";
    BinaryTypeNameRecovered(t);
    var shape := ShapeOf(n, t);
    var metadata := Encode(Metadata(shape, t), e.policy);
    MetadataWritable(shape, t, e);
    var written := Written(metadata, e.lib.nulls);
    assert Lookup(Read(written).entries, "shape") == Some(Read(Written(Encode(shape, e.policy), e.lib.nulls)));
  }

  /** The types without a rule of their own, such as `list` and `map`. */
  predicate Free(t: string) {
    Bare(t) && t !in {"float", "integer", "tensor"} && t !in {"string", "choice", "module", "boolean", "embedding"}
  }

  /** Under a type without a rule a plain value comes back if and only if it is clean and not
      marked as zero-copy. */
  lemma PlainRoundTripIff(v: Py, t: string, e: Env)
    requires Free(t) && Plain(v)
    ensures RoundTrip(Plainly(v), t, e) == Ok(Plainly(v)) <==> Clean(v, e.lib) && !IsZeroCopy(v)
  {
    hide RoundTrip, Clean, Plain, IsZeroCopy;
    UntouchedRoundTrip(Plainly(v), t, v, e);
  }

  /** Under every type that is not converted, a zero-copy reference with a plain payload comes
      back if and only if the payload is clean and its marker is truthy. */
  lemma ZeroCopyRoundTripIff(payload: seq<Entry>, t: string, e: Env)
    requires Untouched(t, PyDict(payload)) && !UsesBinary(PyDict(payload), t) && Plain(PyDict(payload))
    ensures RoundTrip(ZeroCopyRef(payload), t, e) == Ok(ZeroCopyRef(payload)) <==>
            Clean(PyDict(payload), e.lib) && IsZeroCopy(PyDict(payload))
  {
    hide RoundTrip, Clean, Plain, Lookup, Truthy;
    UntouchedRoundTrip(ZeroCopyRef(payload), t, PyDict(payload), e);
  }

  // What is written once is written the same again.

  lemma {:induction false} WrittenTwice(j: Json, lib: Lib)
    requires Writable(j, lib)
    ensures Writable(Written(j, lib.nulls), lib) && Written(Written(j, lib.nulls), lib.nulls) == Written(j, lib.nulls)
    decreases j, 1
  {
    match j {
      case JList(items) => WrittenItemsTwice(items, Inside(lib));
      case JDict(entries) => WrittenEntriesTwice(entries, Inside(lib));
      case _ =>
    }
  }

  lemma {:induction false} WrittenItemsTwice(items: seq<Json>, lib: Lib)
    requires WritableItems(items, lib)
    ensures var w := WrittenItems(items, lib.nulls); WritableItems(w, lib) && WrittenItems(w, lib.nulls) == w
    decreases items, 0
  {
    if items != [] {
      WrittenTwice(items[0], lib);
      WrittenItemsTwice(items[1..], lib);
      assert WrittenItems(items, lib.nulls)[1..] == WrittenItems(items[1..], lib.nulls);
    }
  }

  lemma {:induction false} WrittenEntriesTwice(entries: seq<JEntry>, lib: Lib)
    requires WritableEntries(entries, lib)
    ensures var w := WrittenEntries(entries, lib.nulls); WritableEntries(w, lib) && WrittenEntries(w, lib.nulls) == w
    decreases entries, 0
  {
    if entries != [] {
      WrittenTwice(entries[0].value, lib);
      WrittenEntriesTwice(entries[1..], lib);
      assert WrittenEntries(entries, lib.nulls)[1..] == WrittenEntries(entries[1..], lib.nulls);
    }
  }

  /** Whatever goes in under a type without a rule, objects included: what comes back once comes
      back unchanged from then on. */
  lemma SecondTripIsIdentity(v: Value, back: Value, t: string, e: Env)
    requires Free(t) && RoundTrip(v, t, e) == Ok(back)
    ensures RoundTrip(back, t, e) == Ok(back)
  {
    hide RoundTrip, Writable, Written, Encode, Read, IsZeroCopy;
    var n, p := Normalize(v, t, e).value, e.policy;
    JsonPath(v, t, n, e);
    var j := Encode(n, p);
    var w := Written(j, e.lib.nulls);
    WrittenTwice(j, e.lib);
    ReadIsPlain(w, p);
    var m := if back.ZeroCopyRef? then PyDict(back.payload) else back.v;
    assert m == Read(w) by { Unmarked(Read(w)); }
    JsonPath(back, t, m, e);
  }

  lemma Unmarked(v: Py)
    ensures var back := MaybeZeroCopy(Plainly(v));
            v == if back.ZeroCopyRef? then PyDict(back.payload) else back.v
  {
  }

  // Tensors.

  /** A large tensor always comes back as a dictionary of shape and data, and is unchanged if and
      only if it was exactly that; entries beside these two are lost. */
  lemma LargeTensorRoundTrip(v: Value, n: Py, e: Env)
    requires Normalize(v, "tensor", e) == Ok(n) && UsesBinary(n, "tensor") && Plain(ShapeOf(n, "tensor"))
    ensures RoundTrip(v, "tensor", e) == Ok(Plainly(TensorOf(ShapeOf(n, "tensor"), DataOf(n, "tensor")))) <==>
            CleanInside(ShapeOf(n, "tensor"), e.lib)
    ensures RoundTrip(v, "tensor", e) == Ok(Plainly(n)) <==>
            CleanInside(ShapeOf(n, "tensor"), e.lib) && n == TensorOf(ShapeOf(n, "tensor"), DataOf(n, "tensor"))
    ensures RoundTrip(v, "tensor", e).Ok? ==> RoundTrip(v, "tensor", e).value.Plainly?
  {
    hide RoundTrip, Normalize, UsesBinary, DataOf, Encode, Writable, Written, Read, Clean, Plain;
    BinaryPath(v, "tensor", n, e);
    if e.lib.depth > 0 {
      ReadBack(ShapeOf(n, "tensor"), e.policy, Inside(e.lib));
    }
  }

  /** A small tensor always comes back as an array, also if it was a dictionary: as the array that
      NumPy makes of its data and shape, if it is clean. */
  lemma SmallTensorRoundTrip(v: Value, n: Py, e: Env)
    requires Normalize(v, "tensor", e) == Ok(n) && !UsesBinary(n, "tensor") && IsTensor(n) && Plain(n)
    ensures RoundTrip(v, "tensor", e).Ok? ==> RoundTrip(v, "tensor", e).value.Array?
    ensures Clean(n, e.lib) ==>
              var made := e.reshape(Lookup(n.entries, "data").value, Lookup(n.entries, "shape").value);
              RoundTrip(v, "tensor", e) == if made.Some? then Ok(Array(made.value)) else Err(CannotConvert)
  {
    hide Normalize, UsesBinary, Writable, Written, Encode, Read, Clean, Plain, RoundTrip, Lookup;
    JsonPath(v, "tensor", n, e);
    TensorRead(n, e.policy, e.lib.nulls);
    ReadBack(n, e.policy, e.lib);
  }

  lemma {:induction false} InTurnIsPlain(ints: seq<int>)
    ensures AllPlain(InTurn(ints))
  {
    if ints != [] {
      InTurnIsPlain(ints[1..]);
    }
  }

  /** The data of an array as JSON brings it back. */
  function DataBack(items: seq<Py>, e: Env): Py {
    Read(Written(Encode(PyList(items), e.policy), e.lib.nulls))
  }

  /** An array comes back as that array if and only if it is small enough for JSON, and its list
      and shape are clean.  NumPy's part is given: making an array of the list and the shape gives
      the array, and a list that lost a number to JSON does not. */
  lemma ArrayRoundTripIff(a: NdArray, items: seq<Py>, e: Env)
    requires a.o.toList == Gives(PyList(items)) && Plain(PyList(items))
    requires e.reshape(PyList(items), PyList(InTurn(a.shape))) == Some(a)
    requires e.reshape(DataBack(items, e), PyList(InTurn(a.shape))) == Some(a) ==> DataBack(items, e) == PyList(items)
    ensures RoundTrip(Array(a), "tensor", e) == Ok(Array(a)) <==>
            !Large(items) && Clean(TensorOf(PyList(InTurn(a.shape)), PyList(items)), e.lib)
  {
    hide RoundTrip, Encode, Writable, Written, Read, BinaryUrl, Clean, Plain;
    var shape, data := PyList(InTurn(a.shape)), PyList(items);
    var n := TensorOf(shape, data);
    ShapeIsPlain(a.shape);
    TensorParts(shape, data, e);
    if Large(items) {
      LargeTensorRoundTrip(Array(a), n, e);
    } else {
      JsonPath(Array(a), "tensor", n, e);
      TensorRead(n, e.policy, e.lib.nulls);
      ReadBack(n, e.policy, e.lib);
      TensorBack(shape, data, e);
      IntsComeBack(a.shape, e.policy, e.lib.nulls);
      TensorParts(shape, DataBack(items, e), e);
    }
  }

  lemma ShapeIsPlain(shape: seq<int>)
    ensures Plain(PyList(InTurn(shape)))
  {
    InTurnIsPlain(shape);
  }

  /** JSON does not change integers that it writes. */
  lemma IntsComeBack(ints: seq<int>, p: Policy, nulls: bool)
    ensures Read(Written(Encode(PyList(InTurn(ints)), p), nulls)) == PyList(InTurn(ints))
  {
    ShapeIsPlain(ints);
    IntsWritten(ints, p, nulls);
    PlainUnchanged(PyList(InTurn(ints)), p);
  }

  lemma {:induction false} IntsWritten(ints: seq<int>, p: Policy, nulls: bool)
    ensures WrittenItems(EncodeItems(InTurn(ints), p), nulls) == EncodeItems(InTurn(ints), p)
  {
    if ints != [] {
      IntsWritten(ints[1..], p, nulls);
      var js := EncodeItems(InTurn(ints), p);
      assert InTurn(ints)[1..] == InTurn(ints[1..]) && js[1..] == EncodeItems(InTurn(ints[1..]), p);
      assert js[0] == JInt(ints[0]) && js == [js[0]] + js[1..];
    }
  }

  /** JSON brings the shape and the data of a tensor back one by one. */
  lemma TensorBack(shape: Py, data: Py, e: Env)
    ensures Read(Written(Encode(TensorOf(shape, data), e.policy), e.lib.nulls)) ==
            TensorOf(Read(Written(Encode(shape, e.policy), e.lib.nulls)),
                     Read(Written(Encode(data, e.policy), e.lib.nulls)))
  {
    var js := EncodeEntries(TensorOf(shape, data).entries, e.policy);
    assert js == [JEntry("shape", Encode(shape, e.policy)), JEntry("data", Encode(data, e.policy))];
  }

  lemma TensorParts(shape: Py, data: Py, e: Env)
    ensures var n := TensorOf(shape, data);
            (Plain(n) <==> Plain(shape) && Plain(data)) &&
            Lookup(n.entries, "shape") == Some(shape) && Lookup(n.entries, "data") == Some(data)
  {
    var entries := TensorOf(shape, data).entries;
    assert entries[1..] == [Entry("data", data)] && entries[1..][1..] == [];
    assert Lookup(entries, "data") == Lookup(entries[1..], "data");
    assert AllEntriesPlain(entries) <==> Plain(entries[0].value) && AllEntriesPlain(entries[1..]);
    assert AllEntriesPlain(entries[1..]) <==> Plain(entries[1..][0].value) && AllEntriesPlain(entries[1..][1..]);
  }
}
