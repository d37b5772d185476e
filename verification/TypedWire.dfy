/**
 What goes over the wire, and what comes back, case by case: the values, the texts and the numbers
 are spelled out here.
 */
module TypedWire {
  import opened Common
  import opened GracefulEncoder
  import opened PyValues
  import opened TypeUrls
  import opened TypedCodec

  // Messages.

  /** The URL names the type, and the binary path is taken by lists of more than 1280 items under
      `embedding`, and by tensors whose data is such a list, and by nothing else. */
  lemma MessageForm(v: Value, t: string, n: Py, e: Env)
    requires Normalize(v, t, e) == Ok(n) && EncodeAny(v, t, e).Ok?
    ensures var m := EncodeAny(v, t, e).value;
            && m.typeUrl == "type.googleapis.com/snakepit." + t + (if m.binary.Some? then ".binary" else "")
            && (m.binary.Some? <==>
                || (t == "embedding" && n.PyList? && |n.items| > 1280)
                || (t == "tensor" && n.PyDict? && exists items ::
                      Lookup(n.entries, "data") == Some(PyList(items)) && |items| > 1280))
  {
    UrlText(t);
    if t == "tensor" && n.PyDict? {
      var data := Lookup(n.entries, "data");
      assert data.Some? && data.value.PyList? ==> data == Some(PyList(data.value.items));
    }
  }

  /** A float that JSON cannot express is sent as a string (section 6 of RFC 8259). */
  lemma FloatOnTheWire(f: Float, e: Env)
    ensures EncodeAny(Plainly(PyFloat(f)), "float", e) ==
            Ok(Message("type.googleapis.com/snakepit." + "float",
                       match f
                       case NaN => JStr("NaN")
                       case PosInf => JStr("Infinity")
                       case NegInf => JStr("-Infinity")
                       case Finite(_) => JFloat(f),
                       None))
  {
    UrlText("float");
  }

  /** The metadata of a large embedding. */
  lemma EmbeddingMetadata(v: Value, items: seq<Py>, e: Env)
    requires Normalize(v, "embedding", e) == Ok(PyList(items)) && |items| > 1280
    requires e.lib.depth >= 2 && e.lib.acceptsInt(|items|)
    ensures EncodeAny(v, "embedding", e) ==
            Ok(Message("type.googleapis.com/snakepit." + "embedding" + ".binary",
                       JDict([JEntry("shape", JList([JInt(|items|)])), JEntry("dtype", JStr("float32")),
                              JEntry("binary_format", JStr("pickle")), JEntry("type", JStr("embedding"))]),
                       Some(PyList(items))))
  {
    hide Normalize, Writable, Written;
    UrlText("embedding");
    var shape := PyList([PyInt(|items|)]);
    MetadataWritable(shape, "embedding", e);
    CleanLists(items, e);
    MetadataJson(shape, "embedding", e);
    assert Encode(shape, e.policy) == JList([JInt(|items|)]);
    IntListWritten(|items|, e.lib.nulls);
  }

  lemma IntListWritten(n: int, nulls: bool)
    ensures Written(JList([JInt(n)]), nulls) == JList([JInt(n)])
  {
    var js := [JInt(n)];
    assert js[1..] == [] && WrittenItems(js, nulls) == [Written(js[0], nulls)] + WrittenItems(js[1..], nulls);
  }

  /** The JSON of a value, as the library writes it. */
  function JsonOf(v: Py, e: Env): Json {
    Written(Encode(v, e.policy), e.lib.nulls)
  }

  lemma StrJson(s: string, e: Env)
    ensures JsonOf(PyStr(s), e) == JStr(s)
  {
  }

  lemma DictJson(entries: seq<Entry>, e: Env)
    ensures var json := JsonOf(PyDict(entries), e);
            && json.JDict? && |json.entries| == |entries|
            && forall i :: 0 <= i < |entries| ==>
                 json.entries[i] == JEntry(entries[i].key, JsonOf(entries[i].value, e))
  {
  }

  lemma MetadataJson(shape: Py, t: string, e: Env)
    ensures JsonOf(Metadata(shape, t), e) ==
            JDict([JEntry("shape", JsonOf(shape, e)), JEntry("dtype", JStr("float32")),
                   JEntry("binary_format", JStr("pickle")), JEntry("type", JStr(t))])
  {
    hide JsonOf;
    DictJson(Metadata(shape, t).entries, e);
    StrJson("float32", e);
    StrJson("pickle", e);
    StrJson(t, e);
  }

  // Round trips.

  /** Under `float` a float comes back as itself, whatever it is; an integer or a bool as the float
      that Python makes of it, if it makes one; everything else is rejected. */
  lemma FloatCases(v: Value, e: Env)
    requires !v.ZeroCopyRef?
    ensures RoundTrip(v, "float", e) ==
            if v.Array? then Err(ExpectedOther)
            else match v.v
                 case PyFloat(f) => Ok(Plainly(PyFloat(f)))
                 case PyInt(_) =>
                   (match e.toFloat(v.v) case Some(f) => Ok(Plainly(PyFloat(f))) case None => Err(CannotConvert))
                 case PyBool(_) =>
                   (match e.toFloat(v.v) case Some(f) => Ok(Plainly(PyFloat(f))) case None => Err(CannotConvert))
                 case _ => Err(ExpectedOther)
  {
    hide RoundTrip;
    FloatRoundTrip(v, e);
  }

  function Whole(i: int): Float {
    Finite(i as real)
  }

  /** Under `integer` an integer comes back as itself if the library accepts it, a bool as 0 or 1,
      and a float as the integer that it is equal to, if there is one; everything else is
      rejected. */
  lemma IntegerCases(v: Value, e: Env)
    requires !v.ZeroCopyRef?
    ensures v.Plainly? && v.v.PyInt? ==>
              RoundTrip(v, "integer", e) == if e.lib.acceptsInt(v.v.i) then Ok(v) else Err(CannotWrite)
    ensures v.Plainly? && v.v.PyBool? && e.lib.acceptsInt(if v.v.b then 1 else 0) ==>
              RoundTrip(v, "integer", e) == Ok(Plainly(PyInt(if v.v.b then 1 else 0)))
    ensures forall i: int :: v == Plainly(PyFloat(Whole(i))) ==>
              RoundTrip(v, "integer", e) == if e.lib.acceptsInt(i) then Ok(Plainly(PyInt(i))) else Err(CannotWrite)
    ensures v.Plainly? && v.v.PyFloat? && (forall i: int :: v.v.f != Whole(i)) ==>
              RoundTrip(v, "integer", e) == Err(ExpectedOther)
    ensures v.Array? || !(v.v.PyInt? || v.v.PyBool? || v.v.PyFloat?) ==>
              RoundTrip(v, "integer", e) == Err(ExpectedOther)
  {
    var normalized := Normalize(v, "integer", e);
    if normalized.Ok? {
      IntegerRoundTripIff(v, normalized.value, e);
      JsonPath(v, "integer", normalized.value, e);
    }
    if v.Plainly? && v.v.PyFloat? && v.v.f.Finite? {
      assert v.v.f.value == v.v.f.value.Floor as real ==> v.v.f == Whole(v.v.f.value.Floor);
    }
  }

  /** Under the text types a string comes back as itself, and any other value as its text. */
  lemma TextCases(v: Value, t: string, e: Env)
    requires !v.ZeroCopyRef? && t in {"string", "choice", "module"}
    ensures RoundTrip(v, t, e) ==
            Ok(Plainly(PyStr(if v.Plainly? && v.v.PyStr? then v.v.s else e.str(v))))
  {
    hide RoundTrip;
    TextRoundTrip(v, t, e);
  }

  /** `list` and `map` are types without a rule. */
  lemma ListAndMapAreFree()
    ensures Free("list") && Free("map")
  {
  }

  /** A float that is not finite, under a type without a rule: `orjson` turns it into null. */
  lemma NonFiniteCases(f: Float, t: string, e: Env)
    requires Free(t)
    ensures RoundTrip(Plainly(PyFloat(f)), t, e) ==
            Ok(Plainly(if e.lib.nulls && !f.Finite? then PyNone else PyFloat(f)))
  {
    hide RoundTrip;
    JsonPath(Plainly(PyFloat(f)), t, PyFloat(f), e);
  }

  function FloatList(floats: seq<Float>): seq<Py> {
    seq(|floats|, i requires 0 <= i < |floats| => PyFloat(floats[i]))
  }

  /** The i-th item is the i-th float, or becomes it. */
  predicate Become(items: seq<Py>, floats: seq<Float>, e: Env) {
    |floats| == |items| && forall i :: 0 <= i < |items| ==>
      if items[i].PyFloat? then items[i].f == floats[i] else e.toFloat(items[i]) == Some(floats[i])
  }

  /** Under `embedding` a list of numbers comes back as the list of their floats, in order; more
      than 1280 as they were pickled, fewer as JSON keeps them. */
  lemma EmbeddingCases(items: seq<Py>, floats: seq<Float>, e: Env)
    ensures Become(items, floats, e) ==>
              (RoundTrip(Plainly(PyList(items)), "embedding", e) == Ok(Plainly(PyList(FloatList(floats)))) <==>
               if |items| > 1280 then e.lib.depth >= 2 && e.lib.acceptsInt(|items|)
               else e.lib.depth >= 1 && (e.lib.nulls ==> forall f :: f in floats ==> f.Finite?))
  {
    if Become(items, floats, e) {
      BecomeMeansFloats(items, floats, e);
      hide RoundTrip, FloatsOf, FloatList;
      EmbeddingRoundTripIff(items, FloatList(floats), e);
      FiniteAlike(floats);
    }
  }

  lemma {:induction false} FloatsError(items: seq<Py>, e: Env)
    ensures FloatsOf(items, e).Err? ==> FloatsOf(items, e) == Err(CannotConvert)
  {
    if items != [] {
      FloatsError(items[1..], e);
    }
  }

  lemma EmbeddingRejects(v: Py, e: Env)
    requires !v.PyList? || exists x :: x in v.items && !x.PyFloat? && e.toFloat(x).None?
    ensures RoundTrip(Plainly(v), "embedding", e) == Err(if v.PyList? then CannotConvert else ExpectedOther)
  {
    if v.PyList? {
      FloatsOfEach(v.items, e);
      FloatsError(v.items, e);
      hide FloatsOf;
    }
  }

  lemma FiniteAlike(floats: seq<Float>)
    ensures |FloatList(floats)| == |floats|
    ensures (forall x :: x in FloatList(floats) ==> x.PyFloat? && x.f.Finite?) <==>
            (forall f :: f in floats ==> f.Finite?)
  {
    if forall x :: x in FloatList(floats) ==> x.PyFloat? && x.f.Finite? {
      forall f | f in floats
        ensures f.Finite?
      {
        var i :| 0 <= i < |floats| && floats[i] == f;
        assert FloatList(floats)[i] in FloatList(floats);
      }
    }
  }

  lemma BecomeMeansFloats(items: seq<Py>, floats: seq<Float>, e: Env)
    requires Become(items, floats, e)
    ensures FloatsOf(items, e) == Ok(FloatList(floats))
  {
    FloatsOfEach(items, e);
    assert forall x :: x in items ==> FloatOf(x, e).Some?;
    assert FloatsOf(items, e).value == FloatList(floats);
  }

  /** An array under `embedding` comes back as its list. */
  lemma EmbeddedArray(a: NdArray, items: seq<Py>, e: Env)
    requires a.o.toList == Gives(PyList(items)) && Plain(PyList(items))
    ensures RoundTrip(Array(a), "embedding", e) == Ok(Plainly(PyList(items))) <==>
            if |items| > 1280 then e.lib.depth >= 2 && e.lib.acceptsInt(|items|) else Clean(PyList(items), e.lib)
  {
    hide RoundTrip, Clean, Plain, Encode, Writable, Written;
    if |items| > 1280 {
      BinaryPath(Array(a), "embedding", PyList(items), e);
      CleanLists(items, e);
    } else {
      UntouchedRoundTrip(Array(a), "embedding", PyList(items), e);
    }
  }

  /** An array under a type without a rule comes back as its list, if that is within the limit. */
  lemma ArrayAsList(a: NdArray, items: seq<Py>, t: string, e: Env)
    requires Free(t) && a.o.toList == Gives(PyList(items)) && Plain(PyList(items))
    requires !a.o.modelDump.Gives? && !a.o.toDict.Gives? && !a.o.asDict.Gives? && !a.o.sizeKnownTooLarge
    requires Leaves(PyList(items)) <= e.policy.listLimit
    ensures RoundTrip(Array(a), t, e) == Ok(Plainly(PyList(items))) <==> Clean(PyList(items), e.lib)
  {
    hide RoundTrip, Clean, Plain, Writable, Written, Read;
    JsonPath(Array(a), t, PyObj(a.o), e);
    ObjectReplaced(a.o, e.policy);
    ReadBack(PyList(items), e.policy, e.lib);
    ReadIsPlain(Written(Encode(PyList(items), e.policy), e.lib.nulls), e.policy);
  }

  // Tensors.

  function Shape(shape: seq<int>): Py {
    PyList(seq(|shape|, i requires 0 <= i < |shape| => PyInt(shape[i])))
  }

  lemma {:induction false} InTurnIsShape(shape: seq<int>)
    ensures PyList(InTurn(shape)) == Shape(shape)
  {
    if shape != [] {
      InTurnIsShape(shape[1..]);
      assert InTurn(shape) == Shape(shape).items;
    }
  }

  /** A tensor with more than 1280 rows, whatever else its dictionary holds and in whatever order,
      comes back as exactly its shape and its data, if the library writes the shape. */
  lemma LargeTensorCases(entries: seq<Entry>, shape: Py, items: seq<Py>, e: Env)
    requires Lookup(entries, "shape") == Some(shape) && Lookup(entries, "data") == Some(PyList(items))
    requires Plain(shape) && |items| > 1280
    ensures RoundTrip(Plainly(PyDict(entries)), "tensor", e) ==
            Ok(Plainly(PyDict([Entry("shape", shape), Entry("data", PyList(items))]))) <==>
            e.lib.depth > 0 && Clean(shape, Inside(e.lib))
  {
    hide RoundTrip, Clean, Plain, Encode, Writable, Written, Read;
    LargeTensorRoundTrip(Plainly(PyDict(entries)), PyDict(entries), e);
  }

  /** So a large tensor without other entries comes back as it was. */
  lemma LargeTensorUnchanged(shape: Py, items: seq<Py>, e: Env)
    requires Plain(shape) && |items| > 1280
    ensures var v := Plainly(PyDict([Entry("shape", shape), Entry("data", PyList(items))]));
            RoundTrip(v, "tensor", e) == Ok(v) <==> e.lib.depth > 0 && Clean(shape, Inside(e.lib))
  {
    hide RoundTrip, Clean, Plain;
    TensorParts(shape, PyList(items), e);
    LargeTensorCases([Entry("shape", shape), Entry("data", PyList(items))], shape, items, e);
  }

  /** A large array comes back as a dictionary of its shape and its list. */
  lemma LargeArrayCases(a: NdArray, items: seq<Py>, e: Env)
    requires a.o.toList == Gives(PyList(items)) && |items| > 1280
    ensures RoundTrip(Array(a), "tensor", e) ==
            Ok(Plainly(PyDict([Entry("shape", Shape(a.shape)), Entry("data", PyList(items))]))) <==>
            e.lib.depth > 0 && Clean(Shape(a.shape), Inside(e.lib))
  {
    hide RoundTrip, Clean, Plain, Encode, Writable, Written, Read;
    InTurnIsShape(a.shape);
    ShapeIsPlain(a.shape);
    TensorParts(Shape(a.shape), PyList(items), e);
    LargeTensorRoundTrip(Array(a), TensorOf(Shape(a.shape), PyList(items)), e);
  }

  /** A reference with large data and no shape comes back with an empty one. */
  lemma LargeReferenceCases(payload: seq<Entry>, items: seq<Py>, e: Env)
    requires Lookup(payload, "data") == Some(PyList(items)) && |items| > 1280
    requires Lookup(payload, "shape").None? && e.lib.depth >= 2
    ensures RoundTrip(ZeroCopyRef(payload), "tensor", e) ==
            Ok(Plainly(PyDict([Entry("shape", PyList([])), Entry("data", PyList(items))])))
  {
    hide RoundTrip, Encode, Writable, Written, Read;
    LargeTensorRoundTrip(ZeroCopyRef(payload), PyDict(payload), e);
  }

  /** What is no tensor is rejected. */
  lemma TensorRejects(v: Py, e: Env)
    requires !v.PyDict? || Lookup(v.entries, "shape").None? || Lookup(v.entries, "data").None?
    ensures RoundTrip(Plainly(v), "tensor", e) == Err(ExpectedOther)
  {
  }

  // Messages from elsewhere.

  /** The last part of the URL decides how a number is read, whatever stands before it. */
  lemma ForeignFloat(front: string, json: Json, e: Env)
    requires EndsInSeparator(front, {'.', '/'})
    ensures var decoded := DecodeAny(Message(front + "float", json, None), e);
            match json
            case JFloat(f) => decoded == Ok(Plainly(PyFloat(f)))
            case JStr(s) =>
              (s == "NaN" ==> decoded == Ok(Plainly(PyFloat(NaN)))) &&
              (s == "Infinity" ==> decoded == Ok(Plainly(PyFloat(PosInf)))) &&
              (s == "-Infinity" ==> decoded == Ok(Plainly(PyFloat(NegInf))))
            case _ => true
  {
    hide DecodeAny;
    ForeignJson(front, "float", json, e);
  }

  lemma ForeignJson(front: string, name: string, json: Json, e: Env)
    requires '.' !in name && '/' !in name && EndsInSeparator(front, {'.', '/'})
    ensures DecodeAny(Message(front + name, json, None), e) ==
            var d := Deserialize(Read(json), name, e);
            if d.Ok? then Ok(MaybeZeroCopy(d.value)) else Err(d.error)
  {
    hide TypeOf, EndsWith, Deserialize, MaybeZeroCopy, Read;
    TypeIsLastPart(front, name);
  }

  lemma TruncatedTowardsZero(x: real, i: int)
    requires if x >= 0.0 then i as real <= x < (i + 1) as real else (i - 1) as real < x <= i as real
    ensures Truncated(x) == i
  {
  }

  /** A float under `integer` loses its fraction, towards zero; one that is not finite is an
      error. */
  lemma ForeignInteger(front: string, f: Float, i: int, e: Env)
    requires EndsInSeparator(front, {'.', '/'})
    ensures var decoded := DecodeAny(Message(front + "integer", JFloat(f), None), e);
            && (!f.Finite? ==> decoded == Err(CannotConvert))
            && (f.Finite? && (if f.value >= 0.0 then i as real <= f.value < (i + 1) as real
                              else (i - 1) as real < f.value <= i as real) ==>
                decoded == Ok(Plainly(PyInt(i))))
  {
    hide DecodeAny, Truncated;
    ForeignJson(front, "integer", JFloat(f), e);
    if f.Finite? && (if f.value >= 0.0 then i as real <= f.value < (i + 1) as real
                     else (i - 1) as real < f.value <= i as real) {
      TruncatedTowardsZero(f.value, i);
    }
  }

  /** Binary data under a type that has no binary form is rejected. */
  lemma ForeignBinary(front: string, name: string, json: Json, data: Py, e: Env)
    requires '.' !in name && EndsInSeparator(front, {'.'}) && name != "tensor" && name != "embedding"
    ensures DecodeAny(Message(front + name + ".binary", json, Some(data)), e) == Err(NotSupported)
  {
    BinaryTypeIsLastPart(front, name);
  }

  /** A dictionary counts as a zero-copy reference if and only if it has the key with a value that
      Python takes for true. */
  lemma ZeroCopyKey(entries: seq<Entry>)
    ensures var falsy := {PyNone, PyBool(false), PyInt(0), PyFloat(Finite(0.0)), PyStr(""), PyList([]), PyDict([])};
            IsZeroCopy(PyDict(entries)) <==>
            (exists v :: Lookup(entries, "__snakepit_zero_copy__") == Some(v) && v !in falsy)
  {
    var marker := Lookup(entries, "__snakepit_zero_copy__");
    if marker.Some? {
      FalsyValues(marker.value);
    }
  }
}
