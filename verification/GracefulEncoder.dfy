/**
 The graceful encoder: plain values go to JSON as they are; an object is replaced by the result
 of its first conversion that succeeds, or by a marker, and the replacement is encoded in turn.
 */
module GracefulEncoder {
  import opened Common
  import opened PyValues

  datatype Json =
    | JNull
    | JBool(b: bool)
    | JInt(i: int)
    | JFloat(f: Float)
    | JStr(s: string)
    | JList(items: seq<Json>)
    | JDict(entries: seq<JEntry>)

  datatype JEntry = JEntry(key: string, value: Json)

  /** How much a marker says about an object; `Silent` stands for `none` and for any mode that
      is not known. */
  datatype Detail = Silent | TypeOnly | Repr | RedactedRepr

  /** The settings that are read from the environment, and the redaction patterns. */
  datatype Policy = Policy(detail: Detail, maxLen: nat, listLimit: nat, redact: string -> string)

  function DetailOf(o: Object, p: Policy): Option<string> {
    match p.detail
    case Silent => None
    case TypeOnly => Some("<unserializable " + o.typeName + ">")
    case _ =>
      var text := if o.repr.Some? then o.repr.value else "<repr failed for " + o.typeName + ">";
      var shown := if p.detail.RedactedRepr? then p.redact(text) else text;
      Some(if |shown| <= p.maxLen then shown else shown[..p.maxLen])
  }

  function Marker(o: Object, p: Policy): Py {
    var detail := DetailOf(o, p);
    PyDict(
      [Entry("__ffi_unserializable__", PyBool(true)), Entry("__type__", PyStr(o.typeName))]
      + (if detail.Some? then [Entry("__repr__", PyStr(detail.value))] else []))
  }

  /** What `tolist()` counts for: it is not called when the size is known to be too large, and
      a list with too many leaves is thrown away. */
  function GuardedToList(o: Object, limit: nat): Conv {
    if o.sizeKnownTooLarge then Absent
    else if o.toList.Gives? && o.toList.value.PyList? && Leaves(o.toList.value) > limit then Raises
    else o.toList
  }

  /** The conversions in the order in which they are tried. */
  function Candidates(o: Object, limit: nat): seq<Conv> {
    [o.modelDump, o.toDict, o.asDict, GuardedToList(o, limit), o.isoFormat]
  }

  /** The first conversion that succeeds. */
  function Chosen(o: Object, limit: nat): Option<Py> {
    if o.modelDump.Gives? then Some(o.modelDump.value)
    else if o.toDict.Gives? then Some(o.toDict.value)
    else if o.asDict.Gives? then Some(o.asDict.value)
    else
      var listed := GuardedToList(o, limit);
      if listed.Gives? then Some(listed.value)
      else if o.isoFormat.Gives? then Some(o.isoFormat.value)
      else None
  }

  /** `GracefulJSONEncoder.default` and `_orjson_default`, which have the same body. */
  method Default(o: Object, p: Policy) returns (result: Py)
    ensures result == var chosen := Chosen(o, p.listLimit); if chosen.Some? then chosen.value else Marker(o, p)
  {
    var named := [o.modelDump, o.toDict, o.asDict];
    for i := 0 to 3
      invariant forall j :: 0 <= j < i ==> !named[j].Gives?
    {
      if named[i].Gives? {
        assert named[0] == o.modelDump && named[1] == o.toDict && named[2] == o.asDict;
        return named[i].value;
      }
    }
    assert !named[0].Gives? && !named[1].Gives? && !named[2].Gives?;
    if !o.sizeKnownTooLarge && o.toList.Gives? {
      if o.toList.value.PyList? {
        var count := CountListElements(o.toList.value, p.listLimit);
        if count <= p.listLimit {
          return o.toList.value;
        }
      } else {
        return o.toList.value;
      }
    }
    if o.isoFormat.Gives? {
      return o.isoFormat.value;
    }
    return Marker(o, p);
  }

  /** The choice is the first success in the fixed order, and there is none only if all fail. */
  lemma ChosenIsFirst(o: Object, limit: nat)
    ensures var c := Candidates(o, limit);
            if Chosen(o, limit).None? then forall k :: 0 <= k < |c| ==> !c[k].Gives?
            else exists k :: 0 <= k < |c| && c[k] == Gives(Chosen(o, limit).value)
                             && forall j :: 0 <= j < k ==> !c[j].Gives?
  {
    var c := Candidates(o, limit);
    if Chosen(o, limit).Some? {
      var k := if c[0].Gives? then 0 else if c[1].Gives? then 1 else if c[2].Gives? then 2
               else if c[3].Gives? then 3 else 4;
      assert c[k] == Gives(Chosen(o, limit).value);
    }
  }

  /** The same, method by method: each is used if it succeeds and those before it do not. */
  lemma ChosenByMethod(o: Object, limit: nat)
    ensures o.modelDump.Gives? ==> Chosen(o, limit) == Some(o.modelDump.value)
    ensures !o.modelDump.Gives? && o.toDict.Gives? ==> Chosen(o, limit) == Some(o.toDict.value)
    ensures !o.modelDump.Gives? && !o.toDict.Gives? && o.asDict.Gives? ==> Chosen(o, limit) == Some(o.asDict.value)
    ensures !o.modelDump.Gives? && !o.toDict.Gives? && !o.asDict.Gives? ==>
              Chosen(o, limit) ==
              if !o.sizeKnownTooLarge && o.toList.Gives?
                 && (o.toList.value.PyList? ==> Leaves(o.toList.value) <= limit)
              then Some(o.toList.value)
              else if o.isoFormat.Gives? then Some(o.isoFormat.value)
              else None
  {
  }

  /** A list from `tolist()` is used if and only if nothing before it succeeds, its size was not
      known to be too large, and its leaves are within the limit. */
  lemma ToListWithinLimit(o: Object, limit: nat)
    requires o.toList.Gives? && o.toList.value.PyList?
    requires !o.modelDump.Gives? && !o.toDict.Gives? && !o.asDict.Gives?
    ensures GuardedToList(o, limit).Gives? <==> !o.sizeKnownTooLarge && Leaves(o.toList.value) <= limit
    ensures GuardedToList(o, limit).Gives? ==> Chosen(o, limit) == Some(o.toList.value)
    ensures !GuardedToList(o, limit).Gives? ==>
              Chosen(o, limit) == if o.isoFormat.Gives? then Some(o.isoFormat.value) else None
  {
  }

  function EncodeMarker(o: Object, p: Policy): Json {
    var detail := DetailOf(o, p);
    JDict(
      [JEntry("__ffi_unserializable__", JBool(true)), JEntry("__type__", JStr(o.typeName))]
      + (if detail.Some? then [JEntry("__repr__", JStr(detail.value))] else []))
  }

  /** The JSON of a value: the encoder calls `Default` for every object it meets, and encodes
      what it returns. */
  function Encode(v: Py, p: Policy): Json
    decreases v, 1
  {
    match v
    case PyNone => JNull
    case PyBool(b) => JBool(b)
    case PyInt(i) => JInt(i)
    case PyFloat(f) => JFloat(f)
    case PyStr(s) => JStr(s)
    case PyList(items) => JList(EncodeItems(items, p))
    case PyDict(entries) => JDict(EncodeEntries(entries, p))
    case PyObj(o) =>
      var chosen := Chosen(o, p.listLimit);
      if chosen.Some? then Encode(chosen.value, p) else EncodeMarker(o, p)
  }

  function EncodeItems(items: seq<Py>, p: Policy): (r: seq<Json>)
    ensures |r| == |items|
    ensures forall i :: 0 <= i < |items| ==> r[i] == Encode(items[i], p)
    decreases items, 0
  {
    if items == [] then [] else [Encode(items[0], p)] + EncodeItems(items[1..], p)
  }

  function EncodeEntries(entries: seq<Entry>, p: Policy): (r: seq<JEntry>)
    ensures |r| == |entries|
    ensures forall i :: 0 <= i < |entries| ==> r[i] == JEntry(entries[i].key, Encode(entries[i].value, p))
    decreases entries, 0
  {
    if entries == [] then []
    else [JEntry(entries[0].key, Encode(entries[0].value, p))] + EncodeEntries(entries[1..], p)
  }

  /** What a reader of the JSON gets back. */
  function Read(j: Json): Py
    decreases j, 1
  {
    match j
    case JNull => PyNone
    case JBool(b) => PyBool(b)
    case JInt(i) => PyInt(i)
    case JFloat(f) => PyFloat(f)
    case JStr(s) => PyStr(s)
    case JList(items) => PyList(ReadItems(items))
    case JDict(entries) => PyDict(ReadEntries(entries))
  }

  function ReadItems(items: seq<Json>): (r: seq<Py>)
    ensures |r| == |items|
    ensures forall i :: 0 <= i < |items| ==> r[i] == Read(items[i])
    decreases items, 0
  {
    if items == [] then [] else [Read(items[0])] + ReadItems(items[1..])
  }

  function ReadEntries(entries: seq<JEntry>): (r: seq<Entry>)
    ensures |r| == |entries|
    ensures forall i :: 0 <= i < |entries| ==> r[i] == Entry(entries[i].key, Read(entries[i].value))
    decreases entries, 0
  {
    if entries == [] then []
    else [Entry(entries[0].key, Read(entries[0].value))] + ReadEntries(entries[1..])
  }

  /** No object anywhere. */
  predicate Plain(v: Py)
    decreases v, 1
  {
    match v
    case PyList(items) => AllPlain(items)
    case PyDict(entries) => AllEntriesPlain(entries)
    case PyObj(_) => false
    case _ => true
  }

  predicate AllPlain(items: seq<Py>)
    decreases items, 0
  {
    items == [] || (Plain(items[0]) && AllPlain(items[1..]))
  }

  predicate AllEntriesPlain(entries: seq<Entry>)
    decreases entries, 0
  {
    entries == [] || (Plain(entries[0].value) && AllEntriesPlain(entries[1..]))
  }

  /** The encoder is the identity on plain values. */
  lemma {:induction false} PlainUnchanged(v: Py, p: Policy)
    requires Plain(v)
    ensures Read(Encode(v, p)) == v
    decreases v, 1
  {
    match v {
      case PyList(items) => PlainItemsUnchanged(items, p);
      case PyDict(entries) => PlainEntriesUnchanged(entries, p);
      case _ =>
    }
  }

  lemma {:induction false} PlainItemsUnchanged(items: seq<Py>, p: Policy)
    requires AllPlain(items)
    ensures ReadItems(EncodeItems(items, p)) == items
    decreases items, 0
  {
    if items != [] {
      PlainUnchanged(items[0], p);
      PlainItemsUnchanged(items[1..], p);
      assert EncodeItems(items, p)[1..] == EncodeItems(items[1..], p);
    }
  }

  lemma {:induction false} PlainEntriesUnchanged(entries: seq<Entry>, p: Policy)
    requires AllEntriesPlain(entries)
    ensures ReadEntries(EncodeEntries(entries, p)) == entries
    decreases entries, 0
  {
    if entries != [] {
      PlainUnchanged(entries[0].value, p);
      PlainEntriesUnchanged(entries[1..], p);
      assert EncodeEntries(entries, p)[1..] == EncodeEntries(entries[1..], p);
    }
  }

  /** What is read back is plain, whatever went in, and goes out again as it came. */
  lemma {:induction false} ReadIsPlain(j: Json, p: Policy)
    ensures Plain(Read(j)) && Encode(Read(j), p) == j
    decreases j, 1
  {
    match j {
      case JList(items) => ReadItemsArePlain(items, p);
      case JDict(entries) => ReadEntriesArePlain(entries, p);
      case _ =>
    }
  }

  lemma {:induction false} ReadItemsArePlain(items: seq<Json>, p: Policy)
    ensures AllPlain(ReadItems(items)) && EncodeItems(ReadItems(items), p) == items
    decreases items, 0
  {
    if items != [] {
      ReadIsPlain(items[0], p);
      ReadItemsArePlain(items[1..], p);
      assert ReadItems(items)[1..] == ReadItems(items[1..]);
    }
  }

  lemma {:induction false} ReadEntriesArePlain(entries: seq<JEntry>, p: Policy)
    ensures AllEntriesPlain(ReadEntries(entries)) && EncodeEntries(ReadEntries(entries), p) == entries
    decreases entries, 0
  {
    if entries != [] {
      ReadIsPlain(entries[0].value, p);
      ReadEntriesArePlain(entries[1..], p);
      assert ReadEntries(entries)[1..] == ReadEntries(entries[1..]);
    }
  }

  // Positions.

  datatype Move = Item(i: nat) | Field(i: nat)

  type Path = seq<Move>

  /** The value one move away; there is no way into an object. */
  function Child(v: Py, move: Move): Option<Py> {
    match move
    case Item(i) => if v.PyList? && i < |v.items| then Some(v.items[i]) else None
    case Field(i) => if v.PyDict? && i < |v.entries| then Some(v.entries[i].value) else None
  }

  function At(v: Py, path: Path): Option<Py> {
    if path == [] then Some(v)
    else
      var child := Child(v, path[0]);
      if child.None? then None else At(child.value, path[1..])
  }

  /** The path runs into an object before its end. */
  predicate EntersObject(v: Py, path: Path) {
    path != [] &&
    (v.PyObj? || (Child(v, path[0]).Some? && EntersObject(Child(v, path[0]).value, path[1..])))
  }

  /** What a path is: it goes to the i-th item of a list or the i-th entry of a dictionary, and on
      from there; and it ends nowhere if there is none. */
  lemma PathLaws(v: Py, i: nat, rest: Path)
    ensures At(v, []) == Some(v)
    ensures v.PyList? && i < |v.items| ==> At(v, [Item(i)] + rest) == At(v.items[i], rest)
    ensures v.PyDict? && i < |v.entries| ==> At(v, [Field(i)] + rest) == At(v.entries[i].value, rest)
    ensures !(v.PyList? && i < |v.items|) ==> At(v, [Item(i)] + rest).None?
    ensures !(v.PyDict? && i < |v.entries|) ==> At(v, [Field(i)] + rest).None?
  {
    assert ([Item(i)] + rest)[1..] == rest && ([Field(i)] + rest)[1..] == rest;
  }

  /** A path enters an object exactly if some proper front part of it leads to one. */
  lemma {:induction false} EntersMeansPassesObject(v: Py, path: Path)
    ensures EntersObject(v, path) <==>
            exists k :: 0 <= k < |path| && At(v, path[..k]).Some? && At(v, path[..k]).value.PyObj?
  {
    if path != [] {
      if v.PyObj? {
        assert At(v, path[..0]) == Some(v);
      } else if Child(v, path[0]).Some? {
        var child := Child(v, path[0]).value;
        EntersMeansPassesObject(child, path[1..]);
        forall k | 0 <= k < |path| - 1
          ensures At(v, path[..k + 1]) == At(child, path[1..][..k])
        {
          assert path[..k + 1][1..] == path[1..][..k];
        }
        if k :| 0 <= k < |path| && At(v, path[..k]).Some? && At(v, path[..k]).value.PyObj? {
          assert k > 0;
          assert At(v, path[..(k - 1) + 1]) == At(child, path[1..][..k - 1]);
        }
      } else {
        assert forall k :: 0 < k < |path| ==> At(v, path[..k]).None?;
      }
    }
  }

  lemma ChildEncoded(v: Py, move: Move, p: Policy)
    requires !v.PyObj?
    ensures Child(Read(Encode(v, p)), move) ==
            if Child(v, move).None? then None else Some(Read(Encode(Child(v, move).value, p)))
  {
  }

  /** The encoding keeps the structure: outside of objects it has the positions of the value,
      and no others, and at each of them it holds the encoding of what was there.  So the only
      positions that change are those that hold an object. */
  lemma {:induction false} PositionsKept(v: Py, path: Path, p: Policy)
    requires !EntersObject(v, path)
    ensures At(Read(Encode(v, p)), path) ==
            if At(v, path).None? then None else Some(Read(Encode(At(v, path).value, p)))
  {
    if path != [] {
      ChildEncoded(v, path[0], p);
      if Child(v, path[0]).Some? {
        PositionsKept(Child(v, path[0]).value, path[1..], p);
      }
    }
  }

  /** An object is replaced by the encoding of what `Default` returns for it. */
  lemma ObjectReplaced(o: Object, p: Policy)
    ensures Chosen(o, p.listLimit).Some? ==> Encode(PyObj(o), p) == Encode(Chosen(o, p.listLimit).value, p)
    ensures Chosen(o, p.listLimit).None? ==> Encode(PyObj(o), p) == Encode(Marker(o, p), p)
  {
    var marker := Marker(o, p);
    assert Encode(marker, p) == JDict(EncodeEntries(marker.entries, p));
    assert EncodeEntries(marker.entries, p) == EncodeMarker(o, p).entries;
  }

  /** The first `n` characters. */
  function First(s: string, n: nat): (r: string)
    ensures r <= s && |r| == if |s| <= n then |s| else n
  {
    if |s| <= n then s else s[..n]
  }

  /** What a marker tells: that the object could not be encoded, its type, and the detail that the
      policy asks for.  Under the redacting mode the text is redacted before it is cut, whether it
      is the object's own or stands for one that failed; the other modes redact nothing. */
  lemma MarkerContents(o: Object, p: Policy)
    ensures var text := if o.repr.Some? then o.repr.value else "<repr failed for " + o.typeName + ">";
            var detail := match p.detail
                          case Silent => []
                          case TypeOnly => [Entry("__repr__", PyStr("<unserializable " + o.typeName + ">"))]
                          case Repr => [Entry("__repr__", PyStr(First(text, p.maxLen)))]
                          case RedactedRepr => [Entry("__repr__", PyStr(First(p.redact(text), p.maxLen)))];
            Marker(o, p) ==
            PyDict([Entry("__ffi_unserializable__", PyBool(true)), Entry("__type__", PyStr(o.typeName))] + detail)
  {
  }

  /** An object whose conversions all fail is read back as that marker. */
  lemma FailingObject(o: Object, p: Policy)
    requires !o.modelDump.Gives? && !o.toDict.Gives? && !o.asDict.Gives? && !o.isoFormat.Gives?
    requires !o.toList.Gives? || o.sizeKnownTooLarge
             || (o.toList.value.PyList? && Leaves(o.toList.value) > p.listLimit)
    ensures Read(Encode(PyObj(o), p)) == Marker(o, p)
  {
    ObjectReplaced(o, p);
    MarkerIsPlain(o, p);
    PlainUnchanged(Marker(o, p), p);
  }

  lemma MarkerIsPlain(o: Object, p: Policy)
    ensures Plain(Marker(o, p))
  {
    hide DetailOf;
    PlainValuesArePlain(Marker(o, p).entries);
  }

  lemma {:induction false} PlainValuesArePlain(entries: seq<Entry>)
    requires forall e :: e in entries ==> Plain(e.value)
    ensures AllEntriesPlain(entries)
  {
    if entries != [] {
      PlainValuesArePlain(entries[1..]);
    }
  }

  /** A marker says what the policy allows: without detail it is the same for all objects of a
      type, and otherwise its detail is bounded by the maximal length (or is the type name). */
  lemma MarkerDetail(o: Object, other: Object, p: Policy)
    ensures p.detail.Silent? && o.typeName == other.typeName ==> Marker(o, p) == Marker(other, p)
    ensures Lookup(Marker(o, p).entries, "__repr__").Some? <==> !p.detail.Silent?
    ensures p.detail.Repr? || p.detail.RedactedRepr? ==>
              exists text :: Lookup(Marker(o, p).entries, "__repr__") == Some(PyStr(text)) && |text| <= p.maxLen
  {
    var entries := Marker(o, p).entries;
    var detail := DetailOf(o, p);
    assert entries[0].key != "__repr__" && entries[1].key != "__repr__";
    assert entries[1..][1..] == if detail.Some? then [Entry("__repr__", PyStr(detail.value))] else [];
    assert Lookup(entries, "__repr__") == Lookup(entries[1..][1..], "__repr__");
    assert detail.Some? ==> Lookup(entries, "__repr__") == Some(PyStr(detail.value));
  }
}
