/**
 The Python values that the serializer meets.  An object carries the outcomes of the foreign
 calls that the encoders would make on it.
 */
module PyValues {
  import opened Common

  datatype Float = NaN | PosInf | NegInf | Finite(value: real)

  datatype Py =
    | PyNone
    | PyBool(b: bool)
    | PyInt(i: int)
    | PyFloat(f: Float)
    | PyStr(s: string)
    | PyList(items: seq<Py>)
    | PyDict(entries: seq<Entry>)
    | PyObj(o: Object)

  datatype Entry = Entry(key: string, value: Py)

  /** A conversion method: the object does not have it, it raises, or it returns a value. */
  datatype Conv = Absent | Raises | Gives(value: Py)

  datatype Object = Object(
    typeName: string,
    modelDump: Conv,
    toDict: Conv,
    asDict: Conv,
    toList: Conv,
    sizeKnownTooLarge: bool,    // _pre_check_tolist_size(obj) is False
    isoFormat: Conv,
    repr: Option<string>)       // None when repr(obj) raises

  /** The leaves of a nested list; anything that is not a list is one leaf. */
  function Leaves(v: Py): nat
    decreases v, 1
  {
    if v.PyList? then LeavesOf(v.items) else 1
  }

  function LeavesOf(vs: seq<Py>): nat
    decreases vs, 0
  {
    if vs == [] then 0 else Leaves(vs[0]) + LeavesOf(vs[1..])
  }

  /** The lists of a nested list, itself included. */
  function Lists(v: Py): nat
    decreases v, 1
  {
    if v.PyList? then 1 + ListsOf(v.items) else 1
  }

  function ListsOf(vs: seq<Py>): nat
    decreases vs, 0
  {
    if vs == [] then 0 else Lists(vs[0]) + ListsOf(vs[1..])
  }

  lemma {:induction false} SumsSnoc(vs: seq<Py>, v: Py)
    ensures LeavesOf(vs + [v]) == LeavesOf(vs) + Leaves(v)
    ensures ListsOf(vs + [v]) == ListsOf(vs) + Lists(v)
  {
    if vs == [] {
      assert vs + [v] == [v];
    } else {
      assert (vs + [v])[1..] == vs[1..] + [v] && (vs + [v])[0] == vs[0];
      SumsSnoc(vs[1..], v);
    }
  }

  /** The laws that fix the count: a value that is no list counts one, a list counts what its
      items count together, and that adds up over any division of the items. */
  lemma {:induction false} LeavesLaws(v: Py, front: seq<Py>, back: seq<Py>)
    ensures !v.PyList? ==> Leaves(v) == 1
    ensures v.PyList? ==> Leaves(v) == LeavesOf(v.items)
    ensures LeavesOf([]) == 0 && LeavesOf([v]) == Leaves(v)
    ensures LeavesOf(front + back) == LeavesOf(front) + LeavesOf(back)
    decreases |back|
  {
    if back == [] {
      assert front + back == front;
    } else {
      LeavesLaws(v, front, back[..|back| - 1]);
      SumsSnoc(front + back[..|back| - 1], back[|back| - 1]);
      SumsSnoc(back[..|back| - 1], back[|back| - 1]);
      assert back == back[..|back| - 1] + [back[|back| - 1]];
      assert front + back == front + back[..|back| - 1] + [back[|back| - 1]];
    }
  }

  function Min(a: int, b: int): int {
    if a <= b then a else b
  }

  /** `_count_list_elements`: the stack loop counts the leaves, and stops one past the limit. */
  method CountListElements(value: Py, maxCount: nat) returns (count: nat)
    ensures count == Min(Leaves(value), maxCount + 1)
  {
    count := 0;
    var stack := [value];
    assert LeavesOf([value]) == Leaves(value);
    while stack != [] && count <= maxCount
      invariant count <= maxCount + 1 && count + LeavesOf(stack) == Leaves(value)
      decreases ListsOf(stack)
    {
      var item := stack[|stack| - 1];
      assert stack == stack[..|stack| - 1] + [item];
      SumsSnoc(stack[..|stack| - 1], item);
      stack := stack[..|stack| - 1];
      if item.PyList? {
        ghost var depth := ListsOf(stack) + Lists(item);
        var i := 0;
        while i < |item.items|
          invariant 0 <= i <= |item.items| && count <= maxCount
          invariant count + LeavesOf(stack) + LeavesOf(item.items[i..]) == Leaves(value)
          invariant ListsOf(stack) + ListsOf(item.items[i..]) < depth
        {
          var elem := item.items[i];
          if elem.PyList? {
            SumsSnoc(stack, elem);
            stack := stack + [elem];
          } else {
            count := count + 1;
            if count > maxCount {
              return;
            }
          }
          i := i + 1;
        }
      } else {
        count := count + 1;
      }
    }
  }

  /** The value under a key; Python dicts have each key once. */
  function Lookup(entries: seq<Entry>, key: string): Option<Py> {
    if entries == [] then None
    else if entries[0].key == key then Some(entries[0].value)
    else Lookup(entries[1..], key)
  }

  /** A key is found if and only if some entry has it, and then the first one that does counts. */
  lemma {:induction false} LookupIsFirst(entries: seq<Entry>, key: string)
    ensures Lookup(entries, key).None? <==> forall i :: 0 <= i < |entries| ==> entries[i].key != key
    ensures forall i :: 0 <= i < |entries| && entries[i].key == key
                        && (forall j :: 0 <= j < i ==> entries[j].key != key) ==>
              Lookup(entries, key) == Some(entries[i].value)
  {
    if entries != [] {
      LookupIsFirst(entries[1..], key);
      assert entries == [entries[0]] + entries[1..];
      forall i | 0 <= i < |entries| && entries[i].key == key && (forall j :: 0 <= j < i ==> entries[j].key != key)
        ensures Lookup(entries, key) == Some(entries[i].value)
      {
        if i > 0 {
          assert entries[1..][i - 1] == entries[i];
          assert forall j :: 0 <= j < i - 1 ==> entries[1..][j] == entries[j + 1];
        }
      }
    }
  }

  /** `bool(value)`; objects are left at their default. */
  predicate Truthy(v: Py) {
    match v
    case PyNone => false
    case PyBool(b) => b
    case PyInt(i) => i != 0
    case PyFloat(f) => f != Finite(0.0)
    case PyStr(s) => s != ""
    case PyList(items) => items != []
    case PyDict(entries) => entries != []
    case PyObj(_) => true
  }

  /** The values that count as false, and no others do. */
  lemma FalsyValues(v: Py)
    ensures !Truthy(v) <==>
            v in {PyNone, PyBool(false), PyInt(0), PyFloat(Finite(0.0)), PyStr(""), PyList([]), PyDict([])}
  {
  }
}
