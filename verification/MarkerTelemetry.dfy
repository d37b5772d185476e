/**
 The telemetry of markers: the process emits one event for each type of object that could not be
 encoded, up to a cap on the number of types.
 */
module MarkerTelemetry {
  /** The types recorded so far, and the types for which an emission was attempted, in order. */
  datatype Emitted = Emitted(types: set<string>, attempts: seq<string>)

  function Marked(e: Emitted, typeName: string, cap: nat): Emitted {
    if typeName !in e.types && |e.types| < cap
    then Emitted(e.types + {typeName}, e.attempts + [typeName])
    else e
  }

  /** The state after markers of the given types, from an empty set. */
  function AllMarked(typeNames: seq<string>, cap: nat): Emitted {
    if typeNames == [] then Emitted({}, [])
    else Marked(AllMarked(typeNames[..|typeNames| - 1], cap), typeNames[|typeNames| - 1], cap)
  }

  /** The different elements, in the order in which each occurs first. */
  function Distinct(typeNames: seq<string>): (r: seq<string>) {
    if typeNames == [] then []
    else
      var earlier := Distinct(typeNames[..|typeNames| - 1]);
      var last := typeNames[|typeNames| - 1];
      if last in earlier then earlier else earlier + [last]
  }

  function Truncated<T>(s: seq<T>, cap: nat): seq<T> {
    if |s| <= cap then s else s[..cap]
  }

  /** The index of the first occurrence. */
  function First(s: seq<string>, t: string): (r: nat)
    requires t in s
    ensures r < |s| && s[r] == t && t !in s[..r]
  {
    if s[0] == t then 0
    else
      assert s == [s[0]] + s[1..];
      var later := First(s[1..], t);
      assert s[..later + 1] == [s[0]] + s[1..][..later];
      later + 1
  }

  lemma FirstIsUnique(s: seq<string>, t: string, k: nat)
    requires k < |s| && s[k] == t && t !in s[..k]
    ensures First(s, t) == k
  {
    NotInPrefix(s, t, k);
    NotInPrefix(s, t, First(s, t));
  }

  lemma NotInPrefix(s: seq<string>, t: string, k: nat)
    requires k <= |s| && t !in s[..k]
    ensures forall i :: 0 <= i < k ==> s[i] != t
  {
    forall i | 0 <= i < k
      ensures s[i] != t
    {
      assert s[i] == s[..k][i];
    }
  }

  /** `Distinct` is what its name says: it has the same elements, and they stand in the order of
      their first occurrences, so that none stands there twice. */
  lemma {:induction false} DistinctByFirstOccurrence(typeNames: seq<string>)
    ensures forall t :: t in Distinct(typeNames) <==> t in typeNames
    ensures forall a, b :: 0 <= a < b < |Distinct(typeNames)| ==>
      First(typeNames, Distinct(typeNames)[a]) < First(typeNames, Distinct(typeNames)[b])
  {
    if typeNames != [] {
      var init, last := typeNames[..|typeNames| - 1], typeNames[|typeNames| - 1];
      assert typeNames == init + [last];
      DistinctByFirstOccurrence(init);
      forall t | t in init
        ensures First(typeNames, t) == First(init, t)
      {
        var k := First(init, t);
        assert typeNames[..k] == init[..k];
        FirstIsUnique(typeNames, t, k);
      }
      assert last !in init ==> First(typeNames, last) >= |init|;
    }
  }

  lemma {:induction false} NoDuplicatesCount(s: seq<string>)
    requires forall a, b :: 0 <= a < b < |s| ==> s[a] != s[b]
    ensures |set t | t in s| == |s|
  {
    if s != [] {
      var init, last := s[..|s| - 1], s[|s| - 1];
      NoDuplicatesCount(init);
      assert (set t | t in s) == (set t | t in init) + {last};
      assert last !in init;
    }
  }

  lemma StepIsTruncation(d: seq<string>, e: Emitted, t: string, cap: nat)
    requires forall a, b :: 0 <= a < b < |d| ==> d[a] != d[b]
    requires e.attempts == Truncated(d, cap) && e.types == set u | u in e.attempts
    ensures Marked(e, t, cap).attempts == Truncated(if t in d then d else d + [t], cap)
    ensures Marked(e, t, cap).types == set u | u in Marked(e, t, cap).attempts
  {
    NoDuplicatesCount(e.attempts);
  }

  /** The emissions attempted are the different types in the order of their first markers, cut
      off at the cap; the set holds exactly these. */
  lemma {:induction false} AttemptsAreFirstDistinct(typeNames: seq<string>, cap: nat)
    ensures var attempts, all := AllMarked(typeNames, cap).attempts, Distinct(typeNames);
            attempts <= all && |attempts| == if |all| <= cap then |all| else cap
    ensures AllMarked(typeNames, cap).types == set t | t in AllMarked(typeNames, cap).attempts
  {
    if typeNames != [] {
      var init := typeNames[..|typeNames| - 1];
      AttemptsAreFirstDistinct(init, cap);
      DistinctByFirstOccurrence(init);
      StepIsTruncation(Distinct(init), AllMarked(init, cap), typeNames[|typeNames| - 1], cap);
    }
  }

  /** The module-level set of `_unserializable_marker`, and the calls of the telemetry backend. */
  class MarkerTelemetry {
    var types: set<string>
    ghost var attempts: seq<string>
    ghost var markers: seq<string>
    const cap: nat

    ghost predicate Valid()
      reads this
    {
      Emitted(types, attempts) == AllMarked(markers, cap)
    }

    constructor (cap: nat)
      ensures Valid() && markers == [] && this.cap == cap
    {
      this.cap := cap;
      types, attempts, markers := {}, [], [];
    }

    /** One marker.  The type is recorded before the backend is called, and an exception of the
        backend is swallowed, so that `backendRaises` makes no difference. */
    method Mark(typeName: string, backendRaises: bool)
      requires Valid()
      modifies this
      ensures Valid() && markers == old(markers) + [typeName]
      ensures attempts <= Distinct(markers)
      ensures |attempts| == if |Distinct(markers)| <= cap then |Distinct(markers)| else cap
      ensures types == set t | t in attempts
    {
      ghost var before := markers;
      markers := markers + [typeName];
      if typeName !in types {
        if |types| < cap {
          types := types + {typeName};
          var _ := Emit(typeName, backendRaises);
        }
      }
      assert markers[..|markers| - 1] == before;
      AttemptsAreFirstDistinct(markers, cap);
    }

    /** The call of the backend: an attempt, whether or not it raises. */
    method Emit(typeName: string, backendRaises: bool) returns (raised: bool)
      modifies `attempts
      ensures attempts == old(attempts) + [typeName] && raised == backendRaises
    {
      attempts := attempts + [typeName];
      raised := backendRaises;
    }
  }
}
