/**
 The thread-safety checker: an index from methods to threads, one from threads to methods,
 times per method, and warnings.  `log` is what the indexes are an index of: the accesses since
 the last reset.
 */
module ThreadSafety {
  datatype Access = Access(thread: int, name: string, time: real)

  datatype Stats = Stats(calls: nat, totalTime: real, methods: set<string>)

  const NO_STATS := Stats(0, 0.0, {})

  /** The libraries in the order in which they are looked at. */
  const UNSAFE_LIBRARIES := ["matplotlib", "sqlite3", "pandas"]

  function ConcurrentKey(name: string): string {
    name + "_concurrent"
  }

  function LibraryKey(name: string): string {
    "unsafe_lib_" + name
  }

  lemma KeysDiffer(name: string, other: string, library: string)
    requires library in UNSAFE_LIBRARIES
    ensures ConcurrentKey(name) != LibraryKey(library)
    ensures ConcurrentKey(name) == ConcurrentKey(other) ==> name == other
  {
    var key := ConcurrentKey(name);
    assert key[|key| - 1] == 't';
    assert LibraryKey(library)[|LibraryKey(library)| - 1] != 't';
    if key == ConcurrentKey(other) {
      assert name == key[..|name|] && other == ConcurrentKey(other)[..|other|];
    }
  }

  function ThreadsOf(log: seq<Access>, name: string): set<int> {
    set i | 0 <= i < |log| && log[i].name == name :: log[i].thread
  }

  function MethodsOf(log: seq<Access>, thread: int): set<string> {
    set i | 0 <= i < |log| && log[i].thread == thread :: log[i].name
  }

  function CallsOf(log: seq<Access>, thread: int): nat {
    if log == [] then 0
    else CallsOf(log[..|log| - 1], thread) + (if log[|log| - 1].thread == thread then 1 else 0)
  }

  function TimesOf(log: seq<Access>, name: string): seq<real> {
    if log == [] then []
    else
      var last := log[|log| - 1];
      TimesOf(log[..|log| - 1], name) + (if last.name == name then [last.time] else [])
  }

  /** The places of the accesses that a test picks out. */
  function Places(log: seq<Access>, picks: Access -> bool): set<nat> {
    set i: nat | i < |log| && picks(log[i])
  }

  lemma PlacesGrow(log: seq<Access>, a: Access, picks: Access -> bool)
    ensures |Places(log + [a], picks)| == |Places(log, picks)| + (if picks(a) then 1 else 0)
  {
    var longer := log + [a];
    assert forall i :: 0 <= i < |log| ==> longer[i] == log[i];
    assert Places(longer, picks) == Places(log, picks) + (if picks(a) then {|log|} else {});
  }

  /** `CallsOf` counts the accesses of a thread, and `TimesOf` has one time for each access of a
      method. */
  lemma {:induction false} AccessesAreCounted(log: seq<Access>, thread: int, name: string)
    ensures CallsOf(log, thread) == |Places(log, (a: Access) => a.thread == thread)|
    ensures |TimesOf(log, name)| == |Places(log, (a: Access) => a.name == name)|
  {
    hide Places;
    var byThread, byName := (a: Access) => a.thread == thread, (a: Access) => a.name == name;
    if log == [] {
      NoPlaces(byThread);
      NoPlaces(byName);
    } else {
      var init, last := log[..|log| - 1], log[|log| - 1];
      AccessesAreCounted(init, thread, name);
      PlacesGrow(init, last, byThread);
      PlacesGrow(init, last, byName);
      assert log == init + [last];
    }
  }

  lemma NoPlaces(picks: Access -> bool)
    ensures Places([], picks) == {}
  {
  }

  /** And in order: the time of access `i` stands right behind those of the accesses before it. */
  lemma {:induction false} TimesAreListed(log: seq<Access>, name: string, i: nat)
    requires i < |log| && log[i].name == name
    ensures var place := |TimesOf(log[..i], name)|;
            place < |TimesOf(log, name)| && TimesOf(log, name)[place] == log[i].time
  {
    var init := log[..|log| - 1];
    if i < |init| {
      TimesAreListed(init, name, i);
      assert init[..i] == log[..i];
    } else {
      assert log[..i] == init;
    }
  }

  function AccessMapAt(m: map<string, set<int>>, name: string): set<int> {
    if name in m then m[name] else {}
  }

  function TimesAt(m: map<string, seq<real>>, name: string): seq<real> {
    if name in m then m[name] else []
  }

  function StatsAt(m: map<int, Stats>, thread: int): Stats {
    if thread in m then m[thread] else NO_STATS
  }

  // Each table says about every method or thread what the log says.

  ghost predicate MapIndexes(accessMap: map<string, set<int>>, log: seq<Access>) {
    && (forall m :: AccessMapAt(accessMap, m) == ThreadsOf(log, m))
    && (forall m :: m in accessMap ==> accessMap[m] != {})
  }

  ghost predicate TimesIndex(accessTimes: map<string, seq<real>>, log: seq<Access>) {
    forall m :: TimesAt(accessTimes, m) == TimesOf(log, m)
  }

  ghost predicate StatsIndex(threadStats: map<int, Stats>, log: seq<Access>) {
    && (forall t :: StatsAt(threadStats, t).calls == CallsOf(log, t))
    && (forall t :: StatsAt(threadStats, t).methods == MethodsOf(log, t))
  }

  ghost predicate WarningsIndex(warnings: set<string>, log: seq<Access>) {
    forall m :: ConcurrentKey(m) in warnings <==> |ThreadsOf(log, m)| > 1
  }

  ghost predicate Indexes(
    accessMap: map<string, set<int>>, accessTimes: map<string, seq<real>>, threadStats: map<int, Stats>,
    warnings: set<string>, log: seq<Access>)
  {
    && MapIndexes(accessMap, log)
    && TimesIndex(accessTimes, log)
    && StatsIndex(threadStats, log)
    && WarningsIndex(warnings, log)
  }

  lemma LogGrows(log: seq<Access>, a: Access)
    ensures forall m :: ThreadsOf(log + [a], m) == ThreadsOf(log, m) + (if a.name == m then {a.thread} else {})
    ensures forall t :: MethodsOf(log + [a], t) == MethodsOf(log, t) + (if a.thread == t then {a.name} else {})
    ensures forall t :: CallsOf(log + [a], t) == CallsOf(log, t) + (if a.thread == t then 1 else 0)
    ensures forall m :: TimesOf(log + [a], m) == TimesOf(log, m) + (if a.name == m then [a.time] else [])
  {
    var longer := log + [a];
    assert longer[..|log|] == log && longer[|log|] == a;
    forall m
      ensures ThreadsOf(longer, m) == ThreadsOf(log, m) + (if a.name == m then {a.thread} else {})
    {
      assert forall i :: 0 <= i < |log| ==> longer[i] == log[i];
      forall t | t in ThreadsOf(log, m)
        ensures t in ThreadsOf(longer, m)
      {
        var i :| 0 <= i < |log| && log[i].name == m && log[i].thread == t;
        assert longer[i].name == m;
      }
    }
    forall t
      ensures MethodsOf(longer, t) == MethodsOf(log, t) + (if a.thread == t then {a.name} else {})
    {
      assert forall i :: 0 <= i < |log| ==> longer[i] == log[i];
      forall m | m in MethodsOf(log, t)
        ensures m in MethodsOf(longer, t)
      {
        var i :| 0 <= i < |log| && log[i].thread == t && log[i].name == m;
        assert longer[i].thread == t;
      }
    }
  }

  /** The updates of `check_method_access`, on the tables as values. */
  function AccessedMap(m: map<string, set<int>>, a: Access): map<string, set<int>> {
    m[a.name := AccessMapAt(m, a.name) + {a.thread}]
  }

  function AccessedTimes(m: map<string, seq<real>>, a: Access): map<string, seq<real>> {
    m[a.name := TimesAt(m, a.name) + [a.time]]
  }

  function AccessedStats(m: map<int, Stats>, a: Access): map<int, Stats> {
    var stats := StatsAt(m, a.thread);
    m[a.thread := stats.(calls := stats.calls + 1, methods := stats.methods + {a.name})]
  }

  lemma AccessKeepsTables(
    accessMap: map<string, set<int>>, accessTimes: map<string, seq<real>>, threadStats: map<int, Stats>,
    log: seq<Access>, a: Access)
    requires MapIndexes(accessMap, log) && TimesIndex(accessTimes, log) && StatsIndex(threadStats, log)
    ensures MapIndexes(AccessedMap(accessMap, a), log + [a])
    ensures TimesIndex(AccessedTimes(accessTimes, a), log + [a])
    ensures StatsIndex(AccessedStats(threadStats, a), log + [a])
    ensures AccessMapAt(accessMap, a.name) + {a.thread} == ThreadsOf(log + [a], a.name)
    ensures forall t :: StatsAt(AccessedStats(threadStats, a), t).totalTime == StatsAt(threadStats, t).totalTime
  {
    hide ThreadsOf, MethodsOf, CallsOf, TimesOf;
    LogGrows(log, a);
  }

  lemma AddingGrows(threads: set<int>, thread: int)
    ensures |threads| <= |threads + {thread}|
  {
    if thread in threads {
      assert threads + {thread} == threads;
    }
  }

  lemma AccessKeepsWarnings(warnings: set<string>, log: seq<Access>, a: Access)
    requires WarningsIndex(warnings, log)
    ensures |ThreadsOf(log, a.name)| <= |ThreadsOf(log + [a], a.name)|
    ensures ConcurrentKey(a.name) in warnings <==> |ThreadsOf(log, a.name)| > 1
    ensures WarningsIndex(
              if |ThreadsOf(log + [a], a.name)| > 1 then warnings + {ConcurrentKey(a.name)} else warnings,
              log + [a])
  {
    hide ThreadsOf, ConcurrentKey;
    LogGrows(log, a);
    forall m
      ensures ConcurrentKey(m) == ConcurrentKey(a.name) ==> m == a.name
    {
      KeysDiffer(m, a.name, "pandas");
    }
    AddingGrows(ThreadsOf(log, a.name), a.thread);
  }

  /** The i-th library is the first one that is imported and has no warning yet, and gets one. */
  predicate StopsAt(before: set<string>, after: set<string>, imported: set<string>, i: nat) {
    var libraries := ["matplotlib", "sqlite3", "pandas"];
    && i < 3 && libraries[i] in imported
    && LibraryKey(libraries[i]) !in before && after == before + {LibraryKey(libraries[i])}
    && forall j :: 0 <= j < i && libraries[j] in imported ==> LibraryKey(libraries[j]) in before
  }

  lemma StopsHere(before: set<string>, after: set<string>, imported: set<string>, i: nat, found: set<string>)
    requires i < 3 && UNSAFE_LIBRARIES[i] in imported
    requires found == set j | 0 <= j < i && UNSAFE_LIBRARIES[j] in imported :: LibraryKey(UNSAFE_LIBRARIES[j])
    requires found <= before && after == before + {LibraryKey(UNSAFE_LIBRARIES[i])}
    requires LibraryKey(UNSAFE_LIBRARIES[i]) !in before
    ensures StopsAt(before, after, imported, i)
  {
    hide LibraryKey;
    assert UNSAFE_LIBRARIES == ["matplotlib", "sqlite3", "pandas"];
  }

  class ThreadSafetyChecker {
    var enabled: bool
    const strict: bool
    var accessMap: map<string, set<int>>
    var accessTimes: map<string, seq<real>>
    var threadStats: map<int, Stats>
    var warningsIssued: set<string>
    ghost var log: seq<Access>

    ghost predicate Valid()
      reads this
    {
      Indexes(accessMap, accessTimes, threadStats, warningsIssued, log)
    }

    constructor (enabled: bool, strict: bool)
      ensures Valid() && log == [] && this.enabled == enabled && this.strict == strict
    {
      this.enabled, this.strict := enabled, strict;
      accessMap, accessTimes, threadStats, warningsIssued := map[], map[], map[], {};
      log := [];
    }

    /** Records an access.  The access that makes a method concurrent adds its warning, and in
        strict mode raises, with the tables already updated. */
    method CheckMethodAccess(a: Access) returns (raised: bool)
      requires Valid()
      modifies this`accessMap, this`accessTimes, this`threadStats, this`warningsIssued, this`log
      ensures Valid() && log == if enabled then old(log) + [a] else old(log)
      ensures raised ==
              (enabled && strict && |ThreadsOf(old(log), a.name)| <= 1 && |ThreadsOf(old(log) + [a], a.name)| > 1)
      ensures !enabled ==> unchanged(this)
      ensures forall t :: StatsAt(threadStats, t).totalTime == StatsAt(old(threadStats), t).totalTime
    {
      hide MapIndexes, TimesIndex, StatsIndex, WarningsIndex, ThreadsOf, ConcurrentKey, AccessedMap, AccessedTimes,
           AccessedStats, AccessMapAt, TimesAt, StatsAt;
      raised := false;
      if !enabled {
        return;
      }
      AccessKeepsTables(accessMap, accessTimes, threadStats, log, a);
      AccessKeepsWarnings(warningsIssued, log, a);
      var threads := AccessMapAt(accessMap, a.name) + {a.thread};
      accessMap := AccessedMap(accessMap, a);
      accessTimes := AccessedTimes(accessTimes, a);
      threadStats := AccessedStats(threadStats, a);
      log := log + [a];
      if |threads| > 1 {
        var key := ConcurrentKey(a.name);
        if key !in warningsIssued {
          warningsIssued := warningsIssued + {key};
          raised := strict;
        }
        assert warningsIssued == old(warningsIssued) + {key};
      }
    }

    /** The end of `track_execution`: the thread's time grows, and nothing else. */
    method TrackExecution(thread: int, elapsed: real)
      requires Valid()
      modifies this`threadStats
      ensures Valid()
      ensures StatsAt(threadStats, thread).totalTime ==
              StatsAt(old(threadStats), thread).totalTime + (if enabled then elapsed else 0.0)
      ensures forall t :: t != thread ==> StatsAt(threadStats, t) == StatsAt(old(threadStats), t)
    {
      if !enabled {
        return;
      }
      var stats := StatsAt(threadStats, thread);
      threadStats := threadStats[thread := stats.(totalTime := stats.totalTime + elapsed)];
    }

    /** The warning about one library of the list; `check_library_safety` stops at the first
        one that raises. */
    method WarnLibrary(library: string, imported: set<string>) returns (raised: bool)
      requires Valid() && library in UNSAFE_LIBRARIES
      modifies this`warningsIssued
      ensures Valid()
      ensures warningsIssued ==
              old(warningsIssued) + (if enabled && library in imported then {LibraryKey(library)} else {})
      ensures raised == (enabled && strict && library in imported && LibraryKey(library) !in old(warningsIssued))
    {
      raised := false;
      if enabled && library in imported && LibraryKey(library) !in warningsIssued {
        forall m
          ensures ConcurrentKey(m) != LibraryKey(library)
        {
          KeysDiffer(m, m, library);
        }
        warningsIssued := warningsIssued + {LibraryKey(library)};
        raised := strict;
      }
    }

    /** `disable_checking`: what was recorded stays, and nothing more is recorded. */
    method Disable()
      requires Valid()
      modifies this`enabled
      ensures Valid() && !enabled
    {
      enabled := false;
    }

    /** `check_library_safety`: every library of the list that is imported has its warning, unless
        strict mode raises; it does so at the first one that is new, and leaves the others. */
    method CheckLibrarySafety(imported: set<string>) returns (raised: bool)
      requires Valid()
      modifies this`warningsIssued
      ensures Valid()
      ensures raised <==> enabled && strict && exists library ::
                library in ["matplotlib", "sqlite3", "pandas"] && library in imported
                && LibraryKey(library) !in old(warningsIssued)
      ensures !raised ==>
                warningsIssued == old(warningsIssued) +
                  (if enabled
                   then set library | library in ["matplotlib", "sqlite3", "pandas"] && library in imported ::
                          LibraryKey(library)
                   else {})
      ensures raised ==> exists i :: StopsAt(old(warningsIssued), warningsIssued, imported, i)
    {
      hide LibraryKey, Indexes, StopsAt;
      raised := false;
      if !enabled {
        return;
      }
      ghost var found: set<string> := {};
      for i := 0 to 3
        invariant Valid() && !raised
        invariant warningsIssued == old(warningsIssued) + found
        invariant found == set j | 0 <= j < i && UNSAFE_LIBRARIES[j] in imported :: LibraryKey(UNSAFE_LIBRARIES[j])
        invariant strict ==> found <= old(warningsIssued)
      {
        raised := WarnLibrary(UNSAFE_LIBRARIES[i], imported);
        if raised {
          StopsHere(old(warningsIssued), warningsIssued, imported, i, found);
          return;
        }
        found := found + if UNSAFE_LIBRARIES[i] in imported then {LibraryKey(UNSAFE_LIBRARIES[i])} else {};
      }
    }

    method Reset()
      modifies this`accessMap, this`accessTimes, this`threadStats, this`warningsIssued, this`log
      ensures Valid() && log == []
    {
      accessMap, accessTimes, threadStats, warningsIssued := map[], map[], map[], {};
      log := [];
    }

    /** The `concurrent_accesses` of the report. */
    method ConcurrentAccesses() returns (report: map<string, nat>)
      requires Valid()
      ensures forall m :: m in report <==> |ThreadsOf(log, m)| > 1
      ensures forall m :: m in report ==> report[m] == |ThreadsOf(log, m)|
      ensures forall m :: m in report <==> ConcurrentKey(m) in warningsIssued
    {
      report := map m | m in accessMap && |accessMap[m]| > 1 :: |accessMap[m]|;
      forall m
        ensures m in report <==> |ThreadsOf(log, m)| > 1
        ensures m in report ==> report[m] == |ThreadsOf(log, m)|
      {
        assert AccessMapAt(accessMap, m) == ThreadsOf(log, m);
      }
    }
  }

  /** The two indexes are inverse to each other, after any run of accesses, timings and resets. */
  lemma IndexesAreInverse(
    accessMap: map<string, set<int>>, accessTimes: map<string, seq<real>>, threadStats: map<int, Stats>,
    warnings: set<string>, log: seq<Access>, t: int, m: string)
    requires Indexes(accessMap, accessTimes, threadStats, warnings, log)
    ensures t in AccessMapAt(accessMap, m) <==> m in StatsAt(threadStats, t).methods
  {
    assert t in ThreadsOf(log, m) <==> m in MethodsOf(log, t) by {
      if t in ThreadsOf(log, m) {
        var i :| 0 <= i < |log| && log[i].name == m && log[i].thread == t;
      }
      if m in MethodsOf(log, t) {
        var i :| 0 <= i < |log| && log[i].thread == t && log[i].name == m;
      }
    }
  }

  // Totals.

  ghost function SumOver<K>(keys: set<K>, f: K -> nat): nat {
    if keys == {} then 0
    else
      var k :| k in keys;
      f(k) + SumOver(keys - {k}, f)
  }

  lemma {:induction false} SumTakes<K>(keys: set<K>, f: K -> nat, k: K)
    requires k in keys
    ensures SumOver(keys, f) == f(k) + SumOver(keys - {k}, f)
    decreases keys
  {
    var j :| j in keys && SumOver(keys, f) == f(j) + SumOver(keys - {j}, f);
    if j != k {
      SumTakes(keys - {j}, f, k);
      SumTakes(keys - {k}, f, j);
      assert keys - {j} - {k} == keys - {k} - {j};
    }
  }

  lemma {:induction false} SumAgrees<K>(keys: set<K>, f: K -> nat, g: K -> nat)
    requires forall k :: k in keys ==> f(k) == g(k)
    ensures SumOver(keys, f) == SumOver(keys, g)
    decreases keys
  {
    if keys != {} {
      var k :| k in keys;
      SumTakes(keys, f, k);
      SumTakes(keys, g, k);
      SumAgrees(keys - {k}, f, g);
    }
  }

  lemma SumGrows<K>(keys: set<K>, f: K -> nat, g: K -> nat, k: K)
    requires k in keys && g(k) == f(k) + 1
    requires forall j :: j in keys && j != k ==> g(j) == f(j)
    ensures SumOver(keys, g) == SumOver(keys, f) + 1
  {
    SumTakes(keys, f, k);
    SumTakes(keys, g, k);
    SumAgrees(keys - {k}, f, g);
  }

  lemma {:induction false} SumOfZeros<K>(keys: set<K>, f: K -> nat)
    requires forall k :: k in keys ==> f(k) == 0
    ensures SumOver(keys, f) == 0
    decreases keys
  {
    if keys != {} {
      var k :| k in keys;
      SumTakes(keys, f, k);
      SumOfZeros(keys - {k}, f);
    }
  }

  /** Each access is counted once by thread and once by method. */
  lemma {:induction false} EachAccessCountedOnce(log: seq<Access>, threads: set<int>, names: set<string>)
    requires forall i :: 0 <= i < |log| ==> log[i].thread in threads && log[i].name in names
    ensures SumOver(threads, t => CallsOf(log, t)) == |log|
    ensures SumOver(names, m => |TimesOf(log, m)|) == |log|
    decreases |log|
  {
    if log == [] {
      SumOfZeros(threads, t => CallsOf(log, t));
      SumOfZeros(names, m => |TimesOf(log, m)|);
    } else {
      var shorter, last := log[..|log| - 1], log[|log| - 1];
      EachAccessCountedOnce(shorter, threads, names);
      SumGrows(threads, t => CallsOf(shorter, t), t => CallsOf(log, t), last.thread);
      SumGrows(names, m => |TimesOf(shorter, m)|, m => |TimesOf(log, m)|, last.name);
    }
  }

  /** The calls counted by thread and the times kept by method have the same total, which is
      the number of accesses since the reset. */
  lemma TotalsAgree(
    accessMap: map<string, set<int>>, accessTimes: map<string, seq<real>>, threadStats: map<int, Stats>,
    warnings: set<string>, log: seq<Access>)
    requires Indexes(accessMap, accessTimes, threadStats, warnings, log)
    ensures SumOver(threadStats.Keys, t => StatsAt(threadStats, t).calls) == |log|
    ensures SumOver(accessTimes.Keys, m => |TimesAt(accessTimes, m)|) == |log|
  {
    forall i | 0 <= i < |log|
      ensures log[i].thread in threadStats && log[i].name in accessTimes
    {
      assert log[i].name in MethodsOf(log, log[i].thread);
      TimesAreKept(log, i);
    }
    EachAccessCountedOnce(log, threadStats.Keys, accessTimes.Keys);
    SumAgrees(threadStats.Keys, t => CallsOf(log, t), t => StatsAt(threadStats, t).calls);
    SumAgrees(accessTimes.Keys, m => |TimesOf(log, m)|, m => |TimesAt(accessTimes, m)|);
  }

  lemma {:induction false} TimesAreKept(log: seq<Access>, i: nat)
    requires i < |log|
    ensures TimesOf(log, log[i].name) != []
    decreases |log|
  {
    if i < |log| - 1 {
      TimesAreKept(log[..|log| - 1], i);
    }
  }
}
