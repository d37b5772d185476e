/**
 The per-session registry of heartbeat clients, under any interleaving of concurrent calls
 that ensure a client, stop one, or stop them all.

 `Clients` is the dictionary with the bodies that run under the lock; `Reg` is the whole
 registry, with one program counter per call.
 */
module HeartbeatRegistry {
  import opened Common

  type Session = string
  type ClientId = nat

  class Clients {
    var clients: map<Session, ClientId>
    var created: nat

    constructor ()
      ensures clients == map[] && created == 0
    {
      clients, created := map[], 0;
    }

    /** The second check and the registration, under the lock. */
    method EnsureLocked(session: Session) returns (client: ClientId)
      modifies this
      ensures clients == EnsuredClients(old(clients), session, old(created))
      ensures created == if session in old(clients) then old(created) else old(created) + 1
      ensures session in clients && client == clients[session]
    {
      if session in clients {
        return clients[session];
      }
      client := created;
      created := created + 1;
      clients := clients[session := client];
    }

    method PopLocked(session: Session) returns (client: Option<ClientId>)
      modifies this`clients
      ensures clients == old(clients) - {session}
      ensures client == if session in old(clients) then Some(old(clients)[session]) else None
    {
      client := if session in clients then Some(clients[session]) else None;
      clients := clients - {session};
    }

    method TakeAllLocked() returns (all: set<ClientId>)
      modifies this`clients
      ensures clients == map[] && all == old(clients).Values
    {
      all := clients.Values;
      clients := map[];
    }
  }

  function EnsuredClients(clients: map<Session, ClientId>, session: Session, id: ClientId)
    : map<Session, ClientId>
  {
    if session in clients then clients else clients[session := id]
  }

  datatype Call = Ensure(session: Session) | Stop(session: Session) | StopAll

  datatype Pc =
    | Checking(call: Call)           // before the check without the lock
    | Waiting(call: Call)            // at `async with`
    | Holding(call: Call)            // has the lock, body not run yet
    | Releasing(owed: set<ClientId>) // body done, lock not released yet
    | Stopping(owed: set<ClientId>)  // clients this call has removed but not stopped yet

  datatype Reg = Reg(
    enabled: bool,
    clients: map<Session, ClientId>,
    lock: Option<nat>,                   // the call that has it
    calls: seq<Pc>,
    // history
    created: seq<Session>,               // the session of each client, in order of creation
    removed: map<ClientId, nat>,         // the call that removed a client
    stopped: set<ClientId>)

  function Init(enabled: bool): Reg {
    Reg(enabled, map[], None, [], [], map[], {})
  }

  datatype Step = Arrive(call: Call) | Advance(i: nat) | StopOne(i: nat, client: ClientId)

  function Owed(pc: Pc): set<ClientId> {
    if pc.Releasing? || pc.Stopping? then pc.owed else {}
  }

  predicate HasLock(pc: Pc) {
    pc.Holding? || pc.Releasing?
  }

  predicate Enabled(r: Reg, step: Step) {
    match step
    case Arrive(_) => true
    case Advance(i) => i < |r.calls| && !r.calls[i].Stopping? && (r.calls[i].Waiting? ==> r.lock.None?)
    case StopOne(i, client) => i < |r.calls| && r.calls[i].Stopping? && client in r.calls[i].owed
  }

  /** The check without the lock: is there anything left to do? */
  predicate Needed(r: Reg, call: Call) {
    match call
    case Ensure(session) => r.enabled && session !in r.clients
    case Stop(_) => r.enabled
    case StopAll => r.clients != map[]
  }

  /** Call `i` removes the clients of some sessions, and owes them a stop. */
  function Removed(r: Reg, i: nat, sessions: set<Session>): Reg
    requires i < |r.calls|
  {
    var gone := set session | session in sessions && session in r.clients :: r.clients[session];
    r.(clients := r.clients - sessions,
       removed := r.removed + (map id | id in gone :: i),
       calls := r.calls[i := Releasing(gone)])
  }

  /** Call `i` registers a new client, unless the session has one. */
  function Ensured(r: Reg, i: nat, session: Session): Reg
    requires i < |r.calls|
  {
    r.(clients := EnsuredClients(r.clients, session, |r.created|),
       created := if session in r.clients then r.created else r.created + [session],
       calls := r.calls[i := Releasing({})])
  }

  /** The body under the lock. */
  function Body(r: Reg, i: nat, call: Call): Reg
    requires i < |r.calls|
  {
    match call
    case Ensure(session) => Ensured(r, i, session)
    case Stop(session) => Removed(r, i, {session})
    case StopAll => Removed(r, i, r.clients.Keys)
  }

  /** A call moves on without touching a client. */
  function Moved(r: Reg, i: nat, lock: Option<nat>, pc: Pc): Reg
    requires i < |r.calls|
  {
    r.(lock := lock, calls := r.calls[i := pc])
  }

  function StoppedOne(r: Reg, i: nat, client: ClientId): Reg
    requires i < |r.calls| && r.calls[i].Stopping?
  {
    r.(stopped := r.stopped + {client}, calls := r.calls[i := Stopping(r.calls[i].owed - {client})])
  }

  function Apply(r: Reg, step: Step): Reg
    requires Enabled(r, step)
  {
    match step
    case Arrive(call) => r.(calls := r.calls + [Checking(call)])
    case Advance(i) =>
      (match r.calls[i]
       case Checking(call) => Moved(r, i, r.lock, if Needed(r, call) then Waiting(call) else Stopping({}))
       case Waiting(call) => Moved(r, i, Some(i), Holding(call))
       case Holding(call) => Body(r, i, call)
       case Releasing(owed) => Moved(r, i, None, Stopping(owed))
       case Stopping(_) => r)
    case StopOne(i, client) => StoppedOne(r, i, client)
  }

  // What every step keeps.

  /** The lock is with the call that says so, and with no other. */
  predicate Exclusive(r: Reg) {
    forall i :: 0 <= i < |r.calls| ==> (HasLock(r.calls[i]) <==> r.lock == Some(i))
  }

  /** A registered client was created for its session and has not been removed. */
  predicate Registered(r: Reg) {
    forall s :: s in r.clients ==>
      r.clients[s] < |r.created| && r.created[r.clients[s]] == s && r.clients[s] !in r.removed
  }

  /** A client that was created is registered or was removed. */
  predicate NoneLost(r: Reg) {
    forall id :: 0 <= id < |r.created| && id !in r.removed ==>
      r.created[id] in r.clients && r.clients[r.created[id]] == id
  }

  /** A removed client was stopped, or is owed a stop by the call that removed it. */
  predicate RemovedAreOwed(r: Reg) {
    forall id :: id in r.removed ==>
      id < |r.created| && r.removed[id] < |r.calls|
      && (id in r.stopped || id in Owed(r.calls[r.removed[id]]))
  }

  /** What a call owes a stop, it has removed, and nobody has stopped. */
  predicate OwedAreRemoved(r: Reg) {
    forall i, id :: 0 <= i < |r.calls| && id in Owed(r.calls[i]) ==>
      id in r.removed && r.removed[id] == i && id !in r.stopped
  }

  predicate StopsOwed(r: Reg) {
    RemovedAreOwed(r) && OwedAreRemoved(r) && forall id :: id in r.stopped ==> id in r.removed
  }

  predicate Inv(r: Reg) {
    Exclusive(r) && (r.lock.Some? ==> r.lock.value < |r.calls|) && Registered(r) && NoneLost(r) && StopsOwed(r)
  }

  lemma RemovedKeeps(r: Reg, i: nat, sessions: set<Session>)
    requires Inv(r) && i < |r.calls| && r.calls[i].Holding?
    ensures Inv(Removed(r, i, sessions))
  {
    var t := Removed(r, i, sessions);
    assert Exclusive(t);
    assert Registered(t);
    assert NoneLost(t);
    RemovedOwes(r, i, sessions);
  }

  lemma RemovedOwes(r: Reg, i: nat, sessions: set<Session>)
    requires Registered(r) && StopsOwed(r) && i < |r.calls| && r.calls[i].Holding?
    ensures StopsOwed(Removed(r, i, sessions))
  {
    var t := Removed(r, i, sessions);
    assert RemovedAreOwed(t) by {
      hide OwedAreRemoved;
      forall id | id in t.removed
        ensures id < |t.created| && t.removed[id] < |t.calls|
        ensures id in t.stopped || id in Owed(t.calls[t.removed[id]])
      {
        if id in Owed(t.calls[i]) {
          assert t.removed[id] == i;
        } else {
          assert id in r.removed && t.removed[id] == r.removed[id];
        }
      }
    }
    assert OwedAreRemoved(t) by {
      hide RemovedAreOwed;
      forall j, id | 0 <= j < |t.calls| && id in Owed(t.calls[j])
        ensures id in t.removed && t.removed[id] == j && id !in t.stopped
      {
        if j != i {
          assert t.calls[j] == r.calls[j] && id in r.removed;
        }
      }
    }
  }

  lemma EnsuredKeeps(r: Reg, i: nat, session: Session)
    requires Inv(r) && i < |r.calls| && r.calls[i].Holding?
    ensures Inv(Ensured(r, i, session))
  {
    var t := Ensured(r, i, session);
    assert forall j :: 0 <= j < |r.calls| ==>
      Owed(t.calls[j]) == Owed(r.calls[j]) && HasLock(t.calls[j]) == HasLock(r.calls[j]);
    assert Exclusive(t) && StopsOwed(t);
    assert Registered(t) && NoneLost(t);
  }

  lemma MovedKeeps(r: Reg, i: nat, lock: Option<nat>, pc: Pc)
    requires Inv(r) && i < |r.calls| && Owed(pc) == Owed(r.calls[i])
    requires if HasLock(pc) then lock == Some(i) && (r.lock.None? || r.lock == lock)
             else if HasLock(r.calls[i]) then lock.None? else lock == r.lock
    ensures Inv(Moved(r, i, lock, pc))
  {
  }

  lemma ArriveKeeps(r: Reg, call: Call)
    requires Inv(r)
    ensures Inv(r.(calls := r.calls + [Checking(call)]))
  {
  }

  lemma StopOneKeeps(r: Reg, i: nat, client: ClientId)
    requires Inv(r) && i < |r.calls| && r.calls[i].Stopping? && client in r.calls[i].owed
    ensures Inv(StoppedOne(r, i, client))
  {
  }

  lemma InvKept(r: Reg, step: Step)
    requires Inv(r) && Enabled(r, step)
    ensures Inv(Apply(r, step))
  {
    hide Inv, Removed, Ensured, Moved, StoppedOne;
    match step {
      case Arrive(call) => ArriveKeeps(r, call);
      case Advance(i) =>
        match r.calls[i] {
          case Checking(call) => MovedKeeps(r, i, r.lock, if Needed(r, call) then Waiting(call) else Stopping({}));
          case Waiting(call) => MovedKeeps(r, i, Some(i), Holding(call));
          case Holding(Ensure(session)) => EnsuredKeeps(r, i, session);
          case Holding(Stop(session)) => RemovedKeeps(r, i, {session});
          case Holding(StopAll) => RemovedKeeps(r, i, r.clients.Keys);
          case Releasing(owed) => MovedKeeps(r, i, None, Stopping(owed));
          case Stopping(_) =>
        }
      case StopOne(i, client) => StopOneKeeps(r, i, client);
    }
  }

  predicate CanRun(r: Reg, steps: seq<Step>)
    decreases |steps|
  {
    steps == [] || (Enabled(r, steps[0]) && CanRun(Apply(r, steps[0]), steps[1..]))
  }

  function Run(r: Reg, steps: seq<Step>): Reg
    requires CanRun(r, steps)
    decreases |steps|
  {
    if steps == [] then r else Run(Apply(r, steps[0]), steps[1..])
  }

  lemma {:induction false} RunKeepsInv(r: Reg, steps: seq<Step>)
    requires Inv(r) && CanRun(r, steps)
    ensures Inv(Run(r, steps))
    decreases |steps|
  {
    hide Inv, Apply, Enabled;
    if steps != [] {
      InvKept(r, steps[0]);
      RunKeepsInv(Apply(r, steps[0]), steps[1..]);
    }
  }

  function CreatedFor(r: Reg, session: Session): set<ClientId> {
    set id | 0 <= id < |r.created| && r.created[id] == session
  }

  function RemovedFor(r: Reg, session: Session): set<ClientId> {
    set id | id in r.removed && id < |r.created| && r.created[id] == session
  }

  /** Conservation: for any interleaving of calls, the clients created for a session are those
      removed for it and the one that is registered, if any; and every removed client was
      stopped or is one that the call that removed it goes on to stop. */
  lemma RegistryConservation(enabled: bool, steps: seq<Step>, session: Session)
    requires CanRun(Init(enabled), steps)
    ensures var r := Run(Init(enabled), steps);
            && |CreatedFor(r, session)| ==
               |RemovedFor(r, session)| + (if session in r.clients then 1 else 0)
            && (forall a, b :: {a, b} <= CreatedFor(r, session) - RemovedFor(r, session) ==> a == b)
            && (forall id :: id in r.removed ==>
                  id in r.stopped || (r.removed[id] < |r.calls| && id in Owed(r.calls[r.removed[id]])))
  {
    assert Inv(Init(enabled));
    RunKeepsInv(Init(enabled), steps);
    var r := Run(Init(enabled), steps);
    if session in r.clients {
      assert CreatedFor(r, session) == RemovedFor(r, session) + {r.clients[session]};
    } else {
      assert CreatedFor(r, session) == RemovedFor(r, session);
    }
  }

  /** No client is stopped twice: the one stopped next was not stopped before. */
  lemma StoppedOnce(enabled: bool, steps: seq<Step>, i: nat, client: ClientId)
    requires CanRun(Init(enabled), steps) && Enabled(Run(Init(enabled), steps), StopOne(i, client))
    ensures client !in Run(Init(enabled), steps).stopped
    ensures client !in Run(Init(enabled), steps).clients.Values
  {
    RunKeepsInv(Init(enabled), steps);
    var r := Run(Init(enabled), steps);
    assert client in Owed(r.calls[i]);
  }

  predicate Returned(pc: Pc) {
    pc.Stopping? && pc.owed == {}
  }

  /** The calls never lock each other out: while one has not returned, one can move.  When all
      have returned, every removed client has been stopped. */
  lemma CallsReturn(enabled: bool, steps: seq<Step>)
    requires CanRun(Init(enabled), steps)
    ensures var r := Run(Init(enabled), steps);
            if forall i :: 0 <= i < |r.calls| ==> Returned(r.calls[i]) then
              r.stopped == r.removed.Keys && r.lock.None?
            else
              exists step: Step :: !step.Arrive? && Enabled(r, step)
  {
    RunKeepsInv(Init(enabled), steps);
    var r := Run(Init(enabled), steps);
    if i :| 0 <= i < |r.calls| && !Returned(r.calls[i]) {
      if r.lock.Some? {
        assert HasLock(r.calls[r.lock.value]);
        assert Enabled(r, Advance(r.lock.value));
      } else if r.calls[i].Stopping? {
        var client :| client in r.calls[i].owed;
        assert Enabled(r, StopOne(i, client));
      } else {
        assert Enabled(r, Advance(i));
      }
    } else {
      assert r.lock.Some? ==> HasLock(r.calls[r.lock.value]);
    }
  }

  // The calls come to an end.

  /** How far a call still has to go, in steps of its own; a call that may yet register a client
      counts that client too, since somebody may have to stop it. */
  function CallRank(pc: Pc): nat {
    match pc
    case Checking(_) => 6
    case Waiting(_) => 5
    case Holding(_) => 4
    case Releasing(owed) => 1 + |owed|
    case Stopping(owed) => |owed|
  }

  function CallRanks(calls: seq<Pc>): nat {
    if calls == [] then 0 else CallRanks(calls[..|calls| - 1]) + CallRank(calls[|calls| - 1])
  }

  function Rank(r: Reg): nat {
    |r.clients| + CallRanks(r.calls)
  }

  lemma {:induction false} RanksUpdate(calls: seq<Pc>, i: nat, pc: Pc)
    requires i < |calls|
    ensures CallRanks(calls[i := pc]) == CallRanks(calls) - CallRank(calls[i]) + CallRank(pc)
  {
    var init := calls[..|calls| - 1];
    if i == |init| {
      assert calls[i := pc][..|init|] == init;
    } else {
      RanksUpdate(init, i, pc);
      assert calls[i := pc][..|init|] == init[i := pc];
    }
  }

  /** There are no more clients than sessions they were registered for. */
  lemma {:induction false} ImageIsNoLarger(clients: map<Session, ClientId>, sessions: set<Session>)
    requires sessions <= clients.Keys
    ensures |set session | session in sessions :: clients[session]| <= |sessions|
    decreases |sessions|
  {
    var image := set session | session in sessions :: clients[session];
    if sessions != {} {
      var session :| session in sessions;
      var rest := sessions - {session};
      ImageIsNoLarger(clients, rest);
      var smaller := set other | other in rest :: clients[other];
      assert image == smaller + {clients[session]};
    }
  }

  lemma RemovedDecreases(r: Reg, i: nat, sessions: set<Session>)
    requires i < |r.calls| && r.calls[i].Holding?
    ensures Rank(Removed(r, i, sessions)) < Rank(r)
  {
    var gone := set session | session in sessions && session in r.clients :: r.clients[session];
    var found := sessions * r.clients.Keys;
    ImageIsNoLarger(r.clients, found);
    assert gone == set session | session in found :: r.clients[session];
    RanksUpdate(r.calls, i, Releasing(gone));
    var left := r.clients - sessions;
    assert left.Keys == r.clients.Keys - found;
    assert |left.Keys| == |left| && |r.clients.Keys| == |r.clients|;
  }

  lemma EnsuredDecreases(r: Reg, i: nat, session: Session)
    requires i < |r.calls| && r.calls[i].Holding?
    ensures Rank(Ensured(r, i, session)) < Rank(r)
  {
    RanksUpdate(r.calls, i, Releasing({}));
    if session !in r.clients {
      var more := r.clients[session := |r.created|];
      assert more.Keys == r.clients.Keys + {session};
      assert |more.Keys| == |more| && |r.clients.Keys| == |r.clients|;
    }
  }

  lemma MovedDecreases(r: Reg, i: nat, lock: Option<nat>, pc: Pc)
    requires i < |r.calls| && CallRank(pc) < CallRank(r.calls[i])
    ensures Rank(Moved(r, i, lock, pc)) < Rank(r)
  {
    RanksUpdate(r.calls, i, pc);
  }

  lemma StoppedDecreases(r: Reg, i: nat, client: ClientId)
    requires i < |r.calls| && r.calls[i].Stopping? && client in r.calls[i].owed
    ensures Rank(StoppedOne(r, i, client)) < Rank(r)
  {
    RanksUpdate(r.calls, i, Stopping(r.calls[i].owed - {client}));
  }

  /** Every step of a call that is there brings the registry closer to rest. */
  lemma RankDecreases(r: Reg, step: Step)
    requires Enabled(r, step) && !step.Arrive?
    ensures Rank(Apply(r, step)) < Rank(r)
  {
    hide Rank, Removed, Ensured, Moved, StoppedOne, Needed;
    match step {
      case Advance(i) =>
        match r.calls[i] {
          case Checking(call) => MovedDecreases(r, i, r.lock, if Needed(r, call) then Waiting(call) else Stopping({}));
          case Waiting(call) => MovedDecreases(r, i, Some(i), Holding(call));
          case Holding(Ensure(session)) => EnsuredDecreases(r, i, session);
          case Holding(Stop(session)) => RemovedDecreases(r, i, {session});
          case Holding(StopAll) => RemovedDecreases(r, i, r.clients.Keys);
          case Releasing(owed) => MovedDecreases(r, i, None, Stopping(owed));
        }
      case StopOne(i, client) => StoppedDecreases(r, i, client);
    }
  }

  /** The calls that are there take a bounded number of steps, whatever their interleaving.  With
      `CallsReturn`, every one of them returns. */
  lemma {:induction false} CallsAreBounded(r: Reg, steps: seq<Step>)
    requires CanRun(r, steps)
    requires forall i :: 0 <= i < |steps| ==> !steps[i].Arrive?
    ensures |steps| + Rank(Run(r, steps)) <= Rank(r)
    decreases |steps|
  {
    hide Apply, Enabled, Rank;
    if steps != [] {
      RankDecreases(r, steps[0]);
      assert forall i :: 0 <= i < |steps| - 1 ==> steps[1..][i] == steps[i + 1];
      CallsAreBounded(Apply(r, steps[0]), steps[1..]);
    }
  }

  // What the calls achieve.

  /** The call that has not run its body yet, if it is still to be decided whether it will. */
  function Pending(pc: Pc): Option<Call> {
    if pc.Checking? || pc.Waiting? || pc.Holding? then Some(pc.call) else None
  }

  predicate AllReturned(r: Reg) {
    forall i :: 0 <= i < |r.calls| ==> Returned(r.calls[i])
  }

  predicate IsPending(r: Reg, call: Call) {
    exists i :: 0 <= i < |r.calls| && Pending(r.calls[i]) == Some(call)
  }

  lemma NothingPending(r: Reg, call: Call)
    requires AllReturned(r)
    ensures !IsPending(r, call)
  {
  }

  /** A pending call stays pending when another one moves. */
  lemma PendingStays(r: Reg, t: Reg, i: nat, call: Call)
    requires IsPending(r, call) && i < |r.calls| == |t.calls| && Pending(r.calls[i]) != Some(call)
    requires forall j :: 0 <= j < |r.calls| && j != i ==> t.calls[j] == r.calls[j]
    ensures IsPending(t, call)
  {
    var j :| 0 <= j < |r.calls| && Pending(r.calls[j]) == Some(call);
    assert Pending(t.calls[j]) == Some(call);
  }

  /** The check without the lock ends a call only if there is nothing for it to do: the heartbeat
      is switched off, the session has its client already, or there is no client to stop. */
  lemma CheckEndsOnlyIfDone(r: Reg, i: nat)
    requires Enabled(r, Advance(i)) && r.calls[i].Checking?
    ensures var call, t := r.calls[i].call, Apply(r, Advance(i));
            && t.clients == r.clients && t.created == r.created
            && (Returned(t.calls[i]) <==>
                match call
                case Ensure(session) => !r.enabled || session in r.clients
                case Stop(session) => !r.enabled
                case StopAll => r.clients == map[])
            && (!Returned(t.calls[i]) ==> t.calls[i] == Waiting(call))
  {
  }

  /** What the body of a call does to the registry. */
  lemma BodyEffect(r: Reg, i: nat)
    requires Enabled(r, Advance(i)) && r.calls[i].Holding?
    ensures var call, t := r.calls[i].call, Apply(r, Advance(i));
            match call
            case Ensure(session) =>
              && session in t.clients && t.clients - {session} == r.clients - {session}
              && (if session in r.clients then t.clients == r.clients && t.created == r.created
                  else t.clients[session] == |r.created| && t.created == r.created + [session])
            case Stop(session) =>
              session !in t.clients && t.clients - {session} == r.clients - {session} && t.created == r.created
            case StopAll =>
              t.clients == map[] && t.created == r.created
  {
  }

  /** Sessions asked for by the arrivals of a run. */
  function AskedFor(steps: seq<Step>): set<Session> {
    set i | 0 <= i < |steps| && steps[i].Arrive? && !steps[i].call.StopAll? :: steps[i].call.session
  }

  lemma AskedForCons(steps: seq<Step>)
    requires steps != []
    ensures AskedFor(steps) ==
            (if steps[0].Arrive? && !steps[0].call.StopAll? then {steps[0].call.session} else {}) + AskedFor(steps[1..])
  {
    assert forall i :: 0 <= i < |steps| - 1 ==> steps[1..][i] == steps[i + 1];
    forall session | session in AskedFor(steps)
      ensures session in (if steps[0].Arrive? && !steps[0].call.StopAll? then {steps[0].call.session} else {})
                         + AskedFor(steps[1..])
    {
      var i :| 0 <= i < |steps| && steps[i].Arrive? && !steps[i].call.StopAll? && steps[i].call.session == session;
      if i > 0 {
        assert steps[1..][i - 1].call.session == session;
      }
    }
    forall session | session in AskedFor(steps[1..])
      ensures session in AskedFor(steps)
    {
      var i :| 0 <= i < |steps| - 1 && steps[1..][i].Arrive? && !steps[1..][i].call.StopAll?
               && steps[1..][i].call.session == session;
      assert steps[i + 1].call.session == session;
    }
  }

  // Only ensures.

  /** The sessions asked for are registered or have a call pending, and nothing else is. */
  predicate Ensuring(r: Reg, asked: set<Session>) {
    && r.enabled
    && r.clients.Keys <= asked
    && (forall i :: 0 <= i < |r.calls| && Pending(r.calls[i]).Some? ==>
          r.calls[i].call.Ensure? && r.calls[i].call.session in asked)
    && (forall s :: s in asked ==> s in r.clients || IsPending(r, Ensure(s)))
  }

  lemma EnsuringKept(r: Reg, asked: set<Session>, step: Step)
    requires Ensuring(r, asked) && Enabled(r, step) && (step.Arrive? ==> step.call.Ensure?)
    ensures Ensuring(Apply(r, step), if step.Arrive? then asked + {step.call.session} else asked)
  {
    var t := Apply(r, step);
    var more := if step.Arrive? then asked + {step.call.session} else asked;
    forall s | s in more
      ensures s in t.clients || IsPending(t, Ensure(s))
    {
      if step.Arrive? {
        if s == step.call.session {
          assert Pending(t.calls[|r.calls|]) == Some(Ensure(s));
        } else if s !in r.clients {
          var j :| 0 <= j < |r.calls| && Pending(r.calls[j]) == Some(Ensure(s));
          assert Pending(t.calls[j]) == Some(Ensure(s));
        }
      } else if s !in t.clients {
        var i := if step.Advance? then step.i else step.i;
        if Pending(r.calls[i]) == Some(Ensure(s)) {
          assert Pending(t.calls[i]) == Some(Ensure(s));
        } else {
          PendingStays(r, t, i, Ensure(s));
        }
      }
    }
  }

  lemma {:induction false} EnsuringRun(r: Reg, asked: set<Session>, steps: seq<Step>)
    requires Ensuring(r, asked) && CanRun(r, steps)
    requires forall i :: 0 <= i < |steps| && steps[i].Arrive? ==> steps[i].call.Ensure?
    ensures Ensuring(Run(r, steps), asked + AskedFor(steps))
    decreases |steps|
  {
    hide Ensuring, Apply, Enabled, AskedFor;
    if steps == [] {
      assert asked + AskedFor(steps) == asked by { assert AskedFor([]) == {} by { NothingAsked(); } }
    } else {
      EnsuringKept(r, asked, steps[0]);
      assert forall i :: 0 <= i < |steps| - 1 ==> steps[1..][i] == steps[i + 1];
      var more := if steps[0].Arrive? then asked + {steps[0].call.session} else asked;
      EnsuringRun(Apply(r, steps[0]), more, steps[1..]);
      AskedForCons(steps);
      assert more + AskedFor(steps[1..]) == asked + AskedFor(steps);
    }
  }

  lemma NothingAsked()
    ensures AskedFor([]) == {}
  {
  }

  /** When calls to ensure a client have all returned, exactly the sessions asked for have one. */
  lemma EnsuredAreRegistered(steps: seq<Step>)
    requires CanRun(Init(true), steps) && AllReturned(Run(Init(true), steps))
    requires forall i :: 0 <= i < |steps| && steps[i].Arrive? ==> steps[i].call.Ensure?
    ensures Run(Init(true), steps).clients.Keys ==
            set i | 0 <= i < |steps| && steps[i].Arrive? && !steps[i].call.StopAll? :: steps[i].call.session
  {
    EnsuringRun(Init(true), {}, steps);
    var r := Run(Init(true), steps);
    assert {} + AskedFor(steps) == AskedFor(steps);
    forall s | s in AskedFor(steps)
      ensures s in r.clients
    {
      NothingPending(r, Ensure(s));
    }
  }

  // Only stops.

  predicate AllAsked(steps: seq<Step>) {
    exists i :: 0 <= i < |steps| && steps[i] == Arrive(StopAll)
  }

  /** What is asked to be stopped is gone or has a call pending, and the rest is as it was. */
  predicate Halting(before: Reg, r: Reg, asked: set<Session>, all: bool) {
    && r.enabled
    && (forall i :: 0 <= i < |r.calls| && Pending(r.calls[i]).Some? ==>
          match r.calls[i].call
          case Ensure(_) => false
          case Stop(s) => s in asked
          case StopAll => all)
    && r.clients.Items <= before.clients.Items
    && (forall s :: s in before.clients ==> s in r.clients || s in asked || all)
    && (forall s :: s in asked ==> s !in r.clients || IsPending(r, Stop(s)))
    && (all ==> r.clients == map[] || IsPending(r, StopAll))
  }

  /** A call to stop clients stays pending until they are gone. */
  lemma StopStaysPending(r: Reg, step: Step, call: Call)
    requires r.enabled && Enabled(r, step) && !call.Ensure? && (IsPending(r, call) || step == Arrive(call))
    ensures var t := Apply(r, step);
            IsPending(t, call) || (if call.StopAll? then t.clients == map[] else call.session !in t.clients)
  {
    var t := Apply(r, step);
    if step == Arrive(call) {
      assert Pending(t.calls[|r.calls|]) == Some(call);
    } else if step.Arrive? {
      var j :| 0 <= j < |r.calls| && Pending(r.calls[j]) == Some(call);
      assert Pending(t.calls[j]) == Some(call);
    } else if Pending(r.calls[step.i]) == Some(call) {
      assert Pending(t.calls[step.i]) == Some(call) ==> IsPending(t, call);
    } else {
      PendingStays(r, t, step.i, call);
    }
  }

  /** A step of a call takes no client but those that it was asked to stop, and adds none if it is
      no ensure. */
  lemma StopTakesItsOwn(r: Reg, step: Step)
    requires Enabled(r, step) && (step.Advance? && Pending(r.calls[step.i]).Some? ==> !r.calls[step.i].call.Ensure?)
    ensures var t := Apply(r, step);
            && t.enabled == r.enabled && t.clients.Items <= r.clients.Items
            && forall s :: s in r.clients && s !in t.clients ==>
                 step.Advance? && r.calls[step.i].Holding? &&
                 (r.calls[step.i].call == StopAll || r.calls[step.i].call == Stop(s))
  {
  }

  lemma PendingComesFrom(r: Reg, step: Step, i: nat)
    requires Enabled(r, step) && i < |Apply(r, step).calls| && Pending(Apply(r, step).calls[i]).Some?
    ensures var call := Apply(r, step).calls[i].call;
            step == Arrive(call) || (i < |r.calls| && Pending(r.calls[i]) == Some(call))
  {
  }

  lemma HaltingKept(before: Reg, r: Reg, asked: set<Session>, all: bool, step: Step)
    requires Halting(before, r, asked, all) && Enabled(r, step) && (step.Arrive? ==> !step.call.Ensure?)
    ensures Halting(before, Apply(r, step),
                    if step.Arrive? && step.call.Stop? then asked + {step.call.session} else asked,
                    all || step == Arrive(StopAll))
  {
    var t := Apply(r, step);
    StopTakesItsOwn(r, step);
    forall i | 0 <= i < |t.calls| && Pending(t.calls[i]).Some?
      ensures step == Arrive(t.calls[i].call) || (i < |r.calls| && Pending(r.calls[i]) == Some(t.calls[i].call))
    {
      PendingComesFrom(r, step, i);
    }
    if step == Arrive(StopAll) || (all && IsPending(r, StopAll)) {
      StopStaysPending(r, step, StopAll);
    }
    forall s | step == Arrive(Stop(s)) || (s in asked && IsPending(r, Stop(s)))
      ensures s !in t.clients || IsPending(t, Stop(s))
    {
      StopStaysPending(r, step, Stop(s));
    }
    NoneAppear(r.clients, t.clients);
    hide IsPending, Apply, Enabled, Pending;
  }

  lemma NoneAppear(clients: map<Session, ClientId>, fewer: map<Session, ClientId>)
    requires fewer.Items <= clients.Items
    ensures fewer.Keys <= clients.Keys && (clients == map[] ==> fewer == map[])
  {
    forall s | s in fewer
      ensures s in clients
    {
      assert (s, fewer[s]) in clients.Items;
    }
  }

  lemma {:induction false} HaltingRun(before: Reg, r: Reg, asked: set<Session>, all: bool, steps: seq<Step>)
    requires Halting(before, r, asked, all) && CanRun(r, steps)
    requires forall i :: 0 <= i < |steps| && steps[i].Arrive? ==> !steps[i].call.Ensure?
    ensures Halting(before, Run(r, steps), asked + AskedFor(steps), all || AllAsked(steps))
    decreases |steps|
  {
    hide Halting, Apply, Enabled, AskedFor, AllAsked;
    if steps == [] {
      NothingAsked();
      assert asked + AskedFor(steps) == asked;
      assert !AllAsked(steps) by { NoneAsked(); }
    } else {
      HaltingKept(before, r, asked, all, steps[0]);
      assert forall i :: 0 <= i < |steps| - 1 ==> steps[1..][i] == steps[i + 1];
      var more := if steps[0].Arrive? && steps[0].call.Stop? then asked + {steps[0].call.session} else asked;
      HaltingRun(before, Apply(r, steps[0]), more, all || steps[0] == Arrive(StopAll), steps[1..]);
      AskedForCons(steps);
      AllAskedCons(steps);
      assert more + AskedFor(steps[1..]) == asked + AskedFor(steps);
    }
  }

  lemma NoneAsked()
    ensures !AllAsked([])
  {
  }

  lemma AllAskedCons(steps: seq<Step>)
    requires steps != []
    ensures AllAsked(steps) <==> steps[0] == Arrive(StopAll) || AllAsked(steps[1..])
  {
    if AllAsked(steps) {
      var i :| 0 <= i < |steps| && steps[i] == Arrive(StopAll);
      assert i > 0 ==> steps[1..][i - 1] == Arrive(StopAll);
    }
    if AllAsked(steps[1..]) {
      var i :| 0 <= i < |steps| - 1 && steps[1..][i] == Arrive(StopAll);
      assert steps[i + 1] == Arrive(StopAll);
    }
  }

  /** When calls to stop clients have all returned, from a registry at rest, exactly the clients
      that they were asked to stop are gone; the others are as they were. */
  lemma StoppedAreGone(r: Reg, steps: seq<Step>)
    requires r.enabled && AllReturned(r)
    requires CanRun(r, steps) && AllReturned(Run(r, steps))
    requires forall i :: 0 <= i < |steps| && steps[i].Arrive? ==> !steps[i].call.Ensure?
    ensures var t := Run(r, steps);
            forall s ::
              && (s in t.clients <==> s in r.clients && forall call ::
                    Arrive(call) in steps ==> call != StopAll && call != Stop(s))
              && (s in t.clients ==> t.clients[s] == r.clients[s])
  {
    HaltingRun(r, r, {}, false, steps);
    var t := Run(r, steps);
    forall s
      ensures s in t.clients <==> s in r.clients && forall call ::
                Arrive(call) in steps ==> call != StopAll && call != Stop(s)
      ensures s in t.clients ==> t.clients[s] == r.clients[s]
    {
      NothingPending(t, StopAll);
      NothingPending(t, Stop(s));
      if s in t.clients {
        assert (s, t.clients[s]) in t.clients.Items;
        assert (s, t.clients[s]) in r.clients.Items;
        forall call | Arrive(call) in steps
          ensures call != StopAll && call != Stop(s)
        {
          var i :| 0 <= i < |steps| && steps[i] == Arrive(call);
          assert call == StopAll ==> AllAsked(steps);
          assert call == Stop(s) ==> s in AskedFor(steps);
        }
      } else if s in r.clients {
        if s in AskedFor(steps) {
          var i :| 0 <= i < |steps| && steps[i].Arrive? && !steps[i].call.StopAll? && steps[i].call.session == s;
          assert Arrive(Stop(s)) in steps;
        }
      }
    }
  }

  // Switched off.

  predicate Off(r: Reg) {
    && !r.enabled && r.clients == map[] && r.created == []
    && forall i :: 0 <= i < |r.calls| ==> r.calls[i].Checking? || r.calls[i] == Stopping({})
  }

  lemma OffKept(r: Reg, step: Step)
    requires Off(r) && Enabled(r, step)
    ensures Off(Apply(r, step))
  {
  }

  lemma {:induction false} OffRun(r: Reg, steps: seq<Step>)
    requires Off(r) && CanRun(r, steps)
    ensures Off(Run(r, steps))
    decreases |steps|
  {
    hide Off, Apply, Enabled;
    if steps != [] {
      OffKept(r, steps[0]);
      OffRun(Apply(r, steps[0]), steps[1..]);
    }
  }

  /** With the heartbeat switched off, no client is ever created. */
  lemma DisabledCreatesNone(steps: seq<Step>)
    requires CanRun(Init(false), steps)
    ensures Run(Init(false), steps).created == [] && Run(Init(false), steps).clients == map[]
  {
    OffRun(Init(false), steps);
  }

  lemma RunCons(r: Reg, step: Step, rest: seq<Step>)
    requires Enabled(r, step) && CanRun(Apply(r, step), rest)
    ensures CanRun(r, [step] + rest) && Run(r, [step] + rest) == Run(Apply(r, step), rest)
  {
    hide Apply, Enabled;
    assert ([step] + rest)[1..] == rest;
  }

  /** Call `i`, which nobody hinders, goes from its check to its end. */
  lemma Unhindered(r: Reg, i: nat) returns (steps: seq<Step>)
    requires i < |r.calls| && r.calls[i].Checking? && r.lock.None? && Needed(r, r.calls[i].call)
    ensures CanRun(r, steps)
    ensures var t := Body(Moved(Moved(r, i, None, Waiting(r.calls[i].call)), i, Some(i), Holding(r.calls[i].call)),
                          i, r.calls[i].call);
            Run(r, steps) == Moved(t, i, None, Stopping(Owed(t.calls[i])))
  {
    var call := r.calls[i].call;
    var waiting := Apply(r, Advance(i));
    var holding := Apply(waiting, Advance(i));
    var done := Apply(holding, Advance(i));
    var released := Apply(done, Advance(i));
    assert CanRun(released, []);
    RunCons(done, Advance(i), []);
    RunCons(holding, Advance(i), [Advance(i)] + []);
    RunCons(waiting, Advance(i), [Advance(i)] + ([Advance(i)] + []));
    RunCons(r, Advance(i), [Advance(i)] + ([Advance(i)] + ([Advance(i)] + [])));
    steps := [Advance(i)] + ([Advance(i)] + ([Advance(i)] + ([Advance(i)] + [])));
  }

  lemma {:induction false} RunConcat(r: Reg, first: seq<Step>, rest: seq<Step>)
    requires CanRun(r, first) && CanRun(Run(r, first), rest)
    ensures CanRun(r, first + rest) && Run(r, first + rest) == Run(Run(r, first), rest)
    decreases |first|
  {
    hide Apply, Enabled;
    if first == [] {
      assert first + rest == rest;
    } else {
      RunConcat(Apply(r, first[0]), first[1..], rest);
      assert (first + rest)[0] == first[0] && (first + rest)[1..] == first[1..] + rest;
    }
  }

  /** The only client is removed by a stop. */
  lemma RemovesTheOne(r: Reg, i: nat, session: Session)
    requires i < |r.calls| && r.clients == map[session := 0]
    ensures var t := Removed(r, i, {session});
            t.clients == map[] && t.calls == r.calls[i := Releasing({0})] && t.stopped == r.stopped && t.lock == r.lock
  {
    var t := Removed(r, i, {session});
    assert session in r.clients && r.clients[session] == 0;
    assert t.calls[i].owed == {0};
    assert t.clients == map[] by {
      assert forall s :: s !in t.clients;
    }
  }

  lemma Registers(session: Session) returns (up: seq<Step>)
    ensures CanRun(Init(true), up)
    ensures var r := Run(Init(true), up);
            && r.clients == map[session := 0] && r.calls == [Stopping({})] && r.lock.None? && r.enabled
            && r.stopped == {}
  {
    var arrived := Apply(Init(true), Arrive(Ensure(session)));
    up := Unhindered(arrived, 0);
    RunCons(Init(true), Arrive(Ensure(session)), up);
    up := [Arrive(Ensure(session))] + up;
  }

  lemma Unregisters(r: Reg, session: Session) returns (down: seq<Step>)
    requires r.clients == map[session := 0] && r.calls == [Stopping({})] && r.lock.None? && r.enabled
    requires r.stopped == {}
    ensures CanRun(r, down)
    ensures var t := Run(r, down); t.clients == map[] && t.stopped == {0} && AllReturned(t)
  {
    hide Removed;
    var asked := Apply(r, Arrive(Stop(session)));
    down := Unhindered(asked, 1);
    var held := Moved(Moved(asked, 1, None, Waiting(Stop(session))), 1, Some(1), Holding(Stop(session)));
    RemovesTheOne(held, 1, session);
    var t := Run(asked, down);
    assert t.clients == map[] && t.calls == [Stopping({}), Stopping({0})];
    var last := Apply(t, StopOne(1, 0));
    assert t.calls[1].owed - {0} == {};
    assert CanRun(last, []) && last.calls == [Stopping({}), Stopping({})];
    RunCons(t, StopOne(1, 0), []);
    RunConcat(asked, down, [StopOne(1, 0)] + []);
    down := down + ([StopOne(1, 0)] + []);
    RunCons(r, Arrive(Stop(session)), down);
    down := [Arrive(Stop(session))] + down;
  }

  /** A run in which a client is registered, and one in which it is then removed and stopped. */
  lemma LifeOfAClient(session: Session) returns (up: seq<Step>, down: seq<Step>)
    ensures CanRun(Init(true), up) && CanRun(Init(true), up + down)
    ensures Run(Init(true), up).clients == map[session := 0] && AllReturned(Run(Init(true), up))
    ensures var r := Run(Init(true), up + down);
            r.clients == map[] && r.stopped == {0} && AllReturned(r)
  {
    hide Run, CanRun;
    up := Registers(session);
    down := Unregisters(Run(Init(true), up), session);
    RunConcat(Init(true), up, down);
  }
}
