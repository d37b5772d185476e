/**
 The heartbeat client: a counter of consecutive misses, and a handler that is called when the
 counter reaches the threshold.
 */
module HeartbeatClient {
  /** The outcome of one ping: a reply, or a failure and whether the handler, should it be
      called, raises. */
  datatype Ping = Replied | Failed(handlerRaises: bool)

  /** A call of the threshold handler: at which ping, and with which number of misses. */
  datatype Notice = Notice(at: nat, missed: nat)

  /** `run` is the number of failures at the end of `pings`. */
  predicate IsTrailingRun(pings: seq<Ping>, run: nat) {
    && run <= |pings|
    && (forall i :: |pings| - run <= i < |pings| ==> pings[i].Failed?)
    && (run < |pings| ==> pings[|pings| - run - 1].Replied?)
  }

  lemma TrailingRunIsUnique(pings: seq<Ping>, a: nat, b: nat)
    requires IsTrailingRun(pings, a) && IsTrailingRun(pings, b)
    ensures a == b
  {
    assert a < |pings| ==> pings[|pings| - a - 1].Replied?;
    assert b < |pings| ==> pings[|pings| - b - 1].Replied?;
  }

  /** The handler is called at ping `i` with `run` misses. */
  predicate Notifies(pings: seq<Ping>, threshold: nat, i: nat, run: nat)
    requires i < |pings|
  {
    pings[i].Failed? && IsTrailingRun(pings[..i + 1], run) && run >= threshold
  }

  /** The notices are those that the pings call for, in order: none is missing, and none is
      there twice. */
  ghost predicate Faithful(pings: seq<Ping>, threshold: nat, notices: seq<Notice>) {
    && (forall k :: 0 <= k < |notices| ==>
          notices[k].at < |pings| && Notifies(pings, threshold, notices[k].at, notices[k].missed))
    && (forall j, k :: 0 <= j < k < |notices| ==> notices[j].at < notices[k].at)
    && (forall i, run :: 0 <= i < |pings| && Notifies(pings, threshold, i, run) ==>
          exists k :: 0 <= k < |notices| && notices[k] == Notice(i, run))
  }

  lemma RunAfter(pings: seq<Ping>, run: nat, ping: Ping)
    requires IsTrailingRun(pings, run)
    ensures IsTrailingRun(pings + [ping], if ping.Failed? then run + 1 else 0)
  {
  }

  lemma NotifiesBefore(pings: seq<Ping>, threshold: nat, i: nat, r: nat, ping: Ping)
    requires i < |pings|
    ensures Notifies(pings + [ping], threshold, i, r) == Notifies(pings, threshold, i, r)
  {
    assert (pings + [ping])[..i + 1] == pings[..i + 1];
  }

  lemma NotifiesNow(pings: seq<Ping>, threshold: nat, run: nat, r: nat, ping: Ping)
    requires IsTrailingRun(pings + [ping], run)
    ensures Notifies(pings + [ping], threshold, |pings|, r) <==> ping.Failed? && r == run && run >= threshold
  {
    var all := pings + [ping];
    assert all[..|pings| + 1] == all;
    if IsTrailingRun(all, r) {
      TrailingRunIsUnique(all, r, run);
    }
  }

  /** One more ping leaves the notices of the earlier pings as they are. */
  lemma FaithfulAfter(
    pings: seq<Ping>, threshold: nat, notices: seq<Notice>, ping: Ping, run: nat, longer: seq<Notice>)
    requires Faithful(pings, threshold, notices) && IsTrailingRun(pings + [ping], run)
    requires longer == if ping.Failed? && run >= threshold then notices + [Notice(|pings|, run)] else notices
    ensures Faithful(pings + [ping], threshold, longer)
  {
    hide Notifies, IsTrailingRun;
    var all := pings + [ping];
    forall k | 0 <= k < |longer|
      ensures longer[k].at < |all| && Notifies(all, threshold, longer[k].at, longer[k].missed)
    {
      if k < |notices| {
        NotifiesBefore(pings, threshold, notices[k].at, notices[k].missed, ping);
      } else {
        NotifiesNow(pings, threshold, run, run, ping);
      }
    }
    forall i, r | 0 <= i < |all| && Notifies(all, threshold, i, r)
      ensures exists k :: 0 <= k < |longer| && longer[k] == Notice(i, r)
    {
      if i < |pings| {
        NotifiesBefore(pings, threshold, i, r, ping);
        var k :| 0 <= k < |notices| && notices[k] == Notice(i, r);
        assert longer[k] == Notice(i, r);
      } else {
        NotifiesNow(pings, threshold, run, r, ping);
        assert longer[|notices|] == Notice(i, r);
      }
    }
  }

  class HeartbeatClient {
    const maxMissed: nat
    const hasHandler: bool
    var missed: nat
    ghost var pings: seq<Ping>
    ghost var notices: seq<Notice>

    /** The counter is the length of the trailing run of failures, and the handler, if there
        is one, has been called exactly when it had to be. */
    ghost predicate Valid()
      reads this
    {
      && IsTrailingRun(pings, missed)
      && (if hasHandler then Faithful(pings, maxMissed, notices) else notices == [])
    }

    constructor (maxMissed: nat, hasHandler: bool)
      ensures Valid() && pings == [] && this.maxMissed == maxMissed && this.hasHandler == hasHandler
    {
      this.maxMissed, this.hasHandler := maxMissed, hasHandler;
      missed := 0;
      pings, notices := [], [];
    }

    /** `_send_ping`.  A handler that raises is logged, and changes nothing. */
    method SendPing(ping: Ping)
      requires Valid()
      modifies this
      ensures Valid() && pings == old(pings) + [ping]
    {
      RunAfter(pings, missed, ping);
      if ping.Replied? {
        missed := 0;
      } else {
        missed := missed + 1;
        if missed >= maxMissed && hasHandler {
          EmitThresholdNotification(ping.handlerRaises);
        }
      }
      if hasHandler {
        FaithfulAfter(old(pings), maxMissed, old(notices), ping, missed, notices);
      }
      pings := pings + [ping];
    }

    method EmitThresholdNotification(raises: bool)
      requires hasHandler
      modifies this`notices
      ensures notices == old(notices) + [Notice(|pings|, missed)]
    {
      notices := notices + [Notice(|pings|, missed)];
      if raises {
        return;
      }
    }

    /** The loop of `_run` over the outcomes that its pings have. */
    method RunLoop(outcomes: seq<Ping>)
      requires Valid()
      modifies this
      ensures Valid() && pings == old(pings) + outcomes
    {
      for i := 0 to |outcomes|
        invariant Valid() && pings == old(pings) + outcomes[..i]
      {
        SendPing(outcomes[i]);
      }
    }
  }

  // A functional form of the history, for reasoning about whole sequences of pings.

  function MissedAfter(pings: seq<Ping>): nat {
    if pings == [] || pings[|pings| - 1].Replied? then 0 else MissedAfter(pings[..|pings| - 1]) + 1
  }

  function NoticesAfter(pings: seq<Ping>, threshold: nat): seq<Notice> {
    if pings == [] then []
    else
      var earlier := NoticesAfter(pings[..|pings| - 1], threshold);
      if pings[|pings| - 1].Failed? && MissedAfter(pings) >= threshold
      then earlier + [Notice(|pings| - 1, MissedAfter(pings))]
      else earlier
  }

  /** Counting up and resetting computes the trailing run, and the notices it gives rise to are
      exactly the failures whose run had reached the threshold. */
  lemma {:induction false} MissHistory(pings: seq<Ping>, threshold: nat)
    ensures IsTrailingRun(pings, MissedAfter(pings))
    ensures Faithful(pings, threshold, NoticesAfter(pings, threshold))
  {
    if pings != [] {
      var earlier, last := pings[..|pings| - 1], pings[|pings| - 1];
      MissHistory(earlier, threshold);
      assert earlier + [last] == pings;
      RunAfter(earlier, MissedAfter(earlier), last);
      FaithfulAfter(earlier, threshold, NoticesAfter(earlier, threshold), last, MissedAfter(pings),
                    NoticesAfter(pings, threshold));
    }
  }
}
