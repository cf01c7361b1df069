/**
 The timing of TTLCheckPinger (registry/consul.go): one TTL update at once, then one per tick of
 a Go ticker, whose channel holds at most one tick and drops the ticks that do not fit.
 */
module Heartbeat {
  import opened Common
  import opened ConsulOptions
  import CP = ConsulProtocol

  const REQUEST_TIMEOUT := 15 * SECOND

  /** One TTL update: how long after sending it takes effect, and how long until the call returns. */
  datatype Ping = Ping(effect: int, took: int)

  predicate Within(p: Ping, latency: int) {
    0 <= p.effect <= p.took <= latency
  }

  /** The pinger just before it sends an update: the time, and the first tick it has not seen. */
  datatype Clock = Clock(now: int, nextTick: int)

  /** Waiting on the ticker from time t: a tick that has fired is taken at once, and with it all others so far. */
  function Receive(interval: int, t: int, nextTick: int): Clock
    requires 0 < interval
  {
    if t < nextTick then Clock(nextTick, nextTick + interval)
    else Clock(t, nextTick + ((t - nextTick) / interval + 1) * interval)
  }

  /** The clock when update k is sent; the ticker is created at time 0, just before update 0. */
  function SendAt(interval: int, pings: seq<Ping>, k: nat): Clock
    requires 0 < interval && k < |pings|
  {
    if k == 0 then Clock(0, interval)
    else
      var before := SendAt(interval, pings, k - 1);
      Receive(interval, before.now + pings[k - 1].took, before.nextTick)
  }

  function EffectAt(interval: int, pings: seq<Ping>, k: nat): int
    requires 0 < interval && k < |pings|
  {
    SendAt(interval, pings, k).now + pings[k].effect
  }

  ghost predicate Prompt(pings: seq<Ping>, latency: int) {
    forall k :: 0 <= k < |pings| ==> Within(pings[k], latency)
  }

  /** A pinger that is back in time takes the next tick when it fires. */
  lemma ReceiveInTime(interval: int, t: int, nextTick: int)
    requires 0 < interval && t <= nextTick
    ensures Receive(interval, t, nextTick) == Clock(nextTick, nextTick + interval)
  {
    if t == nextTick {
      assert 0 / interval == 0;
    }
  }

  /** Calls that return within one interval never make the pinger miss or shift a tick. */
  lemma {:induction false} OnSchedule(interval: int, latency: int, pings: seq<Ping>, k: nat)
    requires 0 < interval && latency <= interval && k < |pings| && Prompt(pings, latency)
    ensures SendAt(interval, pings, k) == Clock(k * interval, (k + 1) * interval)
  {
    if 0 < k {
      OnSchedule(interval, latency, pings, k - 1);
      assert Within(pings[k - 1], latency);
      var start, tick := (k - 1) * interval, k * interval;
      assert tick == start + interval && (k + 1) * interval == tick + interval;
      ReceiveInTime(interval, start + pings[k - 1].took, tick);
    }
  }

  ghost predicate GapsBelow(interval: int, pings: seq<Ping>, bound: int)
    requires 0 < interval
  {
    forall k :: 0 <= k < |pings| - 1 ==>
      EffectAt(interval, pings, k + 1) - EffectAt(interval, pings, k) < bound
  }

  /** The pinger wakes at the tick or at once, and its next tick is at most one interval away. */
  lemma ReceiveWakes(interval: int, t: int, nextTick: int)
    requires 0 < interval
    ensures var c := Receive(interval, t, nextTick);
            c.now == Max(t, nextTick) && c.now < c.nextTick <= c.now + interval
  {
    if nextTick <= t {
      var n := (t - nextTick) / interval;
      assert (n + 1) * interval == n * interval + interval;
    }
  }

  /** However long the calls take, the next tick is at most one interval away when an update is sent. */
  lemma {:induction false} NextTickIsNear(interval: int, pings: seq<Ping>, k: nat)
    requires 0 < interval && k < |pings|
    ensures var c := SendAt(interval, pings, k); c.now < c.nextTick <= c.now + interval
  {
    if 0 < k {
      var before := SendAt(interval, pings, k - 1);
      ReceiveWakes(interval, before.now + pings[k - 1].took, before.nextTick);
    }
  }

  /** Ticks keep to the multiples of the interval even after calls that outlast some of them. */
  lemma {:induction false} TicksStayOnGrid(interval: int, pings: seq<Ping>, k: nat)
    requires 0 < interval && k < |pings|
    ensures exists m: int :: SendAt(interval, pings, k).nextTick == m * interval
  {
    if k == 0 {
      assert SendAt(interval, pings, k).nextTick == 1 * interval;
    } else {
      TicksStayOnGrid(interval, pings, k - 1);
      var before := SendAt(interval, pings, k - 1);
      var m :| before.nextTick == m * interval;
      var t := before.now + pings[k - 1].took;
      var more := if t < before.nextTick then 1 else (t - before.nextTick) / interval + 1;
      assert m * interval + more * interval == (m + more) * interval;
      assert SendAt(interval, pings, k).nextTick == (m + more) * interval;
    }
  }

  /** An update is sent when the call before it has returned and the next tick has fired. */
  lemma NextSend(interval: int, pings: seq<Ping>, k: nat)
    requires 0 < interval && k + 1 < |pings|
    ensures var c := SendAt(interval, pings, k);
            && SendAt(interval, pings, k + 1).now == Max(c.now + pings[k].took, c.nextTick)
            && c.nextTick <= c.now + interval
  {
    var c := SendAt(interval, pings, k);
    NextTickIsNear(interval, pings, k);
    ReceiveWakes(interval, c.now + pings[k].took, c.nextTick);
  }

  lemma PromptGaps(interval: int, latency: int, pings: seq<Ping>, ttl: int)
    requires 0 < interval && Max(interval, latency) + latency < ttl && Prompt(pings, latency)
    ensures GapsBelow(interval, pings, ttl)
  {
    forall k | 0 <= k < |pings| - 1
      ensures EffectAt(interval, pings, k + 1) - EffectAt(interval, pings, k) < ttl
    {
      NextSend(interval, pings, k);
      assert Within(pings[k], latency) && Within(pings[k + 1], latency);
    }
  }

  /** Two calls of the full latency, effective at once and at the end, reach the largest gap. */
  lemma WorstGap(interval: int, latency: int)
    requires 0 < interval && 0 <= latency
    ensures var pings := [Ping(0, latency), Ping(latency, latency)];
            Prompt(pings, latency)
            && EffectAt(interval, pings, 1) - EffectAt(interval, pings, 0) == Max(interval, latency) + latency
  {
    var pings := [Ping(0, latency), Ping(latency, latency)];
    assert SendAt(interval, pings, 0) == Clock(0, interval);
    ReceiveWakes(interval, latency, interval);
  }

  /**
   The exact condition for consecutive heartbeats to take effect less than one TTL apart.  A call
   that outlasts the interval delays the next update, so the longer of the two counts.
   */
  lemma GapsBelowTTLIff(interval: int, latency: int, ttl: int)
    requires 0 < interval && 0 <= latency
    ensures (forall pings :: Prompt(pings, latency) ==> GapsBelow(interval, pings, ttl))
            <==> Max(interval, latency) + latency < ttl
  {
    if Max(interval, latency) + latency < ttl {
      forall pings | Prompt(pings, latency) ensures GapsBelow(interval, pings, ttl) {
        PromptGaps(interval, latency, pings, ttl);
      }
    } else {
      WorstGap(interval, latency);
      var pings := [Ping(0, latency), Ping(latency, latency)];
      assert Prompt(pings, latency) && !GapsBelow(interval, pings, ttl);
    }
  }

  /** From the first heartbeat to the last, the check is within one TTL of its latest update. */
  lemma {:induction false} AlwaysFresh(interval: int, pings: seq<Ping>, ttl: int, n: nat, t: int)
    requires 0 < interval && n < |pings| && 0 < ttl && GapsBelow(interval, pings, ttl)
    requires EffectAt(interval, pings, 0) <= t <= EffectAt(interval, pings, n)
    ensures exists k: nat :: k <= n && EffectAt(interval, pings, k) <= t < EffectAt(interval, pings, k) + ttl
  {
    if t == EffectAt(interval, pings, n) {
    } else if EffectAt(interval, pings, n - 1) <= t {
      assert EffectAt(interval, pings, n - 1 + 1) - EffectAt(interval, pings, n - 1) < ttl;
    } else {
      AlwaysFresh(interval, pings, ttl, n - 1, t);
    }
  }

  /**
   The pinger runs only after validation.  With any calls that are short enough for the
   configured TTL, the lease never lapses while it runs.
   */
  lemma ValidatedLeaseHolds(o: Options, latency: int, pings: seq<Ping>, n: nat, t: int)
    requires ValidateAndNormalize(o).Ok? && Prompt(pings, latency) && n < |pings|
    requires Max(TTLPingInterval(o), latency) + latency < o.ttl.ns
    requires EffectAt(TTLPingInterval(o), pings, 0) <= t <= EffectAt(TTLPingInterval(o), pings, n)
    ensures exists k: nat :: k <= n && EffectAt(TTLPingInterval(o), pings, k) <= t
                                 < EffectAt(TTLPingInterval(o), pings, k) + o.ttl.ns
  {
    PromptGaps(TTLPingInterval(o), latency, pings, o.ttl.ns);
    AlwaysFresh(TTLPingInterval(o), pings, o.ttl.ns, n, t);
  }

  /** The agent finds the check expired at time t when update k, sent to the record r, was the last to take effect. */
  ghost predicate Expires(interval: int, pings: seq<Ping>, r: CP.Remote, k: nat, t: int)
    requires 0 < interval && k < |pings|
  {
    var effect := EffectAt(interval, pings, k);
    CP.RemoteMove(r.(record := CP.Refreshed(r.record, effect), now := t), CP.ExpireTTL).Some?
  }

  /** At some time between two updates, the second not yet effective or just so. */
  ghost predicate CanExpire(interval: int, pings: seq<Ping>, r: CP.Remote)
    requires 0 < interval
  {
    exists k: nat, t: int :: k + 1 < |pings| && EffectAt(interval, pings, k) <= t <= EffectAt(interval, pings, k + 1)
                             && Expires(interval, pings, r, k, t)
  }

  /**
   The timing of the pinger and the expiry rule of the agent: the agent may turn the check
   critical between two heartbeats of some call timing if and only if the calls are not short
   enough for the TTL of the record.
   */
  lemma ExpiryNeverEnabledIff(interval: int, latency: int, r: CP.Remote)
    requires 0 < interval && 0 <= latency && r.record.Present?
    ensures (forall pings :: Prompt(pings, latency) ==> !CanExpire(interval, pings, r))
            <==> Max(interval, latency) + latency < r.record.ttl
  {
    if Max(interval, latency) + latency < r.record.ttl {
      forall pings | Prompt(pings, latency) ensures !CanExpire(interval, pings, r) {
        PromptGaps(interval, latency, pings, r.record.ttl);
        forall k: nat, t: int | k + 1 < |pings| && EffectAt(interval, pings, k) <= t <= EffectAt(interval, pings, k + 1)
          ensures !Expires(interval, pings, r, k, t)
        {
          assert EffectAt(interval, pings, k + 1) - EffectAt(interval, pings, k) < r.record.ttl;
        }
      }
    } else {
      WorstGap(interval, latency);
      var pings := [Ping(0, latency), Ping(latency, latency)];
      assert Expires(interval, pings, r, 0, EffectAt(interval, pings, 0 + 1));
      assert Prompt(pings, latency) && CanExpire(interval, pings, r);
    }
  }

  /**
   The client bounds each call by its request timeout.  Validation alone does not make up for
   that: an accepted TTL keeps the lease under all such calls if and only if it is longer than
   the timeout plus the longer of timeout and interval, 30 seconds for the default interval.
   */
  lemma AcceptedLeaseIff(o: Options)
    requires ValidateAndNormalize(o).Ok?
    ensures (forall pings :: Prompt(pings, REQUEST_TIMEOUT) ==> GapsBelow(TTLPingInterval(o), pings, o.ttl.ns))
            <==> Max(TTLPingInterval(o), REQUEST_TIMEOUT) + REQUEST_TIMEOUT < o.ttl.ns
    ensures o.pingInterval <= 0 ==> Max(TTLPingInterval(o), REQUEST_TIMEOUT) + REQUEST_TIMEOUT == 30 * SECOND
  {
    GapsBelowTTLIff(TTLPingInterval(o), REQUEST_TIMEOUT, o.ttl.ns);
  }

  /** An accepted configuration that calls of one second already make miss the lease. */
  lemma ValidationLeavesNoMargin() returns (o: Options, pings: seq<Ping>)
    ensures ValidateAndNormalize(o).Ok? && Prompt(pings, SECOND) && SECOND <= TTLPingInterval(o)
    ensures !GapsBelow(TTLPingInterval(o), pings, o.ttl.ns)
  {
    o := Options(HostPort(Number(80)), true, Duration(11 * SECOND), 0, Unset);
    WorstGap(TTLPingInterval(o), SECOND);
    pings := [Ping(0, SECOND), Ping(SECOND, SECOND)];
  }
}
