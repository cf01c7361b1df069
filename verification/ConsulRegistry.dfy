/**
 The maintenance loop of registry/consul.go as imperative code: RegisterContext, TTLCheckPinger
 and Maintain.  What the agent and the context do is a script, one entry per loop iteration;
 a script that runs out stands for a loop that is still running.
 */
module ConsulRegistry {
  import opened Common
  import opened ConsulOptions
  import opened Backoff

  // ---------------------------------------------------------------- heartbeats

  datatype PingerEvent = ContextDone | Ticked(ok: bool)

  datatype PingerResult = PingerStopped | HeartbeatFailed | StillPinging

  predicate TicksOk(events: seq<PingerEvent>, k: nat)
    requires k <= |events|
  {
    forall i :: 0 <= i < k ==> events[i] == Ticked(true)
  }

  /** The heartbeats go well until the k-th event, which is e. */
  predicate FirstOther(events: seq<PingerEvent>, k: nat, e: PingerEvent) {
    k < |events| && TicksOk(events, k) && events[k] == e
  }

  ghost predicate PingerFails(first: bool, events: seq<PingerEvent>) {
    !first || exists k: nat :: FirstOther(events, k, Ticked(false))
  }

  ghost predicate PingerStops(first: bool, events: seq<PingerEvent>) {
    first && exists k: nat :: FirstOther(events, k, ContextDone)
  }

  /** beats counts the TTL updates that succeeded. */
  method TTLCheckPinger(first: bool, events: seq<PingerEvent>) returns (r: PingerResult, beats: nat)
    ensures r.HeartbeatFailed? <==> PingerFails(first, events)
    ensures r.PingerStopped? <==> PingerStops(first, events)
    ensures if first then 1 <= beats <= |events| + 1 && TicksOk(events, beats - 1) else beats == 0
    ensures r.StillPinging? ==> beats == |events| + 1
    ensures first && !r.StillPinging? ==> beats <= |events| && events[beats - 1] != Ticked(true)
  {
    beats := 0;
    if !first {
      return HeartbeatFailed, 0;
    }
    beats := 1;
    var i := 0;
    while i < |events|
      invariant 0 <= i <= |events| && TicksOk(events, i) && beats == i + 1
    {
      match events[i]
      case ContextDone =>
        assert FirstOther(events, i, ContextDone);
        return PingerStopped, beats;
      case Ticked(ok) =>
        if !ok {
          assert FirstOther(events, i, Ticked(false));
          return HeartbeatFailed, beats;
        }
        beats := beats + 1;
        i := i + 1;
    }
    r := StillPinging;
  }

  // ---------------------------------------------------------------- one iteration of the loop

  /** The first point of an iteration at which the loop sees its context cancelled. */
  datatype CancelPoint = Never | AfterPing | AheadOfWait | InWait

  datatype Round = Round(accepted: bool, firstPing: bool, pinger: seq<PingerEvent>, cancel: CancelPoint)

  datatype RoundEnd = Return | Pings | Retries

  /** How the pinger of an iteration ends; a rejected request counts as a failure right away. */
  ghost function RoundPinger(r: Round): PingerResult {
    if !r.accepted || PingerFails(r.firstPing, r.pinger) then HeartbeatFailed
    else if PingerStops(r.firstPing, r.pinger) then PingerStopped
    else StillPinging
  }

  /** The iteration gets as far as its wait. */
  ghost predicate ReachesWait(r: Round) {
    RoundPinger(r).HeartbeatFailed? && (r.cancel == Never || r.cancel == InWait)
  }

  ghost function EndOf(r: Round): RoundEnd {
    match RoundPinger(r)
    case StillPinging => Pings
    case PingerStopped => Return
    case HeartbeatFailed => if r.cancel == Never then Retries else Return
  }

  /** Consecutive failures up to round i since the last accepted registration. */
  function Streak(rounds: seq<Round>, i: nat): (k: nat)
    requires i < |rounds|
    ensures 1 <= k <= i + 1
    ensures forall j :: i - k + 1 < j <= i ==> !rounds[j].accepted
    ensures k <= i ==> rounds[i - k + 1].accepted
  {
    if i == 0 || rounds[i].accepted then 1 else 1 + Streak(rounds, i - 1)
  }

  predicate AnyAccepted(rounds: seq<Round>, n: nat)
    requires n <= |rounds|
  {
    0 < n && (rounds[n - 1].accepted || AnyAccepted(rounds, n - 1))
  }

  /** The first n iterations all end in a retry. */
  ghost predicate AllRetry(rounds: seq<Round>, n: nat)
    requires n <= |rounds|
  {
    n == 0 || (EndOf(rounds[n - 1]) == Retries && AllRetry(rounds, n - 1))
  }

  /** The two local variables of the loop after n iterations. */
  datatype Locals = Locals(attempt: nat, delay: int)

  function LocalsAfter(base: int, maxDelay: int, rounds: seq<Round>, n: nat): Locals
    requires n <= |rounds|
    decreases n, 0
  {
    if n == 0 then Locals(0, base)
    else
      var l := BeforeWait(base, maxDelay, rounds, n - 1);
      Locals(l.attempt + 1, NextDelay(l.delay, maxDelay))
  }

  function BeforeWait(base: int, maxDelay: int, rounds: seq<Round>, i: nat): Locals
    requires i < |rounds|
    decreases i, 1
  {
    if rounds[i].accepted then Locals(0, base) else LocalsAfter(base, maxDelay, rounds, i)
  }

  /** The loop counts the failures in a row, and its delay is the one for that count. */
  lemma {:induction false} LocalsCount(base: int, maxDelay: int, rounds: seq<Round>, i: nat)
    requires i < |rounds|
    ensures BeforeWait(base, maxDelay, rounds, i)
            == Locals(Streak(rounds, i) - 1, DelayAfter(base, maxDelay, Streak(rounds, i) - 1))
  {
    if !rounds[i].accepted && 0 < i {
      LocalsCount(base, maxDelay, rounds, i - 1);
    }
  }

  /** The waits of the first n iterations. */
  function WaitsOf(base: int, maxDelay: int, rounds: seq<Round>, n: nat): (waits: seq<int>)
    requires n <= |rounds|
    ensures |waits| == n
  {
    if n == 0 then []
    else WaitsOf(base, maxDelay, rounds, n - 1) + [BeforeWait(base, maxDelay, rounds, n - 1).delay]
  }

  /**
   The i-th wait is min(base * 2^(k-1), max), where k counts the failures in a row since the
   last accepted registration, provided no doubling leaves 64 bits.
   */
  lemma {:induction false} WaitIsCapped(base: int, maxDelay: int, rounds: seq<Round>, n: nat, i: nat)
    requires i < n <= |rounds|
    requires 0 < base <= maxDelay < TWO_63 && DoublingFits(base, maxDelay)
    ensures WaitsOf(base, maxDelay, rounds, n)[i] == Capped(base, maxDelay, Streak(rounds, i) - 1)
  {
    if i == n - 1 {
      LocalsCount(base, maxDelay, rounds, i);
      DelayIsCapped(base, maxDelay, Streak(rounds, i) - 1);
    } else {
      WaitIsCapped(base, maxDelay, rounds, n - 1, i);
    }
  }

  /** The two flags at the moment a register request is sent. */
  datatype Flags = Flags(attempted: bool, registered: bool)

  /** The requests of the first n iterations: all marked, and registered from the first acceptance on. */
  function SendsOf(registered: bool, rounds: seq<Round>, n: nat): (sends: seq<Flags>)
    requires n <= |rounds|
    ensures |sends| == n
  {
    if n == 0 then []
    else SendsOf(registered, rounds, n - 1) + [Flags(true, registered || AnyAccepted(rounds, n - 1))]
  }

  datatype RegisterError = OptionsRejected | AgentError

  datatype Exit = Cancelled | InvalidOptions | Running

  class ConsulRegistry {
    var registerAttempted: bool
    var registered: bool
    const retryBase: int
    const retryMax: int
    ghost var sends: seq<Flags>   // one entry per register request sent

    constructor (retryBase: int, retryMax: int)
      ensures !registerAttempted && !registered && sends == []
      ensures this.retryBase == retryBase && this.retryMax == retryMax
    {
      registerAttempted, registered, sends := false, false, [];
      this.retryBase, this.retryMax := retryBase, retryMax;
    }

    function BaseDelay(): int { Base(retryBase) }

    function MaxDelay(): int { Cap(retryBase, retryMax) }

    method RegisterContext(options: Options, accepted: bool) returns (err: Option<RegisterError>)
      modifies this
      ensures !Acceptable(options) ==>
                err == Some(OptionsRejected) && sends == old(sends)
                && registerAttempted == old(registerAttempted) && registered == old(registered)
      ensures Acceptable(options) ==>
                && registerAttempted && sends == old(sends) + [Flags(true, old(registered))]
                && registered == (old(registered) || accepted)
                && err == (if accepted then None else Some(AgentError))
    {
      var v := ValidateAndNormalize(options);
      if v.Err? {
        return Some(OptionsRejected);
      }
      registerAttempted := true;
      sends := sends + [Flags(registerAttempted, registered)];
      if !accepted {
        return Some(AgentError);
      }
      registered := true;
      err := None;
    }

    /**
     started counts the iterations begun, waits lists the delays slept or being slept.
     With invalid options the first iteration ends the loop.  With valid ones every iteration
     but the last retries, the loop returns exactly when an iteration sees the cancellation,
     each iteration sends one request, marked before it is sent, and each wait is the backoff
     delay for the number of failures since the last accepted registration.
     */
    method Maintain(options: Options, rounds: seq<Round>)
      returns (exit: Exit, started: nat, waits: seq<int>)
      modifies this
      ensures !Acceptable(options) ==>
                && exit == (if rounds == [] then Running else InvalidOptions)
                && waits == [] && sends == old(sends)
                && registerAttempted == old(registerAttempted) && registered == old(registered)
      ensures Acceptable(options) ==>
                && started <= |rounds|
                && (0 < started ==> AllRetry(rounds, started - 1))
                && (exit == Cancelled <==> 0 < started && EndOf(rounds[started - 1]) == Return)
                && exit != InvalidOptions
                && (started == 0 || EndOf(rounds[started - 1]) == Retries ==> started == |rounds|)
      ensures Acceptable(options) ==>
                && sends == old(sends) + SendsOf(old(registered), rounds, started)
                && (0 < started ==> registerAttempted)
                && (registered <==> old(registered) || AnyAccepted(rounds, started))
      ensures Acceptable(options) ==>
                && |waits| <= started <= |waits| + 1
                && (0 < started ==> (|waits| == started <==> ReachesWait(rounds[started - 1])))
                && waits == WaitsOf(BaseDelay(), MaxDelay(), rounds, |waits|)
    {
      var base, maxDelay := BaseDelay(), MaxDelay();
      var attempt: nat := 0;
      var delay := base;
      started, waits := 0, [];
      while started < |rounds|
        invariant 0 <= started <= |rounds| && |waits| == started
        invariant 0 < started ==> Acceptable(options)
        invariant 0 < started ==> registerAttempted
        invariant started == 0 ==> registerAttempted == old(registerAttempted)
        invariant AllRetry(rounds, started)
        invariant sends == old(sends) + SendsOf(old(registered), rounds, started)
        invariant registered <==> old(registered) || AnyAccepted(rounds, started)
        invariant Locals(attempt, delay) == LocalsAfter(base, maxDelay, rounds, started)
        invariant waits == WaitsOf(base, maxDelay, rounds, started)
        decreases |rounds| - started
      {
        var r := rounds[started];
        var err := RegisterContext(options, r.accepted);
        if err == Some(OptionsRejected) {
          return InvalidOptions, started, waits;
        }
        started := started + 1;
        if err.None? {
          attempt, delay := 0, base;
          var ping, _ := TTLCheckPinger(r.firstPing, r.pinger);
          if ping.StillPinging? {
            return Running, started, waits;
          }
          if ping.PingerStopped? || r.cancel == AfterPing {
            return Cancelled, started, waits;
          }
        }
        if r.cancel == AfterPing || r.cancel == AheadOfWait {
          return Cancelled, started, waits;
        }
        attempt := attempt + 1;
        waits := waits + [delay];
        if r.cancel == InWait {
          return Cancelled, started, waits;
        }
        delay := NextDelay(delay, maxDelay);
      }
      exit := Running;
    }

    /**
     An agent that rejects n requests and accepts the next: without cancellation the (n+1)-th
     request registers, after exactly n waits.  Up to its sending the registry is as registered
     as it was before.
     */
    method MaintainAgainstRejections(options: Options, n: nat) returns (waits: seq<int>)
      requires Acceptable(options)
      modifies this
      ensures registered && registerAttempted
      ensures sends == old(sends) + seq(n + 1, _ => Flags(true, old(registered)))
      ensures |waits| == n
      ensures MaxDelay() <= TWO_63 / 2 ==>
                forall k :: 0 <= k < n ==> waits[k] == Capped(BaseDelay(), MaxDelay(), k)
      ensures 0 < retryBase <= retryMax <= TWO_63 / 2 ==>
                forall k :: 0 <= k < n ==> waits[k] == Min(retryBase * Pow2(k), retryMax)
    {
      var rounds := RejectionsThenSuccess(n);
      RejectedSends(old(registered), rounds, n + 1);
      LastRoundPings(n);
      var exit, started, all := Maintain(options, rounds);
      waits := all;
      if MaxDelay() <= TWO_63 / 2 {
        RejectionWaits(BaseDelay(), MaxDelay(), n);
      }
    }
  }

  /** n iterations whose request is rejected, then one that is accepted and keeps pinging. */
  function RejectionsThenSuccess(n: nat): (rounds: seq<Round>)
    ensures |rounds| == n + 1
    ensures forall i :: 0 <= i < n ==> !rounds[i].accepted
  {
    seq(n, _ => Round(false, true, [], Never)) + [Round(true, true, [], Never)]
  }

  lemma LastRoundPings(n: nat)
    ensures var last := RejectionsThenSuccess(n)[n];
            last.accepted && EndOf(last) == Pings && !ReachesWait(last)
  {
  }

  /** Without an acceptance before the last request, the flag is as it was at every request. */
  lemma {:induction false} RejectedSends(registered: bool, rounds: seq<Round>, n: nat)
    requires n <= |rounds| && forall i :: 0 <= i < n - 1 ==> !rounds[i].accepted
    ensures SendsOf(registered, rounds, n) == seq(n, _ => Flags(true, registered))
    ensures 0 < n ==> !AnyAccepted(rounds, n - 1)
  {
    if 0 < n {
      RejectedSends(registered, rounds, n - 1);
    }
  }

  lemma {:induction false} RejectionStreak(rounds: seq<Round>, k: nat)
    requires k < |rounds| && forall i :: 0 <= i <= k ==> !rounds[i].accepted
    ensures Streak(rounds, k) == k + 1
  {
    if 0 < k {
      RejectionStreak(rounds, k - 1);
    }
  }

  lemma RejectionWaits(base: int, maxDelay: int, n: nat)
    requires 0 < base <= maxDelay <= TWO_63 / 2
    ensures var waits := WaitsOf(base, maxDelay, RejectionsThenSuccess(n), n);
            forall k :: 0 <= k < n ==> waits[k] == Capped(base, maxDelay, k)
  {
    var rounds := RejectionsThenSuccess(n);
    SmallCapFits(base, maxDelay);
    forall k | 0 <= k < n ensures WaitsOf(base, maxDelay, rounds, n)[k] == Capped(base, maxDelay, k) {
      RejectionStreak(rounds, k);
      WaitIsCapped(base, maxDelay, rounds, n, k);
    }
  }

  /**
   How an iteration ends, event by event: the loop returns only for a cancellation that it gets to
   see, it keeps pinging only while every update succeeds, and it retries after every failure
   that is not cut short by a cancellation.
   */
  lemma RoundEnds(r: Round)
    ensures EndOf(r) == Return ==>
              r.cancel != Never || (r.accepted && r.firstPing && ContextDone in r.pinger)
    ensures EndOf(r) == Pings ==>
              r.accepted && r.firstPing && ContextDone !in r.pinger && Ticked(false) !in r.pinger
    ensures EndOf(r) == Retries ==>
              r.cancel == Never && (!r.accepted || !r.firstPing || Ticked(false) in r.pinger)
    ensures r.cancel == Never && (!r.accepted || !r.firstPing) ==> EndOf(r) == Retries
    ensures r.cancel == Never && Ticked(false) in r.pinger && ContextDone !in r.pinger ==> EndOf(r) == Retries
  {
    FirstBadEvent(r.pinger);
  }

  /** Either all events are good ticks, or there is a first one that is not. */
  lemma {:induction false} FirstBadEvent(events: seq<PingerEvent>)
    ensures (forall i :: 0 <= i < |events| ==> events[i] == Ticked(true))
            || exists k: nat, e :: FirstOther(events, k, e) && e != Ticked(true)
  {
    if events != [] {
      var m := |events| - 1;
      FirstBadEvent(events[..m]);
      if k: nat, e :| FirstOther(events[..m], k, e) && e != Ticked(true) {
        assert TicksOk(events, k);
        assert FirstOther(events, k, e);
      } else if events[m] != Ticked(true) {
        assert forall i :: 0 <= i < m ==> events[i] == events[..m][i];
        assert FirstOther(events, m, events[m]);
      } else {
        assert forall i :: 0 <= i < m ==> events[i] == events[..m][i];
      }
    }
  }

  /** The first event that is not a successful tick is unique, so a pinger cannot both stop and fail. */
  lemma FirstOtherUnique(events: seq<PingerEvent>, i: nat, e: PingerEvent, j: nat, f: PingerEvent)
    requires FirstOther(events, i, e) && FirstOther(events, j, f)
    requires e != Ticked(true) && f != Ticked(true)
    ensures i == j && e == f
  {
  }
}
