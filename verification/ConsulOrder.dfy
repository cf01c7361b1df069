/**
 In which order the steps of the registration protocol come, over whole runs, and that none of
 its parts gets stuck: what a failed heartbeat leads to, what a Shutdown has checked before it
 deregisters, and why it fails.
 */
module ConsulOrder {
  import opened Common
  import opened ConsulProtocol
  import opened ConsulSafety
  import opened ConsulRuns

  /** Somewhere between i and j the property is lost in one step. */
  lemma {:induction false} Turns(states: seq<State>, inside: State -> bool, i: nat, j: nat) returns (m: nat)
    requires i <= j < |states| && inside(states[i]) && !inside(states[j])
    ensures i <= m < j && inside(states[m]) && !inside(states[m + 1])
    decreases j - i
  {
    if inside(states[i + 1]) {
      m := Turns(states, inside, i + 1, j);
    } else {
      m := i;
    }
  }

  // ---------------------------------------------------------------- the maintenance loop

  /** The loop has no accepted registration to keep alive. */
  predicate Unregistered(s: State) {
    !(s.loop.pc.Accepted? || s.loop.pc.Pinging? || s.loop.pc.AwaitingPing? || s.loop.pc.Idle?)
  }

  lemma OnlyAcceptanceRegisters(c: Config, s: State, a: Action)
    requires Step(c, s, a).Some? && Unregistered(s) && !Unregistered(Step(c, s, a).value)
    ensures a == ByLoop(RegisterOk)
  {
  }

  /** After a failed heartbeat no TTL update is sent before a new registration has been accepted. */
  lemma HeartbeatFailureReRegisters(c: Config, states: seq<State>, acts: seq<Action>, i: nat, j: nat)
    requires IsRun(c, states, acts) && i < j < |acts| && acts[i] == ByLoop(PingErr) && acts[j] == ByLoop(SendPing)
    ensures exists m :: i < m < j && acts[m] == ByLoop(RegisterOk)
  {
    assert Step(c, states[i], acts[i]) == Some(states[i + 1]) && Step(c, states[j], acts[j]) == Some(states[j + 1]);
    var m := Turns(states, Unregistered, i + 1, j);
    assert Step(c, states[m], acts[m]) == Some(states[m + 1]);
    OnlyAcceptanceRegisters(c, states[m], acts[m]);
  }

  predicate IsFailure(a: Action) { a == ByLoop(PingErr) || a == ByLoop(RegisterErr) }

  /** The loop has a wait ahead of it, or is over. */
  predicate HasToWait(s: State) {
    s.loop.pc.PingFailed? || s.loop.pc.Failed? || s.loop.pc.Waiting? || s.loop.pc.Returned? || s.loop.pc.Gone?
  }

  lemma OnlyWaitingEnds(c: Config, s: State, a: Action)
    requires Step(c, s, a).Some? && HasToWait(s) && !HasToWait(Step(c, s, a).value)
    ensures a == ByLoop(WaitOver) && s.loop.pc.Waiting? && s.loop.pc.until <= s.remote.now
  {
  }

  /** Between any failure and the next register request there is a wait that has run its time. */
  lemma WaitBeforeRetry(c: Config, states: seq<State>, acts: seq<Action>, i: nat, j: nat)
    requires IsRun(c, states, acts) && i < j < |acts| && IsFailure(acts[i]) && acts[j] == ByLoop(SendRegister)
    ensures exists m :: i < m < j && acts[m] == ByLoop(WaitOver)
                        && states[m].loop.pc.Waiting? && states[m].loop.pc.until <= states[m].remote.now
  {
    assert Step(c, states[i], acts[i]) == Some(states[i + 1]) && Step(c, states[j], acts[j]) == Some(states[j + 1]);
    var m := Turns(states, HasToWait, i + 1, j);
    assert Step(c, states[m], acts[m]) == Some(states[m + 1]);
    OnlyWaitingEnds(c, states[m], acts[m]);
  }

  /** While heartbeats are sent, attempt and delay are as after a success. */
  predicate FreshCount(c: Config, s: State) {
    (s.loop.pc.Pinging? || s.loop.pc.AwaitingPing? || s.loop.pc.Idle? || s.loop.pc.PingFailed?) ==>
      s.loop.attempt == 0 && s.loop.delay == c.BaseDelay()
  }

  lemma FreshCountKept(c: Config, s: State, a: Action)
    requires FreshCount(c, s) && Step(c, s, a).Some?
    ensures FreshCount(c, Step(c, s, a).value)
  {
  }

  lemma FreshCountHolds(c: Config, states: seq<State>, acts: seq<Action>, n: nat)
    requires IsRun(c, states, acts) && n < |states|
    ensures FreshCount(c, states[n])
  {
    if !FreshCount(c, states[n]) {
      var m := Turns(states, s => FreshCount(c, s), 0, n);
      assert Step(c, states[m], acts[m]) == Some(states[m + 1]);
      FreshCountKept(c, states[m], acts[m]);
      assert false;
    }
  }

  /** On the way from a failed heartbeat to its wait. */
  predicate FirstFailure(c: Config, s: State) {
    || s.loop.pc.Returned? || s.loop.pc.Gone?
    || ((s.loop.pc.PingFailed? || s.loop.pc.Failed?) && s.loop.attempt == 0 && s.loop.delay == c.BaseDelay())
  }

  lemma FirstFailureUntilWait(c: Config, s: State, a: Action)
    requires Step(c, s, a).Some? && FirstFailure(c, s) && !FirstFailure(c, Step(c, s, a).value)
    ensures a == ByLoop(CheckBeforeWait)
  {
  }

  /** A failed heartbeat counts as the first failure: the wait begun first after it is the base delay. */
  lemma HeartbeatFailureIsFirst(c: Config, states: seq<State>, acts: seq<Action>, i: nat, m: nat)
    requires IsRun(c, states, acts) && i < m < |acts| && acts[i] == ByLoop(PingErr)
    requires acts[m] == ByLoop(CheckBeforeWait) && !states[m].shared.cancelled
    requires forall n :: i < n < m ==> acts[n] != ByLoop(CheckBeforeWait)
    ensures states[m + 1].loop.attempt == 1
    ensures states[m + 1].loop.pc == Waiting(states[m].remote.now + c.BaseDelay())
  {
    FreshCountHolds(c, states, acts, i);
    assert Step(c, states[i], acts[i]) == Some(states[i + 1]) && Step(c, states[m], acts[m]) == Some(states[m + 1]);
    if !FirstFailure(c, states[m]) {
      var n := Turns(states, s => FirstFailure(c, s), i + 1, m);
      assert Step(c, states[n], acts[n]) == Some(states[n + 1]);
      FirstFailureUntilWait(c, states[n], acts[n]);
      assert false;
    }
  }

  predicate WaitsUntil(s: State, until: int) {
    s.loop.pc == Waiting(until) || s.loop.pc.Returned? || s.loop.pc.Gone?
  }

  lemma WaitStays(c: Config, s: State, a: Action, until: int)
    requires Step(c, s, a).Some? && WaitsUntil(s, until) && !WaitsUntil(Step(c, s, a).value, until)
    ensures a == ByLoop(WaitOver)
  {
  }

  /** A wait that is begun lasts as long as it was begun for, unless the loop ends. */
  lemma WaitLasts(c: Config, states: seq<State>, acts: seq<Action>, m: nat, n: nat)
    requires IsRun(c, states, acts) && m < n < |acts|
    requires acts[m] == ByLoop(CheckBeforeWait) && states[m + 1].loop.pc.Waiting? && acts[n] == ByLoop(WaitOver)
    requires forall h :: m < h < n ==> acts[h] != ByLoop(WaitOver)
    ensures states[m + 1].loop.pc.until <= states[n].remote.now
  {
    var until := states[m + 1].loop.pc.until;
    assert Step(c, states[n], acts[n]) == Some(states[n + 1]);
    if !WaitsUntil(states[n], until) {
      var h := Turns(states, s => WaitsUntil(s, until), m + 1, n);
      assert Step(c, states[h], acts[h]) == Some(states[h + 1]);
      WaitStays(c, states[h], acts[h], until);
      assert false;
    }
  }

  lemma OnlyTickPings(c: Config, s: State, a: Action)
    requires Step(c, s, a).Some? && !s.loop.pc.Pinging? && Step(c, s, a).value.loop.pc.Pinging?
    ensures a == ByLoop(Tick) || a == ByLoop(MarkRegistered)
  {
  }

  /** The first TTL update follows the registration, and each later one its own tick. */
  lemma TickBetweenPings(c: Config, states: seq<State>, acts: seq<Action>, i: nat, j: nat)
    requires IsRun(c, states, acts) && i < j < |acts| && acts[i] == ByLoop(SendPing) && acts[j] == ByLoop(SendPing)
    ensures exists m :: i < m < j && (acts[m] == ByLoop(Tick) || acts[m] == ByLoop(MarkRegistered))
  {
    assert Step(c, states[i], acts[i]) == Some(states[i + 1]) && Step(c, states[j], acts[j]) == Some(states[j + 1]);
    var m := Turns(states, (s: State) => !s.loop.pc.Pinging?, i + 1, j);
    assert Step(c, states[m], acts[m]) == Some(states[m + 1]);
    OnlyTickPings(c, states[m], acts[m]);
  }

  predicate BeforeFirstPing(s: State) { s.loop.pc.Accepted? || s.loop.pc.Pinging? }

  lemma OnlyPingLeaves(c: Config, s: State, a: Action)
    requires Step(c, s, a).Some? && BeforeFirstPing(s) && !BeforeFirstPing(Step(c, s, a).value)
    ensures a == ByLoop(SendPing)
  {
  }

  /** An accepted registration is followed by a TTL update at once, before any tick, wait or end of the loop. */
  lemma PingsAtOnce(c: Config, states: seq<State>, acts: seq<Action>, i: nat, j: nat)
    requires IsRun(c, states, acts) && i < j < |states| && acts[i] == ByLoop(RegisterOk)
    ensures BeforeFirstPing(states[j]) || exists m :: i < m < j && acts[m] == ByLoop(SendPing)
  {
    assert Step(c, states[i], acts[i]) == Some(states[i + 1]);
    if !BeforeFirstPing(states[j]) {
      var m := Turns(states, BeforeFirstPing, i + 1, j);
      assert Step(c, states[m], acts[m]) == Some(states[m + 1]);
      OnlyPingLeaves(c, states[m], acts[m]);
    }
  }

  // ---------------------------------------------------------------- the flags

  predicate ClearsRegistered(a: Action) { a.ByCaller? && a.a.ClearRegistered? }

  predicate ClearsAttempted(a: Action) { a.ByCaller? && a.a.ClearAttempted? }

  lemma FlagSteps(c: Config, s: State, a: Action)
    requires Step(c, s, a).Some?
    ensures var t := Step(c, s, a).value;
            && t.shared.registered == ((s.shared.registered || a == ByLoop(MarkRegistered)) && !ClearsRegistered(a))
            && t.shared.attempted == ((s.shared.attempted || a == ByLoop(MarkAttempted)) && !ClearsAttempted(a))
            && t.shared.cancelled == (s.shared.cancelled || (a.ByCaller? && a.a.Cancel?))
  {
  }

  /** registered is on exactly between an accepted registration and a successful deregistration. */
  lemma RegisteredSince(c: Config, states: seq<State>, acts: seq<Action>, n: nat)
    requires IsRun(c, states, acts) && n < |states|
    ensures states[n].shared.registered
            <==> exists m :: 0 <= m < n && acts[m] == ByLoop(MarkRegistered)
                             && forall h :: m < h < n ==> !ClearsRegistered(acts[h])
  {
    if states[n].shared.registered {
      var m := LastMark(c, states, acts, n);
    } else if m :| 0 <= m < n && acts[m] == ByLoop(MarkRegistered)
                   && forall h :: m < h < n ==> !ClearsRegistered(acts[h]) {
      assert Step(c, states[m], acts[m]) == Some(states[m + 1]);
      FlagSteps(c, states[m], acts[m]);
      var h := Turns(states, (s: State) => s.shared.registered, m + 1, n);
      assert Step(c, states[h], acts[h]) == Some(states[h + 1]);
      FlagSteps(c, states[h], acts[h]);
      assert false;
    }
  }

  lemma {:induction false} LastMark(c: Config, states: seq<State>, acts: seq<Action>, n: nat) returns (m: nat)
    requires IsRun(c, states, acts) && n < |states| && states[n].shared.registered
    ensures m < n && acts[m] == ByLoop(MarkRegistered) && forall h :: m < h < n ==> !ClearsRegistered(acts[h])
    decreases n
  {
    assert 0 < n;
    assert Step(c, states[n - 1], acts[n - 1]) == Some(states[n - 1 + 1]);
    FlagSteps(c, states[n - 1], acts[n - 1]);
    m := n - 1;
    if acts[n - 1] != ByLoop(MarkRegistered) {
      m := LastMark(c, states, acts, n - 1);
    }
  }

  /** The loop is cancelled exactly from the first cancel of a Shutdown on. */
  lemma CancelledSince(c: Config, states: seq<State>, acts: seq<Action>, n: nat)
    requires IsRun(c, states, acts) && n < |states|
    ensures states[n].shared.cancelled <==> exists m :: 0 <= m < n && acts[m].ByCaller? && acts[m].a.Cancel?
  {
    if states[n].shared.cancelled {
      var m := Turns(states, (s: State) => !s.shared.cancelled, 0, n);
      assert Step(c, states[m], acts[m]) == Some(states[m + 1]);
      FlagSteps(c, states[m], acts[m]);
    } else if m :| 0 <= m < n && acts[m].ByCaller? && acts[m].a.Cancel? {
      assert Step(c, states[m], acts[m]) == Some(states[m + 1]);
      FlagSteps(c, states[m], acts[m]);
      Forward(c, states, acts, m + 1, n);
      assert false;
    }
  }

  // ---------------------------------------------------------------- the Shutdown callers

  predicate At(s: State, k: nat, place: CallerPC -> bool) { k in s.callers && place(s.callers[k].pc) }

  predicate PastCancel(pc: CallerPC) { !pc.Entering? }

  lemma PassesCancel(c: Config, s: State, a: Action, k: nat)
    requires Step(c, s, a).Some? && !At(s, k, PastCancel) && At(Step(c, s, a).value, k, PastCancel)
    ensures a == ByCaller(k, Cancel)
  {
  }

  /** Whatever else a Shutdown does, it has cancelled the loop first. */
  lemma CancelsFirst(c: Config, states: seq<State>, acts: seq<Action>, n: nat, k: nat)
    requires IsRun(c, states, acts) && n < |states| && k in states[n].callers && !states[n].callers[k].pc.Entering?
    ensures states[n].shared.cancelled && exists m :: 0 <= m < n && acts[m] == ByCaller(k, Cancel)
  {
    var m := Turns(states, s => !At(s, k, PastCancel), 0, n);
    assert Step(c, states[m], acts[m]) == Some(states[m + 1]);
    PassesCancel(c, states[m], acts[m], k);
    CancelledSince(c, states, acts, n);
  }

  predicate PastSecondCheck(pc: CallerPC) { pc.LoadingAttempted? || pc.LoadingRegistered? || pc.Deregistering? }

  predicate PastFirstCheck(pc: CallerPC) { pc.AtGate? || pc.Holding? }

  lemma PassesSecondCheck(c: Config, s: State, a: Action, k: nat)
    requires Step(c, s, a).Some? && !At(s, k, PastSecondCheck) && At(Step(c, s, a).value, k, PastSecondCheck)
    ensures a == ByCaller(k, CheckHeld) && At(s, k, PastFirstCheck) && !s.callers[k].expired
  {
  }

  lemma PassesFirstCheck(c: Config, s: State, a: Action, k: nat)
    requires Step(c, s, a).Some? && !At(s, k, PastFirstCheck) && At(Step(c, s, a).value, k, PastFirstCheck)
    ensures a == ByCaller(k, CheckContext) && !s.callers[k].expired
  {
  }

  /** Before it sends, a Shutdown has found its context alive twice: after the join, and with the gate held. */
  lemma ChecksBeforeSending(c: Config, states: seq<State>, acts: seq<Action>, j: nat)
    requires IsRun(c, states, acts) && j < |acts| && IsDeregisterSend(acts[j])
    ensures var k := acts[j].k;
            exists n, m :: 0 <= n < m < j
                           && acts[n] == ByCaller(k, CheckContext) && k in states[n].callers
                           && !states[n].callers[k].expired
                           && acts[m] == ByCaller(k, CheckHeld) && k in states[m].callers
                           && !states[m].callers[k].expired
  {
    var k := acts[j].k;
    assert Step(c, states[j], acts[j]) == Some(states[j + 1]);
    var m := Turns(states, s => !At(s, k, PastSecondCheck), 0, j);
    assert Step(c, states[m], acts[m]) == Some(states[m + 1]);
    PassesSecondCheck(c, states[m], acts[m], k);
    var n := Turns(states, s => !At(s, k, PastFirstCheck), 0, m);
    assert Step(c, states[n], acts[n]) == Some(states[n + 1]);
    PassesFirstCheck(c, states[n], acts[n], k);
  }

  /** Two loads in a row decide: deregister if either flag is on, and otherwise succeed without. */
  lemma DecisionOfLoads(caller: Caller, gone: bool, m: Shared)
    requires caller.pc.LoadingAttempted?
    ensures var first := CallerMove(caller, gone, m, LoadAttempted);
            var decided := if first == Some(LoadingRegistered)
                           then CallerMove(caller.(pc := LoadingRegistered), gone, m, LoadRegistered) else first;
            decided == Some(if m.attempted || m.registered then Deregistering else Releasing(Success))
  {
  }

  /** The second load never changes the decision: with the gate held, registered is off when registerAttempted is. */
  lemma SecondLoadSeesNothing(c: Config, states: seq<State>, acts: seq<Action>, n: nat, k: nat)
    requires IsRun(c, states, acts) && n < |states|
    requires k in states[n].callers && states[n].callers[k].pc.LoadingRegistered?
    ensures !states[n].shared.registered
  {
    Reachable(c, states, acts, n);
    assert CallerFlags(states[n].shared, states[n].history, states[n].callers[k].pc);
    assert states[n].callers[k].pc.InGate();
  }

  /** A deregister request is sent only if some registration was attempted. */
  lemma DeregistersWhatWasAttempted(c: Config, states: seq<State>, acts: seq<Action>, j: nat)
    requires IsRun(c, states, acts) && j < |acts| && IsDeregisterSend(acts[j])
    ensures exists m :: 0 <= m < j && acts[m] == ByLoop(MarkAttempted)
  {
    Reachable(c, states, acts, j);
    assert Step(c, states[j], acts[j]) == Some(states[j + 1]);
    assert CallerFlags(states[j].shared, states[j].history, states[j].callers[acts[j].k].pc);
    var m := Turns(states, (s: State) => !s.shared.attempted, 0, j);
    assert Step(c, states[m], acts[m]) == Some(states[m + 1]);
    FlagSteps(c, states[m], acts[m]);
  }

  /** A Shutdown is about to fail, or has failed, with its context still alive. */
  predicate FailsInTime(s: State, k: nat) {
    k in s.callers && !s.callers[k].expired
    && (s.callers[k].pc == Releasing(Failure) || s.callers[k].pc == Done(Failure))
  }

  lemma OnlyReplyFails(c: Config, s: State, a: Action, k: nat)
    requires Step(c, s, a).Some? && !FailsInTime(s, k) && FailsInTime(Step(c, s, a).value, k)
    ensures a == ByCaller(k, DeregisterErr)
  {
  }

  /** A Shutdown fails only because its context has expired or its own deregister request failed. */
  lemma FailureHasCause(c: Config, states: seq<State>, acts: seq<Action>, n: nat, k: nat)
    requires IsRun(c, states, acts) && n < |states|
    requires k in states[n].callers && states[n].callers[k].pc == Done(Failure)
    ensures states[n].callers[k].expired || exists m :: 0 <= m < n && acts[m] == ByCaller(k, DeregisterErr)
  {
    if !states[n].callers[k].expired {
      var m := Turns(states, s => !FailsInTime(s, k), 0, n);
      assert Step(c, states[m], acts[m]) == Some(states[m + 1]);
      OnlyReplyFails(c, states[m], acts[m], k);
    }
  }
}
