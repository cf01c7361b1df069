/** What the registration protocol can still do from any state: register again, and shut down. */
module ConsulProgress {
  import opened Common
  import opened ConsulOptions
  import opened ConsulProtocol
  import opened ConsulSafety

  /** Where the protocol gets by the given actions. */
  function After(c: Config, s: State, acts: seq<Action>): Option<State> {
    if acts == [] then Some(s)
    else
      match After(c, s, acts[..|acts| - 1])
      case None => None
      case Some(t) => Step(c, t, acts[|acts| - 1])
  }

  ghost predicate CanReach(c: Config, s: State, t: State) {
    exists acts :: After(c, s, acts) == Some(t)
  }

  lemma ReachesItself(c: Config, s: State)
    ensures CanReach(c, s, s)
  {
    assert After(c, s, []) == Some(s);
  }

  lemma ThenStep(c: Config, s: State, t: State, a: Action, u: State)
    requires CanReach(c, s, t) && Step(c, t, a) == Some(u)
    ensures CanReach(c, s, u)
  {
    var acts :| After(c, s, acts) == Some(t);
    assert (acts + [a])[..|acts + [a]| - 1] == acts;
    assert After(c, s, acts + [a]) == Some(u);
  }

  lemma ThenLoop(c: Config, s: State, t: State, m: LoopAction, u: State)
    requires CanReach(c, s, t) && LoopStep(c, t, m) == Some(u)
    ensures CanReach(c, s, u)
  {
    ThenStep(c, s, t, ByLoop(m), u);
  }

  lemma ThenAgent(c: Config, s: State, t: State, g: AgentAction, u: State)
    requires CanReach(c, s, t) && AgentStep(t, g) == Some(u)
    ensures CanReach(c, s, u)
  {
    ThenStep(c, s, t, ByAgent(g), u);
  }

  lemma {:induction false} ThenMore(c: Config, s: State, t: State, acts: seq<Action>, u: State)
    requires CanReach(c, s, t) && After(c, t, acts) == Some(u)
    ensures CanReach(c, s, u)
    decreases |acts|
  {
    if acts != [] {
      var v := After(c, t, acts[..|acts| - 1]).value;
      ThenMore(c, s, t, acts[..|acts| - 1], v);
      ThenStep(c, s, v, acts[|acts| - 1], u);
    }
  }

  lemma Composes(c: Config, s: State, t: State, u: State)
    requires CanReach(c, s, t) && CanReach(c, t, u)
    ensures CanReach(c, s, u)
  {
    var acts :| After(c, t, acts) == Some(u);
    ThenMore(c, s, t, acts, u);
  }

  // ---------------------------------------------------------------- registering again

  /** The next step on the way to a failure, from anywhere but the loop head and a wait. */
  function TowardsFailure(pc: MaintPC): LoopAction
    requires !(pc.LoopHead? || pc.Waiting? || pc.Failed? || pc.Returned? || pc.Gone?)
  {
    match pc
    case Marking(_) => MarkAttempted
    case Sending(_) => SendRegister
    case AwaitingRegister(_, _) => RegisterErr
    case Accepted => MarkRegistered
    case Pinging => SendPing
    case AwaitingPing(_) => PingErr
    case Idle => Tick
    case PingFailed => CheckAfterPing
  }

  function StepsToFailure(pc: MaintPC): nat {
    match pc
    case PingFailed => 1
    case AwaitingRegister(_, _) => 1
    case AwaitingPing(_) => 2
    case Sending(_) => 2
    case Pinging => 3
    case Marking(_) => 3
    case Accepted => 4
    case Idle => 4
    case _ => 0
  }

  /** The loop is running and has not been cancelled. */
  predicate Live(s: State) {
    !s.shared.cancelled && !s.loop.pc.Returned? && !s.loop.pc.Gone?
  }

  lemma FailureStep(c: Config, s: State)
    requires Live(s) && !(s.loop.pc.LoopHead? || s.loop.pc.Waiting? || s.loop.pc.Failed?)
    ensures var t := LoopStep(c, s, TowardsFailure(s.loop.pc));
            t.Some? && Live(t.value) && StepsToFailure(t.value.loop.pc) < StepsToFailure(s.loop.pc)
            && !t.value.loop.pc.LoopHead? && !t.value.loop.pc.Waiting?
  {
  }

  lemma {:induction false} CanFail(c: Config, s: State) returns (t: State)
    requires Live(s) && !s.loop.pc.LoopHead? && !s.loop.pc.Waiting?
    ensures CanReach(c, s, t) && Live(t) && t.loop.pc.Failed?
    decreases StepsToFailure(s.loop.pc)
  {
    ReachesItself(c, s);
    t := s;
    if !s.loop.pc.Failed? {
      FailureStep(c, s);
      var a := TowardsFailure(s.loop.pc);
      var u := LoopStep(c, s, a).value;
      ThenStep(c, s, s, ByLoop(a), u);
      t := CanFail(c, u);
      Composes(c, s, u, t);
    }
  }

  /** Time can pass when the agent has no record to expire. */
  lemma TimeCanPass(c: Config, s: State, dt: nat) returns (t: State)
    requires Live(s) && s.loop.pc.Waiting?
    ensures CanReach(c, s, t) && t == s.(remote := s.remote.(record := Absent, now := s.remote.now + dt))
  {
    ReachesItself(c, s);
    var forgotten := s.(remote := s.remote.(record := Absent));
    ThenAgent(c, s, s, Forget, forgotten);
    t := s.(remote := s.remote.(record := Absent, now := s.remote.now + dt));
    ThenAgent(c, s, forgotten, Advance(dt), t);
  }

  /** A wait is over in time. */
  lemma WaitCanEnd(c: Config, s: State) returns (t: State)
    requires Live(s) && s.loop.pc.Waiting?
    ensures CanReach(c, s, t) && Live(t) && t.loop.pc.LoopHead?
  {
    var late := TimeCanPass(c, s, if s.loop.pc.until <= s.remote.now then 0 else s.loop.pc.until - s.remote.now);
    t := LoopStep(c, late, WaitOver).value;
    ThenLoop(c, s, late, WaitOver, t);
  }

  lemma CanGetToLoopHead(c: Config, s: State) returns (t: State)
    requires Live(s)
    ensures CanReach(c, s, t) && Live(t) && t.loop.pc.LoopHead?
  {
    if s.loop.pc.LoopHead? {
      ReachesItself(c, s);
      t := s;
    } else if s.loop.pc.Waiting? {
      t := WaitCanEnd(c, s);
    } else {
      var failed := CanFail(c, s);
      var waiting := LoopStep(c, failed, CheckBeforeWait).value;
      ThenStep(c, s, failed, ByLoop(CheckBeforeWait), waiting);
      t := WaitCanEnd(c, waiting);
      Composes(c, s, waiting, t);
    }
  }

  /** A registration that the agent accepts, up to its reply. */
  lemma CanBeAccepted(c: Config, s: State) returns (t: State)
    requires Live(s) && Acceptable(c.options) && s.loop.pc.LoopHead?
    ensures CanReach(c, s, t) && Live(t) && t.loop.pc.Accepted? && t.remote.record.Present?
  {
    ReachesItself(c, s);
    var s1 := LoopStep(c, s, Validate).value;
    ThenLoop(c, s, s, Validate, s1);
    var s2 := LoopStep(c, s1, MarkAttempted).value;
    ThenLoop(c, s, s1, MarkAttempted, s2);
    var s3 := LoopStep(c, s2, SendRegister).value;
    ThenLoop(c, s, s2, SendRegister, s3);
    var q := s1.loop.pc.req;
    var s4 := AgentStep(s3, Commit(q)).value;
    ThenAgent(c, s, s3, Commit(q), s4);
    t := LoopStep(c, s4, RegisterOk).value;
    ThenLoop(c, s, s4, RegisterOk, t);
  }

  /** The heartbeat that follows is sent ... */
  lemma CanSendPing(c: Config, s: State) returns (t: State)
    requires Live(s) && s.loop.pc.Accepted?
    ensures CanReach(c, s, t) && Live(t) && t.loop.pc == AwaitingPing(false)
    ensures t.remote == s.remote && t.shared.registered
  {
    ReachesItself(c, s);
    var u := LoopStep(c, s, MarkRegistered).value;
    ThenLoop(c, s, s, MarkRegistered, u);
    t := LoopStep(c, u, SendPing).value;
    ThenLoop(c, s, u, SendPing, t);
  }

  /** ... and answered. */
  lemma CanAnswerPing(c: Config, s: State) returns (t: State)
    requires s.loop.pc == AwaitingPing(false) && s.remote.record.Present?
    ensures CanReach(c, s, t) && t.loop.pc.Idle? && t.remote.record.Passing() && t.shared == s.shared
  {
    ReachesItself(c, s);
    var u := AgentStep(s, ApplyPing).value;
    ThenAgent(c, s, s, ApplyPing, u);
    t := LoopStep(c, u, PingOk).value;
    ThenLoop(c, s, u, PingOk, t);
  }

  /**
   The loop heals: with valid options and without a cancellation, wherever it is and whatever the
   agent has lost, rejected or committed late, it can get to a passing registration.
   */
  lemma RegistrationHeals(c: Config, s: State) returns (t: State)
    requires Live(s) && Acceptable(c.options)
    ensures CanReach(c, s, t) && t.loop.pc.Idle? && t.remote.record.Passing() && t.shared.registered
  {
    var head := CanGetToLoopHead(c, s);
    var accepted := CanBeAccepted(c, head);
    Composes(c, s, head, accepted);
    var sent := CanSendPing(c, accepted);
    Composes(c, s, accepted, sent);
    t := CanAnswerPing(c, sent);
    Composes(c, s, sent, t);
  }

  // ---------------------------------------------------------------- shutting down

  /** The next step of a Shutdown whose context stays alive; None where it needs the agent. */
  function TowardsSuccess(pc: CallerPC): Option<CallerAction> {
    match pc
    case Entering => Some(Cancel)
    case Joining => Some(JoinDone)
    case CheckingContext => Some(CheckContext)
    case AtGate => Some(TakeGate)
    case Holding => Some(CheckHeld)
    case LoadingAttempted => Some(LoadAttempted)
    case LoadingRegistered => Some(LoadRegistered)
    case Deregistering => Some(SendDeregister)
    case Awaiting(applied) => if applied then Some(DeregisterOk) else None
    case ClearingAttempted => Some(ClearAttempted)
    case ClearingRegistered => Some(ClearRegistered)
    case Releasing(_) => Some(Release)
    case Done(_) => None
  }

  function StepsToSuccess(pc: CallerPC): nat {
    match pc
    case Entering => 13
    case Joining => 12
    case CheckingContext => 11
    case AtGate => 10
    case Holding => 9
    case LoadingAttempted => 8
    case LoadingRegistered => 7
    case Deregistering => 6
    case Awaiting(applied) => if applied then 4 else 5
    case ClearingAttempted => 3
    case ClearingRegistered => 2
    case Releasing(_) => 1
    case Done(_) => 0
  }

  /** The loop is joined, no other caller is at the gate, and this one has not failed. */
  predicate CanSucceed(s: State, k: nat) {
    && s.loop.pc.Gone? && k in s.callers && !s.callers[k].expired
    && (s.shared.gate.None? || s.shared.gate == Some(k))
    && s.callers[k].pc != Releasing(Failure) && s.callers[k].pc != Done(Failure)
  }

  lemma MoveToSuccess(caller: Caller, m: Shared, k: nat)
    requires !caller.expired && (caller.pc == AtGate ==> m.gate.None?)
    requires caller.pc != Releasing(Failure) && !caller.pc.Done? && caller.pc != Awaiting(false)
    ensures var pc := CallerMove(caller, true, m, TowardsSuccess(caller.pc).value);
            && pc.Some? && pc.value != Releasing(Failure) && pc.value != Done(Failure)
            && StepsToSuccess(pc.value) < StepsToSuccess(caller.pc)
  {
  }

  lemma SuccessKeepsGate(pc: CallerPC, m: Shared, k: nat)
    requires TowardsSuccess(pc).Some? && (m.gate.None? || m.gate == Some(k))
    ensures var a := TowardsSuccess(pc).value;
            && (CallerStores(k, m, a).gate.None? || CallerStores(k, m, a).gate == Some(k))
            && !a.Enter? && !a.Expire?
  {
  }

  lemma SuccessStep(c: Config, s: State, k: nat)
    requires GateInv(s) && CanSucceed(s, k) && !s.callers[k].pc.Done? && s.callers[k].pc != Awaiting(false)
    ensures var t := CallerStep(s, k, TowardsSuccess(s.callers[k].pc).value);
            t.Some? && CanSucceed(t.value, k)
            && StepsToSuccess(t.value.callers[k].pc) < StepsToSuccess(s.callers[k].pc)
  {
    MoveToSuccess(s.callers[k], s.shared, k);
    SuccessKeepsGate(s.callers[k].pc, s.shared, k);
  }

  /** A Shutdown with a live context can succeed once the loop is gone and the gate is free or its own. */
  lemma {:induction false} ShutdownCanSucceed(c: Config, s: State, k: nat) returns (t: State)
    requires GateInv(s) && CanSucceed(s, k)
    ensures CanReach(c, s, t) && k in t.callers && t.callers[k].pc == Done(Success)
    decreases if k in s.callers then StepsToSuccess(s.callers[k].pc) else 0
  {
    ReachesItself(c, s);
    t := s;
    if !s.callers[k].pc.Done? {
      var a: Action;
      if s.callers[k].pc == Awaiting(false) {
        a := ByAgent(ApplyDeregister(k));
        assert s.callers[k].pc.InGate();
      } else {
        SuccessStep(c, s, k);
        a := ByCaller(k, TowardsSuccess(s.callers[k].pc).value);
        CallerKeepsGate(s, k, TowardsSuccess(s.callers[k].pc).value);
      }
      var u := Step(c, s, a).value;
      ThenStep(c, s, s, a, u);
      t := ShutdownCanSucceed(c, u, k);
      Composes(c, s, u, t);
    } else {
      var result := s.callers[k].pc.result;
      assert s.callers[k].pc == Done(result) && result == Success;
    }
  }

  /** The step of a Shutdown whose context has expired; it waits for nobody. */
  function TowardsReturn(pc: CallerPC): CallerAction {
    match pc
    case Joining => GiveUpJoin
    case AtGate => GiveUpGate
    case Awaiting(_) => DeregisterErr
    case _ => if TowardsSuccess(pc).Some? then TowardsSuccess(pc).value else Release
  }

  lemma ReturnStep(c: Config, s: State, k: nat)
    requires k in s.callers && s.callers[k].expired && !s.callers[k].pc.Done?
    ensures var t := CallerStep(s, k, TowardsReturn(s.callers[k].pc));
            && t.Some? && k in t.value.callers && t.value.callers[k].expired
            && StepsToSuccess(t.value.callers[k].pc) < StepsToSuccess(s.callers[k].pc)
  {
  }

  /** A Shutdown whose context has expired can return by its own steps alone, wherever it stands. */
  lemma {:induction false} ExpiredShutdownReturns(c: Config, s: State, k: nat) returns (t: State)
    requires k in s.callers && s.callers[k].expired
    ensures CanReach(c, s, t) && k in t.callers && t.callers[k].pc.Done?
    decreases if k in s.callers then StepsToSuccess(s.callers[k].pc) else 0
  {
    ReachesItself(c, s);
    t := s;
    if !s.callers[k].pc.Done? {
      ReturnStep(c, s, k);
      var a := TowardsReturn(s.callers[k].pc);
      var u := CallerStep(s, k, a).value;
      ThenStep(c, s, s, ByCaller(k, a), u);
      t := ExpiredShutdownReturns(c, u, k);
      Composes(c, s, u, t);
    }
  }
}
