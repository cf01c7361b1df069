/**
 How far the "never passing again" guarantee of the registration protocol reaches: it needs
 the agent not to apply a TTL update after the call for it has returned.
 */
module ConsulLatePing {
  import opened Common
  import opened ConsulOptions
  import opened ConsulProtocol
  import opened ConsulSafety
  import opened ConsulRuns
  import Backoff

  ghost predicate StaysSilent(states: seq<State>, acts: seq<Action>)
    requires |states| == |acts| + 1
  {
    forall i, j :: 0 <= i < |acts| && i < j < |states| && IsDeregisterOk(acts[i]) ==> !states[j].remote.record.Passing()
  }

  /** The protocol can be in state s after the actions acts. */
  ghost predicate Reaches(c: Config, acts: seq<Action>, s: State) {
    exists states :: IsRun(c, states, acts) && states[|acts|] == s
  }

  lemma Extend(c: Config, acts: seq<Action>, s: State, a: Action)
    requires Reaches(c, acts, s) && Step(c, s, a).Some?
    ensures Reaches(c, acts + [a], Step(c, s, a).value)
  {
    var states :| IsRun(c, states, acts) && states[|acts|] == s;
    var more := states + [Step(c, s, a).value];
    assert IsRun(c, more, acts + [a]);
  }

  lemma ByLoopTo(c: Config, acts: seq<Action>, s: State, m: LoopAction, t: State)
    requires Reaches(c, acts, s) && LoopStep(c, s, m) == Some(t)
    ensures Reaches(c, acts + [ByLoop(m)], t)
  {
    Extend(c, acts, s, ByLoop(m));
  }

  lemma ByAgentTo(c: Config, acts: seq<Action>, s: State, g: AgentAction, t: State)
    requires Reaches(c, acts, s) && AgentStep(s, g) == Some(t)
    ensures Reaches(c, acts + [ByAgent(g)], t)
  {
    Extend(c, acts, s, ByAgent(g));
  }

  /** The state with caller 0 alone, at pc. */
  ghost function Alone(s: State, pc: CallerPC): State {
    s.(callers := map[0 := Caller(pc, false)])
  }

  /** Caller 0 steps from pc to next and makes its stores. */
  lemma ByCallerTo(c: Config, acts: seq<Action>, s: State, pc: CallerPC, a: CallerAction, next: CallerPC)
    requires Reaches(c, acts, Alone(s, pc)) && !a.Enter? && !a.Expire?
    requires CallerMove(Caller(pc, false), s.loop.pc.Gone?, s.shared, a) == Some(next)
    ensures Reaches(c, acts + [ByCaller(0, a)],
                    Alone(s.(shared := CallerStores(0, s.shared, a), history := CallerRecords(s.history, a)), next))
  {
    assert map[0 := Caller(pc, false)][0 := Caller(next, false)] == map[0 := Caller(next, false)];
    Extend(c, acts, Alone(s, pc), ByCaller(0, a));
  }

  ghost function Req(c: Config, id: nat): Request
    requires Acceptable(c.options)
  {
    NewTTLCheck(id, ValidateAndNormalize(c.options).value.options)
  }

  ghost function Critical(c: Config, id: nat): Record
    requires Acceptable(c.options)
  {
    Present(false, c.BaseDelay(), Req(c, id).ttl, Req(c, id).removeAfter)
  }

  /** The first register request is under way. */
  ghost function FirstSent(c: Config): State
    requires Acceptable(c.options)
  {
    State(Loop(AwaitingRegister(Req(c, 0), false), 0, c.BaseDelay()), Shared(false, true, false, None), map[],
          Remote(Absent, multiset{Req(c, 0)}, 0, 0), History(1, 0, false, 0))
  }

  lemma FirstRequestSent(c: Config) returns (acts: seq<Action>)
    requires Acceptable(c.options)
    ensures Reaches(c, acts, FirstSent(c))
  {
    var q := Req(c, 0);
    var s0 := Init(c);
    acts := [];
    assert IsRun(c, [s0], []);
    var s1 := s0.(loop := Loop(Marking(q), 0, c.BaseDelay()));
    ByLoopTo(c, acts, s0, Validate, s1); acts := acts + [ByLoop(Validate)];
    var s2 := s1.(loop := Loop(Sending(q), 0, c.BaseDelay()), shared := Shared(false, true, false, None));
    ByLoopTo(c, acts, s1, MarkAttempted, s2); acts := acts + [ByLoop(MarkAttempted)];
    assert multiset{} + multiset{q} == multiset{q};
    ByLoopTo(c, acts, s2, SendRegister, FirstSent(c)); acts := acts + [ByLoop(SendRegister)];
  }

  /** It times out and stays with the agent while the loop waits for its retry. */
  ghost function Retrying(c: Config): State
    requires Acceptable(c.options)
  {
    State(Loop(Waiting(c.BaseDelay()), 1, c.BaseDelay()), Shared(false, true, false, None), map[],
          Remote(Absent, multiset{Req(c, 0)}, 0, c.BaseDelay()), History(1, 0, false, 0))
  }

  lemma FirstRequestTimesOut(c: Config, before: seq<Action>) returns (acts: seq<Action>)
    requires Acceptable(c.options) && Reaches(c, before, FirstSent(c))
    ensures Reaches(c, acts, Retrying(c))
  {
    var base: nat := c.BaseDelay();
    var s0 := FirstSent(c);
    acts := before;
    var s1 := s0.(loop := Loop(Failed, 0, base));
    ByLoopTo(c, acts, s0, RegisterErr, s1); acts := acts + [ByLoop(RegisterErr)];
    var s2 := s1.(loop := Loop(Waiting(base), 1, base));
    ByLoopTo(c, acts, s1, CheckBeforeWait, s2); acts := acts + [ByLoop(CheckBeforeWait)];
    ByAgentTo(c, acts, s2, Advance(base), Retrying(c)); acts := acts + [ByAgent(Advance(base))];
  }

  ghost function AfterTimeout(c: Config): State
    requires Acceptable(c.options)
  {
    State(Loop(LoopHead, 1, Backoff.NextDelay(c.BaseDelay(), c.MaxDelay())), Shared(false, true, false, None), map[],
          Remote(Absent, multiset{Req(c, 0)}, 0, c.BaseDelay()), History(1, 0, false, 0))
  }

  lemma WaitEnds(c: Config, before: seq<Action>) returns (acts: seq<Action>)
    requires Acceptable(c.options) && Reaches(c, before, Retrying(c))
    ensures Reaches(c, acts, AfterTimeout(c))
  {
    ByLoopTo(c, before, Retrying(c), WaitOver, AfterTimeout(c));
    acts := before + [ByLoop(WaitOver)];
  }

  /** The retry is accepted and the first TTL update is under way. */
  ghost function WhilePinging(c: Config): State
    requires Acceptable(c.options)
  {
    State(Loop(AwaitingPing(false), 0, c.BaseDelay()), Shared(false, true, true, None), map[],
          Remote(Critical(c, 1), multiset{Req(c, 0)}, 0, c.BaseDelay()), History(2, 0, false, 0))
  }

  lemma RetrySucceeds(c: Config, before: seq<Action>) returns (acts: seq<Action>)
    requires Acceptable(c.options) && Reaches(c, before, AfterTimeout(c))
    ensures Reaches(c, acts, WhilePinging(c))
  {
    var q := Req(c, 1);
    var s0 := AfterTimeout(c);
    var base, delay := c.BaseDelay(), s0.loop.delay;
    acts := before;
    var s1 := s0.(loop := Loop(Marking(q), 1, delay));
    ByLoopTo(c, acts, s0, Validate, s1); acts := acts + [ByLoop(Validate)];
    var s2 := s1.(loop := Loop(Sending(q), 1, delay));
    ByLoopTo(c, acts, s1, MarkAttempted, s2); acts := acts + [ByLoop(MarkAttempted)];
    var both := multiset{Req(c, 0)} + multiset{q};
    var s3 := s2.(loop := Loop(AwaitingRegister(q, false), 1, delay), remote := Remote(Absent, both, 0, base),
                  history := History(2, 0, false, 0));
    ByLoopTo(c, acts, s2, SendRegister, s3); acts := acts + [ByLoop(SendRegister)];
    assert both - multiset{q} == multiset{Req(c, 0)};
    var s4 := s3.(loop := Loop(AwaitingRegister(q, true), 1, delay),
                  remote := Remote(Critical(c, 1), multiset{Req(c, 0)}, 0, base));
    ByAgentTo(c, acts, s3, Commit(q), s4); acts := acts + [ByAgent(Commit(q))];
    var s5 := s4.(loop := Loop(Accepted, 1, delay));
    ByLoopTo(c, acts, s4, RegisterOk, s5); acts := acts + [ByLoop(RegisterOk)];
    var s6 := s5.(loop := Loop(Pinging, 0, base), shared := Shared(false, true, true, None));
    ByLoopTo(c, acts, s5, MarkRegistered, s6); acts := acts + [ByLoop(MarkRegistered)];
    ByLoopTo(c, acts, s6, SendPing, WhilePinging(c)); acts := acts + [ByLoop(SendPing)];
  }

  /** Shutdown cancels the loop; the cancelled TTL update is left behind and the loop is joined. */
  ghost function AfterJoin(c: Config): State
    requires Acceptable(c.options)
  {
    State(Loop(Gone, 0, c.BaseDelay()), Shared(true, true, true, None), map[],
          Remote(Critical(c, 1), multiset{Req(c, 0)}, 1, c.BaseDelay()), History(2, 0, false, 0))
  }

  lemma ShutdownJoins(c: Config, before: seq<Action>) returns (acts: seq<Action>)
    requires Acceptable(c.options) && c.latePings && Reaches(c, before, WhilePinging(c))
    ensures Reaches(c, acts, Alone(AfterJoin(c), CheckingContext))
  {
    var s0 := WhilePinging(c);
    var base := c.BaseDelay();
    acts := before;
    assert CallerStep(s0, 0, Enter).value == Alone(s0, Entering);
    Extend(c, acts, s0, ByCaller(0, Enter)); acts := acts + [ByCaller(0, Enter)];
    ByCallerTo(c, acts, s0, Entering, Cancel, Joining); acts := acts + [ByCaller(0, Cancel)];
    var s1 := Alone(s0.(shared := Shared(true, true, true, None)), Joining);
    var s2 := s1.(loop := Loop(PingFailed, 0, base), remote := AfterJoin(c).remote);
    ByLoopTo(c, acts, s1, PingErr, s2); acts := acts + [ByLoop(PingErr)];
    var s3 := s2.(loop := Loop(Returned, 0, base));
    ByLoopTo(c, acts, s2, CheckAfterPing, s3); acts := acts + [ByLoop(CheckAfterPing)];
    ByLoopTo(c, acts, s3, CloseDone, Alone(AfterJoin(c), Joining)); acts := acts + [ByLoop(CloseDone)];
    ByCallerTo(c, acts, AfterJoin(c), Joining, JoinDone, CheckingContext); acts := acts + [ByCaller(0, JoinDone)];
  }

  ghost function AfterDeregister(c: Config): State
    requires Acceptable(c.options)
  {
    State(Loop(Gone, 0, c.BaseDelay()), Shared(true, true, true, Some(0)), map[],
          Remote(Absent, multiset{Req(c, 0)}, 1, c.BaseDelay()), History(2, 1, true, 0))
  }

  lemma ShutdownDeregisters(c: Config, before: seq<Action>) returns (acts: seq<Action>)
    requires Acceptable(c.options) && Reaches(c, before, Alone(AfterJoin(c), CheckingContext))
    ensures Reaches(c, acts, Alone(AfterDeregister(c), Awaiting(true)))
  {
    var s0 := AfterJoin(c);
    var s1 := s0.(shared := Shared(true, true, true, Some(0)));
    var s2 := s1.(history := History(2, 1, false, 0));
    acts := before;
    ByCallerTo(c, acts, s0, CheckingContext, CheckContext, AtGate); acts := acts + [ByCaller(0, CheckContext)];
    ByCallerTo(c, acts, s0, AtGate, TakeGate, Holding); acts := acts + [ByCaller(0, TakeGate)];
    ByCallerTo(c, acts, s1, Holding, CheckHeld, LoadingAttempted); acts := acts + [ByCaller(0, CheckHeld)];
    ByCallerTo(c, acts, s1, LoadingAttempted, LoadAttempted, Deregistering);
    acts := acts + [ByCaller(0, LoadAttempted)];
    ByCallerTo(c, acts, s1, Deregistering, SendDeregister, Awaiting(false));
    acts := acts + [ByCaller(0, SendDeregister)];
    assert map[0 := Caller(Awaiting(false), false)][0 := Caller(Awaiting(true), false)]
        == map[0 := Caller(Awaiting(true), false)];
    ByAgentTo(c, acts, Alone(s2, Awaiting(false)), ApplyDeregister(0), Alone(AfterDeregister(c), Awaiting(true)));
    acts := acts + [ByAgent(ApplyDeregister(0))];
  }

  /** After the successful reply the old register request is committed and the old TTL update applied. */
  lemma ServiceComesBack(c: Config, before: seq<Action>) returns (acts: seq<Action>, s: State)
    requires Acceptable(c.options) && Reaches(c, before, Alone(AfterDeregister(c), Awaiting(true)))
    ensures |acts| == |before| + 3 && IsDeregisterOk(acts[|before|])
    ensures Reaches(c, acts, s) && s.remote.record.Passing()
  {
    ByCallerTo(c, before, AfterDeregister(c), Awaiting(true), DeregisterOk, ClearingAttempted);
    var a1 := before + [ByCaller(0, DeregisterOk)];
    var s1 := Alone(AfterDeregister(c).(history := History(2, 1, true, 1)), ClearingAttempted);
    assert multiset{Req(c, 0)} - multiset{Req(c, 0)} == multiset{};
    var s2 := s1.(remote := Remote(Critical(c, 0), multiset{}, 1, c.BaseDelay()));
    ByAgentTo(c, a1, s1, Commit(Req(c, 0)), s2);
    var a2 := a1 + [ByAgent(Commit(Req(c, 0)))];
    s := s2.(remote := Remote(Critical(c, 0).(passing := true), multiset{}, 0, c.BaseDelay()));
    ByAgentTo(c, a2, s2, ApplyStrayPing, s);
    acts := a2 + [ByAgent(ApplyStrayPing)];
  }

  /** With valid options the guarantee holds on every run exactly when TTL updates are never late. */
  lemma SilentIffNoLatePings(c: Config)
    requires Acceptable(c.options)
    ensures (forall states, acts :: IsRun(c, states, acts) ==> StaysSilent(states, acts)) <==> !c.latePings
  {
    if c.latePings {
      var a0 := FirstRequestSent(c);
      var a1 := FirstRequestTimesOut(c, a0);
      var w := WaitEnds(c, a1);
      var a2 := RetrySucceeds(c, w);
      var a3 := ShutdownJoins(c, a2);
      var a4 := ShutdownDeregisters(c, a3);
      var acts, s := ServiceComesBack(c, a4);
      var states: seq<State> :| IsRun(c, states, acts) && states[|acts|] == s;
      assert IsDeregisterOk(acts[|a4|]) && states[|acts|].remote.record.Passing();
      assert !StaysSilent(states, acts);
    } else {
      forall states: seq<State>, acts: seq<Action> | IsRun(c, states, acts) ensures StaysSilent(states, acts) {
        forall i, j | 0 <= i < |acts| && i < j < |states| && IsDeregisterOk(acts[i])
          ensures !states[j].remote.record.Passing()
        {
          NeverPassingAgain(c, states, acts, i, j);
        }
      }
    }
  }

  // ---------------------------------------------------------------- run by run

  predicate IsExecution(a: Action) { a.ByAgent? && a.g.ApplyDeregister? }

  predicate IsStray(a: Action) { a == ByAgent(ApplyStrayPing) }

  lemma QuietWithoutStray(c: Config, s: State, a: Action)
    requires Inv(c, s) && s.loop.pc.Gone? && !s.remote.record.Passing() && Step(c, s, a).Some? && !IsStray(a)
    ensures !Step(c, s, a).value.remote.record.Passing()
  {
  }

  lemma QuietAt(c: Config, states: seq<State>, acts: seq<Action>, i: nat, n: nat)
    requires IsRun(c, states, acts) && i <= n < |acts| && states[i].loop.pc.Gone?
    requires !states[n].remote.record.Passing() && !IsStray(acts[n])
    ensures !states[n + 1].remote.record.Passing()
  {
    Forward(c, states, acts, i, n);
    StepAt(c, states, acts, n);
    QuietWithoutStray(c, states[n], acts[n]);
  }

  lemma {:induction false} SilentWhileNoStray(c: Config, states: seq<State>, acts: seq<Action>, i: nat, j: nat)
    requires IsRun(c, states, acts) && i <= j < |states|
    requires states[i].loop.pc.Gone? && !states[i].remote.record.Passing()
    requires forall h :: i <= h < j ==> !IsStray(acts[h])
    ensures !states[j].remote.record.Passing()
    decreases j
  {
    if i < j {
      SilentWhileNoStray(c, states, acts, i, j - 1);
      QuietAt(c, states, acts, i, j - 1);
    }
  }

  /** From a state after the join on, the service is silent iff it is so there and no stray TTL update is applied. */
  lemma SilentFromIff(c: Config, states: seq<State>, acts: seq<Action>, i: nat)
    requires IsRun(c, states, acts) && i < |states| && states[i].loop.pc.Gone?
    ensures (forall j :: i <= j < |states| ==> !states[j].remote.record.Passing())
            <==> !states[i].remote.record.Passing() && forall h :: i <= h < |acts| ==> !IsStray(acts[h])
  {
    if h :| i <= h < |acts| && IsStray(acts[h]) {
      assert Step(c, states[h], acts[h]) == Some(states[h + 1]);
      assert states[h + 1].remote.record.Passing();
    } else if !states[i].remote.record.Passing() {
      forall j | i <= j < |states| ensures !states[j].remote.record.Passing() {
        SilentWhileNoStray(c, states, acts, i, j);
      }
    }
  }

  /**
   On each single run: after the agent has executed a deregister request the service is never
   passing, if and only if no stray TTL update is applied after that execution.
   */
  lemma SilentIffNoStrayAfterExecution(c: Config, states: seq<State>, acts: seq<Action>, g: nat)
    requires IsRun(c, states, acts) && g < |acts| && IsExecution(acts[g])
    ensures (forall j :: g < j < |states| ==> !states[j].remote.record.Passing())
            <==> forall h :: g < h < |acts| ==> !IsStray(acts[h])
  {
    StepAt(c, states, acts, g);
    SilentFromIff(c, states, acts, g + 1);
  }

  /**
   And after a successful reply: if and only if no stray TTL update is applied after it and
   none that was applied before it is still in force then.
   */
  lemma SilentIffNoStrayAfterReply(c: Config, states: seq<State>, acts: seq<Action>, i: nat)
    requires IsRun(c, states, acts) && i < |acts| && IsDeregisterOk(acts[i])
    ensures (forall j :: i < j < |states| ==> !states[j].remote.record.Passing())
            <==> !states[i].remote.record.Passing() && forall h :: i < h < |acts| ==> !IsStray(acts[h])
  {
    OkIsFirst(c, states, acts, i);
    assert Step(c, states[i], acts[i]) == Some(states[i + 1]);
    SilentFromIff(c, states, acts, i + 1);
  }
}
