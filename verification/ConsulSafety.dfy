/** Inductive invariants of the registration protocol. */
module ConsulSafety {
  import opened Common
  import opened ConsulProtocol
  import Backoff

  /** The gate is held by exactly the caller that is inside it. */
  ghost predicate GateInv(s: State) {
    && (s.shared.gate.Some? ==> s.shared.gate.value in s.callers)
    && forall k :: k in s.callers ==> (s.callers[k].pc.InGate() <==> s.shared.gate == Some(k))
  }

  /** Nobody gets past the join before the maintenance loop is gone. */
  ghost predicate JoinInv(s: State) {
    && (forall k :: k in s.callers && s.callers[k].pc.PastJoin() ==> s.loop.pc.Gone?)
    && (0 < s.history.deregistersSent || s.history.deregisterApplied || 0 < s.history.deregistersOk
        ==> s.loop.pc.Gone?)
  }

  /** The caller in the gate, if it is at one of the two stores after a success. */
  predicate Clearing(s: State) {
    s.shared.gate.Some? && s.shared.gate.value in s.callers
    && (s.callers[s.shared.gate.value].pc.ClearingAttempted? || s.callers[s.shared.gate.value].pc.ClearingRegistered?)
  }

  /** How the two flags relate to the requests sent and to the deregistrations that succeeded. */
  ghost predicate FlagInv(s: State) {
    && (s.loop.pc.PastMarking() ==> s.shared.attempted)
    && (s.shared.registered ==> s.shared.attempted || Clearing(s))
    && (0 < s.history.sent ==> s.shared.attempted || 0 < s.history.deregistersOk)
    && s.history.deregistersOk <= 1
    && (0 < s.history.deregistersOk ==> Clearing(s) || (!s.shared.attempted && !s.shared.registered))
    && (forall k :: k in s.callers ==> CallerFlags(s.shared, s.history, s.callers[k].pc))
  }

  predicate CallerFlags(m: Shared, h: History, pc: CallerPC) {
    && (pc.LoadingRegistered? || pc.ClearingRegistered? ==> !m.attempted)
    && (pc.Deregistering? || pc.Awaiting? ==> h.deregistersOk == 0 && m.attempted)
    && (pc.ClearingAttempted? || pc.ClearingRegistered? ==> h.deregistersOk == 1)
    && (pc == Releasing(Success) || pc == Done(Success) ==> h.sent == 0 || 0 < h.deregistersOk)
  }

  predicate RequestOk(q: Request) { !q.passing && 0 < q.ttl && 0 < q.removeAfter }

  /** Every request the agent can see starts critical, and records keep their deadlines. */
  ghost predicate AgentInv(s: State) {
    && (s.loop.pc.Marking? || s.loop.pc.Sending? || s.loop.pc.AwaitingRegister? ==> RequestOk(s.loop.pc.req))
    && (forall q :: q in s.remote.inflight ==> RequestOk(q))
    && |s.remote.inflight| <= s.history.sent
    && RecordOk(s.remote)
  }

  predicate RecordOk(r: Remote) {
    r.record.Present? ==>
      0 < r.record.ttl && 0 < r.record.removeAfter && r.record.since <= r.now <= r.record.Deadline()
  }

  /** After an executed deregister request the service is not passing, unless a stray TTL update exists. */
  ghost predicate SilentInv(c: Config, s: State) {
    && (!c.latePings ==> s.remote.strayPings == 0)
    && (s.history.deregisterApplied && !c.latePings ==> !s.remote.record.Passing())
    && (0 < s.history.deregistersOk ==> s.history.deregisterApplied)
    && (forall k :: k in s.callers && s.callers[k].pc == Awaiting(true) ==> s.history.deregisterApplied)
  }

  /** Where the retry delay stands; a wait in progress is the one for the current attempt. */
  ghost predicate BackoffInv(c: Config, l: Loop) {
    c.BackoffFits() && !l.pc.Returned? && !l.pc.Gone? ==>
      if l.pc.Waiting? then
        0 < l.attempt && l.delay == Backoff.Capped(c.BaseDelay(), c.MaxDelay(), l.attempt - 1)
      else l.delay == Backoff.Capped(c.BaseDelay(), c.MaxDelay(), l.attempt)
  }

  ghost predicate Inv(c: Config, s: State) {
    GateInv(s) && JoinInv(s) && FlagInv(s) && AgentInv(s) && SilentInv(c, s) && BackoffInv(c, s.loop)
  }

  lemma InitHolds(c: Config)
    ensures Inv(c, Init(c))
  {
    assert c.BaseDelay() * Backoff.Pow2(0) == c.BaseDelay();
  }

  // ---------------------------------------------------------------- steps of the loop

  lemma LoopKeepsJoinAndGate(c: Config, s: State, a: LoopAction)
    requires GateInv(s) && JoinInv(s) && LoopStep(c, s, a).Some?
    ensures var t := LoopStep(c, s, a).value; GateInv(t) && JoinInv(t)
  {
    assert Stored(s.shared, a).gate == s.shared.gate;
  }

  lemma LoopKeepsFlags(c: Config, s: State, a: LoopAction)
    requires JoinInv(s) && FlagInv(s) && LoopStep(c, s, a).Some?
    ensures FlagInv(LoopStep(c, s, a).value)
  {
    var t := LoopStep(c, s, a).value;
    assert s.shared.attempted ==> t.shared.attempted;
    assert Clearing(t) == Clearing(s);
    if t.shared != s.shared || t.history != s.history {
      assert !s.loop.pc.Gone? && t.shared.attempted;
      forall k | k in s.callers ensures !s.callers[k].pc.PastJoin() {
      }
    }
  }

  lemma LoopKeepsAgent(c: Config, s: State, a: LoopAction)
    requires AgentInv(s) && SilentInv(c, s) && LoopStep(c, s, a).Some?
    ensures AgentInv(LoopStep(c, s, a).value) && SilentInv(c, LoopStep(c, s, a).value)
  {
    assert Requested(c, s, a).record == s.remote.record && Requested(c, s, a).now == s.remote.now;
  }

  lemma LoopKeepsBackoff(c: Config, s: State, a: LoopAction)
    requires BackoffInv(c, s.loop) && LoopStep(c, s, a).Some?
    ensures BackoffInv(c, LoopStep(c, s, a).value.loop)
  {
    if c.BackoffFits() {
      assert c.BaseDelay() * Backoff.Pow2(0) == c.BaseDelay();
      if a.WaitOver? {
        Backoff.NextIsCapped(c.BaseDelay(), c.MaxDelay(), s.loop.attempt - 1);
      }
    }
  }

  // ---------------------------------------------------------------- steps of a caller

  lemma CallerMovesGate(s: State, k: nat, a: CallerAction)
    requires GateInv(s) && CallerStep(s, k, a).Some?
    ensures var t := CallerStep(s, k, a).value;
            && (t.callers[k].pc.InGate() <==> t.shared.gate == Some(k))
            && (t.shared.gate == s.shared.gate || a.TakeGate? || a.Release?)
            && (a.TakeGate? ==> s.shared.gate.None? && t.shared.gate == Some(k))
            && (a.Release? ==> s.shared.gate == Some(k) && t.shared.gate.None?)
  {
  }

  lemma CallerKeepsGate(s: State, k: nat, a: CallerAction)
    requires GateInv(s) && CallerStep(s, k, a).Some?
    ensures GateInv(CallerStep(s, k, a).value)
  {
    var t := CallerStep(s, k, a).value;
    CallerMovesGate(s, k, a);
    assert t.callers == s.callers[k := t.callers[k]];
  }

  lemma CallerKeepsJoin(s: State, k: nat, a: CallerAction)
    requires JoinInv(s) && CallerStep(s, k, a).Some?
    ensures JoinInv(CallerStep(s, k, a).value)
  {
  }

  lemma CallerKeepsOwnFlags(s: State, k: nat, a: CallerAction)
    requires GateInv(s) && FlagInv(s) && CallerStep(s, k, a).Some?
    ensures var t := CallerStep(s, k, a).value; CallerFlags(t.shared, t.history, t.callers[k].pc)
  {
    if k in s.callers {
      assert CallerFlags(s.shared, s.history, s.callers[k].pc);
      assert s.callers[k].pc.InGate() ==> s.shared.gate == Some(k);
    }
  }

  lemma CallerKeepsSharedFlags(s: State, k: nat, a: CallerAction)
    requires GateInv(s) && FlagInv(s) && CallerStep(s, k, a).Some?
    ensures var t := CallerStep(s, k, a).value;
            && (t.shared.registered ==> t.shared.attempted || Clearing(t))
            && (0 < t.history.sent ==> t.shared.attempted || 0 < t.history.deregistersOk)
            && t.history.deregistersOk <= 1
            && (0 < t.history.deregistersOk ==> Clearing(t) || (!t.shared.attempted && !t.shared.registered))
  {
    if k in s.callers {
      assert CallerFlags(s.shared, s.history, s.callers[k].pc);
      assert s.callers[k].pc.InGate() ==> s.shared.gate == Some(k);
    }
  }

  lemma CallerKeepsFlags(s: State, k: nat, a: CallerAction)
    requires GateInv(s) && JoinInv(s) && FlagInv(s) && CallerStep(s, k, a).Some?
    ensures FlagInv(CallerStep(s, k, a).value)
  {
    var t := CallerStep(s, k, a).value;
    CallerKeepsSharedFlags(s, k, a);
    CallerKeepsOwnFlags(s, k, a);
    forall j | j in t.callers ensures CallerFlags(t.shared, t.history, t.callers[j].pc) {
      if j != k {
        OtherCallerFlags(s, k, a, j);
      }
    }
  }

  /** Only the gate holder changes a flag, and then nobody else is inside the gate. */
  lemma OtherCallerFlags(s: State, k: nat, a: CallerAction, j: nat)
    requires GateInv(s) && FlagInv(s) && CallerStep(s, k, a).Some?
    requires j in s.callers && j != k
    ensures var t := CallerStep(s, k, a).value; CallerFlags(t.shared, t.history, s.callers[j].pc)
  {
    assert CallerFlags(s.shared, s.history, s.callers[j].pc);
    if a.ClearAttempted? || a.ClearRegistered? || a.DeregisterOk? {
      assert s.shared.gate == Some(k);
      assert !s.callers[j].pc.InGate();
    }
  }

  lemma CallerKeepsAgent(c: Config, s: State, k: nat, a: CallerAction)
    requires AgentInv(s) && SilentInv(c, s) && CallerStep(s, k, a).Some?
    ensures AgentInv(CallerStep(s, k, a).value) && SilentInv(c, CallerStep(s, k, a).value)
  {
  }

  // ---------------------------------------------------------------- steps of the agent

  lemma AgentKeepsLocal(c: Config, s: State, a: AgentAction)
    requires GateInv(s) && JoinInv(s) && FlagInv(s) && BackoffInv(c, s.loop) && AgentStep(s, a).Some?
    ensures var t := AgentStep(s, a).value; GateInv(t) && JoinInv(t) && FlagInv(t) && BackoffInv(c, t.loop)
  {
    var t := AgentStep(s, a).value;
    if a.ApplyDeregister? {
      assert s.callers[a.k].pc.InGate() && t.callers[a.k].pc.InGate();
      assert Clearing(t) == Clearing(s);
      assert CallerFlags(s.shared, s.history, s.callers[a.k].pc);
    }
  }

  lemma AgentKeepsAgent(s: State, a: AgentAction)
    requires AgentInv(s) && AgentStep(s, a).Some?
    ensures AgentInv(AgentStep(s, a).value)
  {
  }

  lemma AgentKeepsSilent(c: Config, s: State, a: AgentAction)
    requires JoinInv(s) && AgentInv(s) && SilentInv(c, s) && AgentStep(s, a).Some?
    ensures SilentInv(c, AgentStep(s, a).value)
  {
  }

  lemma StepKeeps(c: Config, s: State, a: Action)
    requires Inv(c, s) && Step(c, s, a).Some?
    ensures Inv(c, Step(c, s, a).value)
  {
    match a
    case ByLoop(m) =>
      LoopKeepsJoinAndGate(c, s, m);
      LoopKeepsFlags(c, s, m);
      LoopKeepsAgent(c, s, m);
      LoopKeepsBackoff(c, s, m);
    case ByCaller(k, b) =>
      CallerKeepsGate(s, k, b);
      CallerKeepsJoin(s, k, b);
      CallerKeepsFlags(s, k, b);
      CallerKeepsAgent(c, s, k, b);
    case ByAgent(g) =>
      AgentKeepsLocal(c, s, g);
      AgentKeepsAgent(s, g);
      AgentKeepsSilent(c, s, g);
  }

  /** Every state of every run satisfies the invariant. */
  lemma {:induction false} Reachable(c: Config, states: seq<State>, acts: seq<Action>, n: nat)
    requires IsRun(c, states, acts) && n < |states|
    ensures Inv(c, states[n])
  {
    if n == 0 {
      InitHolds(c);
    } else {
      Reachable(c, states, acts, n - 1);
      assert Step(c, states[n - 1], acts[n - 1]) == Some(states[n - 1 + 1]);
      StepKeeps(c, states[n - 1], acts[n - 1]);
    }
  }
}
