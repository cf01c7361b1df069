/** What the registration protocol guarantees over whole runs. */
module ConsulRuns {
  import opened Common
  import opened ConsulOptions
  import opened ConsulProtocol
  import opened ConsulSafety
  import Backoff

  /** History only grows, and a loop that is gone stays gone and sends nothing more. */
  predicate NotBefore(s: State, t: State) {
    && s.history.sent <= t.history.sent && s.history.deregistersOk <= t.history.deregistersOk
    && (s.history.deregisterApplied ==> t.history.deregisterApplied)
    && (s.loop.pc.Gone? ==> t.loop.pc.Gone? && t.history.sent == s.history.sent)
    && (s.shared.cancelled ==> t.shared.cancelled)
    && s.remote.now <= t.remote.now
  }

  lemma StepForward(c: Config, s: State, a: Action)
    requires Step(c, s, a).Some?
    ensures NotBefore(s, Step(c, s, a).value)
  {
  }

  lemma {:induction false} Chain(states: seq<State>, i: nat, j: nat)
    requires i <= j < |states| && forall n :: i <= n < j ==> NotBefore(states[n], states[n + 1])
    ensures NotBefore(states[i], states[j])
    decreases j
  {
    if i < j {
      Chain(states, i, j - 1);
      assert NotBefore(states[j - 1], states[j - 1 + 1]);
    }
  }

  lemma Forward(c: Config, states: seq<State>, acts: seq<Action>, i: nat, j: nat)
    requires IsRun(c, states, acts) && i <= j < |states|
    ensures NotBefore(states[i], states[j])
  {
    forall n | i <= n < j ensures NotBefore(states[n], states[n + 1]) {
      assert Step(c, states[n], acts[n]) == Some(states[n + 1]);
      StepForward(c, states[n], acts[n]);
    }
    Chain(states, i, j);
  }

  lemma StepAt(c: Config, states: seq<State>, acts: seq<Action>, i: nat)
    requires IsRun(c, states, acts) && i < |acts|
    ensures Step(c, states[i], acts[i]) == Some(states[i + 1])
    ensures Inv(c, states[i]) && Inv(c, states[i + 1])
  {
    Reachable(c, states, acts, i);
    Reachable(c, states, acts, i + 1);
  }

  // ---------------------------------------------------------------- join before deregister

  lemma {:induction false} GoneNeedsClose(c: Config, states: seq<State>, acts: seq<Action>, n: nat)
    requires IsRun(c, states, acts) && n < |states| && states[n].loop.pc.Gone?
    ensures exists h: nat :: h < n && acts[h] == ByLoop(CloseDone) && states[h].loop.pc.Returned?
  {
    assert n > 0;
    assert Step(c, states[n - 1], acts[n - 1]) == Some(states[n - 1 + 1]);
    if states[n - 1].loop.pc.Gone? {
      GoneNeedsClose(c, states, acts, n - 1);
    } else {
      assert acts[n - 1] == ByLoop(CloseDone);
    }
  }

  /** Once the loop is gone it sends nothing, whatever the Shutdown callers do. */
  lemma SilentWhenGone(c: Config, states: seq<State>, acts: seq<Action>, i: nat, j: nat)
    requires IsRun(c, states, acts) && i <= j < |acts| && states[i].loop.pc.Gone?
    ensures !SendsToAgent(acts[j])
  {
    Forward(c, states, acts, i, j);
    assert Step(c, states[j], acts[j]) == Some(states[j + 1]);
  }

  /**
   Each deregister request is sent after Maintain has returned, and no register request or TTL
   update is sent after it, in any run, with any number of callers, however many time out.
   */
  lemma JoinBeforeDeregister(c: Config, states: seq<State>, acts: seq<Action>, i: nat)
    requires IsRun(c, states, acts) && i < |acts| && IsDeregisterSend(acts[i])
    ensures exists h: nat :: h < i && acts[h] == ByLoop(CloseDone) && states[h].loop.pc.Returned?
    ensures forall j :: i < j < |acts| ==> !SendsToAgent(acts[j])
  {
    StepAt(c, states, acts, i);
    assert states[i].callers[acts[i].k].pc.PastJoin();
    GoneNeedsClose(c, states, acts, i);
    forall j | i < j < |acts| ensures !SendsToAgent(acts[j]) {
      SilentWhenGone(c, states, acts, i, j);
    }
  }

  // ---------------------------------------------------------------- the gate

  /** At most one deregister request is unanswered at any moment: its sender holds the gate. */
  lemma OneDeregistrationInFlight(c: Config, states: seq<State>, acts: seq<Action>, n: nat, j: nat, k: nat)
    requires IsRun(c, states, acts) && n < |states|
    requires j in states[n].callers && states[n].callers[j].pc.Awaiting?
    requires k in states[n].callers && states[n].callers[k].pc.Awaiting?
    ensures j == k && states[n].shared.gate == Some(k)
  {
    Reachable(c, states, acts, n);
  }

  lemma OkIsFirst(c: Config, states: seq<State>, acts: seq<Action>, i: nat)
    requires IsRun(c, states, acts) && i < |acts| && IsDeregisterOk(acts[i])
    ensures states[i].history.deregistersOk == 0 && states[i + 1].history.deregistersOk == 1
    ensures states[i + 1].loop.pc.Gone?
  {
    Reachable(c, states, acts, i);
    assert Step(c, states[i], acts[i]) == Some(states[i + 1]);
    var pc := states[i].callers[acts[i].k].pc;
    assert CallerFlags(states[i].shared, states[i].history, pc) && pc.PastJoin();
  }

  /** At most one deregistration of a run succeeds. */
  lemma OneDeregistrationSucceeds(c: Config, states: seq<State>, acts: seq<Action>, i: nat, j: nat)
    requires IsRun(c, states, acts) && i < |acts| && j < |acts|
    requires IsDeregisterOk(acts[i]) && IsDeregisterOk(acts[j])
    ensures i == j
  {
    OkIsFirst(c, states, acts, i);
    OkIsFirst(c, states, acts, j);
    if i < j {
      Forward(c, states, acts, i + 1, j);
    } else if j < i {
      Forward(c, states, acts, j + 1, i);
    }
  }

  /** Whenever the gate is free, registered implies registerAttempted. */
  lemma RegisteredImpliesAttempted(c: Config, states: seq<State>, acts: seq<Action>, n: nat)
    requires IsRun(c, states, acts) && n < |states| && states[n].shared.gate.None?
    ensures states[n].shared.registered ==> states[n].shared.attempted
  {
    Reachable(c, states, acts, n);
  }

  // ---------------------------------------------------------------- what a nil Shutdown means

  lemma SendCounts(c: Config, states: seq<State>, acts: seq<Action>, i: nat, n: nat)
    requires IsRun(c, states, acts) && i < n < |states| && acts[i] == ByLoop(SendRegister)
    ensures 0 < states[n].history.sent
  {
    assert Step(c, states[i], acts[i]) == Some(states[i + 1]);
    Forward(c, states, acts, i + 1, n);
  }

  lemma {:induction false} OkNeedsReply(c: Config, states: seq<State>, acts: seq<Action>, n: nat)
    requires IsRun(c, states, acts) && n < |states| && 0 < states[n].history.deregistersOk
    ensures exists i: nat :: i < n && IsDeregisterOk(acts[i])
  {
    assert n > 0;
    assert Step(c, states[n - 1], acts[n - 1]) == Some(states[n - 1 + 1]);
    if 0 < states[n - 1].history.deregistersOk {
      OkNeedsReply(c, states, acts, n - 1);
    } else {
      assert IsDeregisterOk(acts[n - 1]);
    }
  }

  lemma NilCaller(c: Config, states: seq<State>, acts: seq<Action>, n: nat, k: nat)
    requires IsRun(c, states, acts) && n < |states|
    requires k in states[n].callers && states[n].callers[k].pc == Done(Success)
    ensures states[n].loop.pc.Gone?
    ensures states[n].history.sent == 0 || 0 < states[n].history.deregistersOk
  {
    Reachable(c, states, acts, n);
    assert CallerFlags(states[n].shared, states[n].history, states[n].callers[k].pc);
  }

  ghost predicate NoRegisterSentFrom(acts: seq<Action>, d: nat) {
    forall i :: d <= i < |acts| ==> acts[i] != ByLoop(SendRegister)
  }

  /**
   A nil result of Shutdown: either no register request is sent in the whole run, or some
   deregistration succeeded before it, after every register request that is ever sent.
   */
  lemma ShutdownNilMeansGone(c: Config, states: seq<State>, acts: seq<Action>, n: nat, k: nat)
    requires IsRun(c, states, acts) && n < |states|
    requires k in states[n].callers && states[n].callers[k].pc == Done(Success)
    ensures NoRegisterSentFrom(acts, 0)
            || exists d: nat :: d < n && IsDeregisterOk(acts[d]) && NoRegisterSentFrom(acts, d)
  {
    NilCaller(c, states, acts, n, k);
    if states[n].history.sent == 0 {
      forall i | 0 <= i < |acts| ensures acts[i] != ByLoop(SendRegister) {
        if acts[i] == ByLoop(SendRegister) {
          if i < n { SendCounts(c, states, acts, i, n); } else { SilentWhenGone(c, states, acts, n, i); }
        }
      }
    } else {
      OkNeedsReply(c, states, acts, n);
      var d: nat :| d < n && IsDeregisterOk(acts[d]);
      OkIsFirst(c, states, acts, d);
      forall i | d <= i < |acts| ensures acts[i] != ByLoop(SendRegister) {
        if d < i { SilentWhenGone(c, states, acts, d + 1, i); }
      }
    }
  }

  // ---------------------------------------------------------------- never passing again

  /**
   Once a deregistration has succeeded the service is never passing again, however late the
   agent commits cancelled registrations.  A record that does turn up is critical, carries a
   positive removal delay, and has not outlived it.
   */
  lemma NeverPassingAgain(c: Config, states: seq<State>, acts: seq<Action>, i: nat, j: nat)
    requires IsRun(c, states, acts) && !c.latePings
    requires i < j < |states| && IsDeregisterOk(acts[i])
    ensures !states[j].remote.record.Passing()
    ensures states[j].remote.record.Present? ==>
              var r := states[j].remote.record;
              0 < r.removeAfter && r.since <= states[j].remote.now <= r.since + r.removeAfter
  {
    StepAt(c, states, acts, i);
    Forward(c, states, acts, i + 1, j);
    Reachable(c, states, acts, j);
  }

  lemma NothingRecordedStep(c: Config, s: State, a: Action)
    requires AgentInv(s) && s.history.sent == 0 && s.remote.record.Absent? && Step(c, s, a).Some?
    ensures Step(c, s, a).value.remote.record.Absent?
  {
  }

  lemma {:induction false} NothingRecordedBeforeSend(c: Config, states: seq<State>, acts: seq<Action>, n: nat)
    requires IsRun(c, states, acts) && n < |states| && states[n].history.sent == 0
    ensures states[n].remote.record.Absent?
  {
    if n > 0 {
      Forward(c, states, acts, n - 1, n);
      NothingRecordedBeforeSend(c, states, acts, n - 1);
      StepAt(c, states, acts, n - 1);
      NothingRecordedStep(c, states[n - 1], acts[n - 1]);
    }
  }

  /**
   What the caller of Shutdown may rely on: from the moment it returns nil, and whatever other
   callers and the agent do, the service is never passing again.
   */
  lemma NilShutdownIsFinal(c: Config, states: seq<State>, acts: seq<Action>, n: nat, k: nat, j: nat)
    requires IsRun(c, states, acts) && !c.latePings && n <= j < |states|
    requires k in states[n].callers && states[n].callers[k].pc == Done(Success)
    ensures !states[j].remote.record.Passing()
  {
    NilCaller(c, states, acts, n, k);
    Forward(c, states, acts, n, j);
    if states[n].history.sent == 0 {
      NothingRecordedBeforeSend(c, states, acts, j);
    } else {
      Reachable(c, states, acts, j);
    }
  }

  /** The record stays as it is, or goes. */
  predicate OnlyGoes(s: State, t: State) {
    t.remote.record == s.remote.record || t.remote.record.Absent?
  }

  lemma QuietStep(c: Config, s: State, a: Action)
    requires Inv(c, s) && Step(c, s, a).Some?
    requires !c.latePings && 0 < s.history.deregistersOk && !IsCommit(a)
    ensures OnlyGoes(s, Step(c, s, a).value)
  {
  }

  lemma {:induction false} OnlyGoesChain(states: seq<State>, i: nat, j: nat)
    requires i <= j < |states| && forall n :: i <= n < j ==> OnlyGoes(states[n], states[n + 1])
    ensures OnlyGoes(states[i], states[j])
    decreases j
  {
    if i < j {
      OnlyGoesChain(states, i, j - 1);
      assert OnlyGoes(states[j - 1], states[j - 1 + 1]);
    }
  }

  /** Between two states without a commit, the record stays, or goes for good. */
  lemma RecordOnlyAges(c: Config, states: seq<State>, acts: seq<Action>, i: nat, j: nat)
    requires IsRun(c, states, acts) && !c.latePings && i <= j < |states|
    requires 0 < states[i].history.deregistersOk
    requires forall h :: i <= h < j ==> !IsCommit(acts[h])
    ensures OnlyGoes(states[i], states[j])
  {
    forall n | i <= n < j ensures OnlyGoes(states[n], states[n + 1]) {
      Forward(c, states, acts, i, n);
      StepAt(c, states, acts, n);
      QuietStep(c, states[n], acts[n]);
    }
    OnlyGoesChain(states, i, j);
  }

  /** An agent that applies its expiry rules exactly removes a late record within its delay. */
  lemma LateRecordExpires(c: Config, states: seq<State>, acts: seq<Action>, i: nat, j: nat)
    requires IsRun(c, states, acts) && !c.latePings && i <= j < |states|
    requires 0 < states[i].history.deregistersOk
    requires forall h :: i <= h < j ==> !IsCommit(acts[h])
    requires states[i].remote.record.Present? ==>
               states[i].remote.record.since + states[i].remote.record.removeAfter < states[j].remote.now
    ensures states[j].remote.record.Absent?
  {
    RecordOnlyAges(c, states, acts, i, j);
    Forward(c, states, acts, i, j);
    Reachable(c, states, acts, j);
  }

  /** The commits among the first n actions. */
  function Commits(acts: seq<Action>, n: nat): nat
    requires n <= |acts|
  {
    if n == 0 then 0 else Commits(acts, n - 1) + if IsCommit(acts[n - 1]) then 1 else 0
  }

  /** A step never commits more than it takes from the requests in flight or sends. */
  predicate CommitsWhatIsThere(s: State, a: Action, t: State) {
    (if IsCommit(a) then 1 else 0) + |t.remote.inflight| + s.history.sent <= |s.remote.inflight| + t.history.sent
  }

  lemma CommitUsesOne(c: Config, s: State, a: Action)
    requires Step(c, s, a).Some?
    ensures CommitsWhatIsThere(s, a, Step(c, s, a).value)
  {
  }

  lemma {:induction false} CommitsAddUp(states: seq<State>, acts: seq<Action>, n: nat)
    requires n <= |acts| && |states| == |acts| + 1
    requires forall i :: 0 <= i < n ==> CommitsWhatIsThere(states[i], acts[i], states[i + 1])
    ensures Commits(acts, n) + |states[n].remote.inflight| + states[0].history.sent
            <= |states[0].remote.inflight| + states[n].history.sent
  {
    if n > 0 {
      CommitsAddUp(states, acts, n - 1);
      assert CommitsWhatIsThere(states[n - 1], acts[n - 1], states[n - 1 + 1]);
    }
  }

  /** There are not many late commits: each register request sent is committed at most once. */
  lemma CommitsBounded(c: Config, states: seq<State>, acts: seq<Action>, n: nat)
    requires IsRun(c, states, acts) && n <= |acts|
    ensures Commits(acts, n) + |states[n].remote.inflight| <= states[n].history.sent
  {
    forall i | 0 <= i < n ensures CommitsWhatIsThere(states[i], acts[i], states[i + 1]) {
      assert Step(c, states[i], acts[i]) == Some(states[i + 1]);
      CommitUsesOne(c, states[i], acts[i]);
    }
    CommitsAddUp(states, acts, n);
  }

  // ---------------------------------------------------------------- retries

  /** Completed waits among the first n actions since registered was last stored. */
  function WaitsSinceSuccess(acts: seq<Action>, n: nat): nat
    requires n <= |acts|
  {
    if n == 0 || acts[n - 1] == ByLoop(MarkRegistered) then 0
    else WaitsSinceSuccess(acts, n - 1) + if acts[n - 1] == ByLoop(WaitOver) then 1 else 0
  }

  /** The completed waits that a loop accounts for. */
  function Waits(l: Loop): int {
    l.attempt - if l.pc.Waiting? then 1 else 0
  }

  predicate Stopped(l: Loop) { l.pc.Returned? || l.pc.Gone? }

  /** A step starts the count of a running loop again, adds one to it, or leaves it. */
  predicate CountsWaits(s: State, a: Action, t: State) {
    !Stopped(t.loop) ==>
      && !Stopped(s.loop)
      && Waits(t.loop) == if a == ByLoop(MarkRegistered) then 0
                          else Waits(s.loop) + if a == ByLoop(WaitOver) then 1 else 0
  }

  lemma StepWaits(c: Config, s: State, a: Action)
    requires Step(c, s, a).Some?
    ensures CountsWaits(s, a, Step(c, s, a).value)
  {
  }

  lemma {:induction false} WaitsAddUp(states: seq<State>, acts: seq<Action>, n: nat)
    requires n <= |acts| && |states| == |acts| + 1
    requires forall i :: 0 <= i < n ==> CountsWaits(states[i], acts[i], states[i + 1])
    requires !Stopped(states[n].loop) && Waits(states[0].loop) == 0
    ensures Waits(states[n].loop) == WaitsSinceSuccess(acts, n)
  {
    if n > 0 {
      assert CountsWaits(states[n - 1], acts[n - 1], states[n - 1 + 1]);
      WaitsAddUp(states, acts, n - 1);
    }
  }

  lemma WaitsCount(c: Config, states: seq<State>, acts: seq<Action>, n: nat)
    requires IsRun(c, states, acts) && n < |states| && !Stopped(states[n].loop)
    ensures Waits(states[n].loop) == WaitsSinceSuccess(acts, n)
  {
    forall i | 0 <= i < n ensures CountsWaits(states[i], acts[i], states[i + 1]) {
      assert Step(c, states[i], acts[i]) == Some(states[i + 1]);
      StepWaits(c, states[i], acts[i]);
    }
    WaitsAddUp(states, acts, n);
  }

  lemma WaitStart(c: Config, s: State)
    requires BackoffInv(c, s.loop) && c.BackoffFits() && !s.shared.cancelled
    requires LoopStep(c, s, CheckBeforeWait).Some?
    ensures var l := LoopStep(c, s, CheckBeforeWait).value.loop;
            && !Stopped(s.loop) && l.pc.Waiting? && l.attempt == 1 + Waits(s.loop)
            && l.pc.until - s.remote.now == Backoff.Capped(c.BaseDelay(), c.MaxDelay(), l.attempt - 1)
  {
  }

  /**
   The wait before the k-th consecutive retry since the last successful registration is
   min(base * 2^(k-1), max), in every interleaving; a failed heartbeat counts as the first.
   */
  lemma WaitIsCappedBackoff(c: Config, states: seq<State>, acts: seq<Action>, i: nat)
    requires IsRun(c, states, acts) && i < |acts| && c.BackoffFits()
    requires acts[i] == ByLoop(CheckBeforeWait) && !states[i].shared.cancelled
    ensures var k := 1 + WaitsSinceSuccess(acts, i);
            && states[i + 1].loop.pc.Waiting?
            && states[i + 1].loop.attempt == k
            && states[i + 1].loop.pc.until - states[i].remote.now
               == Backoff.Capped(c.BaseDelay(), c.MaxDelay(), k - 1)
  {
    assert Step(c, states[i], acts[i]) == Some(states[i + 1]);
    Reachable(c, states, acts, i);
    WaitStart(c, states[i]);
    WaitsCount(c, states, acts, i);
  }

  /** The same in terms of the configured delays, when they are usable as they are. */
  lemma ConfiguredWaits(c: Config, states: seq<State>, acts: seq<Action>, i: nat)
    requires IsRun(c, states, acts) && i < |acts| && 0 < c.retryBase <= c.retryMax <= Backoff.TWO_63 / 2
    requires acts[i] == ByLoop(CheckBeforeWait) && !states[i].shared.cancelled
    ensures states[i + 1].loop.pc.Waiting?
    ensures states[i + 1].loop.pc.until - states[i].remote.now
            == Min(c.retryBase * Backoff.Pow2(WaitsSinceSuccess(acts, i)), c.retryMax)
  {
    Backoff.SmallCapFits(c.retryBase, c.retryMax);
    WaitIsCappedBackoff(c, states, acts, i);
  }

  /** The delay stays between base and cap, at every loop head and in every wait. */
  lemma DelayInRange(c: Config, states: seq<State>, acts: seq<Action>, n: nat)
    requires IsRun(c, states, acts) && n < |states| && c.BackoffFits() && !Stopped(states[n].loop)
    ensures c.BaseDelay() <= states[n].loop.delay <= c.MaxDelay()
  {
    Reachable(c, states, acts, n);
    var l := states[n].loop;
    Backoff.CappedInRange(c.BaseDelay(), c.MaxDelay(), if l.pc.Waiting? then l.attempt - 1 else l.attempt);
  }

  // ---------------------------------------------------------------- invalid options

  ghost predicate NothingSent(s: State) {
    && s.history.sent == 0 && !s.shared.attempted && !s.shared.registered
    && (s.loop.pc.LoopHead? || s.loop.pc.Returned? || s.loop.pc.Gone?)
    && forall k :: k in s.callers ==> !s.callers[k].pc.Deregistering? && !s.callers[k].pc.Awaiting?
  }

  lemma InvalidStep(c: Config, s: State, a: Action)
    requires NothingSent(s) && !Acceptable(c.options) && Step(c, s, a).Some?
    ensures NothingSent(Step(c, s, a).value)
    ensures !SendsToAgent(a) && !IsDeregisterSend(a)
  {
  }

  /** With invalid options Maintain returns from its first pass; nothing is ever sent or marked. */
  lemma {:induction false} InvalidOptionsSendNothing(c: Config, states: seq<State>, acts: seq<Action>, n: nat)
    requires IsRun(c, states, acts) && n < |states| && !Acceptable(c.options)
    ensures NothingSent(states[n])
    ensures forall i :: 0 <= i < n ==> !SendsToAgent(acts[i]) && !IsDeregisterSend(acts[i])
  {
    if n > 0 {
      InvalidOptionsSendNothing(c, states, acts, n - 1);
      assert Step(c, states[n - 1], acts[n - 1]) == Some(states[n - 1 + 1]);
      InvalidStep(c, states[n - 1], acts[n - 1]);
    }
  }

  /** The loop returns only when cancelled or on invalid options. */
  lemma {:induction false} ReturnsOnlyWhenCancelled(c: Config, states: seq<State>, acts: seq<Action>, n: nat)
    requires IsRun(c, states, acts) && n < |states|
    requires states[n].loop.pc.Returned? || states[n].loop.pc.Gone?
    ensures states[n].shared.cancelled || !Acceptable(c.options)
  {
    if n > 0 {
      assert Step(c, states[n - 1], acts[n - 1]) == Some(states[n - 1 + 1]);
      if states[n - 1].loop.pc.Returned? || states[n - 1].loop.pc.Gone? {
        ReturnsOnlyWhenCancelled(c, states, acts, n - 1);
        StepForward(c, states[n - 1], acts[n - 1]);
      }
    }
  }

  // ---------------------------------------------------------------- progress after a cancellation

  /** How many steps a cancelled loop has left, if no further call succeeds. */
  function StepsLeft(pc: MaintPC): (n: nat)
    ensures n <= 7
    ensures n == 0 <==> pc.Gone?
  {
    match pc
    case Gone => 0
    case Returned => 1
    case Failed => 2
    case PingFailed => 2
    case AwaitingRegister(_, _) => 3
    case AwaitingPing(_) => 3
    case Sending(_) => 4
    case Pinging => 4
    case Marking(_) => 5
    case Accepted => 5
    case Idle => 5
    case LoopHead => 6
    case Waiting(_) => 7
  }

  predicate IsGoodReply(a: Action) { a == ByLoop(RegisterOk) || a == ByLoop(PingOk) }

  /** The steps of the loop among the actions from i up to j. */
  function LoopSteps(acts: seq<Action>, i: nat, j: nat): nat
    requires i <= j <= |acts|
    decreases j
  {
    if i == j then 0 else LoopSteps(acts, i, j - 1) + if acts[j - 1].ByLoop? then 1 else 0
  }

  function GoodReplies(acts: seq<Action>, i: nat, j: nat): nat
    requires i <= j <= |acts|
    decreases j
  {
    if i == j then 0 else GoodReplies(acts, i, j - 1) + if IsGoodReply(acts[j - 1]) then 1 else 0
  }

  /** A step of a cancelled loop brings it closer to its end, unless it is the success of a call. */
  predicate Closer(s: State, a: Action, t: State) {
    (if a.ByLoop? then 1 else 0) + StepsLeft(t.loop.pc) <= StepsLeft(s.loop.pc) + if IsGoodReply(a) then 3 else 0
  }

  lemma CancelledStep(c: Config, s: State, a: Action)
    requires s.shared.cancelled && Step(c, s, a).Some?
    ensures Closer(s, a, Step(c, s, a).value)
  {
  }

  lemma CancelledAt(c: Config, states: seq<State>, acts: seq<Action>, i: nat, n: nat)
    requires IsRun(c, states, acts) && i <= n < |acts| && states[i].shared.cancelled
    ensures Closer(states[n], acts[n], states[n + 1])
  {
    Forward(c, states, acts, i, n);
    assert Step(c, states[n], acts[n]) == Some(states[n + 1]);
    CancelledStep(c, states[n], acts[n]);
  }

  lemma {:induction false} CloserAddsUp(states: seq<State>, acts: seq<Action>, i: nat, j: nat)
    requires i <= j <= |acts| && |states| == |acts| + 1
    requires forall n :: i <= n < j ==> Closer(states[n], acts[n], states[n + 1])
    ensures LoopSteps(acts, i, j) + StepsLeft(states[j].loop.pc)
            <= StepsLeft(states[i].loop.pc) + 3 * GoodReplies(acts, i, j)
    decreases j
  {
    if i < j {
      CloserAddsUp(states, acts, i, j - 1);
      assert Closer(states[j - 1], acts[j - 1], states[j - 1 + 1]);
    }
  }

  /**
   A cancelled loop ends after a bounded number of its own steps, whichever branch its selects
   take: at most seven, and three more for every call that still succeeds.
   */
  lemma CancelledLoopEnds(c: Config, states: seq<State>, acts: seq<Action>, i: nat, j: nat)
    requires IsRun(c, states, acts) && i <= j < |states| && states[i].shared.cancelled
    ensures LoopSteps(acts, i, j) + StepsLeft(states[j].loop.pc) <= 7 + 3 * GoodReplies(acts, i, j)
  {
    forall n | i <= n < j ensures Closer(states[n], acts[n], states[n + 1]) {
      CancelledAt(c, states, acts, i, n);
    }
    CloserAddsUp(states, acts, i, j);
  }

  predicate AwaitsReply(pc: MaintPC) { pc.AwaitingRegister? || pc.AwaitingPing? }

  /** A good reply answers a call, and a call that is awaited was sent or awaited before. */
  predicate Answers(s: State, a: Action, t: State) {
    && (IsGoodReply(a) ==> AwaitsReply(s.loop.pc) && !AwaitsReply(t.loop.pc))
    && (AwaitsReply(t.loop.pc) && !SendsToAgent(a) ==> AwaitsReply(s.loop.pc))
  }

  lemma StepAnswers(c: Config, s: State, a: Action)
    requires Step(c, s, a).Some?
    ensures Answers(s, a, Step(c, s, a).value)
  {
  }

  /** No call that is sent from i on succeeds before j. */
  ghost predicate NewCallsFail(acts: seq<Action>, i: nat, j: nat)
    requires i <= j <= |acts|
  {
    forall m, n :: i <= m < n < j && SendsToAgent(acts[m]) ==> !IsGoodReply(acts[n])
  }

  predicate AnySend(acts: seq<Action>, i: nat, j: nat)
    requires i <= j <= |acts|
    decreases j
  {
    i < j && (SendsToAgent(acts[j - 1]) || AnySend(acts, i, j - 1))
  }

  lemma {:induction false} AnySendFinds(acts: seq<Action>, i: nat, j: nat)
    requires i <= j <= |acts| && AnySend(acts, i, j)
    ensures exists m :: i <= m < j && SendsToAgent(acts[m])
    decreases j
  {
    if !SendsToAgent(acts[j - 1]) {
      AnySendFinds(acts, i, j - 1);
    }
  }

  /** Then only a call that is awaited at i can still succeed. */
  lemma {:induction false} OnlyTheOutstanding(states: seq<State>, acts: seq<Action>, i: nat, j: nat)
    requires i <= j <= |acts| && |states| == |acts| + 1 && NewCallsFail(acts, i, j)
    requires forall n :: i <= n < j ==> Answers(states[n], acts[n], states[n + 1])
    ensures GoodReplies(acts, i, j) <= if AwaitsReply(states[i].loop.pc) then 1 else 0
    ensures !AnySend(acts, i, j) && AwaitsReply(states[j].loop.pc) ==>
              GoodReplies(acts, i, j) == 0 && AwaitsReply(states[i].loop.pc)
    decreases j
  {
    if i < j {
      OnlyTheOutstanding(states, acts, i, j - 1);
      assert Answers(states[j - 1], acts[j - 1], states[j - 1 + 1]);
      if IsGoodReply(acts[j - 1]) && AnySend(acts, i, j - 1) {
        AnySendFinds(acts, i, j - 1);
        assert false;
      }
    }
  }

  /**
   Every call of the loop carries the cancelled context.  If no call sent after the cancellation
   succeeds, the loop takes at most seven more steps, even if the one outstanding then succeeds.
   */
  lemma CancelledLoopEndsInSeven(c: Config, states: seq<State>, acts: seq<Action>, i: nat, j: nat)
    requires IsRun(c, states, acts) && i <= j < |states| && states[i].shared.cancelled && NewCallsFail(acts, i, j)
    ensures LoopSteps(acts, i, j) + StepsLeft(states[j].loop.pc) <= 7
  {
    forall n | i <= n < j
      ensures Closer(states[n], acts[n], states[n + 1]) && Answers(states[n], acts[n], states[n + 1])
    {
      CancelledAt(c, states, acts, i, n);
      assert Step(c, states[n], acts[n]) == Some(states[n + 1]);
      StepAnswers(c, states[n], acts[n]);
    }
    CloserAddsUp(states, acts, i, j);
    OnlyTheOutstanding(states, acts, i, j);
  }

  /** The step a cancelled loop can take without waiting for anything but the return of its call. */
  function WayOut(pc: MaintPC): LoopAction
    requires !pc.Gone?
  {
    match pc
    case LoopHead => Validate
    case Marking(_) => MarkAttempted
    case Sending(_) => SendRegister
    case AwaitingRegister(_, _) => RegisterErr
    case Accepted => MarkRegistered
    case Pinging => SendPing
    case AwaitingPing(_) => PingErr
    case Idle => Stop
    case PingFailed => CheckAfterPing
    case Failed => CheckBeforeWait
    case Waiting(_) => Stop
    case Returned => CloseDone
  }

  lemma WayOutLeads(c: Config, s: State)
    requires s.shared.cancelled && !s.loop.pc.Gone?
    ensures var t := LoopStep(c, s, WayOut(s.loop.pc));
            t.Some? && t.value.shared.cancelled && StepsLeft(t.value.loop.pc) < StepsLeft(s.loop.pc)
  {
  }

  /** Where the loop gets by the given steps of its own. */
  function AfterSteps(c: Config, s: State, steps: seq<LoopAction>): Option<State>
    decreases |steps|
  {
    if steps == [] then Some(s)
    else
      match LoopStep(c, s, steps[0])
      case None => None
      case Some(t) => AfterSteps(c, t, steps[1..])
  }

  /** A cancelled loop is never stuck: wherever it is, at most seven steps of its own let it finish. */
  lemma {:induction false} CancelledLoopCanFinish(c: Config, s: State) returns (steps: seq<LoopAction>)
    requires s.shared.cancelled
    ensures |steps| <= StepsLeft(s.loop.pc) <= 7
    ensures RegisterOk !in steps && PingOk !in steps
    ensures AfterSteps(c, s, steps).Some? && AfterSteps(c, s, steps).value.loop.pc.Gone?
    decreases StepsLeft(s.loop.pc)
  {
    steps := [];
    if !s.loop.pc.Gone? {
      WayOutLeads(c, s);
      var rest := CancelledLoopCanFinish(c, LoopStep(c, s, WayOut(s.loop.pc)).value);
      steps := [WayOut(s.loop.pc)] + rest;
      assert steps[1..] == rest;
    }
  }
}
