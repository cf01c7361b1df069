/**
 The registration protocol of registry/consul.go as a transition system: one maintenance loop,
 any number of Shutdown callers, and a remote agent that may reject a request, forget the
 service, or commit a cancelled registration arbitrarily late.  The system starts right after
 OnStart, with the maintenance goroutine at its loop head.
 */
module ConsulProtocol {
  import opened Common
  import opened ConsulOptions
  import Backoff

  /** latePings says whether the agent may apply a TTL update after the call for it has returned. */
  datatype Config = Config(options: Options, retryBase: int, retryMax: int, latePings: bool) {
    function BaseDelay(): int { Backoff.Base(retryBase) }
    function MaxDelay(): int { Backoff.Cap(retryBase, retryMax) }
    ghost predicate BackoffFits() {
      MaxDelay() < Backoff.TWO_63 && Backoff.DoublingFits(BaseDelay(), MaxDelay())
    }
  }

  /** The part of a register request the agent acts on: the TTL check it installs. */
  datatype Request = Request(id: nat, passing: bool, ttl: int, removeAfter: int)

  /** The check starts critical and carries the removal delay. */
  function NewTTLCheck(id: nat, o: Options): (r: Request)
    requires PositiveDuration(o.ttl) && PositiveDuration(o.deregisterAfter)
    ensures !r.passing && r.id == id
    ensures r.ttl == o.ttl.ns && r.removeAfter == o.deregisterAfter.ns && 0 < r.ttl && 0 < r.removeAfter
  {
    Request(id, false, o.ttl.ns, o.deregisterAfter.ns)
  }

  /** The agent's entry for the service; since is when its status was last written. */
  datatype Record = Absent | Present(passing: bool, since: int, ttl: int, removeAfter: int) {
    predicate Passing() { Present? && passing }
    function Deadline(): int
      requires Present?
    {
      if passing then since + ttl else since + removeAfter
    }
  }

  datatype MaintPC =
    | LoopHead                                          // about to call RegisterContext
    | Marking(req: Request)                             // validated, about to store registerAttempted
    | Sending(req: Request)                             // about to send the register request
    | AwaitingRegister(req: Request, committed: bool)   // request sent, no reply yet
    | Accepted                                          // about to store registered
    | Pinging                                           // about to send a TTL update
    | AwaitingPing(applied: bool)
    | Idle                                              // select on cancellation and ticker
    | PingFailed                                        // about to check the context after a failed ping
    | Failed                                            // about to check the context before the wait
    | Waiting(until: int)                               // select on cancellation and timer
    | Returned                                          // Maintain returned, done not yet closed
    | Gone                                              // done closed
  {
    /** Maintain has marked an attempt and cannot leave that behind. */
    predicate PastMarking() {
      Sending? || AwaitingRegister? || Accepted? || Pinging? || AwaitingPing?
      || Idle? || PingFailed? || Failed? || Waiting?
    }
  }

  datatype Outcome = Success | Failure

  datatype CallerPC =
    | Entering                      // about to call cancel
    | Joining                       // select on done and the caller's context
    | CheckingContext               // entry of deregisterContext
    | AtGate                        // select on the gate and the caller's context
    | Holding                       // gate held, about to check the context again
    | LoadingAttempted
    | LoadingRegistered             // registerAttempted was read as false
    | Deregistering                 // about to send the deregister request
    | Awaiting(applied: bool)       // deregister request sent, no reply yet
    | ClearingAttempted             // deregistration succeeded
    | ClearingRegistered
    | Releasing(outcome: Outcome)   // about to free the gate
    | Done(result: Outcome)
  {
    predicate InGate() {
      Holding? || LoadingAttempted? || LoadingRegistered? || Deregistering? || Awaiting?
      || ClearingAttempted? || ClearingRegistered? || Releasing?
    }

    predicate PastJoin() {
      CheckingContext? || AtGate? || InGate() || this == Done(Success)
    }
  }

  datatype Caller = Caller(pc: CallerPC, expired: bool)

  /** The maintenance loop with its two local variables. */
  datatype Loop = Loop(pc: MaintPC, attempt: nat, delay: int)

  /** The memory the loop and the callers share. */
  datatype Shared = Shared(cancelled: bool, attempted: bool, registered: bool, gate: Option<nat>)

  /**
   The agent, with the register requests it may still commit and the number of TTL updates
   whose call has returned but which it may still apply.
   */
  datatype Remote = Remote(record: Record, inflight: multiset<Request>, strayPings: nat, now: int)

  /** What has happened so far; no step reads it, except that sent numbers the requests. */
  datatype History = History(
    sent: nat,                  // register requests sent
    deregistersSent: nat,
    deregisterApplied: bool,    // the agent has executed some deregister request
    deregistersOk: nat)         // successful deregister replies

  datatype State = State(
    loop: Loop,
    shared: Shared,
    callers: map<nat, Caller>,
    remote: Remote,
    history: History)

  function Init(c: Config): State {
    State(Loop(LoopHead, 0, c.BaseDelay()), Shared(false, false, false, None), map[],
          Remote(Absent, multiset{}, 0, 0), History(0, 0, false, 0))
  }

  datatype LoopAction =
    | Validate | MarkAttempted | SendRegister | RegisterOk | RegisterErr | MarkRegistered
    | SendPing | PingOk | PingErr | CheckAfterPing | Tick | CheckBeforeWait | WaitOver | Stop | CloseDone

  /** The steps in which the loop only moves on, given whether it has been cancelled. */
  function LoopMove(c: Config, l: Loop, cancelled: bool, now: int, sent: nat, a: LoopAction): Option<Loop> {
    match (a, l.pc)
    case (Validate, LoopHead) =>
      (match ValidateAndNormalize(c.options)
       case Err(_) => Some(l.(pc := Returned))
       case Ok(v) => Some(l.(pc := Marking(NewTTLCheck(sent, v.options)))))
    case (MarkAttempted, Marking(q)) => Some(l.(pc := Sending(q)))
    case (SendRegister, Sending(q)) => Some(l.(pc := AwaitingRegister(q, false)))
    case (RegisterOk, AwaitingRegister(_, committed)) => if committed then Some(l.(pc := Accepted)) else None
    case (RegisterErr, AwaitingRegister(_, _)) => Some(l.(pc := Failed))
    case (MarkRegistered, Accepted) => Some(Loop(Pinging, 0, c.BaseDelay()))
    case (SendPing, Pinging) => Some(l.(pc := AwaitingPing(false)))
    case (PingOk, AwaitingPing(applied)) => if applied then Some(l.(pc := Idle)) else None
    case (PingErr, AwaitingPing(_)) => Some(l.(pc := PingFailed))
    case (CheckAfterPing, PingFailed) => Some(l.(pc := if cancelled then Returned else Failed))
    case (Tick, Idle) => Some(l.(pc := Pinging))
    case (CheckBeforeWait, Failed) =>
      if cancelled then Some(l.(pc := Returned))
      else Some(l.(pc := Waiting(now + l.delay), attempt := l.attempt + 1))
    case (WaitOver, Waiting(until)) =>
      if now < until then None
      else Some(l.(pc := LoopHead, delay := Backoff.NextDelay(l.delay, c.MaxDelay())))
    case (Stop, Idle) => if cancelled then Some(l.(pc := Returned)) else None
    case (Stop, Waiting(_)) => if cancelled then Some(l.(pc := Returned)) else None
    case (CloseDone, Returned) => Some(l.(pc := Gone))
    case _ => None
  }

  function LoopStep(c: Config, s: State, a: LoopAction): Option<State> {
    match LoopMove(c, s.loop, s.shared.cancelled, s.remote.now, s.history.sent, a)
    case None => None
    case Some(l) =>
      Some(s.(loop := l, shared := Stored(s.shared, a), remote := Requested(c, s, a),
              history := if a.SendRegister? then s.history.(sent := s.history.sent + 1) else s.history))
  }

  /** The loop's stores to the two flags. */
  function Stored(m: Shared, a: LoopAction): Shared {
    match a
    case MarkAttempted => m.(attempted := true)
    case MarkRegistered => m.(registered := true)
    case _ => m
  }

  /** What the loop hands to the network. */
  function Requested(c: Config, s: State, a: LoopAction): Remote {
    var r := s.remote;
    match a
    case SendRegister => if s.loop.pc.Sending? then r.(inflight := r.inflight + multiset{s.loop.pc.req}) else r
    case PingErr => if c.latePings && s.loop.pc == AwaitingPing(false) then r.(strayPings := r.strayPings + 1) else r
    case _ => r
  }

  datatype CallerAction =
    | Enter | Cancel | JoinDone | GiveUpJoin | CheckContext | TakeGate | GiveUpGate | CheckHeld
    | LoadAttempted | LoadRegistered | SendDeregister | DeregisterOk | DeregisterErr
    | ClearAttempted | ClearRegistered | Release | Expire

  /** Where a caller goes next, given whether done is closed and what it sees of the shared memory. */
  function CallerMove(caller: Caller, gone: bool, m: Shared, a: CallerAction): Option<CallerPC> {
    var expired := caller.expired;
    match (a, caller.pc)
    case (Cancel, Entering) => Some(Joining)
    case (JoinDone, Joining) => if gone then Some(CheckingContext) else None
    case (GiveUpJoin, Joining) => if expired then Some(Done(Failure)) else None
    case (CheckContext, CheckingContext) => Some(if expired then Done(Failure) else AtGate)
    case (TakeGate, AtGate) => if m.gate.None? then Some(Holding) else None
    case (GiveUpGate, AtGate) => if expired then Some(Done(Failure)) else None
    case (CheckHeld, Holding) => Some(if expired then Releasing(Failure) else LoadingAttempted)
    case (LoadAttempted, LoadingAttempted) => Some(if m.attempted then Deregistering else LoadingRegistered)
    case (LoadRegistered, LoadingRegistered) => Some(if m.registered then Deregistering else Releasing(Success))
    case (SendDeregister, Deregistering) => Some(Awaiting(false))
    case (DeregisterOk, Awaiting(applied)) => if applied then Some(ClearingAttempted) else None
    case (DeregisterErr, Awaiting(_)) => Some(Releasing(Failure))
    case (ClearAttempted, ClearingAttempted) => Some(ClearingRegistered)
    case (ClearRegistered, ClearingRegistered) => Some(Releasing(Success))
    case (Release, Releasing(outcome)) => Some(Done(outcome))
    case _ => None
  }

  /** A caller's stores to the shared memory. */
  function CallerStores(k: nat, m: Shared, a: CallerAction): Shared {
    match a
    case Cancel => m.(cancelled := true)
    case TakeGate => m.(gate := Some(k))
    case Release => m.(gate := None)
    case ClearAttempted => m.(attempted := false)
    case ClearRegistered => m.(registered := false)
    case _ => m
  }

  function CallerRecords(h: History, a: CallerAction): History {
    match a
    case SendDeregister => h.(deregistersSent := h.deregistersSent + 1)
    case DeregisterOk => h.(deregistersOk := h.deregistersOk + 1)
    case _ => h
  }

  function CallerStep(s: State, k: nat, a: CallerAction): Option<State> {
    if a.Enter? then
      if k in s.callers then None else Some(s.(callers := s.callers[k := Caller(Entering, false)]))
    else if k !in s.callers then None
    else if a.Expire? then Some(s.(callers := s.callers[k := s.callers[k].(expired := true)]))
    else
      match CallerMove(s.callers[k], s.loop.pc.Gone?, s.shared, a)
      case None => None
      case Some(pc) =>
        Some(s.(callers := s.callers[k := s.callers[k].(pc := pc)],
                shared := CallerStores(k, s.shared, a), history := CallerRecords(s.history, a)))
  }

  datatype AgentAction =
    | Commit(req: Request)            // execute a register request, replacing what was there
    | Drop(req: Request)              // reject a register request, or lose it
    | ApplyPing                       // execute the pending TTL update
    | ApplyStrayPing                  // execute a TTL update whose call has returned
    | ApplyDeregister(k: nat)         // execute caller k's pending deregister request
    | Forget                          // lose the record
    | ExpireTTL                       // no TTL update for one TTL: the check turns critical
    | Reap                            // critical for the removal delay: the service is removed
    | Advance(dt: nat)                // time passes, but never beyond the record's own deadline

  function Refreshed(r: Record, now: int): Record {
    if r.Present? then r.(passing := true, since := now) else r
  }

  function RemoteMove(r: Remote, a: AgentAction): Option<Remote> {
    match a
    case Commit(q) =>
      if q !in r.inflight then None
      else Some(r.(inflight := r.inflight - multiset{q}, record := Present(q.passing, r.now, q.ttl, q.removeAfter)))
    case Drop(q) =>
      if q !in r.inflight then None else Some(r.(inflight := r.inflight - multiset{q}))
    case ApplyPing =>
      if r.record.Absent? then None else Some(r.(record := Refreshed(r.record, r.now)))
    case ApplyStrayPing =>
      if r.record.Absent? || r.strayPings == 0 then None
      else Some(r.(record := Refreshed(r.record, r.now), strayPings := r.strayPings - 1))
    case ApplyDeregister(k) => Some(r.(record := Absent))
    case Forget => Some(r.(record := Absent))
    case ExpireTTL =>
      if !(r.record.Passing() && r.record.Deadline() <= r.now) then None
      else Some(r.(record := r.record.(passing := false, since := r.now)))
    case Reap =>
      if !(r.record.Present? && !r.record.passing && r.record.Deadline() <= r.now) then None
      else Some(r.(record := Absent))
    case Advance(dt) =>
      if r.record.Present? && r.record.Deadline() < r.now + dt then None else Some(r.(now := r.now + dt))
  }

  /** A reply becomes possible once the request it answers has been executed. */
  function Answered(pc: MaintPC, a: AgentAction): MaintPC {
    match (a, pc)
    case (Commit(q), AwaitingRegister(req, _)) => if req == q then AwaitingRegister(q, true) else pc
    case (ApplyPing, AwaitingPing(_)) => AwaitingPing(true)
    case _ => pc
  }

  function AgentStep(s: State, a: AgentAction): Option<State> {
    match RemoteMove(s.remote, a)
    case None => None
    case Some(r) =>
      if a.ApplyPing? && !s.loop.pc.AwaitingPing? then None
      else if a.ApplyDeregister? then
        if !(a.k in s.callers && s.callers[a.k].pc.Awaiting?) then None
        else Some(s.(remote := r, callers := s.callers[a.k := s.callers[a.k].(pc := Awaiting(true))],
                     history := s.history.(deregisterApplied := true)))
      else Some(s.(remote := r, loop := s.loop.(pc := Answered(s.loop.pc, a))))
  }

  datatype Action = ByLoop(m: LoopAction) | ByCaller(k: nat, a: CallerAction) | ByAgent(g: AgentAction)

  function Step(c: Config, s: State, a: Action): Option<State> {
    match a
    case ByLoop(m) => LoopStep(c, s, m)
    case ByCaller(k, b) => CallerStep(s, k, b)
    case ByAgent(g) => AgentStep(s, g)
  }

  /** A finite run: the states it passes through and the action between each two. */
  ghost predicate IsRun(c: Config, states: seq<State>, acts: seq<Action>) {
    && |states| == |acts| + 1
    && states[0] == Init(c)
    && forall i :: 0 <= i < |acts| ==> Step(c, states[i], acts[i]) == Some(states[i + 1])
  }

  predicate SendsToAgent(a: Action) {
    a == ByLoop(SendRegister) || a == ByLoop(SendPing)
  }

  predicate IsDeregisterSend(a: Action) { a.ByCaller? && a.a.SendDeregister? }

  predicate IsDeregisterOk(a: Action) { a.ByCaller? && a.a.DeregisterOk? }

  predicate IsCommit(a: Action) { a.ByAgent? && a.g.Commit? }
}
