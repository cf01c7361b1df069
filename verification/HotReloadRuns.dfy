/**
 A pool or client next to config.Live, under any interleaving.  The steps are those of
 LiveProtocol, the rebuild inside the holder's own callback, its drain timers, and its stop hook,
 which first unsubscribes and then closes (pgpool/pgpool.go, redisclient/redisclient.go).
 */
module HotReloadRuns {
  import opened Common
  import HR = HotResource
  import LP = LiveProtocol

  /** The holder of a subscription: how it projects and compares options, and its subscriber id. */
  datatype Wiring<!V, !O> = Wiring(rules: HR.Rules<O>, project: V -> O, id: nat)

  /** todo is the snapshot of a callback that has begun and not yet come to its rebuild. */
  datatype State<V, O> = State(live: LP.State<V>, holder: HR.State<O>, todo: Option<V>)

  datatype Action<V, O> =
    | ByLive(a: LP.Action<V>)
    | Update(outcome: HR.Outcome)    // the rebuild in the holder's callback
    | ByHolder(e: HR.Event<O>)       // time, a drain timer, or the close in the stop hook

  /** The first half of the stop hook is done. */
  predicate Unsubscribed<V, O>(w: Wiring<V, O>, s: State<V, O>) {
    w.id in s.live.log.until
  }

  ghost function Step<V, O>(w: Wiring<V, O>, s: State<V, O>, a: Action<V, O>): Option<State<V, O>> {
    match a
    case ByLive(b) =>
      if b.End? && s.todo.Some? then None else
      (match LP.Step(s.live, b)
       case None => None
       case Some(l) => Some(State(l, s.holder, if Begins(w, b) then Some(s.live.setters[b.i].cur) else s.todo)))
    case Update(outcome) =>
      if s.todo.None? then None
      else Some(State(s.live, HR.OnPush(w.rules, s.holder, w.project(s.todo.value), outcome), None))
    case ByHolder(e) =>
      if e.Push? || (e.Stop? && !Unsubscribed(w, s)) then None else
      match HR.Step(w.rules, s.holder, e)
      case None => None
      case Some(h) => Some(s.(holder := h))
  }

  predicate Begins<V, O>(w: Wiring<V, O>, b: LP.Action<V>) {
    b.Begin? && b.id == w.id
  }

  ghost function Run<V, O>(w: Wiring<V, O>, s: State<V, O>, acts: seq<Action<V, O>>): Option<State<V, O>> {
    if acts == [] then Some(s)
    else
      match Run(w, s, acts[..|acts| - 1])
      case None => None
      case Some(t) => Step(w, t, acts[|acts| - 1])
  }

  /** A holder built from the visible snapshot subscribes; no Set falls in between. */
  ghost predicate Attached<V(!new), O>(w: Wiring<V, O>, l: LP.State<V>, s: State<V, O>) {
    && LP.Inv(l) && w.id == l.reg.next
    && LP.Step(l, LP.Subscribe) == Some(s.live)
    && s.todo.None?
    && HR.Inv(w.rules, s.holder) && !s.holder.stopped && s.holder.wanted == w.project(l.ptr)
  }

  // ---------------------------------------------------------------- invariants

  /** What is still to come for the holder: a callback that is copied for it, or its own that has begun. */
  function Owed<V, O>(w: Wiring<V, O>, s: State<V, O>): Option<V> {
    if s.todo.Some? || w.id in LP.Pending(s.live) then Some(s.live.ptr) else None
  }

  ghost predicate TodoInv<V, O>(w: Wiring<V, O>, s: State<V, O>) {
    s.todo.Some? ==> LP.Running(s.live) == Some(w.id) && s.todo.value == s.live.ptr
  }

  /** As long as it is subscribed and nothing is on its way, the holder wants what is visible. */
  ghost predicate WantedInv<V, O>(w: Wiring<V, O>, s: State<V, O>) {
    !Unsubscribed(w, s) && !LP.Uncopied(s.live) && Owed(w, s).None? ==> s.holder.wanted == w.project(s.live.ptr)
  }

  ghost predicate Inv<V(!new), O>(w: Wiring<V, O>, s: State<V, O>) {
    && LP.Inv(s.live) && w.id < s.live.reg.next
    && TodoInv(w, s) && WantedInv(w, s)
    && (s.holder.stopped ==> Unsubscribed(w, s))
    && HR.Truthful(w.rules, s.holder)
  }

  /** While callbacks are called nobody swaps, and the visible snapshot is the one they are told about. */
  lemma WhileNotifying<V(!new)>(l: LP.State<V>)
    requires LP.Inv(l) && (LP.Pending(l) != {} || LP.Running(l).Some?)
    ensures l.lock.Some? && l.lock.value in l.setters && l.setters[l.lock.value].pc.Notifying?
    ensures l.ptr == l.setters[l.lock.value].cur && !LP.Uncopied(l)
  {
    assert LP.SetterOk(l.log, l.lock.value, l.setters[l.lock.value]);
  }

  lemma AttachHolds<V(!new), O>(w: Wiring<V, O>, l: LP.State<V>, s: State<V, O>)
    requires Attached(w, l, s)
    ensures Inv(w, s) && !Unsubscribed(w, s)
  {
    LP.StepKeeps(l, LP.Subscribe);
  }

  // ---------------------------------------------------------------- steps of config.Live

  /** What a step of config.Live does to what the holder is concerned with. */
  lemma LiveStep<V(!new), O>(w: Wiring<V, O>, l: LP.State<V>, b: LP.Action<V>)
    requires LP.Inv(l) && w.id < l.reg.next && LP.Step(l, b).Some?
    ensures var m := LP.Step(l, b).value;
            && LP.Inv(m) && w.id < m.reg.next
            && (w.id in l.log.until ==> w.id in m.log.until)
            && (m.ptr == l.ptr || (b.Swap? && LP.Uncopied(m) && LP.Pending(l) == {} && LP.Running(l).None?))
            && (LP.Uncopied(l) ==> LP.Uncopied(m) || b.Copy?)
  {
    LP.StepKeeps(l, b);
    if !b.Swap? && !b.Copy? {
      LP.OthersKeepHist(l, b);
    }
  }

  /** Whether a call is pending for the holder, before and after. */
  lemma LivePending<V(!new), O>(w: Wiring<V, O>, l: LP.State<V>, b: LP.Action<V>)
    requires LP.Inv(l) && w.id < l.reg.next && LP.Step(l, b).Some?
    ensures var m := LP.Step(l, b).value;
            && (b.Copy? ==> (w.id in LP.Pending(m) <==> w.id !in l.log.until))
            && (Begins(w, b) ==> w.id in LP.Pending(l) && w.id !in LP.Pending(m))
            && (!b.Copy? && !Begins(w, b) ==> (w.id in LP.Pending(m) <==> w.id in LP.Pending(l)))
  {
    if b.Swap? {
      assert l.lock == Some(b.i);
    } else if b.Copy? || b.Begin? {
      assert l.lock == Some(b.i);
    } else {
      LP.OthersKeepPending(l, b);
    }
  }

  /** Whether a callback is running, before and after. */
  lemma LiveRunning<V(!new)>(l: LP.State<V>, b: LP.Action<V>)
    requires LP.Inv(l) && LP.Step(l, b).Some?
    ensures var m := LP.Step(l, b).value;
            && (b.Begin? ==> LP.Running(l).None? && LP.Running(m) == Some(b.id)
                             && b.i in l.setters && l.setters[b.i].cur == m.ptr)
            && (!b.Begin? && !b.End? ==> LP.Running(m) == LP.Running(l))
  {
    if b.Begin? {
      assert l.lock == Some(b.i) && b.id in LP.Pending(l);
      WhileNotifying(l);
    }
  }

  // ---------------------------------------------------------------- every step

  lemma ByLiveKeeps<V(!new), O>(w: Wiring<V, O>, s: State<V, O>, b: LP.Action<V>)
    requires Inv(w, s) && Step(w, s, ByLive(b)).Some?
    ensures Inv(w, Step(w, s, ByLive(b)).value)
  {
    LiveStep(w, s.live, b);
    LivePending(w, s.live, b);
    LiveRunning(s.live, b);
  }

  lemma UpdateKeeps<V(!new), O>(w: Wiring<V, O>, s: State<V, O>, outcome: HR.Outcome)
    requires Inv(w, s) && Step(w, s, Update(outcome)).Some?
    ensures Inv(w, Step(w, s, Update(outcome)).value) && Owed(w, Step(w, s, Update(outcome)).value).None?
  {
    HR.TruthStays(w.rules, s.holder, HR.Push(w.project(s.todo.value), outcome));
  }

  lemma StepKeeps<V(!new), O>(w: Wiring<V, O>, s: State<V, O>, a: Action<V, O>)
    requires Inv(w, s) && Step(w, s, a).Some?
    ensures Inv(w, Step(w, s, a).value)
    ensures Unsubscribed(w, s) ==> Unsubscribed(w, Step(w, s, a).value)
  {
    match a
    case ByLive(b) => ByLiveKeeps(w, s, b); LiveStep(w, s.live, b);
    case Update(outcome) => UpdateKeeps(w, s, outcome);
    case ByHolder(e) => HR.TruthStays(w.rules, s.holder, e);
  }

  lemma {:induction false} RunKeeps<V(!new), O>(w: Wiring<V, O>, s: State<V, O>, acts: seq<Action<V, O>>)
    requires Inv(w, s) && Run(w, s, acts).Some?
    ensures Inv(w, Run(w, s, acts).value)
    ensures Unsubscribed(w, s) ==> Unsubscribed(w, Run(w, s, acts).value)
  {
    if acts != [] {
      RunKeeps(w, s, acts[..|acts| - 1]);
      StepKeeps(w, Run(w, s, acts[..|acts| - 1]).value, acts[|acts| - 1]);
    }
  }

  // ---------------------------------------------------------------- while subscribed

  /** Without a stop every step keeps the resources of the holder accounted for. */
  lemma RunningStep<V(!new), O>(w: Wiring<V, O>, s: State<V, O>, a: Action<V, O>)
    requires Inv(w, s) && HR.Inv(w.rules, s.holder) && Step(w, s, a).Some? && !s.holder.stopped
    ensures HR.Inv(w.rules, Step(w, s, a).value.holder)
  {
    match a
    case ByLive(b) =>
    case Update(outcome) => HR.PushKeeps(w.rules, s.holder, w.project(s.todo.value), outcome);
    case ByHolder(e) => HR.StepKeeps(w.rules, s.holder, e);
  }

  lemma {:induction false} SubscribedKeeps<V(!new), O>(w: Wiring<V, O>, s: State<V, O>, acts: seq<Action<V, O>>)
    requires Inv(w, s) && HR.Inv(w.rules, s.holder) && Run(w, s, acts).Some?
    requires !Unsubscribed(w, Run(w, s, acts).value)
    ensures HR.Inv(w.rules, Run(w, s, acts).value.holder)
  {
    if acts != [] {
      var before := acts[..|acts| - 1];
      RunKeeps(w, s, before);
      StepKeeps(w, Run(w, s, before).value, acts[|acts| - 1]);
      SubscribedKeeps(w, s, before);
      RunningStep(w, Run(w, s, before).value, acts[|acts| - 1]);
    }
  }

  /**
   A holder that is subscribed, at any moment without a Set in progress, however Set, Subscribe,
   cancel, callbacks, build outcomes, timers and time have interleaved: every resource is exactly
   one of current, draining and closed, the visible one is open and built from applied, and it is
   stale exactly when the visible snapshot asks for other options.
   */
  lemma InStepUnderAnyInterleaving<V(!new), O>(
      w: Wiring<V, O>, l: LP.State<V>, s: State<V, O>, acts: seq<Action<V, O>>)
    requires Attached(w, l, s) && Run(w, s, acts).Some?
    requires var t := Run(w, s, acts).value; !Unsubscribed(w, t) && t.live.lock.None?
    ensures var t := Run(w, s, acts).value;
            && HR.Conserved(t.holder) && !t.holder.stopped
            && t.holder.ledger.options[t.holder.current] == t.holder.applied
            && t.holder.wanted == w.project(t.live.ptr)
            && (t.holder.stale.None? <==> HR.Same(w.rules, w.project(t.live.ptr), t.holder.applied))
  {
    AttachHolds(w, l, s);
    RunKeeps(w, s, acts);
    SubscribedKeeps(w, s, acts);
  }

  ghost predicate AllBuildsSucceed<V, O>(acts: seq<Action<V, O>>) {
    forall i :: 0 <= i < |acts| && acts[i].Update? ==> acts[i].outcome == HR.Reachable
  }

  lemma {:induction false} SuccessfulBuildsApply<V(!new), O>(
      w: Wiring<V, O>, s: State<V, O>, acts: seq<Action<V, O>>)
    requires Run(w, s, acts).Some? && AllBuildsSucceed(acts) && HR.Same(w.rules, s.holder.wanted, s.holder.applied)
    ensures var t := Run(w, s, acts).value; HR.Same(w.rules, t.holder.wanted, t.holder.applied)
  {
    if acts != [] {
      SuccessfulBuildsApply(w, s, acts[..|acts| - 1]);
    }
  }

  /**
   A reload takes effect: if the holder was up to date when it subscribed and every build since
   has succeeded, then whenever no Set is running what it has applied is what the visible
   snapshot asks for, and it is not stale.
   */
  lemma ReloadsTakeEffect<V(!new), O>(
      w: Wiring<V, O>, l: LP.State<V>, s: State<V, O>, acts: seq<Action<V, O>>)
    requires Attached(w, l, s) && s.holder.stale.None? && Run(w, s, acts).Some? && AllBuildsSucceed(acts)
    requires var t := Run(w, s, acts).value; !Unsubscribed(w, t) && t.live.lock.None?
    ensures var t := Run(w, s, acts).value;
            HR.Same(w.rules, w.project(t.live.ptr), t.holder.applied) && t.holder.stale.None?
  {
    InStepUnderAnyInterleaving(w, l, s, acts);
    SuccessfulBuildsApply(w, s, acts);
  }

  // ---------------------------------------------------------------- after unsubscribing

  /** A step pays what is owed with one update of the holder, or leaves what it is owed, wants and has applied. */
  ghost predicate Pays<V, O>(w: Wiring<V, O>, s: State<V, O>, a: Action<V, O>, t: State<V, O>) {
    if a.Update? then
      s.todo.Some? && Owed(w, s) == s.todo && Owed(w, t).None? && t.holder.wanted == w.project(s.todo.value)
    else
      Owed(w, t) == Owed(w, s) && t.holder.wanted == s.holder.wanted && t.holder.applied == s.holder.applied
  }

  lemma LiveKeepsOwed<V(!new), O>(w: Wiring<V, O>, s: State<V, O>, b: LP.Action<V>)
    requires Inv(w, s) && Unsubscribed(w, s) && Step(w, s, ByLive(b)).Some?
    ensures Owed(w, Step(w, s, ByLive(b)).value) == Owed(w, s)
  {
    LiveStep(w, s.live, b);
    LivePending(w, s.live, b);
    LiveRunning(s.live, b);
  }

  /** Once unsubscribed, what is owed can only be paid: nothing new is copied for the holder. */
  lemma OwedFades<V(!new), O>(w: Wiring<V, O>, s: State<V, O>, a: Action<V, O>)
    requires Inv(w, s) && Unsubscribed(w, s) && Step(w, s, a).Some?
    ensures Pays(w, s, a, Step(w, s, a).value)
  {
    match a
    case ByLive(b) => LiveKeepsOwed(w, s, b);
    case Update(outcome) => UpdateKeeps(w, s, outcome);
    case ByHolder(e) =>
  }

  function Updates<V, O>(acts: seq<Action<V, O>>): nat {
    if acts == [] then 0 else Updates(acts[..|acts| - 1]) + if acts[|acts| - 1].Update? then 1 else 0
  }

  /**
   From unsubscribing on the holder is told of at most one more snapshot, of none unless a call
   is owed then, and it is the one visible at that time.
   */
  lemma {:induction false} AtMostOneMoreUpdate<V(!new), O>(w: Wiring<V, O>, s: State<V, O>, acts: seq<Action<V, O>>)
    requires Inv(w, s) && Unsubscribed(w, s) && Run(w, s, acts).Some?
    ensures Updates(acts) <= if Owed(w, s).Some? then 1 else 0
    ensures var t := Run(w, s, acts).value;
            if Updates(acts) == 0 then
              Owed(w, t) == Owed(w, s) && t.holder.wanted == s.holder.wanted && t.holder.applied == s.holder.applied
            else
              Owed(w, s) == Some(s.live.ptr) && Owed(w, t).None? && t.holder.wanted == w.project(s.live.ptr)
  {
    if acts != [] {
      var before := acts[..|acts| - 1];
      RunKeeps(w, s, before);
      AtMostOneMoreUpdate(w, s, before);
      OwedFades(w, Run(w, s, before).value, acts[|acts| - 1]);
    }
  }

  /** Nothing is owed to the holder, or nothing that it would rebuild for. */
  ghost predicate Settled<V, O>(w: Wiring<V, O>, s: State<V, O>) {
    Owed(w, s).Some? ==> HR.Same(w.rules, w.project(Owed(w, s).value), s.holder.applied)
  }

  lemma SettledStep<V(!new), O>(w: Wiring<V, O>, s: State<V, O>, a: Action<V, O>)
    requires Inv(w, s) && Unsubscribed(w, s) && Settled(w, s) && HR.Inv(w.rules, s.holder) && Step(w, s, a).Some?
    ensures Settled(w, Step(w, s, a).value) && HR.Inv(w.rules, Step(w, s, a).value.holder)
  {
    OwedFades(w, s, a);
    match a
    case ByLive(b) =>
    case Update(outcome) => HR.PushKeeps(w.rules, s.holder, w.project(s.todo.value), outcome);
    case ByHolder(e) => HR.StepKeeps(w.rules, s.holder, e);
  }

  lemma {:induction false} SettledKeeps<V(!new), O>(w: Wiring<V, O>, s: State<V, O>, acts: seq<Action<V, O>>)
    requires Inv(w, s) && Unsubscribed(w, s) && Settled(w, s) && HR.Inv(w.rules, s.holder) && Run(w, s, acts).Some?
    ensures Settled(w, Run(w, s, acts).value) && HR.Inv(w.rules, Run(w, s, acts).value.holder)
  {
    if acts != [] {
      var before := acts[..|acts| - 1];
      RunKeeps(w, s, before);
      SettledKeeps(w, s, before);
      SettledStep(w, Run(w, s, before).value, acts[|acts| - 1]);
    }
  }

  // ---------------------------------------------------------------- the stop

  /** Unsubscribing does not recall what is owed. */
  lemma CancelKeepsOwed<V(!new), O>(w: Wiring<V, O>, t: State<V, O>, c: State<V, O>)
    requires Inv(w, t) && Step(w, t, ByLive(LP.Cancel(w.id))) == Some(c)
    ensures Inv(w, c) && Unsubscribed(w, c) && c.holder == t.holder && Owed(w, c) == Owed(w, t)
  {
    StepKeeps(w, t, ByLive(LP.Cancel(w.id)));
    LivePending(w, t.live, LP.Cancel(w.id));
  }

  /** The same from the start of a run. */
  lemma UnsubscribesInGoodState<V(!new), O>(
      w: Wiring<V, O>, l: LP.State<V>, s: State<V, O>, before: seq<Action<V, O>>, t: State<V, O>, c: State<V, O>)
    requires Attached(w, l, s) && Run(w, s, before) == Some(t) && !Unsubscribed(w, t)
    requires Step(w, t, ByLive(LP.Cancel(w.id))) == Some(c)
    ensures Inv(w, c) && Unsubscribed(w, c) && HR.Inv(w.rules, c.holder)
    ensures c.holder == t.holder && Owed(w, c) == Owed(w, t) && (Owed(w, t).Some? ==> Owed(w, t).value == t.live.ptr)
    ensures t.live.lock.None? ==> Owed(w, t).None?
  {
    AttachHolds(w, l, s);
    RunKeeps(w, s, before);
    SubscribedKeeps(w, s, before);
    CancelKeepsOwed(w, t, c);
  }

  /**
   A stop hook that unsubscribes while no Set is in progress: whatever happens from then on, every
   resource stays accounted for, and after the close and the drain timers each is closed exactly
   once.  Here t is the state at that time, c the one after unsubscribing, and u any later one.
   */
  lemma QuietStop<V(!new), O>(
      w: Wiring<V, O>, l: LP.State<V>, s: State<V, O>, before: seq<Action<V, O>>,
      t: State<V, O>, c: State<V, O>, after: seq<Action<V, O>>, u: State<V, O>)
    requires Attached(w, l, s) && Run(w, s, before) == Some(t)
    requires !Unsubscribed(w, t) && t.live.lock.None?
    requires Step(w, t, ByLive(LP.Cancel(w.id))) == Some(c) && Run(w, c, after) == Some(u)
    ensures HR.Conserved(u.holder)
    ensures u.holder.stopped && u.holder.timers == [] ==> HR.ClosedOnce(u.holder.ledger)
  {
    UnsubscribesInGoodState(w, l, s, before, t, c);
    SettledKeeps(w, c, after);
    if u.holder.stopped && u.holder.timers == [] {
      HR.DrainedIsClosed(u.holder);
    }
  }

  /** t can follow s. */
  ghost predicate Reaches<V(!new), O(!new)>(w: Wiring<V, O>, s: State<V, O>, t: State<V, O>) {
    exists acts :: Run(w, s, acts) == Some(t)
  }

  lemma ReachesItself<V(!new), O(!new)>(w: Wiring<V, O>, s: State<V, O>)
    ensures Reaches(w, s, s)
  {
    assert Run(w, s, []) == Some(s);
  }

  lemma ReachesNext<V(!new), O(!new)>(w: Wiring<V, O>, s: State<V, O>, t: State<V, O>, a: Action<V, O>)
    requires Reaches(w, s, t) && Step(w, t, a).Some?
    ensures Reaches(w, s, Step(w, t, a).value)
  {
    var acts :| Run(w, s, acts) == Some(t);
    assert (acts + [a])[..|acts + [a]| - 1] == acts;
    assert Run(w, s, acts + [a]) == Step(w, t, a);
  }

  /** The callback of another subscriber ends. */
  lemma OtherCallEnds<V(!new), O(!new)>(w: Wiring<V, O>, s: State<V, O>) returns (t: State<V, O>)
    requires Inv(w, s) && s.todo.None? && w.id in LP.Pending(s.live)
    ensures Reaches(w, s, t) && Inv(w, t) && t.todo.None? && t.holder == s.holder && t.live.log == s.live.log
    ensures w.id in LP.Pending(t.live) && LP.Running(t.live).None? && t.live.ptr == s.live.ptr
  {
    ReachesItself(w, s);
    t := s;
    if LP.Running(s.live).Some? {
      WhileNotifying(s.live);
      var a := ByLive(LP.End(s.live.lock.value));
      StepKeeps(w, s, a);
      ReachesNext(w, s, s, a);
      t := Step(w, s, a).value;
    }
  }

  /** A call owed to the holder can get as far as its rebuild. */
  lemma OwedCallBegins<V(!new), O(!new)>(w: Wiring<V, O>, s: State<V, O>) returns (t: State<V, O>)
    requires Inv(w, s) && Owed(w, s).Some?
    ensures Reaches(w, s, t) && t.todo == Owed(w, s) && t.holder == s.holder
    ensures t.live.log.until == s.live.log.until
  {
    if s.todo.Some? {
      ReachesItself(w, s);
      return s;
    }
    var u := OtherCallEnds(w, s);
    WhileNotifying(u.live);
    var a := ByLive(LP.Begin(u.live.lock.value, w.id));
    ReachesNext(w, s, u, a);
    t := Step(w, u, a).value;
  }

  lemma LateRebuild<V(!new), O(!new)>(w: Wiring<V, O>, s: State<V, O>) returns (t: State<V, O>)
    requires Inv(w, s) && Unsubscribed(w, s) && !Settled(w, s) && HR.Inv(w.rules, s.holder)
    ensures Reaches(w, s, t) && HR.Leaking(t.holder)
  {
    t := OwedCallBegins(w, s);
    if !t.holder.stopped {
      var a: Action<V, O> := ByHolder(HR.Stop);
      HR.StopKeeps(w.rules, t.holder);
      ReachesNext(w, s, t, a);
      t := Step(w, t, a).value;
    }
    HR.RebuildLeaks(w.rules, t.holder, HR.Push(w.project(t.todo.value), HR.Reachable));
    ReachesNext(w, s, t, Update(HR.Reachable));
    t := Step(w, t, Update(HR.Reachable)).value;
  }

  /**
   When a stop is clean.  From any moment after unsubscribing, all resources stay accounted for
   on every continuation if and only if no call is owed to the holder then, or its snapshot asks
   for the options already in use.
   */
  lemma StopIsCleanIff<V(!new), O(!new)>(w: Wiring<V, O>, s: State<V, O>)
    requires Inv(w, s) && Unsubscribed(w, s) && HR.Inv(w.rules, s.holder)
    ensures (forall t :: Reaches(w, s, t) ==> HR.Conserved(t.holder)) <==> Settled(w, s)
  {
    if Settled(w, s) {
      forall t | Reaches(w, s, t) ensures HR.Conserved(t.holder) {
        var acts :| Run(w, s, acts) == Some(t);
        SettledKeeps(w, s, acts);
      }
    } else {
      var t := LateRebuild(w, s);
      assert Reaches(w, s, t) && !HR.Conserved(t.holder);
    }
  }

  /** The state of config.Live when one Set is past the swap, and the callbacks are as in pc. */
  ghost function OneSet<V>(initial: V, cur: V, pc: LP.SetterPC<V>, copies: nat, until: map<nat, nat>): LP.State<V> {
    LP.State(cur, Some(0), map[0 := LP.Setter(cur, pc, 1)], LP.Registry(1, {0} - until.Keys),
             LP.Log([initial, cur], [0], copies, map[0 := 0], until, map[0 := []]))
  }

  /** A Set on a fresh Live with one subscriber gets as far as the swap, the copy, and then the subscriber cancels. */
  lemma SetCopiesThenCancel<V(!new)>(initial: V, cur: V)
    ensures var l := LP.Step(LP.Init(initial), LP.Subscribe).value;
            var called := l.(setters := map[0 := LP.Setter(cur, LP.WantsLock, 0)]);
            var locked := called.(lock := Some(0), setters := map[0 := LP.Setter(cur, LP.Locked, 0)]);
            var swapped := OneSet(initial, cur, LP.Swapped(initial), 0, map[]);
            var copied := OneSet(initial, cur, LP.Notifying(initial, {0}, None), 1, map[]);
            var cancelled := OneSet(initial, cur, LP.Notifying(initial, {0}, None), 1, map[0 := 1]);
            && LP.Step(l, LP.CallSet(0, cur)) == Some(called)
            && LP.Step(called, LP.Lock(0)) == Some(locked)
            && LP.Step(locked, LP.Swap(0)) == Some(swapped)
            && LP.Step(swapped, LP.Copy(0)) == Some(copied)
            && LP.Step(copied, LP.Cancel(0)) == Some(cancelled)
  {
    var l := LP.Step(LP.Init(initial), LP.Subscribe).value;
    var called := l.(setters := map[0 := LP.Setter(cur, LP.WantsLock, 0)]);
    var locked := called.(lock := Some(0), setters := map[0 := LP.Setter(cur, LP.Locked, 0)]);
    var swapped := OneSet(initial, cur, LP.Swapped(initial), 0, map[]);
    var copied := OneSet(initial, cur, LP.Notifying(initial, {0}, None), 1, map[]);
    assert l.setters[0 := LP.Setter(cur, LP.WantsLock, 0)] == called.setters;
    assert called.setters[0 := LP.Setter(cur, LP.Locked, 0)] == locked.setters;
    assert locked.setters[0 := LP.Setter(cur, LP.Swapped(initial), 1)] == swapped.setters;
    assert l.log.delivered == map[0 := []] && l.log.since == map[0 := 0] && l.reg.ids == {0};
    assert swapped.reg.ids == copied.reg.ids == {0};
    assert swapped.setters[0 := LP.Setter(cur, LP.Notifying(initial, {0}, None), 1)] == copied.setters;
    assert copied.log.until[0 := 1] == map[0 := 1] && {0} - {0} == {0} - map[0 := 1].Keys;
    assert [initial] + [cur] == [initial, cur] && [] + [0] == [0];
  }

  /** The same next to a holder. */
  lemma SetReachesCopy<V(!new), O(!new)>(w: Wiring<V, O>, s: State<V, O>, initial: V, cur: V) returns (t: State<V, O>)
    requires Attached(w, LP.Init(initial), s)
    ensures Reaches(w, s, t) && Unsubscribed(w, t) && Owed(w, t) == Some(cur) && t.holder == s.holder
  {
    SetCopiesThenCancel(initial, cur);
    ReachesItself(w, s);
    var called := Step(w, s, ByLive(LP.CallSet(0, cur))).value;
    ReachesNext(w, s, s, ByLive(LP.CallSet(0, cur)));
    var locked := Step(w, called, ByLive(LP.Lock(0))).value;
    ReachesNext(w, s, called, ByLive(LP.Lock(0)));
    var swapped := Step(w, locked, ByLive(LP.Swap(0))).value;
    ReachesNext(w, s, locked, ByLive(LP.Swap(0)));
    var copied := Step(w, swapped, ByLive(LP.Copy(0))).value;
    ReachesNext(w, s, swapped, ByLive(LP.Copy(0)));
    t := Step(w, copied, ByLive(LP.Cancel(0))).value;
    ReachesNext(w, s, copied, ByLive(LP.Cancel(0)));
  }

  lemma ReachesTransitively<V(!new), O(!new)>(
      w: Wiring<V, O>, s: State<V, O>, t: State<V, O>, u: State<V, O>, acts: seq<Action<V, O>>)
    requires Reaches(w, s, t) && Run(w, t, acts) == Some(u)
    ensures Reaches(w, s, u)
    decreases |acts|
  {
    if acts != [] {
      var before := acts[..|acts| - 1];
      ReachesTransitively(w, s, t, Run(w, t, before).value, before);
      ReachesNext(w, s, Run(w, t, before).value, acts[|acts| - 1]);
    }
  }

  /**
   The same in terms of the moment before the stop hook unsubscribes a holder that was subscribed
   until then.
   */
  lemma UnsubscribeIsCleanIff<V(!new), O(!new)>(
      w: Wiring<V, O>, l: LP.State<V>, s: State<V, O>, before: seq<Action<V, O>>, t: State<V, O>, c: State<V, O>)
    requires Attached(w, l, s) && Run(w, s, before) == Some(t) && !Unsubscribed(w, t)
    requires Step(w, t, ByLive(LP.Cancel(w.id))) == Some(c)
    ensures (forall u :: Reaches(w, c, u) ==> HR.Conserved(u.holder))
            <==> Owed(w, t).None? || HR.Same(w.rules, w.project(t.live.ptr), t.holder.applied)
  {
    UnsubscribesInGoodState(w, l, s, before, t, c);
    StopIsCleanIff(w, c);
  }

  /**
   Such a stop exists, on a fresh Live and for any snapshot that asks for other options: a Set
   copies the callbacks, the stop hook unsubscribes and closes, and the copied callback rebuilds.
   The new resource then stays open for good.
   */
  lemma StopDuringSetLeaks<V(!new), O(!new)>(w: Wiring<V, O>, s: State<V, O>, initial: V, cur: V)
    returns (t: State<V, O>)
    requires Attached(w, LP.Init(initial), s) && !HR.Same(w.rules, w.project(cur), s.holder.applied)
    ensures Reaches(w, s, t) && HR.Leaking(t.holder)
  {
    var c := SetReachesCopy(w, s, initial, cur);
    AttachHolds(w, LP.Init(initial), s);
    var acts :| Run(w, s, acts) == Some(c);
    RunKeeps(w, s, acts);
    t := LateRebuild(w, c);
    var more :| Run(w, c, more) == Some(t);
    ReachesTransitively(w, s, c, t, more);
  }
}
