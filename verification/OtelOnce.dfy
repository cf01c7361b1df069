/**
 shutdownGroup.shutdown (otel/otel.go) with concurrent callers: sync.Once lets one caller run
 the shutdowns while the others wait for it to finish.
 */
module OtelOnce {
  import opened Common
  import opened GoErrors
  import opened Otel

  datatype CallerPC =
    | Calling                     // before once.Do
    | Running(left: nat)          // holds the once; left shutdowns have not run yet
    | Leaving                     // once.Do has returned
    | Returned(err: Option<Err>)

  datatype State = State(
    done: bool,
    runner: Option<nat>,          // who holds the lock of the once
    err: Option<Err>,
    callers: map<nat, CallerPC>,
    ran: seq<Provider>)

  datatype Action = Call(c: nat) | SeeDone(c: nat) | Begin(c: nat) | RunNext(c: nat) | Finish(c: nat) | Return(c: nat)

  function Init(): State {
    State(false, None, None, map[], [])
  }

  /** funcs are the recorded shutdowns; the loop runs them from the last to the first. */
  function Step(funcs: seq<Provider>, results: Results, s: State, a: Action): Option<State> {
    if a.Call? then
      if a.c in s.callers then None else Some(s.(callers := s.callers[a.c := Calling]))
    else if a.c !in s.callers then None
    else
      match (a, s.callers[a.c])
      case (SeeDone(c), Calling) => if s.done then Some(s.(callers := s.callers[c := Leaving])) else None
      case (Begin(c), Calling) =>
        if s.done || s.runner.Some? then None
        else Some(s.(runner := Some(c), callers := s.callers[c := Running(|funcs|)]))
      case (RunNext(c), Running(left)) =>
        if left == 0 || |funcs| < left then None
        else Some(s.(err := Join(s.err, results(funcs[left - 1])), ran := s.ran + [funcs[left - 1]],
                     callers := s.callers[c := Running(left - 1)]))
      case (Finish(c), Running(left)) =>
        if 0 < left then None
        else Some(s.(done := true, runner := None, callers := s.callers[c := Leaving]))
      case (Return(c), Leaving) => Some(s.(callers := s.callers[c := Returned(s.err)]))
      case _ => None
  }

  ghost predicate IsRun(funcs: seq<Provider>, results: Results, states: seq<State>, acts: seq<Action>) {
    && |states| == |acts| + 1
    && states[0] == Init()
    && forall i :: 0 <= i < |acts| ==> Step(funcs, results, states[i], acts[i]) == Some(states[i + 1])
  }

  /** The shutdowns not run yet. */
  ghost function Left(funcs: seq<Provider>, s: State): seq<Provider> {
    if s.done then []
    else if s.runner.Some? && s.runner.value in s.callers && s.callers[s.runner.value].Running?
            && s.callers[s.runner.value].left <= |funcs|
      then funcs[..s.callers[s.runner.value].left]
    else funcs
  }

  /** The once is held by exactly the caller that is running. */
  ghost predicate RunnerInv(funcs: seq<Provider>, s: State) {
    && (s.runner.Some? ==> !s.done && s.runner.value in s.callers && s.callers[s.runner.value].Running?)
    && (forall c :: c in s.callers && s.callers[c].Running? ==> s.runner == Some(c) && s.callers[c].left <= |funcs|)
  }

  /** What has run and what is left make up the reverse order, and the error its join. */
  ghost predicate OrderInv(funcs: seq<Provider>, results: Results, s: State) {
    && s.ran + Reversed(Left(funcs, s)) == Reversed(funcs)
    && JoinResults(s.err, Left(funcs, s), results) == JoinResults(None, funcs, results)
  }

  /** Nobody leaves before everything has run, and whoever has returned got the final error. */
  ghost predicate DoneInv(s: State) {
    && (forall c :: c in s.callers && (s.callers[c].Leaving? || s.callers[c].Returned?) ==> s.done)
    && (forall c :: c in s.callers && s.callers[c].Returned? ==> s.callers[c].err == s.err)
  }

  ghost predicate Inv(funcs: seq<Provider>, results: Results, s: State) {
    RunnerInv(funcs, s) && OrderInv(funcs, results, s) && DoneInv(s)
  }

  lemma StepKeepsRunner(funcs: seq<Provider>, results: Results, s: State, a: Action)
    requires RunnerInv(funcs, s) && DoneInv(s) && Step(funcs, results, s, a).Some?
    ensures RunnerInv(funcs, Step(funcs, results, s, a).value)
  {
  }

  lemma StepKeepsDone(funcs: seq<Provider>, results: Results, s: State, a: Action)
    requires RunnerInv(funcs, s) && DoneInv(s) && Step(funcs, results, s, a).Some?
    ensures DoneInv(Step(funcs, results, s, a).value)
  {
  }

  /** Only RunNext takes from what is left. */
  lemma OthersKeepLeft(funcs: seq<Provider>, results: Results, s: State, a: Action)
    requires RunnerInv(funcs, s) && Step(funcs, results, s, a).Some? && !a.RunNext?
    ensures var t := Step(funcs, results, s, a).value;
            Left(funcs, t) == Left(funcs, s) && t.ran == s.ran && t.err == s.err
  {
    assert funcs[..|funcs|] == funcs;
  }

  lemma StepKeepsOrder(funcs: seq<Provider>, results: Results, s: State, a: Action)
    requires RunnerInv(funcs, s) && OrderInv(funcs, results, s) && Step(funcs, results, s, a).Some?
    ensures OrderInv(funcs, results, Step(funcs, results, s, a).value)
  {
    if a.RunNext? {
      var left := s.callers[a.c].left;
      assert s.runner == Some(a.c);
      assert Left(funcs, s) == funcs[..left];
      assert Left(funcs, Step(funcs, results, s, a).value) == funcs[..left][..left - 1];
    } else {
      OthersKeepLeft(funcs, results, s, a);
    }
  }

  lemma StepKeeps(funcs: seq<Provider>, results: Results, s: State, a: Action)
    requires Inv(funcs, results, s) && Step(funcs, results, s, a).Some?
    ensures Inv(funcs, results, Step(funcs, results, s, a).value)
  {
    StepKeepsRunner(funcs, results, s, a);
    StepKeepsOrder(funcs, results, s, a);
    StepKeepsDone(funcs, results, s, a);
  }

  lemma {:induction false} Reachable(
      funcs: seq<Provider>, results: Results, states: seq<State>, acts: seq<Action>, n: nat)
    requires IsRun(funcs, results, states, acts) && n < |states|
    ensures Inv(funcs, results, states[n])
  {
    if 0 < n {
      Reachable(funcs, results, states, acts, n - 1);
      assert Step(funcs, results, states[n - 1], acts[n - 1]) == Some(states[n - 1 + 1]);
      StepKeeps(funcs, results, states[n - 1], acts[n - 1]);
    }
  }

  /**
   Whoever returns from shutdown, in any interleaving: by then every recorded provider has been
   shut down, once each and in reverse order, and all callers get the same joined error.
   */
  lemma AllCallersAgree(
      funcs: seq<Provider>, results: Results, states: seq<State>, acts: seq<Action>, n: nat, c: nat)
    requires IsRun(funcs, results, states, acts) && n < |states|
    requires c in states[n].callers && states[n].callers[c].Returned?
    ensures states[n].ran == Reversed(funcs)
    ensures states[n].callers[c].err == JoinResults(None, funcs, results)
  {
    Reachable(funcs, results, states, acts, n);
  }

  /** At every moment what has run is the beginning of the reverse order, so nothing runs twice. */
  lemma NeverTwice(funcs: seq<Provider>, results: Results, states: seq<State>, acts: seq<Action>, n: nat)
    requires IsRun(funcs, results, states, acts) && n < |states|
    ensures states[n].ran <= Reversed(funcs)
  {
    Reachable(funcs, results, states, acts, n);
  }

  // ---------------------------------------------------------------- progress

  function After(funcs: seq<Provider>, results: Results, s: State, acts: seq<Action>): Option<State>
    decreases |acts|
  {
    if acts == [] then Some(s)
    else
      match Step(funcs, results, s, acts[0])
      case None => None
      case Some(t) => After(funcs, results, t, acts[1..])
  }

  /** The shutdowns still to run, with the start and the end of the once. */
  function WorkLeft(funcs: seq<Provider>, s: State): nat {
    if s.done then 0
    else if s.runner.Some? && s.runner.value in s.callers && s.callers[s.runner.value].Running?
      then s.callers[s.runner.value].left + 1
    else |funcs| + 2
  }

  function StepsLeft(funcs: seq<Provider>, s: State, c: nat): nat
    requires c in s.callers
  {
    WorkLeft(funcs, s)
    + match s.callers[c]
      case Calling => 2
      case Running(_) => 2
      case Leaving => 1
      case Returned(_) => 0
  }

  /** What brings caller c closer to its return: its own step, or one of the caller it waits for. */
  function NextStep(s: State, c: nat): Action
    requires c in s.callers
  {
    match s.callers[c]
    case Calling =>
      if s.done then SeeDone(c)
      else if s.runner.Some? && s.runner.value in s.callers then RunnerStep(s, s.runner.value)
      else Begin(c)
    case Running(_) => RunnerStep(s, c)
    case _ => Return(c)
  }

  function RunnerStep(s: State, d: nat): Action
    requires d in s.callers
  {
    if s.callers[d].Running? && 0 < s.callers[d].left then RunNext(d) else Finish(d)
  }

  lemma NextStepHelps(funcs: seq<Provider>, results: Results, s: State, c: nat)
    requires RunnerInv(funcs, s) && c in s.callers && !s.callers[c].Returned?
    ensures var t := Step(funcs, results, s, NextStep(s, c));
            t.Some? && c in t.value.callers && StepsLeft(funcs, t.value, c) < StepsLeft(funcs, s, c)
  {
  }

  /** Every caller of the shutdown can return, whoever runs it. */
  lemma {:induction false} CallerCanReturn(funcs: seq<Provider>, results: Results, s: State, c: nat)
    returns (acts: seq<Action>)
    requires Inv(funcs, results, s) && c in s.callers
    ensures |acts| <= StepsLeft(funcs, s, c) && After(funcs, results, s, acts).Some?
    ensures c in After(funcs, results, s, acts).value.callers
            && After(funcs, results, s, acts).value.callers[c].Returned?
    decreases if c in s.callers then StepsLeft(funcs, s, c) else 0
  {
    acts := [];
    if !s.callers[c].Returned? {
      NextStepHelps(funcs, results, s, c);
      StepKeeps(funcs, results, s, NextStep(s, c));
      var rest := CallerCanReturn(funcs, results, Step(funcs, results, s, NextStep(s, c)).value, c);
      acts := [NextStep(s, c)] + rest;
      assert acts[1..] == rest;
    }
  }
}
