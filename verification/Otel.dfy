/** Staged telemetry setup with rollback, and the once-only reverse shutdown (otel/otel.go). */
module Otel {
  import opened Common
  import opened GoErrors

  /** The providers in the order in which they are set up. */
  datatype Provider = Tracer | Meter | Logger

  /** What each provider's Shutdown returns. */
  type Results = Provider -> Option<Err>

  function Reversed(ps: seq<Provider>): (r: seq<Provider>)
    ensures |r| == |ps| && forall i :: 0 <= i < |ps| ==> r[i] == ps[|ps| - 1 - i]
  {
    if ps == [] then [] else [ps[|ps| - 1]] + Reversed(ps[..|ps| - 1])
  }

  /** The error of shutting down ps from the last to the first, joined onto an earlier one. */
  function JoinResults(earlier: Option<Err>, ps: seq<Provider>, results: Results): Option<Err>
    decreases |ps|
  {
    if ps == [] then earlier
    else JoinResults(Join(earlier, results(ps[|ps| - 1])), ps[..|ps| - 1], results)
  }

  /** The joined error is nil iff there was none before and all shutdowns succeed. */
  lemma {:induction false} JoinNilIff(earlier: Option<Err>, ps: seq<Provider>, results: Results)
    ensures JoinResults(earlier, ps, results).None?
            <==> earlier.None? && forall i :: 0 <= i < |ps| ==> results(ps[i]).None?
    decreases |ps|
  {
    if ps != [] {
      var m := |ps| - 1;
      JoinNilIff(Join(earlier, results(ps[m])), ps[..m], results);
      assert forall i :: 0 <= i < m ==> ps[..m][i] == ps[i];
    }
  }

  lemma {:induction false} JoinKeepsEarlier(earlier: Option<Err>, ps: seq<Provider>, results: Results, e: Err)
    requires earlier.Some? && Is(earlier.value, e)
    ensures JoinResults(earlier, ps, results).Some? && Is(JoinResults(earlier, ps, results).value, e)
    decreases |ps|
  {
    if ps != [] {
      var next := Join(earlier, results(ps[|ps| - 1]));
      WithinTransitive(e, earlier.value, next.value);
      JoinKeepsEarlier(next, ps[..|ps| - 1], results, e);
    }
  }

  /** Each failed shutdown can be found in the joined error. */
  lemma {:induction false} JoinKeepsAll(earlier: Option<Err>, ps: seq<Provider>, results: Results, i: nat)
    requires i < |ps| && results(ps[i]).Some?
    ensures JoinResults(earlier, ps, results).Some?
            && Is(JoinResults(earlier, ps, results).value, results(ps[i]).value)
    decreases |ps|
  {
    var m := |ps| - 1;
    var next := Join(earlier, results(ps[m]));
    if i == m {
      JoinKeepsEarlier(next, ps[..m], results, results(ps[m]).value);
    } else {
      JoinKeepsAll(next, ps[..m], results, i);
    }
  }

  class ShutdownGroup {
    var done: bool
    var funcs: seq<Provider>
    var err: Option<Err>
    ghost var ran: seq<Provider>    // the shutdowns run so far

    constructor ()
      ensures !done && funcs == [] && err == None && ran == []
    {
      done, funcs, err, ran := false, [], None, [];
    }

    method Add(p: Provider)
      modifies this`funcs
      ensures funcs == old(funcs) + [p]
    {
      funcs := funcs + [p];
    }

    /** The first call runs everything recorded, last first; later calls run nothing and answer the same. */
    method Shutdown(results: Results) returns (e: Option<Err>)
      modifies this
      ensures done && e == err
      ensures !old(done) ==>
                && ran == old(ran) + Reversed(old(funcs)) && funcs == []
                && err == JoinResults(old(err), old(funcs), results)
      ensures old(done) ==> ran == old(ran) && funcs == old(funcs) && err == old(err)
    {
      if !done {
        var index := |funcs| - 1;
        assert funcs[..|funcs|] == funcs;
        while 0 <= index
          invariant -1 <= index < |funcs| && funcs == old(funcs) && !done
          invariant ran + Reversed(funcs[..index + 1]) == old(ran) + Reversed(old(funcs))
          invariant JoinResults(err, funcs[..index + 1], results) == JoinResults(old(err), old(funcs), results)
        {
          assert funcs[..index + 1][..index] == funcs[..index];
          assert ran + Reversed(funcs[..index + 1]) == (ran + [funcs[index]]) + Reversed(funcs[..index]);
          err := Join(err, results(funcs[index]));
          ran := ran + [funcs[index]];
          index := index - 1;
        }
        funcs := [];
        done := true;
      }
      e := err;
    }
  }

  datatype Signals = Signals(trace: bool, metric: bool, logging: bool, runtimeMetrics: bool)

  /** The steps that can fail, in order. */
  datatype Stage = ResourceStage | TraceStage | MetricStage | RuntimeStage | LoggingStage

  function Rank(s: Stage): nat {
    match s
    case ResourceStage => 0
    case TraceStage => 1
    case MetricStage => 2
    case RuntimeStage => 3
    case LoggingStage => 4
  }

  predicate Runs(o: Signals, s: Stage) {
    match s
    case ResourceStage => true
    case TraceStage => o.trace
    case MetricStage => o.metric
    case RuntimeStage => o.metric && o.runtimeMetrics
    case LoggingStage => o.logging
  }

  /** What goes wrong at each stage, if anything. */
  type Failures = Stage -> Option<Err>

  /** Every step before the given rank that runs succeeds. */
  ghost predicate SucceedBefore(o: Signals, failures: Failures, rank: nat) {
    forall t :: Runs(o, t) && Rank(t) < rank ==> failures(t).None?
  }

  ghost predicate FirstFailure(o: Signals, failures: Failures, s: Stage) {
    Runs(o, s) && failures(s).Some? && SucceedBefore(o, failures, Rank(s))
  }

  ghost predicate AllSucceed(o: Signals, failures: Failures) {
    forall t :: Runs(o, t) ==> failures(t).None?
  }

  function StageOf(p: Provider): Stage {
    match p
    case Tracer => TraceStage
    case Meter => MetricStage
    case Logger => LoggingStage
  }

  /** The providers of the enabled signals that are set up before a given rank. */
  function ProvidersBefore(o: Signals, rank: nat): seq<Provider> {
    (if o.trace && 1 < rank then [Tracer] else [])
    + (if o.metric && 2 < rank then [Meter] else [])
    + (if o.logging && 4 < rank then [Logger] else [])
  }

  /** They are exactly those, once each, in setup order. */
  lemma ProvidersExact(o: Signals, rank: nat)
    ensures var ps := ProvidersBefore(o, rank);
            && (forall p :: p in ps <==> Runs(o, StageOf(p)) && Rank(StageOf(p)) < rank)
            && (forall i, j :: 0 <= i < j < |ps| ==> Rank(StageOf(ps[i])) < Rank(StageOf(ps[j])))
  {
    var ps := ProvidersBefore(o, rank);
    forall p ensures p in ps <==> Runs(o, StageOf(p)) && Rank(StageOf(p)) < rank {
      match p
      case Tracer =>
      case Meter =>
      case Logger =>
    }
  }

  /** The group after a rollback of everything recorded before stage s. */
  ghost predicate RolledBack(group: ShutdownGroup, recorded: seq<Provider>, results: Results)
    reads group
  {
    && group.done && group.funcs == []
    && group.ran == Reversed(recorded)
    && group.err == JoinResults(None, recorded, results)
  }

  /** The setup got past every step below rank. */
  ghost predicate SetUpTo(group: ShutdownGroup, o: Signals, failures: Failures, rank: nat)
    reads group
  {
    && !group.done && group.ran == [] && group.err.None?
    && group.funcs == ProvidersBefore(o, rank)
    && SucceedBefore(o, failures, rank)
  }

  /** The setup failed first at a step, and the providers recorded before it have been shut down. */
  ghost predicate FailedAt(
      group: ShutdownGroup, o: Signals, failures: Failures, results: Results, s: Stage, err: Option<Err>)
    reads group
  {
    && FirstFailure(o, failures, s)
    && RolledBack(group, ProvidersBefore(o, Rank(s)), results)
    && err == Join(failures(s), group.err)
  }

  lemma ReversedElements(ps: seq<Provider>, p: Provider)
    ensures p in Reversed(ps) <==> p in ps
  {
    if p in ps {
      var i :| 0 <= i < |ps| && ps[i] == p;
      assert Reversed(ps)[|ps| - 1 - i] == p;
    }
  }

  /**
   What a failed setup leaves: what has been shut down are the providers of the enabled signals
   before the failing step, in reverse setup order.
   */
  lemma FailureShutsDown(
      group: ShutdownGroup, o: Signals, failures: Failures, results: Results, s: Stage, err: Option<Err>)
    requires FailedAt(group, o, failures, results, s, err)
    ensures forall p :: p in group.ran <==> Runs(o, StageOf(p)) && Rank(StageOf(p)) < Rank(s)
    ensures forall i, j :: 0 <= i < j < |group.ran| ==> Rank(StageOf(group.ran[j])) < Rank(StageOf(group.ran[i]))
  {
    var ps := ProvidersBefore(o, Rank(s));
    ProvidersExact(o, Rank(s));
    forall p ensures p in group.ran <==> p in ps {
      ReversedElements(ps, p);
    }
  }

  /** And the failure and every error of a shutdown can be found in the result. */
  lemma FailureIsFound(
      group: ShutdownGroup, o: Signals, failures: Failures, results: Results, s: Stage, err: Option<Err>, p: Provider)
    requires FailedAt(group, o, failures, results, s, err)
    ensures failures(s).Some? && err.Some? && Is(err.value, failures(s).value)
    ensures p in group.ran && results(p).Some? ==> Is(err.value, results(p).value)
  {
    var ps := ProvidersBefore(o, Rank(s));
    ReversedElements(ps, p);
    if p in ps && results(p).Some? {
      var i :| 0 <= i < |ps| && ps[i] == p;
      JoinKeepsAll(None, ps, results, i);
      WithinTransitive(results(p).value, group.err.value, err.value);
    }
  }

  /** The answer of a failing step: shut down what is recorded and join the errors. */
  method Rollback(group: ShutdownGroup, err: Option<Err>, results: Results) returns (e: Option<Err>)
    requires !group.done && group.ran == [] && group.err.None?
    modifies group
    ensures RolledBack(group, old(group.funcs), results) && e == Join(err, group.err)
  {
    var shut := group.Shutdown(results);
    e := Join(err, shut);
  }

  method SetupTrace(group: ShutdownGroup, o: Signals, failures: Failures, results: Results)
    returns (err: Option<Err>)
    requires SetUpTo(group, o, failures, 1)
    modifies group
    ensures err.None? ==> SetUpTo(group, o, failures, 2)
    ensures err.Some? ==> FailedAt(group, o, failures, results, TraceStage, err)
  {
    if o.trace {
      err := failures(TraceStage);
      if err.Some? {
        err := Rollback(group, err, results);
        return;
      }
      group.Add(Tracer);
    }
    err := None;
  }

  method SetupRuntimeMetrics(group: ShutdownGroup, o: Signals, failures: Failures, results: Results)
    returns (err: Option<Err>)
    requires SetUpTo(group, o, failures, 3) && o.metric
    modifies group
    ensures err.None? ==> SetUpTo(group, o, failures, 4)
    ensures err.Some? ==> FailedAt(group, o, failures, results, RuntimeStage, err)
  {
    if o.runtimeMetrics {
      err := failures(RuntimeStage);
      if err.Some? {
        err := Rollback(group, err, results);
        return;
      }
    }
    err := None;
  }

  method SetupMetric(group: ShutdownGroup, o: Signals, failures: Failures, results: Results)
    returns (err: Option<Err>, ghost stage: Stage)
    requires SetUpTo(group, o, failures, 2)
    modifies group
    ensures err.None? ==> SetUpTo(group, o, failures, 4)
    ensures err.Some? ==> FailedAt(group, o, failures, results, stage, err)
  {
    stage := MetricStage;
    if o.metric {
      err := failures(MetricStage);
      if err.Some? {
        err := Rollback(group, err, results);
        return;
      }
      group.Add(Meter);
      stage := RuntimeStage;
      err := SetupRuntimeMetrics(group, o, failures, results);
      return;
    }
    err := None;
  }

  method SetupLogging(group: ShutdownGroup, o: Signals, failures: Failures, results: Results)
    returns (err: Option<Err>)
    requires SetUpTo(group, o, failures, 4)
    modifies group
    ensures err.None? ==> SetUpTo(group, o, failures, 5)
    ensures err.Some? ==> FailedAt(group, o, failures, results, LoggingStage, err)
  {
    if o.logging {
      err := failures(LoggingStage);
      if err.Some? {
        err := Rollback(group, err, results);
        return;
      }
      group.Add(Logger);
    }
    err := None;
  }

  /**
   SetupOTelSDK.  With no signal enabled it does nothing.  When a step fails, exactly the
   providers recorded before it are shut down, last first, before the error is returned; the
   group that is returned with it runs nothing more.  On success nothing has been shut down
   and every enabled provider is recorded.  stage names the first failing step.
   */
  method SetupOTelSDK(o: Signals, failures: Failures, results: Results)
    returns (group: ShutdownGroup, err: Option<Err>, ghost stage: Stage)
    ensures fresh(group)
    ensures !o.trace && !o.metric && !o.logging ==>
              err.None? && group.funcs == [] && group.ran == [] && !group.done && group.err.None?
    ensures (o.trace || o.metric || o.logging) && err.None? ==>
              SetUpTo(group, o, failures, 5) && AllSucceed(o, failures)
    ensures err.Some? ==> FailedAt(group, o, failures, results, stage, err)
  {
    group := new ShutdownGroup();
    stage := ResourceStage;
    if !o.trace && !o.metric && !o.logging {
      return group, None, stage;
    }
    err := failures(ResourceStage);
    if err.Some? {
      err := Rollback(group, err, results);
      return;
    }
    stage := TraceStage;
    err := SetupTrace(group, o, failures, results);
    if err.Some? {
      return;
    }
    err, stage := SetupMetric(group, o, failures, results);
    if err.Some? {
      return;
    }
    stage := LoggingStage;
    err := SetupLogging(group, o, failures, results);
  }

  /** sdkLifecycle: the shutdown function is kept only when the setup succeeded. */
  class SdkLifecycle {
    var shutdown: ShutdownGroup?

    constructor ()
      ensures shutdown == null
    {
      shutdown := null;
    }

    method OnStart(o: Signals, failures: Failures, results: Results) returns (err: Option<Err>)
      requires shutdown == null
      modifies this
      ensures err.None? <==> (!o.trace && !o.metric && !o.logging) || AllSucceed(o, failures)
      // The error joins the first failure with those of shutting down what was set up before it.
      ensures err.Some? ==>
                exists s :: FirstFailure(o, failures, s)
                            && err == Join(failures(s), JoinResults(None, ProvidersBefore(o, Rank(s)), results))
      ensures err.Some? ==> shutdown == null
      ensures err.None? ==> shutdown != null && fresh(shutdown) && !shutdown.done && shutdown.ran == []
      ensures err.None? ==> shutdown.funcs == ProvidersBefore(o, 5) && shutdown.err.None?
    {
      var group, e, stage := SetupOTelSDK(o, failures, results);
      if e.Some? {
        return e;
      }
      shutdown := group;
      err := None;
    }

    /** Before a successful start, and after a failed one, stopping does nothing. */
    method Stop(results: Results) returns (err: Option<Err>)
      modifies shutdown
      ensures shutdown == old(shutdown)
      ensures shutdown == null ==> err.None?
      ensures shutdown != null ==>
                && shutdown.done && err == shutdown.err
                && shutdown.ran
                   == old(shutdown.ran) + (if old(shutdown.done) then [] else Reversed(old(shutdown.funcs)))
                && (old(shutdown.done) ==> err == old(shutdown.err))
    {
      if shutdown == null {
        return None;
      }
      err := shutdown.Shutdown(results);
    }
  }
}
