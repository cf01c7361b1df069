/**
 The hot-reload stack end to end: watch events (config/config.go) become snapshots
 (config/live.go), snapshots become options, and options drive the pool or client
 (pgpool/pgpool.go, redisclient/redisclient.go).
 */
module HotReload {
  import opened Common
  import ConfigLive
  import ConfigWatch
  import Holder
  import HR = HotResource
  import PoolOptions
  import Stale

  const POSTGRES_RULES := HR.Rules(HR.Postgres, PoolOptions.Canonical)

  /** What the latest snapshot projects to is what the holder regards as wanted. */
  ghost predicate InStep<R, T, C, O>(
      live: ConfigLive.Live<R, T, C>, holder: Holder.Live<O>, project: T -> O)
    reads live, holder, holder.resources, holder.stale
  {
    live.Valid() && holder.Valid() && !holder.stopped && holder.wanted == project(live.ptr)
  }

  /** Module wiring: build from the current snapshot, then subscribe; no Set falls in between. */
  method Attach<R, T(==), C(==), O(==)>(
      live: ConfigLive.Live<R, T, C>, project: T -> O, callback: C, rules: HR.Rules<O>, outcome: HR.Outcome,
      statsOk: bool, now: int, registry: Stale.Registry<HR.Outcome>, gaugeOk: bool)
    returns (holder: Option<Holder.Live<O>>, resources: Holder.Resources<O>)
    requires live.Valid() && registry.Valid()
    modifies live, registry
    ensures live.Valid() && live.ptr == old(live.ptr) && live.schema == old(live.schema)
    ensures fresh(resources)
    ensures holder.Some? <==> Holder.Constructible(rules.kind, outcome, statsOk, old(registry.Accepts(gaugeOk)))
    ensures holder.None? ==>
              live.subs == old(live.subs) && HR.LedgerOk(resources.Abs()) && HR.AllClosed(resources.Abs())
    ensures holder.Some? ==>
              && InStep(live, holder.value, project) && holder.value.resources == resources
              && holder.value.applied == project(live.ptr) && holder.value.stale.err.None?
              && live.subs == old(live.subs)[old(live.next) := callback]
  {
    var conf := live.Get();
    holder, resources := Holder.NewLive(rules, project(conf), outcome, statsOk, now, registry, gaugeOk);
    if holder.None? {
      return;
    }
    var _ := live.Subscribe(callback);
  }

  /** One event: it is published if it is good, and then the holder is told. */
  method Deliver<R, T(==), C(==), O(==)>(
      live: ConfigLive.Live<R, T, C>, holder: Holder.Live<O>, project: T -> O,
      event: ConfigWatch.WatchEvent<R>, build: HR.Outcome)
    requires InStep(live, holder, project)
    modifies live, holder, holder.resources, holder.stale
    ensures InStep(live, holder, project) && live.schema == old(live.schema)
    ensures var good := ConfigWatch.Accepted(old(live.schema), event);
            live.ptr == if good.Some? then good.value else old(live.ptr)
    ensures build == HR.Reachable && old(HR.Same(holder.rules, project(live.ptr), holder.applied)) ==>
              HR.Same(holder.rules, project(live.ptr), holder.applied)
  {
    ghost var holderBefore := holder.Abs();
    var published := ConfigWatch.Accepted(live.schema, event);
    ConfigWatch.HandleEvent(live, event);
    assert holder.Abs() == holderBefore;
    if published.Some? {
      holder.OnUpdate(project(published.value), build);
    }
  }

  /**
   The watch with a pool or client subscribed to it: each good event is published and the
   holder is told about it before the next event.  builds[i] is how a rebuild for event i goes.
   Afterwards the visible resource is the one built from applied, and it is reported stale
   exactly when the options of the last known good snapshot are not the applied ones.  If every
   build succeeds and the holder starts up to date, it ends up to date.
   */
  method Follow<R, T(==), C(==), O(==)>(
      live: ConfigLive.Live<R, T, C>, holder: Holder.Live<O>, project: T -> O,
      events: seq<ConfigWatch.WatchEvent<R>>, builds: seq<HR.Outcome>)
    requires InStep(live, holder, project) && |builds| == |events|
    modifies live, holder, holder.resources, holder.stale
    ensures InStep(live, holder, project) && live.schema == old(live.schema)
    ensures ConfigWatch.LastKnownGood(live.schema, events, old(live.ptr), live.ptr)
    ensures holder.current < |holder.resources.options|
            && holder.resources.options[holder.current] == holder.applied
    ensures holder.current !in holder.resources.closes
    ensures holder.stale.err.None? <==> HR.Same(holder.rules, project(live.ptr), holder.applied)
    ensures (forall i :: 0 <= i < |builds| ==> builds[i] == HR.Reachable)
            && old(HR.Same(holder.rules, project(live.ptr), holder.applied)) ==>
              HR.Same(holder.rules, project(live.ptr), holder.applied) && holder.stale.err.None?
  {
    var n := 0;
    assert events[..|events|] == events;
    while n < |events|
      invariant 0 <= n <= |events|
      invariant InStep(live, holder, project) && live.schema == old(live.schema)
      invariant ConfigWatch.LastKnownGood(live.schema, events[..n], old(live.ptr), live.ptr)
      invariant (forall i :: 0 <= i < n ==> builds[i] == HR.Reachable)
                && old(HR.Same(holder.rules, project(live.ptr), holder.applied)) ==>
                  HR.Same(holder.rules, project(live.ptr), holder.applied)
    {
      ghost var before := live.ptr;
      Deliver(live, holder, project, events[n], builds[n]);
      n := n + 1;
      assert events[..n][..n - 1] == events[..n - 1];
      ConfigWatch.LastKnownGoodStep(live.schema, events[..n], old(live.ptr), before, live.ptr);
    }
  }

  /** For Postgres, not stale means that every option of the last known good snapshot is in use. */
  lemma PostgresNotStale(s: HR.State<PoolOptions.Options>)
    requires HR.Inv(POSTGRES_RULES, s) && s.stale.None?
    ensures PoolOptions.Equal(s.wanted, s.applied)
    ensures s.wanted.host == s.applied.host && PoolOptions.Names(s.wanted) == PoolOptions.Names(s.applied)
  {
  }

  /** Reverting to the options in use clears the report without building anything. */
  lemma RevertClears<O>(rules: HR.Rules<O>, s: HR.State<O>, bad: O, why: HR.Outcome, again: HR.Outcome)
    requires HR.Inv(rules, s) && !s.stopped && !HR.Same(rules, bad, s.applied) && why != HR.Reachable
    ensures var failed := HR.OnPush(rules, s, bad, why);
            var reverted := HR.OnPush(rules, failed, s.applied, again);
            && failed.stale == Some(why) && failed.current == s.current && failed.applied == s.applied
            && reverted.stale.None? && reverted.current == s.current && reverted.ledger == failed.ledger
  {
    HR.BuildKeeps(rules.kind, s.ledger, bad, why);
  }
}
