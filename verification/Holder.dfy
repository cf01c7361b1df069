/**
 pgpool.Live and redisclient.Live as objects: the holder of the visible pool or client, its
 update callback, and the builds behind it.  Each method is tied to the state machine of
 HotResource.
 */
module Holder {
  import opened Common
  import opened HotResource
  import Stale

  /** The pools and clients that one holder creates, from its construction on, and the clock. */
  class Resources<O> {
    var options: seq<O>     // what each was created with
    var closes: seq<nat>
    var now: int

    constructor (now: int)
      ensures Abs() == Ledger([], []) && this.now == now
    {
      options, closes, this.now := [], [], now;
    }

    ghost function Abs(): Ledger<O>
      reads this
    {
      Ledger(options, closes)
    }

    method Open(o: O) returns (id: nat)
      modifies this
      ensures id == |old(options)| && Abs() == Ledger(old(options) + [o], old(closes)) && now == old(now)
    {
      id := |options|;
      options := options + [o];
    }

    method Close(id: nat)
      modifies this
      ensures Abs() == Closed(old(Abs()), id) && now == old(now)
    {
      closes := closes + [id];
    }

    /** pgpool.Build: create, ping, close on failure. */
    method BuildPool(o: O, outcome: Outcome) returns (id: Option<nat>)
      modifies this
      ensures Built(Abs(), id) == Build(Postgres, old(Abs()), o, outcome) && now == old(now)
      ensures outcome == Reachable ==>
                id == Some(|old(options)|) && options == old(options) + [o] && closes == old(closes)
      ensures outcome != Reachable ==> id.None?
    {
      if outcome.BadOptions? {
        return None;
      }
      var pool := Open(o);
      if outcome.Unreachable? {
        Close(pool);
        return None;
      }
      id := Some(pool);
    }

    /** redisclient.probe: a throwaway client that is closed whatever the ping says. */
    method Probe(o: O, outcome: Outcome) returns (ok: bool)
      modifies this
      ensures ok == outcome.Reachable? && now == old(now)
      ensures Abs() == Ledger(old(options) + [o], old(closes) + [|old(options)|])
    {
      var client := Open(o);
      ok := outcome.Reachable?;
      Close(client);
    }

    /** redisclient.Build: check the options, probe, then create the real client. */
    method BuildClient(o: O, outcome: Outcome) returns (id: Option<nat>)
      modifies this
      ensures Built(Abs(), id) == Build(Redis, old(Abs()), o, outcome) && now == old(now)
      // The real client comes second, after a probe that has been closed.
      ensures outcome == Reachable ==>
                && id == Some(|old(options)| + 1) && options == old(options) + [o, o]
                && closes == old(closes) + [|old(options)|]
      ensures outcome != Reachable ==> id.None?
    {
      if outcome.BadOptions? {
        return None;
      }
      var ok := Probe(o, outcome);
      if !ok {
        return None;
      }
      var client := Open(o);
      id := Some(client);
    }

    method BuildFor(kind: Kind, o: O, outcome: Outcome) returns (id: Option<nat>)
      modifies this
      ensures Built(Abs(), id) == Build(kind, old(Abs()), o, outcome) && now == old(now)
    {
      match kind
      case Postgres => id := BuildPool(o, outcome);
      case Redis => id := BuildClient(o, outcome);
    }
  }

  /** A push keeps the invariant unless it rebuilds after the stop. */
  lemma PushInvariant<O>(rules: Rules<O>, s: State<O>, next: O, outcome: Outcome)
    ensures Inv(rules, s) ==>
              (Inv(rules, OnPush(rules, s, next, outcome)) <==> !(s.stopped && Rebuilds(rules, s, Push(next, outcome))))
  {
    if Inv(rules, s) {
      if s.stopped && Rebuilds(rules, s, Push(next, outcome)) {
        RebuildLeaks(rules, s, Push(next, outcome));
      } else {
        PushKeeps(rules, s, next, outcome);
      }
    }
  }

  class Live<O(==)> {
    const rules: Rules<O>
    const resources: Resources<O>
    const stale: Stale.State<Outcome>
    var applied: O
    var current: nat
    var timers: seq<Timer>
    ghost var wanted: O
    ghost var stopped: bool

    ghost function Abs(): State<O>
      reads this, resources, stale
    {
      State(applied, current, stale.err, wanted, stopped, timers, resources.Abs(), resources.now)
    }

    ghost predicate Valid()
      reads this, resources, stale
    {
      Inv(rules, Abs())
    }

    /** NewLive around a resource that has just been built. */
    constructor (rules: Rules<O>, resources: Resources<O>, conf: O, id: nat)
      ensures this.rules == rules && this.resources == resources && fresh(stale)
      ensures Abs() == State(conf, id, None, conf, false, [], resources.Abs(), resources.now)
    {
      this.rules, this.resources := rules, resources;
      applied, current, timers := conf, id, [];
      wanted, stopped := conf, false;
      stale := new Stale.State<Outcome>();
    }

    method Load() returns (id: nat)
      ensures id == current
    {
      id := current;
    }

    /**
     The subscriber of the configuration: rebuild when the options differ from those in use.  It
     may still be called once the holder has stopped; a rebuild then breaks the invariant.
     */
    method OnUpdate(next: O, outcome: Outcome)
      modifies this, resources, stale
      ensures Abs() == OnPush(rules, old(Abs()), next, outcome)
      // A push of other options takes effect exactly when its build succeeds ...
      ensures !Same(rules, next, old(applied)) && outcome == Reachable ==>
                && applied == next && stale.err.None?
                && |old(resources.options)| <= current < |resources.options| && resources.options[current] == next
                && timers == old(timers) + [Timer(old(current), resources.now + 30_000_000_000)]
      // ... and otherwise leaves what is in use and says why.
      ensures !Same(rules, next, old(applied)) && outcome != Reachable ==>
                applied == old(applied) && current == old(current) && stale.err == Some(outcome)
                && timers == old(timers)
      ensures Same(rules, next, old(applied)) ==>
                applied == old(applied) && current == old(current) && stale.err.None? && timers == old(timers)
                && resources.Abs() == old(resources.Abs())
      ensures old(Valid()) ==> (Valid() <==> !(old(stopped) && Rebuilds(rules, old(Abs()), Push(next, outcome))))
    {
      ghost var before := Abs();
      PushInvariant(rules, before, next, outcome);
      wanted := next;
      if rules.canon(next) == rules.canon(applied) {
        stale.Set(None);
        return;
      }
      var id := resources.BuildFor(rules.kind, next, outcome);
      if id.None? {
        stale.Set(Some(outcome));
        return;
      }
      var prev := Swap(id.value);
      applied := next;
      stale.Set(None);
      timers := timers + [Timer(prev, resources.now + DRAIN_TIMEOUT)];
    }

    method Swap(id: nat) returns (prev: nat)
      modifies this`current
      ensures prev == old(current) && current == id
    {
      prev := current;
      current := id;
    }

    /** A drain timer that is due closes its resource. */
    method FireTimer(i: nat)
      requires i < |timers| && timers[i].due <= resources.now
      modifies this`timers, resources
      ensures Step(rules, old(Abs()), Fire(i)) == Some(Abs())
      ensures old(Valid()) ==> Valid()
    {
      if Valid() {
        StepKeeps(rules, Abs(), Fire(i));
      }
      var id := timers[i].id;
      timers := timers[..i] + timers[i + 1..];
      resources.Close(id);
    }

    /** The stop hook closes what is visible. */
    method OnStop()
      requires !stopped
      modifies this`stopped, resources
      ensures Step(rules, old(Abs()), Event.Stop) == Some(Abs())
      ensures old(Valid()) ==> Valid()
    {
      if Valid() {
        StepKeeps(rules, Abs(), Event.Stop);
      }
      stopped := true;
      var id := Load();
      resources.Close(id);
    }
  }

  /** Construction needs a build that succeeds and every registration: for Postgres that of the statistics too. */
  predicate Constructible(kind: Kind, outcome: Outcome, statsOk: bool, gaugeAccepted: bool) {
    outcome == Reachable && (kind.Postgres? ==> statsOk) && gaugeAccepted
  }

  /**
   newLive: build, wrap, register the gauge (and, for Postgres, the pool statistics).  A failed
   construction closes whatever it created.
   */
  method NewLive<O(==)>(
      rules: Rules<O>, conf: O, outcome: Outcome, statsOk: bool, now: int,
      registry: Stale.Registry<Outcome>, gaugeOk: bool)
    returns (r: Option<Live<O>>, resources: Resources<O>)
    requires registry.Valid()
    modifies registry
    ensures registry.Valid() && fresh(resources) && resources.now == now
    ensures r.Some? <==> Constructible(rules.kind, outcome, statsOk, old(registry.Accepts(gaugeOk)))
    ensures r.None? ==> LedgerOk(resources.Abs()) && AllClosed(resources.Abs())
    ensures r.Some? ==>
              && fresh(r.value) && fresh(r.value.stale)
              && r.value.rules == rules && r.value.resources == resources
              && Component(rules.kind) in registry.states && registry.states[Component(rules.kind)] == r.value.stale
              && r.value.wanted == r.value.applied == conf && !r.value.stopped
              && r.value.timers == [] && r.value.stale.err.None? && r.value.Valid()
  {
    resources := new Resources<O>(now);
    CleanStart(rules, conf, outcome, true, resources.Abs(), resources.now);
    CleanStart(rules, conf, outcome, false, resources.Abs(), resources.now);
    var id := resources.BuildFor(rules.kind, conf, outcome);
    if id.None? {
      return None, resources;
    }
    var live := new Live(rules, resources, conf, id.value);
    if rules.kind.Postgres? && !statsOk {
      resources.Close(id.value);
      return None, resources;
    }
    var ok := registry.Register(Component(rules.kind), live.stale, gaugeOk);
    if !ok {
      resources.Close(id.value);
      return None, resources;
    }
    r := Some(live);
  }

  function Component(kind: Kind): string {
    if kind.Postgres? then "pgpool" else "redisclient"
  }

  /** A gauge reading next to a holder: 1 exactly when the latest snapshot's options are not the applied ones. */
  method ReadGauge<O(==)>(live: Live<O>, registry: Stale.Registry<Outcome>) returns (value: int)
    requires live.Valid() && Component(live.rules.kind) in registry.states
    requires registry.states[Component(live.rules.kind)] == live.stale
    ensures value == 0 || value == 1
    ensures value == 1 <==> !Same(live.rules, live.wanted, live.applied)
  {
    var m := registry.Observe();
    value := m[Component(live.rules.kind)];
  }
}
