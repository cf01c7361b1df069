/** Staleness records and the process-wide gauge over them (internal/stale/stale.go). */
module Stale {
  import opened Common

  /** The zero value means up to date. */
  class State<E> {
    var err: Option<E>

    constructor ()
      ensures err == None
    {
      err := None;
    }

    method Set(e: Option<E>)
      modifies this
      ensures err == e
    {
      err := e;
    }

    method Err() returns (e: Option<E>)
      ensures e == err
    {
      e := err;
    }
  }

  /** What the gauge shows for each component: 1 while a reason is recorded, 0 otherwise. */
  ghost predicate Shows<E>(states: map<string, State<E>>, m: map<string, int>)
    reads states.Values
  {
    m.Keys == states.Keys && forall c :: c in states ==> m[c] == if states[c].err.Some? then 1 else 0
  }

  class Registry<E> {
    var states: map<string, State<E>>
    var onceDone: bool
    var failed: bool
    ghost var instruments: nat    // how often the gauge has been created

    ghost predicate Valid()
      reads this
    {
      instruments <= 1 && (onceDone <==> instruments == 1) && (failed ==> onceDone)
    }

    /** Whether a registration now succeeds, given that the gauge can be created or not. */
    predicate Accepts(creatable: bool)
      reads this
    {
      if onceDone then !failed else creatable
    }

    constructor ()
      ensures Valid() && states == map[] && !onceDone
    {
      states, onceDone, failed, instruments := map[], false, false, 0;
    }

    /**
     The component's record is exported in any case; the gauge is created by the first call
     only, and every later call reports what the first one met.
     */
    method Register(component: string, state: State<E>, creatable: bool) returns (ok: bool)
      requires Valid()
      modifies this
      ensures Valid() && onceDone && instruments == 1
      ensures states == old(states)[component := state]
      ensures ok == !failed == old(Accepts(creatable))
    {
      states := states[component := state];
      if !onceDone {
        failed := !creatable;
        instruments := instruments + 1;
        onceDone := true;
      }
      ok := !failed;
    }

    /** The gauge callback visits the records in any order. */
    method Observe() returns (m: map<string, int>)
      ensures Shows(states, m)
    {
      m := map[];
      var remaining := states.Keys;
      while remaining != {}
        invariant remaining <= states.Keys && m.Keys == states.Keys - remaining
        invariant forall c :: c in m ==> m[c] == if states[c].err.Some? then 1 else 0
        decreases remaining
      {
        var component :| component in remaining;
        var e := states[component].Err();
        m := m[component := if e.Some? then 1 else 0];
        remaining := remaining - {component};
      }
    }
  }
}
