/** What config.Live guarantees over whole runs, under any interleaving. */
module LiveRuns {
  import opened Common
  import opened LiveProtocol

  predicate Extends(m: map<nat, nat>, n: map<nat, nat>) {
    forall k :: k in m ==> k in n && n[k] == m[k]
  }

  ghost predicate KeepsPlaces<V(!new)>(s: State<V>, t: State<V>) {
    forall i :: i in s.setters && s.setters[i].pc.Published() ==>
      i in t.setters && t.setters[i].pc.Published() && t.setters[i].at == s.setters[i].at
  }

  /** History only grows; what is recorded about a subscriber or a publication never changes. */
  ghost predicate NotBefore<V(!new)>(s: State<V>, t: State<V>) {
    && s.log.hist <= t.log.hist
    && s.reg.next <= t.reg.next
    && Extends(s.log.since, t.log.since)
    && Extends(s.log.until, t.log.until)
    && KeepsPlaces(s, t)
  }

  lemma StepForward<V(!new)>(s: State<V>, a: Action<V>)
    requires LockInv(s) && RegInv(s) && Step(s, a).Some?
    ensures NotBefore(s, Step(s, a).value)
  {
    var t := Step(s, a).value;
    if !a.Subscribe? && !a.Cancel? {
      OthersKeepReg(s, a);
    }
    if !a.Swap? && !a.Copy? {
      OthersKeepHist(s, a);
    }
    forall i | i in s.setters && s.setters[i].pc.Published()
      ensures i in t.setters && t.setters[i].pc.Published() && t.setters[i].at == s.setters[i].at
    {
      StepKeepsPlaces(s, a, i);
    }
  }

  lemma StepOfRun<V(!new)>(initial: V, states: seq<State<V>>, acts: seq<Action<V>>, i: nat)
    requires IsRun(initial, states, acts) && i < |acts|
    ensures NotBefore(states[i], states[i + 1])
  {
    Reachable(initial, states, acts, i);
    assert Step(states[i], acts[i]) == Some(states[i + 1]);
    StepForward(states[i], acts[i]);
  }

  lemma Composes<V(!new)>(s: State<V>, t: State<V>, u: State<V>)
    requires NotBefore(s, t) && NotBefore(t, u)
    ensures NotBefore(s, u)
  {
  }

  lemma {:induction false} Chain<V(!new)>(states: seq<State<V>>, i: nat, j: nat)
    requires i <= j < |states| && forall n :: i <= n < j ==> NotBefore(states[n], states[n + 1])
    ensures NotBefore(states[i], states[j])
    decreases j
  {
    if i < j {
      Chain(states, i, j - 1);
      Composes(states[i], states[j - 1], states[j - 1 + 1]);
    }
  }

  lemma Forward<V(!new)>(initial: V, states: seq<State<V>>, acts: seq<Action<V>>, i: nat, j: nat)
    requires IsRun(initial, states, acts) && i <= j < |states|
    ensures NotBefore(states[i], states[j])
  {
    forall n | i <= n < j ensures NotBefore(states[n], states[n + 1]) {
      StepOfRun(initial, states, acts, n);
    }
    Chain(states, i, j);
  }

  /** How many snapshots have been published so far, the initial one not counted. */
  function Publications<V>(s: State<V>): nat {
    if s.log.hist == [] then 0 else |s.log.hist| - 1
  }

  /** How many of them have had their callbacks copied; a Set that has just swapped has not. */
  function Announced<V>(s: State<V>): nat {
    if Uncopied(s) && 0 < Publications(s) then Publications(s) - 1 else Publications(s)
  }

  lemma AnnouncedIsCopied<V(!new)>(s: State<V>)
    requires Inv(s)
    ensures Announced(s) == s.log.copies
  {
    if Uncopied(s) {
      assert SetterOk(s.log, s.lock.value, s.setters[s.lock.value]);
    }
  }

  /** What is on record about the subscription of step a at any later state. */
  lemma SubscribedSince<V(!new)>(initial: V, states: seq<State<V>>, acts: seq<Action<V>>, a: nat, n: nat)
    requires IsRun(initial, states, acts) && a < n < |states| && acts[a] == Subscribe
    ensures var k := states[a].reg.next;
            && k < states[n].reg.next && k in states[n].log.since
            && states[n].log.since[k] == states[a].log.copies
            && states[a].log.hist <= states[n].log.hist
  {
    assert Step(states[a], acts[a]) == Some(states[a + 1]);
    Forward(initial, states, acts, a, n);
    Forward(initial, states, acts, a + 1, n);
  }

  /**
   A subscriber registered at step a and not cancelled by state n has received exactly the
   snapshots announced in between, as consecutive (old, cur) pairs in order, once each, save one
   that a Set in progress at n has copied for it and not delivered yet.  Anything may interleave,
   and Set calls may be in progress at both ends.
   */
  lemma ReceivesExactlyThePublications<V(!new)>(
      initial: V, states: seq<State<V>>, acts: seq<Action<V>>, a: nat, n: nat)
    requires IsRun(initial, states, acts) && a < n < |states| && acts[a] == Subscribe
    requires states[a].reg.next !in states[n].log.until
    ensures var k := states[a].reg.next;
            var before, after := Announced(states[a]), Announced(states[n]);
            && k in states[n].log.delivered
            && states[a].log.hist <= states[n].log.hist
            && before <= after < |states[n].log.hist|
            && (k in Pending(states[n]) ==> before < after)
            && states[n].log.delivered[k]
               == Pairs(states[n].log.hist, before, after - if k in Pending(states[n]) then 1 else 0)
    // Between Sets everything published has been announced and delivered.
    ensures states[a].lock.None? ==> Announced(states[a]) == Publications(states[a])
    ensures states[n].lock.None? ==>
              Announced(states[n]) == Publications(states[n]) && Pending(states[n]) == {}
  {
    var k := states[a].reg.next;
    Reachable(initial, states, acts, a);
    Reachable(initial, states, acts, n);
    SubscribedSince(initial, states, acts, a, n);
    AnnouncedIsCopied(states[a]);
    AnnouncedIsCopied(states[n]);
    assert DeliveredOk(states[n], k);
  }

  /** Callbacks never overlap, across all subscribers and all Set calls. */
  lemma OneCallbackAtATime<V(!new)>(
      initial: V, states: seq<State<V>>, acts: seq<Action<V>>, n: nat, i: nat, j: nat)
    requires IsRun(initial, states, acts) && n < |states|
    requires i in states[n].setters && states[n].setters[i].pc.Notifying?
    requires j in states[n].setters && states[n].setters[j].pc.Notifying?
    ensures i == j
  {
    Reachable(initial, states, acts, n);
  }

  /** Get inside a callback returns the callback's cur, and its old is the snapshot just before. */
  lemma GetInsideCallback<V(!new)>(initial: V, states: seq<State<V>>, acts: seq<Action<V>>, n: nat, i: nat)
    requires IsRun(initial, states, acts) && n < |states|
    requires i in states[n].setters && states[n].setters[i].pc.Notifying?
    ensures var s := states[n];
            && s.ptr == s.setters[i].cur
            && 2 <= |s.log.hist|
            && s.setters[i].pc.prev == s.log.hist[|s.log.hist| - 2]
            && s.ptr == s.log.hist[|s.log.hist| - 1]
  {
    Reachable(initial, states, acts, n);
    assert SetterOk(states[n].log, i, states[n].setters[i]);
  }

  /** After cancel has returned, one more call at most, and only by a Set that had already copied it. */
  lemma AtMostOnceAfterCancel<V(!new)>(
      initial: V, states: seq<State<V>>, acts: seq<Action<V>>, n: nat, m: nat, k: nat)
    requires IsRun(initial, states, acts) && n <= m < |states| && k in states[n].log.until
    ensures k in states[n].log.delivered && k in states[m].log.delivered
    ensures |states[m].log.delivered[k]|
            <= |states[n].log.delivered[k]| + (if k in Pending(states[n]) then 1 else 0)
  {
    Reachable(initial, states, acts, n);
    Reachable(initial, states, acts, m);
    Forward(initial, states, acts, n, m);
    assert k < states[n].reg.next && k in states[n].log.since;
    assert DeliveredOk(states[n], k) && DeliveredOk(states[m], k);
  }

  /** A cancel changes nothing when the subscription has been cancelled at any time before. */
  lemma CancelIsIdempotent<V(!new)>(initial: V, states: seq<State<V>>, acts: seq<Action<V>>, a: nat, n: nat)
    requires IsRun(initial, states, acts) && a < n < |states| && acts[a].Cancel?
    ensures Step(states[n], acts[a]) == Some(states[n])
  {
    var id := acts[a].id;
    assert Step(states[a], acts[a]) == Some(states[a + 1]);
    Forward(initial, states, acts, a + 1, n);
    Reachable(initial, states, acts, n);
    assert id in states[n].log.until && states[n].reg.ids - {id} == states[n].reg.ids;
  }

  /** Ids are never reused. */
  lemma IdsAreFresh<V(!new)>(initial: V, states: seq<State<V>>, acts: seq<Action<V>>, a: nat, b: nat)
    requires IsRun(initial, states, acts) && a < b < |acts| && acts[a] == Subscribe && acts[b] == Subscribe
    ensures states[a].reg.next < states[b].reg.next
  {
    assert Step(states[a], acts[a]) == Some(states[a + 1]);
    Forward(initial, states, acts, a + 1, b);
  }

  /** The subscribers are exactly those registered minus those cancelled. */
  lemma SubscribersExact<V(!new)>(initial: V, states: seq<State<V>>, acts: seq<Action<V>>, n: nat)
    requires IsRun(initial, states, acts) && n < |states|
    ensures states[n].reg.ids == (set k: nat | k < states[n].reg.next && k !in states[n].log.until)
  {
    Reachable(initial, states, acts, n);
  }

  /** Every Set that got past its swap owns one place in the history, with its own snapshot there. */
  lemma PublishedOnce<V(!new)>(initial: V, states: seq<State<V>>, acts: seq<Action<V>>, n: nat, i: nat, j: nat)
    requires IsRun(initial, states, acts) && n < |states|
    requires i in states[n].setters && states[n].setters[i].pc.Published()
    requires j in states[n].setters && states[n].setters[j].pc.Published()
    ensures 1 <= states[n].setters[i].at < |states[n].log.hist|
    ensures states[n].log.hist[states[n].setters[i].at] == states[n].setters[i].cur
    ensures states[n].setters[i].at == states[n].setters[j].at ==> i == j
  {
    Reachable(initial, states, acts, n);
    var s := states[n];
    assert SetterOk(s.log, i, s.setters[i]) && SetterOk(s.log, j, s.setters[j]);
  }

  /** And every place after the initial snapshot has an owner. */
  lemma EveryPlaceOwned<V(!new)>(initial: V, states: seq<State<V>>, acts: seq<Action<V>>, n: nat, p: nat)
    requires IsRun(initial, states, acts) && n < |states| && 1 <= p < |states[n].log.hist|
    ensures exists i: nat :: i in states[n].setters && states[n].setters[i].pc.Published()
                             && states[n].setters[i].at == p
  {
    Reachable(initial, states, acts, n);
    var s := states[n];
    var i := s.log.publisher[p - 1];
    assert i in s.setters && s.setters[i].at == p - 1 + 1;
  }

  lemma StepPlacesAfter<V(!new)>(s: State<V>, a: Action<V>, j: nat, p: nat)
    requires Inv(s) && Step(s, a).Some? && j in s.setters && p <= |s.log.hist|
    requires s.setters[j].pc.Published() ==> p <= s.setters[j].at
    ensures var t := Step(s, a).value;
            j in t.setters && p <= |t.log.hist| && (t.setters[j].pc.Published() ==> p <= t.setters[j].at)
  {
    if !a.Swap? && !a.Copy? {
      OthersKeepHist(s, a);
    }
  }

  lemma {:induction false} PlacedAfterCall<V(!new)>(
      initial: V, states: seq<State<V>>, acts: seq<Action<V>>, b: nat, m: nat)
    requires IsRun(initial, states, acts) && b < m < |states| && acts[b].CallSet?
    ensures var j := acts[b].i;
            && j in states[m].setters && |states[b].log.hist| <= |states[m].log.hist|
            && (states[m].setters[j].pc.Published() ==> |states[b].log.hist| <= states[m].setters[j].at)
    decreases m
  {
    assert Step(states[m - 1], acts[m - 1]) == Some(states[m - 1 + 1]);
    if b < m - 1 {
      PlacedAfterCall(initial, states, acts, b, m - 1);
      Reachable(initial, states, acts, m - 1);
      StepPlacesAfter(states[m - 1], acts[m - 1], acts[b].i, |states[b].log.hist|);
    }
  }

  /** The history respects real time: a Set called after another has returned is published after it. */
  lemma RealTimeOrder<V(!new)>(
      initial: V, states: seq<State<V>>, acts: seq<Action<V>>, b: nat, m: nat, i: nat)
    requires IsRun(initial, states, acts) && b < m < |states| && acts[b].CallSet?
    requires i in states[b].setters && states[b].setters[i].pc.Finished?
    requires acts[b].i in states[m].setters && states[m].setters[acts[b].i].pc.Published()
    ensures i in states[m].setters && states[m].setters[i].at < states[m].setters[acts[b].i].at
  {
    Reachable(initial, states, acts, b);
    assert SetterOk(states[b].log, i, states[b].setters[i]);
    Forward(initial, states, acts, b, m);
    PlacedAfterCall(initial, states, acts, b, m);
  }

  lemma {:induction false} LastPair<V>(hist: seq<V>, a: nat, b: nat)
    requires a < b < |hist|
    ensures |Pairs(hist, a, b)| == b - a && Pairs(hist, a, b)[b - a - 1] == (hist[b - 1], hist[b])
  {
  }

  /** The last thing a live subscriber has heard is the current snapshot. */
  lemma LastHeardIsCurrent<V(!new)>(
      initial: V, states: seq<State<V>>, acts: seq<Action<V>>, n: nat, k: nat)
    requires IsRun(initial, states, acts) && n < |states| && states[n].lock.None?
    requires k in states[n].reg.ids && k in states[n].log.delivered && states[n].log.delivered[k] != []
    ensures var d := states[n].log.delivered[k]; d[|d| - 1].1 == states[n].ptr
  {
    Reachable(initial, states, acts, n);
    var l := states[n].log;
    assert DeliveredOk(states[n], k);
    LastPair(l.hist, l.since[k], l.copies);
  }

  // ---------------------------------------------------------------- progress

  /** Where the steps lead. */
  function After<V>(s: State<V>, acts: seq<Action<V>>): Option<State<V>>
    decreases |acts|
  {
    if acts == [] then Some(s)
    else
      match Step(s, acts[0])
      case None => None
      case Some(t) => After(t, acts[1..])
  }

  /** How many steps a Set has left when it has the lock or can take it. */
  function StepsLeft<V>(s: State<V>, i: nat): nat
    requires i in s.setters
  {
    match s.setters[i].pc
    case WantsLock => 2 * |s.reg.ids| + 4
    case Locked => 2 * |s.reg.ids| + 3
    case Swapped(_) => 2 * |s.reg.ids| + 2
    case Notifying(_, pending, running) => 2 * |pending| + 1 + if running.Some? then 1 else 0
    case Finished => 0
  }

  lemma NextSetStep<V(!new)>(s: State<V>, i: nat) returns (a: Action<V>)
    requires LockInv(s) && i in s.setters && !s.setters[i].pc.Finished?
    requires s.setters[i].pc.WantsLock? ==> s.lock.None?
    ensures Step(s, a).Some? && i in Step(s, a).value.setters
    ensures StepsLeft(Step(s, a).value, i) < StepsLeft(s, i)
    ensures !Step(s, a).value.setters[i].pc.WantsLock?
  {
    match s.setters[i].pc
    case WantsLock => a := Lock(i);
    case Locked => a := Swap(i);
    case Swapped(_) => a := Copy(i);
    case Notifying(_, pending, running) =>
      if running.Some? {
        a := End(i);
      } else if pending != {} {
        var id :| id in pending;
        a := Begin(i, id);
        assert |pending - {id}| == |pending| - 1;
      } else {
        a := Unlock(i);
      }
  }

  /**
   No Set gets stuck: once it has the lock, or finds it free, it can finish by its own steps, two
   for each subscriber and four more.
   */
  lemma {:induction false} SetCanFinish<V(!new)>(s: State<V>, i: nat) returns (acts: seq<Action<V>>)
    requires LockInv(s) && i in s.setters && (s.setters[i].pc.WantsLock? ==> s.lock.None?)
    ensures |acts| <= StepsLeft(s, i) && After(s, acts).Some?
    ensures i in After(s, acts).value.setters && After(s, acts).value.setters[i].pc.Finished?
    decreases if i in s.setters then StepsLeft(s, i) else 0
  {
    acts := [];
    if !s.setters[i].pc.Finished? {
      var a := NextSetStep(s, i);
      StepKeepsLock(s, a);
      var rest := SetCanFinish(Step(s, a).value, i);
      acts := [a] + rest;
      assert acts[1..] == rest;
    }
  }
}
