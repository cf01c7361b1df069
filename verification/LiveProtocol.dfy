/**
 config.Live (config/live.go) under concurrency: any number of Set calls, interleaved with
 Subscribe, cancel and Get.  One step is one lock operation, the pointer swap, the copy of the
 callbacks, or the start or end of one callback.  Get is a read of ptr in any state.
 */
module LiveProtocol {
  import opened Common

  datatype SetterPC<V> =
    | WantsLock                                                      // before applyMu.Lock
    | Locked                                                         // before the swap
    | Swapped(prev: V)                                                // before the copy of the callbacks
    | Notifying(prev: V, pending: set<nat>, running: Option<nat>)     // going through the copy
    | Finished                                                       // applyMu released
  {
    predicate Critical() { Locked? || Swapped? || Notifying? }
    predicate Published() { Swapped? || Notifying? || Finished? }
  }

  /** at is the position of cur in the published history, once published. */
  datatype Setter<V> = Setter(cur: V, pc: SetterPC<V>, at: nat)

  datatype Registry = Registry(next: nat, ids: set<nat>)

  /** History variables; no step reads them. */
  datatype Log<V> = Log(
    hist: seq<V>,                        // every snapshot ever visible, in order
    publisher: seq<nat>,                 // publisher[j] is the setter that published hist[j + 1]
    copies: nat,                         // how often the callbacks have been copied
    since: map<nat, nat>,                // copies at the time of Subscribe
    until: map<nat, nat>,                // copies at the time of the first cancel
    delivered: map<nat, seq<(V, V)>>)    // the callbacks started, per subscriber

  datatype State<V> = State(
    ptr: V,
    lock: Option<nat>,                   // applyMu
    setters: map<nat, Setter<V>>,
    reg: Registry,
    log: Log<V>)

  function Init<V>(initial: V): State<V> {
    State(initial, None, map[], Registry(0, {}), Log([initial], [], 0, map[], map[], map[]))
  }

  datatype Action<V> =
    | CallSet(i: nat, cur: V)
    | Lock(i: nat)
    | Swap(i: nat)
    | Copy(i: nat)
    | Begin(i: nat, id: nat)
    | End(i: nat)
    | Unlock(i: nat)
    | Subscribe
    | Cancel(id: nat)

  function At<V>(s: State<V>, i: nat, pc: SetterPC<V>): map<nat, Setter<V>>
    requires i in s.setters
  {
    s.setters[i := s.setters[i].(pc := pc)]
  }

  function SetStep<V>(s: State<V>, i: nat, a: Action<V>): Option<State<V>>
    requires i in s.setters
  {
    var w := s.setters[i];
    match (a, w.pc)
    case (Lock(_), WantsLock) =>
      if s.lock.Some? then None else Some(s.(lock := Some(i), setters := At(s, i, Locked)))
    case (Swap(_), Locked) =>
      Some(s.(ptr := w.cur,
              setters := s.setters[i := Setter(w.cur, Swapped(s.ptr), |s.log.hist|)],
              log := s.log.(hist := s.log.hist + [w.cur], publisher := s.log.publisher + [i])))
    case (Copy(_), Swapped(prev)) =>
      Some(s.(setters := At(s, i, Notifying(prev, s.reg.ids, None)), log := s.log.(copies := s.log.copies + 1)))
    case (Begin(_, id), Notifying(prev, pending, running)) =>
      if running.Some? || id !in pending then None
      else Some(s.(setters := At(s, i, Notifying(prev, pending - {id}, Some(id))),
                   log := s.log.(delivered := Delivered(s.log, id, (prev, w.cur)))))
    case (End(_), Notifying(prev, pending, running)) =>
      if running.None? then None else Some(s.(setters := At(s, i, Notifying(prev, pending, None))))
    case (Unlock(_), Notifying(_, pending, running)) =>
      if running.Some? || pending != {} then None
      else Some(s.(lock := None, setters := At(s, i, Finished)))
    case _ => None
  }

  function Delivered<V>(l: Log<V>, id: nat, pair: (V, V)): map<nat, seq<(V, V)>> {
    if id in l.delivered then l.delivered[id := l.delivered[id] + [pair]] else l.delivered[id := [pair]]
  }

  /** Only the first cancel of a subscription is recorded. */
  function Cancelled<V>(l: Log<V>, id: nat): map<nat, nat> {
    if id in l.until then l.until else l.until[id := l.copies]
  }

  function Step<V>(s: State<V>, a: Action<V>): Option<State<V>> {
    match a
    case CallSet(i, cur) =>
      if i in s.setters then None else Some(s.(setters := s.setters[i := Setter(cur, WantsLock, 0)]))
    case Subscribe =>
      var id := s.reg.next;
      Some(s.(reg := Registry(id + 1, s.reg.ids + {id}),
              log := s.log.(since := s.log.since[id := s.log.copies], delivered := s.log.delivered[id := []])))
    case Cancel(id) =>
      if id >= s.reg.next then None
      else Some(s.(reg := Registry(s.reg.next, s.reg.ids - {id}), log := s.log.(until := Cancelled(s.log, id))))
    case _ => if a.i in s.setters then SetStep(s, a.i, a) else None
  }

  ghost predicate IsRun<V(!new)>(initial: V, states: seq<State<V>>, acts: seq<Action<V>>) {
    && |states| == |acts| + 1
    && states[0] == Init(initial)
    && forall i :: 0 <= i < |acts| ==> Step(states[i], acts[i]) == Some(states[i + 1])
  }

  /** Publications a+1 to b of a history, as (old, cur) pairs. */
  function Pairs<V>(hist: seq<V>, a: nat, b: nat): (p: seq<(V, V)>)
    requires b < |hist|
    ensures |p| == if a < b then b - a else 0
  {
    if b <= a then [] else Pairs(hist, a, b - 1) + [(hist[b - 1], hist[b])]
  }

  /** They are the neighbours in the history, each with the one after it. */
  lemma {:induction false} PairsAreNeighbours<V>(hist: seq<V>, a: nat, b: nat, i: nat)
    requires a + i < b < |hist|
    ensures Pairs(hist, a, b)[i] == (hist[a + i], hist[a + i + 1])
  {
    if a + i < b - 1 {
      PairsAreNeighbours(hist, a, b - 1, i);
    }
  }

  // ---------------------------------------------------------------- invariants

  ghost predicate LockInv<V(!new)>(s: State<V>) {
    && (s.lock.Some? ==> s.lock.value in s.setters)
    && forall i :: i in s.setters ==> (s.setters[i].pc.Critical() <==> s.lock == Some(i))
  }

  /** The setter in the critical section, if it has swapped, published the last two snapshots' difference. */
  ghost predicate HistInv<V(!new)>(s: State<V>) {
    && |s.log.hist| == |s.log.publisher| + 1
    && s.ptr == s.log.hist[|s.log.publisher|]
    && s.log.copies == |s.log.publisher| - (if Uncopied(s) then 1 else 0)
    && forall i :: i in s.setters ==> SetterOk(s.log, i, s.setters[i])
  }

  predicate Uncopied<V>(s: State<V>) {
    s.lock.Some? && s.lock.value in s.setters && s.setters[s.lock.value].pc.Swapped?
  }

  predicate SetterOk<V(==)>(l: Log<V>, i: nat, w: Setter<V>) {
    && (w.pc.Published() ==>
          1 <= w.at <= |l.publisher| < |l.hist| && l.publisher[w.at - 1] == i && l.hist[w.at] == w.cur)
    && (w.pc.Swapped? || w.pc.Notifying? ==>
          w.at == |l.publisher| && w.pc.prev == l.hist[|l.publisher| - 1])
  }

  /** Each publication belongs to one setter. */
  ghost predicate ByInv<V(!new)>(s: State<V>) {
    forall j :: 0 <= j < |s.log.publisher| ==>
      && s.log.publisher[j] in s.setters && s.setters[s.log.publisher[j]].pc.Published()
      && s.setters[s.log.publisher[j]].at == j + 1
  }

  /** Subscribers are those registered minus those cancelled; ids are never reused. */
  ghost predicate RegInv<V(!new)>(s: State<V>) {
    && (forall k: nat :: k in s.reg.ids <==> k < s.reg.next && k !in s.log.until)
    && (forall k: nat :: k in s.log.since <==> k < s.reg.next)
    && (forall k: nat :: k in s.log.delivered <==> k < s.reg.next)
    && (forall k :: k in s.log.until ==> k < s.reg.next)
  }

  function Pending<V>(s: State<V>): set<nat> {
    if s.lock.Some? && s.lock.value in s.setters && s.setters[s.lock.value].pc.Notifying?
    then s.setters[s.lock.value].pc.pending else {}
  }

  /** The subscriber whose callback is running, if any. */
  function Running<V>(s: State<V>): Option<nat> {
    if s.lock.Some? && s.lock.value in s.setters && s.setters[s.lock.value].pc.Notifying?
    then s.setters[s.lock.value].pc.running else None
  }

  /** A callback that runs is not pending any more. */
  ghost predicate RunningInv<V>(s: State<V>) {
    Running(s).Some? ==> Running(s).value !in Pending(s)
  }

  function Until<V>(l: Log<V>, k: nat): nat {
    if k in l.until then l.until[k] else l.copies
  }

  /** What subscriber k has received: its publications, except the one still pending for it. */
  ghost predicate DeliveredOk<V(!new)>(s: State<V>, k: nat)
    requires k in s.log.since && k in s.log.delivered
  {
    var l := s.log;
    && l.since[k] <= Until(l, k) <= l.copies < |l.hist|
    && (k in Pending(s) ==> Until(l, k) == l.copies && l.since[k] < l.copies)
    && l.delivered[k] == Pairs(l.hist, l.since[k], Until(l, k) - (if k in Pending(s) then 1 else 0))
  }

  ghost predicate DeliveryInv<V(!new)>(s: State<V>) {
    && (forall k :: k in Pending(s) ==> k < s.reg.next)
    && forall k :: k in s.log.since && k in s.log.delivered ==> DeliveredOk(s, k)
  }

  ghost predicate Inv<V(!new)>(s: State<V>) {
    LockInv(s) && HistInv(s) && ByInv(s) && RegInv(s) && DeliveryInv(s) && RunningInv(s)
  }

  // ---------------------------------------------------------------- preservation

  lemma {:induction false} PairsPrefix<V>(hist: seq<V>, more: seq<V>, a: nat, b: nat)
    requires b < |hist|
    ensures Pairs(hist + more, a, b) == Pairs(hist, a, b)
  {
    if a < b {
      PairsPrefix(hist, more, a, b - 1);
    }
  }

  lemma StepKeepsLock<V(!new)>(s: State<V>, a: Action<V>)
    requires LockInv(s) && Step(s, a).Some?
    ensures LockInv(Step(s, a).value)
  {
  }

  /** Only Swap publishes, and only Copy completes a publication. */
  lemma OthersKeepHist<V(!new)>(s: State<V>, a: Action<V>)
    requires LockInv(s) && Step(s, a).Some? && !a.Swap? && !a.Copy?
    ensures var t := Step(s, a).value;
            && t.ptr == s.ptr && t.log.hist == s.log.hist && t.log.publisher == s.log.publisher
            && t.log.copies == s.log.copies && Uncopied(t) == Uncopied(s)
  {
  }

  lemma StepKeepsCounts<V(!new)>(s: State<V>, a: Action<V>)
    requires LockInv(s) && HistInv(s) && Step(s, a).Some?
    ensures var t := Step(s, a).value;
            && |t.log.hist| == |t.log.publisher| + 1
            && t.ptr == t.log.hist[|t.log.publisher|]
            && t.log.copies == |t.log.publisher| - (if Uncopied(t) then 1 else 0)
  {
    if a.Swap? || a.Copy? {
      assert s.lock == Some(a.i);
    } else {
      OthersKeepHist(s, a);
    }
  }

  lemma SwapKeepsSetter<V(!new)>(s: State<V>, n: nat, i: nat)
    requires LockInv(s) && HistInv(s) && Step(s, Swap(n)).Some? && i in s.setters
    ensures var t := Step(s, Swap(n)).value; SetterOk(t.log, i, t.setters[i])
  {
    assert SetterOk(s.log, i, s.setters[i]) && s.lock == Some(n);
    assert i != n ==> !s.setters[i].pc.Critical();
  }

  lemma StepKeepsSetter<V(!new)>(s: State<V>, a: Action<V>, i: nat)
    requires LockInv(s) && HistInv(s) && Step(s, a).Some? && !a.Swap? && i in Step(s, a).value.setters
    ensures var t := Step(s, a).value; SetterOk(t.log, i, t.setters[i])
  {
    if i in s.setters {
      assert SetterOk(s.log, i, s.setters[i]);
    }
  }

  lemma StepKeepsHist<V(!new)>(s: State<V>, a: Action<V>)
    requires LockInv(s) && HistInv(s) && Step(s, a).Some?
    ensures HistInv(Step(s, a).value)
  {
    var t := Step(s, a).value;
    StepKeepsCounts(s, a);
    forall i | i in t.setters ensures SetterOk(t.log, i, t.setters[i]) {
      if a.Swap? {
        SwapKeepsSetter(s, a.i, i);
      } else {
        StepKeepsSetter(s, a, i);
      }
    }
  }

  /** A place in the history is kept for good. */
  lemma StepKeepsPlaces<V(!new)>(s: State<V>, a: Action<V>, i: nat)
    requires LockInv(s) && Step(s, a).Some? && i in s.setters && s.setters[i].pc.Published()
    ensures var t := Step(s, a).value;
            i in t.setters && t.setters[i].pc.Published() && t.setters[i].at == s.setters[i].at
  {
  }

  lemma StepKeepsBy<V(!new)>(s: State<V>, a: Action<V>)
    requires LockInv(s) && HistInv(s) && ByInv(s) && Step(s, a).Some?
    ensures ByInv(Step(s, a).value)
  {
    var t := Step(s, a).value;
    forall j | 0 <= j < |t.log.publisher|
      ensures t.log.publisher[j] in t.setters && t.setters[t.log.publisher[j]].pc.Published()
              && t.setters[t.log.publisher[j]].at == j + 1
    {
      if j < |s.log.publisher| {
        assert t.log.publisher[j] == s.log.publisher[j];
        StepKeepsPlaces(s, a, s.log.publisher[j]);
      } else {
        assert a.Swap?;
      }
    }
  }

  /** Apart from Subscribe and cancel no step touches the registration; Begin records one more call. */
  lemma OthersKeepReg<V(!new)>(s: State<V>, a: Action<V>)
    requires LockInv(s) && Step(s, a).Some? && !a.Subscribe? && !a.Cancel?
    ensures var t := Step(s, a).value;
            && t.reg == s.reg && t.log.since == s.log.since && t.log.until == s.log.until
            && (if a.Begin? then a.id in Pending(s) && t.log.delivered.Keys == s.log.delivered.Keys + {a.id}
                else t.log.delivered == s.log.delivered)
  {
    if a.Begin? {
      assert s.lock == Some(a.i);
    }
  }

  lemma StepKeepsReg<V(!new)>(s: State<V>, a: Action<V>)
    requires RegInv(s) && DeliveryInv(s) && LockInv(s) && Step(s, a).Some?
    ensures RegInv(Step(s, a).value)
  {
    if !a.Subscribe? && !a.Cancel? {
      OthersKeepReg(s, a);
      var t := Step(s, a).value;
      assert forall k :: k in t.log.delivered <==> k in t.log.delivered.Keys;
      assert forall k :: k in s.log.delivered <==> k in s.log.delivered.Keys;
    }
  }

  lemma StepKeepsDelivery<V(!new)>(s: State<V>, a: Action<V>, k: nat)
    requires Inv(s) && Step(s, a).Some?
    requires var t := Step(s, a).value; k in t.log.since && k in t.log.delivered
    ensures DeliveredOk(Step(s, a).value, k)
  {
    if k in s.log.since {
      if a.Swap? {
        SwapKeepsDelivery(s, a.i, k);
      } else if a.Copy? {
        CopyKeepsDelivery(s, a.i, k);
      } else if a.Begin? {
        BeginKeepsDelivery(s, a.i, a.id, k);
      } else {
        assert DeliveredOk(s, k);
        OthersKeepDelivery(s, a, k);
      }
    } else {
      NewSubscriber(s, a, k);
    }
  }

  /** A subscriber that is new starts with nothing delivered and nothing pending. */
  lemma NewSubscriber<V(!new)>(s: State<V>, a: Action<V>, k: nat)
    requires HistInv(s) && RegInv(s) && DeliveryInv(s) && Step(s, a).Some? && k !in s.log.since
    requires k in Step(s, a).value.log.since
    ensures a.Subscribe? && DeliveredOk(Step(s, a).value, k)
  {
    assert a.Subscribe? && k == s.reg.next;
    var t := Step(s, a).value;
    assert Pending(t) == Pending(s) && k !in Pending(s);
    assert k !in t.log.until && Until(t.log, k) == t.log.copies == t.log.since[k];
  }

  /** Steps other than Swap, Copy and Begin leave what is pending alone. */
  lemma OthersKeepPending<V(!new)>(s: State<V>, a: Action<V>)
    requires LockInv(s) && Step(s, a).Some? && !a.Swap? && !a.Copy? && !a.Begin?
    ensures var t := Step(s, a).value;
            Pending(t) == Pending(s) && t.log.hist == s.log.hist && t.log.copies == s.log.copies
  {
  }

  lemma OthersKeepDelivery<V(!new)>(s: State<V>, a: Action<V>, k: nat)
    requires LockInv(s) && RegInv(s) && k in s.log.since && k in s.log.delivered && DeliveredOk(s, k)
    requires Step(s, a).Some? && !a.Swap? && !a.Copy? && !a.Begin?
    ensures var t := Step(s, a).value;
            k in t.log.since && k in t.log.delivered && DeliveredOk(t, k)
  {
    OthersKeepPending(s, a);
  }

  lemma SwapKeepsDelivery<V(!new)>(s: State<V>, i: nat, k: nat)
    requires Inv(s) && Step(s, Swap(i)).Some? && k in s.log.since
    ensures DeliveredOk(Step(s, Swap(i)).value, k)
  {
    var t := Step(s, Swap(i)).value;
    assert DeliveredOk(s, k) && s.lock == Some(i);
    PairsPrefix(s.log.hist, [s.setters[i].cur], s.log.since[k], Until(s.log, k));
    assert Pending(t) == {} && Pending(s) == {};
  }

  lemma CopyKeepsDelivery<V(!new)>(s: State<V>, i: nat, k: nat)
    requires Inv(s) && Step(s, Copy(i)).Some? && k in s.log.since
    ensures DeliveredOk(Step(s, Copy(i)).value, k)
  {
    var t := Step(s, Copy(i)).value;
    assert DeliveredOk(s, k) && s.lock == Some(i) && Uncopied(s);
    assert Pending(s) == {} && Pending(t) == s.reg.ids;
    assert t.log == s.log.(copies := s.log.copies + 1) && t.log.copies < |t.log.hist|;
    assert k in s.reg.ids <==> k !in s.log.until;
    assert Until(t.log, k) == (if k in s.log.until then Until(s.log, k) else t.log.copies);
  }

  /** The pair handed over in the critical section is the last publication. */
  lemma LastPublication<V(!new)>(s: State<V>, i: nat)
    requires LockInv(s) && HistInv(s) && i in s.setters && s.setters[i].pc.Notifying?
    ensures s.lock == Some(i) && 0 < s.log.copies == |s.log.publisher| < |s.log.hist|
    ensures s.setters[i].cur == s.log.hist[s.log.copies] && s.setters[i].pc.prev == s.log.hist[s.log.copies - 1]
  {
    assert SetterOk(s.log, i, s.setters[i]);
  }

  lemma BeginKeepsDelivery<V(!new)>(s: State<V>, i: nat, id: nat, k: nat)
    requires Inv(s) && Step(s, Begin(i, id)).Some? && k in s.log.since
    ensures DeliveredOk(Step(s, Begin(i, id)).value, k)
  {
    var t := Step(s, Begin(i, id)).value;
    LastPublication(s, i);
    assert DeliveredOk(s, k);
    assert Pending(t) == Pending(s) - {id} && id in Pending(s);
    assert t.log == s.log.(delivered := t.log.delivered);
    if k == id {
      assert t.log.delivered[k] == s.log.delivered[k] + [(s.setters[i].pc.prev, s.setters[i].cur)];
      assert Pairs(s.log.hist, s.log.since[k], s.log.copies)
          == Pairs(s.log.hist, s.log.since[k], s.log.copies - 1) + [(s.setters[i].pc.prev, s.setters[i].cur)];
    } else {
      assert t.log.delivered[k] == s.log.delivered[k];
    }
  }

  lemma StepKeepsPending<V(!new)>(s: State<V>, a: Action<V>)
    requires LockInv(s) && RegInv(s) && DeliveryInv(s) && Step(s, a).Some?
    ensures var t := Step(s, a).value; forall k :: k in Pending(t) ==> k < t.reg.next
  {
    var t := Step(s, a).value;
    if a.Copy? {
      assert Pending(t) == s.reg.ids;
    } else if a.Begin? {
      assert Pending(t) <= Pending(s);
    } else if a.Swap? {
      assert Pending(t) == {};
    } else {
      OthersKeepPending(s, a);
    }
  }

  lemma StepKeepsRunning<V(!new)>(s: State<V>, a: Action<V>)
    requires LockInv(s) && RunningInv(s) && Step(s, a).Some?
    ensures RunningInv(Step(s, a).value)
  {
  }

  lemma StepKeeps<V(!new)>(s: State<V>, a: Action<V>)
    requires Inv(s) && Step(s, a).Some?
    ensures Inv(Step(s, a).value)
  {
    StepKeepsLock(s, a);
    StepKeepsHist(s, a);
    StepKeepsBy(s, a);
    StepKeepsReg(s, a);
    var t := Step(s, a).value;
    forall k | k in t.log.since && k in t.log.delivered ensures DeliveredOk(t, k) {
      StepKeepsDelivery(s, a, k);
    }
    StepKeepsPending(s, a);
    StepKeepsRunning(s, a);
  }

  lemma {:induction false} Reachable<V(!new)>(initial: V, states: seq<State<V>>, acts: seq<Action<V>>, n: nat)
    requires IsRun(initial, states, acts) && n < |states|
    ensures Inv(states[n])
  {
    if 0 < n {
      Reachable(initial, states, acts, n - 1);
      assert Step(states[n - 1], acts[n - 1]) == Some(states[n - 1 + 1]);
      StepKeeps(states[n - 1], acts[n - 1]);
    }
  }
}
