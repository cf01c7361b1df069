/**
 The life of a hot-swappable pool or client (pgpool/pgpool.go, redisclient/redisclient.go) as a
 state machine over values: start, pushes of new options, drain timers, stop.  Resources are
 numbered in the order they are created; builds succeed or fail as the environment decides.
 */
module HotResource {
  import opened Common

  const DRAIN_TIMEOUT := 30 * SECOND

  /** Which of the two packages: they differ in how a build proceeds and in how options compare. */
  datatype Kind = Postgres | Redis

  /** canon brings equivalent options to one form; a rebuild is needed when the canonical forms differ. */
  datatype Rules<!O> = Rules(kind: Kind, canon: O -> O)

  ghost predicate Same<O>(rules: Rules<O>, a: O, b: O) {
    rules.canon(a) == rules.canon(b)
  }

  /** Why a build fails: before anything is created, or at the ping. */
  datatype Outcome = BadOptions | Unreachable | Reachable

  /**
   Everything ever created, by the options it was created with; resources are numbered in that
   order.  closes lists the calls of Close.
   */
  datatype Ledger<O> = Ledger(options: seq<O>, closes: seq<nat>) {
    const created: nat := |options|
  }

  datatype Built<O> = Built(ledger: Ledger<O>, id: Option<nat>)

  /** Postgres pings the new pool and closes it on failure; Redis pings through a probe client. */
  function Build<O>(kind: Kind, l: Ledger<O>, o: O, outcome: Outcome): Built<O> {
    match (kind, outcome)
    case (_, BadOptions) => Built(l, None)
    case (_, Unreachable) => Built(Ledger(l.options + [o], l.closes + [l.created]), None)
    case (Postgres, Reachable) => Built(Ledger(l.options + [o], l.closes), Some(l.created))
    case (Redis, Reachable) => Built(Ledger(l.options + [o, o], l.closes + [l.created]), Some(l.created + 1))
  }

  datatype Timer = Timer(id: nat, due: int)

  /** wanted is what the latest snapshot projects to. */
  datatype State<O> = State(
    applied: O,
    current: nat,
    stale: Option<Outcome>,
    wanted: O,
    stopped: bool,
    timers: seq<Timer>,
    ledger: Ledger<O>,
    now: int)

  datatype Event<O> = Push(next: O, outcome: Outcome) | Advance(dt: nat) | Fire(index: nat) | Stop

  /** Construction; registered says whether the stats and the gauge could be registered. */
  function Start<O>(rules: Rules<O>, conf: O, outcome: Outcome, registered: bool, l: Ledger<O>, now: int)
    : (Ledger<O>, Option<State<O>>)
  {
    var b := Build(rules.kind, l, conf, outcome);
    match b.id
    case None => (b.ledger, None)
    case Some(id) =>
      if !registered then (Closed(b.ledger, id), None)
      else (b.ledger, Some(State(conf, id, None, conf, false, [], b.ledger, now)))
  }

  ghost function OnPush<O>(rules: Rules<O>, s: State<O>, next: O, outcome: Outcome): State<O> {
    if Same(rules, next, s.applied) then s.(stale := None, wanted := next)
    else
      var b := Build(rules.kind, s.ledger, next, outcome);
      match b.id
      case None => s.(stale := Some(outcome), wanted := next, ledger := b.ledger)
      case Some(id) =>
        s.(applied := next, current := id, stale := None, wanted := next, ledger := b.ledger,
           timers := s.timers + [Timer(s.current, s.now + DRAIN_TIMEOUT)])
  }

  function Closed<O>(l: Ledger<O>, id: nat): Ledger<O> {
    l.(closes := l.closes + [id])
  }

  /** A push may come after the stop: unsubscribing does not recall a callback that is already copied. */
  ghost function Step<O>(rules: Rules<O>, s: State<O>, e: Event<O>): Option<State<O>> {
    match e
    case Push(next, outcome) => Some(OnPush(rules, s, next, outcome))
    case Advance(dt) => Some(s.(now := s.now + dt))
    case Fire(i) =>
      if i >= |s.timers| || s.now < s.timers[i].due then None
      else Some(s.(timers := s.timers[..i] + s.timers[i + 1..], ledger := Closed(s.ledger, s.timers[i].id)))
    case Stop =>
      if s.stopped then None else Some(s.(stopped := true, ledger := Closed(s.ledger, s.current)))
  }

  ghost function Run<O>(rules: Rules<O>, s: State<O>, events: seq<Event<O>>): Option<State<O>> {
    if events == [] then Some(s)
    else
      match Run(rules, s, events[..|events| - 1])
      case None => None
      case Some(t) => Step(rules, t, events[|events| - 1])
  }

  /** A push that replaces the visible resource: other options, and a build that succeeds. */
  ghost predicate Rebuilds<O>(rules: Rules<O>, s: State<O>, e: Event<O>) {
    e.Push? && !Same(rules, e.next, s.applied) && e.outcome == Reachable
  }

  /** No rebuild comes after the stop. */
  ghost predicate NoLateRebuild<O>(rules: Rules<O>, s: State<O>, events: seq<Event<O>>)
    requires Run(rules, s, events).Some?
  {
    events != [] ==>
      var before := events[..|events| - 1];
      var u := Run(rules, s, before).value;
      NoLateRebuild(rules, s, before) && !(u.stopped && Rebuilds(rules, u, events[|events| - 1]))
  }

  // ---------------------------------------------------------------- invariant

  predicate Draining<O>(s: State<O>, id: nat) {
    exists i :: 0 <= i < |s.timers| && s.timers[i].id == id
  }

  ghost predicate NoDuplicates(ids: seq<nat>) {
    forall i, j :: 0 <= i < j < |ids| ==> ids[i] != ids[j]
  }

  /** Nothing is closed twice, and everything in the ledger was created. */
  ghost predicate LedgerOk<O>(l: Ledger<O>) {
    NoDuplicates(l.closes) && forall i :: 0 <= i < |l.closes| ==> l.closes[i] < l.created
  }

  /** The resources waiting for their drain timer: distinct, still open, not the current one. */
  ghost predicate TimersOk<O>(s: State<O>) {
    && (forall i, j :: 0 <= i < j < |s.timers| ==> s.timers[i].id != s.timers[j].id)
    && (forall i :: 0 <= i < |s.timers| ==>
          && s.timers[i].id < s.ledger.created && s.timers[i].id !in s.ledger.closes
          && s.timers[i].id != s.current)
  }

  /** Each resource is exactly one of current, draining and closed (current counts until the stop). */
  ghost predicate Conserved<O>(s: State<O>) {
    && LedgerOk(s.ledger) && TimersOk(s)
    && s.current < s.ledger.created
    && (s.current in s.ledger.closes <==> s.stopped)
    && forall id: nat :: id < s.ledger.created ==> id == s.current || Draining(s, id) || id in s.ledger.closes
  }

  /** The visible resource is built from applied, and staleness says exactly that wanted is not applied. */
  ghost predicate Truthful<O>(rules: Rules<O>, s: State<O>) {
    && s.current < s.ledger.created && s.ledger.options[s.current] == s.applied
    && (s.stale.None? <==> Same(rules, s.wanted, s.applied))
  }

  ghost predicate Inv<O>(rules: Rules<O>, s: State<O>) {
    Conserved(s) && Truthful(rules, s)
  }

  /** A build adds only fresh resources, and leaves open only the one it returns. */
  lemma BuildKeeps<O>(kind: Kind, l: Ledger<O>, o: O, outcome: Outcome)
    requires LedgerOk(l)
    ensures var b := Build(kind, l, o, outcome);
            && LedgerOk(b.ledger) && l.options <= b.ledger.options && l.closes <= b.ledger.closes
            && (forall id :: l.created <= id < b.ledger.created ==> b.ledger.options[id] == o)
            && (b.id.Some? <==> outcome == Reachable)
            && (b.id.Some? ==> l.created <= b.id.value < b.ledger.created && b.id.value !in b.ledger.closes)
            && (forall i :: |l.closes| <= i < |b.ledger.closes| ==> l.created <= b.ledger.closes[i])
            && (forall id: nat :: l.created <= id < b.ledger.created ==> b.id == Some(id) || id in b.ledger.closes)
  {
    var b := Build(kind, l, o, outcome);
    if b.ledger.closes != l.closes {
      assert b.ledger.closes[|l.closes|] == l.created;
    }
  }

  /** A failed construction closes whatever it created; a successful one starts in a good state. */
  lemma StartKeeps<O>(rules: Rules<O>, conf: O, outcome: Outcome, registered: bool, l: Ledger<O>, now: int)
    requires LedgerOk(l)
    ensures var (m, s) := Start(rules, conf, outcome, registered, l, now);
            && LedgerOk(m) && l.closes <= m.closes
            && (s.Some? <==> outcome == Reachable && registered)
            && (s.None? ==> forall id: nat :: l.created <= id < m.created ==> id in m.closes)
            && (s.Some? ==> Truthful(rules, s.value) && s.value.ledger == m && s.value.current !in m.closes
                            && forall id: nat :: l.created <= id < m.created ==>
                                 id == s.value.current || id in m.closes)
  {
    BuildKeeps(rules.kind, l, conf, outcome);
    var b := Build(rules.kind, l, conf, outcome);
    if b.id.Some? && !registered {
      var closes := b.ledger.closes + [b.id.value];
      assert closes[|b.ledger.closes|] == b.id.value;
      assert forall id :: id in b.ledger.closes ==> id in closes;
    }
  }

  ghost predicate AllClosed<O>(l: Ledger<O>) {
    forall id: nat :: id < l.created ==> id in l.closes
  }

  /** Starting over a ledger with nothing open: either the holder is in a good state, or nothing is open again. */
  lemma CleanStart<O>(rules: Rules<O>, conf: O, outcome: Outcome, registered: bool, l: Ledger<O>, now: int)
    requires LedgerOk(l) && AllClosed(l)
    ensures var (m, s) := Start(rules, conf, outcome, registered, l, now);
            if s.Some? then Inv(rules, s.value) else LedgerOk(m) && AllClosed(m)
  {
    StartKeeps(rules, conf, outcome, registered, l, now);
    var (m, s) := Start(rules, conf, outcome, registered, l, now);
    forall id | id in l.closes ensures id in m.closes {
      var i :| 0 <= i < |l.closes| && l.closes[i] == id;
      assert m.closes[i] == id;
    }
  }

  lemma AppendClose<O>(l: Ledger<O>, id: nat)
    requires LedgerOk(l) && id < l.created && id !in l.closes
    ensures LedgerOk(Closed(l, id))
    ensures forall x :: x in Closed(l, id).closes <==> x in l.closes || x == id
  {
    var closes := Closed(l, id).closes;
    assert closes[|l.closes|] == id;
    forall x | x in l.closes ensures x in closes {
      var i :| 0 <= i < |l.closes| && l.closes[i] == x;
      assert closes[i] == x;
    }
  }

  /** What a build appends to the closes is new, so old entries and non-entries stay. */
  lemma OnlyNewCloses<O>(l: Ledger<O>, m: Ledger<O>)
    requires l.closes <= m.closes
    requires forall i :: |l.closes| <= i < |m.closes| ==> l.created <= m.closes[i]
    ensures forall id :: id in l.closes ==> id in m.closes
    ensures forall id :: id in m.closes && id < l.created ==> id in l.closes
  {
    forall id | id in m.closes && id < l.created ensures id in l.closes {
      var i :| 0 <= i < |m.closes| && m.closes[i] == id;
      assert i < |l.closes| && l.closes[i] == id;
    }
    forall id | id in l.closes ensures id in m.closes {
      var i :| 0 <= i < |l.closes| && l.closes[i] == id;
      assert m.closes[i] == id;
    }
  }

  /** What was visible or draining before a push is visible or draining after it. */
  lemma PushKeepsDraining<O>(rules: Rules<O>, s: State<O>, next: O, outcome: Outcome, id: nat)
    requires id == s.current || Draining(s, id)
    ensures var t := OnPush(rules, s, next, outcome); id == t.current || Draining(t, id)
  {
    var t := OnPush(rules, s, next, outcome);
    if Draining(s, id) {
      var i :| 0 <= i < |s.timers| && s.timers[i].id == id;
      assert t.timers[i].id == id;
    } else if t.timers != s.timers {
      assert t.timers[|s.timers|].id == s.current;
    }
  }

  lemma PushKeeps<O>(rules: Rules<O>, s: State<O>, next: O, outcome: Outcome)
    requires Inv(rules, s) && !(s.stopped && Rebuilds(rules, s, Push(next, outcome)))
    ensures Inv(rules, OnPush(rules, s, next, outcome))
  {
    var t := OnPush(rules, s, next, outcome);
    var b := Build(rules.kind, s.ledger, next, outcome);
    BuildKeeps(rules.kind, s.ledger, next, outcome);
    OnlyNewCloses(s.ledger, b.ledger);
    forall id: nat | id < t.ledger.created
      ensures id == t.current || Draining(t, id) || id in t.ledger.closes
    {
      if id == s.current || Draining(s, id) {
        PushKeepsDraining(rules, s, next, outcome, id);
      }
    }
  }

  /** The timers other than the fired one, before and after. */
  lemma FireRemovesOne<O>(rules: Rules<O>, s: State<O>, n: nat)
    requires TimersOk(s) && Step(rules, s, Fire(n)).Some?
    ensures var t := Step(rules, s, Fire(n)).value;
            && |t.timers| == |s.timers| - 1
            && (forall i :: 0 <= i < |t.timers| ==> t.timers[i] == s.timers[if i < n then i else i + 1])
            && (forall id :: Draining(s, id) && id != s.timers[n].id ==> Draining(t, id))
  {
    var t := Step(rules, s, Fire(n)).value;
    forall id | Draining(s, id) && id != s.timers[n].id ensures Draining(t, id) {
      var i :| 0 <= i < |s.timers| && s.timers[i].id == id;
      assert t.timers[if i < n then i else i - 1].id == id;
    }
  }

  lemma FireKeeps<O>(rules: Rules<O>, s: State<O>, n: nat)
    requires Inv(rules, s) && Step(rules, s, Fire(n)).Some?
    ensures Inv(rules, Step(rules, s, Fire(n)).value)
  {
    AppendClose(s.ledger, s.timers[n].id);
    FireRemovesOne(rules, s, n);
  }

  lemma StopKeeps<O>(rules: Rules<O>, s: State<O>)
    requires Inv(rules, s) && !s.stopped
    ensures Inv(rules, Step(rules, s, Stop).value)
  {
    var t := Step(rules, s, Stop).value;
    AppendClose(s.ledger, s.current);
    forall id: nat | id < t.ledger.created && Draining(s, id) ensures Draining(t, id) {
      var i :| 0 <= i < |s.timers| && s.timers[i].id == id;
      assert t.timers[i].id == id;
    }
  }

  lemma StepKeeps<O>(rules: Rules<O>, s: State<O>, e: Event<O>)
    requires Inv(rules, s) && Step(rules, s, e).Some? && !(s.stopped && Rebuilds(rules, s, e))
    ensures Inv(rules, Step(rules, s, e).value)
  {
    match e
    case Push(next, outcome) => PushKeeps(rules, s, next, outcome);
    case Advance(dt) =>
      var t := Step(rules, s, e).value;
      forall id: nat | Draining(s, id) ensures Draining(t, id) {
        var i :| 0 <= i < |s.timers| && s.timers[i].id == id;
        assert t.timers[i].id == id;
      }
    case Fire(i) => FireKeeps(rules, s, i);
    case Stop => StopKeeps(rules, s);
  }

  // ---------------------------------------------------------------- what a push achieves

  /** A push of options like those in use clears the report and does nothing else. */
  lemma SameOptionsClear<O>(rules: Rules<O>, s: State<O>, next: O, outcome: Outcome)
    requires Same(rules, next, s.applied)
    ensures OnPush(rules, s, next, outcome) == s.(stale := None, wanted := next)
  {
  }

  /**
   A push of other options takes effect exactly when its build succeeds: the new resource, built
   with them, becomes visible, and the old one is closed when the drain timeout is over.
   Otherwise all stays in use as it was, and the reason is reported.
   */
  lemma PushTakesEffect<O>(rules: Rules<O>, s: State<O>, next: O, outcome: Outcome)
    requires LedgerOk(s.ledger) && !Same(rules, next, s.applied)
    ensures var t := OnPush(rules, s, next, outcome);
            && t.wanted == next && t.stopped == s.stopped && t.now == s.now
            && if outcome == Reachable then
                 && t.applied == next && t.stale.None?
                 && s.ledger.created <= t.current < t.ledger.created && t.current !in t.ledger.closes
                 && t.ledger.options[t.current] == next
                 && t.timers == s.timers + [Timer(s.current, s.now + 30_000_000_000)]
               else
                 && t.applied == s.applied && t.current == s.current && t.timers == s.timers
                 && t.stale == Some(outcome)
  {
    BuildKeeps(rules.kind, s.ledger, next, outcome);
  }

  // ---------------------------------------------------------------- after a late rebuild

  /** The holder has been stopped, and yet its visible resource is open: nobody will close it. */
  ghost predicate Leaking<O>(s: State<O>) {
    && s.stopped && s.current < s.ledger.created && s.current !in s.ledger.closes
    && (forall i :: 0 <= i < |s.timers| ==> s.timers[i].id < s.ledger.created && s.timers[i].id != s.current)
    && forall i :: 0 <= i < |s.ledger.closes| ==> s.ledger.closes[i] < s.ledger.created
  }

  lemma RebuildLeaks<O>(rules: Rules<O>, s: State<O>, e: Event<O>)
    requires s.stopped && Rebuilds(rules, s, e) && (Conserved(s) || Leaking(s))
    ensures Leaking(Step(rules, s, e).value)
  {
  }

  /** Later events do not help: another rebuild only moves the leak on to the newest resource. */
  lemma LeakStays<O>(rules: Rules<O>, s: State<O>, e: Event<O>)
    requires Leaking(s) && Step(rules, s, e).Some?
    ensures Leaking(Step(rules, s, e).value)
  {
    var t := Step(rules, s, e).value;
    match e
    case Push(next, outcome) =>
    case Advance(dt) =>
    case Fire(n) =>
      assert forall i :: 0 <= i < |t.timers| ==> t.timers[i] == s.timers[if i < n then i else i + 1];
    case Stop =>
  }

  lemma TruthStays<O>(rules: Rules<O>, s: State<O>, e: Event<O>)
    requires Truthful(rules, s) && Step(rules, s, e).Some?
    ensures Truthful(rules, Step(rules, s, e).value)
  {
  }

  // ---------------------------------------------------------------- whole runs

  lemma {:induction false} RunOutcome<O>(rules: Rules<O>, s: State<O>, events: seq<Event<O>>)
    requires Inv(rules, s) && Run(rules, s, events).Some?
    ensures var t := Run(rules, s, events).value;
            Truthful(rules, t) && if NoLateRebuild(rules, s, events) then Conserved(t) else Leaking(t)
  {
    if events != [] {
      var before, last := events[..|events| - 1], events[|events| - 1];
      RunOutcome(rules, s, before);
      var u := Run(rules, s, before).value;
      TruthStays(rules, u, last);
      if u.stopped && Rebuilds(rules, u, last) {
        RebuildLeaks(rules, u, last);
      } else if NoLateRebuild(rules, s, before) {
        StepKeeps(rules, u, last);
      } else {
        LeakStays(rules, u, last);
      }
    }
  }

  /**
   After any pushes, build outcomes, timers and stop: the visible resource is the one built from
   applied, and staleness is reported exactly when the latest snapshot's options are not the
   applied ones.  Every resource is exactly one of current, draining and closed, nothing is
   closed twice, and the current one is open until the stop and closed after it, if and only if
   no rebuild comes after the stop.
   */
  lemma RunKeeps<O>(rules: Rules<O>, s: State<O>, events: seq<Event<O>>)
    requires Inv(rules, s) && Run(rules, s, events).Some?
    ensures Truthful(rules, Run(rules, s, events).value)
    ensures Conserved(Run(rules, s, events).value) <==> NoLateRebuild(rules, s, events)
  {
    RunOutcome(rules, s, events);
  }

  /** Before the stop there is no late rebuild. */
  lemma {:induction false} RunningKeeps<O>(rules: Rules<O>, s: State<O>, events: seq<Event<O>>)
    requires Inv(rules, s) && !s.stopped && Run(rules, s, events).Some? && Stop !in events
    ensures !Run(rules, s, events).value.stopped && NoLateRebuild(rules, s, events)
    ensures Inv(rules, Run(rules, s, events).value)
  {
    if events != [] {
      var before := events[..|events| - 1];
      assert events[|events| - 1] in events && forall e :: e in before ==> e in events;
      RunningKeeps(rules, s, before);
    }
    RunKeeps(rules, s, events);
  }

  /** An id not yet due at deadline: current, or draining until then or later. */
  ghost predicate OpenUntil<O>(s: State<O>, id: nat, deadline: int) {
    && id < s.ledger.created && id !in s.ledger.closes
    && forall i :: 0 <= i < |s.timers| && s.timers[i].id == id ==> deadline <= s.timers[i].due
  }

  lemma PushKeepsOpen<O>(rules: Rules<O>, s: State<O>, next: O, outcome: Outcome, id: nat, deadline: int)
    requires Inv(rules, s) && OpenUntil(s, id, deadline) && deadline <= s.now + DRAIN_TIMEOUT
    ensures OpenUntil(OnPush(rules, s, next, outcome), id, deadline)
  {
    BuildKeeps(rules.kind, s.ledger, next, outcome);
    OnlyNewCloses(s.ledger, Build(rules.kind, s.ledger, next, outcome).ledger);
  }

  lemma FireKeepsOpen<O>(rules: Rules<O>, s: State<O>, n: nat, id: nat, deadline: int)
    requires Inv(rules, s) && Step(rules, s, Fire(n)).Some?
    requires OpenUntil(s, id, deadline) && s.now < deadline
    ensures OpenUntil(Step(rules, s, Fire(n)).value, id, deadline)
  {
    AppendClose(s.ledger, s.timers[n].id);
    FireRemovesOne(rules, s, n);
  }

  lemma StepKeepsOpen<O>(rules: Rules<O>, s: State<O>, e: Event<O>, id: nat, deadline: int)
    requires Inv(rules, s) && Step(rules, s, e).Some? && e != Stop
    requires OpenUntil(s, id, deadline) && s.now < deadline && deadline <= s.now + DRAIN_TIMEOUT
    ensures OpenUntil(Step(rules, s, e).value, id, deadline)
  {
    if e.Push? {
      PushKeepsOpen(rules, s, e.next, e.outcome, id, deadline);
    } else if e.Fire? {
      FireKeepsOpen(rules, s, e.index, id, deadline);
    }
  }

  /** Time moves forward along a run. */
  lemma {:induction false} RunForward<O>(rules: Rules<O>, s: State<O>, events: seq<Event<O>>)
    requires Run(rules, s, events).Some?
    ensures s.now <= Run(rules, s, events).value.now
  {
    if events != [] {
      RunForward(rules, s, events[..|events| - 1]);
    }
  }

  /**
   An operation that loads the visible resource and finishes within the drain timeout of that
   load never runs on a closed one, over any number of swaps, as long as OnStop has not begun.
   */
  lemma {:induction false} OperationsAreSafe<O>(rules: Rules<O>, s: State<O>, events: seq<Event<O>>)
    requires Inv(rules, s) && !s.stopped && Run(rules, s, events).Some? && Stop !in events
    requires Run(rules, s, events).value.now < s.now + DRAIN_TIMEOUT
    ensures OpenUntil(Run(rules, s, events).value, s.current, s.now + DRAIN_TIMEOUT)
    ensures s.current !in Run(rules, s, events).value.ledger.closes
  {
    if events != [] {
      var before := events[..|events| - 1];
      var last := events[|events| - 1];
      assert last in events && forall e :: e in before ==> e in events;
      RunningKeeps(rules, s, before);
      RunForward(rules, s, before);
      var u := Run(rules, s, before).value;
      assert u.now <= Step(rules, u, last).value.now;
      OperationsAreSafe(rules, s, before);
      StepKeepsOpen(rules, u, last, s.current, s.now + DRAIN_TIMEOUT);
    }
  }

  /** A swap, a full drain timeout, and the timer of the swap. */
  lemma SwapThenDrain<O>(rules: Rules<O>, s: State<O>, next: O)
    requires !Same(rules, next, s.applied)
    ensures var s1 := OnPush(rules, s, next, Reachable);
            var s2 := s1.(now := s1.now + DRAIN_TIMEOUT);
            && Step(rules, s2, Fire(|s.timers|)).Some?
            && Run(rules, s, [Push(next, Reachable), Advance(DRAIN_TIMEOUT), Fire(|s.timers|)])
               == Step(rules, s2, Fire(|s.timers|))
            && s.ledger.closes <= s2.ledger.closes
            && Step(rules, s2, Fire(|s.timers|)).value.ledger == Closed(s2.ledger, s.current)
            && Step(rules, s2, Fire(|s.timers|)).value.current == s1.current
  {
    var e0, e1, e2 := Push(next, Reachable), Advance(DRAIN_TIMEOUT), Fire(|s.timers|);
    var s1 := OnPush(rules, s, next, Reachable);
    assert [e0, e1, e2][..2] == [e0, e1] && [e0, e1][..1] == [e0] && [e0][..0] == [];
    assert Run(rules, s, [e0]) == Some(s1);
    assert Run(rules, s, [e0, e1]) == Some(s1.(now := s1.now + DRAIN_TIMEOUT));
  }

  /** The bound is exact: one swap and a full drain timeout later the loaded resource can be closed. */
  lemma DrainBoundExact<O>(rules: Rules<O>, s: State<O>, next: O)
    requires Inv(rules, s) && !s.stopped && !Same(rules, next, s.applied)
    ensures var events := [Push(next, Reachable), Advance(DRAIN_TIMEOUT), Fire(|s.timers|)];
            && Run(rules, s, events).Some?
            && Run(rules, s, events).value.now == s.now + DRAIN_TIMEOUT
            && s.current in Run(rules, s, events).value.ledger.closes
  {
    SwapThenDrain(rules, s, next);
    var closes := Run(rules, s, [Push(next, Reachable), Advance(DRAIN_TIMEOUT), Fire(|s.timers|)]).value.ledger.closes;
    assert closes[|closes| - 1] == s.current;
  }

  /** Everything ever created is closed, each exactly once. */
  ghost predicate ClosedOnce<O>(l: Ledger<O>) {
    NoDuplicates(l.closes) && forall id: nat :: id < l.created <==> id in l.closes
  }

  lemma DrainedIsClosed<O>(s: State<O>)
    requires Conserved(s) && s.stopped && s.timers == []
    ensures ClosedOnce(s.ledger)
  {
    forall id: nat | id < s.ledger.created ensures id in s.ledger.closes {
      assert id == s.current || Draining(s, id) || id in s.ledger.closes;
    }
  }

  /**
   After the stop and all drain timers, everything ever created is closed, each exactly once, if
   and only if no rebuild came after the stop.
   */
  lemma NothingLeftOpen<O>(rules: Rules<O>, s: State<O>, events: seq<Event<O>>)
    requires Inv(rules, s) && Run(rules, s, events).Some?
    requires Run(rules, s, events).value.stopped && Run(rules, s, events).value.timers == []
    ensures ClosedOnce(Run(rules, s, events).value.ledger) <==> NoLateRebuild(rules, s, events)
  {
    RunOutcome(rules, s, events);
    if NoLateRebuild(rules, s, events) {
      DrainedIsClosed(Run(rules, s, events).value);
    }
  }

  /** A rebuild right after the stop closes the old resource a second time and leaves the new one open. */
  lemma LateRebuildClosesTwice<O>(rules: Rules<O>, s: State<O>, next: O)
    requires Inv(rules, s) && s.stopped && !Same(rules, next, s.applied)
    ensures var events := [Push(next, Reachable), Advance(DRAIN_TIMEOUT), Fire(|s.timers|)];
            && Run(rules, s, events).Some?
            && var t := Run(rules, s, events).value;
            && !NoDuplicates(t.ledger.closes) && t.current !in t.ledger.closes
            && s.current in s.ledger.closes
            && t.ledger.closes[|t.ledger.closes| - 1] == s.current
  {
    SwapThenDrain(rules, s, next);
    RebuildLeaks(rules, s, Push(next, Reachable));
    var s1 := OnPush(rules, s, next, Reachable);
    var s2 := s1.(now := s1.now + DRAIN_TIMEOUT);
    LeakStays(rules, s1, Advance(DRAIN_TIMEOUT));
    LeakStays(rules, s2, Fire(|s.timers|));
    var closes := Run(rules, s, [Push(next, Reachable), Advance(DRAIN_TIMEOUT), Fire(|s.timers|)]).value.ledger.closes;
    var i :| 0 <= i < |s.ledger.closes| && s.ledger.closes[i] == s.current;
    assert i < |closes| - 1 && closes[i] == closes[|closes| - 1];
  }
}
