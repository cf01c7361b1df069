/** Go error values as trees, with the searches of the standard errors package. */
module GoErrors {
  import opened Common

  /** A source location, as recorded by errinfo. */
  datatype Origin = Origin(file: string, line: int, function_: string)

  /**
   Errors created by different calls are told apart by id.  Wrap is fmt.Errorf with one %w,
   Joined is errors.Join, WithOrigin is errinfo's own layer, Text is a message without a cause.
   */
  datatype Err =
    | Leaf(id: nat)
    | Text(text: string)
    | Sentinel(id: nat, reason: string)
    | NoRows
    | PgError(id: nat, code: string)
    | Wrap(msg: string, inner: Err)
    | Joined(errs: seq<Err>)
    | WithOrigin(inner: Err, origin: Origin)

  /** errors.As: the first node in depth-first preorder with the given property. */
  function As(e: Err, p: Err -> bool): Option<Err> {
    if p(e) then Some(e)
    else
      match e
      case Wrap(_, inner) => As(inner, p)
      case WithOrigin(inner, _) => As(inner, p)
      case Joined(errs) => AsAny(errs, p)
      case _ => None
  }

  function AsAny(errs: seq<Err>, p: Err -> bool): Option<Err> {
    if errs == [] then None
    else
      var first := As(errs[0], p);
      if first.Some? then first else AsAny(errs[1..], p)
  }

  /** t is e itself or somewhere below it. */
  predicate Within(t: Err, e: Err) {
    || t == e
    || match e
       case Wrap(_, inner) => Within(t, inner)
       case WithOrigin(inner, _) => Within(t, inner)
       case Joined(errs) => exists i :: 0 <= i < |errs| && Within(t, errs[i])
       case _ => false
  }

  /** errors.Is for errors compared by identity. */
  predicate Is(e: Err, target: Err) {
    Within(target, e)
  }

  /** The search is sound and complete: it finds a node with the property iff there is one. */
  lemma {:induction false} AsSearches(e: Err, p: Err -> bool)
    ensures As(e, p).Some? ==> p(As(e, p).value) && Within(As(e, p).value, e)
    ensures As(e, p).None? ==> forall t :: Within(t, e) ==> !p(t)
  {
    if !p(e) {
      match e
      case Wrap(_, inner) => AsSearches(inner, p);
      case WithOrigin(inner, _) => AsSearches(inner, p);
      case Joined(errs) => AsAnySearches(errs, p);
      case _ =>
    }
  }

  lemma {:induction false} AsAnySearches(errs: seq<Err>, p: Err -> bool)
    ensures AsAny(errs, p).Some? ==>
              p(AsAny(errs, p).value) && exists i :: 0 <= i < |errs| && Within(AsAny(errs, p).value, errs[i])
    ensures AsAny(errs, p).None? ==>
              forall t, i :: 0 <= i < |errs| && Within(t, errs[i]) ==> !p(t)
  {
    if errs != [] {
      AsSearches(errs[0], p);
      if As(errs[0], p).None? {
        AsAnySearches(errs[1..], p);
        forall t, i | 0 <= i < |errs| && Within(t, errs[i]) ensures AsAny(errs, p).None? ==> !p(t) {
          if 0 < i { assert errs[1..][i - 1] == errs[i]; }
        }
        if AsAny(errs[1..], p).Some? {
          var i :| 0 <= i < |errs[1..]| && Within(AsAny(errs[1..], p).value, errs[1..][i]);
          assert Within(AsAny(errs, p).value, errs[i + 1]);
        }
      }
    }
  }

  /** The outermost node wins, and below a join the first branch that has one. */
  lemma AsPrefersEarlier(errs: seq<Err>, i: nat, msg: string, origin: Origin, e: Err, p: Err -> bool)
    requires i < |errs| && As(errs[i], p).Some? && forall j :: 0 <= j < i ==> As(errs[j], p).None?
    ensures p(e) ==> As(e, p) == Some(e)
    ensures !p(Joined(errs)) ==> As(Joined(errs), p) == As(errs[i], p)
    ensures !p(Wrap(msg, e)) ==> As(Wrap(msg, e), p) == As(e, p)
    ensures !p(WithOrigin(e, origin)) ==> As(WithOrigin(e, origin), p) == As(e, p)
  {
    AsAnySkips(errs, i, p);
  }

  lemma {:induction false} AsAnySkips(errs: seq<Err>, i: nat, p: Err -> bool)
    requires i < |errs| && As(errs[i], p).Some? && forall j :: 0 <= j < i ==> As(errs[j], p).None?
    ensures AsAny(errs, p) == As(errs[i], p)
  {
    if 0 < i {
      assert errs[1..][i - 1] == errs[i];
      AsAnySkips(errs[1..], i - 1, p);
    }
  }

  lemma {:induction false} WithinTransitive(a: Err, b: Err, c: Err)
    requires Within(a, b) && Within(b, c)
    ensures Within(a, c)
    decreases c
  {
    if b != c {
      match c
      case Wrap(_, inner) => WithinTransitive(a, b, inner);
      case WithOrigin(inner, _) => WithinTransitive(a, b, inner);
      case Joined(errs) =>
        var i :| 0 <= i < |errs| && Within(b, errs[i]);
        WithinTransitive(a, b, errs[i]);
    }
  }

  /** errors.Join: nil when every argument is nil, otherwise the others in order. */
  function Join(a: Option<Err>, b: Option<Err>): (r: Option<Err>)
    ensures r.None? <==> a.None? && b.None?
    ensures a.Some? ==> Is(r.value, a.value)
    ensures b.Some? ==> Is(r.value, b.value)
    ensures a.Some? && b.Some? ==> r == Some(Joined([a.value, b.value]))
  {
    var errs := (if a.Some? then [a.value] else []) + (if b.Some? then [b.value] else []);
    assert a.Some? ==> errs[0] == a.value;
    assert b.Some? ==> errs[|errs| - 1] == b.value;
    assert a.Some? && b.Some? ==> errs == [a.value, b.value];
    if errs == [] then None else Some(Joined(errs))
  }
}
