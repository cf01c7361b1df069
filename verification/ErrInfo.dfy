/** Provenance on error chains (errinfo/errinfo.go). */
module ErrInfo {
  import opened Common
  import opened GoErrors

  const UNSPECIFIED := "UNSPECIFIED"

  predicate IsOrigin(e: Err) { e.WithOrigin? }

  predicate IsSentinel(e: Err) { e.Sentinel? }

  function ReasonOf(e: Err): string {
    match As(e, IsSentinel)
    case Some(s) => if s.Sentinel? then s.reason else UNSPECIFIED
    case None => UNSPECIFIED
  }

  function OriginOf(e: Err): Option<Origin> {
    match As(e, IsOrigin)
    case Some(o) => if o.WithOrigin? then Some(o.origin) else None
    case None => None
  }

  /** HereSkip; site is the caller's location, or None when the runtime cannot tell it. */
  function Here(err: Option<Err>, site: Option<Origin>): Option<Err> {
    if err.None? then None
    else if As(err.value, IsOrigin).Some? then err
    else if site.None? then err
    else Some(WithOrigin(err.value, site.value))
  }

  /** The number of origin layers in a tree. */
  function Origins(e: Err): nat {
    match e
    case WithOrigin(inner, _) => 1 + Origins(inner)
    case Wrap(_, inner) => Origins(inner)
    case Joined(errs) => OriginsOfAll(errs)
    case _ => 0
  }

  function OriginsOfAll(errs: seq<Err>): nat {
    if errs == [] then 0 else Origins(errs[0]) + OriginsOfAll(errs[1..])
  }

  /** The search for an origin fails exactly on trees without one. */
  lemma {:induction false} NoOriginIffNone(e: Err)
    ensures As(e, IsOrigin).None? <==> Origins(e) == 0
  {
    match e
    case Wrap(_, inner) => NoOriginIffNone(inner);
    case WithOrigin(inner, _) =>
    case Joined(errs) => NoOriginsIffNone(errs);
    case _ =>
  }

  lemma {:induction false} NoOriginsIffNone(errs: seq<Err>)
    ensures AsAny(errs, IsOrigin).None? <==> OriginsOfAll(errs) == 0
  {
    if errs != [] {
      NoOriginIffNone(errs[0]);
      NoOriginsIffNone(errs[1..]);
    }
  }

  /** OriginOf answers from a layer that is really there, and only fails when there is none. */
  lemma OriginOfFinds(e: Err)
    ensures OriginOf(e).None? <==> Origins(e) == 0
    ensures OriginOf(e).Some? ==> exists inner :: Within(WithOrigin(inner, OriginOf(e).value), e)
  {
    NoOriginIffNone(e);
    AsSearches(e, IsOrigin);
    if As(e, IsOrigin).Some? {
      var o := As(e, IsOrigin).value;
      assert WithOrigin(o.inner, o.origin) == o;
    }
  }

  /** The reason is that of the sentinel found first; errors without one have none. */
  lemma ReasonOfFinds(e: Err)
    ensures if exists t :: Within(t, e) && t.Sentinel?
            then exists t :: Within(t, e) && t.Sentinel? && As(e, IsSentinel) == Some(t) && ReasonOf(e) == t.reason
            else ReasonOf(e) == "UNSPECIFIED"
  {
    AsSearches(e, IsSentinel);
  }

  /** A sentinel states its reason, however deep it is wrapped, and in a join the first branch that has one does. */
  lemma ReasonOfOuter(e: Err, id: nat, reason: string, msg: string, errs: seq<Err>, i: nat)
    requires i < |errs| && As(errs[i], IsSentinel).Some?
    requires forall j :: 0 <= j < i ==> As(errs[j], IsSentinel).None?
    ensures ReasonOf(Sentinel(id, reason)) == reason
    ensures ReasonOf(Wrap(msg, e)) == ReasonOf(e)
    ensures ReasonOf(Joined(errs)) == ReasonOf(errs[i])
  {
    AsAnySkips(errs, i, IsSentinel);
  }

  /** The origin is that of the outermost layer, and in a join of the first branch that has one. */
  lemma OriginOfOuter(e: Err, origin: Origin, msg: string, errs: seq<Err>, i: nat)
    requires i < |errs| && As(errs[i], IsOrigin).Some? && forall j :: 0 <= j < i ==> As(errs[j], IsOrigin).None?
    ensures OriginOf(WithOrigin(e, origin)) == Some(origin)
    ensures OriginOf(Wrap(msg, e)) == OriginOf(e)
    ensures OriginOf(Joined(errs)) == OriginOf(errs[i])
  {
    AsAnySkips(errs, i, IsOrigin);
  }

  /** Here, on any tree: at most one layer is added, and none when one exists anywhere. */
  lemma HereAddsOneAtMost(e: Err, site: Origin)
    ensures var h := Here(Some(e), Some(site)).value;
            && Origins(h) == (if Origins(e) == 0 then 1 else Origins(e))
            && h == (if Origins(e) == 0 then WithOrigin(e, site) else e)
            && OriginOf(h) == (if Origins(e) == 0 then Some(site) else OriginOf(e))
            && Here(Some(h), Some(site)) == Some(h)
    // Without an error, or where the caller is unknown, nothing changes.
    ensures Here(None, Some(site)).None? && Here(Some(e), None) == Some(e)
  {
    NoOriginIffNone(e);
    OriginOfFinds(e);
  }

  /** Here changes neither the reason nor what errors.Is finds, except for the new layer itself. */
  lemma HereIsTransparent(e: Err, site: Option<Origin>, t: Err)
    ensures var h := Here(Some(e), site).value;
            && ReasonOf(h) == ReasonOf(e)
            && (Is(h, t) <==> Is(e, t) || t == h)
  {
  }

  datatype Op = WrapWith(msg: string) | HereAt(site: Origin)

  /** An error on its way up through callers that wrap it or record their location. */
  function Passed(e: Err, ops: seq<Op>): Err {
    if ops == [] then e
    else
      var below := Passed(e, ops[..|ops| - 1]);
      match ops[|ops| - 1]
      case WrapWith(msg) => Wrap(msg, below)
      case HereAt(site) => Here(Some(below), Some(site)).value
  }

  /** The location recorded first. */
  function FirstSite(ops: seq<Op>): Option<Origin> {
    if ops == [] then None
    else if ops[0].HereAt? then Some(ops[0].site)
    else FirstSite(ops[1..])
  }

  lemma {:induction false} FirstSiteOfPrefix(ops: seq<Op>)
    requires ops != []
    ensures var before := FirstSite(ops[..|ops| - 1]);
            FirstSite(ops) == if before.Some? then before
                              else if ops[|ops| - 1].HereAt? then Some(ops[|ops| - 1].site) else None
  {
    if |ops| > 1 {
      assert ops[1..][..|ops| - 2] == ops[..|ops| - 1][1..];
      FirstSiteOfPrefix(ops[1..]);
    }
  }

  /**
   Along any sequence of single-cause wraps and Here calls at most one layer is added to an
   error, the origin is the one it came with or else the first recorded, and the reason and
   every error below stay what they were.
   */
  lemma {:induction false} InnermostOriginWins(e: Err, ops: seq<Op>)
    ensures var r := Passed(e, ops);
            && Origins(r) == (if Origins(e) == 0 && FirstSite(ops).Some? then 1 else Origins(e))
            && OriginOf(r) == (if OriginOf(e).Some? then OriginOf(e) else FirstSite(ops))
            && ReasonOf(r) == ReasonOf(e)
            && Is(r, e)
  {
    if ops == [] {
      OriginOfFinds(e);
    } else {
      var before := ops[..|ops| - 1];
      InnermostOriginWins(e, before);
      FirstSiteOfPrefix(ops);
      OriginOfFinds(e);
      match ops[|ops| - 1]
      case WrapWith(msg) =>
      case HereAt(site) =>
        HereAddsOneAtMost(Passed(e, before), site);
        HereIsTransparent(Passed(e, before), Some(site), e);
    }
  }
}
