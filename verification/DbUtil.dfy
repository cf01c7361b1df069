/** The two database error mappers and WrapError (dbutil/handler.go). */
module DbUtil {
  import opened Common
  import opened GoErrors
  import opened ErrInfo

  /** Error values that may be nil are options; noRowsHandler may return nil too. */
  datatype Handler = Handler(
    errorMappings: map<string, Option<Err>>,
    noRowsError: Option<Err>,
    noRowsHandler: Option<Err -> Option<Err>>,
    enableLogging: bool,
    hasLogger: bool)

  datatype LogCall = LogCall(err: Err, pgErr: Option<Err>)

  /** What a mapper returns, and the logger calls it makes on the way. */
  datatype Mapped = Mapped(res: Option<Err>, handled: bool, logs: seq<LogCall>)

  predicate IsNoRows(e: Err) { e == NoRows }

  predicate IsPg(e: Err) { e.PgError? }

  function Log(h: Handler, err: Err, pgErr: Option<Err>): seq<LogCall> {
    if h.enableLogging && h.hasLogger then [LogCall(err, pgErr)] else []
  }

  function CodeOf(e: Err): (code: string)
    ensures e.PgError? ==> code == e.code
  {
    if e.PgError? then e.code else ""
  }

  /** The unexported handleError. */
  function HandleInner(h: Handler, err: Option<Err>, noRowsErr: seq<Option<Err>>): Mapped {
    if err.None? then Mapped(None, false, [])
    else if As(err.value, IsNoRows).Some? then
      var logs := Log(h, err.value, None);
      if 0 < |noRowsErr| && noRowsErr[0].Some? then Mapped(noRowsErr[0], true, logs)
      else if h.noRowsHandler.Some? then Mapped(h.noRowsHandler.value(err.value), true, logs)
      else if h.noRowsError.Some? then Mapped(h.noRowsError, true, logs)
      else Mapped(err, false, logs)
    else
      var pgErr := As(err.value, IsPg);
      if pgErr.None? then Mapped(err, false, Log(h, err.value, None))
      else
        var logs := Log(h, err.value, pgErr);
        var code := CodeOf(pgErr.value);
        if code in h.errorMappings then Mapped(h.errorMappings[code], true, logs)
        else Mapped(err, false, logs)
  }

  /** The unexported mustHandleError; message stands for its table of texts. */
  function MustHandleInner(
      h: Handler, message: Err -> string, err: Option<Err>, noRowsErr: seq<Option<Err>>): (Option<Err>, seq<LogCall>)
  {
    if err.None? then (None, [])
    else if As(err.value, IsNoRows).Some? then
      var logs := Log(h, err.value, None);
      if 0 < |noRowsErr| && noRowsErr[0].Some? then (noRowsErr[0], logs)
      else if h.noRowsHandler.Some? then (h.noRowsHandler.value(err.value), logs)
      else if h.noRowsError.Some? then (h.noRowsError, logs)
      else (Some(Text("not found")), logs)
    else
      var pgErr := As(err.value, IsPg);
      if pgErr.None? then (err, Log(h, err.value, None))
      else
        var logs := Log(h, err.value, pgErr);
        var code := CodeOf(pgErr.value);
        if code in h.errorMappings then (h.errorMappings[code], logs)
        else (Some(Text(message(pgErr.value))), logs)
  }

  function HandleError(h: Handler, err: Option<Err>, noRowsErr: seq<Option<Err>>, site: Option<Origin>): Mapped {
    var m := HandleInner(h, err, noRowsErr);
    m.(res := Here(m.res, site))
  }

  function MustHandleError(
      h: Handler, message: Err -> string, err: Option<Err>, noRowsErr: seq<Option<Err>>, site: Option<Origin>)
    : (Option<Err>, seq<LogCall>)
  {
    var (res, logs) := MustHandleInner(h, message, err, noRowsErr);
    (Here(res, site), logs)
  }

  /** fmt.Errorf with %w and a nil argument still makes an error, one without a cause. */
  function WrapMessage(msg: string, err: Option<Err>): Err {
    if err.Some? then Wrap(msg, err.value) else Text(msg + ": %!w(<nil>)")
  }

  function WrapError(h: Handler, err: Option<Err>, msg: string, site: Option<Origin>): Option<Err> {
    var m := HandleInner(h, err, []);
    if m.handled then Here(m.res, site) else Here(Some(WrapMessage(msg, err)), site)
  }

  // ---------------------------------------------------------------- which error comes back

  /**
   For a no-rows error the caller's own answer comes first, then the handler's callback, then its
   fixed error; without any of them HandleError hands back the error itself and MustHandleError
   says "not found".
   */
  lemma NoRowsAnswer(
      h: Handler, message: Err -> string, err: Err, noRowsErr: seq<Option<Err>>, site: Option<Origin>)
    requires Is(err, NoRows)
    ensures var m := HandleError(h, Some(err), noRowsErr, site);
            var (res, _) := MustHandleError(h, message, Some(err), noRowsErr, site);
            if 0 < |noRowsErr| && noRowsErr[0].Some? then m.handled && m.res == res == Here(noRowsErr[0], site)
            else if h.noRowsHandler.Some? then m.handled && m.res == res == Here(h.noRowsHandler.value(err), site)
            else if h.noRowsError.Some? then m.handled && m.res == res == Here(h.noRowsError, site)
            else !m.handled && m.res == Here(Some(err), site) && res == Here(Some(Text("not found")), site)
  {
    AsSearches(err, IsNoRows);
  }

  /** The mapped business error comes back from all three entry points, and can be found in the result. */
  lemma MappedAnswer(
      h: Handler, message: Err -> string, err: Err, noRowsErr: seq<Option<Err>>, msg: string, site: Option<Origin>)
    requires !Is(err, NoRows) && As(err, IsPg).Some?
    requires As(err, IsPg).value.PgError? && As(err, IsPg).value.code in h.errorMappings
    ensures var m := HandleError(h, Some(err), noRowsErr, site);
            var mapping := h.errorMappings[As(err, IsPg).value.code];
            && m.handled && m.res == Here(mapping, site)
            && MustHandleError(h, message, Some(err), noRowsErr, site).0 == m.res
            && WrapError(h, Some(err), msg, site) == m.res
            && (mapping.Some? <==> m.res.Some?) && (mapping.Some? ==> Is(m.res.value, mapping.value))
  {
    AsSearches(err, IsNoRows);
    var mapping := h.errorMappings[As(err, IsPg).value.code];
    if mapping.Some? {
      HereIsTransparent(mapping.value, site, mapping.value);
    }
  }

  /** Any other error: HandleError hands it back, WrapError wraps it, MustHandleError names PostgreSQL errors only. */
  lemma UnmappedAnswer(
      h: Handler, message: Err -> string, err: Err, noRowsErr: seq<Option<Err>>, msg: string, site: Option<Origin>)
    requires !Is(err, NoRows)
    requires As(err, IsPg).Some? ==> CodeOf(As(err, IsPg).value) !in h.errorMappings
    ensures var m := HandleError(h, Some(err), noRowsErr, site);
            && !m.handled && m.res == Here(Some(err), site) && m.res.Some? && Is(m.res.value, err)
    ensures MustHandleError(h, message, Some(err), noRowsErr, site).0
            == Here(if As(err, IsPg).Some? then Some(Text(message(As(err, IsPg).value))) else Some(err), site)
    ensures WrapError(h, Some(err), msg, site) == Here(Some(Wrap(msg, err)), site)
  {
    AsSearches(err, IsNoRows);
    HereIsTransparent(err, site, err);
  }

  /** Wrapping takes the same answers for no-rows errors, without one from the caller. */
  lemma WrapNoRowsAnswer(h: Handler, err: Err, msg: string, site: Option<Origin>)
    requires Is(err, NoRows)
    ensures WrapError(h, Some(err), msg, site)
            == if h.noRowsHandler.Some? then Here(h.noRowsHandler.value(err), site)
               else if h.noRowsError.Some? then Here(h.noRowsError, site)
               else Here(Some(Wrap(msg, err)), site)
  {
    AsSearches(err, IsNoRows);
  }

  /** nil is passed through unhandled and unlogged. */
  lemma NilAnswer(h: Handler, message: Err -> string, noRowsErr: seq<Option<Err>>, site: Option<Origin>)
    ensures HandleError(h, None, noRowsErr, site) == Mapped(None, false, [])
    ensures MustHandleError(h, message, None, noRowsErr, site) == (None, [])
  {
  }

  // ---------------------------------------------------------------- agreement

  /** Neither search of the mappers finds anything in err. */
  predicate Foreign(err: Err) {
    As(err, IsNoRows).None? && As(err, IsPg).None?
  }

  /** Whatever HandleError reports as handled, MustHandleError maps to the same error; both log the same calls. */
  lemma MappersAgree(
      h: Handler, message: Err -> string, err: Option<Err>, noRowsErr: seq<Option<Err>>, site: Option<Origin>)
    ensures var m := HandleError(h, err, noRowsErr, site);
            var (res, logs) := MustHandleError(h, message, err, noRowsErr, site);
            && logs == m.logs
            && (m.handled ==> res == m.res)
            && (err.Some? && Foreign(err.value) ==> !m.handled && res == m.res == Here(err, site))
  {
  }

  /** Apart from handled, nil and foreign errors the two always differ, so this is exactly where they agree. */
  lemma MappersAgreeExactly(
      h: Handler, message: Err -> string, err: Option<Err>, noRowsErr: seq<Option<Err>>, site: Option<Origin>)
    ensures var m := HandleError(h, err, noRowsErr, site);
            MustHandleError(h, message, err, noRowsErr, site).0 == m.res
            <==> m.handled || err.None? || Foreign(err.value)
  {
    var m := HandleError(h, err, noRowsErr, site);
    if !m.handled && err.Some? && !Foreign(err.value) {
      AsSearches(err.value, IsNoRows);
      AsSearches(err.value, IsPg);
      var cause := if As(err.value, IsNoRows).Some? then NoRows else As(err.value, IsPg).value;
      assert Within(cause, err.value);
      HereIsTransparent(err.value, site, cause);
      var other := MustHandleInner(h, message, err, noRowsErr).0.value;
      assert other.Text?;
      HereIsTransparent(other, site, cause);
      assert !Within(cause, Here(Some(other), site).value);
    }
  }

  /** At most one logger call, exactly one when logging is on and there is an error; it names what was found. */
  lemma LogsOnce(h: Handler, err: Option<Err>, noRowsErr: seq<Option<Err>>)
    ensures var logs := HandleInner(h, err, noRowsErr).logs;
            && |logs| == (if err.Some? && h.enableLogging && h.hasLogger then 1 else 0)
            && (logs != [] ==>
                  && logs[0].err == err.value
                  && (logs[0].pgErr.Some? <==>
                        As(err.value, IsNoRows).None? && exists t :: Within(t, err.value) && t.PgError?)
                  && (logs[0].pgErr.Some? ==> logs[0].pgErr.value.PgError? && Is(err.value, logs[0].pgErr.value)
                                              && logs[0].pgErr == As(err.value, IsPg)))
  {
    if err.Some? {
      AsSearches(err.value, IsPg);
    }
  }

  /** What handled means: a mapping was found for what the search found first. */
  lemma HandledIff(h: Handler, err: Option<Err>, noRowsErr: seq<Option<Err>>)
    ensures HandleInner(h, err, noRowsErr).handled
            <==> err.Some?
                 && if Is(err.value, NoRows)
                    then (0 < |noRowsErr| && noRowsErr[0].Some?) || h.noRowsHandler.Some? || h.noRowsError.Some?
                    else As(err.value, IsPg).Some? && CodeOf(As(err.value, IsPg).value) in h.errorMappings
  {
    if err.Some? {
      AsSearches(err.value, IsNoRows);
    }
  }

  /** Every non-nil result of the three entry points carries an origin. */
  lemma ResultsCarryOrigin(
      h: Handler, message: Err -> string, err: Option<Err>, noRowsErr: seq<Option<Err>>, msg: string, site: Origin)
    ensures var r := HandleError(h, err, noRowsErr, Some(site)).res; r.Some? ==> OriginOf(r.value).Some?
    ensures var r := MustHandleError(h, message, err, noRowsErr, Some(site)).0; r.Some? ==> OriginOf(r.value).Some?
    ensures var r := WrapError(h, err, msg, Some(site)); r.Some? ==> OriginOf(r.value).Some?
  {
    var a := HandleInner(h, err, noRowsErr).res;
    var b := MustHandleInner(h, message, err, noRowsErr).0;
    var c := HandleInner(h, err, []).res;
    if a.Some? { OriginPresent(a.value, site); }
    if b.Some? { OriginPresent(b.value, site); }
    if c.Some? { OriginPresent(c.value, site); }
    OriginPresent(WrapMessage(msg, err), site);
  }

  lemma OriginPresent(e: Err, site: Origin)
    ensures OriginOf(Here(Some(e), Some(site)).value).Some?
  {
    HereAddsOneAtMost(e, site);
    OriginOfFinds(e);
  }

  /** An unmapped error is not lost: it and everything below it stay reachable from the wrapped one. */
  lemma WrapKeepsCause(h: Handler, err: Err, msg: string, site: Option<Origin>, t: Err)
    requires !HandleInner(h, Some(err), []).handled && Within(t, err)
    ensures var r := WrapError(h, Some(err), msg, site);
            r.Some? && Is(r.value, t) && ReasonOf(r.value) == ReasonOf(err)
  {
    HereIsTransparent(Wrap(msg, err), site, t);
  }

  /**
   WrapError of nil is not nil: the other two entry points pass nil through, this one turns it
   into an error.  It returns nil only where the caller's own configuration says nil: for a
   no-rows error whose handler returns nil, or else for a PostgreSQL error whose code is mapped
   to nil.
   */
  lemma WrapErrorNilIff(h: Handler, err: Option<Err>, msg: string, site: Option<Origin>)
    ensures WrapError(h, err, msg, site).None?
            <==> err.Some?
                 && if Is(err.value, NoRows)
                    then h.noRowsHandler.Some? && h.noRowsHandler.value(err.value).None?
                    else
                      var pgErr := As(err.value, IsPg);
                      pgErr.Some? && CodeOf(pgErr.value) in h.errorMappings
                      && h.errorMappings[CodeOf(pgErr.value)].None?
    ensures HandleError(h, None, [], site).res.None? && WrapError(h, None, msg, site).Some?
  {
    if err.Some? {
      AsSearches(err.value, IsNoRows);
    }
  }
}
