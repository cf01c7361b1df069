/** Loading a configuration and following its updates (config/config.go): last known good. */
module ConfigWatch {
  import opened Common
  import opened ConfigLive

  datatype LoadOptions = LoadOptions(allowUnknownFields: bool, skipValidation: bool)

  /** What the library makes of a document: decoding, strict or not, and validation. */
  datatype Library<!R, !T> = Library(decode: (R, bool) -> Option<T>, valid: T -> bool, empty: T)

  datatype Source<R> = NoSource | LoadFails | Loads(raw: R)

  datatype LoadError = SourceMissing | LoadFailed | DecodeFailed | ValidationFailed

  datatype WatchEvent<R> = WatchEvent(raw: R, deleted: bool, failed: bool)

  /** The schema a Live value ends up with under the given policy. */
  function SchemaFor<R, T>(lib: Library<R, T>, options: LoadOptions): Schema<R, T> {
    Schema(raw => lib.decode(raw, options.allowUnknownFields),
           value => options.skipValidation || lib.valid(value), lib.empty)
  }

  /** The snapshot an event asks for, if the event is good. */
  function Accepted<R, T>(schema: Schema<R, T>, e: WatchEvent<R>): (value: Option<T>)
    ensures value.Some? <==>
              && !e.failed && !e.deleted
              && schema.decode(e.raw).Some? && schema.validate(schema.decode(e.raw).value)
    ensures value.Some? ==> value == schema.decode(e.raw)
  {
    if e.failed || e.deleted then None
    else
      var value := schema.decode(e.raw);
      if value.Some? && schema.validate(value.value) then value else None
  }

  /** The good snapshots of an event sequence, in order. */
  function Published<R, T>(schema: Schema<R, T>, events: seq<WatchEvent<R>>): seq<T> {
    if events == [] then []
    else
      var last := Accepted(schema, events[|events| - 1]);
      Published(schema, events[..|events| - 1]) + (if last.Some? then [last.value] else [])
  }

  /** v is the last known good snapshot after the events, starting from initial. */
  ghost predicate LastKnownGood<R, T>(schema: Schema<R, T>, events: seq<WatchEvent<R>>, initial: T, v: T) {
    || (v == initial && forall i :: 0 <= i < |events| ==> Accepted(schema, events[i]).None?)
    || exists k :: 0 <= k < |events| && Accepted(schema, events[k]) == Some(v)
                   && forall i :: k < i < |events| ==> Accepted(schema, events[i]).None?
  }

  method NewWithOptions<R, T(==), C(==)>(src: Source<R>, lib: Library<R, T>, options: LoadOptions)
    returns (r: Result<Live<R, T, C>, LoadError>)
    ensures r.Ok? <==> src.Loads? && lib.decode(src.raw, options.allowUnknownFields).Some?
                       && (options.skipValidation
                           || lib.valid(lib.decode(src.raw, options.allowUnknownFields).value))
    ensures r.Ok? ==>
              && r.value.Valid() && fresh(r.value)
              && r.value.schema == SchemaFor(lib, options)
              && lib.decode(src.raw, options.allowUnknownFields) == Some(r.value.ptr)
              && r.value.history == [r.value.ptr] && r.value.subs == map[]
    ensures r.Err? ==>
              && (r.error.SourceMissing? <==> src.NoSource?)
              && (r.error.LoadFailed? <==> src.LoadFails?)
              && (r.error.DecodeFailed? <==> src.Loads? && lib.decode(src.raw, options.allowUnknownFields).None?)
  {
    match src
    case NoSource => return Err(SourceMissing);
    case LoadFails => return Err(LoadFailed);
    case Loads(raw) =>
      var value := lib.decode(raw, options.allowUnknownFields);
      if value.None? {
        return Err(DecodeFailed);
      }
      if !options.skipValidation && !lib.valid(value.value) {
        return Err(ValidationFailed);
      }
      var live := new Live<R, T, C>(value, SchemaFor(lib, LoadOptions(false, false)));
      live.schema := SchemaFor(lib, options);
      r := Ok(live);
  }

  /** The handler of one event; rejected events leave everything as it is and notify nobody. */
  method HandleEvent<R, T(==), C(==)>(live: Live<R, T, C>, e: WatchEvent<R>)
    requires live.Valid()
    modifies live
    ensures live.Valid() && live.schema == old(live.schema) && live.subs == old(live.subs)
    ensures live.next == old(live.next) && live.cancelled == old(live.cancelled)
    // A good event is published ...
    ensures !e.failed && !e.deleted && old(live.schema).decode(e.raw).Some?
            && old(live.schema).validate(old(live.schema).decode(e.raw).value) ==>
              var value := old(live.schema).decode(e.raw).value;
              live.ptr == value && live.history == old(live.history) + [value]
    // ... and nothing else is, in detail:
    ensures var good := Accepted(old(live.schema), e);
            if good.None? then
              live.ptr == old(live.ptr) && live.history == old(live.history) && live.calls == old(live.calls)
            else
              && live.ptr == good.value && live.history == old(live.history) + [good.value]
              && old(live.calls) <= live.calls
              && OneEach(live.calls[|old(live.calls)|..], live.subs, old(live.ptr), good.value)
  {
    if e.failed {
      return;
    }
    if e.deleted {
      return;
    }
    var cur := live.schema.decode(e.raw);
    if cur.None? {
      return;
    }
    if !live.schema.validate(cur.value) {
      return;
    }
    live.Set(cur);
  }

  /** The watch delivers its events one after the other. */
  method Watch<R, T(==), C(==)>(live: Live<R, T, C>, events: seq<WatchEvent<R>>)
    requires live.Valid()
    modifies live
    ensures live.Valid() && live.schema == old(live.schema) && live.subs == old(live.subs)
    ensures LastKnownGood(live.schema, events, old(live.ptr), live.ptr)
    ensures live.history == old(live.history) + Published(live.schema, events)
  {
    var n := 0;
    assert events[..|events|] == events;
    while n < |events|
      invariant 0 <= n <= |events|
      invariant live.Valid() && live.schema == old(live.schema) && live.subs == old(live.subs)
      invariant live.history == old(live.history) + Published(live.schema, events[..n])
      invariant LastKnownGood(live.schema, events[..n], old(live.ptr), live.ptr)
    {
      ghost var before := live.ptr;
      HandleEvent(live, events[n]);
      n := n + 1;
      ghost var seen := events[..n];
      assert seen[..n - 1] == events[..n - 1] && seen[n - 1] == events[n - 1];
      LastKnownGoodStep(live.schema, seen, old(live.ptr), before, live.ptr);
    }
  }

  lemma LastKnownGoodStep<R, T>(schema: Schema<R, T>, events: seq<WatchEvent<R>>, initial: T, before: T, after: T)
    requires events != [] && LastKnownGood(schema, events[..|events| - 1], initial, before)
    requires var good := Accepted(schema, events[|events| - 1]); after == if good.Some? then good.value else before
    ensures LastKnownGood(schema, events, initial, after)
  {
    var m := |events| - 1;
    if Accepted(schema, events[m]).Some? {
      assert Accepted(schema, events[m]) == Some(after);
    } else if exists k :: 0 <= k < m && Accepted(schema, events[..m][k]) == Some(before)
                          && forall i :: k < i < m ==> Accepted(schema, events[..m][i]).None? {
      var k :| 0 <= k < m && Accepted(schema, events[..m][k]) == Some(before)
               && forall i :: k < i < m ==> Accepted(schema, events[..m][i]).None?;
      assert Accepted(schema, events[k]) == Some(after);
      forall i | k < i < |events| ensures Accepted(schema, events[i]).None? {
        if i < m { assert events[..m][i] == events[i]; }
      }
    } else {
      forall i | 0 <= i < |events| ensures Accepted(schema, events[i]).None? {
        if i < m { assert events[..m][i] == events[i]; }
      }
    }
  }

  /** The last known good snapshot is determined by the events. */
  lemma LastKnownGoodUnique<R, T>(schema: Schema<R, T>, events: seq<WatchEvent<R>>, initial: T, v: T, w: T)
    requires LastKnownGood(schema, events, initial, v) && LastKnownGood(schema, events, initial, w)
    ensures v == w
  {
    if exists k :: 0 <= k < |events| && Accepted(schema, events[k]).Some? {
      var k :| 0 <= k < |events| && Accepted(schema, events[k]) == Some(v)
               && forall i :: k < i < |events| ==> Accepted(schema, events[i]).None?;
      var j :| 0 <= j < |events| && Accepted(schema, events[j]) == Some(w)
               && forall i :: j < i < |events| ==> Accepted(schema, events[i]).None?;
    }
  }

  /** Every snapshot published was decoded from a good event and, unless validation is skipped, is valid. */
  lemma {:induction false} PublishedAreValid<R, T>(
      lib: Library<R, T>, options: LoadOptions, events: seq<WatchEvent<R>>, i: nat)
    requires i < |Published(SchemaFor(lib, options), events)|
    ensures var v := Published(SchemaFor(lib, options), events)[i];
            && (options.skipValidation || lib.valid(v))
            && exists k :: 0 <= k < |events| && !events[k].failed && !events[k].deleted
                           && lib.decode(events[k].raw, options.allowUnknownFields) == Some(v)
  {
    var schema := SchemaFor(lib, options);
    var m := |events| - 1;
    var earlier := Published(schema, events[..m]);
    if i < |earlier| {
      PublishedAreValid(lib, options, events[..m], i);
      var v := earlier[i];
      var k :| 0 <= k < m && !events[..m][k].failed && !events[..m][k].deleted
               && lib.decode(events[..m][k].raw, options.allowUnknownFields) == Some(v);
      assert events[..m][k] == events[k];
    } else {
      assert Accepted(schema, events[m]) == Some(Published(schema, events)[i]);
    }
  }

  /** The event is neither an error nor a deletion, it decodes and, unless validation is skipped, validates. */
  predicate Good<R, T>(lib: Library<R, T>, options: LoadOptions, e: WatchEvent<R>) {
    && !e.failed && !e.deleted
    && lib.decode(e.raw, options.allowUnknownFields).Some?
    && (options.skipValidation || lib.valid(lib.decode(e.raw, options.allowUnknownFields).value))
  }

  /** at lists the good events in order, and values their decoded snapshots. */
  ghost predicate ListsGood<R, T>(
      lib: Library<R, T>, options: LoadOptions, events: seq<WatchEvent<R>>, values: seq<T>, at: seq<nat>)
  {
    && |at| == |values|
    && (forall j :: 0 <= j < |at| ==>
          at[j] < |events| && lib.decode(events[at[j]].raw, options.allowUnknownFields) == Some(values[j]))
    && (forall i, j :: 0 <= i < j < |at| ==> at[i] < at[j])
    && (forall i: nat :: i in at <==> i < |events| && Good(lib, options, events[i]))
  }

  lemma ListsOneMore<R, T>(
      lib: Library<R, T>, options: LoadOptions, events: seq<WatchEvent<R>>, e: WatchEvent<R>, values: seq<T>,
      at: seq<nat>)
    requires ListsGood(lib, options, events, values, at)
    ensures if Good(lib, options, e) then
              ListsGood(lib, options, events + [e],
                        values + [lib.decode(e.raw, options.allowUnknownFields).value], at + [|events|])
            else ListsGood(lib, options, events + [e], values, at)
  {
    var m := |events|;
    assert forall i :: 0 <= i < m ==> (events + [e])[i] == events[i];
    forall i: nat ensures i in at + [m] <==> i in at || i == m {
    }
  }

  /** Exactly the good events are published, once each and in order; at says which event each one is. */
  lemma {:induction false} PublishedExactly<R, T>(
      lib: Library<R, T>, options: LoadOptions, events: seq<WatchEvent<R>>) returns (at: seq<nat>)
    ensures ListsGood(lib, options, events, Published(SchemaFor(lib, options), events), at)
  {
    at := [];
    if events != [] {
      var m := |events| - 1;
      at := PublishedExactly(lib, options, events[..m]);
      ListsOneMore(lib, options, events[..m], events[m], Published(SchemaFor(lib, options), events[..m]), at);
      assert events[..m] + [events[m]] == events;
      if Good(lib, options, events[m]) {
        at := at + [m];
      } else {
        assert Published(SchemaFor(lib, options), events) == Published(SchemaFor(lib, options), events[..m]);
      }
    }
  }

  /**
   The life of a configuration: load it, then follow any events.  The snapshots that were ever
   visible are the loaded one and those of the good events, in order; each of them decoded and,
   unless validation is skipped, validated.
   */
  method LoadAndWatch<R, T(==), C(==)>(
      src: Source<R>, lib: Library<R, T>, options: LoadOptions, events: seq<WatchEvent<R>>)
    returns (r: Result<Live<R, T, C>, LoadError>)
    ensures r.Ok? ==>
              && src.Loads? && lib.decode(src.raw, options.allowUnknownFields).Some?
              && var initial := lib.decode(src.raw, options.allowUnknownFields).value;
              && r.value.history == [initial] + Published(SchemaFor(lib, options), events)
              && LastKnownGood(SchemaFor(lib, options), events, initial, r.value.ptr)
    ensures r.Ok? && !options.skipValidation ==>
              forall i :: 0 <= i < |r.value.history| ==> lib.valid(r.value.history[i])
  {
    r := NewWithOptions(src, lib, options);
    if r.Err? {
      return;
    }
    var live := r.value;
    Watch(live, events);
    if !options.skipValidation {
      ghost var published := Published(SchemaFor(lib, options), events);
      forall i | 0 <= i < |live.history| ensures lib.valid(live.history[i]) {
        if 0 < i {
          assert live.history[i] == published[i - 1];
          PublishedAreValid(lib, options, events, i - 1);
        }
      }
    }
  }

  /** A section whose changes need a restart. */
  datatype Section<M> = Section(name: string, message: M)

  /** The message of the last section with this name. */
  function LastNamed<M>(sections: seq<Section<M>>, name: string): Option<M> {
    if sections == [] then None
    else
      var last := sections[|sections| - 1];
      if last.name == name then Some(last.message) else LastNamed(sections[..|sections| - 1], name)
  }

  lemma {:induction false} LastNamedMeans<M>(sections: seq<Section<M>>, name: string)
    ensures var m := LastNamed(sections, name);
            if m.None? then forall i :: 0 <= i < |sections| ==> sections[i].name != name
            else exists i :: 0 <= i < |sections| && sections[i] == Section(name, m.value)
                             && forall j :: i < j < |sections| ==> sections[j].name != name
  {
    if sections != [] {
      var last := |sections| - 1;
      if sections[last].name == name {
        assert sections[last] == Section(name, sections[last].message);
      } else {
        LastNamedMeans(sections[..last], name);
        assert forall i :: 0 <= i < last ==> sections[..last][i] == sections[i];
      }
    }
  }

  /** An old section whose message is gone or different now. */
  predicate Changed<M(==)>(was: Section<M>, curSections: seq<Section<M>>) {
    LastNamed(curSections, was.name) != Some(was.message)
  }

  /** The warnings name exactly the changed sections, one each; at gives their positions in order. */
  ghost predicate OneWarningEach<M>(
      warned: seq<string>, at: seq<nat>, oldSections: seq<Section<M>>, curSections: seq<Section<M>>)
  {
    && |at| == |warned|
    && (forall j :: 0 <= j < |at| ==>
          at[j] < |oldSections| && warned[j] == oldSections[at[j]].name && Changed(oldSections[at[j]], curSections))
    && (forall i, j :: 0 <= i < j < |at| ==> at[i] < at[j])
    && forall i :: 0 <= i < |oldSections| && Changed(oldSections[i], curSections) ==> i in at
  }

  /**
   warnNotHotReloadable: one warning for each changed section, in the order of the old sections.
   A section that is new gives no warning.
   */
  method WarnNotHotReloadable<M(==)>(oldSections: seq<Section<M>>, curSections: seq<Section<M>>)
    returns (warned: seq<string>)
    ensures exists at :: OneWarningEach(warned, at, oldSections, curSections)
  {
    var current: map<string, M> := map[];
    var n := 0;
    assert curSections[..|curSections|] == curSections;
    while n < |curSections|
      invariant 0 <= n <= |curSections|
      invariant forall name ::
                  (if name in current then Some(current[name]) else None) == LastNamed(curSections[..n], name)
    {
      assert curSections[..n + 1][..n] == curSections[..n];
      current := current[curSections[n].name := curSections[n].message];
      n := n + 1;
    }
    warned := [];
    ghost var at: seq<nat> := [];
    n := 0;
    while n < |oldSections|
      invariant 0 <= n <= |oldSections| && OneWarningEach(warned, at, oldSections[..n], curSections)
    {
      var section := oldSections[n];
      assert (if section.name in current then Some(current[section.name]) else None)
          == LastNamed(curSections, section.name);
      if section.name !in current || section.message != current[section.name] {
        warned := warned + [section.name];
        at := at + [n];
      }
      n := n + 1;
    }
    assert oldSections[..n] == oldSections;
  }
}
