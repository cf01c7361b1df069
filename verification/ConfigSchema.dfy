/** Redacted locations of a schema validation failure (configschema/validate.go). */
module ConfigSchema {
  import opened Common

  /** jsonschema.ValidationError: a location in the document, and the errors it stems from. */
  datatype ValidationError = ValidationError(location: string, causes: seq<ValidationError>)

  const FALLBACK := "(schema or YAML parse error)"

  function Shown(location: string): string {
    if location == "" then "/" else location
  }

  /** The locations of the leaves of an error tree, as they are shown. */
  function LeafLocations(e: ValidationError): set<string> {
    if e.causes == [] then {Shown(e.location)} else LeavesOfAll(e.causes)
  }

  function LeavesOfAll(errs: seq<ValidationError>): set<string> {
    if errs == [] then {} else LeafLocations(errs[0]) + LeavesOfAll(errs[1..])
  }

  /** t is e or somewhere among its causes. */
  predicate Below(t: ValidationError, e: ValidationError) {
    t == e || exists i :: 0 <= i < |e.causes| && Below(t, e.causes[i])
  }

  /** A string is a leaf location iff some leaf is shown as it, a slash standing for the empty location. */
  lemma {:induction false} LeafLocationsExact(e: ValidationError, x: string)
    ensures x in LeafLocations(e)
            <==> exists t :: Below(t, e) && t.causes == [] && x == if t.location == "" then "/" else t.location
  {
    if e.causes == [] {
      assert Below(e, e);
    } else {
      LeavesOfAllExact(e.causes, x);
      if i, t :| 0 <= i < |e.causes| && Below(t, e.causes[i]) && t.causes == []
                 && x == if t.location == "" then "/" else t.location {
        assert Below(t, e);
      }
    }
  }

  lemma {:induction false} LeavesOfAllExact(errs: seq<ValidationError>, x: string)
    ensures x in LeavesOfAll(errs)
            <==> exists i, t :: 0 <= i < |errs| && Below(t, errs[i]) && t.causes == []
                                && x == if t.location == "" then "/" else t.location
  {
    if errs != [] {
      LeafLocationsExact(errs[0], x);
      LeavesOfAllExact(errs[1..], x);
      if i, t :| 0 <= i < |errs| && Below(t, errs[i]) && t.causes == []
                 && x == if t.location == "" then "/" else t.location {
        if 0 < i { assert errs[1..][i - 1] == errs[i]; }
      }
      if i, t :| 0 <= i < |errs[1..]| && Below(t, errs[1..][i]) && t.causes == []
                 && x == if t.location == "" then "/" else t.location {
        assert errs[i + 1] == errs[1..][i];
      }
    }
  }

  lemma {:induction false} LeavesNonEmpty(e: ValidationError)
    ensures LeafLocations(e) != {}
  {
    if e.causes != [] {
      LeavesNonEmpty(e.causes[0]);
    }
  }

  // ---------------------------------------------------------------- the order of Go strings

  /** Byte-wise lexicographic order. */
  predicate Less(a: string, b: string) {
    b != [] && (a == [] || a[0] < b[0] || (a[0] == b[0] && Less(a[1..], b[1..])))
  }

  lemma {:induction false} LessTransitive(a: string, b: string, c: string)
    requires Less(a, b) && Less(b, c)
    ensures Less(a, c)
  {
    if a != [] && a[0] == b[0] && b[0] == c[0] {
      LessTransitive(a[1..], b[1..], c[1..]);
    }
  }

  lemma {:induction false} LessTotal(a: string, b: string)
    ensures a == b || Less(a, b) || Less(b, a)
  {
    if a != [] && b != [] && a[0] == b[0] {
      LessTotal(a[1..], b[1..]);
      assert a == [a[0]] + a[1..] && b == [b[0]] + b[1..];
    }
  }

  lemma {:induction false} LessIrreflexive(a: string)
    ensures !Less(a, a)
  {
    if a != [] {
      LessIrreflexive(a[1..]);
    }
  }

  /** The order: a proper prefix comes first, and otherwise the first difference decides. */
  lemma {:induction false} LessMeans(a: string, b: string)
    ensures Less(a, b)
            <==> (a < b || exists k :: 0 <= k < |a| && k < |b| && a[..k] == b[..k] && a[k] < b[k])
  {
    if a != [] && b != [] {
      if a[0] == b[0] {
        LessMeans(a[1..], b[1..]);
        if k :| 0 <= k < |a| && k < |b| && a[..k] == b[..k] && a[k] < b[k] {
          assert 0 < k && a[1..][..k - 1] == a[..k][1..] && b[1..][..k - 1] == b[..k][1..];
        }
        if k :| 0 <= k < |a[1..]| && k < |b[1..]| && a[1..][..k] == b[1..][..k] && a[1..][k] < b[1..][k] {
          assert a[..k + 1] == [a[0]] + a[1..][..k] && b[..k + 1] == [b[0]] + b[1..][..k];
          assert a[k + 1] < b[k + 1];
        }
      } else {
        assert a[..0] == b[..0];
        if k :| 0 <= k < |a| && k < |b| && a[..k] == b[..k] && a[k] < b[k] {
          if 0 < k { assert a[..k][0] == b[..k][0]; }
        }
      }
    }
  }

  ghost predicate StrictlySorted(s: seq<string>) {
    forall i, j :: 0 <= i < j < |s| ==> Less(s[i], s[j])
  }

  function Elements(s: seq<string>): set<string> {
    set x | x in s
  }

  // ---------------------------------------------------------------- Locations

  /** visit: adds the leaf locations below current to seen. */
  method Visit(current: ValidationError, seen: set<string>) returns (after: set<string>)
    ensures after == seen + LeafLocations(current)
    decreases current
  {
    after := seen;
    if |current.causes| == 0 {
      var location := current.location;
      if location == "" {
        location := "/";
      }
      after := after + {location};
      return;
    }
    var n := 0;
    assert current.causes[..0] == [];
    while n < |current.causes|
      invariant 0 <= n <= |current.causes|
      invariant after + LeavesOfAll(current.causes[n..]) == seen + LeafLocations(current)
    {
      after := Visit(current.causes[n], after);
      assert current.causes[n..][0] == current.causes[n] && current.causes[n..][1..] == current.causes[n + 1..];
      n := n + 1;
    }
  }

  /** Where x belongs in a sorted list that does not contain it. */
  method InsertSorted(s: seq<string>, x: string) returns (r: seq<string>)
    requires StrictlySorted(s) && x !in s
    ensures StrictlySorted(r) && Elements(r) == Elements(s) + {x} && |r| == |s| + 1
  {
    var i := 0;
    while i < |s| && Less(s[i], x)
      invariant 0 <= i <= |s|
      invariant forall k :: 0 <= k < i ==> Less(s[k], x)
    {
      i := i + 1;
    }
    forall k | i <= k < |s| ensures Less(x, s[k]) {
      LessTotal(s[i], x);
      if i < k { LessTransitive(x, s[i], s[k]); }
    }
    r := s[..i] + [x] + s[i..];
    assert r[i] == x;
    forall y ensures y in Elements(r) <==> y in Elements(s) + {x} {
      assert y in s <==> y in s[..i] || y in s[i..];
    }
  }

  /** sort.Strings, on a list without duplicates. */
  method SortStrings(s: seq<string>) returns (r: seq<string>)
    requires forall i, j :: 0 <= i < j < |s| ==> s[i] != s[j]
    ensures StrictlySorted(r) && Elements(r) == Elements(s) && |r| == |s|
  {
    r := [];
    var n := 0;
    assert s[..|s|] == s;
    while n < |s|
      invariant 0 <= n <= |s| && |r| == n
      invariant StrictlySorted(r) && Elements(r) == Elements(s[..n])
    {
      assert s[..n + 1] == s[..n] + [s[n]];
      assert s[n] !in s[..n] && s[n] !in Elements(r);
      r := InsertSorted(r, s[n]);
      n := n + 1;
    }
  }

  /**
   Locations: a non-empty, strictly increasing list whose elements are exactly the leaf
   locations, in whatever order the set is visited; other errors give one fixed entry.
   */
  method Locations(err: Option<ValidationError>) returns (locations: seq<string>)
    ensures locations != [] && StrictlySorted(locations)
    ensures err.None? ==> locations == ["(schema or YAML parse error)"]
    ensures err.Some? ==>
              forall x :: x in locations
                          <==> exists t :: Below(t, err.value) && t.causes == []
                                           && x == if t.location == "" then "/" else t.location
  {
    if err.None? {
      return [FALLBACK];
    }
    var seen := Visit(err.value, {});
    LeavesNonEmpty(err.value);
    locations := [];
    var remaining := seen;
    while remaining != {}
      invariant remaining <= seen && Elements(locations) == seen - remaining
      invariant forall i, j :: 0 <= i < j < |locations| ==> locations[i] != locations[j]
      decreases remaining
    {
      var location :| location in remaining;
      assert location !in Elements(locations);
      remaining := remaining - {location};
      ghost var before := locations;
      locations := locations + [location];
      assert Elements(locations) == Elements(before) + {location};
    }
    locations := SortStrings(locations);
    var some :| some in seen;
    assert some in Elements(locations) && some in locations;
    forall x
      ensures x in locations
              <==> exists t :: Below(t, err.value) && t.causes == []
                               && x == if t.location == "" then "/" else t.location
    {
      LeafLocationsExact(err.value, x);
      assert x in locations <==> x in Elements(locations);
    }
  }

  /** The answer is determined by the leaves: the order of the map iteration does not show. */
  lemma {:induction false} SortedListUnique(s: seq<string>, t: seq<string>)
    requires StrictlySorted(s) && StrictlySorted(t) && Elements(s) == Elements(t)
    ensures s == t
  {
    FirstElement(s, t);
    FirstElement(t, s);
    if s != [] {
      LessIrreflexive(s[0]);
      if Less(s[0], t[0]) && Less(t[0], s[0]) {
        LessTransitive(s[0], t[0], s[0]);
      }
      TailElements(s);
      TailElements(t);
      SortedListUnique(s[1..], t[1..]);
    }
  }

  lemma FirstElement(s: seq<string>, t: seq<string>)
    requires StrictlySorted(t) && Elements(s) == Elements(t)
    ensures s != [] ==> t != [] && (s[0] == t[0] || Less(t[0], s[0]))
  {
    if s != [] {
      assert s[0] in Elements(t);
      var i :| 0 <= i < |t| && t[i] == s[0];
    }
  }

  lemma TailElements(s: seq<string>)
    requires s != [] && StrictlySorted(s)
    ensures Elements(s[1..]) == Elements(s) - {s[0]} && StrictlySorted(s[1..])
  {
    LessIrreflexive(s[0]);
    forall x ensures x in Elements(s[1..]) <==> x in Elements(s) - {s[0]} {
      if x in Elements(s) && x != s[0] {
        var i :| 0 <= i < |s| && s[i] == x;
        assert s[1..][i - 1] == x;
      }
    }
  }
}
