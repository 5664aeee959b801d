/** Feature attribute helpers, file-name sanitising and the lazily started
    item iterator. A feature's attributes are a map from name to value: a name
    that is absent is a missing attribute, and `Null` is a null attribute. */
module Util {
  import opened Wrappers
  import opened Strings
  import opened Values

  /** An FME feature, reduced to its attributes. */
  class Feature {
    var attrs: map<string, Value>

    constructor (attrs: map<string, Value>)
      ensures this.attrs == attrs
    {
      this.attrs := attrs;
    }

    method SetAttribute(name: string, value: Value)
      modifies this
      ensures attrs == old(attrs)[name := value]
    {
      attrs := attrs[name := value];
    }

    method RemoveAttribute(name: string)
      modifies this
      ensures attrs == old(attrs) - {name}
    {
      attrs := attrs - {name};
    }
  }

  // ---------------------------------------------------------------------------
  // setting attributes

  /** The attributes after setting `values` on them: entries with an empty name
      are skipped, every other entry is set as given (`Null` as a null attribute). */
  function WithAttributes(current: map<string, Value>, values: map<string, Value>): (r: map<string, Value>)
    ensures forall n :: n in r <==> n in current || (n in values && n != "")
    ensures forall n :: n in values && n != "" ==> r[n] == values[n]
    ensures forall n :: n in current && (n !in values || n == "") ==> r[n] == current[n]
  {
    current + map n | n in values && n != "" :: values[n]
  }

  method SetAttributesOnFeature(feature: Feature, values: map<string, Value>)
    modifies feature
    ensures feature.attrs == WithAttributes(old(feature.attrs), values)
  {
    var todo := values.Keys;
    ghost var done: set<string> := {};
    while todo != {}
      invariant todo + done == values.Keys && todo !! done
      invariant feature.attrs == old(feature.attrs) + map n | n in done && n != "" :: values[n]
      decreases todo
    {
      var name :| name in todo;
      todo := todo - {name};
      done := done + {name};
      if name != "" {
        feature.SetAttribute(name, values[name]);
      }
    }
    assert done == values.Keys;
  }

  // ---------------------------------------------------------------------------
  // getting and popping attributes

  /** The value `get_attribute_from_feature` returns: `missing` for a missing
      attribute, `Null` for a null one, and the value otherwise. */
  function AttributeValue(attrs: map<string, Value>, name: string, missing: Value): (r: Value)
    ensures name !in attrs ==> r == missing
    ensures name in attrs ==> r == attrs[name]
  {
    if name !in attrs then missing
    else if attrs[name].Null? then Null
    else attrs[name]
  }

  /** The attributes after a get with `pop`: removed only when present and not null. */
  function AfterGet(attrs: map<string, Value>, name: string, pop: bool): (r: map<string, Value>)
    ensures pop && name in attrs && !attrs[name].Null? ==> r == attrs - {name}
    ensures !(pop && name in attrs && !attrs[name].Null?) ==> r == attrs
  {
    if name in attrs && !attrs[name].Null? && pop then attrs - {name} else attrs
  }

  method GetAttributeFromFeature(feature: Feature, name: string, missing: Value, pop: bool) returns (value: Value)
    modifies feature
    ensures value == AttributeValue(old(feature.attrs), name, missing)
    ensures feature.attrs == AfterGet(old(feature.attrs), name, pop)
  {
    if name !in feature.attrs {
      return missing;
    }
    if feature.attrs[name].Null? {
      return Null;
    }
    value := feature.attrs[name];
    if pop {
      feature.RemoveAttribute(name);
    }
  }

  /** Popping the listed names one after another: each is read and then removed,
      so a name listed twice reads as missing the second time. */
  function PopNamed(attrs: map<string, Value>, names: seq<string>, missing: Value)
    : (r: (map<string, Value>, map<string, Value>))
    ensures forall n :: n in r.0 <==> n in names
    ensures r.1 == attrs - set n | n in names
    decreases |names|
  {
    if |names| == 0 then (map[], attrs)
    else
      var init := names[..|names| - 1];
      var (results, left) := PopNamed(attrs, init, missing);
      var name := names[|names| - 1];
      assert names == init + [name];
      assert (set n | n in names) == (set n | n in init) + {name};
      (results[name := AttributeValue(left, name, missing)], left - {name})
  }

  /** How many times `x` occurs in `s`. */
  function Occurrences(s: seq<string>, x: string): nat
    decreases |s|
  {
    if |s| == 0 then 0 else Occurrences(s[..|s| - 1], x) + (if s[|s| - 1] == x then 1 else 0)
  }

  /** A name listed exactly once reads its value from the original attributes;
      a name listed more than once reads as missing. */
  lemma {:induction false} PopNamedValue(attrs: map<string, Value>, names: seq<string>, missing: Value, n: string)
    requires n in names
    ensures Occurrences(names, n) == 1 ==> PopNamed(attrs, names, missing).0[n] == AttributeValue(attrs, n, missing)
    ensures Occurrences(names, n) > 1 ==> PopNamed(attrs, names, missing).0[n] == missing
    decreases |names|
  {
    var init := names[..|names| - 1];
    var last := names[|names| - 1];
    if last == n {
      if Occurrences(init, n) == 0 {
        assert n !in init by {
          if n in init { OccursPositive(init, n); }
        }
      } else {
        assert n in init by { OccurrencesMember(init, n); }
      }
    } else {
      assert n in init;
      PopNamedValue(attrs, init, missing, n);
    }
  }

  lemma {:induction false} OccursPositive(s: seq<string>, x: string)
    requires x in s
    ensures Occurrences(s, x) > 0
    decreases |s|
  {
    if s[|s| - 1] != x {
      assert x in s[..|s| - 1];
      OccursPositive(s[..|s| - 1], x);
    }
  }

  lemma {:induction false} OccurrencesMember(s: seq<string>, x: string)
    requires Occurrences(s, x) > 0
    ensures x in s
    decreases |s|
  {
    if s[|s| - 1] != x {
      OccurrencesMember(s[..|s| - 1], x);
    }
  }

  /** The names popped because they start with the prefix. */
  function PrefixNames(attrs: map<string, Value>, prefix: string, listed: seq<string>): set<string> {
    set n | n in attrs && StartsWith(n, prefix) && n !in listed
  }

  /** The second half of `pop_attributes_off_feature`: with a non-empty prefix,
      every attribute left that starts with it and is not a listed name is
      popped too. Without a name list, the membership test on the first such
      attribute is a TypeError. */
  function PopPrefixed(results: map<string, Value>, left: map<string, Value>, names: Option<seq<string>>,
                       prefix: Option<string>): (r: Result<(map<string, Value>, map<string, Value>), string>)
    ensures r.Failure? <==> names.None? && prefix.Some? && prefix.value != "" &&
                              exists n :: n in left && StartsWith(n, prefix.value)
  {
    if prefix.Some? && prefix.value != "" then
      if names.None? && exists n :: n in left && StartsWith(n, prefix.value) then Failure("TypeError")
      else
        var chosen := PrefixNames(left, prefix.value, names.GetOr([]));
        Success((results + map n | n in chosen :: left[n], left - chosen))
    else Success((results, left))
  }

  /** `pop_attributes_off_feature`: the popped values and the attributes left on the feature. */
  function PopAttributes(attrs: map<string, Value>, names: Option<seq<string>>, prefix: Option<string>, missing: Value)
    : Result<(map<string, Value>, map<string, Value>), string>
  {
    var (results, left) :=
      if names.Some? && |names.value| > 0 then PopNamed(attrs, names.value, missing) else (map[], attrs);
    PopPrefixed(results, left, names, prefix)
  }

  /** The popped values hold every requested name and every prefixed attribute,
      none of them is left on the feature, and every attribute left keeps its value;
      the only error is a prefix given without a name list that some attribute starts with. */
  lemma PopAttributesRemoves(attrs: map<string, Value>, names: Option<seq<string>>, prefix: Option<string>, missing: Value)
    ensures PopAttributes(attrs, names, prefix, missing).Failure? <==>
      names.None? && prefix.Some? && prefix.value != "" && exists n :: n in attrs && StartsWith(n, prefix.value)
    ensures PopAttributes(attrs, names, prefix, missing).Success? ==>
      var (results, left) := PopAttributes(attrs, names, prefix, missing).value;
      (names.Some? ==> forall n :: n in names.value ==> n in results && n !in left) &&
      (prefix.Some? && prefix.value != "" ==>
        forall n :: n in attrs && StartsWith(n, prefix.value) ==> n in results && n !in left) &&
      (forall n :: n in left ==> n in attrs && left[n] == attrs[n])
  {
  }

  /** The first half: pops the listed names, in order. */
  method PopListed(feature: Feature, names: seq<string>, missing: Value) returns (results: map<string, Value>)
    modifies feature
    ensures (results, feature.attrs) == PopNamed(old(feature.attrs), names, missing)
  {
    results := map[];
    var i := 0;
    while i < |names|
      invariant 0 <= i <= |names|
      invariant (results, feature.attrs) == PopNamed(old(feature.attrs), names[..i], missing)
    {
      var name := names[i];
      assert names[..i + 1][..i] == names[..i];
      var v := GetAttributeFromFeature(feature, name, missing, false);
      results := results[name := v];
      feature.RemoveAttribute(name);
      i := i + 1;
    }
    assert names[..i] == names;
  }

  /** Whether some attribute name starts with the prefix, looked for one name at a time. */
  method AnyStartsWith(attrs: map<string, Value>, prefix: string) returns (found: bool)
    ensures found <==> exists n :: n in attrs && StartsWith(n, prefix)
  {
    var todo := attrs.Keys;
    while todo != {}
      invariant todo <= attrs.Keys
      invariant forall n :: n in attrs && n !in todo ==> !StartsWith(n, prefix)
      decreases todo
    {
      var name :| name in todo;
      if StartsWith(name, prefix) {
        return true;
      }
      todo := todo - {name};
    }
    return false;
  }

  /** Pops every attribute that starts with the prefix and is not listed. */
  method PopPrefixNames(feature: Feature, results0: map<string, Value>, listed: seq<string>, prefix: string, missing: Value)
    returns (results: map<string, Value>)
    modifies feature
    ensures results == results0 + map n | n in PrefixNames(old(feature.attrs), prefix, listed) :: old(feature.attrs)[n]
    ensures feature.attrs == old(feature.attrs) - PrefixNames(old(feature.attrs), prefix, listed)
  {
    results := results0;
    ghost var start := feature.attrs;
    var todo := feature.attrs.Keys;
    ghost var chosen: set<string> := {};
    while todo != {}
      invariant todo <= start.Keys
      invariant chosen == set n | n in start && n !in todo && StartsWith(n, prefix) && n !in listed
      invariant feature.attrs == start - chosen
      invariant results == results0 + map n | n in chosen :: start[n]
      decreases todo
    {
      var name :| name in todo;
      todo := todo - {name};
      if StartsWith(name, prefix) && name !in listed {
        var v := GetAttributeFromFeature(feature, name, missing, false);
        results := results[name := v];
        feature.RemoveAttribute(name);
        chosen := chosen + {name};
      }
    }
  }

  /** The second half: walks the attribute names left on the feature. */
  method PopPrefixedOff(feature: Feature, results0: map<string, Value>, names: Option<seq<string>>,
                        prefix: Option<string>, missing: Value)
    returns (r: Result<map<string, Value>, string>)
    modifies feature
    ensures var spec := PopPrefixed(results0, old(feature.attrs), names, prefix);
      (r.Failure? <==> spec.Failure?) &&
      (r.Success? ==> r.value == spec.value.0 && feature.attrs == spec.value.1) &&
      (r.Failure? ==> feature.attrs == old(feature.attrs))
  {
    if prefix.None? || prefix.value == "" {
      return Success(results0);
    }
    if names.None? {
      var found := AnyStartsWith(feature.attrs, prefix.value);
      if found {
        return Failure("TypeError");
      }
      assert PrefixNames(feature.attrs, prefix.value, []) == {};
      return Success(results0);
    }
    var results := PopPrefixNames(feature, results0, names.value, prefix.value, missing);
    return Success(results);
  }

  method PopAttributesOffFeature(feature: Feature, names: Option<seq<string>>, prefix: Option<string>, missing: Value)
    returns (r: Result<map<string, Value>, string>)
    modifies feature
    ensures var spec := PopAttributes(old(feature.attrs), names, prefix, missing);
      (r.Failure? <==> spec.Failure?) &&
      (r.Success? ==> r.value == spec.value.0 && feature.attrs == spec.value.1) &&
      (r.Failure? ==> feature.attrs == old(feature.attrs))
  {
    var results: map<string, Value> := map[];
    if names.Some? && |names.value| > 0 {
      results := PopListed(feature, names.value, missing);
    }
    r := PopPrefixedOff(feature, results, names, prefix, missing);
  }

  // ---------------------------------------------------------------------------
  // file-system names

  /** The pattern `sanitize_fs_name` passes to `re.sub`. None of its characters
      is special to the regular expression once escaped, and it is not a
      character class, so it matches only this exact ten-character sequence. */
  const UnsafeSequence: string := "/'?%*:|\"<>"

  /** `sanitize_fs_name` as written: replaces the exact sequence `UnsafeSequence`,
      so a name shorter than it comes back unchanged whatever it holds. */
  function SanitizeFsName(name: string, replacement: string): (r: string)
    ensures |name| < |UnsafeSequence| ==> r == name
  {
    ReplaceAll(name, UnsafeSequence, replacement)
  }

  /** A name without the full ten-character sequence is returned unchanged, even
      when it holds some of those characters. */
  lemma SanitizeKeepsOtherNames(name: string, replacement: string)
    requires !Contains(name, UnsafeSequence)
    ensures SanitizeFsName(name, replacement) == name
  {
    ReplaceAllAbsent(name, UnsafeSequence, replacement);
  }

  /** A name holding the sequence comes back shorter with the default one-character replacement. */
  lemma SanitizeRewritesSequence(name: string, i: nat)
    requires OccursAt(name, UnsafeSequence, i)
    ensures |SanitizeFsName(name, "_")| < |name|
  {
    ReplaceAllRewritesOccurrence(name, UnsafeSequence, "_", i);
  }

  /** The slash in a file name survives sanitising. */
  lemma SanitizeKeepsSlash()
    ensures SanitizeFsName("a/b", "_") == "a/b"
  {
    assert !Contains("a/b", UnsafeSequence);
    SanitizeKeepsOtherNames("a/b", "_");
  }

  predicate Unsafe(c: char) {
    c in UnsafeSequence
  }

  /** The evident intent: every one of the ten characters is replaced. */
  function SanitizeFsNameChars(name: string, replacement: string): (r: string)
    ensures (forall i :: 0 <= i < |replacement| ==> !Unsafe(replacement[i])) ==>
              forall i :: 0 <= i < |r| ==> !Unsafe(r[i])
    ensures (forall i :: 0 <= i < |name| ==> !Unsafe(name[i])) ==> r == name
    ensures |name| == 1 ==> r == if Unsafe(name[0]) then replacement else name
    decreases |name|
  {
    if |name| == 0 then ""
    else
      var rest := SanitizeFsNameChars(name[1..], replacement);
      if Unsafe(name[0]) then replacement + rest
      else [name[0]] + rest
  }

  /** Sanitising works character by character: the result for a concatenation
      is the concatenation of the results. */
  lemma {:induction false} SanitizeFsNameCharsConcat(a: string, b: string, replacement: string)
    ensures SanitizeFsNameChars(a + b, replacement) == SanitizeFsNameChars(a, replacement) + SanitizeFsNameChars(b, replacement)
    decreases |a|
  {
    if |a| > 0 {
      var ab := a + b;
      assert ab[0] == a[0] && ab[1..] == a[1..] + b;
      var head := if Unsafe(a[0]) then replacement else [a[0]];
      assert SanitizeFsNameChars(ab, replacement) == head + SanitizeFsNameChars(a[1..] + b, replacement);
      assert SanitizeFsNameChars(a, replacement) == head + SanitizeFsNameChars(a[1..], replacement);
      SanitizeFsNameCharsConcat(a[1..], b, replacement);
    } else {
      assert a + b == b;
    }
  }

  // ---------------------------------------------------------------------------
  // lazily started iterator

  /** An item iterator that starts its underlying generator on the first `next`
      and never again. `produce` stands for the items the generator yields. */
  class ItemGen<T> {
    const produce: seq<T>
    const nextMarker: Option<string>
    var started: bool
    var remaining: seq<T>
    ghost var generateCalls: nat
    ghost var yielded: seq<T>

    ghost predicate Valid()
      reads this
    {
      generateCalls == (if started then 1 else 0) &&
      (started ==> yielded + remaining == produce) &&
      (!started ==> yielded == [])
    }

    constructor (produce: seq<T>, nextMarker: Option<string>)
      ensures Valid() && !started && this.produce == produce && this.nextMarker == nextMarker
    {
      this.produce := produce;
      this.nextMarker := nextMarker;
      started := false;
      remaining := [];
      generateCalls := 0;
      yielded := [];
    }

    /** The next item, or None once the generator is exhausted. */
    method Next() returns (item: Option<T>)
      requires Valid()
      modifies this
      ensures Valid() && started && generateCalls == 1
      ensures var pending := if old(started) then old(remaining) else produce;
              item.Some? == (pending != []) &&
              (item.Some? ==> item.value == pending[0] && remaining == pending[1..])
      ensures item.Some? ==> yielded == old(yielded) + [item.value]
      ensures item.None? ==> yielded == produce && remaining == []
    {
      if !started {
        started := true;
        remaining := produce;
        generateCalls := generateCalls + 1;
      }
      if remaining == [] {
        item := None;
      } else {
        item := Some(remaining[0]);
        yielded := yielded + [remaining[0]];
        remaining := remaining[1..];
      }
    }
  }
}
