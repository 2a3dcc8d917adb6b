/** The allow-list a model exposes to the JSON:API builder and the projection
    `getAttributes` reads through it, with values copied as stored. */
module JsonApiExposes {
  import opened PhpValues
  import opened PhpArrays
  import PhpStrings
  import opened Collaborators
  import ApiFilter

  /** `$api_array_filter` as declared: nothing is exposed until a model lists it. */
  const DefaultApiArrayFilter: seq<string> := []

  /** `getApiArrayFilter()`. */
  function GetApiArrayFilter(d: Descriptor): seq<string>
  {
    d.apiArrayFilter
  }

  /** The map built by the loop of `getAttributes` over `names`. */
  function Exposed(names: seq<string>, m: Resource): seq<Entry>
  {
    if names == [] then []
    else
      var p := names[|names| - 1];
      Set(Exposed(names[..|names| - 1], m), StrKey(p), Prop(m, p))
  }

  /** `getAttributes()` on the record `m` of a model described by `d`. */
  method GetAttributes(d: Descriptor, m: Resource) returns (r: seq<Entry>)
    ensures r == Exposed(GetApiArrayFilter(d), m)
  {
    var names := GetApiArrayFilter(d);
    r := [];
    var i := 0;
    while i < |names|
      invariant 0 <= i <= |names|
      invariant r == Exposed(names[..i], m)
    {
      ExposedStep(names, i, m);
      r := Set(r, StrKey(names[i]), Prop(m, names[i]));
      i := i + 1;
    }
    assert names[..i] == names;
  }

  lemma ExposedStep(names: seq<string>, i: int, m: Resource)
    requires 0 <= i < |names|
    ensures Exposed(names[..i + 1], m) == Set(Exposed(names[..i], m), StrKey(names[i]), Prop(m, names[i]))
  {
    assert names[..i + 1][..i] == names[..i];
  }

  /** The keys are the allow-list entries in order, a repeated name once. */
  lemma {:induction false} ExposedKeys(names: seq<string>, m: Resource)
    ensures Keys(Exposed(names, m)) == Distinct(ApiFilter.StrKeys(names))
  {
    if names != [] {
      var p := names[..|names| - 1];
      ExposedKeys(p, m);
      SetKeys(Exposed(p, m), StrKey(names[|names| - 1]), Prop(m, names[|names| - 1]));
      assert ApiFilter.StrKeys(names)[..|names| - 1] == ApiFilter.StrKeys(p);
    }
  }

  /** Each listed property maps to its stored value, undecoded; anything not
      listed is absent. */
  lemma {:induction false} ExposedFind(names: seq<string>, m: Resource, k: Key)
    ensures Find(Exposed(names, m), k) == if k.StrKey? && k.s in names then Some(Prop(m, k.s)) else None
  {
    if names != [] {
      var p := names[..|names| - 1];
      ExposedFind(p, m, k);
      FindSet(Exposed(p, m), StrKey(names[|names| - 1]), Prop(m, names[|names| - 1]), k);
      assert names == p + [names[|names| - 1]];
    }
  }

  /** A model with the default allow-list exposes nothing. */
  lemma DefaultExposesNothing(m: Resource)
    ensures Exposed(DefaultApiArrayFilter, m) == []
  {
  }

  /** With no `json` name in the list the two projections agree. */
  lemma {:induction false} ExposedIsFilteredWithoutJson(names: seq<string>, codec: JsonCodec, m: Resource)
    requires forall i :: 0 <= i < |names| ==> !PhpStrings.Contains(names[i], "json")
    ensures Exposed(names, m) == ApiFilter.Filtered(Some(names), codec, m)
  {
    if names != [] {
      var q := names[..|names| - 1];
      var p := names[|names| - 1];
      ExposedIsFilteredWithoutJson(q, codec, m);
      assert ApiFilter.FilteredValue(codec, m, p) == Prop(m, p);
      assert ApiFilter.FilterOver(names, codec, m) ==
        Set(ApiFilter.FilterOver(q, codec, m), StrKey(p), Prop(m, p));
    }
  }
}
