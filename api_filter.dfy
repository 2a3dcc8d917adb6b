/** `getApiFilter`: the attributes a model exposes to the API, read through its
    allow-list, with every `json` attribute decoded. */
module ApiFilter {
  import opened PhpValues
  import opened PhpArrays
  import opened PhpStrings
  import opened Collaborators

  /** The value `getApiFilter` stores under `property`. */
  function FilteredValue(codec: JsonCodec, m: Resource, property: string): Value
  {
    if Contains(property, "json") then codec.decode(Prop(m, property)) else Prop(m, property)
  }

  /** The map built by the loop over the first `|names|` entries of the filter. */
  function FilterOver(names: seq<string>, codec: JsonCodec, m: Resource): seq<Entry>
  {
    if names == [] then []
    else
      var p := names[|names| - 1];
      Set(FilterOver(names[..|names| - 1], codec, m), StrKey(p), FilteredValue(codec, m, p))
  }

  /** `getApiFilter($model)`; a missing or null `$api_array_filter` reads as `[]`. */
  function Filtered(filter: Option<seq<string>>, codec: JsonCodec, m: Resource): seq<Entry>
  {
    FilterOver(filter.GetOr([]), codec, m)
  }

  /** The loop of `getApiFilter`, one property at a time. */
  method GetApiFilter(filter: Option<seq<string>>, codec: JsonCodec, m: Resource)
    returns (r: seq<Entry>)
    ensures r == Filtered(filter, codec, m)
  {
    var names := filter.GetOr([]);
    r := [];
    var i := 0;
    while i < |names|
      invariant 0 <= i <= |names|
      invariant r == FilterOver(names[..i], codec, m)
    {
      FilterStep(names, i, codec, m);
      r := Set(r, StrKey(names[i]), FilteredValue(codec, m, names[i]));
      i := i + 1;
    }
    assert names[..i] == names;
  }

  lemma FilterStep(names: seq<string>, i: int, codec: JsonCodec, m: Resource)
    requires 0 <= i < |names|
    ensures FilterOver(names[..i + 1], codec, m) ==
      Set(FilterOver(names[..i], codec, m), StrKey(names[i]), FilteredValue(codec, m, names[i]))
  {
    assert names[..i + 1][..i] == names[..i];
  }

  function StrKeys(names: seq<string>): (ks: seq<Key>)
    ensures |ks| == |names|
    ensures forall i :: 0 <= i < |names| ==> ks[i] == StrKey(names[i])
  {
    seq(|names|, i requires 0 <= i < |names| => StrKey(names[i]))
  }

  /** The result holds exactly the listed properties, in list order, each once. */
  lemma {:induction false} FilterKeys(names: seq<string>, codec: JsonCodec, m: Resource)
    ensures Keys(FilterOver(names, codec, m)) == Distinct(StrKeys(names))
  {
    if names != [] {
      var p := names[..|names| - 1];
      FilterKeys(p, codec, m);
      SetKeys(FilterOver(p, codec, m), StrKey(names[|names| - 1]), FilteredValue(codec, m, names[|names| - 1]));
      assert StrKeys(names)[..|names| - 1] == StrKeys(p);
    }
  }

  /** Each listed property maps to its value, decoded when its name contains
      `json`; an unlisted key is absent. */
  lemma {:induction false} FilterFind(names: seq<string>, codec: JsonCodec, m: Resource, k: Key)
    ensures Find(FilterOver(names, codec, m), k) ==
      if k.StrKey? && k.s in names then Some(FilteredValue(codec, m, k.s)) else None
  {
    if names != [] {
      var p := names[..|names| - 1];
      FilterFind(p, codec, m, k);
      FindSet(FilterOver(p, codec, m), StrKey(names[|names| - 1]), FilteredValue(codec, m, names[|names| - 1]), k);
      assert names == p + [names[|names| - 1]];
    }
  }

  /** A missing or null filter exposes nothing. */
  lemma NoFilter(codec: JsonCodec, m: Resource)
    ensures Filtered(None, codec, m) == []
  {
  }

  /** A value stored JSON-encoded under a listed `json` property is read back as
      it was before encoding. */
  lemma RoundTrip(names: seq<string>, codec: JsonCodec, m: Resource, property: string, v: Value)
    requires RoundTrips(codec)
    requires property in names && Contains(property, "json")
    requires Prop(m, property) == codec.encode(v)
    ensures Find(Filtered(Some(names), codec, m), StrKey(property)) == Some(v)
  {
    FilterFind(names, codec, m, StrKey(property));
  }
}
