/** `extractJsonApiAttributes`: the request translator that turns a JSON:API
    request body into the flat attribute maps the models are filled from. */
module JsonApiRequest {
  import opened PhpValues
  import opened PhpArrays
  import opened PhpStrings
  import opened JsonApiTrait
  import opened Collaborators
  import ApiFilter

  /** `$v[$k]` on any value, null when `$v` is not an array or lacks the key. */
  function Field(v: Value, k: Key): Value
  {
    Lookup(v, k).GetOr(Null)
  }

  /** What `foreach` visits: the entries of an array, nothing for anything else. */
  function Entries(v: Value): seq<Entry>
  {
    match v
    case Arr(a) => a
    case _ => []
  }

  /** The value stored for attribute `k`: JSON-encoded when the key's text contains `json`. */
  function Encoded(codec: JsonCodec, k: Key, v: Value): Value
  {
    if Contains(KeyText(k), "json") then codec.encode(v) else v
  }

  /** The attribute loop: every entry of `attrs`, in order, written into `out`. */
  function CopyAttributes(codec: JsonCodec, out: seq<Entry>, attrs: seq<Entry>): seq<Entry>
  {
    if attrs == [] then out
    else
      var e := attrs[|attrs| - 1];
      Set(CopyAttributes(codec, out, attrs[..|attrs| - 1]), e.key, Encoded(codec, e.key, e.val))
  }

  /** A single resource: `data.attributes` is truthy. */
  predicate IsSingle(body: seq<Entry>)
  {
    Truthy(Get2(body, DataKey, AttributesKey))
  }

  /** A list of resources: `data` is a non-empty array whose first value has truthy `attributes`. */
  predicate IsBulk(body: seq<Entry>)
  {
    match Find(body, DataKey)
    case Some(Arr(d)) => |d| > 0 && Truthy(Field(d[0].val, AttributesKey))
    case _ => false
  }

  /** The map built for one item of a list: its id when truthy, then its attributes. */
  function Item(codec: JsonCodec, v: Value): seq<Entry>
  {
    var start := if Truthy(Field(v, IdKey)) then [Entry(IdKey, Field(v, IdKey))] else [];
    CopyAttributes(codec, start, Entries(Field(v, AttributesKey)))
  }

  /** The map of each item of a list. */
  function ItemMaps(codec: JsonCodec, vs: seq<Value>): (ms: seq<seq<Entry>>)
    ensures |ms| == |vs|
    ensures forall i :: 0 <= i < |vs| ==> ms[i] == Item(codec, vs[i])
  {
    seq(|vs|, i requires 0 <= i < |vs| => Item(codec, vs[i]))
  }

  /** The list built from the item maps: each non-empty one appended, empty ones skipped. */
  function Kept(ms: seq<seq<Entry>>): seq<Entry>
  {
    if ms == [] then []
    else
      var acc := Kept(ms[..|ms| - 1]);
      if |ms[|ms| - 1]| > 0 then Push(acc, Arr(ms[|ms| - 1])) else acc
  }

  /** `extractJsonApiAttributes($array)`. */
  function Extract(codec: JsonCodec, body: seq<Entry>): seq<Entry>
  {
    if IsSingle(body) then
      CopyAttributes(codec, [Entry(IdKey, Get2(body, DataKey, IdKey))],
                     Entries(Get2(body, DataKey, AttributesKey)))
    else if IsBulk(body) then
      Kept(ItemMaps(codec, Values(Entries(Get(body, DataKey)))))
    else []
  }

  lemma CopyStep(codec: JsonCodec, out: seq<Entry>, attrs: seq<Entry>, j: int)
    requires 0 <= j < |attrs|
    ensures CopyAttributes(codec, out, attrs[..j + 1]) ==
      Set(CopyAttributes(codec, out, attrs[..j]), attrs[j].key, Encoded(codec, attrs[j].key, attrs[j].val))
  {
    assert attrs[..j + 1][..j] == attrs[..j];
  }

  /** The attribute loop of `extractJsonApiAttributes`, writing into `out`. */
  method CopyAttributesLoop(codec: JsonCodec, out: seq<Entry>, attrs: seq<Entry>) returns (r: seq<Entry>)
    ensures r == CopyAttributes(codec, out, attrs)
  {
    r := out;
    var j := 0;
    while j < |attrs|
      invariant 0 <= j <= |attrs|
      invariant r == CopyAttributes(codec, out, attrs[..j])
    {
      CopyStep(codec, out, attrs, j);
      var e := attrs[j];
      if Contains(KeyText(e.key), "json") {
        r := Set(r, e.key, codec.encode(e.val));
      } else {
        r := Set(r, e.key, e.val);
      }
      j := j + 1;
    }
    assert attrs[..j] == attrs;
  }

  lemma KeptStep(ms: seq<seq<Entry>>, i: int)
    requires 0 <= i < |ms|
    ensures Kept(ms[..i + 1]) == if |ms[i]| > 0 then Push(Kept(ms[..i]), Arr(ms[i])) else Kept(ms[..i])
  {
    assert ms[..i + 1][..i] == ms[..i];
  }

  /** The body of the item loop: one item of a list turned into its map. */
  method ItemLoop(codec: JsonCodec, v: Value) returns (item: seq<Entry>)
    ensures item == Item(codec, v)
  {
    item := [];
    if Truthy(Field(v, IdKey)) {
      item := Set(item, IdKey, Field(v, IdKey));
      assert item == [Entry(IdKey, Field(v, IdKey))];
    }
    item := CopyAttributesLoop(codec, item, Entries(Field(v, AttributesKey)));
  }

  /** The item loop over the values of `data`. */
  method ItemsLoop(codec: JsonCodec, items: seq<Value>) returns (r: seq<Entry>)
    ensures r == Kept(ItemMaps(codec, items))
  {
    ghost var ms := ItemMaps(codec, items);
    r := [];
    var i := 0;
    while i < |items|
      invariant 0 <= i <= |items|
      invariant r == Kept(ms[..i])
    {
      KeptStep(ms, i);
      var item := ItemLoop(codec, items[i]);
      if |item| > 0 {
        r := Push(r, Arr(item));
      }
      i := i + 1;
    }
    assert ms[..i] == ms;
  }

  /** `extractJsonApiAttributes($array)`, loop by loop. */
  method ExtractJsonApiAttributes(codec: JsonCodec, body: seq<Entry>) returns (r: seq<Entry>)
    ensures r == Extract(codec, body)
  {
    r := [];
    if Truthy(Get2(body, DataKey, AttributesKey)) {
      r := Set(r, IdKey, Get2(body, DataKey, IdKey));
      assert r == [Entry(IdKey, Get2(body, DataKey, IdKey))];
      r := CopyAttributesLoop(codec, r, Entries(Get2(body, DataKey, AttributesKey)));
    } else if IsBulk(body) {
      r := ItemsLoop(codec, Values(Entries(Get(body, DataKey))));
    }
  }

  /** The attribute loop stores each attribute under its own key, encoded when
      the key names JSON, and leaves every other key of `out` as it was. */
  lemma {:induction false} CopyFind(codec: JsonCodec, out: seq<Entry>, attrs: seq<Entry>, k: Key)
    requires NoDupKeys(attrs)
    ensures Find(CopyAttributes(codec, out, attrs), k) ==
      match Find(attrs, k)
      case Some(v) => Some(Encoded(codec, k, v))
      case None => Find(out, k)
  {
    if attrs != [] {
      var p := attrs[..|attrs| - 1];
      var e := attrs[|attrs| - 1];
      assert attrs == p + [e];
      assert NoDupKeys(p);
      CopyFind(codec, out, p, k);
      FindSnoc(p, e, k);
      FindSet(CopyAttributes(codec, out, p), e.key, Encoded(codec, e.key, e.val), k);
      FindKeys(p, k);
      if e.key == k {
        assert k !in Keys(p);
      }
    }
  }

  /** The attribute loop yields an empty map only from an empty map and no attributes. */
  lemma {:induction false} CopyEmpty(codec: JsonCodec, out: seq<Entry>, attrs: seq<Entry>)
    ensures CopyAttributes(codec, out, attrs) == [] <==> out == [] && attrs == []
  {
    if attrs != [] {
      var e := attrs[|attrs| - 1];
      var r := CopyAttributes(codec, out, attrs);
      assert Find(r, e.key).Some?;
    }
  }

  /** A single-resource body: the result carries `data.id` under `id` unless an
      attribute is itself called `id`, and every attribute under its own key,
      JSON-encoded exactly when the key contains `json`; no other key appears. */
  lemma ExtractSingle(codec: JsonCodec, body: seq<Entry>, k: Key)
    requires IsSingle(body)
    requires NoDupKeys(Entries(Get2(body, DataKey, AttributesKey)))
    ensures Find(Extract(codec, body), k) ==
      match Find(Entries(Get2(body, DataKey, AttributesKey)), k)
      case Some(v) => Some(Encoded(codec, k, v))
      case None => if k == IdKey then Some(Get2(body, DataKey, IdKey)) else None
  {
    var start := [Entry(IdKey, Get2(body, DataKey, IdKey))];
    CopyFind(codec, start, Entries(Get2(body, DataKey, AttributesKey)), k);
    FindSnoc([], start[0], k);
    assert [] + [start[0]] == start;
  }

  /** One item of a list: its id only when truthy, its attributes encoded as in
      the single case, nothing else. */
  lemma ItemFind(codec: JsonCodec, v: Value, k: Key)
    requires NoDupKeys(Entries(Field(v, AttributesKey)))
    ensures Find(Item(codec, v), k) ==
      match Find(Entries(Field(v, AttributesKey)), k)
      case Some(x) => Some(Encoded(codec, k, x))
      case None => if k == IdKey && Truthy(Field(v, IdKey)) then Some(Field(v, IdKey)) else None
  {
    var start := if Truthy(Field(v, IdKey)) then [Entry(IdKey, Field(v, IdKey))] else [];
    CopyFind(codec, start, Entries(Field(v, AttributesKey)), k);
    if start != [] {
      FindSnoc([], start[0], k);
      assert [] + [start[0]] == start;
    }
  }

  /** An item yields no keys exactly when its id is falsy and it has no attributes. */
  lemma ItemEmpty(codec: JsonCodec, v: Value)
    ensures |Item(codec, v)| == 0 <==> !Truthy(Field(v, IdKey)) && Entries(Field(v, AttributesKey)) == []
  {
    var start := if Truthy(Field(v, IdKey)) then [Entry(IdKey, Field(v, IdKey))] else [];
    CopyEmpty(codec, start, Entries(Field(v, AttributesKey)));
  }

  /** A list body gives a list, no longer than the list of items. */
  lemma {:induction false} KeptList(ms: seq<seq<Entry>>)
    ensures IsList(Kept(ms)) && |Kept(ms)| <= |ms|
  {
    if ms != [] {
      KeptList(ms[..|ms| - 1]);
    }
  }

  /** Each item map with at least one key is in the result. */
  lemma {:induction false} KeptKeeps(ms: seq<seq<Entry>>, i: int)
    requires 0 <= i < |ms| && |ms[i]| > 0
    ensures Arr(ms[i]) in Values(Kept(ms))
  {
    var p := ms[..|ms| - 1];
    var acc := Kept(p);
    assert Values(Kept(ms)) == if |ms[|ms| - 1]| > 0 then Values(acc) + [Arr(ms[|ms| - 1])] else Values(acc);
    if i < |ms| - 1 {
      assert ms[i] == p[i];
      KeptKeeps(p, i);
    }
  }

  /** Every entry of the result is an item map with at least one key. */
  lemma {:induction false} KeptFrom(ms: seq<seq<Entry>>, j: int)
    requires 0 <= j < |Kept(ms)|
    ensures exists i :: 0 <= i < |ms| && |ms[i]| > 0 && Kept(ms)[j].val == Arr(ms[i])
  {
    var p := ms[..|ms| - 1];
    var acc := Kept(p);
    assert Values(Kept(ms)) == if |ms[|ms| - 1]| > 0 then Values(acc) + [Arr(ms[|ms| - 1])] else Values(acc);
    assert Kept(ms)[j].val == Values(Kept(ms))[j];
    if j < |acc| {
      KeptFrom(p, j);
      var i :| 0 <= i < |p| && |p[i]| > 0 && acc[j].val == Arr(p[i]);
      assert ms[i] == p[i];
      assert acc[j].val == Values(acc)[j];
    }
  }

  /** The item maps with at least one key, each as an array, front to back:
      what the list loop is meant to collect, stated without the loop's order. */
  function NonEmptyMaps(ms: seq<seq<Entry>>): (vs: seq<Value>)
    ensures forall v :: v in vs ==> v.Arr? && |v.entries| > 0
    ensures |vs| <= |ms|
  {
    if ms == [] then []
    else (if |ms[0]| > 0 then [Arr(ms[0])] else []) + NonEmptyMaps(ms[1..])
  }

  lemma {:induction false} NonEmptyMapsSnoc(ms: seq<seq<Entry>>, m: seq<Entry>)
    ensures NonEmptyMaps(ms + [m]) == NonEmptyMaps(ms) + (if |m| > 0 then [Arr(m)] else [])
  {
    if ms != [] {
      assert (ms + [m])[1..] == ms[1..] + [m];
      NonEmptyMapsSnoc(ms[1..], m);
    }
  }

  /** The list loop keeps exactly the non-empty item maps, in their order. */
  lemma {:induction false} KeptValues(ms: seq<seq<Entry>>)
    ensures Values(Kept(ms)) == NonEmptyMaps(ms)
  {
    if ms != [] {
      var p := ms[..|ms| - 1];
      KeptValues(p);
      NonEmptyMapsSnoc(p, ms[|ms| - 1]);
      assert p + [ms[|ms| - 1]] == ms;
    }
  }

  /** The attribute loop leaves the first key of a non-empty map in place. */
  lemma {:induction false} CopyFirst(codec: JsonCodec, out: seq<Entry>, attrs: seq<Entry>)
    requires out != []
    ensures var r := CopyAttributes(codec, out, attrs); r != [] && r[0].key == out[0].key
  {
    if attrs != [] {
      CopyFirst(codec, out, attrs[..|attrs| - 1]);
    }
  }

  /** A single resource's first entry is `id`: the attribute of that name when
      there is one, `data.id` otherwise. */
  lemma ExtractSingleFirst(codec: JsonCodec, body: seq<Entry>)
    requires IsSingle(body)
    requires NoDupKeys(Entries(Get2(body, DataKey, AttributesKey)))
    ensures var re := Extract(codec, body);
      re != [] && re[0].key == IdKey &&
      re[0].val == Find(Entries(Get2(body, DataKey, AttributesKey)), IdKey).GetOr(Get2(body, DataKey, IdKey))
  {
    var re := Extract(codec, body);
    CopyFirst(codec, [Entry(IdKey, Get2(body, DataKey, IdKey))], Entries(Get2(body, DataKey, AttributesKey)));
    ExtractSingle(codec, body, IdKey);
    NoRoom("id", "json");
    assert Find(re, IdKey) == Some(re[0].val);
  }

  /** Every item of a body that is not a single resource is a non-empty array. */
  lemma ExtractListItems(codec: JsonCodec, body: seq<Entry>)
    requires !IsSingle(body)
    ensures forall v :: v in Values(Extract(codec, body)) ==> v.Arr? && |v.entries| > 0
  {
    if IsBulk(body) {
      KeptValues(ItemMaps(codec, Values(Entries(Get(body, DataKey)))));
    }
  }

  /** The three shapes: a single resource always has an `id` key, a list body
      gives a list, and any other body gives the empty map. */
  lemma ExtractShapes(codec: JsonCodec, body: seq<Entry>)
    ensures IsSingle(body) ==> IdKey in Keys(Extract(codec, body))
    ensures !IsSingle(body) ==> IsList(Extract(codec, body))
    ensures !IsSingle(body) && !IsBulk(body) ==> Extract(codec, body) == []
  {
    if IsSingle(body) {
      var attrs := Entries(Get2(body, DataKey, AttributesKey));
      var start := [Entry(IdKey, Get2(body, DataKey, IdKey))];
      CopyKeeps(codec, start, attrs, IdKey);
      assert Find(start, IdKey).Some? by { FindSnoc([], start[0], IdKey); assert [] + [start[0]] == start; }
      FindKeys(Extract(codec, body), IdKey);
    } else if IsBulk(body) {
      KeptList(ItemMaps(codec, Values(Entries(Get(body, DataKey)))));
    }
  }

  /** The attribute loop never removes a key. */
  lemma {:induction false} CopyKeeps(codec: JsonCodec, out: seq<Entry>, attrs: seq<Entry>, k: Key)
    requires Find(out, k).Some?
    ensures Find(CopyAttributes(codec, out, attrs), k).Some?
  {
    if attrs != [] {
      var e := attrs[|attrs| - 1];
      CopyKeeps(codec, out, attrs[..|attrs| - 1], k);
      FindSet(CopyAttributes(codec, out, attrs[..|attrs| - 1]), e.key, Encoded(codec, e.key, e.val), k);
    }
  }

  /** A `json` attribute sent in a single-resource body, stored as extracted and
      read back through `getApiFilter`, comes back as it was sent. */
  lemma ExtractThenFilter(codec: JsonCodec, body: seq<Entry>, names: seq<string>, m: Resource, p: string, v: Value)
    requires RoundTrips(codec)
    requires IsSingle(body) && NoDupKeys(Entries(Get2(body, DataKey, AttributesKey)))
    requires Find(Entries(Get2(body, DataKey, AttributesKey)), StrKey(p)) == Some(v)
    requires Contains(p, "json") && p in names
    requires Prop(m, p) == Get(Extract(codec, body), StrKey(p))
    ensures Find(ApiFilter.Filtered(Some(names), codec, m), StrKey(p)) == Some(v)
  {
    ExtractSingle(codec, body, StrKey(p));
    ApiFilter.RoundTrip(names, codec, m, p, v);
  }
}
