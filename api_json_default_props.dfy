/** What the legacy actions promise, stated over the functions that specify
    them. The index and details lemmas hold for any starting document; the
    others start from the template or say so. */
module ApiJsonDefaultProps {
  import opened PhpValues
  import opened PhpArrays
  import opened Collaborators
  import opened JsonApiTrait
  import opened JsonTrait
  import opened ApiJsonDefault
  import ApiFilter
  import JsonApiDefault
  import JsonApiDefaultProps

  // ---------------------------------------------------------------- the template

  /** The template's `data` and `errors` are empty and it has no top-level `relationships`. */
  lemma TemplateReads()
    ensures Sub(JsonResponseArray, DataKey) == []
    ensures Find(JsonResponseArray, ErrorsKey) == Some(Arr([]))
    ensures Find(JsonResponseArray, RelationshipsKey) == None
  {
    var t := JsonResponseArray;
    FindAt(t, 0);
    FindAt(t, 1);
    FindKeys(t, RelationshipsKey);
  }

  // ---------------------------------------------------------------- jsonIndex

  /** A write under `links` made only when `c` holds: it changes that one link
      and no other top-level key. */
  lemma LinkWrite(a: seq<Entry>, c: bool, k: Key, v: Value, x: Key, j: Key)
    requires j != LinksKey
    ensures Get2(if c then SetIn(a, LinksKey, k, v) else a, LinksKey, x) ==
      if c && x == k then v else Get2(a, LinksKey, x)
    ensures Find(if c then SetIn(a, LinksKey, k, v) else a, j) == Find(a, j)
  {
    if c {
      Get2SetIn(a, LinksKey, k, v, x);
      FindSetIn(a, LinksKey, k, v, j);
    }
  }

  /** What `jsonIndex` writes before its loop, on any document: `meta.status`
      the integer 200, and every top-level key but `meta` and `links` as it was. */
  lemma IndexHeadMeta(cfg: Config, d: seq<Entry>, page: Page)
    ensures Get2(IndexHeadDoc(cfg, d, page), MetaKey, StatusKey) == Int(200)
    ensures forall j :: j != MetaKey && j != LinksKey ==> Find(IndexHeadDoc(cfg, d, page), j) == Find(d, j)
  {
    var l := Arr(JsonApiDefault.PageLinks(cfg.urlBase, page));
    var d1 := SetIn(d, MetaKey, StatusKey, Int(200));
    var d2 := Set(d1, LinksKey, l);
    var cn := HasUrl(page.nextPageUrl);
    var cp := HasUrl(page.previousPageUrl);
    var next := Str(page.nextPageUrl.GetOr(""));
    var prev := Str(page.previousPageUrl.GetOr(""));
    var d3 := if cn then SetIn(d2, LinksKey, NextKey, next) else d2;
    assert IndexHeadDoc(cfg, d, page) == if cp then SetIn(d3, LinksKey, PrevKey, prev) else d3;
    forall j | j != LinksKey ensures Find(IndexHeadDoc(cfg, d, page), j) == Find(d1, j) {
      FindSet(d1, LinksKey, l, j);
      LinkWrite(d2, cn, NextKey, next, NextKey, j);
      LinkWrite(d3, cp, PrevKey, prev, PrevKey, j);
    }
    forall j | j != MetaKey ensures Find(d1, j) == Find(d, j) {
      FindSetIn(d, MetaKey, StatusKey, Int(200), j);
    }
    Get2SetIn(d, MetaKey, StatusKey, Int(200), StatusKey);
  }

  /** The page links as first written: the four fixed urls, `prev` and `next` null. */
  lemma PageLinksReads(urlBase: string, page: Page)
    ensures var l := JsonApiDefault.PageLinks(urlBase, page);
      Get(l, CollectionKey) == Str(urlBase) &&
      Get(l, SelfKey) == Str(urlBase + "?page=" + IntToString(page.currentPage)) &&
      Get(l, FirstKey) == Str(urlBase + "?page=1") &&
      Get(l, LastKey) == Str(urlBase + "?page=" + IntToString(page.lastPage)) &&
      Get(l, PrevKey) == Null && Get(l, NextKey) == Null
  {
    var l := JsonApiDefault.PageLinks(urlBase, page);
    JsonApiDefaultProps.LinksReads(l[0].val, l[1].val, l[2].val, l[3].val);
    FindAt(l, 4);
    FindAt(l, 5);
  }

  /** The link writes of `jsonIndex`, over any links and urls. */
  lemma LinksChain(d1: seq<Entry>, l: seq<Entry>, cn: bool, next: Value, cp: bool, prev: Value, x: Key)
    ensures var d2 := Set(d1, LinksKey, Arr(l));
      var d3 := if cn then SetIn(d2, LinksKey, NextKey, next) else d2;
      Get2(if cp then SetIn(d3, LinksKey, PrevKey, prev) else d3, LinksKey, x) ==
        if x == PrevKey && cp then prev else if x == NextKey && cn then next else Get(l, x)
  {
    var d2 := Set(d1, LinksKey, Arr(l));
    var d3 := if cn then SetIn(d2, LinksKey, NextKey, next) else d2;
    Get2Set(d1, LinksKey, l, x);
    LinkWrite(d2, cn, NextKey, next, x, MetaKey);
    LinkWrite(d3, cp, PrevKey, prev, x, MetaKey);
  }

  /** The links `jsonIndex` writes, on any document: `collection`, `self`,
      `first` and `last` always, `next` and `prev` null unless the paginator has
      a truthy url for them. */
  lemma IndexHeadLinks(cfg: Config, d: seq<Entry>, page: Page)
    ensures Get2(IndexHeadDoc(cfg, d, page), LinksKey, CollectionKey) == Str(cfg.urlBase)
    ensures Get2(IndexHeadDoc(cfg, d, page), LinksKey, SelfKey) ==
      Str(cfg.urlBase + "?page=" + IntToString(page.currentPage))
    ensures Get2(IndexHeadDoc(cfg, d, page), LinksKey, FirstKey) == Str(cfg.urlBase + "?page=1")
    ensures Get2(IndexHeadDoc(cfg, d, page), LinksKey, LastKey) ==
      Str(cfg.urlBase + "?page=" + IntToString(page.lastPage))
    ensures Get2(IndexHeadDoc(cfg, d, page), LinksKey, NextKey) ==
      (if HasUrl(page.nextPageUrl) then Str(page.nextPageUrl.value) else Null)
    ensures Get2(IndexHeadDoc(cfg, d, page), LinksKey, PrevKey) ==
      (if HasUrl(page.previousPageUrl) then Str(page.previousPageUrl.value) else Null)
  {
    var l := JsonApiDefault.PageLinks(cfg.urlBase, page);
    var d1 := SetIn(d, MetaKey, StatusKey, Int(200));
    var cn := HasUrl(page.nextPageUrl);
    var cp := HasUrl(page.previousPageUrl);
    var next := Str(page.nextPageUrl.GetOr(""));
    var prev := Str(page.previousPageUrl.GetOr(""));
    PageLinksReads(cfg.urlBase, page);
    forall x | x in {CollectionKey, SelfKey, FirstKey, LastKey, NextKey, PrevKey}
      ensures Get2(IndexHeadDoc(cfg, d, page), LinksKey, x) ==
        if x == PrevKey && cp then prev else if x == NextKey && cn then next else Get(l, x)
    {
      LinksChain(d1, l, cn, next, cp, prev, x);
    }
  }

  /** The array key `data[$object->id]` uses for a record. */
  function IdKeyOf(obj: Resource): Key
  {
    KeyOf(Prop(obj, "id"))
  }

  function IdKeys(objs: seq<Resource>): (ks: seq<Key>)
    ensures |ks| == |objs|
    ensures forall i :: 0 <= i < |objs| ==> ks[i] == IdKeyOf(objs[i])
  {
    seq(|objs|, i requires 0 <= i < |objs| => IdKeyOf(objs[i]))
  }

  /** The last record of `objs` whose id gives the key `k`, if any. */
  function LastWithId(objs: seq<Resource>, k: Key): (r: Option<Resource>)
    ensures r.Some? ==> r.value in objs && IdKeyOf(r.value) == k
    ensures r.None? ==> forall o :: o in objs ==> IdKeyOf(o) != k
  {
    if objs == [] then None
    else if IdKeyOf(objs[|objs| - 1]) == k then Some(objs[|objs| - 1])
    else
      assert objs == objs[..|objs| - 1] + [objs[|objs| - 1]];
      LastWithId(objs[..|objs| - 1], k)
  }

  /** One pass of the loop writes one key of `data` and nothing else there. */
  lemma IndexStepData(cfg: Config, codec: JsonCodec, d: seq<Entry>, obj: Resource)
    ensures Sub(IndexStep(cfg, codec, d, obj), DataKey) ==
      Set(Sub(d, DataKey), IdKeyOf(obj), Arr(LegacyEntry(cfg, codec, obj)))
  {
    var e := Arr(LegacyEntry(cfg, codec, obj));
    var d1 := SetIn(d, DataKey, IdKeyOf(obj), e);
    FindSet(d1, RelationshipsKey, Arr([]), DataKey);
  }

  /** After the loop, each key of `data` holds the resource object of the LAST
      record with that id; a key no record has keeps what `data` held before. */
  lemma {:induction false} IndexDataFind(cfg: Config, codec: JsonCodec, d: seq<Entry>, objs: seq<Resource>, k: Key)
    ensures Find(Sub(IndexData(cfg, codec, d, objs), DataKey), k) ==
      match LastWithId(objs, k)
      case Some(o) => Some(Arr(LegacyEntry(cfg, codec, o)))
      case None => Find(Sub(d, DataKey), k)
  {
    if objs != [] {
      var p := objs[..|objs| - 1];
      var o := objs[|objs| - 1];
      IndexDataFind(cfg, codec, d, p, k);
      IndexStepData(cfg, codec, IndexData(cfg, codec, d, p), o);
      FindSet(Sub(IndexData(cfg, codec, d, p), DataKey), IdKeyOf(o), Arr(LegacyEntry(cfg, codec, o)), k);
    }
  }

  /** Starting from an empty `data`, the loop leaves one key per distinct record
      id, in order of first appearance: records sharing an id collapse to one entry. */
  lemma {:induction false} IndexDataKeys(cfg: Config, codec: JsonCodec, d: seq<Entry>, objs: seq<Resource>)
    requires Sub(d, DataKey) == []
    ensures Keys(Sub(IndexData(cfg, codec, d, objs), DataKey)) == Distinct(IdKeys(objs))
  {
    if objs != [] {
      var p := objs[..|objs| - 1];
      var o := objs[|objs| - 1];
      var x := IndexData(cfg, codec, d, p);
      var a := Sub(x, DataKey);
      IndexDataKeys(cfg, codec, d, p);
      IndexStepData(cfg, codec, x, o);
      SetKeys(a, IdKeyOf(o), Arr(LegacyEntry(cfg, codec, o)));
      IdKeysSnoc(objs);
      DistinctStep(a, Set(a, IdKeyOf(o), Arr(LegacyEntry(cfg, codec, o))), IdKeys(p), IdKeyOf(o));
    }
  }

  lemma IdKeysSnoc(objs: seq<Resource>)
    requires objs != []
    ensures IdKeys(objs) == IdKeys(objs[..|objs| - 1]) + [IdKeyOf(objs[|objs| - 1])]
  {
  }

  /** An array whose keys were the distinct `ks` and that got the key `k` set
      has the distinct keys of `ks + [k]`. */
  lemma DistinctStep(a: seq<Entry>, b: seq<Entry>, ks: seq<Key>, k: Key)
    requires Keys(a) == Distinct(ks)
    requires Keys(b) == if k in Keys(a) then Keys(a) else Keys(a) + [k]
    ensures Keys(b) == Distinct(ks + [k])
  {
    assert (ks + [k])[..|ks|] == ks;
  }

  /** Two records in a row with the same id: the document is the one the later
      record alone would give. */
  lemma IndexStepSameId(cfg: Config, codec: JsonCodec, d: seq<Entry>, a: Resource, b: Resource)
    requires IdKeyOf(a) == IdKeyOf(b)
    ensures IndexStep(cfg, codec, IndexStep(cfg, codec, d, a), b) == IndexStep(cfg, codec, d, b)
  {
    var k := IdKeyOf(a);
    var ea := Arr(LegacyEntry(cfg, codec, a));
    var eb := Arr(LegacyEntry(cfg, codec, b));
    var s := Sub(d, DataKey);
    var y := IndexStep(cfg, codec, d, a);
    IndexStepData(cfg, codec, d, a);
    SetSet(s, k, ea, eb);
    SetSetOver(d, DataKey, Arr(Set(s, k, ea)), RelationshipsKey, Arr([]), Arr(Set(s, k, eb)));
    SetSet(Set(d, DataKey, Arr(Set(s, k, eb))), RelationshipsKey, Arr([]), Arr([]));
  }

  /** One more record is one more pass of the loop. */
  lemma IndexDataSnoc(cfg: Config, codec: JsonCodec, d: seq<Entry>, objs: seq<Resource>, o: Resource)
    ensures IndexData(cfg, codec, d, objs + [o]) == IndexStep(cfg, codec, IndexData(cfg, codec, d, objs), o)
  {
    assert (objs + [o])[..|objs|] == objs;
  }

  /** `jsonIndex` keys `data` by id: of two consecutive records with the same
      id, the earlier one leaves no trace. */
  lemma IndexLaterWins(cfg: Config, codec: JsonCodec, d: seq<Entry>, objs: seq<Resource>, a: Resource, b: Resource)
    requires IdKeyOf(a) == IdKeyOf(b)
    ensures IndexData(cfg, codec, d, objs + [a, b]) == IndexData(cfg, codec, d, objs + [b])
  {
    assert objs + [a, b] == (objs + [a]) + [b];
    IndexDataSnoc(cfg, codec, d, objs + [a], b);
    IndexDataSnoc(cfg, codec, d, objs, a);
    IndexDataSnoc(cfg, codec, d, objs, b);
    IndexStepSameId(cfg, codec, IndexData(cfg, codec, d, objs), a, b);
  }

  /** The loop touches only `data` and `relationships`. */
  lemma {:induction false} IndexDataOther(cfg: Config, codec: JsonCodec, d: seq<Entry>, objs: seq<Resource>, j: Key)
    requires j != DataKey && j != RelationshipsKey
    ensures Find(IndexData(cfg, codec, d, objs), j) == Find(d, j)
  {
    if objs != [] {
      var p := objs[..|objs| - 1];
      var o := objs[|objs| - 1];
      var x := IndexData(cfg, codec, d, p);
      IndexDataOther(cfg, codec, d, p, j);
      var e := Arr(LegacyEntry(cfg, codec, o));
      FindSetIn(x, DataKey, IdKeyOf(o), e, j);
      FindSet(SetIn(x, DataKey, IdKeyOf(o), e), RelationshipsKey, Arr([]), j);
    }
  }

  /** The top-level `relationships` is an empty array once any record was seen. */
  lemma IndexDataRelationships(cfg: Config, codec: JsonCodec, d: seq<Entry>, objs: seq<Resource>)
    ensures Find(IndexData(cfg, codec, d, objs), RelationshipsKey) ==
      if objs == [] then Find(d, RelationshipsKey) else Some(Arr([]))
  {
  }

  /** `jsonIndex` on a fresh controller: one query for a page of 200, the
      integer status 200 from `meta`, `data` keyed by the distinct record ids
      each holding the last record with that id, `relationships` only when the
      page is not empty, and `errors` left as the empty list. */
  lemma IndexAnswers(cfg: Config, codec: JsonCodec, page: Page)
    ensures var a := IndexSpec(cfg, codec, JsonResponseArray, page);
      a.reply == Json(a.doc, Int(200)) && a.calls == [Paginate(200)] &&
      Keys(Sub(a.doc, DataKey)) == Distinct(IdKeys(page.items)) &&
      Find(a.doc, ErrorsKey) == Some(Arr([])) &&
      Find(a.doc, RelationshipsKey) == (if page.items == [] then None else Some(Arr([])))
    ensures forall k :: (Find(Sub(IndexSpec(cfg, codec, JsonResponseArray, page).doc, DataKey), k) ==
      match LastWithId(page.items, k)
      case Some(o) => Some(Arr(LegacyEntry(cfg, codec, o)))
      case None => None)
  {
    var h := IndexHeadDoc(cfg, JsonResponseArray, page);
    TemplateReads();
    IndexHeadMeta(cfg, JsonResponseArray, page);
    IndexDataOther(cfg, codec, h, page.items, MetaKey);
    IndexDataOther(cfg, codec, h, page.items, ErrorsKey);
    IndexDataRelationships(cfg, codec, h, page.items);
    assert Sub(h, DataKey) == [];
    IndexDataKeys(cfg, codec, h, page.items);
    forall k ensures Find(Sub(IndexData(cfg, codec, h, page.items), DataKey), k) ==
      match LastWithId(page.items, k)
      case Some(o) => Some(Arr(LegacyEntry(cfg, codec, o)))
      case None => None
    {
      IndexDataFind(cfg, codec, h, page.items, k);
    }
  }

  /** `jsonIndex` leaves the links its head wrote. */
  lemma IndexKeepsLinks(cfg: Config, codec: JsonCodec, d: seq<Entry>, page: Page)
    ensures Find(IndexSpec(cfg, codec, d, page).doc, LinksKey) == Find(IndexHeadDoc(cfg, d, page), LinksKey)
  {
    IndexDataOther(cfg, codec, IndexHeadDoc(cfg, d, page), page.items, LinksKey);
  }

  // ---------------------------------------------------------------- jsonDetails

  /** The fields of a legacy resource object: the raw id, the table and the filtered attributes. */
  lemma LegacyEntryFields(cfg: Config, codec: JsonCodec, obj: Resource)
    ensures Get(LegacyEntry(cfg, codec, obj), IdKey) == Prop(obj, "id")
    ensures Get(LegacyEntry(cfg, codec, obj), TypeKey) == Str(cfg.model.table)
    ensures Get(LegacyEntry(cfg, codec, obj), AttributesKey) == Arr(ApiAttributes(cfg, codec, obj))
  {
    var e := LegacyEntry(cfg, codec, obj);
    FindAt(e, 1);
    FindAt(e, 2);
  }

  /** `jsonDetails` of a missing record: `errors` becomes one error MAP, not a
      list holding it, the answer is its status "404", and nothing else changes. */
  lemma DetailsMissing(cfg: Config, codec: JsonCodec, d: seq<Entry>, id: int)
    ensures var a := DetailsSpec(cfg, codec, d, id, None);
      a.reply == Json(a.doc, Str("404")) && a.calls == [FindById(Int(id))] &&
      Find(a.doc, ErrorsKey) == Some(Arr(LegacyNotFound(cfg))) &&
      Find(LegacyNotFound(cfg), IntKey(0)) == None
    ensures forall j :: j != ErrorsKey ==> Find(DetailsSpec(cfg, codec, d, id, None).doc, j) == Find(d, j)
  {
    FindKeys(LegacyNotFound(cfg), IntKey(0));
    forall j | j != ErrorsKey ensures Find(DetailsSpec(cfg, codec, d, id, None).doc, j) == Find(d, j) {
      FindSet(d, ErrorsKey, Arr(LegacyNotFound(cfg)), j);
    }
  }

  /** `jsonDetails` of a record: the integer status 200 and count 1 in `meta`,
      the links of the collection and of the record (url base, "/", the
      record's id), the record under `data`, an empty `relationships`, and
      `errors` as it was. */
  lemma DetailsFound(cfg: Config, codec: JsonCodec, d: seq<Entry>, id: int, obj: Resource)
    ensures var a := DetailsSpec(cfg, codec, d, id, Some(obj));
      a.reply == Json(a.doc, Int(200)) && a.calls == [FindById(Int(id))] &&
      Get2(a.doc, MetaKey, CountKey) == Int(1) &&
      Get2(a.doc, LinksKey, CollectionKey) == Str(cfg.urlBase) &&
      Get2(a.doc, LinksKey, SelfKey) == Str(cfg.urlBase + "/" + ToPhpString(Prop(obj, "id"))) &&
      Find(a.doc, DataKey) == Some(Arr(LegacyEntry(cfg, codec, obj))) &&
      Find(a.doc, RelationshipsKey) == Some(Arr([])) &&
      Find(a.doc, ErrorsKey) == Find(d, ErrorsKey)
  {
    var l := DetailsLinks(cfg, obj);
    var e := Arr(LegacyEntry(cfg, codec, obj));
    var d1 := SetIn(d, MetaKey, StatusKey, Int(200));
    var d2 := SetIn(d1, MetaKey, CountKey, Int(1));
    var d3 := Set(d2, LinksKey, Arr(l));
    var d4 := Set(d3, DataKey, e);
    var d5 := Set(d4, RelationshipsKey, Arr([]));
    Get2SetIn(d, MetaKey, StatusKey, Int(200), CountKey);
    Get2SetIn(d1, MetaKey, CountKey, Int(1), StatusKey);
    forall x | x == StatusKey || x == CountKey ensures Get2(d5, MetaKey, x) == Get2(d2, MetaKey, x) {
      Get2SetOther(d2, LinksKey, Arr(l), MetaKey, x);
      Get2SetOther(d3, DataKey, e, MetaKey, x);
      Get2SetOther(d4, RelationshipsKey, Arr([]), MetaKey, x);
    }
    forall x ensures Get2(d5, LinksKey, x) == Get(l, x) {
      Get2SetOther(d4, RelationshipsKey, Arr([]), LinksKey, x);
      Get2SetOther(d3, DataKey, e, LinksKey, x);
    }
    FindAt(l, 1);
    FindSet(d4, RelationshipsKey, Arr([]), DataKey);
    FindSet(d4, RelationshipsKey, Arr([]), ErrorsKey);
    FindSet(d3, DataKey, e, ErrorsKey);
    FindSet(d2, LinksKey, Arr(l), ErrorsKey);
    FindSetIn(d1, MetaKey, CountKey, Int(1), ErrorsKey);
    FindSetIn(d, MetaKey, StatusKey, Int(200), ErrorsKey);
  }

  // ---------------------------------------------------------------- the writing actions

  /** The top-level `status` and `detail` read back as written; other keys unchanged. */
  lemma StatusDocReads(d: seq<Entry>, status: string, detail: string)
    ensures Get(StatusDoc(d, status, detail), StatusKey) == Str(status)
    ensures Get(StatusDoc(d, status, detail), DetailKey) == Str(detail)
    ensures forall j :: j != StatusKey && j != DetailKey ==> Find(StatusDoc(d, status, detail), j) == Find(d, j)
  {
    var d1 := Set(d, StatusKey, Str(status));
    FindSet(d1, DetailKey, Str(detail), StatusKey);
    forall j | j != StatusKey && j != DetailKey ensures Find(StatusDoc(d, status, detail), j) == Find(d, j) {
      FindSet(d1, DetailKey, Str(detail), j);
      FindSet(d, StatusKey, Str(status), j);
    }
  }

  /** A failed validation: status "422", the fixed detail and the message bag. */
  lemma InvalidReads(d: seq<Entry>, bag: MessageBag)
    ensures Get(InvalidDoc(d, bag), StatusKey) == Str("422")
    ensures Get(InvalidDoc(d, bag), DetailKey) == Str("Input validation has failed.")
    ensures Find(InvalidDoc(d, bag), ValidatorErrorsKey) == Some(BagValue(bag))
  {
    var s := StatusDoc(d, "422", "Input validation has failed.");
    StatusDocReads(d, "422", "Input validation has failed.");
    FindSet(s, ValidatorErrorsKey, BagValue(bag), StatusKey);
    FindSet(s, ValidatorErrorsKey, BagValue(bag), DetailKey);
  }

  /** A written record: the filtered record under the singular table name, and
      the status and detail unless that name is itself `status` or `detail`,
      which the record then overwrites. */
  lemma WrittenReads(cfg: Config, codec: JsonCodec, d: seq<Entry>, status: string, detail: string, stored: Resource)
    ensures Find(WrittenDoc(cfg, codec, d, status, detail, stored), StrKey(cfg.model.singularTable)) ==
      Some(Arr(ApiAttributes(cfg, codec, stored)))
    ensures cfg.model.singularTable != "status" ==>
      Get(WrittenDoc(cfg, codec, d, status, detail, stored), StatusKey) == Str(status)
    ensures cfg.model.singularTable != "detail" ==>
      Get(WrittenDoc(cfg, codec, d, status, detail, stored), DetailKey) == Str(detail)
  {
    var s := StatusDoc(d, status, detail);
    var v := Arr(ApiAttributes(cfg, codec, stored));
    StatusDocReads(d, status, detail);
    FindSet(s, StrKey(cfg.model.singularTable), v, StatusKey);
    FindSet(s, StrKey(cfg.model.singularTable), v, DetailKey);
  }

  /** `jsonCreate`: on failure status "422" with the bag and nothing saved; on
      success the request saved as a new record, status "201", the detail naming
      the table, and the stored record filtered under the singular table name. */
  lemma CreateAnswers(cfg: Config, codec: JsonCodec, validate: Validator, d: seq<Entry>,
                      request: seq<Entry>, stored: Resource)
    ensures var a := CreateSpec(cfg, codec, validate, d, request, stored);
      var bag := validate(Arr(request), ModelRules(None, None));
      (Fails(bag) ==> a.calls == [] && a.reply == Json(a.doc, Str("422")) &&
                      Find(a.doc, ValidatorErrorsKey) == Some(BagValue(bag))) &&
      (!Fails(bag) ==> a.calls == [Save(None, Arr(request))] &&
                       Find(a.doc, StrKey(cfg.model.singularTable)) == Some(Arr(ApiAttributes(cfg, codec, stored))) &&
                       (cfg.model.singularTable != "status" ==> a.reply == Json(a.doc, Str("201"))) &&
                       (cfg.model.singularTable != "detail" ==>
                          Get(a.doc, DetailKey) == Str("The " + cfg.model.table + " was created.")))
  {
    InvalidReads(d, validate(Arr(request), ModelRules(None, None)));
    WrittenReads(cfg, codec, d, "201", "The " + cfg.model.table + " was created.", stored);
  }

  /** `$filtered` holds one key per distinct fillable field, in order. */
  lemma {:induction false} FillableKeys(names: seq<string>, request: seq<Entry>)
    ensures Keys(FillableInput(names, request)) == Distinct(ApiFilter.StrKeys(names))
  {
    if names != [] {
      var p := names[..|names| - 1];
      var n := names[|names| - 1];
      FillableKeys(p, request);
      SetKeys(FillableInput(p, request), StrKey(n), Get(request, StrKey(n)));
      assert ApiFilter.StrKeys(names)[..|names| - 1] == ApiFilter.StrKeys(p);
    }
  }

  /** Each fillable field maps to its request value (null when absent); no other key is present. */
  lemma {:induction false} FillableFind(names: seq<string>, request: seq<Entry>, k: Key)
    ensures Find(FillableInput(names, request), k) ==
      if k.StrKey? && k.s in names then Some(Get(request, k)) else None
  {
    if names != [] {
      var p := names[..|names| - 1];
      var n := names[|names| - 1];
      FillableFind(p, request, k);
      FindSet(FillableInput(p, request), StrKey(n), Get(request, StrKey(n)), k);
      assert names == p + [n];
    }
  }

  /** The input of `jsonElementReplace` and `jsonElementUpdate` has exactly the
      fillable fields and `id` as keys, each once; `id` is the id of the url even
      when `id` is fillable, and every other field is its request value. */
  lemma FilteredInputShape(cfg: Config, request: seq<Entry>, id: int, k: Key)
    ensures Keys(FilteredInput(cfg, request, id)) == Distinct(ApiFilter.StrKeys(cfg.model.fillable) + [IdKey])
    ensures Find(FilteredInput(cfg, request, id), k) ==
      if k == IdKey then Some(Int(id))
      else if k.StrKey? && k.s in cfg.model.fillable then Some(Get(request, k))
      else None
  {
    var ks := ApiFilter.StrKeys(cfg.model.fillable);
    var f := FillableInput(cfg.model.fillable, request);
    FillableKeys(cfg.model.fillable, request);
    FillableFind(cfg.model.fillable, request, k);
    SetKeys(f, IdKey, Int(id));
    FindSet(f, IdKey, Int(id), k);
    assert (ks + [IdKey])[..|ks|] == ks;
  }

  /** `jsonElementReplace`: a failed validation looks nothing up and answers
      "422"; otherwise the record is looked up, a missing one is fatal, and an
      existing one is force-deleted and a new record saved from the input,
      answering "200" with "The <singular table> was replaced.". */
  lemma ElementReplaceAnswers(cfg: Config, codec: JsonCodec, validate: Validator, d: seq<Entry>,
                              request: seq<Entry>, id: int, found: Option<Resource>, stored: Resource)
    ensures var a := ElementReplaceSpec(cfg, codec, validate, d, request, id, found, stored);
      var filtered := FilteredInput(cfg, request, id);
      var bag := validate(Arr(filtered), LegacyRules(id));
      (Fails(bag) ==> a.calls == [] && a.reply == Json(a.doc, Str("422"))) &&
      (!Fails(bag) && found.None? ==> a.reply.Fatal? && a.doc == d && a.calls == [FindById(Int(id))]) &&
      (!Fails(bag) && found.Some? ==>
        a.calls == [FindById(Int(id)), ForceDelete(found.value), Save(None, Arr(filtered))] &&
        (cfg.model.singularTable != "status" ==> a.reply == Json(a.doc, Str("200"))) &&
        (cfg.model.singularTable != "detail" ==>
           Get(a.doc, DetailKey) == Str("The " + cfg.model.singularTable + " was replaced.")))
  {
    InvalidReads(d, validate(Arr(FilteredInput(cfg, request, id)), LegacyRules(id)));
    WrittenReads(cfg, codec, d, "200", "The " + cfg.model.singularTable + " was replaced.", stored);
  }

  /** `jsonElementUpdate`: like the replace, but the existing record is filled
      and saved in place, and nothing is deleted. */
  lemma ElementUpdateAnswers(cfg: Config, codec: JsonCodec, validate: Validator, d: seq<Entry>,
                             request: seq<Entry>, id: int, found: Option<Resource>, stored: Resource)
    ensures var a := ElementUpdateSpec(cfg, codec, validate, d, request, id, found, stored);
      var filtered := FilteredInput(cfg, request, id);
      var bag := validate(Arr(filtered), LegacyRules(id));
      (Fails(bag) ==> a.calls == [] && a.reply == Json(a.doc, Str("422"))) &&
      (!Fails(bag) && found.None? ==> a.reply.Fatal? && a.doc == d && a.calls == [FindById(Int(id))]) &&
      (!Fails(bag) && found.Some? ==>
        a.calls == [FindById(Int(id)), Save(found, Arr(filtered))] &&
        (cfg.model.singularTable != "status" ==> a.reply == Json(a.doc, Str("200"))) &&
        (cfg.model.singularTable != "detail" ==>
           Get(a.doc, DetailKey) == Str("The " + cfg.model.singularTable + " was replaced.")))
  {
    InvalidReads(d, validate(Arr(FilteredInput(cfg, request, id)), LegacyRules(id)));
    WrittenReads(cfg, codec, d, "200", "The " + cfg.model.singularTable + " was replaced.", stored);
  }

  /** `jsonElementDelete`: "404" and nothing deleted when the record is
      missing; otherwise the record deleted and "200"; the detail names the
      table either way. */
  lemma ElementDeleteAnswers(cfg: Config, d: seq<Entry>, id: int, found: Option<Resource>)
    ensures var a := ElementDeleteSpec(cfg, d, id, found);
      (found.None? ==> a.reply == Json(a.doc, Str("404")) && a.calls == [FindById(Int(id))] &&
                       Get(a.doc, DetailKey) == Str("The " + cfg.model.table + " could not be found.")) &&
      (found.Some? ==> a.reply == Json(a.doc, Str("200")) && a.calls == [FindById(Int(id)), Delete(found.value)] &&
                       Get(a.doc, DetailKey) == Str("The " + cfg.model.table + " was deleted."))
  {
    StatusDocReads(d, "404", "The " + cfg.model.table + " could not be found.");
    StatusDocReads(d, "200", "The " + cfg.model.table + " was deleted.");
  }
}
