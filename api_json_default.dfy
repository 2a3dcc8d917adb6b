/** The legacy controller: six actions that write the older response shape into
    `$json_api_response_array`. Index and details fill `meta`, `links` and a
    `data` keyed by record id; the writing actions answer with a top-level
    `status` and `detail`. As for the JSON:API controller, each action is a
    function from the old document and the store's answers to an `Answer`, and
    a method of `ApiJsonController` proved to end in that answer. */
module ApiJsonDefault {
  import opened PhpValues
  import opened PhpArrays
  import opened Collaborators
  import opened JsonApiTrait
  import opened JsonTrait
  import ApiFilter
  import JsonApiDefault

  /** What a legacy action leaves behind: the document, the reply (a fatal error
      when it dereferences a missing record) and the store calls, in order. */
  datatype Answer = Answer(doc: seq<Entry>, reply: Reply, calls: seq<StoreCall>)

  // ---------------------------------------------------------------- building blocks

  /** `$object->getApiFilter($object)`: the record read through the model's allow-list. */
  function ApiAttributes(cfg: Config, codec: JsonCodec, obj: Resource): seq<Entry>
  {
    ApiFilter.Filtered(Some(cfg.model.apiArrayFilter), codec, obj)
  }

  /** The resource object of the legacy shape: the raw `id`, the table as `type`
      and the filtered attributes. */
  function LegacyEntry(cfg: Config, codec: JsonCodec, obj: Resource): seq<Entry>
  {
    [Entry(IdKey, Prop(obj, "id")),
     Entry(TypeKey, Str(cfg.model.table)),
     Entry(AttributesKey, Arr(ApiAttributes(cfg, codec, obj)))]
  }

  /** `if ($objects->nextPageUrl())`: the paginator handed back a truthy url. */
  predicate HasUrl(u: Option<string>)
  {
    u.Some? && Truthy(Str(u.value))
  }

  /** `jsonIndex` up to its loop: `meta.status` the integer 200, the page links,
      and `next`/`prev` only when the paginator has a url for them. */
  function IndexHeadDoc(cfg: Config, d: seq<Entry>, page: Page): seq<Entry>
  {
    var d1 := SetIn(d, MetaKey, StatusKey, Int(200));
    var d2 := Set(d1, LinksKey, Arr(JsonApiDefault.PageLinks(cfg.urlBase, page)));
    var d3 := if HasUrl(page.nextPageUrl) then SetIn(d2, LinksKey, NextKey, Str(page.nextPageUrl.value)) else d2;
    if HasUrl(page.previousPageUrl) then SetIn(d3, LinksKey, PrevKey, Str(page.previousPageUrl.value)) else d3
  }

  /** One pass of the `jsonIndex` loop: the record under `data[$object->id]`,
      then a top-level empty `relationships`. */
  function IndexStep(cfg: Config, codec: JsonCodec, d: seq<Entry>, obj: Resource): seq<Entry>
  {
    var d1 := SetIn(d, DataKey, KeyOf(Prop(obj, "id")), Arr(LegacyEntry(cfg, codec, obj)));
    Set(d1, RelationshipsKey, Arr([]))
  }

  /** The `jsonIndex` loop over the records `objs`, in order. */
  function IndexData(cfg: Config, codec: JsonCodec, d: seq<Entry>, objs: seq<Resource>): seq<Entry>
  {
    if objs == [] then d
    else IndexStep(cfg, codec, IndexData(cfg, codec, d, objs[..|objs| - 1]), objs[|objs| - 1])
  }

  /** `jsonIndex`: one page, answered with `meta.status`. */
  function IndexSpec(cfg: Config, codec: JsonCodec, d: seq<Entry>, page: Page): Answer
  {
    var d1 := IndexData(cfg, codec, IndexHeadDoc(cfg, d, page), page.items);
    Answer(d1, Json(d1, Get2(d1, MetaKey, StatusKey)), [Paginate(MaximumResponseNumber)])
  }

  /** The single error map `jsonDetails` writes for a missing record. */
  function LegacyNotFound(cfg: Config): seq<Entry>
  {
    [Entry(StatusKey, Str("404")),
     Entry(TitleKey, Str("Resource could not found")),
     Entry(DetailKey, Str("The " + cfg.model.singularTable + " could not be found."))]
  }

  /** The links of `jsonDetails`: the collection and the record's own url. */
  function DetailsLinks(cfg: Config, obj: Resource): seq<Entry>
  {
    [Entry(CollectionKey, Str(cfg.urlBase)),
     Entry(SelfKey, Str(cfg.urlBase + "/" + ToPhpString(Prop(obj, "id"))))]
  }

  /** The document of `jsonDetails` for a record that was found. */
  function DetailsDoc(cfg: Config, codec: JsonCodec, d: seq<Entry>, obj: Resource): seq<Entry>
  {
    var d1 := SetIn(d, MetaKey, StatusKey, Int(200));
    var d2 := SetIn(d1, MetaKey, CountKey, Int(1));
    var d3 := Set(d2, LinksKey, Arr(DetailsLinks(cfg, obj)));
    var d4 := Set(d3, DataKey, Arr(LegacyEntry(cfg, codec, obj)));
    Set(d4, RelationshipsKey, Arr([]))
  }

  /** `jsonDetails`: the 404 answer reads its status from the error map, the
      other from `meta`. */
  function DetailsSpec(cfg: Config, codec: JsonCodec, d: seq<Entry>, id: int, found: Option<Resource>): Answer
  {
    match found
    case None =>
      var d1 := Set(d, ErrorsKey, Arr(LegacyNotFound(cfg)));
      Answer(d1, Json(d1, Get2(d1, ErrorsKey, StatusKey)), [FindById(Int(id))])
    case Some(obj) =>
      var d1 := DetailsDoc(cfg, codec, d, obj);
      Answer(d1, Json(d1, Get2(d1, MetaKey, StatusKey)), [FindById(Int(id))])
  }

  /** The top-level `status` and `detail` every writing action sets. */
  function StatusDoc(d: seq<Entry>, status: string, detail: string): seq<Entry>
  {
    Set(Set(d, StatusKey, Str(status)), DetailKey, Str(detail))
  }

  /** The document after a failed validation: status "422", a fixed detail and the message bag. */
  function InvalidDoc(d: seq<Entry>, bag: MessageBag): seq<Entry>
  {
    Set(StatusDoc(d, "422", "Input validation has failed."), ValidatorErrorsKey, BagValue(bag))
  }

  /** The document after a record was written: status, detail, and the record
      filtered under the singular table name. */
  function WrittenDoc(cfg: Config, codec: JsonCodec, d: seq<Entry>, status: string, detail: string,
                      stored: Resource): seq<Entry>
  {
    Set(StatusDoc(d, status, detail), StrKey(cfg.model.singularTable), Arr(ApiAttributes(cfg, codec, stored)))
  }

  /** An answer with the document's own top-level `status`. */
  function Answered(d: seq<Entry>, calls: seq<StoreCall>): Answer
  {
    Answer(d, Json(d, Get(d, StatusKey)), calls)
  }

  /** `jsonCreate`: the request validated and saved as a new record; `stored` is
      the record as the store holds it after `save()`. */
  function CreateSpec(cfg: Config, codec: JsonCodec, validate: Validator, d: seq<Entry>,
                      request: seq<Entry>, stored: Resource): Answer
  {
    var bag := validate(Arr(request), ModelRules(None, None));
    if Fails(bag) then Answered(InvalidDoc(d, bag), [])
    else
      Answered(WrittenDoc(cfg, codec, d, "201", "The " + cfg.model.table + " was created.", stored),
               [Save(None, Arr(request))])
  }

  /** `$filtered` after the loop over the fillable fields `names`: each field's
      request value, null when the request lacks it. */
  function FillableInput(names: seq<string>, request: seq<Entry>): seq<Entry>
  {
    if names == [] then []
    else
      var p := names[|names| - 1];
      Set(FillableInput(names[..|names| - 1], request), StrKey(p), Get(request, StrKey(p)))
  }

  /** The map `jsonElementReplace` and `jsonElementUpdate` validate and save:
      the fillable fields, then `id` set to the id of the url. */
  function FilteredInput(cfg: Config, request: seq<Entry>, id: int): seq<Entry>
  {
    Set(FillableInput(cfg.model.fillable, request), IdKey, Int(id))
  }

  /** `jsonElementReplace`: on success the old record force-deleted and a fresh
      one saved from the input; a missing old record is a fatal error. */
  function ElementReplaceSpec(cfg: Config, codec: JsonCodec, validate: Validator, d: seq<Entry>,
                              request: seq<Entry>, id: int, found: Option<Resource>,
                              stored: Resource): Answer
  {
    var filtered := FilteredInput(cfg, request, id);
    var bag := validate(Arr(filtered), LegacyRules(id));
    if Fails(bag) then Answered(InvalidDoc(d, bag), [])
    else
      match found
      case None => Answer(d, Fatal("forceDelete() on null"), [FindById(Int(id))])
      case Some(previous) =>
        Answered(WrittenDoc(cfg, codec, d, "200", "The " + cfg.model.singularTable + " was replaced.", stored),
                 [FindById(Int(id))] + [ForceDelete(previous), Save(None, Arr(filtered))])
  }

  /** `jsonElementUpdate`: on success the record filled from the input and saved;
      a missing record is a fatal error. */
  function ElementUpdateSpec(cfg: Config, codec: JsonCodec, validate: Validator, d: seq<Entry>,
                             request: seq<Entry>, id: int, found: Option<Resource>,
                             stored: Resource): Answer
  {
    var filtered := FilteredInput(cfg, request, id);
    var bag := validate(Arr(filtered), LegacyRules(id));
    if Fails(bag) then Answered(InvalidDoc(d, bag), [])
    else
      match found
      case None => Answer(d, Fatal("fill() on null"), [FindById(Int(id))])
      case Some(obj) =>
        Answered(WrittenDoc(cfg, codec, d, "200", "The " + cfg.model.singularTable + " was replaced.", stored),
                 [FindById(Int(id))] + [Save(Some(obj), Arr(filtered))])
  }

  /** `jsonElementDelete`. */
  function ElementDeleteSpec(cfg: Config, d: seq<Entry>, id: int, found: Option<Resource>): Answer
  {
    match found
    case None =>
      Answered(StatusDoc(d, "404", "The " + cfg.model.table + " could not be found."), [FindById(Int(id))])
    case Some(obj) =>
      Answered(StatusDoc(d, "200", "The " + cfg.model.table + " was deleted."), [FindById(Int(id))] + [Delete(obj)])
  }

  // ---------------------------------------------------------------- the steps

  /** The resource object of a record, its attributes read by the `getApiFilter` loop. */
  method ResourceEntry(cfg: Config, codec: JsonCodec, obj: Resource) returns (e: seq<Entry>)
    ensures e == LegacyEntry(cfg, codec, obj)
  {
    var attrs := ApiFilter.GetApiFilter(Some(cfg.model.apiArrayFilter), codec, obj);
    e := [Entry(IdKey, Prop(obj, "id")), Entry(TypeKey, Str(cfg.model.table)), Entry(AttributesKey, Arr(attrs))];
  }

  /** `jsonIndex` up to its loop. */
  method IndexHead(cfg: Config, d0: seq<Entry>, page: Page) returns (d: seq<Entry>)
    ensures d == IndexHeadDoc(cfg, d0, page)
  {
    d := SetIn(d0, MetaKey, StatusKey, Int(200));
    d := Set(d, LinksKey, Arr(JsonApiDefault.PageLinks(cfg.urlBase, page)));
    if HasUrl(page.nextPageUrl) {
      d := SetIn(d, LinksKey, NextKey, Str(page.nextPageUrl.value));
    }
    if HasUrl(page.previousPageUrl) {
      d := SetIn(d, LinksKey, PrevKey, Str(page.previousPageUrl.value));
    }
  }

  /** The loop's first `i + 1` rounds are its first `i` and one more. */
  lemma IndexDataPrefix(cfg: Config, codec: JsonCodec, d: seq<Entry>, objs: seq<Resource>, i: int)
    requires 0 <= i < |objs|
    ensures IndexData(cfg, codec, d, objs[..i + 1]) == IndexStep(cfg, codec, IndexData(cfg, codec, d, objs[..i]), objs[i])
  {
    assert objs[..i + 1][..i] == objs[..i];
  }

  /** The loop of `jsonIndex`. */
  method FillIndex(cfg: Config, codec: JsonCodec, d0: seq<Entry>, objs: seq<Resource>) returns (d: seq<Entry>)
    ensures d == IndexData(cfg, codec, d0, objs)
  {
    d := d0;
    var i := 0;
    while i < |objs|
      invariant 0 <= i <= |objs|
      invariant d == IndexData(cfg, codec, d0, objs[..i])
    {
      IndexDataPrefix(cfg, codec, d0, objs, i);
      var obj := objs[i];
      var e := ResourceEntry(cfg, codec, obj);
      d := SetIn(d, DataKey, KeyOf(Prop(obj, "id")), Arr(e));
      d := Set(d, RelationshipsKey, Arr([]));
      i := i + 1;
    }
    assert objs[..i] == objs;
  }

  /** The loop that builds `$filtered` from the request, field by field. */
  method FilterInput(cfg: Config, request: seq<Entry>, id: int) returns (filtered: seq<Entry>)
    ensures filtered == FilteredInput(cfg, request, id)
  {
    var names := cfg.model.fillable;
    filtered := [];
    var i := 0;
    while i < |names|
      invariant 0 <= i <= |names|
      invariant filtered == FillableInput(names[..i], request)
    {
      assert names[..i + 1][..i] == names[..i];
      filtered := Set(filtered, StrKey(names[i]), Get(request, StrKey(names[i])));
      i := i + 1;
    }
    assert names[..i] == names;
    filtered := Set(filtered, IdKey, Int(id));
  }

  /** The failed-validation branch shared by create, replace and update. */
  method Invalid(d0: seq<Entry>, bag: MessageBag) returns (d: seq<Entry>)
    ensures d == InvalidDoc(d0, bag)
  {
    d := Set(d0, StatusKey, Str("422"));
    d := Set(d, DetailKey, Str("Input validation has failed."));
    d := Set(d, ValidatorErrorsKey, BagValue(bag));
  }

  /** The success branch shared by create, replace and update. */
  method Written(cfg: Config, codec: JsonCodec, d0: seq<Entry>, status: string, detail: string, stored: Resource)
    returns (d: seq<Entry>)
    ensures d == WrittenDoc(cfg, codec, d0, status, detail, stored)
  {
    d := Set(d0, StatusKey, Str(status));
    d := Set(d, DetailKey, Str(detail));
    var attrs := ApiFilter.GetApiFilter(Some(cfg.model.apiArrayFilter), codec, stored);
    d := Set(d, StrKey(cfg.model.singularTable), Arr(attrs));
  }

  // ---------------------------------------------------------------- the controller

  /** A controller using the legacy trait. Each action returns its reply and the
      store calls it issued, in order. */
  class ApiJsonController {
    var doc: seq<Entry>
    const cfg: Config
    const codec: JsonCodec
    const validate: Validator

    constructor (cfg: Config, codec: JsonCodec, validate: Validator)
      ensures doc == JsonResponseArray
      ensures this.cfg == cfg && this.codec == codec && this.validate == validate
    {
      this.cfg := cfg;
      this.codec := codec;
      this.validate := validate;
      doc := JsonResponseArray;
    }

    /** `getJsonApiResponseArray()`: the document as it stands, left as it is. */
    method GetJsonApiResponseArray() returns (r: seq<Entry>)
      ensures r == doc
    {
      r := doc;
    }

    /** `getMaximumResponseNumber()`: the page size the index asks for. */
    method GetMaximumResponseNumber() returns (n: int)
      ensures n == MaximumResponseNumber && n == 200
    {
      n := MaximumResponseNumber;
    }

    method Index(page: Page) returns (r: Reply, cs: seq<StoreCall>)
      modifies this
      ensures var a := IndexSpec(cfg, codec, old(doc), page);
        doc == a.doc && r == a.reply && cs == a.calls
    {
      cs := [Paginate(MaximumResponseNumber)];
      var d := IndexHead(cfg, doc, page);
      d := FillIndex(cfg, codec, d, page.items);
      doc := d;
      r := Json(d, Get2(d, MetaKey, StatusKey));
    }

    method Details(id: int, found: Option<Resource>) returns (r: Reply, cs: seq<StoreCall>)
      modifies this
      ensures var a := DetailsSpec(cfg, codec, old(doc), id, found);
        doc == a.doc && r == a.reply && cs == a.calls
    {
      cs := [FindById(Int(id))];
      var d: seq<Entry>;
      var status: Value;
      match found {
        case None =>
          d := Set(doc, ErrorsKey, Arr(LegacyNotFound(cfg)));
          status := Get2(d, ErrorsKey, StatusKey);
        case Some(obj) =>
          d := SetIn(doc, MetaKey, StatusKey, Int(200));
          d := SetIn(d, MetaKey, CountKey, Int(1));
          d := Set(d, LinksKey, Arr(DetailsLinks(cfg, obj)));
          var e := ResourceEntry(cfg, codec, obj);
          d := Set(d, DataKey, Arr(e));
          d := Set(d, RelationshipsKey, Arr([]));
          status := Get2(d, MetaKey, StatusKey);
      }
      doc := d;
      r := Json(d, status);
    }

    method Create(request: seq<Entry>, stored: Resource) returns (r: Reply, cs: seq<StoreCall>)
      modifies this
      ensures var a := CreateSpec(cfg, codec, validate, old(doc), request, stored);
        doc == a.doc && r == a.reply && cs == a.calls
    {
      var bag := validate(Arr(request), ModelRules(None, None));
      var d: seq<Entry>;
      if Fails(bag) {
        cs := [];
        d := Invalid(doc, bag);
      } else {
        cs := [Save(None, Arr(request))];
        d := Written(cfg, codec, doc, "201", "The " + cfg.model.table + " was created.", stored);
      }
      doc := d;
      r := Json(d, Get(d, StatusKey));
    }

    method ElementReplace(request: seq<Entry>, id: int, found: Option<Resource>, stored: Resource)
      returns (r: Reply, cs: seq<StoreCall>)
      modifies this
      ensures var a := ElementReplaceSpec(cfg, codec, validate, old(doc), request, id, found, stored);
        doc == a.doc && r == a.reply && cs == a.calls
    {
      var filtered := FilterInput(cfg, request, id);
      var bag := validate(Arr(filtered), LegacyRules(id));
      cs := [];
      if Fails(bag) {
        var d := Invalid(doc, bag);
        doc := d;
        r := Json(d, Get(d, StatusKey));
      } else {
        cs := [FindById(Int(id))];
        match found {
          case None =>
            r := Fatal("forceDelete() on null");
          case Some(previous) =>
            cs := cs + [ForceDelete(previous), Save(None, Arr(filtered))];
            var d := Written(cfg, codec, doc, "200", "The " + cfg.model.singularTable + " was replaced.", stored);
            doc := d;
            r := Json(d, Get(d, StatusKey));
        }
      }
    }

    method ElementUpdate(request: seq<Entry>, id: int, found: Option<Resource>, stored: Resource)
      returns (r: Reply, cs: seq<StoreCall>)
      modifies this
      ensures var a := ElementUpdateSpec(cfg, codec, validate, old(doc), request, id, found, stored);
        doc == a.doc && r == a.reply && cs == a.calls
    {
      var filtered := FilterInput(cfg, request, id);
      var bag := validate(Arr(filtered), LegacyRules(id));
      cs := [];
      if Fails(bag) {
        var d := Invalid(doc, bag);
        doc := d;
        r := Json(d, Get(d, StatusKey));
      } else {
        cs := [FindById(Int(id))];
        match found {
          case None =>
            r := Fatal("fill() on null");
          case Some(obj) =>
            cs := cs + [Save(Some(obj), Arr(filtered))];
            var d := Written(cfg, codec, doc, "200", "The " + cfg.model.singularTable + " was replaced.", stored);
            doc := d;
            r := Json(d, Get(d, StatusKey));
        }
      }
    }

    method ElementDelete(id: int, found: Option<Resource>) returns (r: Reply, cs: seq<StoreCall>)
      modifies this
      ensures var a := ElementDeleteSpec(cfg, old(doc), id, found);
        doc == a.doc && r == a.reply && cs == a.calls
    {
      cs := [FindById(Int(id))];
      var d: seq<Entry>;
      match found {
        case None =>
          d := Set(doc, StatusKey, Str("404"));
          d := Set(d, DetailKey, Str("The " + cfg.model.table + " could not be found."));
        case Some(obj) =>
          cs := cs + [Delete(obj)];
          d := Set(doc, StatusKey, Str("200"));
          d := Set(d, DetailKey, Str("The " + cfg.model.table + " was deleted."));
      }
      doc := d;
      r := Json(d, Get(d, StatusKey));
    }
  }
}
