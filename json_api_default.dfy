/** The JSON:API controller: ten actions that build `$json_api_response_array`
    step by step from the template, the request and what the store returns. Each
    action is a function from the old document and the store's answers to an
    `Outcome`, and a method of `JsonApiController` that makes the same updates
    in place and is proved to end in that outcome. */
module JsonApiDefault {
  import opened PhpValues
  import opened PhpArrays
  import opened PhpStrings
  import opened Collaborators
  import opened JsonApiTrait
  import opened JsonApiRequest
  import JsonApiExposes

  // ---------------------------------------------------------------- building blocks

  /** The url `singularizeUrl` rewrites: its argument, or the url base when that is falsy. */
  function UrlOrBase(cfg: Config, url: Option<string>): string
  {
    if url.Some? && Truthy(Str(url.value)) then url.value else cfg.urlBase
  }

  /** `singularizeUrl($url)`: every occurrence of the plural model name, scanning
      left to right, replaced by the singular one. */
  function SingularizeUrl(cfg: Config, url: Option<string>): (r: string)
    ensures cfg.model.apiPlural == "" ==> r == UrlOrBase(cfg, url)
    ensures cfg.model.apiPlural != "" ==>
      r == Join(Split(UrlOrBase(cfg, url), cfg.model.apiPlural), cfg.model.apiSingular)
  {
    if cfg.model.apiPlural != "" then
      ReplaceAllIsJoin(UrlOrBase(cfg, url), cfg.model.apiPlural, cfg.model.apiSingular);
      ReplaceAll(UrlOrBase(cfg, url), cfg.model.apiPlural, cfg.model.apiSingular)
    else
      ReplaceAll(UrlOrBase(cfg, url), cfg.model.apiPlural, cfg.model.apiSingular)
  }

  /** `$object->getApiAttributes()`: the exposed attributes of a record. */
  function Attributes(cfg: Config, obj: Resource): seq<Entry>
  {
    JsonApiExposes.Exposed(JsonApiExposes.GetApiArrayFilter(cfg.model), obj)
  }

  /** `(string)$object->$id_name`. */
  function KeyString(cfg: Config, obj: Resource): string
  {
    ToPhpString(Prop(obj, cfg.model.keyName))
  }

  /** The `id`, `type` and `attributes` members every resource object starts with. */
  function Identified(cfg: Config, obj: Resource): seq<Entry>
  {
    [Entry(IdKey, Str(KeyString(cfg, obj))),
     Entry(TypeKey, Str(cfg.model.apiSingular)),
     Entry(AttributesKey, Arr(Attributes(cfg, obj)))]
  }

  /** `['self' => singularizeUrl() . '/' . $object->$id_name]`. */
  function SelfLink(cfg: Config, obj: Resource): Value
  {
    Arr([Entry(SelfKey, Str(SingularizeUrl(cfg, None) + "/" + KeyString(cfg, obj)))])
  }

  /** A resource object of the index. */
  function IndexEntry(cfg: Config, obj: Resource): seq<Entry>
  {
    Identified(cfg, obj) + [Entry(LinksKey, SelfLink(cfg, obj)), Entry(RelationshipsKey, EmptyObject)]
  }

  function IndexEntries(cfg: Config, objs: seq<Resource>): (vs: seq<Value>)
    ensures |vs| == |objs|
    ensures forall i :: 0 <= i < |objs| ==> vs[i] == Arr(IndexEntry(cfg, objs[i]))
  {
    seq(|objs|, i requires 0 <= i < |objs| => Arr(IndexEntry(cfg, objs[i])))
  }

  /** `relationships` of the details: the (empty) attribute array itself when
      nothing is exposed, an empty object otherwise. */
  function DetailsRelationships(cfg: Config, obj: Resource): Value
  {
    if |Attributes(cfg, obj)| == 0 then Arr(Attributes(cfg, obj)) else EmptyObject
  }

  /** The resource object of the details. */
  function DetailsEntry(cfg: Config, obj: Resource): seq<Entry>
  {
    Identified(cfg, obj) + [Entry(RelationshipsKey, DetailsRelationships(cfg, obj)), Entry(LinksKey, SelfLink(cfg, obj))]
  }

  function DeletedEntries(cfg: Config, objs: seq<Resource>): (vs: seq<Value>)
    ensures |vs| == |objs|
    ensures forall i :: 0 <= i < |objs| ==> vs[i] == Arr(Identified(cfg, objs[i]))
  {
    seq(|objs|, i requires 0 <= i < |objs| => Arr(Identified(cfg, objs[i])))
  }

  /** The links of the index, before the paginator's urls are written. */
  function PageLinks(urlBase: string, page: Page): seq<Entry>
  {
    [Entry(CollectionKey, Str(urlBase)),
     Entry(SelfKey, Str(urlBase + "?page=" + IntToString(page.currentPage))),
     Entry(FirstKey, Str(urlBase + "?page=1")),
     Entry(LastKey, Str(urlBase + "?page=" + IntToString(page.lastPage))),
     Entry(PrevKey, Null),
     Entry(NextKey, Null)]
  }

  /** `$url ?? null`. */
  function UrlOrNull(url: Option<string>): Value
  {
    match url
    case Some(u) => Str(u)
    case None => Null
  }

  /** `$id ?? 0`. */
  function IdOrZero(id: Value): Value
  {
    if id == Null then Int(0) else id
  }

  /** The error object of a missing record. */
  function NotFoundError(cfg: Config): seq<Entry>
  {
    [Entry(StatusKey, Str("404")),
     Entry(TitleKey, Str("Resource could not found")),
     Entry(DetailKey, Str("The " + cfg.model.apiSingular + " could not be found."))]
  }

  /** The document after a lookup found nothing: one 404 error, no `meta`, no `data`. */
  function NotFoundDoc(cfg: Config, d: seq<Entry>): seq<Entry>
  {
    var d1 := Set(d, ErrorsKey, Arr([Entry(IntKey(0), Arr(NotFoundError(cfg)))]));
    var d2 := Unset(d1, MetaKey);
    Unset(d2, DataKey)
  }

  /** The error object for one validator message, with the offending item when a
      batch is validated. */
  function ErrorObject(message: string, item: Option<Value>): seq<Entry>
  {
    [Entry(StatusKey, Str("422")),
     Entry(TitleKey, Str("Input validation has failed")),
     Entry(DetailKey, Str(message))]
    + (match item case Some(v) => [Entry(DataKey, v)] case None => [])
  }

  function ErrorObjects(messages: seq<string>, item: Option<Value>): (vs: seq<Value>)
    ensures |vs| == |messages|
    ensures forall i :: 0 <= i < |messages| ==> vs[i] == Arr(ErrorObject(messages[i], item))
  {
    seq(|messages|, i requires 0 <= i < |messages| => Arr(ErrorObject(messages[i], item)))
  }

  /** The document after a failed validation: one error per message appended,
      `meta.status` "422" and `data` removed. */
  function FailedDoc(d: seq<Entry>, messages: seq<string>, item: Option<Value>): seq<Entry>
  {
    var d1 := PushAllIn(d, ErrorsKey, ErrorObjects(messages, item));
    var d2 := SetIn(d1, MetaKey, StatusKey, Str("422"));
    Unset(d2, DataKey)
  }

  /** `$this->json_api_response_array['errors'][0]['status']`. */
  function FirstErrorStatus(d: seq<Entry>): Value
  {
    Get3(d, ErrorsKey, IntKey(0), StatusKey)
  }

  /** The document after a record was written: the new resource object, and a
      `meta` with status "201", the given detail and count 1. */
  function CreatedDoc(cfg: Config, d: seq<Entry>, stored: Resource, detail: string): seq<Entry>
  {
    var d1 := Unset(d, ErrorsKey);
    var d2 := Set(d1, DataKey, Arr(Identified(cfg, stored) + [Entry(LinksKey, SelfLink(cfg, stored))]));
    var d3 := SetIn(d2, DataKey, RelationshipsKey, EmptyObject);
    var d4 := SetIn(d3, MetaKey, StatusKey, Str("201"));
    var d5 := SetIn(d4, MetaKey, DetailKey, Str(detail));
    SetIn(d5, MetaKey, CountKey, Int(1))
  }

  /** The message `Validator::make` throws when the data it is given is not an array. */
  const NotAnArray := "TypeError: Validator::make(): Argument #1 ($data) must be of type array"

  /** Where the validation loop of a batch stops on an item: `Validator::make`
      throws on anything but an array, and an array stops it when it fails. */
  predicate Stops(validate: Validator, item: Value, rules: RuleSet)
  {
    !item.Arr? || Fails(validate(item, rules))
  }

  /** The index of the first item the validation loop stops on, if any. */
  function FirstFailure(validate: Validator, items: seq<Value>, rules: seq<RuleSet>): (r: Option<nat>)
    requires |rules| == |items|
    ensures r.Some? ==> r.value < |items| && Stops(validate, items[r.value], rules[r.value])
    ensures r.Some? ==> forall j :: 0 <= j < r.value ==> !Stops(validate, items[j], rules[j])
    ensures r.None? ==> forall j :: 0 <= j < |items| ==> !Stops(validate, items[j], rules[j])
  {
    if items == [] then None
    else if Stops(validate, items[0], rules[0]) then Some(0)
    else
      match FirstFailure(validate, items[1..], rules[1..])
      case Some(k) => Some(k + 1)
      case None => None
  }

  /** The item the loop stops on is the first one that stops it. */
  lemma FirstFailureAt(validate: Validator, items: seq<Value>, rules: seq<RuleSet>, i: nat)
    requires |rules| == |items| && i < |items|
    requires forall j :: 0 <= j < i ==> !Stops(validate, items[j], rules[j])
    requires Stops(validate, items[i], rules[i])
    ensures FirstFailure(validate, items, rules) == Some(i)
  {
  }

  /** `getValidation()` of a fresh instance, for every item. */
  function ReplaceRules(items: seq<Value>): (rs: seq<RuleSet>)
    ensures |rs| == |items|
    ensures forall i :: 0 <= i < |items| ==> rs[i] == ModelRules(None, None)
  {
    seq(|items|, i requires 0 <= i < |items| => ModelRules(None, None))
  }

  /** The record of `$object_collection` an item of a batch update refers to. */
  function Existing(cfg: Config, existing: seq<Resource>, item: Value): Option<Resource>
  {
    if Truthy(Field(item, IdKey)) then FindRecord(cfg, existing, Field(item, IdKey)) else None
  }

  /** `$collection->where('id', '=', $id)->find($id)`: the first record whose `id`
      and primary key are both `$id`. */
  function FindRecord(cfg: Config, rs: seq<Resource>, id: Value): (r: Option<Resource>)
    ensures r.Some? ==> r.value in rs && Prop(r.value, "id") == id && Prop(r.value, cfg.model.keyName) == id
    ensures r.None? ==> forall x :: x in rs ==> !(Prop(x, "id") == id && Prop(x, cfg.model.keyName) == id)
  {
    if rs == [] then None
    else if Prop(rs[0], "id") == id && Prop(rs[0], cfg.model.keyName) == id then Some(rs[0])
    else FindRecord(cfg, rs[1..], id)
  }

  /** `getValidation($validation_id)` of a fresh instance, for every item. */
  function UpdateRules(cfg: Config, existing: seq<Resource>, items: seq<Value>): (rs: seq<RuleSet>)
    ensures |rs| == |items|
    ensures forall i :: 0 <= i < |items| ==> rs[i] == ModelRules(None, Existing(cfg, existing, items[i]))
  {
    seq(|items|, i requires 0 <= i < |items| => ModelRules(None, Existing(cfg, existing, items[i])))
  }

  /** The ids collected before a batch update: the truthy ones, in order. */
  function TruthyIds(items: seq<Value>): seq<Value>
  {
    if items == [] then []
    else
      var ids := TruthyIds(items[..|items| - 1]);
      var id := Field(items[|items| - 1], IdKey);
      if Truthy(id) then ids + [id] else ids
  }

  function NewSaves(items: seq<Value>): (cs: seq<StoreCall>)
    ensures |cs| == |items|
    ensures forall i :: 0 <= i < |items| ==> cs[i] == Save(None, items[i])
  {
    seq(|items|, i requires 0 <= i < |items| => Save(None, items[i]))
  }

  function UpdateSaves(cfg: Config, existing: seq<Resource>, items: seq<Value>): (cs: seq<StoreCall>)
    ensures |cs| == |items|
    ensures forall i :: 0 <= i < |items| ==> cs[i] == Save(Existing(cfg, existing, items[i]), items[i])
  {
    seq(|items|, i requires 0 <= i < |items| => Save(Existing(cfg, existing, items[i]), items[i]))
  }

  /** The `meta` of a batch that validated: count, status, detail, then the real count. */
  function BatchDoneDoc(d: seq<Entry>, status: string, detail: string, count: int): seq<Entry>
  {
    var d1 := Unset(d, ErrorsKey);
    var d2 := SetIn(d1, MetaKey, CountKey, Int(1));
    var d3 := SetIn(d2, MetaKey, StatusKey, Str(status));
    var d4 := SetIn(d3, MetaKey, DetailKey, Str(detail));
    SetIn(d4, MetaKey, CountKey, Int(count))
  }

  // ---------------------------------------------------------------- the ten actions

  /** `jsonApiIndex` up to its loop: `meta`, no `errors`, and the page links. */
  function IndexHeadDoc(cfg: Config, d: seq<Entry>, page: Page): seq<Entry>
  {
    var d1 := SetIn(d, MetaKey, StatusKey, Str("200"));
    var d2 := SetIn(d1, MetaKey, CountKey, Int(|page.items|));
    var d3 := Unset(d2, ErrorsKey);
    var d4 := Set(d3, LinksKey, Arr(PageLinks(cfg.urlBase, page)));
    var d5 := SetIn(d4, LinksKey, NextKey, UrlOrNull(page.nextPageUrl));
    SetIn(d5, LinksKey, PrevKey, UrlOrNull(page.previousPageUrl))
  }

  /** `jsonApiIndex`. */
  function IndexSpec(cfg: Config, d: seq<Entry>, page: Page): Outcome
  {
    var d1 := PushAllIn(IndexHeadDoc(cfg, d, page), DataKey, IndexEntries(cfg, page.items));
    Outcome(d1, Get2(d1, MetaKey, StatusKey), [Paginate(JsonApiMaximumResponseNumber)])
  }

  /** The document of `jsonApiDetails` for a record that was found. */
  function DetailsDoc(cfg: Config, d: seq<Entry>, obj: Resource): seq<Entry>
  {
    var d1 := SetIn(d, MetaKey, StatusKey, Str("200"));
    var d2 := SetIn(d1, MetaKey, CountKey, Int(1));
    var d3 := Unset(d2, ErrorsKey);
    var d4 := Set(d3, LinksKey, Arr([Entry(CollectionKey, Str(cfg.urlBase))]));
    Set(d4, DataKey, Arr(DetailsEntry(cfg, obj)))
  }

  /** `jsonApiDetails`. */
  function DetailsSpec(cfg: Config, d: seq<Entry>, id: Value, found: Option<Resource>): Outcome
  {
    match found
    case None =>
      var d1 := NotFoundDoc(cfg, d);
      Outcome(d1, FirstErrorStatus(d1), [FindById(IdOrZero(id))])
    case Some(obj) =>
      var d1 := DetailsDoc(cfg, d, obj);
      Outcome(d1, Get2(d1, MetaKey, StatusKey), [FindById(IdOrZero(id))])
  }

  /** The attribute map `jsonApiCreate` validates and saves: the key field removed. */
  function CreateInput(cfg: Config, codec: JsonCodec, body: seq<Entry>): seq<Entry>
  {
    Unset(Extract(codec, body), StrKey(cfg.model.keyName))
  }

  /** `jsonApiCreate`; `stored` is the record as the store holds it after `save()`. */
  function CreateSpec(cfg: Config, codec: JsonCodec, validate: Validator, d: seq<Entry>,
                      body: seq<Entry>, stored: Resource): Outcome
  {
    var re := CreateInput(cfg, codec, body);
    var bag := validate(Arr(re), ModelRules(None, None));
    if Fails(bag) then
      var d1 := FailedDoc(d, All(bag), None);
      Outcome(d1, FirstErrorStatus(d1), [])
    else
      Outcome(CreatedDoc(cfg, d, stored, "The " + cfg.model.apiSingular + " was created."),
              Str("201"), [Save(None, Arr(re))])
  }

  /** The rule `jsonApiCreateById` substitutes for the key field. */
  function UniqueKeyRule(cfg: Config): RuleSet
  {
    ModelRulesWith(cfg.model.keyName,
      "sometimes|unique:" + cfg.model.table + "," + cfg.model.keyName + "|integer")
  }

  /** `jsonApiCreateById`: the key field set to the id, validated raw and saved as an integer. */
  function CreateByIdSpec(cfg: Config, codec: JsonCodec, validate: Validator, d: seq<Entry>,
                          body: seq<Entry>, id: Value, stored: Resource): Outcome
  {
    var re := Set(Extract(codec, body), StrKey(cfg.model.keyName), id);
    var bag := validate(Arr(re), UniqueKeyRule(cfg));
    var saved := Set(re, StrKey(cfg.model.keyName), Int(ToInt(id)));
    if Fails(bag) then
      var d1 := FailedDoc(d, All(bag), None);
      Outcome(d1, FirstErrorStatus(d1), [])
    else
      Outcome(CreatedDoc(cfg, d, stored, "The " + cfg.model.apiSingular + " was created."),
              Str("201"), [Save(None, Arr(saved))])
  }

  /** `jsonApiCollectionReplace`: the whole table force-deleted, then every item
      validated until the first failure, and saved only if none fails. An item
      that is not an array makes the validator throw, after the deletion. */
  function CollectionReplaceSpec(cfg: Config, codec: JsonCodec, validate: Validator, d: seq<Entry>,
                                 body: seq<Entry>): Outcome
  {
    var re := Extract(codec, body);
    var items := Values(re);
    match FirstFailure(validate, items, ReplaceRules(items))
    case Some(i) =>
      if !items[i].Arr? then Crash(d, NotAnArray, [ForceDeleteAll])
      else
        var d1 := FailedDoc(d, All(validate(items[i], ModelRules(None, None))), Some(items[i]));
        Outcome(d1, FirstErrorStatus(d1), [ForceDeleteAll])
    case None =>
      Outcome(BatchDoneDoc(d, "201", "The " + cfg.model.nameSingular + " collection was replaced.", |re|),
              Str("201"), [ForceDeleteAll] + NewSaves(items))
  }

  /** The bag of `jsonApiElementReplace` once the id validator's messages are added under `id`. */
  function MergedBag(idBag: MessageBag, bag: MessageBag): MessageBag
  {
    AddAll(bag, "id", All(idBag))
  }

  /** The rule set of the id validator. */
  function ExistsKeyRule(cfg: Config): RuleSet
  {
    FieldRule(cfg.model.keyName, "exists:" + cfg.model.table + "," + cfg.model.keyName + "|integer")
  }

  /** The document of `jsonApiElementReplace` when either validator fails: one
      error per merged message, and neither `meta` nor `data`. */
  function ReplaceFailedDoc(d: seq<Entry>, messages: seq<string>): seq<Entry>
  {
    var d1 := PushAllIn(d, ErrorsKey, ErrorObjects(messages, None));
    var d2 := Unset(d1, MetaKey);
    Unset(d2, DataKey)
  }

  /** `jsonApiElementReplace`: the id and the attributes validated separately;
      on success the old record force-deleted and a new one saved with the same id. */
  function ElementReplaceSpec(cfg: Config, codec: JsonCodec, validate: Validator, d: seq<Entry>,
                              body: seq<Entry>, id: Value, found: Option<Resource>,
                              stored: Resource): Outcome
  {
    var re := Extract(codec, body);
    var idBag := validate(Arr([Entry(StrKey(cfg.model.keyName), id)]), ExistsKeyRule(cfg));
    var bag := validate(Arr(re), ModelRules(found, None));
    if Fails(idBag) || Fails(bag) then
      var d1 := ReplaceFailedDoc(d, All(MergedBag(idBag, bag)));
      Outcome(d1, FirstErrorStatus(d1), [FindById(id)])
    else
      Outcome(CreatedDoc(cfg, d, stored, "The " + cfg.model.nameSingular + " was replaced."),
              Str("201"),
              [FindById(id)] + [ForceDelete(found.GetOr(Blank)), Save(None, Arr(Set(re, IdKey, id)))])
  }

  /** `jsonApiCollectionUpdate`: like the replace, but each item validated and
      saved against the record its id names, and nothing deleted. An item that
      is not an array makes the validator throw, after the query. */
  function CollectionUpdateSpec(cfg: Config, codec: JsonCodec, validate: Validator, d: seq<Entry>,
                                body: seq<Entry>, existing: seq<Resource>): Outcome
  {
    var re := Extract(codec, body);
    var items := Values(re);
    var rules := UpdateRules(cfg, existing, items);
    match FirstFailure(validate, items, rules)
    case Some(i) =>
      if !items[i].Arr? then Crash(d, NotAnArray, [WhereIdIn(TruthyIds(items))])
      else
        var d1 := FailedDoc(d, All(validate(items[i], rules[i])), Some(items[i]));
        Outcome(d1, FirstErrorStatus(d1), [WhereIdIn(TruthyIds(items))])
    case None =>
      Outcome(BatchDoneDoc(d, "200", "The " + cfg.model.nameSingular + " collection was updated.", |re|),
              Str("200"), [WhereIdIn(TruthyIds(items))] + UpdateSaves(cfg, existing, items))
  }

  /** The document of `jsonApiElementUpdate` when validation fails: a top-level
      status, detail and the message bag, `meta.status` "422" and no `data`. */
  function UpdateFailedDoc(d: seq<Entry>, bag: MessageBag): seq<Entry>
  {
    var d1 := Set(d, StatusKey, Str("422"));
    var d2 := Set(d1, DetailKey, Str("Input validation has failed."));
    var d3 := Set(d2, ValidatorErrorsKey, BagValue(bag));
    var d4 := SetIn(d3, MetaKey, StatusKey, Str("422"));
    Unset(d4, DataKey)
  }

  /** The document of `jsonApiElementUpdate` after the save: a top-level status
      and detail, and the filtered record under the model's singular name. */
  function UpdatedDoc(cfg: Config, d: seq<Entry>, jsonFilter: Value): seq<Entry>
  {
    var d1 := Set(d, StatusKey, Str("200"));
    var d2 := Set(d1, DetailKey, Str("The " + cfg.model.apiSingular + " was replaced."));
    Set(d2, StrKey(cfg.model.apiSingular), jsonFilter)
  }

  /** `jsonApiElementUpdate`; `jsonFilter` is `$object->getJsonFilter($object)`. */
  function ElementUpdateSpec(cfg: Config, codec: JsonCodec, validate: Validator, d: seq<Entry>,
                             body: seq<Entry>, id: Value, found: Option<Resource>,
                             jsonFilter: Value): Outcome
  {
    var re := Set(Extract(codec, body), IdKey, id);
    var bag := validate(Arr(re), ModelRules(found, None));
    if Fails(bag) then
      var d1 := UpdateFailedDoc(d, bag);
      Outcome(d1, Get(d1, StatusKey), [FindById(id)])
    else
      var d1 := UpdatedDoc(cfg, d, jsonFilter);
      Outcome(d1, Get(d1, StatusKey), [FindById(id)] + [Save(found, Arr(re))])
  }

  /** The first steps of `jsonApiCollectionDelete`: no `errors`, and the count of what is deleted. */
  function DeleteHeadDoc(d: seq<Entry>, count: int): seq<Entry>
  {
    SetIn(Unset(d, ErrorsKey), MetaKey, CountKey, Int(count))
  }

  /** The last steps of `jsonApiCollectionDelete`: status, detail and links. */
  function DeleteTailDoc(cfg: Config, d: seq<Entry>): seq<Entry>
  {
    var d1 := SetIn(d, MetaKey, StatusKey, Int(200));
    var d2 := SetIn(d1, MetaKey, DetailKey,
                    Str("The collection inside the " + cfg.model.apiPlural + " table was deleted."));
    Set(d2, LinksKey, Arr([Entry(CollectionKey, Str(cfg.urlBase))]))
  }

  /** `jsonApiCollectionDelete`; `all` is what `all()` returned before the delete. */
  function CollectionDeleteSpec(cfg: Config, d: seq<Entry>, all: seq<Resource>): Outcome
  {
    var d1 := PushAllIn(DeleteHeadDoc(d, |all|), DataKey, DeletedEntries(cfg, all));
    Outcome(DeleteTailDoc(cfg, d1), Int(200), [FetchAll] + [DeleteAll])
  }

  /** The document of `jsonApiElementDelete` once the record is deleted. */
  function DeletedDoc(cfg: Config, d: seq<Entry>, obj: Resource): seq<Entry>
  {
    var d1 := Unset(d, ErrorsKey);
    var d2 := SetIn(d1, MetaKey, StatusKey, Str("200"));
    var d3 := SetIn(d2, MetaKey, CountKey, Int(1));
    var d4 := SetIn(d3, MetaKey, DetailKey, Str("The " + cfg.model.apiSingular + " was deleted."));
    var d5 := Set(d4, LinksKey, Arr([Entry(CollectionKey, Str(cfg.urlBase))]));
    Set(d5, DataKey, Arr(Identified(cfg, obj)))
  }

  /** `jsonApiElementDelete`. */
  function ElementDeleteSpec(cfg: Config, d: seq<Entry>, id: Value, found: Option<Resource>): Outcome
  {
    match found
    case None =>
      var d1 := NotFoundDoc(cfg, d);
      Outcome(d1, FirstErrorStatus(d1), [FindById(IdOrZero(id))])
    case Some(obj) =>
      var d1 := DeletedDoc(cfg, d, obj);
      Outcome(d1, Get2(d1, MetaKey, StatusKey), [FindById(IdOrZero(id))] + [Delete(obj)])
  }

  // ---------------------------------------------------------------- the steps the actions share

  /** The `id`, `type` and `attributes` of a record, its attributes read through `getAttributes`. */
  method ResourceObject(cfg: Config, obj: Resource) returns (e: seq<Entry>)
    ensures e == Identified(cfg, obj)
  {
    var attrs := JsonApiExposes.GetAttributes(cfg.model, obj);
    e := [Entry(IdKey, Str(KeyString(cfg, obj))),
          Entry(TypeKey, Str(cfg.model.apiSingular)),
          Entry(AttributesKey, Arr(attrs))];
  }

  /** One `errors[]` entry per validator message. */
  method PushErrors(d0: seq<Entry>, messages: seq<string>, item: Option<Value>) returns (d: seq<Entry>)
    ensures d == PushAllIn(d0, ErrorsKey, ErrorObjects(messages, item))
  {
    ghost var es := ErrorObjects(messages, item);
    d := d0;
    var i := 0;
    while i < |messages|
      invariant 0 <= i <= |messages|
      invariant d == PushAllIn(d0, ErrorsKey, es[..i])
    {
      var e := Arr(ErrorObject(messages[i], item));
      assert es[i] == e;
      PushAllInPrefix(d0, ErrorsKey, es, i);
      d := PushIn(d, ErrorsKey, e);
      i := i + 1;
    }
    assert es[..|messages|] == es;
  }

  /** The failed-validation branch shared by the create and batch actions. */
  method FailValidation(d0: seq<Entry>, messages: seq<string>, item: Option<Value>) returns (d: seq<Entry>)
    ensures d == FailedDoc(d0, messages, item)
  {
    d := PushErrors(d0, messages, item);
    d := SetIn(d, MetaKey, StatusKey, Str("422"));
    d := Unset(d, DataKey);
  }

  /** The success branch shared by the create and element replace actions. */
  method WriteCreated(cfg: Config, d0: seq<Entry>, stored: Resource, detail: string) returns (d: seq<Entry>)
    ensures d == CreatedDoc(cfg, d0, stored, detail)
  {
    d := Unset(d0, ErrorsKey);
    var e := ResourceObject(cfg, stored);
    d := Set(d, DataKey, Arr(e + [Entry(LinksKey, SelfLink(cfg, stored))]));
    d := SetIn(d, DataKey, RelationshipsKey, EmptyObject);
    d := SetIn(d, MetaKey, StatusKey, Str("201"));
    d := SetIn(d, MetaKey, DetailKey, Str(detail));
    d := SetIn(d, MetaKey, CountKey, Int(1));
  }

  /** The branch of a lookup that found nothing. */
  method NotFound(cfg: Config, d0: seq<Entry>) returns (d: seq<Entry>)
    ensures d == NotFoundDoc(cfg, d0)
  {
    d := Set(d0, ErrorsKey, Arr([Entry(IntKey(0), Arr(NotFoundError(cfg)))]));
    d := Unset(d, MetaKey);
    d := Unset(d, DataKey);
  }

  /** Validates the items in order and stops at the first failure, which it
      reports, or at the first item that is not an array, where it throws. */
  method ValidateBatch(validate: Validator, d0: seq<Entry>, items: seq<Value>, rules: seq<RuleSet>)
    returns (failed: bool, thrown: bool, d: seq<Entry>, status: Value)
    requires |rules| == |items|
    ensures failed == FirstFailure(validate, items, rules).Some?
    ensures failed ==>
      var i := FirstFailure(validate, items, rules).value;
      thrown == !items[i].Arr? &&
      (!thrown ==> d == FailedDoc(d0, All(validate(items[i], rules[i])), Some(items[i])) && status == FirstErrorStatus(d))
    ensures !failed || thrown ==> d == d0
    ensures thrown ==> failed
  {
    failed, thrown := false, false;
    d := d0;
    status := Null;
    var i := 0;
    while i < |items|
      invariant 0 <= i <= |items|
      invariant d == d0
      invariant forall j :: 0 <= j < i ==> !Stops(validate, items[j], rules[j])
    {
      if !items[i].Arr? {
        FirstFailureAt(validate, items, rules, i);
        failed, thrown := true, true;
        return;
      }
      var bag := validate(items[i], rules[i]);
      if Fails(bag) {
        FirstFailureAt(validate, items, rules, i);
        d := FailValidation(d0, All(bag), Some(items[i]));
        status := FirstErrorStatus(d);
        failed := true;
        return;
      }
      i := i + 1;
    }
  }

  /** The `meta` written once a whole batch has validated. */
  method BatchDone(d0: seq<Entry>, status: string, detail: string, count: int) returns (d: seq<Entry>)
    ensures d == BatchDoneDoc(d0, status, detail, count)
  {
    d := Unset(d0, ErrorsKey);
    d := SetIn(d, MetaKey, CountKey, Int(1));
    d := SetIn(d, MetaKey, StatusKey, Str(status));
    d := SetIn(d, MetaKey, DetailKey, Str(detail));
    d := SetIn(d, MetaKey, CountKey, Int(count));
  }

  /** `jsonApiIndex` up to its loop. */
  method IndexHead(cfg: Config, d0: seq<Entry>, page: Page) returns (d: seq<Entry>)
    ensures d == IndexHeadDoc(cfg, d0, page)
  {
    d := SetIn(d0, MetaKey, StatusKey, Str("200"));
    d := SetIn(d, MetaKey, CountKey, Int(|page.items|));
    d := Unset(d, ErrorsKey);
    d := Set(d, LinksKey, Arr(PageLinks(cfg.urlBase, page)));
    d := SetIn(d, LinksKey, NextKey, UrlOrNull(page.nextPageUrl));
    d := SetIn(d, LinksKey, PrevKey, UrlOrNull(page.previousPageUrl));
  }

  /** The loop of `jsonApiIndex`: one resource object per record of the page. */
  method PushIndexEntries(cfg: Config, d0: seq<Entry>, objs: seq<Resource>) returns (d: seq<Entry>)
    ensures d == PushAllIn(d0, DataKey, IndexEntries(cfg, objs))
  {
    ghost var es := IndexEntries(cfg, objs);
    d := d0;
    var i := 0;
    while i < |objs|
      invariant 0 <= i <= |objs|
      invariant d == PushAllIn(d0, DataKey, es[..i])
    {
      var obj := objs[i];
      var e := ResourceObject(cfg, obj);
      PushAllInPrefix(d0, DataKey, es, i);
      d := PushIn(d, DataKey, Arr(e + [Entry(LinksKey, SelfLink(cfg, obj)), Entry(RelationshipsKey, EmptyObject)]));
      i := i + 1;
    }
    assert es[..|objs|] == es;
  }

  /** The found branch of `jsonApiDetails`. */
  method DetailsFound(cfg: Config, d0: seq<Entry>, obj: Resource) returns (d: seq<Entry>)
    ensures d == DetailsDoc(cfg, d0, obj)
  {
    d := SetIn(d0, MetaKey, StatusKey, Str("200"));
    d := SetIn(d, MetaKey, CountKey, Int(1));
    d := Unset(d, ErrorsKey);
    d := Set(d, LinksKey, Arr([Entry(CollectionKey, Str(cfg.urlBase))]));
    var e := ResourceObject(cfg, obj);
    var attrs := JsonApiExposes.GetAttributes(cfg.model, obj);
    var relationships := if |attrs| == 0 then Arr(attrs) else EmptyObject;
    d := Set(d, DataKey, Arr(e + [Entry(RelationshipsKey, relationships), Entry(LinksKey, SelfLink(cfg, obj))]));
  }

  /** `$item->fill($collection_item); $item->save();` for every item of a replaced collection. */
  method SaveEach(items: seq<Value>) returns (cs: seq<StoreCall>)
    ensures cs == NewSaves(items)
  {
    cs := [];
    var i := 0;
    while i < |items|
      invariant 0 <= i <= |items|
      invariant cs == NewSaves(items[..i])
    {
      assert NewSaves(items[..i + 1]) == NewSaves(items[..i]) + [Save(None, items[i])];
      cs := cs + [Save(None, items[i])];
      i := i + 1;
    }
    assert items[..|items|] == items;
  }

  /** The ids a batch update looks up, in order. */
  method CollectIds(items: seq<Value>) returns (ids: seq<Value>)
    ensures ids == TruthyIds(items)
  {
    ids := [];
    var k := 0;
    while k < |items|
      invariant 0 <= k <= |items|
      invariant ids == TruthyIds(items[..k])
    {
      assert items[..k + 1][..k] == items[..k];
      if Truthy(Field(items[k], IdKey)) {
        ids := ids + [Field(items[k], IdKey)];
      }
      k := k + 1;
    }
    assert items[..|items|] == items;
  }

  /** The save loop of a batch update: each item filled into the record its id names, or a new one. */
  method SaveUpdates(cfg: Config, existing: seq<Resource>, items: seq<Value>) returns (cs: seq<StoreCall>)
    ensures cs == UpdateSaves(cfg, existing, items)
  {
    cs := [];
    var i := 0;
    while i < |items|
      invariant 0 <= i <= |items|
      invariant cs == UpdateSaves(cfg, existing, items[..i])
    {
      var base := Existing(cfg, existing, items[i]);
      assert UpdateSaves(cfg, existing, items[..i + 1])
        == UpdateSaves(cfg, existing, items[..i]) + [Save(base, items[i])];
      cs := cs + [Save(base, items[i])];
      i := i + 1;
    }
    assert items[..|items|] == items;
  }

  /** The id validator's messages added, one by one, under `id` to the attribute validator's bag. */
  method MergeIdMessages(idBag: MessageBag, bag: MessageBag) returns (merged: MessageBag)
    ensures merged == MergedBag(idBag, bag)
  {
    var ms := All(idBag);
    merged := bag;
    var i := 0;
    while i < |ms|
      invariant 0 <= i <= |ms|
      invariant AddAll(merged, "id", ms[i..]) == MergedBag(idBag, bag)
    {
      assert ms[i..][1..] == ms[i + 1..];
      merged := Add(merged, "id", ms[i]);
      i := i + 1;
    }
  }

  /** The failed branch of `jsonApiElementReplace`. */
  method ReplaceFailed(d0: seq<Entry>, messages: seq<string>) returns (d: seq<Entry>)
    ensures d == ReplaceFailedDoc(d0, messages)
  {
    d := PushErrors(d0, messages, None);
    d := Unset(d, MetaKey);
    d := Unset(d, DataKey);
  }

  /** The failed branch of `jsonApiElementUpdate`. */
  method UpdateFailed(d0: seq<Entry>, bag: MessageBag) returns (d: seq<Entry>)
    ensures d == UpdateFailedDoc(d0, bag)
  {
    d := Set(d0, StatusKey, Str("422"));
    d := Set(d, DetailKey, Str("Input validation has failed."));
    d := Set(d, ValidatorErrorsKey, BagValue(bag));
    d := SetIn(d, MetaKey, StatusKey, Str("422"));
    d := Unset(d, DataKey);
  }

  /** The success branch of `jsonApiElementUpdate`. */
  method Updated(cfg: Config, d0: seq<Entry>, jsonFilter: Value) returns (d: seq<Entry>)
    ensures d == UpdatedDoc(cfg, d0, jsonFilter)
  {
    d := Set(d0, StatusKey, Str("200"));
    d := Set(d, DetailKey, Str("The " + cfg.model.apiSingular + " was replaced."));
    d := Set(d, StrKey(cfg.model.apiSingular), jsonFilter);
  }

  /** The loop of `jsonApiCollectionDelete`: one resource object per record. */
  method PushDeletedEntries(cfg: Config, d0: seq<Entry>, objs: seq<Resource>) returns (d: seq<Entry>)
    ensures d == PushAllIn(d0, DataKey, DeletedEntries(cfg, objs))
  {
    ghost var es := DeletedEntries(cfg, objs);
    d := d0;
    var i := 0;
    while i < |objs|
      invariant 0 <= i <= |objs|
      invariant d == PushAllIn(d0, DataKey, es[..i])
    {
      var e := ResourceObject(cfg, objs[i]);
      PushAllInPrefix(d0, DataKey, es, i);
      d := PushIn(d, DataKey, Arr(e));
      i := i + 1;
    }
    assert es[..|objs|] == es;
  }

  /** The last steps of `jsonApiCollectionDelete`. */
  method DeleteTail(cfg: Config, d0: seq<Entry>) returns (d: seq<Entry>)
    ensures d == DeleteTailDoc(cfg, d0)
  {
    d := SetIn(d0, MetaKey, StatusKey, Int(200));
    d := SetIn(d, MetaKey, DetailKey,
               Str("The collection inside the " + cfg.model.apiPlural + " table was deleted."));
    d := Set(d, LinksKey, Arr([Entry(CollectionKey, Str(cfg.urlBase))]));
  }

  /** The found branch of `jsonApiElementDelete`, after `delete()`. */
  method DeletedOne(cfg: Config, d0: seq<Entry>, obj: Resource) returns (d: seq<Entry>)
    ensures d == DeletedDoc(cfg, d0, obj)
  {
    d := Unset(d0, ErrorsKey);
    d := SetIn(d, MetaKey, StatusKey, Str("200"));
    d := SetIn(d, MetaKey, CountKey, Int(1));
    d := SetIn(d, MetaKey, DetailKey, Str("The " + cfg.model.apiSingular + " was deleted."));
    d := Set(d, LinksKey, Arr([Entry(CollectionKey, Str(cfg.urlBase))]));
    var e := ResourceObject(cfg, obj);
    d := Set(d, DataKey, Arr(e));
  }

  // ---------------------------------------------------------------- the controller

  /** A controller using the JSON:API trait: the response document it builds up
      and what it is configured with. Each action returns its reply and the store
      calls it issued, in order. The source calls each action on a fresh
      controller; the methods state their effect on any document. */
  class JsonApiController {
    var doc: seq<Entry>
    const cfg: Config
    const codec: JsonCodec
    const validate: Validator

    constructor (cfg: Config, codec: JsonCodec, validate: Validator)
      ensures doc == JsonApiResponseArray
      ensures this.cfg == cfg && this.codec == codec && this.validate == validate
    {
      this.cfg := cfg;
      this.codec := codec;
      this.validate := validate;
      doc := JsonApiResponseArray;
    }

    /** `getJsonApiResponseArray()`: the document as it stands, left as it is. */
    method GetJsonApiResponseArray() returns (r: seq<Entry>)
      ensures r == doc
    {
      r := doc;
    }

    /** `getJsonApiMaximumResponseNumber()`: the page size the index asks for. */
    method GetJsonApiMaximumResponseNumber() returns (n: int)
      ensures n == JsonApiMaximumResponseNumber && n == 200
    {
      n := JsonApiMaximumResponseNumber;
    }

    method Index(page: Page) returns (r: Reply, cs: seq<StoreCall>)
      modifies this
      ensures var o := IndexSpec(cfg, old(doc), page);
        doc == o.doc && r == Json(o.doc, o.status) && cs == o.calls
    {
      cs := [Paginate(JsonApiMaximumResponseNumber)];
      var d := IndexHead(cfg, doc, page);
      d := PushIndexEntries(cfg, d, page.items);
      doc := d;
      r := Json(d, Get2(d, MetaKey, StatusKey));
    }

    method Details(id: Value, found: Option<Resource>) returns (r: Reply, cs: seq<StoreCall>)
      modifies this
      ensures var o := DetailsSpec(cfg, old(doc), id, found);
        doc == o.doc && r == Json(o.doc, o.status) && cs == o.calls
    {
      cs := [FindById(IdOrZero(id))];
      var d: seq<Entry>;
      var status: Value;
      match found {
        case None =>
          d := NotFound(cfg, doc);
          status := FirstErrorStatus(d);
        case Some(obj) =>
          d := DetailsFound(cfg, doc, obj);
          status := Get2(d, MetaKey, StatusKey);
      }
      doc := d;
      r := Json(d, status);
    }

    method Create(body: seq<Entry>, stored: Resource) returns (r: Reply, cs: seq<StoreCall>)
      modifies this
      ensures var o := CreateSpec(cfg, codec, validate, old(doc), body, stored);
        doc == o.doc && r == Json(o.doc, o.status) && cs == o.calls
    {
      var re := ExtractJsonApiAttributes(codec, body);
      re := Unset(re, StrKey(cfg.model.keyName));
      var bag := validate(Arr(re), ModelRules(None, None));
      var d: seq<Entry>;
      var status: Value;
      if Fails(bag) {
        cs := [];
        d := FailValidation(doc, All(bag), None);
        status := FirstErrorStatus(d);
      } else {
        cs := [Save(None, Arr(re))];
        d := WriteCreated(cfg, doc, stored, "The " + cfg.model.apiSingular + " was created.");
        status := Str("201");
      }
      doc := d;
      r := Json(d, status);
    }

    method CreateById(body: seq<Entry>, id: Value, stored: Resource) returns (r: Reply, cs: seq<StoreCall>)
      modifies this
      ensures var o := CreateByIdSpec(cfg, codec, validate, old(doc), body, id, stored);
        doc == o.doc && r == Json(o.doc, o.status) && cs == o.calls
    {
      var re := ExtractJsonApiAttributes(codec, body);
      re := Set(re, StrKey(cfg.model.keyName), id);
      var bag := validate(Arr(re), UniqueKeyRule(cfg));
      re := Set(re, StrKey(cfg.model.keyName), Int(ToInt(id)));
      var d: seq<Entry>;
      var status: Value;
      if Fails(bag) {
        cs := [];
        d := FailValidation(doc, All(bag), None);
        status := FirstErrorStatus(d);
      } else {
        cs := [Save(None, Arr(re))];
        d := WriteCreated(cfg, doc, stored, "The " + cfg.model.apiSingular + " was created.");
        status := Str("201");
      }
      doc := d;
      r := Json(d, status);
    }

    method CollectionReplace(body: seq<Entry>) returns (r: Reply, cs: seq<StoreCall>)
      modifies this
      ensures var o := CollectionReplaceSpec(cfg, codec, validate, old(doc), body);
        doc == o.doc && r == ReplyOf(o) && cs == o.calls
    {
      var re := ExtractJsonApiAttributes(codec, body);
      cs := [ForceDeleteAll];
      var items := Values(re);
      var failed, thrown, d, status := ValidateBatch(validate, doc, items, ReplaceRules(items));
      if thrown {
        r := Fatal(NotAnArray);
        return;
      }
      if !failed {
        var saves := SaveEach(items);
        cs := cs + saves;
        d := BatchDone(d, "201", "The " + cfg.model.nameSingular + " collection was replaced.", |re|);
        status := Str("201");
      }
      doc := d;
      r := Json(d, status);
    }

    method ElementReplace(body: seq<Entry>, id: Value, found: Option<Resource>, stored: Resource)
      returns (r: Reply, cs: seq<StoreCall>)
      modifies this
      ensures var o := ElementReplaceSpec(cfg, codec, validate, old(doc), body, id, found, stored);
        doc == o.doc && r == Json(o.doc, o.status) && cs == o.calls
    {
      var re := ExtractJsonApiAttributes(codec, body);
      var idBag := validate(Arr([Entry(StrKey(cfg.model.keyName), id)]), ExistsKeyRule(cfg));
      cs := [FindById(id)];
      var bag := validate(Arr(re), ModelRules(found, None));
      var d: seq<Entry>;
      var status: Value;
      if Fails(idBag) || Fails(bag) {
        var merged := MergeIdMessages(idBag, bag);
        d := ReplaceFailed(doc, All(merged));
        status := FirstErrorStatus(d);
      } else {
        cs := cs + [ForceDelete(found.GetOr(Blank)), Save(None, Arr(Set(re, IdKey, id)))];
        d := WriteCreated(cfg, doc, stored, "The " + cfg.model.nameSingular + " was replaced.");
        status := Str("201");
      }
      doc := d;
      r := Json(d, status);
    }

    method CollectionUpdate(body: seq<Entry>, existing: seq<Resource>) returns (r: Reply, cs: seq<StoreCall>)
      modifies this
      ensures var o := CollectionUpdateSpec(cfg, codec, validate, old(doc), body, existing);
        doc == o.doc && r == ReplyOf(o) && cs == o.calls
    {
      var re := ExtractJsonApiAttributes(codec, body);
      var items := Values(re);
      var ids := CollectIds(items);
      cs := [WhereIdIn(ids)];
      var failed, thrown, d, status := ValidateBatch(validate, doc, items, UpdateRules(cfg, existing, items));
      if thrown {
        r := Fatal(NotAnArray);
        return;
      }
      if !failed {
        var saves := SaveUpdates(cfg, existing, items);
        cs := cs + saves;
        d := BatchDone(d, "200", "The " + cfg.model.nameSingular + " collection was updated.", |re|);
        status := Str("200");
      }
      doc := d;
      r := Json(d, status);
    }

    method ElementUpdate(body: seq<Entry>, id: Value, found: Option<Resource>, jsonFilter: Value)
      returns (r: Reply, cs: seq<StoreCall>)
      modifies this
      ensures var o := ElementUpdateSpec(cfg, codec, validate, old(doc), body, id, found, jsonFilter);
        doc == o.doc && r == Json(o.doc, o.status) && cs == o.calls
    {
      var re := ExtractJsonApiAttributes(codec, body);
      re := Set(re, IdKey, id);
      cs := [FindById(id)];
      var bag := validate(Arr(re), ModelRules(found, None));
      var d: seq<Entry>;
      if Fails(bag) {
        d := UpdateFailed(doc, bag);
      } else {
        cs := cs + [Save(found, Arr(re))];
        d := Updated(cfg, doc, jsonFilter);
      }
      doc := d;
      r := Json(d, Get(d, StatusKey));
    }

    method CollectionDelete(all: seq<Resource>) returns (r: Reply, cs: seq<StoreCall>)
      modifies this
      ensures var o := CollectionDeleteSpec(cfg, old(doc), all);
        doc == o.doc && r == Json(o.doc, o.status) && cs == o.calls
    {
      var d := Unset(doc, ErrorsKey);
      cs := [FetchAll];
      d := SetIn(d, MetaKey, CountKey, Int(|all|));
      d := PushDeletedEntries(cfg, d, all);
      cs := cs + [DeleteAll];
      d := DeleteTail(cfg, d);
      doc := d;
      r := Json(d, Int(200));
    }

    method ElementDelete(id: Value, found: Option<Resource>) returns (r: Reply, cs: seq<StoreCall>)
      modifies this
      ensures var o := ElementDeleteSpec(cfg, old(doc), id, found);
        doc == o.doc && r == Json(o.doc, o.status) && cs == o.calls
    {
      cs := [FindById(IdOrZero(id))];
      var d: seq<Entry>;
      var status: Value;
      match found {
        case None =>
          d := NotFound(cfg, doc);
          status := FirstErrorStatus(d);
        case Some(obj) =>
          cs := cs + [Delete(obj)];
          d := DeletedOne(cfg, doc, obj);
          status := Get2(d, MetaKey, StatusKey);
      }
      doc := d;
      r := Json(d, status);
    }
  }
}
