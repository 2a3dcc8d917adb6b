/** What the JSON:API actions promise, stated over the functions that specify
    them: the documents they leave, the statuses they answer with and the store
    calls they issue. Unless a lemma says otherwise, the document an action starts
    from is the template `JsonApiResponseArray`, as on a fresh controller. */
module JsonApiDefaultProps {
  import opened PhpValues
  import opened PhpArrays
  import opened PhpStrings
  import opened Collaborators
  import opened JsonApiTrait
  import opened JsonApiRequest
  import opened JsonApiDefault

  /** `singularizeUrl` cuts its url at every occurrence of the plural name and
      glues the pieces back with the singular one; no piece holds the plural name. */
  lemma SingularizeUrlReplacesEvery(cfg: Config, url: Option<string>)
    requires cfg.model.apiPlural != ""
    ensures var ps := Split(UrlOrBase(cfg, url), cfg.model.apiPlural);
      Join(ps, cfg.model.apiPlural) == UrlOrBase(cfg, url) &&
      SingularizeUrl(cfg, url) == Join(ps, cfg.model.apiSingular) &&
      forall i :: 0 <= i < |ps| ==> !Occurs(ps[i], cfg.model.apiPlural)
  {
    SplitJoin(UrlOrBase(cfg, url), cfg.model.apiPlural);
    SplitPiecesFree(UrlOrBase(cfg, url), cfg.model.apiPlural);
  }

  /** A url that does not mention the plural name comes back unchanged; a missing
      or falsy argument means the url base. */
  lemma SingularizeUrlUnchanged(cfg: Config, url: Option<string>)
    requires !Occurs(UrlOrBase(cfg, url), cfg.model.apiPlural)
    ensures SingularizeUrl(cfg, url) == UrlOrBase(cfg, url)
    ensures (url.None? || url.value == "" || url.value == "0") ==> UrlOrBase(cfg, url) == cfg.urlBase
  {
    ReplaceAllAbsent(UrlOrBase(cfg, url), cfg.model.apiPlural, cfg.model.apiSingular);
  }

  /** Every resource object the actions write has a string `id`, the key field
      cast to string, the singular API name as `type` and the exposed attributes. */
  lemma IdentifiedFields(cfg: Config, obj: Resource)
    ensures NoDupKeys(Identified(cfg, obj))
    ensures Get(Identified(cfg, obj), IdKey) == Str(ToPhpString(Prop(obj, cfg.model.keyName)))
    ensures Get(Identified(cfg, obj), TypeKey) == Str(cfg.model.apiSingular)
    ensures Get(Identified(cfg, obj), AttributesKey) == Arr(Attributes(cfg, obj))
  {
    var e := Identified(cfg, obj);
    FindAt(e, 0);
    FindAt(e, 1);
    FindAt(e, 2);
  }

  /** An index entry adds an empty-object `relationships` and the self link
      `singularizeUrl() . '/' . id` to the resource object. */
  lemma IndexEntryFields(cfg: Config, obj: Resource)
    ensures NoDupKeys(IndexEntry(cfg, obj))
    ensures Get(IndexEntry(cfg, obj), IdKey) == Str(KeyString(cfg, obj))
    ensures Get(IndexEntry(cfg, obj), RelationshipsKey) == EmptyObject
    ensures Get2(IndexEntry(cfg, obj), LinksKey, SelfKey) ==
      Str(SingularizeUrl(cfg, None) + "/" + KeyString(cfg, obj))
  {
    var e := IndexEntry(cfg, obj);
    FindAt(e, 0);
    FindAt(e, 3);
    FindAt(e, 4);
    FindAt([Entry(SelfKey, Str(SingularizeUrl(cfg, None) + "/" + KeyString(cfg, obj)))], 0);
  }

  /** The six writes `jsonApiIndex` makes before its loop, over arbitrary values. */
  lemma IndexHeadReads(d: seq<Entry>, status: Value, count: Value, l: seq<Entry>, next: Value, prev: Value)
    ensures var d6 := SetIn(SetIn(Set(Unset(SetIn(SetIn(d, MetaKey, StatusKey, status), MetaKey, CountKey, count),
        ErrorsKey), LinksKey, Arr(l)), LinksKey, NextKey, next), LinksKey, PrevKey, prev);
      Get2(d6, MetaKey, StatusKey) == status && Get2(d6, MetaKey, CountKey) == count &&
      Find(d6, ErrorsKey) == None && Find(d6, DataKey) == Find(d, DataKey) &&
      forall x :: Get2(d6, LinksKey, x) == if x == PrevKey then prev else if x == NextKey then next else Get(l, x)
  {
    var d1 := SetIn(d, MetaKey, StatusKey, status);
    var d2 := SetIn(d1, MetaKey, CountKey, count);
    var d3 := Unset(d2, ErrorsKey);
    var d4 := Set(d3, LinksKey, Arr(l));
    var d5 := SetIn(d4, LinksKey, NextKey, next);
    var d6 := SetIn(d5, LinksKey, PrevKey, prev);
    forall x | x == StatusKey || x == CountKey
      ensures Get2(d6, MetaKey, x) == Get2(d2, MetaKey, x)
    {
      Get2UnsetOther(d2, ErrorsKey, MetaKey, x);
      Get2SetOther(d3, LinksKey, Arr(l), MetaKey, x);
      Get2SetOther(d4, LinksKey, Arr(Set(Sub(d4, LinksKey), NextKey, next)), MetaKey, x);
      Get2SetOther(d5, LinksKey, Arr(Set(Sub(d5, LinksKey), PrevKey, prev)), MetaKey, x);
    }
    forall j | j != LinksKey ensures Find(d6, j) == Find(d3, j) {
      FindSetIn(d5, LinksKey, PrevKey, prev, j);
      FindSetIn(d4, LinksKey, NextKey, next, j);
      FindSet(d3, LinksKey, Arr(l), j);
    }
    FindUnset(d2, ErrorsKey, ErrorsKey);
    FindUnset(d2, ErrorsKey, DataKey);
    FindSetIn(d1, MetaKey, CountKey, count, DataKey);
    FindSetIn(d, MetaKey, StatusKey, status, DataKey);
    Get2SetIn(d, MetaKey, StatusKey, status, CountKey);
    Get2SetIn(d1, MetaKey, CountKey, count, StatusKey);
    Get2SetIn(d1, MetaKey, CountKey, count, CountKey);
    forall x ensures Get2(d6, LinksKey, x) == if x == PrevKey then prev else if x == NextKey then next else Get(l, x)
    {
      Get2SetIn(d5, LinksKey, PrevKey, prev, x);
      Get2SetIn(d4, LinksKey, NextKey, next, x);
      Get2Set(d3, LinksKey, l, x);
    }
  }

  /** The first four members of the links `jsonApiIndex` starts from are read back as written. */
  lemma LinksReads(collection: Value, self: Value, first: Value, last: Value)
    ensures var l := [Entry(CollectionKey, collection), Entry(SelfKey, self), Entry(FirstKey, first),
        Entry(LastKey, last), Entry(PrevKey, Null), Entry(NextKey, Null)];
      Get(l, CollectionKey) == collection && Get(l, SelfKey) == self &&
      Get(l, FirstKey) == first && Get(l, LastKey) == last
  {
    var l := [Entry(CollectionKey, collection), Entry(SelfKey, self), Entry(FirstKey, first),
      Entry(LastKey, last), Entry(PrevKey, Null), Entry(NextKey, Null)];
    FindAt(l, 0);
    FindAt(l, 1);
    FindAt(l, 2);
    FindAt(l, 3);
  }

  /** What `jsonApiIndex` writes before its loop, on any document: `meta.status`
      "200", `meta.count` the page size, no `errors`, `data` untouched. */
  lemma IndexHeadMeta(cfg: Config, d: seq<Entry>, page: Page)
    ensures Get2(IndexHeadDoc(cfg, d, page), MetaKey, StatusKey) == Str("200")
    ensures Get2(IndexHeadDoc(cfg, d, page), MetaKey, CountKey) == Int(|page.items|)
    ensures Find(IndexHeadDoc(cfg, d, page), ErrorsKey) == None
    ensures Find(IndexHeadDoc(cfg, d, page), DataKey) == Find(d, DataKey)
  {
    IndexHeadReads(d, Str("200"), Int(|page.items|), PageLinks(cfg.urlBase, page),
      UrlOrNull(page.nextPageUrl), UrlOrNull(page.previousPageUrl));
  }

  /** The links `jsonApiIndex` writes, on any document: `collection`, `self`,
      `first` and `last` always, `prev` and `next` null unless the paginator
      supplies a url. */
  lemma IndexHeadLinks(cfg: Config, d: seq<Entry>, page: Page)
    ensures Get2(IndexHeadDoc(cfg, d, page), LinksKey, CollectionKey) == Str(cfg.urlBase)
    ensures Get2(IndexHeadDoc(cfg, d, page), LinksKey, SelfKey) ==
      Str(cfg.urlBase + "?page=" + IntToString(page.currentPage))
    ensures Get2(IndexHeadDoc(cfg, d, page), LinksKey, FirstKey) == Str(cfg.urlBase + "?page=1")
    ensures Get2(IndexHeadDoc(cfg, d, page), LinksKey, LastKey) ==
      Str(cfg.urlBase + "?page=" + IntToString(page.lastPage))
    ensures Get2(IndexHeadDoc(cfg, d, page), LinksKey, PrevKey) ==
      (if page.previousPageUrl.Some? then Str(page.previousPageUrl.value) else Null)
    ensures Get2(IndexHeadDoc(cfg, d, page), LinksKey, NextKey) ==
      (if page.nextPageUrl.Some? then Str(page.nextPageUrl.value) else Null)
  {
    var l := PageLinks(cfg.urlBase, page);
    LinksReads(l[0].val, l[1].val, l[2].val, l[3].val);
    IndexHeadReads(d, Str("200"), Int(|page.items|), l,
      UrlOrNull(page.nextPageUrl), UrlOrNull(page.previousPageUrl));
  }

  // ---------------------------------------------------------------- what the documents hold

  /** The template's `data` and `errors` are empty arrays. */
  lemma TemplateEmpty()
    ensures Sub(JsonApiResponseArray, DataKey) == [] && Sub(JsonApiResponseArray, ErrorsKey) == []
  {
    TemplateShape();
  }

  /** The writes of a failed validation, over any list of error values. */
  lemma FailedChain(d: seq<Entry>, es: seq<Value>)
    ensures var f := Unset(SetIn(PushAllIn(d, ErrorsKey, es), MetaKey, StatusKey, Str("422")), DataKey);
      Get2(f, MetaKey, StatusKey) == Str("422") && Find(f, DataKey) == None &&
      (es != [] ==> Find(f, ErrorsKey) == Some(Arr(PushAll(Sub(d, ErrorsKey), es))))
  {
    var d1 := PushAllIn(d, ErrorsKey, es);
    var d2 := SetIn(d1, MetaKey, StatusKey, Str("422"));
    Get2UnsetOther(d2, DataKey, MetaKey, StatusKey);
    Get2SetIn(d1, MetaKey, StatusKey, Str("422"), StatusKey);
    FindUnset(d2, DataKey, DataKey);
    FindUnset(d2, DataKey, ErrorsKey);
    FindSetIn(d1, MetaKey, StatusKey, Str("422"), ErrorsKey);
    PushAllInFind(d, ErrorsKey, es);
  }

  /** A failed validation: `meta.status` "422", no `data`, and one error object
      per message appended to `errors`; on the template the first error's status
      is "422" as well. */
  lemma FailedReads(d: seq<Entry>, messages: seq<string>, item: Option<Value>)
    ensures Get2(FailedDoc(d, messages, item), MetaKey, StatusKey) == Str("422")
    ensures Find(FailedDoc(d, messages, item), DataKey) == None
    ensures messages != [] ==>
      Find(FailedDoc(d, messages, item), ErrorsKey) == Some(Arr(PushAll(Sub(d, ErrorsKey), ErrorObjects(messages, item))))
    ensures messages != [] && Sub(d, ErrorsKey) == [] ==>
      FirstErrorStatus(FailedDoc(d, messages, item)) == Str("422")
  {
    var es := ErrorObjects(messages, item);
    FailedChain(d, es);
    if messages != [] && Sub(d, ErrorsKey) == [] {
      ErrorObjectStatus(messages[0], item);
      FirstOfList(FailedDoc(d, messages, item), es, ErrorObject(messages[0], item));
    }
  }

  /** A document whose `errors` is a list of values reads its first error's
      status from the first value. */
  lemma FirstOfList(f: seq<Entry>, es: seq<Value>, first: seq<Entry>)
    requires es != [] && es[0] == Arr(first)
    requires Find(f, ErrorsKey) == Some(Arr(PushAll([], es)))
    ensures FirstErrorStatus(f) == Get(first, StatusKey)
  {
    ListFind(es, 0);
  }

  /** Every validation error object carries status "422". */
  lemma ErrorObjectStatus(message: string, item: Option<Value>)
    ensures Get(ErrorObject(message, item), StatusKey) == Str("422")
  {
  }

  /** A lookup that found nothing: exactly one error, 404 "Resource could not
      found", and neither `meta` nor `data`. */
  lemma NotFoundReads(cfg: Config, d: seq<Entry>)
    ensures Find(NotFoundDoc(cfg, d), ErrorsKey) == Some(Arr([Entry(IntKey(0), Arr(NotFoundError(cfg)))]))
    ensures Find(NotFoundDoc(cfg, d), MetaKey) == None
    ensures Find(NotFoundDoc(cfg, d), DataKey) == None
    ensures FirstErrorStatus(NotFoundDoc(cfg, d)) == Str("404")
  {
    var e := Arr([Entry(IntKey(0), Arr(NotFoundError(cfg)))]);
    var d1 := Set(d, ErrorsKey, e);
    var d2 := Unset(d1, MetaKey);
    FindUnset(d2, DataKey, ErrorsKey);
    FindUnset(d1, MetaKey, ErrorsKey);
    FindUnset(d2, DataKey, MetaKey);
    FindUnset(d2, DataKey, DataKey);
  }

  /** The `meta` of a batch that validated: the real count, the status and the
      detail; no `errors`; `data` as it was. */
  lemma BatchDoneReads(d: seq<Entry>, status: string, detail: string, count: int)
    ensures Get2(BatchDoneDoc(d, status, detail, count), MetaKey, CountKey) == Int(count)
    ensures Get2(BatchDoneDoc(d, status, detail, count), MetaKey, StatusKey) == Str(status)
    ensures Get2(BatchDoneDoc(d, status, detail, count), MetaKey, DetailKey) == Str(detail)
    ensures Find(BatchDoneDoc(d, status, detail, count), ErrorsKey) == None
    ensures Find(BatchDoneDoc(d, status, detail, count), DataKey) == Find(d, DataKey)
  {
    var d1 := Unset(d, ErrorsKey);
    var d2 := SetIn(d1, MetaKey, CountKey, Int(1));
    var d3 := SetIn(d2, MetaKey, StatusKey, Str(status));
    var d4 := SetIn(d3, MetaKey, DetailKey, Str(detail));
    Get2SetIn(d4, MetaKey, CountKey, Int(count), StatusKey);
    Get2SetIn(d4, MetaKey, CountKey, Int(count), DetailKey);
    Get2SetIn(d3, MetaKey, DetailKey, Str(detail), StatusKey);
    Get2SetIn(d3, MetaKey, DetailKey, Str(detail), DetailKey);
    Get2SetIn(d2, MetaKey, StatusKey, Str(status), StatusKey);
    forall j | j != MetaKey ensures Find(BatchDoneDoc(d, status, detail, count), j) == Find(d1, j) {
      FindSetIn(d4, MetaKey, CountKey, Int(count), j);
      FindSetIn(d3, MetaKey, DetailKey, Str(detail), j);
      FindSetIn(d2, MetaKey, StatusKey, Str(status), j);
      FindSetIn(d1, MetaKey, CountKey, Int(1), j);
    }
    FindUnset(d, ErrorsKey, ErrorsKey);
    FindUnset(d, ErrorsKey, DataKey);
  }

  /** The writes after a record was stored, over any resource object and detail. */
  lemma CreatedChain(d: seq<Entry>, base: seq<Entry>, detail: string)
    ensures var f := SetIn(SetIn(SetIn(SetIn(Set(Unset(d, ErrorsKey), DataKey, Arr(base)), DataKey,
        RelationshipsKey, EmptyObject), MetaKey, StatusKey, Str("201")), MetaKey, DetailKey, Str(detail)),
        MetaKey, CountKey, Int(1));
      Find(f, ErrorsKey) == None && Find(f, DataKey) == Some(Arr(Set(base, RelationshipsKey, EmptyObject))) &&
      Get2(f, MetaKey, StatusKey) == Str("201") && Get2(f, MetaKey, DetailKey) == Str(detail) &&
      Get2(f, MetaKey, CountKey) == Int(1)
  {
    var d1 := Unset(d, ErrorsKey);
    var d2 := Set(d1, DataKey, Arr(base));
    var d3 := SetIn(d2, DataKey, RelationshipsKey, EmptyObject);
    var d4 := SetIn(d3, MetaKey, StatusKey, Str("201"));
    var d5 := SetIn(d4, MetaKey, DetailKey, Str(detail));
    Get2SetIn(d5, MetaKey, CountKey, Int(1), StatusKey);
    Get2SetIn(d5, MetaKey, CountKey, Int(1), DetailKey);
    Get2SetIn(d4, MetaKey, DetailKey, Str(detail), StatusKey);
    Get2SetIn(d3, MetaKey, StatusKey, Str("201"), StatusKey);
    forall j | j != MetaKey ensures Find(d5, j) == Find(d3, j) {
      FindSetIn(d4, MetaKey, DetailKey, Str(detail), j);
      FindSetIn(d3, MetaKey, StatusKey, Str("201"), j);
    }
    FindSetIn(d5, MetaKey, CountKey, Int(1), DataKey);
    FindSetIn(d5, MetaKey, CountKey, Int(1), ErrorsKey);
    FindSetIn(d2, DataKey, RelationshipsKey, EmptyObject, ErrorsKey);
    FindSet(d1, DataKey, Arr(base), ErrorsKey);
    FindUnset(d, ErrorsKey, ErrorsKey);
  }

  /** The members of a resource object with a link and a relationship appended. */
  lemma EntryReads(id: Value, ty: Value, attrs: Value, k4: Key, v4: Value, k5: Key, v5: Value)
    requires k4 in {LinksKey, RelationshipsKey} && k5 in {LinksKey, RelationshipsKey} && k4 != k5
    ensures var e := [Entry(IdKey, id), Entry(TypeKey, ty), Entry(AttributesKey, attrs), Entry(k4, v4), Entry(k5, v5)];
      Get(e, IdKey) == id && Get(e, TypeKey) == ty && Get(e, AttributesKey) == attrs &&
      Get(e, k4) == v4 && Get(e, k5) == v5
  {
    var e := [Entry(IdKey, id), Entry(TypeKey, ty), Entry(AttributesKey, attrs), Entry(k4, v4), Entry(k5, v5)];
    FindAt(e, 0);
    FindAt(e, 1);
    FindAt(e, 2);
    FindAt(e, 3);
    FindAt(e, 4);
  }

  /** A created or replaced record is reported with status "201", count 1 and
      the given detail, no `errors`, and a resource object whose `id` is the key
      field as a string, whose `type` is the singular name, whose
      `relationships` is an empty object and whose self link ends in the id. */
  lemma CreatedReads(cfg: Config, d: seq<Entry>, stored: Resource, detail: string)
    ensures Find(CreatedDoc(cfg, d, stored, detail), ErrorsKey) == None
    ensures Get2(CreatedDoc(cfg, d, stored, detail), MetaKey, StatusKey) == Str("201")
    ensures Get2(CreatedDoc(cfg, d, stored, detail), MetaKey, DetailKey) == Str(detail)
    ensures Get2(CreatedDoc(cfg, d, stored, detail), MetaKey, CountKey) == Int(1)
    ensures Get2(CreatedDoc(cfg, d, stored, detail), DataKey, IdKey) == Str(KeyString(cfg, stored))
    ensures Get2(CreatedDoc(cfg, d, stored, detail), DataKey, TypeKey) == Str(cfg.model.apiSingular)
    ensures Get2(CreatedDoc(cfg, d, stored, detail), DataKey, AttributesKey) == Arr(Attributes(cfg, stored))
    ensures Get2(CreatedDoc(cfg, d, stored, detail), DataKey, RelationshipsKey) == EmptyObject
    ensures Get2(CreatedDoc(cfg, d, stored, detail), DataKey, LinksKey) == SelfLink(cfg, stored)
  {
    var base := Identified(cfg, stored) + [Entry(LinksKey, SelfLink(cfg, stored))];
    CreatedChain(d, base, detail);
    assert base == [Entry(IdKey, Str(KeyString(cfg, stored))), Entry(TypeKey, Str(cfg.model.apiSingular)),
      Entry(AttributesKey, Arr(Attributes(cfg, stored))), Entry(LinksKey, SelfLink(cfg, stored))];
    CreatedEntryReads(Str(KeyString(cfg, stored)), Str(cfg.model.apiSingular), Arr(Attributes(cfg, stored)),
      SelfLink(cfg, stored));
  }

  /** The resource object of a created record, once `relationships` is written into it. */
  lemma CreatedEntryReads(id: Value, ty: Value, attrs: Value, links: Value)
    ensures var e := Set([Entry(IdKey, id), Entry(TypeKey, ty), Entry(AttributesKey, attrs), Entry(LinksKey, links)],
        RelationshipsKey, EmptyObject);
      Get(e, IdKey) == id && Get(e, TypeKey) == ty && Get(e, AttributesKey) == attrs &&
      Get(e, LinksKey) == links && Get(e, RelationshipsKey) == EmptyObject
  {
    var base := [Entry(IdKey, id), Entry(TypeKey, ty), Entry(AttributesKey, attrs), Entry(LinksKey, links)];
    FindKeys(base, RelationshipsKey);
    SetAppends(base, RelationshipsKey, EmptyObject);
    assert base + [Entry(RelationshipsKey, EmptyObject)] ==
      [Entry(IdKey, id), Entry(TypeKey, ty), Entry(AttributesKey, attrs), Entry(LinksKey, links), Entry(RelationshipsKey, EmptyObject)];
    EntryReads(id, ty, attrs, LinksKey, links, RelationshipsKey, EmptyObject);
  }

  /** The record found by `jsonApiDetails` is reported with status "200", count
      1, no `errors`, the collection link, and the resource object of the details. */
  lemma DetailsReads(cfg: Config, d: seq<Entry>, obj: Resource)
    ensures Get2(DetailsDoc(cfg, d, obj), MetaKey, StatusKey) == Str("200")
    ensures Get2(DetailsDoc(cfg, d, obj), MetaKey, CountKey) == Int(1)
    ensures Find(DetailsDoc(cfg, d, obj), ErrorsKey) == None
    ensures Find(DetailsDoc(cfg, d, obj), LinksKey) == Some(Arr([Entry(CollectionKey, Str(cfg.urlBase))]))
    ensures Find(DetailsDoc(cfg, d, obj), DataKey) == Some(Arr(DetailsEntry(cfg, obj)))
  {
    var d1 := SetIn(d, MetaKey, StatusKey, Str("200"));
    var d2 := SetIn(d1, MetaKey, CountKey, Int(1));
    var d3 := Unset(d2, ErrorsKey);
    var d4 := Set(d3, LinksKey, Arr([Entry(CollectionKey, Str(cfg.urlBase))]));
    forall x ensures Get2(DetailsDoc(cfg, d, obj), MetaKey, x) == Get2(d2, MetaKey, x) {
      FindSet(d4, DataKey, Arr(DetailsEntry(cfg, obj)), MetaKey);
      FindSet(d3, LinksKey, Arr([Entry(CollectionKey, Str(cfg.urlBase))]), MetaKey);
      FindUnset(d2, ErrorsKey, MetaKey);
    }
    Get2SetIn(d1, MetaKey, CountKey, Int(1), StatusKey);
    FindSet(d4, DataKey, Arr(DetailsEntry(cfg, obj)), ErrorsKey);
    FindSet(d4, DataKey, Arr(DetailsEntry(cfg, obj)), LinksKey);
    FindSet(d3, LinksKey, Arr([Entry(CollectionKey, Str(cfg.urlBase))]), ErrorsKey);
    FindUnset(d2, ErrorsKey, ErrorsKey);
  }

  /** The resource object of the details: `id` the key field as a string,
      `type` the singular name, the exposed attributes, and a self link ending
      in the id. Its `relationships` is an empty array when no attribute is
      exposed, and an empty object otherwise. */
  lemma DetailsEntryReads(cfg: Config, obj: Resource)
    ensures var e := DetailsEntry(cfg, obj);
      Get(e, IdKey) == Str(KeyString(cfg, obj)) && Get(e, TypeKey) == Str(cfg.model.apiSingular) &&
      Get(e, AttributesKey) == Arr(Attributes(cfg, obj)) && Get(e, LinksKey) == SelfLink(cfg, obj) &&
      Get(e, RelationshipsKey) == if Attributes(cfg, obj) == [] then Arr([]) else EmptyObject
  {
    var rel := DetailsRelationships(cfg, obj);
    EntryReads(Str(KeyString(cfg, obj)), Str(cfg.model.apiSingular), Arr(Attributes(cfg, obj)),
      RelationshipsKey, rel, LinksKey, SelfLink(cfg, obj));
    assert DetailsEntry(cfg, obj) ==
      [Entry(IdKey, Str(KeyString(cfg, obj))), Entry(TypeKey, Str(cfg.model.apiSingular)),
       Entry(AttributesKey, Arr(Attributes(cfg, obj))), Entry(RelationshipsKey, rel), Entry(LinksKey, SelfLink(cfg, obj))];
  }

  /** A deleted record is reported with status "200", count 1 and the detail,
      no `errors`, the collection link, and its `id`, `type` and `attributes`. */
  lemma DeletedReads(cfg: Config, d: seq<Entry>, obj: Resource)
    ensures Find(DeletedDoc(cfg, d, obj), ErrorsKey) == None
    ensures Get2(DeletedDoc(cfg, d, obj), MetaKey, StatusKey) == Str("200")
    ensures Get2(DeletedDoc(cfg, d, obj), MetaKey, CountKey) == Int(1)
    ensures Get2(DeletedDoc(cfg, d, obj), MetaKey, DetailKey) == Str("The " + cfg.model.apiSingular + " was deleted.")
    ensures Find(DeletedDoc(cfg, d, obj), LinksKey) == Some(Arr([Entry(CollectionKey, Str(cfg.urlBase))]))
    ensures Find(DeletedDoc(cfg, d, obj), DataKey) == Some(Arr(Identified(cfg, obj)))
  {
    var detail := Str("The " + cfg.model.apiSingular + " was deleted.");
    var links := Arr([Entry(CollectionKey, Str(cfg.urlBase))]);
    var d1 := Unset(d, ErrorsKey);
    var d2 := SetIn(d1, MetaKey, StatusKey, Str("200"));
    var d3 := SetIn(d2, MetaKey, CountKey, Int(1));
    var d4 := SetIn(d3, MetaKey, DetailKey, detail);
    var d5 := Set(d4, LinksKey, links);
    FindSet(d5, DataKey, Arr(Identified(cfg, obj)), LinksKey);
    forall j | j != DataKey && j != LinksKey ensures Find(DeletedDoc(cfg, d, obj), j) == Find(d4, j) {
      FindSet(d5, DataKey, Arr(Identified(cfg, obj)), j);
      FindSet(d4, LinksKey, links, j);
    }
    Get2SetIn(d3, MetaKey, DetailKey, detail, StatusKey);
    Get2SetIn(d3, MetaKey, DetailKey, detail, CountKey);
    Get2SetIn(d2, MetaKey, CountKey, Int(1), StatusKey);
    FindSetIn(d3, MetaKey, DetailKey, detail, ErrorsKey);
    FindSetIn(d2, MetaKey, CountKey, Int(1), ErrorsKey);
    FindSetIn(d1, MetaKey, StatusKey, Str("200"), ErrorsKey);
    FindUnset(d, ErrorsKey, ErrorsKey);
  }

  /** A failed validation of `jsonApiElementUpdate`: top-level status "422",
      the detail and the whole message bag, `meta.status` "422", no `data`. */
  lemma UpdateFailedReads(d: seq<Entry>, bag: MessageBag)
    ensures Get(UpdateFailedDoc(d, bag), StatusKey) == Str("422")
    ensures Get(UpdateFailedDoc(d, bag), DetailKey) == Str("Input validation has failed.")
    ensures Get(UpdateFailedDoc(d, bag), ValidatorErrorsKey) == BagValue(bag)
    ensures Get2(UpdateFailedDoc(d, bag), MetaKey, StatusKey) == Str("422")
    ensures Find(UpdateFailedDoc(d, bag), DataKey) == None
  {
    var d1 := Set(d, StatusKey, Str("422"));
    var d2 := Set(d1, DetailKey, Str("Input validation has failed."));
    var d3 := Set(d2, ValidatorErrorsKey, BagValue(bag));
    var d4 := SetIn(d3, MetaKey, StatusKey, Str("422"));
    forall j | j != DataKey && j != MetaKey ensures Find(UpdateFailedDoc(d, bag), j) == Find(d3, j) {
      FindUnset(d4, DataKey, j);
      FindSetIn(d3, MetaKey, StatusKey, Str("422"), j);
    }
    FindSet(d2, ValidatorErrorsKey, BagValue(bag), StatusKey);
    FindSet(d2, ValidatorErrorsKey, BagValue(bag), DetailKey);
    FindSet(d1, DetailKey, Str("Input validation has failed."), StatusKey);
    Get2UnsetOther(d4, DataKey, MetaKey, StatusKey);
    Get2SetIn(d3, MetaKey, StatusKey, Str("422"), StatusKey);
    FindUnset(d4, DataKey, DataKey);
  }

  /** After `jsonApiElementUpdate` saved: the filtered record under the model's
      singular name, and the top-level status "200" and detail unless that name
      is itself `status` or `detail`, which the record then overwrites. */
  lemma UpdatedReads(cfg: Config, d: seq<Entry>, jsonFilter: Value)
    ensures Find(UpdatedDoc(cfg, d, jsonFilter), StrKey(cfg.model.apiSingular)) == Some(jsonFilter)
    ensures cfg.model.apiSingular != "status" ==> Get(UpdatedDoc(cfg, d, jsonFilter), StatusKey) == Str("200")
    ensures cfg.model.apiSingular != "detail" ==>
      Get(UpdatedDoc(cfg, d, jsonFilter), DetailKey) == Str("The " + cfg.model.apiSingular + " was replaced.")
  {
    var k := StrKey(cfg.model.apiSingular);
    var d1 := Set(d, StatusKey, Str("200"));
    var d2 := Set(d1, DetailKey, Str("The " + cfg.model.apiSingular + " was replaced."));
    FindSet(d2, k, jsonFilter, StatusKey);
    FindSet(d2, k, jsonFilter, DetailKey);
    FindSet(d1, DetailKey, Str("The " + cfg.model.apiSingular + " was replaced."), StatusKey);
  }

  /** The writes of `jsonApiCollectionDelete`, over any list of deleted objects. */
  lemma DeleteChain(cfg: Config, d: seq<Entry>, count: int, es: seq<Value>)
    ensures var f := DeleteTailDoc(cfg, PushAllIn(DeleteHeadDoc(d, count), DataKey, es));
      Find(f, ErrorsKey) == None &&
      Get2(f, MetaKey, CountKey) == Int(count) && Get2(f, MetaKey, StatusKey) == Int(200) &&
      Get2(f, MetaKey, DetailKey) == Str("The collection inside the " + cfg.model.apiPlural + " table was deleted.") &&
      Find(f, LinksKey) == Some(Arr([Entry(CollectionKey, Str(cfg.urlBase))])) &&
      (Sub(d, DataKey) == [] ==> Sub(f, DataKey) == PushAll([], es))
  {
    var p := PushAllIn(DeleteHeadDoc(d, count), DataKey, es);
    DeleteHeadReads(d, count, es);
    DeleteTailReads(cfg, p);
  }

  /** `jsonApiCollectionDelete` up to its loop and through it. */
  lemma DeleteHeadReads(d: seq<Entry>, count: int, es: seq<Value>)
    ensures var p := PushAllIn(DeleteHeadDoc(d, count), DataKey, es);
      Find(p, ErrorsKey) == None && Get2(p, MetaKey, CountKey) == Int(count) &&
      (Sub(d, DataKey) == [] ==> Sub(p, DataKey) == PushAll([], es))
  {
    var h0 := Unset(d, ErrorsKey);
    var h := SetIn(h0, MetaKey, CountKey, Int(count));
    PushAllInOther(h, DataKey, es, MetaKey);
    PushAllInOther(h, DataKey, es, ErrorsKey);
    Get2SetIn(h0, MetaKey, CountKey, Int(count), CountKey);
    FindSetIn(h0, MetaKey, CountKey, Int(count), ErrorsKey);
    FindUnset(d, ErrorsKey, ErrorsKey);
    FindSetIn(h0, MetaKey, CountKey, Int(count), DataKey);
    FindUnset(d, ErrorsKey, DataKey);
    PushAllInFind(h, DataKey, es);
  }

  /** The last writes of `jsonApiCollectionDelete`, on any document. */
  lemma DeleteTailReads(cfg: Config, p: seq<Entry>)
    ensures var f := DeleteTailDoc(cfg, p);
      Find(f, ErrorsKey) == Find(p, ErrorsKey) && Find(f, DataKey) == Find(p, DataKey) &&
      Get2(f, MetaKey, CountKey) == Get2(p, MetaKey, CountKey) && Get2(f, MetaKey, StatusKey) == Int(200) &&
      Get2(f, MetaKey, DetailKey) == Str("The collection inside the " + cfg.model.apiPlural + " table was deleted.") &&
      Find(f, LinksKey) == Some(Arr([Entry(CollectionKey, Str(cfg.urlBase))]))
  {
    var detail := Str("The collection inside the " + cfg.model.apiPlural + " table was deleted.");
    var links := Arr([Entry(CollectionKey, Str(cfg.urlBase))]);
    var t1 := SetIn(p, MetaKey, StatusKey, Int(200));
    var t2 := SetIn(t1, MetaKey, DetailKey, detail);
    forall j | j != LinksKey && j != MetaKey ensures Find(DeleteTailDoc(cfg, p), j) == Find(p, j) {
      FindSet(t2, LinksKey, links, j);
      FindSetIn(t1, MetaKey, DetailKey, detail, j);
      FindSetIn(p, MetaKey, StatusKey, Int(200), j);
    }
    FindSet(t2, LinksKey, links, MetaKey);
    Get2SetIn(t1, MetaKey, DetailKey, detail, CountKey);
    Get2SetIn(t1, MetaKey, DetailKey, detail, StatusKey);
    Get2SetIn(p, MetaKey, StatusKey, Int(200), CountKey);
  }

  /** The writes of a failed `jsonApiElementReplace`: errors appended, `meta` and `data` removed. */
  lemma ReplaceFailedReads(d: seq<Entry>, messages: seq<string>)
    ensures Find(ReplaceFailedDoc(d, messages), MetaKey) == None
    ensures Find(ReplaceFailedDoc(d, messages), DataKey) == None
    ensures messages != [] ==>
      Find(ReplaceFailedDoc(d, messages), ErrorsKey) == Some(Arr(PushAll(Sub(d, ErrorsKey), ErrorObjects(messages, None))))
    ensures messages != [] && Sub(d, ErrorsKey) == [] ==> FirstErrorStatus(ReplaceFailedDoc(d, messages)) == Str("422")
  {
    var es := ErrorObjects(messages, None);
    var d1 := PushAllIn(d, ErrorsKey, es);
    var d2 := Unset(d1, MetaKey);
    FindUnset(d2, DataKey, MetaKey);
    FindUnset(d1, MetaKey, MetaKey);
    FindUnset(d2, DataKey, DataKey);
    FindUnset(d2, DataKey, ErrorsKey);
    FindUnset(d1, MetaKey, ErrorsKey);
    PushAllInFind(d, ErrorsKey, es);
    if messages != [] && Sub(d, ErrorsKey) == [] {
      ListFind(es, 0);
      ErrorObjectStatus(messages[0], None);
    }
  }

  // ---------------------------------------------------------------- the actions, from the template

  /** `jsonApiIndex` on a fresh controller answers "200" after one query for a
      page of 200; `data` is a list holding one resource object per record of
      the page, in order, `meta.count` is that number, and `errors` is gone. */
  lemma IndexAnswers(cfg: Config, page: Page)
    ensures IndexSpec(cfg, JsonApiResponseArray, page).status == Str("200")
    ensures IndexSpec(cfg, JsonApiResponseArray, page).calls == [Paginate(200)]
    ensures Get2(IndexSpec(cfg, JsonApiResponseArray, page).doc, MetaKey, CountKey) == Int(|page.items|)
    ensures var data := Sub(IndexSpec(cfg, JsonApiResponseArray, page).doc, DataKey);
      IsList(data) && |data| == |page.items| && Values(data) == IndexEntries(cfg, page.items)
    ensures Find(IndexSpec(cfg, JsonApiResponseArray, page).doc, ErrorsKey) == None
  {
    var head := IndexHeadDoc(cfg, JsonApiResponseArray, page);
    var es := IndexEntries(cfg, page.items);
    IndexHeadMeta(cfg, JsonApiResponseArray, page);
    TemplateEmpty();
    PushAllInFind(head, DataKey, es);
    PushAllInOther(head, DataKey, es, MetaKey);
    PushAllInOther(head, DataKey, es, ErrorsKey);
    ListOf(es);
  }

  /** `jsonApiIndex` on a fresh controller keeps every link the head wrote. */
  lemma IndexKeepsLinks(cfg: Config, page: Page)
    ensures Find(IndexSpec(cfg, JsonApiResponseArray, page).doc, LinksKey) ==
      Find(IndexHeadDoc(cfg, JsonApiResponseArray, page), LinksKey)
  {
    PushAllInOther(IndexHeadDoc(cfg, JsonApiResponseArray, page), DataKey,
      IndexEntries(cfg, page.items), LinksKey);
  }

  /** A lookup that finds nothing, in `jsonApiDetails` and in
      `jsonApiElementDelete` alike: status "404" and one error, no `meta`, no
      `data`, and nothing but the lookup (a null id looks up 0). */
  lemma NotFoundAnswers(cfg: Config, d: seq<Entry>, id: Value)
    ensures DetailsSpec(cfg, d, id, None) == ElementDeleteSpec(cfg, d, id, None)
    ensures DetailsSpec(cfg, d, id, None).status == Str("404")
    ensures DetailsSpec(cfg, d, id, None).calls == [FindById(if id == Null then Int(0) else id)]
    ensures Find(DetailsSpec(cfg, d, id, None).doc, ErrorsKey) == Some(Arr([Entry(IntKey(0), Arr(NotFoundError(cfg)))]))
    ensures Find(DetailsSpec(cfg, d, id, None).doc, MetaKey) == None
    ensures Find(DetailsSpec(cfg, d, id, None).doc, DataKey) == None
  {
    NotFoundReads(cfg, d);
  }

  /** `jsonApiDetails` of a record that exists: status "200", count 1, the
      record's resource object and the collection link. */
  lemma DetailsAnswers(cfg: Config, d: seq<Entry>, id: Value, obj: Resource)
    ensures DetailsSpec(cfg, d, id, Some(obj)).status == Str("200")
    ensures DetailsSpec(cfg, d, id, Some(obj)).calls == [FindById(IdOrZero(id))]
    ensures Get2(DetailsSpec(cfg, d, id, Some(obj)).doc, MetaKey, CountKey) == Int(1)
    ensures Find(DetailsSpec(cfg, d, id, Some(obj)).doc, DataKey) == Some(Arr(DetailsEntry(cfg, obj)))
    ensures Find(DetailsSpec(cfg, d, id, Some(obj)).doc, ErrorsKey) == None
  {
    DetailsReads(cfg, d, obj);
  }

  /** The attribute map `jsonApiCreate` validates and saves never holds the key
      field, and holds every other extracted key unchanged. */
  lemma CreateInputDropsKey(cfg: Config, codec: JsonCodec, body: seq<Entry>, k: Key)
    ensures Find(CreateInput(cfg, codec, body), k) ==
      if k == StrKey(cfg.model.keyName) then None else Find(Extract(codec, body), k)
  {
    FindUnset(Extract(codec, body), StrKey(cfg.model.keyName), k);
  }

  /** `jsonApiCreate` on a fresh controller: a failing validation saves nothing
      and answers "422" with one error per message; a passing one saves the
      validated map once and answers "201" with the stored record. */
  lemma CreateAnswers(cfg: Config, codec: JsonCodec, validate: Validator, body: seq<Entry>, stored: Resource)
    ensures var re := CreateInput(cfg, codec, body);
      var bag := validate(Arr(re), ModelRules(None, None));
      var o := CreateSpec(cfg, codec, validate, JsonApiResponseArray, body, stored);
      if Fails(bag) then
        o.calls == [] && o.status == Str("422") && Get2(o.doc, MetaKey, StatusKey) == Str("422") &&
        Find(o.doc, DataKey) == None &&
        Find(o.doc, ErrorsKey) == Some(Arr(PushAll([], ErrorObjects(All(bag), None))))
      else
        o.calls == [Save(None, Arr(re))] && o.status == Str("201") &&
        Get2(o.doc, MetaKey, StatusKey) == Str("201") && Get2(o.doc, MetaKey, CountKey) == Int(1) &&
        Get2(o.doc, DataKey, IdKey) == Str(KeyString(cfg, stored)) && Find(o.doc, ErrorsKey) == None
  {
    var re := CreateInput(cfg, codec, body);
    var bag := validate(Arr(re), ModelRules(None, None));
    TemplateEmpty();
    FailedReads(JsonApiResponseArray, All(bag), None);
    CreatedReads(cfg, JsonApiResponseArray, stored, "The " + cfg.model.apiSingular + " was created.");
  }

  /** `jsonApiCreateById` validates the map with the key field set to the
      requested id, and saves it with the id cast to an integer; every other
      extracted key is kept. A failing validation saves nothing. */
  lemma CreateByIdAnswers(cfg: Config, codec: JsonCodec, validate: Validator, d: seq<Entry>,
                          body: seq<Entry>, id: Value, stored: Resource, k: Key)
    ensures var key := StrKey(cfg.model.keyName);
      var re := Set(Extract(codec, body), key, id);
      var saved := Set(re, key, Int(ToInt(id)));
      var o := CreateByIdSpec(cfg, codec, validate, d, body, id, stored);
      Find(re, k) == (if k == key then Some(id) else Find(Extract(codec, body), k)) &&
      Find(saved, k) == (if k == key then Some(Int(ToInt(id))) else Find(Extract(codec, body), k)) &&
      (Fails(validate(Arr(re), UniqueKeyRule(cfg))) ==>
        o.calls == [] && Get2(o.doc, MetaKey, StatusKey) == Str("422")) &&
      (!Fails(validate(Arr(re), UniqueKeyRule(cfg))) ==>
        o.calls == [Save(None, Arr(saved))] && o.status == Str("201"))
  {
    var key := StrKey(cfg.model.keyName);
    var re := Set(Extract(codec, body), key, id);
    var saved := Set(re, key, Int(ToInt(id)));
    FindSet(Extract(codec, body), key, id, k);
    FindSet(re, key, Int(ToInt(id)), k);
    FailedReads(d, All(validate(Arr(re), UniqueKeyRule(cfg))), None);
  }

  /** `jsonApiCollectionReplace` on a fresh controller force-deletes the whole
      table first, whatever follows. Validation stops at the first item that is
      not an array, where `Validator::make` throws, or that fails: then nothing
      is saved, and a failing item answers "422" with one error per message of
      that item in `errors`, each carrying the item. Otherwise every
      item is saved as a new record, in order, and the answer is "201" with the
      number of items as `meta.count`. */
  lemma CollectionReplaceAnswers(cfg: Config, codec: JsonCodec, validate: Validator, body: seq<Entry>)
    ensures var items := Values(Extract(codec, body));
      var o := CollectionReplaceSpec(cfg, codec, validate, JsonApiResponseArray, body);
      match FirstFailure(validate, items, ReplaceRules(items))
      case Some(i) =>
        var ms := All(validate(items[i], ModelRules(None, None)));
        (forall j :: 0 <= j < i ==> items[j].Arr? && !Fails(validate(items[j], ModelRules(None, None)))) &&
        o.calls == [ForceDeleteAll] &&
        if items[i].Arr? then
          o.Outcome? && o.status == Str("422") && Find(o.doc, DataKey) == None &&
          Find(o.doc, ErrorsKey) == Some(Arr(PushAll([], ErrorObjects(ms, Some(items[i])))))
        else
          o == Crash(JsonApiResponseArray, NotAnArray, [ForceDeleteAll])
      case None =>
        (forall j :: 0 <= j < |items| ==> items[j].Arr? && !Fails(validate(items[j], ModelRules(None, None)))) &&
        o.Outcome? && o.calls == [ForceDeleteAll] + NewSaves(items) && o.status == Str("201") &&
        Get2(o.doc, MetaKey, CountKey) == Int(|items|) && Get2(o.doc, MetaKey, StatusKey) == Str("201") &&
        Find(o.doc, ErrorsKey) == None
  {
    var items := Values(Extract(codec, body));
    match FirstFailure(validate, items, ReplaceRules(items))
    case Some(i) =>
      if items[i].Arr? {
        CollectionReplaceRejects(cfg, codec, validate, body, i);
      }
    case None => CollectionReplaceAccepts(cfg, codec, validate, body);
  }

  /** The failing half of `CollectionReplaceAnswers`. */
  lemma CollectionReplaceRejects(cfg: Config, codec: JsonCodec, validate: Validator, body: seq<Entry>, i: nat)
    requires var items := Values(Extract(codec, body));
      FirstFailure(validate, items, ReplaceRules(items)) == Some(i) && items[i].Arr?
    ensures var items := Values(Extract(codec, body));
      var o := CollectionReplaceSpec(cfg, codec, validate, JsonApiResponseArray, body);
      o.Outcome? && o.calls == [ForceDeleteAll] && o.status == Str("422") && Find(o.doc, DataKey) == None &&
      Find(o.doc, ErrorsKey) == Some(Arr(PushAll([], ErrorObjects(All(validate(items[i], ModelRules(None, None))), Some(items[i])))))
  {
    var items := Values(Extract(codec, body));
    var ms := All(validate(items[i], ModelRules(None, None)));
    TemplateEmpty();
    assert CollectionReplaceSpec(cfg, codec, validate, JsonApiResponseArray, body).doc ==
      FailedDoc(JsonApiResponseArray, ms, Some(items[i]));
    FailedReads(JsonApiResponseArray, ms, Some(items[i]));
  }

  /** The passing half of `CollectionReplaceAnswers`. */
  lemma CollectionReplaceAccepts(cfg: Config, codec: JsonCodec, validate: Validator, body: seq<Entry>)
    requires var items := Values(Extract(codec, body)); FirstFailure(validate, items, ReplaceRules(items)).None?
    ensures var items := Values(Extract(codec, body));
      var o := CollectionReplaceSpec(cfg, codec, validate, JsonApiResponseArray, body);
      o.Outcome? && o.calls == [ForceDeleteAll] + NewSaves(items) && o.status == Str("201") &&
      Get2(o.doc, MetaKey, CountKey) == Int(|items|) && Get2(o.doc, MetaKey, StatusKey) == Str("201") &&
      Find(o.doc, ErrorsKey) == None
  {
    var items := Values(Extract(codec, body));
    var detail := "The " + cfg.model.nameSingular + " collection was replaced.";
    assert CollectionReplaceSpec(cfg, codec, validate, JsonApiResponseArray, body).doc ==
      BatchDoneDoc(JsonApiResponseArray, "201", detail, |items|);
    BatchDoneReads(JsonApiResponseArray, "201", detail, |items|);
  }

  /** `jsonApiElementReplace`: it fails exactly when the id validator or the
      attribute validator fails, and then reports every message of both, and
      nothing else, answering "422" with neither `meta` nor `data` and saving
      nothing. Otherwise it force-deletes the record found and saves a new one
      carrying the requested id, answering "201". */
  lemma ElementReplaceAnswers(cfg: Config, codec: JsonCodec, validate: Validator, body: seq<Entry>,
                              id: Value, found: Option<Resource>, stored: Resource)
    ensures var re := Extract(codec, body);
      var idBag := validate(Arr([Entry(StrKey(cfg.model.keyName), id)]), ExistsKeyRule(cfg));
      var bag := validate(Arr(re), ModelRules(found, None));
      var o := ElementReplaceSpec(cfg, codec, validate, JsonApiResponseArray, body, id, found, stored);
      if Fails(idBag) || Fails(bag) then
        (forall m :: m in All(MergedBag(idBag, bag)) <==> m in All(idBag) || m in All(bag)) &&
        Find(o.doc, ErrorsKey) == Some(Arr(PushAll([], ErrorObjects(All(MergedBag(idBag, bag)), None)))) &&
        o.status == Str("422") && o.calls == [FindById(id)] &&
        Find(o.doc, MetaKey) == None && Find(o.doc, DataKey) == None
      else
        o.status == Str("201") && Find(o.doc, ErrorsKey) == None &&
        o.calls == [FindById(id)] + [ForceDelete(found.GetOr(Blank)), Save(None, Arr(Set(re, IdKey, id)))] &&
        Find(Set(re, IdKey, id), IdKey) == Some(id)
  {
    var re := Extract(codec, body);
    var idBag := validate(Arr([Entry(StrKey(cfg.model.keyName), id)]), ExistsKeyRule(cfg));
    var bag := validate(Arr(re), ModelRules(found, None));
    if Fails(idBag) || Fails(bag) {
      ElementReplaceRejects(cfg, codec, validate, body, id, found, stored);
    } else {
      ElementReplaceAccepts(cfg, codec, validate, body, id, found, stored);
    }
  }

  /** The passing half of `ElementReplaceAnswers`. */
  lemma ElementReplaceAccepts(cfg: Config, codec: JsonCodec, validate: Validator, body: seq<Entry>,
                              id: Value, found: Option<Resource>, stored: Resource)
    requires !Fails(validate(Arr([Entry(StrKey(cfg.model.keyName), id)]), ExistsKeyRule(cfg)))
    requires !Fails(validate(Arr(Extract(codec, body)), ModelRules(found, None)))
    ensures var re := Extract(codec, body);
      var o := ElementReplaceSpec(cfg, codec, validate, JsonApiResponseArray, body, id, found, stored);
      o.status == Str("201") && Find(o.doc, ErrorsKey) == None &&
      o.calls == [FindById(id)] + [ForceDelete(found.GetOr(Blank)), Save(None, Arr(Set(re, IdKey, id)))] &&
      Find(Set(re, IdKey, id), IdKey) == Some(id)
  {
    var detail := "The " + cfg.model.nameSingular + " was replaced.";
    assert ElementReplaceSpec(cfg, codec, validate, JsonApiResponseArray, body, id, found, stored).doc ==
      CreatedDoc(cfg, JsonApiResponseArray, stored, detail);
    CreatedReads(cfg, JsonApiResponseArray, stored, detail);
  }

  /** The failing half of `ElementReplaceAnswers`. */
  lemma ElementReplaceRejects(cfg: Config, codec: JsonCodec, validate: Validator, body: seq<Entry>,
                              id: Value, found: Option<Resource>, stored: Resource)
    requires Fails(validate(Arr([Entry(StrKey(cfg.model.keyName), id)]), ExistsKeyRule(cfg))) ||
      Fails(validate(Arr(Extract(codec, body)), ModelRules(found, None)))
    ensures var idBag := validate(Arr([Entry(StrKey(cfg.model.keyName), id)]), ExistsKeyRule(cfg));
      var bag := validate(Arr(Extract(codec, body)), ModelRules(found, None));
      var o := ElementReplaceSpec(cfg, codec, validate, JsonApiResponseArray, body, id, found, stored);
      (forall m :: m in All(MergedBag(idBag, bag)) <==> m in All(idBag) || m in All(bag)) &&
      Find(o.doc, ErrorsKey) == Some(Arr(PushAll([], ErrorObjects(All(MergedBag(idBag, bag)), None)))) &&
      o.status == Str("422") && o.calls == [FindById(id)] &&
      Find(o.doc, MetaKey) == None && Find(o.doc, DataKey) == None
  {
    var idBag := validate(Arr([Entry(StrKey(cfg.model.keyName), id)]), ExistsKeyRule(cfg));
    var bag := validate(Arr(Extract(codec, body)), ModelRules(found, None));
    var merged := All(MergedBag(idBag, bag));
    AddAllMessages(bag, "id", All(idBag));
    var m := if Fails(bag) then All(bag)[0] else All(idBag)[0];
    assert m in merged;
    TemplateEmpty();
    ReplaceFailedReads(JsonApiResponseArray, merged);
  }

  /** The ids `jsonApiCollectionUpdate` queries are exactly the truthy ids of the items. */
  lemma {:induction false} TruthyIdsAre(items: seq<Value>, x: Value)
    ensures x in TruthyIds(items) <==>
      exists i :: 0 <= i < |items| && Truthy(Field(items[i], IdKey)) && x == Field(items[i], IdKey)
  {
    if items != [] {
      var p := items[..|items| - 1];
      TruthyIdsAre(p, x);
      if x in TruthyIds(p) {
        var i :| 0 <= i < |p| && Truthy(Field(p[i], IdKey)) && x == Field(p[i], IdKey);
        assert items[i] == p[i];
      }
      if exists i :: 0 <= i < |items| && Truthy(Field(items[i], IdKey)) && x == Field(items[i], IdKey) {
        var i :| 0 <= i < |items| && Truthy(Field(items[i], IdKey)) && x == Field(items[i], IdKey);
        if i < |p| {
          assert items[i] == p[i];
        }
      }
    }
  }

  /** `jsonApiCollectionUpdate` on a fresh controller first queries the records
      the truthy ids name. Validation stops at the first item that is not an
      array, where `Validator::make` throws, or that fails against the rules of
      the record its id names: nothing is saved, and a failing item answers
      "422" with its messages. Otherwise each item is saved over the
      record its id names (a new one when there is none), and the answer is "200". */
  lemma CollectionUpdateAnswers(cfg: Config, codec: JsonCodec, validate: Validator, body: seq<Entry>,
                                existing: seq<Resource>)
    ensures var items := Values(Extract(codec, body));
      var rules := UpdateRules(cfg, existing, items);
      var o := CollectionUpdateSpec(cfg, codec, validate, JsonApiResponseArray, body, existing);
      match FirstFailure(validate, items, rules)
      case Some(i) =>
        (forall j :: 0 <= j < i ==> items[j].Arr? && !Fails(validate(items[j], rules[j]))) &&
        o.calls == [WhereIdIn(TruthyIds(items))] &&
        if items[i].Arr? then
          o.Outcome? && o.status == Str("422") && Find(o.doc, DataKey) == None &&
          Find(o.doc, ErrorsKey) == Some(Arr(PushAll([], ErrorObjects(All(validate(items[i], rules[i])), Some(items[i])))))
        else
          o == Crash(JsonApiResponseArray, NotAnArray, [WhereIdIn(TruthyIds(items))])
      case None =>
        (forall j :: 0 <= j < |items| ==> items[j].Arr? && !Fails(validate(items[j], rules[j]))) &&
        o.Outcome? && o.calls == [WhereIdIn(TruthyIds(items))] + UpdateSaves(cfg, existing, items) && o.status == Str("200") &&
        Get2(o.doc, MetaKey, CountKey) == Int(|items|) && Get2(o.doc, MetaKey, StatusKey) == Str("200") &&
        Find(o.doc, ErrorsKey) == None
  {
    var items := Values(Extract(codec, body));
    var rules := UpdateRules(cfg, existing, items);
    TemplateEmpty();
    match FirstFailure(validate, items, rules)
    case Some(i) =>
      if items[i].Arr? {
        FailedReads(JsonApiResponseArray, All(validate(items[i], rules[i])), Some(items[i]));
      }
    case None =>
      BatchDoneReads(JsonApiResponseArray, "200", "The " + cfg.model.nameSingular + " collection was updated.",
        |Extract(codec, body)|);
  }

  /** A single resource sent to a batch action: its first item is its id, not
      an array, so `Validator::make` throws on it. The replace has already
      force-deleted the whole table by then; the update has only queried. */
  lemma SingleBodyThrows(cfg: Config, codec: JsonCodec, validate: Validator, d: seq<Entry>,
                         body: seq<Entry>, existing: seq<Resource>)
    requires IsSingle(body)
    requires NoDupKeys(Entries(Get2(body, DataKey, AttributesKey)))
    requires !Find(Entries(Get2(body, DataKey, AttributesKey)), IdKey).GetOr(Get2(body, DataKey, IdKey)).Arr?
    ensures CollectionReplaceSpec(cfg, codec, validate, d, body) == Crash(d, NotAnArray, [ForceDeleteAll])
    ensures var items := Values(Extract(codec, body));
      CollectionUpdateSpec(cfg, codec, validate, d, body, existing) ==
        Crash(d, NotAnArray, [WhereIdIn(TruthyIds(items))])
  {
    var items := Values(Extract(codec, body));
    ExtractSingleFirst(codec, body);
    assert !items[0].Arr?;
    assert FirstFailure(validate, items, ReplaceRules(items)) == Some(0);
    assert FirstFailure(validate, items, UpdateRules(cfg, existing, items)) == Some(0);
  }

  /** A list body never reaches the throw: every item it gives is an array. */
  lemma ListBodyValidates(cfg: Config, codec: JsonCodec, validate: Validator, d: seq<Entry>,
                          body: seq<Entry>, existing: seq<Resource>)
    requires !IsSingle(body)
    ensures !CollectionReplaceSpec(cfg, codec, validate, d, body).Crash?
    ensures !CollectionUpdateSpec(cfg, codec, validate, d, body, existing).Crash?
  {
    var items := Values(Extract(codec, body));
    ExtractListItems(codec, body);
    var replaced := FirstFailure(validate, items, ReplaceRules(items));
    if replaced.Some? {
      assert items[replaced.value] in items;
    }
    var updated := FirstFailure(validate, items, UpdateRules(cfg, existing, items));
    if updated.Some? {
      assert items[updated.value] in items;
    }
  }

  /** `jsonApiElementUpdate`: a failing validation answers "422" with the whole
      message bag and saves nothing; a passing one saves the map, with `id` set
      to the requested id, over the record found, and answers "200" unless the
      model's singular name is `status`. */
  lemma ElementUpdateAnswers(cfg: Config, codec: JsonCodec, validate: Validator, d: seq<Entry>,
                             body: seq<Entry>, id: Value, found: Option<Resource>, jsonFilter: Value)
    ensures var re := Set(Extract(codec, body), IdKey, id);
      var bag := validate(Arr(re), ModelRules(found, None));
      var o := ElementUpdateSpec(cfg, codec, validate, d, body, id, found, jsonFilter);
      Find(re, IdKey) == Some(id) &&
      if Fails(bag) then
        o.status == Str("422") && o.calls == [FindById(id)] &&
        Get(o.doc, ValidatorErrorsKey) == BagValue(bag) && Find(o.doc, DataKey) == None
      else
        o.calls == [FindById(id), Save(found, Arr(re))] &&
        Find(o.doc, StrKey(cfg.model.apiSingular)) == Some(jsonFilter) &&
        (cfg.model.apiSingular != "status" ==> o.status == Str("200"))
  {
    var re := Set(Extract(codec, body), IdKey, id);
    UpdateFailedReads(d, validate(Arr(re), ModelRules(found, None)));
    UpdatedReads(cfg, d, jsonFilter);
  }

  /** `jsonApiCollectionDelete` on a fresh controller answers the integer 200,
      reads the table and then deletes it, and lists one resource object per
      record it read, with that number as `meta.count`. */
  lemma CollectionDeleteAnswers(cfg: Config, all: seq<Resource>)
    ensures CollectionDeleteSpec(cfg, JsonApiResponseArray, all).status == Int(200)
    ensures CollectionDeleteSpec(cfg, JsonApiResponseArray, all).calls == [FetchAll, DeleteAll]
    ensures Get2(CollectionDeleteSpec(cfg, JsonApiResponseArray, all).doc, MetaKey, CountKey) == Int(|all|)
    ensures var data := Sub(CollectionDeleteSpec(cfg, JsonApiResponseArray, all).doc, DataKey);
      IsList(data) && |data| == |all| && Values(data) == DeletedEntries(cfg, all)
    ensures Find(CollectionDeleteSpec(cfg, JsonApiResponseArray, all).doc, ErrorsKey) == None
  {
    DeleteOnTemplate(cfg, |all|, DeletedEntries(cfg, all));
  }

  /** The writes of `jsonApiCollectionDelete` on the template, over any list of deleted objects. */
  lemma DeleteOnTemplate(cfg: Config, count: int, es: seq<Value>)
    ensures var f := DeleteTailDoc(cfg, PushAllIn(DeleteHeadDoc(JsonApiResponseArray, count), DataKey, es));
      var data := Sub(f, DataKey);
      Get2(f, MetaKey, CountKey) == Int(count) && Find(f, ErrorsKey) == None &&
      IsList(data) && |data| == |es| && Values(data) == es
  {
    TemplateEmpty();
    DeleteChain(cfg, JsonApiResponseArray, count, es);
    ListOf(es);
  }

  /** `jsonApiElementDelete` of a record that exists deletes exactly that record
      and answers "200" with its `id`, `type` and `attributes`. */
  lemma ElementDeleteAnswers(cfg: Config, d: seq<Entry>, id: Value, obj: Resource)
    ensures ElementDeleteSpec(cfg, d, id, Some(obj)).status == Str("200")
    ensures ElementDeleteSpec(cfg, d, id, Some(obj)).calls == [FindById(IdOrZero(id)), Delete(obj)]
    ensures Find(ElementDeleteSpec(cfg, d, id, Some(obj)).doc, DataKey) == Some(Arr(Identified(cfg, obj)))
    ensures Get2(ElementDeleteSpec(cfg, d, id, Some(obj)).doc, MetaKey, CountKey) == Int(1)
    ensures Find(ElementDeleteSpec(cfg, d, id, Some(obj)).doc, ErrorsKey) == None
  {
    DeletedReads(cfg, d, obj);
  }
}
