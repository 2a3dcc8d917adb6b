/** The response template the JSON:API controller starts from, the keys of a
    response document and the default page size. */
module JsonApiTrait {
  import opened PhpValues
  import opened PhpArrays

  const DataKey := StrKey("data")
  const ErrorsKey := StrKey("errors")
  const MetaKey := StrKey("meta")
  const LinksKey := StrKey("links")
  const StatusKey := StrKey("status")
  const CountKey := StrKey("count")
  const DetailKey := StrKey("detail")
  const TitleKey := StrKey("title")
  const IdKey := StrKey("id")
  const TypeKey := StrKey("type")
  const AttributesKey := StrKey("attributes")
  const RelationshipsKey := StrKey("relationships")
  const SelfKey := StrKey("self")
  const CollectionKey := StrKey("collection")
  const FirstKey := StrKey("first")
  const LastKey := StrKey("last")
  const PrevKey := StrKey("prev")
  const NextKey := StrKey("next")
  const ValidatorErrorsKey := StrKey("validator_errors")

  /** `$json_api_response_array` as declared: empty `data` and `errors`, and a
      `meta` whose status is still null. */
  const JsonApiResponseArray: seq<Entry> := [
    Entry(DataKey, Arr([])),
    Entry(ErrorsKey, Arr([])),
    Entry(MetaKey, Arr([Entry(StatusKey, Null)]))]

  /** `$json_api_maximum_response_number`: the page size of the index. */
  const JsonApiMaximumResponseNumber: int := 200

  /** The template has exactly the three top-level members, in order, with the
      values the declaration gives them. */
  lemma TemplateShape()
    ensures Keys(JsonApiResponseArray) == [DataKey, ErrorsKey, MetaKey]
    ensures Find(JsonApiResponseArray, DataKey) == Some(Arr([]))
    ensures Find(JsonApiResponseArray, ErrorsKey) == Some(Arr([]))
    ensures Find(JsonApiResponseArray, LinksKey) == None
    ensures Get2(JsonApiResponseArray, MetaKey, StatusKey) == Null
    ensures NoDupKeys(JsonApiResponseArray)
  {
    var t := JsonApiResponseArray;
    FindAt(t, 0);
    FindAt(t, 1);
    FindAt(t, 2);
    FindKeys(t, LinksKey);
    FindAt(t[2].val.entries, 0);
  }
}

/** The legacy controller's template and page size. */
module JsonTrait {
  import opened PhpValues
  import JsonApiTrait

  /** `$json_api_response_array` of the legacy traits. */
  const JsonResponseArray: seq<Entry> := [
    Entry(StrKey("data"), Arr([])),
    Entry(StrKey("errors"), Arr([])),
    Entry(StrKey("meta"), Arr([Entry(StrKey("status"), Null)]))]

  /** `$maximum_response_number`. */
  const MaximumResponseNumber: int := 200

  /** Both generations of the controller start from the same document and use the same page size. */
  lemma SameTemplate()
    ensures JsonResponseArray == JsonApiTrait.JsonApiResponseArray
    ensures MaximumResponseNumber == JsonApiTrait.JsonApiMaximumResponseNumber
  {
  }
}
