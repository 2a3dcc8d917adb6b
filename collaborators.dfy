/** What the controllers talk to but do not implement: the Eloquent model and
    its store, the paginator, the validator and its message bag. The model keeps
    them abstract. Every store result is an input, every store effect is a
    `StoreCall` appended to a log, and the validator is a function the caller
    supplies. */
module Collaborators {
  import opened PhpValues
  import opened PhpArrays

  /** An Eloquent record, seen through its attributes. */
  datatype Resource = Resource(attributes: seq<Entry>)

  /** `$model->$name`: the attribute, or null when the record has none. */
  function Prop(r: Resource, name: string): Value
  {
    Get(r.attributes, StrKey(name))
  }

  /** A fresh `new $this->model()`, before anything is filled in. */
  const Blank: Resource := Resource([])

  /** What `paginate($n)` hands back: the records on the current page and the
      cursor values the controllers read. */
  datatype Page = Page(
    items: seq<Resource>,
    currentPage: int,
    lastPage: int,
    nextPageUrl: Option<string>,
    previousPageUrl: Option<string>)

  /** One effect on, or query of, the data store, in the order issued. */
  datatype StoreCall =
    | Paginate(perPage: int)
    | FindById(id: Value)
    | FetchAll
    | WhereIdIn(ids: seq<Value>)
    /** `fill($attributes)` then `save()`, on the record `base` (None: a new one). */
    | Save(base: Option<Resource>, attributes: Value)
    | Delete(record: Resource)
    | ForceDelete(record: Resource)
    | ForceDeleteAll
    | DeleteAll

  /** The rule set handed to `Validator::make`. */
  datatype RuleSet =
    /** `getValidation($ignore)` called on `on` (None: a fresh instance). */
    | ModelRules(on: Option<Resource>, ignore: Option<Resource>)
    /** The model rules with the rule of one field replaced. */
    | ModelRulesWith(field: string, rule: string)
    /** A rule set with a single rule. */
    | FieldRule(field: string, rule: string)
    /** The legacy `getValidation($object->getDefaultIgnoredUniques(), $id)`. */
    | LegacyRules(id: int)

  /** Laravel's message bag: messages grouped by field, fields in insertion order. */
  datatype FieldMessages = FieldMessages(field: string, messages: seq<string>)
  type MessageBag = seq<FieldMessages>

  /** The validator: the data and the rules give a message bag. */
  type Validator = (Value, RuleSet) -> MessageBag

  /** `errors()->all()`: every message, field by field. */
  function All(bag: MessageBag): (ms: seq<string>)
    ensures bag == [] ==> ms == []
  {
    if bag == [] then [] else bag[0].messages + All(bag[1..])
  }

  /** `fails()`: the bag holds at least one message. */
  predicate Fails(bag: MessageBag)
  {
    All(bag) != []
  }

  /** `errors()->add($field, $message)`: appended under the field unless that
      field already holds the same message. */
  function Add(bag: MessageBag, field: string, message: string): (r: MessageBag)
    ensures message in All(r)
    decreases |bag|
  {
    if bag == [] then [FieldMessages(field, [message])]
    else if bag[0].field == field then
      if message in bag[0].messages then bag
      else [FieldMessages(field, bag[0].messages + [message])] + bag[1..]
    else [bag[0]] + Add(bag[1..], field, message)
  }

  /** `foreach ($messages as $m) { $bag->add($field, $m); }`. */
  function AddAll(bag: MessageBag, field: string, messages: seq<string>): MessageBag
    decreases |messages|
  {
    if messages == [] then bag
    else AddAll(Add(bag, field, messages[0]), field, messages[1..])
  }

  /** `add` loses no message and introduces none but its own. */
  lemma {:induction false} AddMessages(bag: MessageBag, field: string, message: string)
    ensures forall x :: x in All(Add(bag, field, message)) <==> x in All(bag) || x == message
    decreases |bag|
  {
    if bag == [] {
    } else if bag[0].field == field {
      if message !in bag[0].messages {
        var r := Add(bag, field, message);
        assert r[1..] == bag[1..];
        assert All(r) == bag[0].messages + [message] + All(bag[1..]);
      }
    } else {
      AddMessages(bag[1..], field, message);
      var r := Add(bag, field, message);
      assert r[1..] == Add(bag[1..], field, message);
    }
  }

  /** After merging `messages` under one field, the bag holds exactly the old
      messages and the merged ones. */
  lemma {:induction false} AddAllMessages(bag: MessageBag, field: string, messages: seq<string>)
    ensures forall x :: x in All(AddAll(bag, field, messages)) <==> x in All(bag) || x in messages
    decreases |messages|
  {
    if messages != [] {
      AddMessages(bag, field, messages[0]);
      AddAllMessages(Add(bag, field, messages[0]), field, messages[1..]);
      assert messages == [messages[0]] + messages[1..];
    }
  }

  /** The JSON shape of a message bag: `{field: [message, ...], ...}`. */
  function BagValue(bag: MessageBag): Value
  {
    Arr(seq(|bag|, i requires 0 <= i < |bag| =>
      Entry(StrKey(bag[i].field), Arr(PushAll([], StrValues(bag[i].messages))))))
  }

  function StrValues(ms: seq<string>): (vs: seq<Value>)
    ensures |vs| == |ms|
    ensures forall i :: 0 <= i < |ms| ==> vs[i] == Str(ms[i])
  {
    seq(|ms|, i requires 0 <= i < |ms| => Str(ms[i]))
  }

  /** What an action hands to `Response::json`: the body and the status, or a
      fatal error when the action dereferences a missing record or reads a
      status that is not there. */
  datatype Reply = Json(body: seq<Entry>, status: Value) | Fatal(reason: string)

  /** What one action does, stated as values: the document it leaves in
      `$json_api_response_array`, the status it answers with (or the error it
      throws) and the store calls it issues before that. */
  datatype Outcome =
    | Outcome(doc: seq<Entry>, status: Value, calls: seq<StoreCall>)
    | Crash(doc: seq<Entry>, reason: string, calls: seq<StoreCall>)

  /** What the action hands back: `Response::json` of the document and status,
      or the error that escaped it. */
  function ReplyOf(o: Outcome): Reply
  {
    match o
    case Outcome(d, s, _) => Json(d, s)
    case Crash(_, reason, _) => Fatal(reason)
  }

  /** The names the model class reports about itself. */
  datatype Descriptor = Descriptor(
    /** `getKeyName()`. */
    keyName: string,
    /** `getTable()`. */
    table: string,
    /** `getApiModelNameSingular()` and `getApiModelNamePlural()`. */
    apiSingular: string,
    apiPlural: string,
    /** `getModelNameSingular()`. */
    nameSingular: string,
    /** `Inflector::singularize(getTable())`. */
    singularTable: string,
    /** `$api_array_filter`. */
    apiArrayFilter: seq<string>,
    /** `getFillable()`. */
    fillable: seq<string>)

  /** A controller's configuration: `$url_base` and the model it serves. */
  datatype Config = Config(urlBase: string, model: Descriptor)
}
