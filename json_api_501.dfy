/** The stand-in controller whose ten JSON:API actions all answer "501 Not
    Implemented" with one constant document. */
module JsonApi501 {
  import opened PhpValues
  import opened PhpArrays
  import opened Collaborators
  import opened JsonApiTrait

  /** The ten actions of the JSON:API interface. */
  datatype Operation =
    | Index | Details | Create | CreateById | CollectionReplace
    | ElementReplace | CollectionUpdate | ElementUpdate | CollectionDelete | ElementDelete

  /** The error object, repeated as the document's `meta`. */
  const NotImplemented: seq<Entry> := [
    Entry(StatusKey, Str("501")),
    Entry(TitleKey, Str("Not Implemented")),
    Entry(DetailKey, Str("This feature is not yet implemented."))]

  /** `$response`: one error, and a `meta` carrying the same three fields. */
  const Response: seq<Entry> := [
    Entry(ErrorsKey, Arr([Entry(IntKey(0), Arr(NotImplemented))])),
    Entry(MetaKey, Arr(NotImplemented))]

  /** Every action: the constant document, with the status of its first error.
      The request and the id are accepted and ignored. */
  function Respond(op: Operation, request: Value, id: Value): (r: Reply)
    ensures r == Json(Response, Str("501"))
  {
    ResponseShape();
    Json(Response, Get3(Response, ErrorsKey, IntKey(0), StatusKey))
  }

  /** The document holds exactly one error, 501 "Not Implemented", and `meta`
      mirrors its status, title and detail. */
  lemma ResponseShape()
    ensures Keys(Response) == [ErrorsKey, MetaKey]
    ensures Find(Response, ErrorsKey) == Some(Arr([Entry(IntKey(0), Arr(NotImplemented))]))
    ensures Get3(Response, ErrorsKey, IntKey(0), StatusKey) == Str("501")
    ensures Get2(Response, MetaKey, StatusKey) == Get3(Response, ErrorsKey, IntKey(0), StatusKey)
    ensures Get2(Response, MetaKey, TitleKey) == Get3(Response, ErrorsKey, IntKey(0), TitleKey)
    ensures Get2(Response, MetaKey, DetailKey) == Get3(Response, ErrorsKey, IntKey(0), DetailKey)
  {
    FindAt(Response, 0);
    FindAt(Response, 1);
    FindAt([Entry(IntKey(0), Arr(NotImplemented))], 0);
    FindAt(NotImplemented, 0);
    FindAt(NotImplemented, 1);
    FindAt(NotImplemented, 2);
  }

  /** Two calls of any actions, with any requests and ids, give equal replies. */
  lemma RespondConstant(op1: Operation, r1: Value, id1: Value, op2: Operation, r2: Value, id2: Value)
    ensures Respond(op1, r1, id1) == Respond(op2, r2, id2)
  {
  }
}

/** The legacy stand-in controller: the same constant document, but nine of its
    ten actions look the status up under a key the document does not have. */
module ApiJson501 {
  import opened PhpValues
  import opened PhpArrays
  import opened Collaborators
  import opened JsonApiTrait
  import JsonApi501

  /** The ten actions of the legacy interface. */
  datatype Operation =
    | Index | Details | Create | CreateById | CollectionReplace
    | ElementReplace | CollectionUpdate | ElementUpdate | CollectionDelete | ElementDelete

  /** `$response`, declared again with the same content. */
  const Response: seq<Entry> := [
    Entry(ErrorsKey, Arr([Entry(IntKey(0), Arr(JsonApi501.NotImplemented))])),
    Entry(MetaKey, Arr(JsonApi501.NotImplemented))]

  /** The status expression each action hands to `Response::json`: `jsonIndex`
      reads `errors[0]['status']`, the other nine read `errors['status']`. */
  function StatusAsWritten(op: Operation): Option<Value>
  {
    var errors := Lookup(Arr(Response), ErrorsKey);
    if op == Index then
      match errors
      case Some(e) => (match Lookup(e, IntKey(0)) case Some(first) => Lookup(first, StatusKey) case None => None)
      case None => None
    else
      match errors
      case Some(e) => Lookup(e, StatusKey)
      case None => None
  }

  /** The actions as written: a status that is not there is a fatal reply. */
  function RespondAsWritten(op: Operation, request: Value, id: Value): Reply
  {
    match StatusAsWritten(op)
    case Some(s) => Json(Response, s)
    case None => Fatal("Undefined array key \"status\"")
  }

  /** Only `jsonIndex` finds a status; every other action fails. */
  lemma AsWrittenOnlyIndexAnswers(op: Operation, request: Value, id: Value)
    ensures RespondAsWritten(op, request, id) ==
      if op == Index then Json(Response, Str("501")) else Fatal("Undefined array key \"status\"")
  {
    var errors := [Entry(IntKey(0), Arr(JsonApi501.NotImplemented))];
    FindAt(Response, 0);
    FindAt(errors, 0);
    FindKeys(errors, StatusKey);
    FindAt(JsonApi501.NotImplemented, 0);
  }

  /** Every action with the lookup `jsonIndex` uses. */
  function Respond(op: Operation, request: Value, id: Value): (r: Reply)
    ensures r == Json(Response, Str("501"))
  {
    JsonApi501.ResponseShape();
    Json(Response, Get3(Response, ErrorsKey, IntKey(0), StatusKey))
  }

  /** The legacy document is the JSON:API stand-in's document. */
  lemma SameResponse()
    ensures Response == JsonApi501.Response
  {
  }
}
