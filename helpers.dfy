/**
  The server's document helpers: turning a stored document into the shape
  the client expects (`id` instead of `_id`, no `__v`) and building the
  body of an error response.
 */
module Helpers {
  import opened JsValues

  /**
    formatMongoDocument: a copy of `doc` whose `id` is the string form of
    `_id` (replacing any `id` already there), without `_id` and `__v`;
    null stays null. `_id.toString()` throws when `_id` is null or absent.
    The argument is a value, so the caller's document is never changed.
   */
  function FormatDocument(doc: Option<Doc>): (r: Outcome<Option<Doc>>)
    ensures doc.None? ==> r == Return(None)
    ensures doc.Some? ==> (r.Throw? <==> ("_id" !in doc.value || doc.value["_id"] == Null))
    ensures r.Return? && doc.Some? ==>
      && r.value.Some?
      && r.value.value.Keys == doc.value.Keys - {"_id", "__v"} + {"id"}
      && r.value.value["id"] == Str(Stringify(doc.value["_id"]).value)
      && forall k :: k in doc.value && k !in {"_id", "__v", "id"} ==> r.value.value[k] == doc.value[k]
  {
    match doc
    case None => Return(None)
    case Some(d) =>
      if "_id" !in d then Throw("TypeError: Cannot read properties of undefined (reading 'toString')")
      else
        match Stringify(d["_id"])
        case Throw(e) => Throw(e)
        case Return(id) => Return(Some(d["id" := Str(id)] - {"_id", "__v"}))
  }

  /**
    formatMongoDocuments: null becomes the empty list; otherwise every
    document is formatted in order, and the first one that throws makes
    the whole call throw.
   */
  function FormatDocuments(docs: Option<seq<Doc>>): (r: Outcome<seq<Doc>>)
    ensures docs.None? ==> r == Return([])
    ensures docs.Some? && r.Return? ==>
      && |r.value| == |docs.value|
      && forall i :: 0 <= i < |docs.value| ==> FormatDocument(Some(docs.value[i])) == Return(Some(r.value[i]))
    ensures docs.Some? ==>
      (r.Throw? <==> exists i :: 0 <= i < |docs.value| && FormatDocument(Some(docs.value[i])).Throw?)
    decreases if docs.Some? then |docs.value| else 0
  {
    match docs
    case None => Return([])
    case Some(s) =>
      if s == [] then Return([])
      else
        match FormatDocument(Some(s[0]))
        case Throw(e) => Throw(e)
        case Return(first) =>
          match FormatDocuments(Some(s[1..]))
          case Throw(e) =>
            assert forall i :: 0 < i < |s| ==> s[i] == s[1..][i - 1];
            Throw(e)
          case Return(rest) =>
            assert forall i :: 0 < i < |s| ==> s[i] == s[1..][i - 1];
            Return([first.value] + rest)
  }

  /** What a handler caught: the `message` property of the thrown value. */
  datatype Thrown = Thrown(message: Option<string>)

  /**
    errorResponse: `success` is false, `message` is the given text
    (default 'Server error'), and `error` carries the thrown message only
    when NODE_ENV is 'development'; an undefined `error` is absent from
    the object.
   */
  function ErrorResponse(error: Thrown, errorMessage: Option<string>, nodeEnv: Option<string>): (r: Doc)
    ensures "success" in r && r["success"] == Bool(false)
    ensures "message" in r && r["message"] == Str(if errorMessage.Some? then errorMessage.value else "Server error")
    ensures "error" in r <==> nodeEnv == Some("development") && error.message.Some?
    ensures "error" in r ==> r["error"] == Str(error.message.value)
    ensures r.Keys <= {"success", "message", "error"}
  {
    var base := map["success" := Bool(false), "message" := Str(errorMessage.GetOr("Server error"))];
    if nodeEnv == Some("development") && error.message.Some? then base["error" := Str(error.message.value)]
    else base
  }

  /** The documents `obj(x)` for each `x` of `s`, in order. */
  function MapDocs<T>(s: seq<T>, obj: T -> Doc): (r: seq<Doc>)
    ensures |r| == |s| && forall i :: 0 <= i < |s| ==> r[i] == obj(s[i])
  {
    seq(|s|, i requires 0 <= i < |s| => obj(s[i]))
  }

  /**
    When every stored document formats to its client view, formatting a
    whole query result never throws and yields the views in the same order.
   */
  lemma FormatDocumentsOfMapped<T>(s: seq<T>, obj: T -> Doc, view: T -> Doc)
    requires forall x :: FormatDocument(Some(obj(x))) == Return(Some(view(x)))
    ensures FormatDocuments(Some(MapDocs(s, obj))) == Return(MapDocs(s, view))
  {
    var r := FormatDocuments(Some(MapDocs(s, obj)));
    assert forall i :: 0 <= i < |s| ==> FormatDocument(Some(MapDocs(s, obj)[i])).Return?;
    assert r.Return? && |r.value| == |s|;
    assert forall i :: 0 <= i < |s| ==> r.value[i] == view(s[i]);
    assert r.value == MapDocs(s, view);
  }
}
