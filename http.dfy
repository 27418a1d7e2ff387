/** The response an Express handler sends: a status and a JSON body. */
module Http {
  import opened JsValues

  /** `res.json(...)`: a list of objects or one object. */
  datatype Body = List(items: seq<Doc>) | Object(fields: Doc)

  /** `res.status(status).json(body)`; `res.json(body)` alone is status 200. */
  datatype Response = Response(status: int, body: Body)

  /** The `{ message: text }` body the routes answer client errors with. */
  function MessageBody(text: string): Doc {
    map["message" := Str(text)]
  }
}
