/**
 The JSON values the HTTP handlers send back, the response envelope
 (status code plus either a plain-text or a JSON body), and the owner alert
 some handlers send on the side.
 */
module Json {

  datatype Json =
    | JStr(s: string)
    | JInt(n: int)
    | JBool(b: bool)
    | JNull
    | JObj(fields: map<string, Json>)
    | JArr(elems: seq<Json>)

  datatype Body = Text(text: string) | JsonBody(value: Json)

  datatype Response = Response(status: nat, body: Body)

  /** `res.status(code).json({ error: message })` */
  function ErrorResponse(status: nat, message: string): (r: Response)
    ensures r.status == status
    ensures r.body.JsonBody? && r.body.value.JObj? && r.body.value.fields.Keys == {"error"}
    ensures r.body.value.fields["error"] == JStr(message)
  {
    Response(status, JsonBody(JObj(map["error" := JStr(message)])))
  }

  /** An alert sent to the shop owner (`notifyOwner`): a title and a body. */
  datatype Notice = Notice(title: string, content: string)

  /** The JSON object `{ success: true }`. */
  const SuccessObject: map<string, Json> := map["success" := JBool(true)]
}
