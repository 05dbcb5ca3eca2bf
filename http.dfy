/**
 * Responses of the request handlers, and a handler's result together with the
 * backend state it leaves behind.
 */
module Http {
  import opened Store

  /** What a response body says: `{ error }`, `{ ok: true, id }`, `{ ok: true }` or a plain-text body. */
  datatype Body = ErrorMessage(message: string) | OkWithId(id: string) | OkOnly | PlainText(text: string)

  datatype Response = Response(status: nat, body: Body)

  /** A handler's response and the backend state after it. */
  datatype Handled = Handled(response: Response, world: World)

  const MethodNotAllowed := Response(405, PlainText("Method not allowed"))
  const InvalidJson := Response(400, ErrorMessage("Invalid JSON payload"))
}
