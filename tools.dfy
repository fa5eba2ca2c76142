/**
 * The tool executor: one POST to the tool server per invocation, with every
 * transport or decoding failure turned into an `{"error": ...}` object.
 */
module Tools {
  import opened Json

  /** A request for one tool: its route name and the JSON arguments posted to it. */
  datatype Invocation = Invocation(tool: string, args: Object)

  /**
   * What one POST to the tool server yields: the decoded JSON object of the
   * response body, or the message of the exception raised by the transport or
   * by the JSON decoder (an unknown route answers with a non-JSON 404 page).
   */
  datatype Response = Reply(body: Object) | Raises(message: string)

  /** The tool server, as a total function of the route name and the arguments. */
  type Server = (string, Object) -> Response

  /**
   * `call_tool`: never raises; a raised exception becomes `{"error": str(e)}`,
   * and a decoded body is passed on unmodified.
   */
  function CallTool(server: Server, tool: string, args: Object): (out: Object)
    ensures "error" in out <==> server(tool, args).Raises? || "error" in server(tool, args).body
    ensures server(tool, args).Reply? ==> out == server(tool, args).body
    ensures server(tool, args).Raises? ==> out == map["error" := Str(server(tool, args).message)]
  {
    match server(tool, args)
    case Reply(body) => body
    case Raises(message) => map["error" := Str(message)]
  }
}
