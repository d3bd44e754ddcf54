/**
 * What the web framework contributes to the model: status codes, the
 * responses the handlers write, and the per-request context in which the
 * authentication middleware records the caller's identity.
 */
module Http {
  import opened Wrappers
  import opened Codec

  const StatusOK: int := 200
  const StatusNoContent: int := 204
  const StatusBadRequest: int := 400
  const StatusUnauthorized: int := 401
  const StatusInternalServerError: int := 500
  const StatusServiceUnavailable: int := 503

  datatype Response =
    | NoContent(code: int)                          // c.NoContent(code)
    | FlashList(code: int, flashes: seq<Flash>)     // c.JSON(code, flashes)
    | ErrorJson(code: int, error: string)           // c.JSON(code, {"error": ...})
    | StatusJson(code: int, status: string)         // c.JSON(code, {"status": ...})
    | Aborted                                       // the handler panicked: no response is written

  /** The per-request context bag, reduced to the one entry the handlers read. */
  class Context {
    var currentUser: Option<string>

    constructor ()
      ensures currentUser == None
    {
      currentUser := None;
    }
  }
}
