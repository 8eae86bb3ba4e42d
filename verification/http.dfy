/** Response values and the response helpers of `src/utils.rs`.

    A response is modelled by its status code and its `Location` header;
    flash messages are not part of the response but are queued by the
    handler, in order, and are carried next to it in a `Reply`. */
module Http {
  import opened Wrappers

  type StatusCode = s: int | 100 <= s < 600 witness 200

  const OK: StatusCode := 200
  const SEE_OTHER: StatusCode := 303
  const BAD_REQUEST: StatusCode := 400
  const UNAUTHORIZED: StatusCode := 401
  const INTERNAL_SERVER_ERROR: StatusCode := 500

  predicate IsRedirection(s: StatusCode) { 300 <= s < 400 }
  predicate IsClientError(s: StatusCode) { 400 <= s < 500 }
  predicate IsServerError(s: StatusCode) { 500 <= s < 600 }

  datatype Response = Response(status: StatusCode, location: Option<string>)

  /** A flash message queued for the next page the browser renders, with
      its level. */
  datatype Flash = InfoFlash(text: string) | SuccessFlash(text: string) | ErrorFlash(text: string)

  /** What a handler hands back: the response and the flash messages it queued. */
  datatype Reply = Reply(response: Response, flashes: seq<Flash>)

  /** The error flash `see_other` queues on every redirect it builds. */
  const MustLogIn: Flash := ErrorFlash("You must be logged in")

  /** A 303 whose `Location` is exactly `location` (what the tests call
      "a redirect to" a path). */
  predicate IsRedirectTo(r: Response, location: string) {
    r.status == SEE_OTHER && r.location == Some(location)
  }

  /** A body-less response with a status and no headers. */
  function Finish(status: StatusCode): (r: Response)
    ensures r.status == status && r.location.None?
  {
    Response(status, None)
  }

  /** `see_other`: a redirect to `location` that also queues the
      "You must be logged in" error flash, whatever the redirect is for. */
  function SeeOther(location: string): (r: Reply)
    ensures IsRedirectTo(r.response, location)
    ensures IsRedirection(r.response.status)
    ensures r.flashes == [MustLogIn]
  {
    Reply(Response(SEE_OTHER, Some(location)), [MustLogIn])
  }

  /** `e400`: an opaque client error, no redirect. */
  function E400(): (r: Response)
    ensures IsClientError(r.status) && r.status == BAD_REQUEST
    ensures r.location.None?
  {
    Finish(BAD_REQUEST)
  }

  /** `e500`: an opaque server error, no redirect. */
  function E500(): (r: Response)
    ensures IsServerError(r.status) && r.status == INTERNAL_SERVER_ERROR
    ensures r.location.None?
  {
    Finish(INTERNAL_SERVER_ERROR)
  }
}
