/** The content negotiation shared by the GET handlers of the REST resources:
    the CoAP Accept option selects text/plain or application/json, anything
    else is answered with 4.06 Not Acceptable. The content-format numbers are
    those of section 12.3 of RFC 7252. Every reply carries Max-Age 60. */
module ContentFormat {
  import opened CInt

  /** `unsigned int accept = -1`: the value left when no Accept option came
      with the request (-1 converted to a 16-bit `unsigned int`). */
  const ACCEPT_UNSET: UInt16 := 0xFFFF
  const TEXT_PLAIN: UInt16 := 0
  const APPLICATION_JSON: UInt16 := 50
  /** `MAX_AGE` of the handlers, in seconds. */
  const MAX_AGE: nat := 60

  /** The outcome of a GET: a representation of `value` in a content format,
      or Not Acceptable. */
  datatype Reply<T> =
    | Represented(contentType: UInt16, value: T)
    | NotAcceptable

  datatype Response<T> = Response(reply: Reply<T>, maxAge: nat)

  /** `if (accept == -1 || accept == TEXT_PLAIN) ... else if (accept ==
      APPLICATION_JSON) ... else NOT_ACCEPTABLE`, then the Max-Age header;
      `text` and `json` are what the two branches print. Text is served
      exactly for no Accept option or text/plain, JSON exactly for
      application/json, and every other Accept value is refused. */
  function Negotiate<T>(accept: UInt16, text: T, json: T): (r: Response<T>)
    ensures r.reply == Represented(TEXT_PLAIN, text) <==>
      accept == ACCEPT_UNSET || accept == TEXT_PLAIN
    ensures r.reply.Represented? && r.reply.contentType == APPLICATION_JSON <==>
      accept == APPLICATION_JSON
    ensures r.reply.Represented? && r.reply.contentType == APPLICATION_JSON ==> r.reply.value == json
    ensures r.reply.NotAcceptable? <==> accept !in {ACCEPT_UNSET, TEXT_PLAIN, APPLICATION_JSON}
    ensures r.reply.Represented? ==> r.reply.contentType in {TEXT_PLAIN, APPLICATION_JSON}
    ensures r.maxAge == MAX_AGE
  {
    var reply :=
      if accept == ACCEPT_UNSET || accept == TEXT_PLAIN then Represented(TEXT_PLAIN, text)
      else if accept == APPLICATION_JSON then Represented(APPLICATION_JSON, json)
      else NotAcceptable;
    Response(reply, MAX_AGE)
  }
}
