/** The HTTP exchanges the bot makes, seen from the outside: a request either fails at the
    transport level (httpx raises) or comes back with a status code, a text body and
    whatever the caller later reads out of the JSON body. */
module Http {

  datatype Response<+J> =
    | NetworkError
    | Replied(status: int, text: string, json: J)

  /** httpx's `is_success`; `raise_for_status()` raises exactly when this is false. */
  predicate IsSuccess(status: int) {
    200 <= status < 300
  }

  const NotFound := 404

  /** One multipart/form-data file field, `{field: (filename, bytes)}` in httpx's terms. */
  datatype FilePart = FilePart(field: string, filename: string, data: seq<bv8>)
}
