/** The response record of the HTTP framework the handlers plug into. */
module Http {

  /** A body byte. */
  newtype byte = x: int | 0 <= x < 256

  /**
   * A response: a status code with its reason phrase, headers mapping a name to
   * the ordered list of its values (a header may repeat), and the body bytes.
   */
  datatype Response = Response(
    status: (int, string),
    headers: map<string, seq<string>>,
    body: seq<byte>)

  /** Every header present carries at least one value. */
  predicate WellFormed(r: Response)
  {
    forall name :: name in r.headers ==> |r.headers[name]| > 0
  }
}
