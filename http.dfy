/**
 * The boundary to net/http and encoding/json. The network and the JSON codec
 * are not modelled: a Transport maps the request it is given to what came
 * back, and a Codec says what marshalling or unmarshalling a value yields.
 */
module Http {
  import opened Wrappers
  import opened UrlValues
  import opened AccountModel

  newtype byte = x: int | 0 <= x < 256

  /** scheme://host/path?query, with the query kept as the map it is encoded from. */
  datatype Url = Url(scheme: string, host: string, path: string, query: Values)

  datatype Request = Request(verb: string, url: Url, header: Values, body: seq<byte>)

  /** A response body: read to the end, or a read that failed part way. */
  datatype Stream = Complete(bytes: seq<byte>) | Broken(reason: string)

  /** statusCode is the numeric code, status the status line ("404 Not Found"). */
  datatype Response = Response(statusCode: int, status: string, body: Stream)

  /** What http.Client.Do produced: a network-level failure or a response. */
  datatype Exchange = Failed(reason: string) | Received(response: Response)

  type Transport = Request -> Exchange

  /** json.Marshal and json.Unmarshal for the three shapes the accounts service uses. */
  datatype Codec = Codec(
    marshal: CreatePayload -> Result<seq<byte>, string>,
    unmarshalAccount: seq<byte> -> Result<AccountEnvelope, string>,
    unmarshalAccounts: seq<byte> -> Result<AccountListEnvelope, string>)
}
