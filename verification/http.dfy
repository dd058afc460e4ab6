/**
 * What a `requests.get` call is asked for and what comes back, as plain data:
 * the transport itself is not modelled.
 */
module Http {

  import opened Json

  /** A GET request: URL, query parameters in the order they are written, timeout in seconds. */
  datatype Request = Request(url: string, params: seq<(string, Value)>, timeout: nat)

  /** What `response.json()` gives: the decoded value, or the decoder's error text. */
  datatype Body = Decoded(value: Value) | Undecodable(detail: string)

  /** The outcome of one call: `requests.exceptions.Timeout`, any other exception
      raised by `requests.get`, or a response with its status code, text and body. */
  datatype Outcome =
    | Timeout(detail: string)
    | Failed(detail: string)
    | Response(status: int, text: string, body: Body)

  /** `response.raise_for_status()` raises for client (4xx) and server (5xx) errors only. */
  function RaisesForStatus(status: int): (raises: bool)
    ensures raises <==> (400 <= status < 500 || 500 <= status < 600)
    ensures status == 200 ==> !raises
  {
    400 <= status < 600
  }
}
