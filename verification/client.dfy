/**
 * The call pipeline of the Carbon Intensity client.
 *
 * Every public operation sends a GET request for its catalogue path to the
 * API's base URL and normalises whatever comes back into one JSON value. The
 * network exchange is outside this model: `transport` stands for it, given
 * the base URL and the finished request and answering with a response or
 * the message of the exception it threw.
 */
module Client {
  import opened Wrappers
  import opened Endpoints
  import opened Requests
  import opened Outcomes

  /** The base URL every request is sent to. */
  const ApiBase: string := "https://api.carbonintensity.org.uk"

  /** The network exchange: base URL and request in, response (or exception) out. */
  type Transport = (string, Request) -> Response

  /**
   * One API call: build the request for `endpoint` and the method called
   * `name`, send it, and normalise the outcome.
   */
  method MakeApiCall(endpoint: string, name: string, parse: Parser, transport: Transport)
    returns (result: Json)
    ensures result == Normalise(parse, transport(ApiBase, RequestFor(endpoint, name)))
  {
    var request := CreateRequest(endpoint, name);
    var response := transport(ApiBase, request.Snapshot());
    var pending := Settle(parse, response);
    result := Recover(pending);
  }

  /** A public operation of the client: a GET call for the operation's path. */
  method Invoke(enc: Encoder, call: Call, parse: Parser, transport: Transport)
    returns (result: Json)
    ensures result == Normalise(parse, transport(ApiBase, RequestFor(Path(enc, call), "GET")))
  {
    result := MakeApiCall(Path(enc, call), "GET", parse, transport);
  }

  /** Every operation sends a GET for its own path with the fixed headers. */
  lemma OperationsSendGet(enc: Encoder, call: Call)
    ensures RequestFor(Path(enc, call), "GET") == Request(Some(Get), Path(enc, call), FixedHeaders)
  {
  }
}
