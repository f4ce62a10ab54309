/**
 * Normalising the outcome of an API call into one JSON value.
 *
 * A call either receives a response (a status code and a body) or fails with
 * an exception. The client hands the caller a single JSON value for every
 * outcome: the parsed body when the status is 200, and otherwise an error
 * object `{"error": <message>, "success": false}` whose message is
 * "HTTP Error: " followed by the status in decimal, or "Exception: "
 * followed by the exception's message. A body that fails to parse counts as
 * an exception.
 *
 * `Settle` and `Recover` are the two continuations of the call pipeline;
 * `Classify` and `Report` are an independent statement of the same rule by
 * kind of outcome, and `Recognise` is what a caller can read back.
 */
module Outcomes {
  import opened Wrappers
  import opened Decimal

  /** A JSON value. */
  datatype Json =
    | JNull
    | JBool(b: bool)
    | JNumber(n: int)
    | JString(s: string)
    | JArray(items: seq<Json>)
    | JObject(fields: seq<(string, Json)>)

  /** An HTTP status code, a 16-bit unsigned number. */
  type StatusCode = n: nat | n < 0x1_0000

  const StatusOk: StatusCode := 200

  /** What the transport hands back: a response, or the message of the exception it threw. */
  datatype Response = Received(status: StatusCode, body: string) | Threw(message: string)

  /** The body parser: a JSON value, or the message of the exception parsing threw. */
  type Parser = string -> Result<Json>

  const HttpErrorPrefix: string := "HTTP Error: "
  const ExceptionPrefix: string := "Exception: "

  /** The error object the client reports for a failed call; it reads back its message. */
  function ErrorObject(message: string): (j: Json)
    ensures ErrorText(j) == Some(message)
  {
    var fields := [("error", JString(message)), ("success", JBool(false))];
    assert Lookup(fields, "error") == Some(JString(message));
    assert "error" != "success" by { assert "error"[0] != "success"[0]; }
    assert fields[1..] == [("success", JBool(false))];
    assert Lookup(fields, "success") == Lookup(fields[1..], "success") == Some(JBool(false));
    JObject(fields)
  }

  /**
   * The message for a response whose status is not 200: the status, written
   * in decimal after the prefix, reads back as that status.
   */
  function HttpErrorMessage(status: StatusCode): (m: string)
    ensures ReadHttpStatus(m) == Some(status)
  {
    var m := HttpErrorPrefix + ToDecimal(status);
    assert m[..|HttpErrorPrefix|] == HttpErrorPrefix;
    assert m[|HttpErrorPrefix|..] == ToDecimal(status);
    ValueOfToDecimal(status);
    m
  }

  /**
   * The message for an exception: it never reads as an HTTP status, and
   * removing the prefix gives the exception's own message back.
   */
  function ExceptionMessage(what: string): (m: string)
    ensures ReadHttpStatus(m) == None
    ensures StartsWith(m, ExceptionPrefix) && m[|ExceptionPrefix|..] == what
  {
    var m := ExceptionPrefix + what;
    assert m[0] == 'E' && HttpErrorPrefix[0] == 'H';
    assert m[..|ExceptionPrefix|] == ExceptionPrefix;
    m
  }

  // ---------------------------------------------------------------------
  // The two continuations
  // ---------------------------------------------------------------------

  /**
   * The first continuation and what it leaves pending: the parsed body for
   * status 200 (or the parser's exception), the error object for any other
   * status, and the transport's exception when there is no response.
   */
  function Settle(parse: Parser, r: Response): (pending: Result<Json>)
    ensures r.Threw? ==> pending == Err(r.message)
    ensures r.Received? && r.status != StatusOk ==> pending.Ok?
  {
    match r
    case Threw(what) => Err(what)
    case Received(status, body) =>
      if status == StatusOk then parse(body)
      else Ok(ErrorObject(HttpErrorMessage(status)))
  }

  /** The second continuation: a pending exception becomes an error object. */
  function Recover(pending: Result<Json>): (j: Json)
    ensures pending.Err? ==> j == ErrorObject(ExceptionMessage(pending.message))
    ensures pending.Ok? ==> j == pending.value
  {
    match pending
    case Ok(v) => v
    case Err(what) => ErrorObject(ExceptionMessage(what))
  }

  /**
   * The JSON value the client hands its caller for an outcome: the parsed
   * body for status 200, the HTTP error object for any other status, and the
   * exception error object when the transport or the parser threw.
   */
  function Normalise(parse: Parser, r: Response): (j: Json)
    ensures r.Threw? ==> j == ErrorObject(ExceptionMessage(r.message))
    ensures r.Received? && r.status != StatusOk ==> j == ErrorObject(HttpErrorMessage(r.status))
    ensures r.Received? && r.status == StatusOk ==>
      match parse(r.body)
      case Ok(v) => j == v
      case Err(what) => j == ErrorObject(ExceptionMessage(what))
  {
    Recover(Settle(parse, r))
  }

  // ---------------------------------------------------------------------
  // The same rule, by kind of outcome
  // ---------------------------------------------------------------------

  /** The three kinds of outcome the client distinguishes. */
  datatype Outcome = Success(value: Json) | HttpError(status: StatusCode) | Exception(what: string)

  /** The kind of outcome a response (or a thrown exception) is. */
  function Classify(parse: Parser, r: Response): Outcome {
    match r
    case Threw(what) => Exception(what)
    case Received(status, body) =>
      if status != StatusOk then HttpError(status)
      else match parse(body)
        case Ok(v) => Success(v)
        case Err(what) => Exception(what)
  }

  /** How each kind of outcome is reported. */
  function Report(o: Outcome): Json {
    match o
    case Success(v) => v
    case HttpError(status) => ErrorObject(HttpErrorMessage(status))
    case Exception(what) => ErrorObject(ExceptionMessage(what))
  }

  /** The pipeline reports each outcome by its kind. */
  lemma NormaliseReportsClassification(parse: Parser, r: Response)
    ensures Normalise(parse, r) == Report(Classify(parse, r))
  {
  }

  /** Status 200 with a body that parses yields the parsed body unchanged. */
  lemma OkYieldsParsedBody(parse: Parser, body: string, v: Json)
    requires parse(body) == Ok(v)
    ensures Classify(parse, Received(StatusOk, body)) == Success(v)
    ensures Normalise(parse, Received(StatusOk, body)) == v
  {
  }

  /** Any other status yields the HTTP error object for that status, whatever the body. */
  lemma OtherStatusYieldsHttpError(parse: Parser, status: StatusCode, body: string)
    requires status != StatusOk
    ensures Classify(parse, Received(status, body)) == HttpError(status)
    ensures Normalise(parse, Received(status, body)) == ErrorObject("HTTP Error: " + ToDecimal(status))
  {
  }

  /** An exception, from the transport or from the parser, yields the exception error object. */
  lemma ExceptionYieldsExceptionError(parse: Parser, what: string, body: string)
    ensures Normalise(parse, Threw(what)) == ErrorObject("Exception: " + what)
    ensures parse(body) == Err(what) ==>
      Normalise(parse, Received(StatusOk, body)) == ErrorObject("Exception: " + what)
  {
  }

  // ---------------------------------------------------------------------
  // Reading an outcome back
  // ---------------------------------------------------------------------

  /** The value of the first field named `key`, if any. */
  function Lookup(fields: seq<(string, Json)>, key: string): (v: Option<Json>)
    ensures v.Some? <==> exists i :: 0 <= i < |fields| && fields[i].0 == key
  {
    if fields == [] then None
    else if fields[0].0 == key then Some(fields[0].1)
    else Lookup(fields[1..], key)
  }

  /** The message of an error object: a string "error" field and a false "success" field. */
  function ErrorText(j: Json): Option<string> {
    if !j.JObject? then None
    else match (Lookup(j.fields, "error"), Lookup(j.fields, "success"))
      case (Some(JString(m)), Some(JBool(false))) => Some(m)
      case _ => None
  }

  /** Whether a string starts with a given prefix. */
  predicate StartsWith(s: string, prefix: string) {
    |prefix| <= |s| && s[..|prefix|] == prefix
  }

  /** The status an HTTP error message carries, if it is one. */
  function ReadHttpStatus(message: string): (status: Option<StatusCode>)
    ensures status.Some? ==> StartsWith(message, HttpErrorPrefix)
  {
    if !StartsWith(message, HttpErrorPrefix) then None
    else
      var digits := message[|HttpErrorPrefix|..];
      if Canonical(digits) && Value(digits) < 0x1_0000 then Some(Value(digits) as StatusCode)
      else None
  }

  /** The kind of outcome a caller can tell from the value it receives. */
  function Recognise(j: Json): Outcome {
    match ErrorText(j)
    case None => Success(j)
    case Some(m) =>
      match ReadHttpStatus(m)
      case Some(status) => HttpError(status)
      case None =>
        if StartsWith(m, ExceptionPrefix) then Exception(m[|ExceptionPrefix|..]) else Success(j)
  }

  /** Every message that reads as a status is exactly that status's HTTP error message. */
  lemma {:induction false} ReadHttpStatusExact(message: string, status: StatusCode)
    requires ReadHttpStatus(message) == Some(status)
    ensures message == HttpErrorMessage(status)
  {
    var digits := message[|HttpErrorPrefix|..];
    ToDecimalOfValue(digits);
    assert message == message[..|HttpErrorPrefix|] + digits;
  }

  /** The two kinds of error message never coincide: their prefixes differ. */
  lemma ErrorMessagesDisjoint(status: StatusCode, what: string)
    ensures HttpErrorMessage(status) != ExceptionMessage(what)
    ensures !StartsWith(ExceptionMessage(what), HttpErrorPrefix)
  {
    assert HttpErrorMessage(status)[0] == 'H';
    assert ExceptionMessage(what)[0] == 'E';
  }

  /** A value that is not shaped like an error object. */
  predicate Plain(j: Json) {
    ErrorText(j).None?
  }

  /**
   * Every error outcome, and every success whose value is not shaped like an
   * error object, can be told back from the value the caller receives.
   */
  lemma RecogniseReport(o: Outcome)
    requires o.Success? ==> Plain(o.value)
    ensures Recognise(Report(o)) == o
  {
    match o
    case Success(v) =>
    case HttpError(status) =>
    case Exception(what) =>
  }

  /**
   * The reverse is not guaranteed: a status-200 body may itself be an error
   * object, and then the caller receives a value identical to an HTTP error
   * report although the call succeeded.
   */
  lemma SuccessMayLookLikeError(parse: Parser, body: string, status: StatusCode)
    requires parse(body) == Ok(ErrorObject(HttpErrorMessage(status)))
    ensures Classify(parse, Received(StatusOk, body)).Success?
    ensures Normalise(parse, Received(StatusOk, body)) == Report(HttpError(status))
  {
  }
}
