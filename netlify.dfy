/** The serverless handler (netlify/functions/submit-form.js): a method gate, a
    JSON body, a presence check on `email` and `type`, the email regex on the
    raw (untrimmed) address, the script URL from the environment, and a
    form-encoded relay of three fields. The parsed body, the environment
    variable, the clock and the outcome of `fetch` are parameters. */
module Netlify {
  import opened Common
  import opened Patterns
  import opened Chain

  /** The request body after `JSON.parse`: the two fields the handler reads,
      or a body that does not parse (or parses to `null`), which throws. */
  datatype Request = Parsed(email: Option<string>, formType: Option<string>) | Unparseable

  /** The JSON body of a response: `{error}` for the method gate, otherwise
      `{success, message}`. */
  datatype Payload = ErrorPayload(error: string) | MessagePayload(success: bool, message: string)

  /** `cors` is true when the response carries the JSON content type and the
      `Access-Control-Allow-*` headers; only the success and the caught-error
      responses do. */
  datatype Response = Response(statusCode: nat, cors: bool, payload: Payload)

  /** The response, and the form fields posted upstream if a request was made. */
  datatype Exchange = Exchange(response: Response, sent: Option<seq<(string, string)>>)

  const MethodNotAllowed := "Method not allowed"
  const Required := "Email and type are required"
  const InvalidEmailFormat := "Invalid email format"
  const ConfigurationError := "Server configuration error"
  const InternalError := "Internal server error"
  const Submitted := "Form submitted successfully"

  /** The text a response carries, whichever of the two payload shapes it has. */
  function Says(p: Payload): string {
    match p
    case ErrorPayload(error) => error
    case MessagePayload(_, message) => message
  }

  /** The `URLSearchParams` posted upstream: exactly these three fields, in this order. */
  function FormBody(email: string, formType: string, timestamp: string): (fields: seq<(string, string)>)
    ensures |fields| == 3
    ensures forall i, j | 0 <= i < j < |fields| :: fields[i].0 != fields[j].0
  {
    [("email", email), ("type", formType), ("timestamp", timestamp)]
  }

  /** `URLSearchParams.get`: the value of the first pair with the key, if any. */
  function Get(fields: seq<(string, string)>, key: string): (v: Option<string>)
    ensures v.Some? <==> exists i | 0 <= i < |fields| :: fields[i].0 == key
    ensures v.Some? ==> exists i | 0 <= i < |fields| ::
      fields[i] == (key, v.value) && forall j | 0 <= j < i :: fields[j].0 != key
  {
    if fields == [] then None
    else if fields[0].0 == key then Some(fields[0].1)
    else
      var rest := Get(fields[1..], key);
      assert forall i | 0 < i < |fields| :: fields[i] == fields[1..][i - 1];
      rest
  }

  /** The upstream script reads back exactly the three values the handler
      put in the body, and nothing under any other key. */
  lemma FormBodyReadsBack(email: string, formType: string, timestamp: string, key: string)
    ensures var fields := FormBody(email, formType, timestamp);
      && Get(fields, "email") == Some(email)
      && Get(fields, "type") == Some(formType)
      && Get(fields, "timestamp") == Some(timestamp)
      && (key !in {"email", "type", "timestamp"} ==> Get(fields, key).None?)
  {
    var fields := FormBody(email, formType, timestamp);
    var last := fields[1..][1..];
    assert last == [("timestamp", timestamp)];
    assert Get(last, "timestamp") == Some(timestamp);
    assert Get(fields[1..], "timestamp") == Get(last, "timestamp");
  }

  function Refuse(statusCode: nat, message: string): Exchange {
    Exchange(Response(statusCode, false, MessagePayload(false, message)), None)
  }

  /** The handler. Only the success response and the caught-error 500 carry
      CORS headers; the 405, both 400s and the configuration 500 do not. */
  function Handler(httpMethod: string, request: Request, scriptUrl: Option<string>,
                   timestamp: string, upstream: Outcome): (x: Exchange)
    ensures httpMethod != "POST" ==>
      x == Exchange(Response(405, false, ErrorPayload(MethodNotAllowed)), None)
    ensures x.response.statusCode in {200, 400, 405, 500}
    ensures x.response.cors <==> Says(x.response.payload) in {Submitted, InternalError}
    ensures x.response.payload.MessagePayload? ==>
      (x.response.payload.success <==> x.response.statusCode == 200)
    ensures x.response.statusCode == 400 <==>
      && httpMethod == "POST" && request.Parsed?
      && (Falsy(request.email) || Falsy(request.formType) || !EmailShape(request.email.value))
    ensures x.sent.Some? ==>
      && request.Parsed? && !Falsy(request.email) && !Falsy(request.formType)
      && EmailShape(request.email.value) && !Falsy(scriptUrl)
      && x.sent.value == FormBody(request.email.value, request.formType.value, timestamp)
    ensures x.response.statusCode == 200 <==> x.sent.Some? && upstream.Ok?
  {
    if httpMethod != "POST" then
      Exchange(Response(405, false, ErrorPayload(MethodNotAllowed)), None)
    else if request.Unparseable? then
      Exchange(Response(500, true, MessagePayload(false, InternalError)), None)
    else if Falsy(request.email) || Falsy(request.formType) then
      Refuse(400, Required)
    else if !EmailShape(request.email.value) then
      Refuse(400, InvalidEmailFormat)
    else if Falsy(scriptUrl) then
      Refuse(500, ConfigurationError)
    else
      var fields := FormBody(request.email.value, request.formType.value, timestamp);
      if upstream.Ok? then Exchange(Response(200, true, MessagePayload(true, Submitted)), Some(fields))
      // a non-2xx reply is thrown and caught; so is a transport error
      else Exchange(Response(500, true, MessagePayload(false, InternalError)), Some(fields))
  }

  /** The handler's steps in order, each with the status it answers when it fails. */
  function Steps(httpMethod: string, request: Request, scriptUrl: Option<string>, upstream: Outcome): seq<Check> {
    var present := request.Parsed? && !Falsy(request.email) && !Falsy(request.formType);
    [ Check(httpMethod == "POST", 405, MethodNotAllowed),
      Check(request.Parsed?, 500, InternalError),
      Check(present, 400, Required),
      Check(present && EmailShape(request.email.value), 400, InvalidEmailFormat),
      Check(!Falsy(scriptUrl), 500, ConfigurationError),
      Check(upstream.Ok?, 500, InternalError) ]
  }

  /** The first step that fails decides the status and the text of the
      response; when none fails the answer is 200. */
  lemma HandlerIsFailFast(httpMethod: string, request: Request, scriptUrl: Option<string>,
                          timestamp: string, upstream: Outcome)
    ensures var r := Handler(httpMethod, request, scriptUrl, timestamp, upstream).response;
      var steps := Steps(httpMethod, request, scriptUrl, upstream);
      match FirstFailure(steps)
      case None => r.statusCode == 200 && Says(r.payload) == Submitted
      case Some(k) => r.statusCode == steps[k].status && Says(r.payload) == steps[k].message
  {
    var steps := Steps(httpMethod, request, scriptUrl, upstream);
    var f := FirstFailure(steps);
    if httpMethod != "POST" {
      assert !steps[0].passes;
      assert f == Some(0);
    } else if request.Unparseable? {
      assert steps[0].passes && !steps[1].passes;
      assert f == Some(1);
    } else if Falsy(request.email) || Falsy(request.formType) {
      assert steps[0].passes && steps[1].passes && !steps[2].passes;
      assert f == Some(2);
    } else if !EmailShape(request.email.value) {
      assert steps[0].passes && steps[1].passes && steps[2].passes && !steps[3].passes;
      assert f == Some(3);
    } else if Falsy(scriptUrl) {
      assert steps[0].passes && steps[1].passes && steps[2].passes && steps[3].passes && !steps[4].passes;
      assert f == Some(4);
    } else if !upstream.Ok? {
      assert steps[0].passes && steps[1].passes && steps[2].passes && steps[3].passes && steps[4].passes;
      assert !steps[5].passes;
      assert f == Some(5);
    } else {
      assert steps[0].passes && steps[1].passes && steps[2].passes;
      assert steps[3].passes && steps[4].passes && steps[5].passes;
    }
  }

  /** `type` is only required to be present: any non-empty value is relayed. */
  lemma AnyTypeIsRelayed(email: string, formType: string, scriptUrl: string, timestamp: string)
    requires EmailShape(email) && formType != [] && scriptUrl != []
    ensures var x := Handler("POST", Parsed(Some(email), Some(formType)), Some(scriptUrl), timestamp, Ok);
      x.response.statusCode == 200 && x.sent == Some([("email", email), ("type", formType), ("timestamp", timestamp)])
  {
  }

  /** A failed upstream call answers the same whatever went wrong: the status
      and the reply text of the upstream script are not passed on. */
  lemma UpstreamFailureIsOpaque(request: Request, scriptUrl: Option<string>, timestamp: string,
                                first: Outcome, second: Outcome)
    requires !first.Ok? && !second.Ok?
    ensures Handler("POST", request, scriptUrl, timestamp, first) == Handler("POST", request, scriptUrl, timestamp, second)
  {
  }
}
