/**
 * The `POST /webhook` route of the form relay: a Notion verification challenge is answered
 * at once; otherwise the body's `name`, `email` and `message` are checked for truthiness, a
 * valid submission is written once to the Notion database (the record sink), and the request
 * is answered with 200, 400 or 500.
 *
 * The route body is modelled twice: `Handle` is the pure decision (which response, which
 * sink call), and `HandleWebhook` is the step-by-step handler over a response writer and a
 * sink object, proved to do exactly what `Handle` decides.
 */
module Webhook {
  import opened Wrappers
  import opened Js

  /** Header names as the HTTP server presents them: lower-cased. */
  const ChallengeHeader: string := "x-notion-webhook-challenge"

  const MissingFieldsText: string := "Missing required fields: name, email, message"
  const SubmittedText: string := "Form data successfully submitted to Notion."
  const FailedText: string := "Failed to submit form data to Notion."

  /**
   * What the JSON body parser leaves in `req.body`: the parsed object, or (strict JSON
   * allows it) a top-level array. A request that is not JSON leaves the parser's default `{}`.
   */
  datatype Body = ObjectBody(props: map<string, JsValue>) | ArrayBody(items: seq<JsValue>)

  datatype Request = Request(headers: map<string, string>, body: Body)

  /** The three fields destructured from the body. */
  datatype Submission = Submission(name: JsValue, email: JsValue, message: JsValue)

  /** One row written to the database; `submittedAt` is the server clock, an opaque ISO-8601 string. */
  datatype PageRecord = PageRecord(name: JsValue, email: JsValue, message: JsValue, submittedAt: string)

  /** What was sent back: status, headers set on the response, body text (empty for `send()`). */
  datatype Response = Response(status: int, headers: map<string, string>, body: string)

  /** The decision for one request: the response and the sink call made, if any. */
  datatype Reply = Reply(response: Response, sinkCall: Option<PageRecord>)

  /** Property access `body[key]`: a missing key, or any key of an array, reads as `undefined`. */
  function Field(body: Body, key: string): JsValue
  {
    match body
    case ObjectBody(props) => if key in props then props[key] else Undefined
    case ArrayBody(_) => Undefined
  }

  /** `const { name, email, message } = req.body` */
  function Extract(body: Body): Submission
  {
    Submission(Field(body, "name"), Field(body, "email"), Field(body, "message"))
  }

  /** The challenge value, when the header is there and truthy (an empty value is falsy). */
  function Challenge(req: Request): (c: Option<string>)
    ensures c.Some? <==> ChallengeHeader in req.headers && req.headers[ChallengeHeader] != ""
    ensures c.Some? ==> c.value == req.headers[ChallengeHeader]
  {
    if ChallengeHeader in req.headers && Truthy(Str(req.headers[ChallengeHeader]))
    then Some(req.headers[ChallengeHeader])
    else None
  }

  /** The validation gate: each field truthy. No trimming and no format check. */
  predicate Complete(s: Submission)
  {
    Truthy(s.name) && Truthy(s.email) && Truthy(s.message)
  }

  /**
   * The route's decision, given whether the sink call (when one is made) succeeds and the
   * clock reading used for the submission date.
   */
  function Handle(req: Request, sinkSucceeds: bool, now: string): (r: Reply)
    // a truthy challenge header: 200, the header echoed, no sink call, the body never read
    ensures Challenge(req).Some? ==>
      r == Reply(Response(200, map[ChallengeHeader := req.headers[ChallengeHeader]], ""), None)
    // no challenge and a falsy field: 400 with the fixed text, no sink call
    ensures Challenge(req).None? && !Complete(Extract(req.body)) ==>
      r == Reply(Response(400, map[], MissingFieldsText), None)
    // no challenge and all fields truthy: one sink call carrying the fields unchanged,
    // then 200 on success and 500 on failure
    ensures Challenge(req).None? && Complete(Extract(req.body)) ==>
      r.sinkCall == Some(PageRecord(Field(req.body, "name"), Field(req.body, "email"),
                                    Field(req.body, "message"), now)) &&
      r.response.status == (if sinkSucceeds then 200 else 500) &&
      r.response.body == (if sinkSucceeds then SubmittedText else FailedText)
    // the sink is called exactly for a valid submission without a challenge
    ensures r.sinkCall.Some? <==> Challenge(req).None? && Complete(Extract(req.body))
    ensures r.response.status in {200, 400, 500}
  {
    match Challenge(req)
    case Some(token) =>
      Reply(Response(200, map[ChallengeHeader := token], ""), None)
    case None =>
      var s := Extract(req.body);
      if !Truthy(s.name) || !Truthy(s.email) || !Truthy(s.message) then
        Reply(Response(400, map[], MissingFieldsText), None)
      else
        var record := PageRecord(s.name, s.email, s.message, now);
        if sinkSucceeds then Reply(Response(200, map[], SubmittedText), Some(record))
        else Reply(Response(500, map[], FailedText), Some(record))
  }

  /** With a challenge, neither the body nor the sink's behaviour changes the reply. */
  lemma ChallengeIgnoresBody(req: Request, body: Body, ok1: bool, ok2: bool, now1: string, now2: string)
    requires Challenge(req).Some?
    ensures Handle(req, ok1, now1) == Handle(req.(body := body), ok2, now2)
    ensures Handle(req, ok1, now1).sinkCall.None?
  {
    assert Challenge(req.(body := body)) == Challenge(req);
  }

  /** The sink's outcome changes the status only: the same record is written either way. */
  lemma SinkOutcomeOnlyChangesStatus(req: Request, now: string)
    ensures Handle(req, true, now).sinkCall == Handle(req, false, now).sinkCall
    ensures Handle(req, true, now).response.status != Handle(req, false, now).response.status
      <==> Handle(req, true, now).sinkCall.Some?
  {
  }

  /**
   * Validation is truthiness only: any non-empty strings pass, whitespace-only values and
   * an email without `@` included, and are written unchanged.
   */
  lemma WhitespaceFieldsPass(name: string, email: string, message: string, now: string)
    requires name != "" && email != "" && message != ""
    ensures
      var req := Request(map[], ObjectBody(map["name" := Str(name), "email" := Str(email), "message" := Str(message)]));
      Handle(req, true, now).sinkCall == Some(PageRecord(Str(name), Str(email), Str(message), now))
  {
  }

  /** For instance a single space, a string without `@` and a tab. */
  lemma WhitespaceExample(now: string)
    ensures
      var req := Request(map[], ObjectBody(map["name" := Str(" "), "email" := Str("not an email"), "message" := Str("\t")]));
      Handle(req, true, now).sinkCall == Some(PageRecord(Str(" "), Str("not an email"), Str("\t"), now))
  {
    WhitespaceFieldsPass(" ", "not an email", "\t", now);
  }

  /** An empty challenge header is falsy, so the request is validated like any other. */
  lemma EmptyChallengeIsNotAChallenge(now: string)
    ensures Handle(Request(map[ChallengeHeader := ""], ObjectBody(map[])), true, now).response.status == 400
  {
  }

  /** The HTTP response object the handler writes to, as the framework hands it over. */
  class ResponseWriter {
    var statusCode: int
    var headers: map<string, string>
    /** Every response sent on this object, in order. */
    var sent: seq<Response>

    predicate Fresh()
      reads this
    {
      statusCode == 200 && headers == map[] && sent == []
    }

    constructor ()
      ensures Fresh()
    {
      statusCode, headers, sent := 200, map[], [];
    }

    /** `res.set(name, value)` */
    method Set(name: string, value: string)
      modifies this
      ensures headers == old(headers)[name := value]
      ensures statusCode == old(statusCode) && sent == old(sent)
    {
      headers := headers[name := value];
    }

    /** `res.status(code)` */
    method Status(code: int)
      modifies this
      ensures statusCode == code
      ensures headers == old(headers) && sent == old(sent)
    {
      statusCode := code;
    }

    /** `.send(body)` */
    method Send(body: string)
      modifies this
      ensures sent == old(sent) + [Response(statusCode, headers, body)]
      ensures statusCode == old(statusCode) && headers == old(headers)
    {
      sent := sent + [Response(statusCode, headers, body)];
    }
  }

  /** The Notion database: every `pages.create` call it received. */
  class RecordSink {
    var calls: seq<PageRecord>

    constructor ()
      ensures calls == []
    {
      calls := [];
    }

    /** One `pages.create` call; whether it resolves or throws is decided outside this model. */
    method CreatePage(record: PageRecord, succeeds: bool) returns (ok: bool)
      modifies this
      ensures calls == old(calls) + [record]
      ensures ok == succeeds
    {
      calls := calls + [record];
      ok := succeeds;
    }
  }

  /**
   * The route handler: early returns, one response per request, at most one sink call.
   * `sinkSucceeds` says how the sink call turns out if it is made; `now` is the clock.
   */
  method HandleWebhook(req: Request, sink: RecordSink, res: ResponseWriter, sinkSucceeds: bool, now: string)
    requires res.Fresh()
    modifies sink, res
    ensures res.sent == [Handle(req, sinkSucceeds, now).response]
    ensures sink.calls == old(sink.calls) +
      (match Handle(req, sinkSucceeds, now).sinkCall case Some(p) => [p] case None => [])
  {
    if ChallengeHeader in req.headers && Truthy(Str(req.headers[ChallengeHeader])) {
      res.Set(ChallengeHeader, req.headers[ChallengeHeader]);
      res.Status(200);
      res.Send("");
      return;
    }

    var name, email, message := Field(req.body, "name"), Field(req.body, "email"), Field(req.body, "message");

    if !Truthy(name) || !Truthy(email) || !Truthy(message) {
      res.Status(400);
      res.Send(MissingFieldsText);
      return;
    }

    var ok := sink.CreatePage(PageRecord(name, email, message, now), sinkSucceeds);
    if ok {
      res.Status(200);
      res.Send(SubmittedText);
    } else {
      res.Status(500);
      res.Send(FailedText);
    }
  }
}
