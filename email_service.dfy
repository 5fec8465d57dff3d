/**
 * `EmailService`: the OAuth-based thank-you mailer. It holds an OAuth client, a transporter
 * and an `initialized` flag; `initialize` fetches an access token and builds the transporter,
 * `sendThankYouEmail` initialises lazily and sends, `testEmailConfiguration` re-initialises
 * and verifies the transporter.
 *
 * The OAuth token fetch and transporter construction are library calls, modelled as a
 * `Step` each. `Init`, `Send` and `TestConfiguration` give the service's behaviour on the
 * abstract state; the class's methods are proved to follow them.
 */
module OAuthEmailService {
  import opened Wrappers
  import opened Js
  import opened Mail

  /** `this.oauth2Client` (only whether it exists), `this.transporter`, `this.initialized`. */
  datatype State = State(hasOAuthClient: bool, transporter: Option<Transporter>, initialized: bool)

  /** How the library calls inside one `initialize` turn out. */
  datatype InitAttempt = InitAttempt(accessToken: Step<string>, createTransporter: Step<Transporter>)

  /** The outcome of `sendThankYouEmail`: the new state, whether `initialize` ran, the mail handed to `sendMail`, the result. */
  datatype SendStep = SendStep(state: State, initRan: bool, sent: Option<MailOptions>, result: Result<Receipt, string>)

  /** A set flag always comes with a transporter. */
  predicate Valid(s: State)
  {
    s.initialized ==> s.transporter.Some?
  }

  /** The state the constructor leaves: no OAuth client, no transporter, not initialised. */
  function Fresh(): (s: State)
    ensures Valid(s) && !s.initialized && s.transporter.None? && !s.hasOAuthClient
  {
    State(false, None, false)
  }

  /**
   * `initialize()`: true exactly when the token fetch and the transporter construction both
   * succeed, and only then does the flag become set and the transporter change. A failure
   * leaves the flag and the transporter as they were (the OAuth client is created first in any case).
   */
  function Init(s: State, a: InitAttempt): (r: (State, bool))
    ensures r.1 <==> a.accessToken.Returns? && a.createTransporter.Returns?
    ensures r.1 ==> r.0.initialized && r.0.transporter == Some(a.createTransporter.value)
    ensures !r.1 ==> r.0.initialized == s.initialized && r.0.transporter == s.transporter
    ensures r.0.hasOAuthClient
    ensures Valid(s) ==> Valid(r.0)
  {
    var s1 := s.(hasOAuthClient := true);
    match a.accessToken
    case Throws(_) => (s1, false)
    case Returns(_) =>
      match a.createTransporter
      case Throws(_) => (s1, false)
      case Returns(t) => (s1.(transporter := Some(t), initialized := true), true)
  }

  /**
   * `sendThankYouEmail(recipientEmail, recipientName, submissionMessage)`. `a` says how
   * `initialize` would turn out if it runs, `sendResult` how `sendMail` turns out.
   */
  function Send(s: State, recipientEmail: JsValue, recipientName: JsValue, submissionMessage: JsValue,
                a: InitAttempt, sendResult: Step<string>): (r: SendStep)
    requires Valid(s)
    ensures Valid(r.state)
    // initialize runs only on an uninitialised service; an initialised one is left as it is
    ensures r.initRan <==> !s.initialized
    ensures s.initialized ==> r.state == s
    ensures r.initRan ==> r.state == Init(s, a).0
    // a failed initialise throws the fixed error and sends nothing
    ensures r.initRan && !Init(s, a).1 ==> r.sent.None? && r.result == Failure(InitFailedMessage)
    // otherwise exactly one mail goes to the recipient, and its outcome is the result
    ensures r.sent.Some? <==> s.initialized || Init(s, a).1
    ensures r.sent.Some? ==>
      r.sent.value == ThankYouMail(SoftwareEngineer, recipientEmail, recipientName, submissionMessage) &&
      r.result == Deliver(r.sent.value, sendResult)
    ensures r.result.Success? ==>
      r.result.value == Receipt(true, sendResult.value, recipientEmail)
  {
    if !s.initialized then
      var (s1, ok) := Init(s, a);
      if !ok then SendStep(s1, true, None, Failure(InitFailedMessage))
      else
        var mail := ThankYouMail(SoftwareEngineer, recipientEmail, recipientName, submissionMessage);
        SendStep(s1, true, Some(mail), Deliver(mail, sendResult))
    else
      var mail := ThankYouMail(SoftwareEngineer, recipientEmail, recipientName, submissionMessage);
      SendStep(s, false, Some(mail), Deliver(mail, sendResult))
  }

  /**
   * `testEmailConfiguration()`: runs `initialize` (its result is ignored), then verifies the
   * transporter; a missing transporter or a rejected verify is caught and gives false.
   */
  function TestConfiguration(s: State, a: InitAttempt, verify: Step<bool>): (r: (State, bool))
    ensures r.0 == Init(s, a).0
    ensures r.1 <==> Init(s, a).0.transporter.Some? && verify.Returns?
  {
    var (s1, _) := Init(s, a);
    if s1.transporter.None? then (s1, false)
    else (s1, verify.Returns?)
  }

  /** A service that never initialised fails the configuration test whenever its initialise fails. */
  lemma TestFailsWithoutAnyTransporter(a: InitAttempt, verify: Step<bool>)
    requires !Init(Fresh(), a).1
    ensures !TestConfiguration(Fresh(), a, verify).1
  {
  }

  /** A configuration test that fails to re-initialise still verifies the transporter built earlier. */
  lemma TestUsesEarlierTransporter(s: State, a: InitAttempt, verify: Step<bool>)
    requires s.transporter.Some? && !Init(s, a).1 && verify.Returns?
    ensures TestConfiguration(s, a, verify).1
  {
  }

  class EmailService {
    var hasOAuthClient: bool
    var transporter: Option<Transporter>
    var initialized: bool
    /** Every `sendMail` call, with the transporter it was made on. */
    var outbox: seq<(Transporter, MailOptions)>

    function Current(): State
      reads this
    {
      State(hasOAuthClient, transporter, initialized)
    }

    constructor ()
      ensures Current() == Fresh() && outbox == []
    {
      hasOAuthClient, transporter, initialized := false, None, false;
      outbox := [];
    }

    method Initialize(a: InitAttempt) returns (ok: bool)
      modifies this
      ensures (Current(), ok) == Init(old(Current()), a)
      ensures outbox == old(outbox)
    {
      hasOAuthClient := true;
      if a.accessToken.Throws? {
        return false;
      }
      if a.createTransporter.Throws? {
        return false;
      }
      transporter := Some(a.createTransporter.value);
      initialized := true;
      return true;
    }

    method SendThankYouEmail(recipientEmail: JsValue, recipientName: JsValue, submissionMessage: JsValue,
                             a: InitAttempt, sendResult: Step<string>)
      returns (r: Result<Receipt, string>)
      requires Valid(Current())
      modifies this
      ensures var step := Send(old(Current()), recipientEmail, recipientName, submissionMessage, a, sendResult);
        Current() == step.state && r == step.result &&
        outbox == old(outbox) + (match step.sent case Some(m) => [(transporter.value, m)] case None => [])
    {
      if !initialized {
        var success := Initialize(a);
        if !success {
          return Failure(InitFailedMessage);
        }
      }
      var mail := ThankYouMail(SoftwareEngineer, recipientEmail, recipientName, submissionMessage);
      outbox := outbox + [(transporter.value, mail)];
      match sendResult
      case Returns(messageId) =>
        r := Success(Receipt(true, messageId, recipientEmail));
      case Throws(e) =>
        r := Failure(e);
    }

    method TestEmailConfiguration(a: InitAttempt, verify: Step<bool>) returns (ok: bool)
      modifies this
      ensures (Current(), ok) == TestConfiguration(old(Current()), a, verify)
      ensures outbox == old(outbox)
    {
      var _ := Initialize(a);
      if transporter.None? {
        return false;
      }
      ok := verify.Returns?;
    }
  }
}
