/**
 * `SimpleEmailService`: the app-password thank-you mailer. It holds a transporter and an
 * `initialized` flag; `initialize` builds the transporter and sets the flag only after
 * `transporter.verify()` succeeds, `sendThankYouEmail` initialises lazily and sends,
 * `testEmailConfiguration` re-initialises and verifies once more.
 *
 * `createTransport`, `verify` and `sendMail` are library calls, modelled as a `Step` each.
 * `Init`, `Send` and `TestConfiguration` give the behaviour on the abstract state; the
 * class's methods are proved to follow them.
 */
module AppPasswordEmailService {
  import opened Wrappers
  import opened Js
  import opened Mail

  /** `this.transporter`, `this.initialized`. */
  datatype State = State(transporter: Option<Transporter>, initialized: bool)

  /** How the library calls inside one `initialize` turn out. */
  datatype InitAttempt = InitAttempt(createTransport: Step<Transporter>, verify: Step<bool>)

  /** The outcome of `sendThankYouEmail`: the new state, whether `initialize` ran, the mail handed to `sendMail`, the result. */
  datatype SendStep = SendStep(state: State, initRan: bool, sent: Option<MailOptions>, result: Result<Receipt, string>)

  /** A set flag always comes with a transporter. */
  predicate Valid(s: State)
  {
    s.initialized ==> s.transporter.Some?
  }

  /** The state the constructor leaves: no transporter, not initialised. */
  function Fresh(): (s: State)
    ensures Valid(s) && !s.initialized && s.transporter.None?
  {
    State(None, false)
  }

  /**
   * `initialize()`: true exactly when the transporter is built and verifies, and only then
   * does the flag become set. A built transporter is kept even when its verification fails;
   * a failure leaves the flag as it was.
   */
  function Init(s: State, a: InitAttempt): (r: (State, bool))
    ensures r.1 <==> a.createTransport.Returns? && a.verify.Returns?
    ensures r.1 ==> r.0.initialized
    ensures !r.1 ==> r.0.initialized == s.initialized
    ensures r.0.transporter == if a.createTransport.Returns? then Some(a.createTransport.value) else s.transporter
    ensures Valid(s) ==> Valid(r.0)
  {
    match a.createTransport
    case Throws(_) => (s, false)
    case Returns(t) =>
      var s1 := s.(transporter := Some(t));
      match a.verify
      case Throws(_) => (s1, false)
      case Returns(_) => (s1.(initialized := true), true)
  }

  /**
   * `sendThankYouEmail(recipientEmail, recipientName, submissionMessage)`. `a` says how
   * `initialize` would turn out if it runs, `sendResult` how `sendMail` turns out.
   */
  function Send(s: State, recipientEmail: JsValue, recipientName: JsValue, submissionMessage: JsValue,
                a: InitAttempt, sendResult: Step<string>): (r: SendStep)
    requires Valid(s)
    ensures Valid(r.state)
    ensures r.initRan <==> !s.initialized
    ensures s.initialized ==> r.state == s
    ensures r.initRan ==> r.state == Init(s, a).0
    ensures r.initRan && !Init(s, a).1 ==> r.sent.None? && r.result == Failure(InitFailedMessage)
    ensures r.sent.Some? <==> s.initialized || Init(s, a).1
    ensures r.sent.Some? ==>
      r.sent.value == ThankYouMail(EntrepreneurDeveloper, recipientEmail, recipientName, submissionMessage) &&
      r.result == Deliver(r.sent.value, sendResult)
    ensures r.result.Success? ==>
      r.result.value == Receipt(true, sendResult.value, recipientEmail)
  {
    if !s.initialized then
      var (s1, ok) := Init(s, a);
      if !ok then SendStep(s1, true, None, Failure(InitFailedMessage))
      else
        var mail := ThankYouMail(EntrepreneurDeveloper, recipientEmail, recipientName, submissionMessage);
        SendStep(s1, true, Some(mail), Deliver(mail, sendResult))
    else
      var mail := ThankYouMail(EntrepreneurDeveloper, recipientEmail, recipientName, submissionMessage);
      SendStep(s, false, Some(mail), Deliver(mail, sendResult))
  }

  /**
   * `testEmailConfiguration()`: runs `initialize` (its result is ignored), then calls
   * `verify` once more; a missing transporter or a rejected verify is caught and gives false.
   */
  function TestConfiguration(s: State, a: InitAttempt, verify: Step<bool>): (r: (State, bool))
    ensures r.0 == Init(s, a).0
    ensures r.1 <==> Init(s, a).0.transporter.Some? && verify.Returns?
  {
    var (s1, _) := Init(s, a);
    if s1.transporter.None? then (s1, false)
    else (s1, verify.Returns?)
  }

  /**
   * Since the result of `initialize` is ignored, the test can pass although initialisation
   * just failed: the transporter built but rejected by the first `verify` is accepted by the
   * second, and the service stays uninitialised.
   */
  lemma TestCanPassAfterFailedInit(t: Transporter)
    ensures var a := InitAttempt(Returns(t), Throws("connection timeout"));
      !Init(Fresh(), a).1 &&
      TestConfiguration(Fresh(), a, Returns(true)) == (State(Some(t), false), true)
  {
  }

  class SimpleEmailService {
    var transporter: Option<Transporter>
    var initialized: bool
    /** Every `sendMail` call, with the transporter it was made on. */
    var outbox: seq<(Transporter, MailOptions)>

    function Current(): State
      reads this
    {
      State(transporter, initialized)
    }

    constructor ()
      ensures Current() == Fresh() && outbox == []
    {
      transporter, initialized := None, false;
      outbox := [];
    }

    method Initialize(a: InitAttempt) returns (ok: bool)
      modifies this
      ensures (Current(), ok) == Init(old(Current()), a)
      ensures outbox == old(outbox)
    {
      if a.createTransport.Throws? {
        return false;
      }
      transporter := Some(a.createTransport.value);
      if a.verify.Throws? {
        return false;
      }
      initialized := true;
      return true;
    }

    method SendThankYouEmail(recipientEmail: JsValue, recipientName: JsValue, submissionMessage: JsValue,
                             a: InitAttempt, sendResult: Step<string>)
      returns (r: Result<Receipt, string>)
      requires Valid(Current())
      modifies this
      ensures var step := Send(old(Current()), recipientEmail, recipientName, submissionMessage, a, sendResult);
        Current() == step.state && r == step.result &&
        outbox == old(outbox) + (match step.sent case Some(m) => [(transporter.value, m)] case None => [])
    {
      if !initialized {
        var success := Initialize(a);
        if !success {
          return Failure(InitFailedMessage);
        }
      }
      var mail := ThankYouMail(EntrepreneurDeveloper, recipientEmail, recipientName, submissionMessage);
      outbox := outbox + [(transporter.value, mail)];
      match sendResult
      case Returns(messageId) =>
        r := Success(Receipt(true, messageId, recipientEmail));
      case Throws(e) =>
        r := Failure(e);
    }

    method TestEmailConfiguration(a: InitAttempt, verify: Step<bool>) returns (ok: bool)
      modifies this
      ensures (Current(), ok) == TestConfiguration(old(Current()), a, verify)
      ensures outbox == old(outbox)
    {
      var _ := Initialize(a);
      if transporter.None? {
        return false;
      }
      ok := verify.Returns?;
    }
  }
}
