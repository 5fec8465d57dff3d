/**
 * What the two thank-you email services share: the outcome of a call into a mail or OAuth
 * library, the thank-you templates, the mail options built for `sendMail`, and how the
 * result of `sendMail` becomes the service's return value.
 *
 * The templates keep only the parts that depend on the arguments: the greeting, which falls
 * back to 'there' for a falsy name, and the quoted-message block, present only for a truthy
 * message. All the literal HTML, CSS and prose is one boilerplate segment per stretch.
 */
module Mail {
  import opened Wrappers
  import opened Js

  /** How a call into a library turns out: it returns a value or it throws. */
  datatype Step<+T> = Returns(value: T) | Throws(error: string)

  /** An opaque nodemailer transporter, told apart by a handle. */
  datatype Transporter = Transporter(handle: nat)

  /**
   * The title that tells the two services' HTML templates apart: it appears under the logo
   * and again in the closing signature. The plain-text versions are the same for both.
   */
  datatype Tagline = SoftwareEngineer | EntrepreneurDeveloper

  /** The fixed stretches of text in the templates. */
  datatype Boilerplate = HtmlHeader(tagline: Tagline) | HtmlIntro | HtmlClosing(tagline: Tagline) | PlainBody

  datatype Segment =
    | Fixed(text: Boilerplate)
    | Greeting(name: JsValue)
    | QuotedMessage(message: JsValue)

  type Template = seq<Segment>

  const Subject: string := "Thanks for reaching out! \U{1F680}"
  const InitFailedMessage: string := "Email service initialization failed"

  /** The options handed to `sendMail`; the sender address is configuration and is left out. */
  datatype MailOptions = MailOptions(to: JsValue, subject: string, html: Template, text: Template)

  /** The value a successful send resolves to. */
  datatype Receipt = Receipt(success: bool, messageId: string, recipient: JsValue)

  /** Whether a template quotes a message at all. */
  predicate Quotes(t: Template)
  {
    exists i :: 0 <= i < |t| && t[i].QuotedMessage?
  }

  /** `name || 'there'`: never falsy, and the name itself whenever it is truthy. */
  function GreetingName(name: JsValue): (g: JsValue)
    ensures Truthy(g)
    ensures Truthy(name) ==> g == name
    ensures !Truthy(name) ==> g == Str("there")
  {
    Or(name, Str("there"))
  }

  /** `createThankYouTemplate(name, originalMessage)` */
  function ThankYouHtml(tagline: Tagline, name: JsValue, originalMessage: JsValue): (t: Template)
    ensures Fixed(HtmlHeader(tagline)) in t && Fixed(HtmlClosing(tagline)) in t
    ensures Greeting(GreetingName(name)) in t
    ensures forall i :: 0 <= i < |t| && t[i].Greeting? ==> Truthy(t[i].name)
    ensures Truthy(originalMessage) ==> QuotedMessage(originalMessage) in t
    ensures Quotes(t) <==> Truthy(originalMessage)
    ensures forall i :: 0 <= i < |t| && t[i].QuotedMessage? ==> t[i].message == originalMessage
  {
    [Fixed(HtmlHeader(tagline)), Greeting(GreetingName(name)), Fixed(HtmlIntro)]
    + (if Truthy(originalMessage) then [QuotedMessage(originalMessage)] else [])
    + [Fixed(HtmlClosing(tagline))]
  }

  /** `createPlainTextVersion(name)`: greets like the HTML and never quotes the message. */
  function PlainText(name: JsValue): (t: Template)
    ensures Greeting(GreetingName(name)) in t
    ensures !Quotes(t)
  {
    [Greeting(GreetingName(name)), Fixed(PlainBody)]
  }

  /** The `mailOptions` object built in `sendThankYouEmail`. */
  function ThankYouMail(tagline: Tagline, recipientEmail: JsValue, recipientName: JsValue,
                        submissionMessage: JsValue): (m: MailOptions)
    ensures m.to == recipientEmail && m.subject == Subject
    ensures Quotes(m.html) <==> Truthy(submissionMessage)
    ensures !Quotes(m.text)
    ensures Greeting(GreetingName(recipientName)) in m.html && Greeting(GreetingName(recipientName)) in m.text
  {
    MailOptions(recipientEmail, Subject, ThankYouHtml(tagline, recipientName, submissionMessage),
                PlainText(recipientName))
  }

  /**
   * The tail of `sendThankYouEmail` once the transporter is there: a resolved `sendMail`
   * gives the receipt, a rejected one is rethrown unchanged.
   */
  function Deliver(mail: MailOptions, sendResult: Step<string>): (r: Result<Receipt, string>)
    ensures r.Success? <==> sendResult.Returns?
    ensures r.Success? ==> r.value.success && r.value.recipient == mail.to && r.value.messageId == sendResult.value
    ensures r.Failure? ==> r.error == sendResult.error
  {
    match sendResult
    case Returns(messageId) => Success(Receipt(true, messageId, mail.to))
    case Throws(e) => Failure(e)
  }

  /** Both templates greet a missing or empty name as 'there'. */
  lemma MissingNameGreetsThere(tagline: Tagline, msg: JsValue)
    ensures Greeting(Str("there")) in ThankYouHtml(tagline, Undefined, msg)
    ensures Greeting(Str("there")) in ThankYouHtml(tagline, Str(""), msg)
    ensures Greeting(Str("there")) in PlainText(Null)
  {
  }
}
