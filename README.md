# Contact-form relay and page script, modelled in Dafny

A personal website has a contact form. Its submissions reach a small Express server whose
`POST /webhook` route answers a Notion verification challenge. Otherwise it checks that
`name`, `email` and `message` are present and writes them as a page in a Notion database.
Two mailer classes send the submitter a thank-you email. `EmailService` authenticates with
OAuth and `SimpleEmailService` with a Gmail app password. A browser script runs the page's
hero slideshow, the touch-friendly gallery cards and the hamburger menu.

This project models the decision and state logic of those four pieces. Every library,
network and DOM call becomes a parameter, a step that may return a value or throw.

- `webhook.dfy` (module `Webhook`): the route. `Handle` is the pure decision for a request:
  which response is sent and which record, if any, goes to the database. `HandleWebhook` is
  the handler written step by step against a response writer and a record sink, and it is
  proved to do what `Handle` decides.
- `mail.dfy` (module `Mail`): what both mailers share. This covers the outcome of a library
  call, the two templates (reduced to the greeting and the quoted-message block), the mail
  options, and how `sendMail`'s outcome becomes the result.
- `email_service.dfy` (module `OAuthEmailService`) and `simple_email_service.dfy` (module
  `AppPasswordEmailService`): each mailer's state as a value (`State`), with its operations as
  functions on it (`Init`, `Send`, `TestConfiguration`). A class holds the same fields, and
  its methods are proved to follow those functions.
- `slideshow.dfy` (module `HeroSlideshow`): the cyclic search for the next loaded image (a
  loop method proved against the recursive specification `ScanOffset`), the start rule
  after preloading, and the cross-fade between the two layers.
- `gallery.dfy` (module `Gallery`) and `nav_menu.dfy` (module `NavMenu`): the card toggle,
  the outside-tap reset and the paired `is-open` classes.
- `js.dfy` (module `Js`): JSON-shaped JavaScript values and their truthiness.
- `wrappers.dfy` (module `Wrappers`): `Option` and `Result`.

The route reads only `req.body` and checks each field for truthiness. It does not normalise
payloads from several sources. It does not resolve alias field names, trim values, return a
diagnostic object on 400, or send an email.
The model follows the code and includes none of them. The code also tests the
challenge header for truthiness, not for presence. So a header with an empty value is not
treated as a challenge, and the request is validated like any other
(`Webhook.EmptyChallengeIsNotAChallenge`).

## Model

| member | source | states |
|---|---|---|
| `Webhook.Challenge` | webhook_server.js:25 | There is a challenge exactly when the header is there with a non-empty value, and its value is the header's. |
| `Webhook.Handle` | webhook_server.js:19-57 | The three fields are read from the body by `Extract` (line 33), where a missing key or an array body reads as `undefined`. With a challenge: 200, the header echoed with the same value, empty body, no sink call. Without one and with a falsy field: 400 with the fixed text and no sink call. Otherwise: exactly one sink call carrying name, email and message unchanged plus the clock value, then 200 or 500 by the sink's outcome. The sink is called iff there is no challenge and all fields are truthy, and the status is always 200, 400 or 500. |
| `Webhook.ChallengeIgnoresBody` | webhook_server.js:25-30 | With a challenge, the reply is the same for every body, sink outcome and clock value, and there is no sink call. |
| `Webhook.SinkOutcomeOnlyChangesStatus` | webhook_server.js:40-56 | Sink success and failure produce the same sink call; the statuses differ exactly when a sink call is made. |
| `Webhook.WhitespaceFieldsPass` | webhook_server.js:33-38 | Any three non-empty strings pass validation and are written unchanged, whitespace-only values and an email without `@` included. |
| `Webhook.WhitespaceExample` | webhook_server.js:33-38 | One instance: a single space, `not an email` and a tab are written as given. |
| `Webhook.EmptyChallengeIsNotAChallenge` | webhook_server.js:25 | An empty challenge header does not short-circuit; with an empty body the answer is 400. |
| `Webhook.ResponseWriter.constructor` | webhook_server.js:19 | The response object starts with status 200, no headers and nothing sent. |
| `Webhook.ResponseWriter.Set` | webhook_server.js:28 | `res.set` adds one header and changes nothing else. |
| `Webhook.ResponseWriter.Status` | webhook_server.js:29 | `res.status` sets the status code only. |
| `Webhook.ResponseWriter.Send` | webhook_server.js:37 | `send` appends one response with the current status and headers. |
| `Webhook.RecordSink.constructor` | webhook_server.js:11 | The Notion client starts with no page created by the handler. |
| `Webhook.RecordSink.CreatePage` | webhook_server.js:42-50 | Every `pages.create` call is logged with its record, and the result is the call's outcome. |
| `Webhook.HandleWebhook` | webhook_server.js:19-57 | Exactly one response is sent, equal to `Handle`'s. The sink log grows by `Handle`'s sink call and by nothing else. |
| `Mail.GreetingName` | emailService.js:170 | The greeting is never falsy. It is the name when the name is truthy and `'there'` otherwise. |
| `Mail.ThankYouHtml` | emailService.js:85-212 | The HTML greets `name` or `'there'`. It contains a quoted-message block iff `originalMessage` is truthy, and that block holds the message itself. The service's title appears under the logo and in the closing signature: simpleEmailService.js:67-194 is the same template with "Entrepreneur & Developer" in both places where emailService.js has "Software Engineer & Developer" and "Software Engineer". |
| `Mail.PlainText` | emailService.js:214-237 | The plain-text version greets like the HTML and never contains the message. |
| `Mail.ThankYouMail` | emailService.js:60-68 | The mail is addressed to `recipientEmail` with the fixed subject. Its HTML quotes the message iff it is truthy, and its text never does. |
| `Mail.Deliver` | emailService.js:71-82 | A resolved `sendMail` gives `{success: true, messageId, recipient}`, and a rejected one rethrows the same error. |
| `Mail.MissingNameGreetsThere` | simpleEmailService.js:152 | An undefined, empty or null name is greeted as `'there'`. |
| `OAuthEmailService.Fresh` | emailService.js:5-9 | A new service has no OAuth client, no transporter, and `initialized` false. |
| `OAuthEmailService.Init` | emailService.js:11-48 | Returns true iff the token fetch and the transporter creation both succeed. Only then is the flag set and the transporter replaced. On failure the flag and the transporter are unchanged, and the object invariant is kept. |
| `OAuthEmailService.Send` | emailService.js:50-83 | `initialize` runs iff the service is uninitialised, and an initialised service keeps its state. A failed init throws "Email service initialization failed" and sends nothing. Otherwise exactly one thank-you mail goes to `recipientEmail`, and its outcome is the result: the receipt names the recipient, or the error is rethrown. |
| `OAuthEmailService.TestConfiguration` | emailService.js:239-251 | Runs `initialize` and ignores its result. Returns true iff a transporter then exists and `verify` resolves. |
| `OAuthEmailService.TestFailsWithoutAnyTransporter` | emailService.js:239-251 | A new service whose initialise fails always fails the test. |
| `OAuthEmailService.TestUsesEarlierTransporter` | emailService.js:241-246 | When re-initialising fails, the test still passes if the transporter built earlier verifies. |
| `OAuthEmailService.EmailService.constructor` | emailService.js:5-9 | The fields start as `Fresh`, and nothing has been sent. |
| `OAuthEmailService.EmailService.Initialize` | emailService.js:11-48 | The fields and the result are those of `Init`, and nothing is sent. |
| `OAuthEmailService.EmailService.SendThankYouEmail` | emailService.js:50-83 | The fields and the result are those of `Send`. The outbox grows by the one mail `Send` sends, on the current transporter. |
| `OAuthEmailService.EmailService.TestEmailConfiguration` | emailService.js:239-251 | The fields and the result are those of `TestConfiguration`, and nothing is sent. |
| `AppPasswordEmailService.Fresh` | simpleEmailService.js:4-7 | A new service has no transporter and `initialized` false. |
| `AppPasswordEmailService.Init` | simpleEmailService.js:9-30 | Returns true iff `createTransport` and `verify` both succeed, and only then is the flag set. A failure leaves the flag as it was. A created transporter is kept even when `verify` rejects it. |
| `AppPasswordEmailService.Send` | simpleEmailService.js:32-65 | Same as the OAuth service: lazy `initialize` only when uninitialised, the fixed error and no mail on init failure, and otherwise one mail to `recipientEmail` whose outcome is the result. |
| `AppPasswordEmailService.TestConfiguration` | simpleEmailService.js:221-233 | Returns true iff a transporter exists after `initialize` and the final `verify` resolves. Any thrown error gives false. |
| `AppPasswordEmailService.TestCanPassAfterFailedInit` | simpleEmailService.js:221-233 | Because `initialize`'s result is ignored, the test can pass right after a failed initialise. The service then stays uninitialised. |
| `AppPasswordEmailService.SimpleEmailService.constructor` | simpleEmailService.js:4-7 | The fields start as `Fresh`, and nothing has been sent. |
| `AppPasswordEmailService.SimpleEmailService.Initialize` | simpleEmailService.js:9-30 | The fields and the result are those of `Init`. |
| `AppPasswordEmailService.SimpleEmailService.SendThankYouEmail` | simpleEmailService.js:32-65 | The fields and the result are those of `Send`, and the outbox grows by its one mail. |
| `AppPasswordEmailService.SimpleEmailService.TestEmailConfiguration` | simpleEmailService.js:221-233 | The fields and the result are those of `TestConfiguration`. |
| `HeroSlideshow.Cyclic` | script.js:107 | A position on the cyclic walk is always a valid index. |
| `HeroSlideshow.CyclicIsMod` | script.js:103-107 | That position is `(start + k) % n`, the source's modular step. |
| `HeroSlideshow.ScanOffset` | script.js:103-111 | The recursive specification of the search. When an offset is found, it is within the fuel, the image there is loaded, and every earlier position is not. When none is found, no position within the fuel is loaded. |
| `HeroSlideshow.FindNextLoaded` | script.js:101-111 | The search loop. The candidate stays in `[0, n)` and at most `n` advances are made. An image is found iff `ScanOffset` finds one from `(current + 1) % n`, and then the index is that first loaded position. With `n == 0` nothing is found. |
| `HeroSlideshow.ScanFirstHit` | script.js:103-111 | A loaded position with no loaded position before it is exactly where the scan stops. |
| `HeroSlideshow.ScanFindsLoaded` | script.js:106-111 | A full turn finds any loaded image, and it reaches one before `current` itself unless `current` is the only candidate. |
| `HeroSlideshow.NothingLoadedIff` | script.js:111 | The search finds nothing iff no image is loaded (both directions). |
| `HeroSlideshow.TransitionMoves` | script.js:103-113 | When another image besides the current one is loaded, the new index differs from the current one. |
| `HeroSlideshow.OnlyCurrentLoaded` | script.js:103-113 | When the current image is the only loaded one, the transition lands on the current index again. |
| `HeroSlideshow.NextIndex` | script.js:103-113 | The target index is in range and loaded. There is none iff no image is loaded. |
| `HeroSlideshow.ValidImages` | script.js:134 | `filter(Boolean)` keeps only loaded paths, keeps every loaded path, and is empty iff none is loaded. |
| `HeroSlideshow.ValidImagesAppend` | script.js:134 | Filtering a concatenation is the concatenation of the filtered parts, in order. |
| `HeroSlideshow.ValidImagesSingle` | script.js:134 | One result contributes its path when loaded and nothing otherwise; with `ValidImagesAppend` this makes `ValidImages` exactly the loaded paths in index order. |
| `HeroSlideshow.TwoLoadedRotate` | script.js:134-143 | Two loaded results give two or more valid images, so the rotation timer starts. |
| `HeroSlideshow.StartIndex` | script.js:136-138 | The first loaded index: every earlier result failed. |
| `HeroSlideshow.FirstValidImage` | script.js:136-142 | The first valid image is the result at `StartIndex`. With two or more valid images, another loaded one lies after it. |
| `HeroSlideshow.Layer.constructor` | script.js:68-72 | A new layer has no image and neither class. |
| `HeroSlideshow.Slideshow.constructor` | script.js:55-79 | The five hero images, nothing loaded, index 0, two distinct blank layers, no timer. |
| `HeroSlideshow.Slideshow.StartAsWritten` | script.js:132-146 | The preload callback as written. The first valid image goes on the active layer with both classes, and rotation starts iff there are two or more. The index is not touched. |
| `HeroSlideshow.Slideshow.Start` | script.js:132-146 | The same with the index set to the image put on screen (see Findings). |
| `HeroSlideshow.Slideshow.TransitionToNextImage` | script.js:101-129 | With nothing loaded, the index and both layers are unchanged. Otherwise the index becomes `NextIndex`, that image goes on the incoming layer with both classes, the outgoing layer loses both classes, and the layer references swap and stay distinct. |
| `HeroSlideshow.FirstTransitionRepeatsAsWritten` | script.js:132-146 | As written, for every preload result with image 0 failed and some image loaded: the image on screen is the one at `StartIndex`, and the first transition from index 0 lands on that same index. |
| `HeroSlideshow.FirstImageFailedExample` | script.js:132-146 | One instance: `img_1.jpeg` fails, `img_2.jpg` is shown, and the first transition picks index 1 again. |
| `HeroSlideshow.FirstTransitionMoves` | script.js:136-143 | With the corrected start and two or more valid images, the first transition moves to a different index. |
| `Gallery.Toggled` | script.js:36-46 | After a tap, every other card is inactive and the tapped card is flipped, so at most one card is active. |
| `Gallery.ToggleTwiceClears` | script.js:45 | Tapping an inactive card twice leaves every card inactive. |
| `Gallery.Cards.constructor` | script.js:4 | One flag per gallery card, all inactive. |
| `Gallery.Cards.HandleCardToggle` | script.js:36-46 | The cards become `Toggled` of the old cards, and at most one is active. |
| `Gallery.Cards.HandleDocumentTap` | script.js:24-31 | A tap outside all cards deactivates every card. A tap inside changes nothing here. At most one card stays active. |
| `NavMenu.Toggle` | script.js:154-157 | Flips both `is-open` classes together, so synchronised classes stay synchronised. |
| `NavMenu.CloseFromLink` | script.js:161-166 | Clears both classes. |
| `NavMenu.ClicksKeepSync` | script.js:153-166 | After any sequence of toggle and link clicks, the two classes are equal. |
| `NavMenu.ToggleTwice` | script.js:154-157 | Two toggles restore the state. |
| `NavMenu.Menu.constructor` | script.js:150-151 | The menu starts closed. |
| `NavMenu.Menu.ToggleClicked` | script.js:154-157 | The classes become `Toggle` of the old ones. |
| `NavMenu.Menu.LinkClicked` | script.js:161-166 | The classes become `CloseFromLink` of the old ones. |

## Left out

- Server set-up, the health route, `app.listen` and all logging (webhook_server.js:1-15, 59-66) are plumbing, not handler logic.
- The body parser's own rejection of malformed JSON happens before the handler runs. The model starts from what the parser leaves in `req.body`: an object, an array, or the default `{}`.
- The Notion client and the page schema are reduced to one call that may fail, carrying the three field values and the clock reading. `new Date().toISOString()` is an opaque string parameter.
- Whether Notion accepts a non-string name or email is decided by the sink's outcome parameter, not by the model.
- The OAuth client, token acquisition, `createTransporter`/`createTransport`, `verify` and `sendMail` are foreign libraries. Each is a step that returns or throws. The model does not decide whether nodemailer actually offers `createTransporter` (emailService.js:29). Its absence would be one more throw, caught at emailService.js:44.
- `OAuthEmailService.Init`: constructing the OAuth2 client and `setCredentials` are taken never to throw. Only the token fetch and the transporter creation can fail, so the client always exists after an attempt.
- The sender address, the subject's rendering and all literal HTML, CSS and prose of the templates are left out. Only the greeting fallback, the message-block condition and which service title the HTML carries are modelled. Interpolating a value into text is not modelled.
- The interleaving of concurrent sends that race to initialise lazily is concurrency and is left out. Each call runs to completion.
- DOM lookups and event wiring are left out: touch detection, `preventDefault`, class animations, the hero and menu element checks, and autofocus. Only the flags and indices they drive are modelled.
- `HeroSlideshow.Slideshow.TransitionToNextImage`: the layer swap that the source defers by 1.5 seconds is applied at the end of the same call. The 5-second rotation interval leaves no room for another transition in between.
- Image preloading is left out. It is a promise per image and resolves to the path or `null`; its results are the argument of `Start`.
- `Js.JsValue`: numbers are reals. `NaN` cannot come out of a JSON parser and is not modelled. A parsed `-0` is represented as `Num(0.0)`, which has the same truthiness (falsy).

## Findings

| source | as written | input that shows it | evidently intended | confidence | as-written member | corrected member |
|---|---|---|---|---|---|---|
| script.js:132-146 | After preloading, the first valid image is shown, but `currentImageIndex` stays 0 even when image 0 failed to load. | `img_1.jpeg` fails and the other four load. `img_2.jpg` is shown at index 1 while the index stays 0, so the first transition scans from index 1 and fades to `img_2.jpg` again. | The index names the image put on screen, so every transition moves to a different image when two or more are loaded. | medium; not executed | `HeroSlideshow.Slideshow.StartAsWritten`, `HeroSlideshow.FirstTransitionRepeatsAsWritten` | `HeroSlideshow.Slideshow.Start`, `HeroSlideshow.FirstTransitionMoves` |
