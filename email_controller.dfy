/** `sendEmail` of controllers/email.controller.js, the one handler that
    writes audit records: it validates the contact form, checks the mail
    credentials, sends, and records the outcome. */
module EmailController {
  import opened Wrappers
  import opened Config
  import opened Guards
  import opened LogModel
  import opened Logger

  const EventName: string := "com.ceb.emailctrl.sendEmail"

  /** `req.body`. */
  datatype ContactForm = ContactForm(name: Option<string>, email: Option<string>, message: Option<string>)

  /** `req.ip` and the User-Agent header. */
  datatype Client = Client(ip: string, userAgent: string)

  /** The oracles of one run: `mailError` is `None` when `sendMail` succeeds
      and otherwise the message it rejects with; `firstWriteFails` and
      `secondWriteFails` make the first and second audit write of the run
      reject, with message `storeError`; `now` is the clock. */
  datatype Faults = Faults(mailError: Option<string>, firstWriteFails: bool, secondWriteFails: bool, storeError: string, now: int)

  /** A response, or a rejection nobody catches (an audit write that throws
      outside the `try`, or inside the `catch`), which sends no response. */
  datatype HandlerOutcome = Respond(status: int, message: string) | Unhandled

  /** `req.user?._id || null`. */
  function Actor(user: Option<User>): Option<string>
  {
    if user.Some? then Some(user.value.id) else None
  }

  function ClientData(c: Client): Data
  {
    map["ip" := c.ip, "userAgent" := c.userAgent]
  }

  /** What one run answers and which audit records it leaves behind. */
  datatype Run = Run(outcome: HandlerOutcome, events: seq<LogEntry>)

  function Expected(form: ContactForm, env: Env, user: Option<User>, c: Client, x: Faults): (r: Run)
    ensures |r.events| <= 1
    ensures r.outcome.Respond? ==> r.outcome.status == 200 || r.outcome.status == 400 || r.outcome.status == 500
    ensures r.outcome == Respond(400, "Name, email, and message are required") <==>
              !(Given(form.name) && Given(form.email) && Given(form.message))
  {
    var actor := Actor(user);
    if !(Given(form.name) && Given(form.email) && Given(form.message)) then
      Run(Respond(400, "Name, email, and message are required"), [])
    else if !Given(env.emailUser) || !Given(env.emailPass) then
      if x.firstWriteFails then Run(Unhandled, [])
      else Run(Respond(500, "Email service not configured properly"),
               [LogEntry(Error, EventName, actor, x.now, "Email service credentials not configured", ClientData(c))])
    else
      var sentData := ClientData(c)["sender" := form.email.value]["name" := form.name.value];
      var failData := ClientData(c)["sender" := form.email.value];
      if x.mailError.None? && !x.firstWriteFails then
        Run(Respond(200, "Email sent successfully!"),
            [LogEntry(Info, EventName, actor, x.now, "Contact email sent successfully", sentData)])
      else
        var reason := if x.mailError.Some? then x.mailError.value else x.storeError;
        var failWrites := if x.mailError.Some? then x.firstWriteFails else x.secondWriteFails;
        if failWrites then Run(Unhandled, [])
        else Run(Respond(500, "Failed to send email"),
                 [LogEntry(Error, EventName, actor, x.now, "Failed to send email - " + reason, failData)])
  }

  /** The handler, writing through the audit store. */
  method SendEmail(store: LogStore, form: ContactForm, env: Env, user: Option<User>, c: Client, x: Faults)
    returns (o: HandlerOutcome)
    modifies store
    ensures o == Expected(form, env, user, c, x).outcome
    ensures store.entries == old(store.entries) + Expected(form, env, user, c, x).events
  {
    var actor := Actor(user);
    if !(Given(form.name) && Given(form.email) && Given(form.message)) {
      return Respond(400, "Name, email, and message are required");
    }
    if !Given(env.emailUser) || !Given(env.emailPass) {
      var w := store.Error(EventName, "Email service credentials not configured", actor, Some(ClientData(c)), x.now, x.firstWriteFails);
      if w.Failure? {
        return Unhandled;
      }
      return Respond(500, "Email service not configured properly");
    }
    // try
    var failure: Option<string> := None;
    var writesSoFar := 0;
    if x.mailError.Some? {
      failure := x.mailError;
    } else {
      var sentData := ClientData(c)["sender" := form.email.value]["name" := form.name.value];
      var w := store.Info(EventName, "Contact email sent successfully", actor, Some(sentData), x.now, x.firstWriteFails);
      writesSoFar := 1;
      if w.Failure? {
        failure := Some(x.storeError);
      }
    }
    if failure.None? {
      return Respond(200, "Email sent successfully!");
    }
    // catch
    var failData := ClientData(c)["sender" := form.email.value];
    var fails := if writesSoFar == 0 then x.firstWriteFails else x.secondWriteFails;
    var w := store.Error(EventName, "Failed to send email - " + failure.value, actor, Some(failData), x.now, fails);
    if w.Failure? {
      return Unhandled;
    }
    o := Respond(500, "Failed to send email");
  }

  /** A form missing name, email or message is refused with 400 before
      anything is written. */
  lemma IncompleteFormWritesNothing(form: ContactForm, env: Env, user: Option<User>, c: Client, x: Faults)
    requires !Given(form.name) || !Given(form.email) || !Given(form.message)
    ensures Expected(form, env, user, c, x) == Run(Respond(400, "Name, email, and message are required"), [])
  {
  }

  /** One audit record per answered outcome and none otherwise: 200 leaves
      exactly one `info` record, 500 exactly one `error` record, and 400 or an
      uncaught rejection none. */
  lemma OneRecordPerOutcome(form: ContactForm, env: Env, user: Option<User>, c: Client, x: Faults)
    ensures
      var r := Expected(form, env, user, c, x);
      && (r.outcome == Unhandled ==> r.events == [])
      && (r.outcome.Respond? && r.outcome.status == 400 ==> r.events == [])
      && (r.outcome.Respond? && r.outcome.status == 200 ==> |r.events| == 1 && r.events[0].severity == Info)
      && (r.outcome.Respond? && r.outcome.status == 500 ==> |r.events| == 1 && r.events[0].severity == Error)
      && (r.outcome.Respond? ==> r.outcome.status in {200, 400, 500})
  {
  }

  /** Missing mail credentials (either of them): one `error` record and 500,
      and the transport is never consulted, so its outcome changes nothing. */
  lemma MissingCredentials(form: ContactForm, env: Env, user: Option<User>, c: Client, x: Faults)
    requires Given(form.name) && Given(form.email) && Given(form.message)
    requires !Given(env.emailUser) || !Given(env.emailPass)
    requires !x.firstWriteFails
    ensures Expected(form, env, user, c, x).outcome == Respond(500, "Email service not configured properly")
    ensures |Expected(form, env, user, c, x).events| == 1
    ensures Expected(form, env, user, c, x).events[0].severity == Error
    ensures Expected(form, env, user, c, x).events[0].message == "Email service credentials not configured"
    ensures forall m :: Expected(form, env, user, c, x.(mailError := m)) == Expected(form, env, user, c, x)
  {
  }

  /** A mail that goes out and is recorded: 200 and one `info` record
      naming the sender. */
  lemma SentAndRecorded(form: ContactForm, env: Env, user: Option<User>, c: Client, x: Faults)
    requires Given(form.name) && Given(form.email) && Given(form.message)
    requires Given(env.emailUser) && Given(env.emailPass)
    requires x.mailError.None? && !x.firstWriteFails
    ensures Expected(form, env, user, c, x).outcome == Respond(200, "Email sent successfully!")
    ensures |Expected(form, env, user, c, x).events| == 1
    ensures Expected(form, env, user, c, x).events[0].severity == Info
    ensures Expected(form, env, user, c, x).events[0].message == "Contact email sent successfully"
    ensures Expected(form, env, user, c, x).events[0].data["sender"] == form.email.value
    ensures Expected(form, env, user, c, x).events[0].data["name"] == form.name.value
  {
  }

  /** A mail the transport rejects: 500 and one `error` record carrying the
      transport's message. */
  lemma SendFailed(form: ContactForm, env: Env, user: Option<User>, c: Client, x: Faults)
    requires Given(form.name) && Given(form.email) && Given(form.message)
    requires Given(env.emailUser) && Given(env.emailPass)
    requires x.mailError.Some? && !x.firstWriteFails
    ensures Expected(form, env, user, c, x).outcome == Respond(500, "Failed to send email")
    ensures |Expected(form, env, user, c, x).events| == 1
    ensures Expected(form, env, user, c, x).events[0].severity == Error
    ensures Expected(form, env, user, c, x).events[0].message == "Failed to send email - " + x.mailError.value
  {
  }

  /** Every record carries the handler's event name, the acting user's id (or
      null), the time of the run and the client's IP and user agent. */
  lemma RecordsTagged(form: ContactForm, env: Env, user: Option<User>, c: Client, x: Faults)
    ensures forall e :: e in Expected(form, env, user, c, x).events ==>
      && e.event == EventName && e.user == Actor(user) && e.timestamp == x.now
      && "ip" in e.data && e.data["ip"] == c.ip
      && "userAgent" in e.data && e.data["userAgent"] == c.userAgent
  {
    if Given(form.email) && Given(form.name) {
      ClientKeysKept(c, form.email.value, form.name.value);
    }
  }

  /** Adding the sender and the name to a record's data keeps the client's
      IP and user agent. */
  lemma ClientKeysKept(c: Client, sender: string, name: string)
    ensures var d := ClientData(c)["sender" := sender];
      && "ip" in d && d["ip"] == c.ip && "userAgent" in d && d["userAgent"] == c.userAgent
    ensures var d := ClientData(c)["sender" := sender]["name" := name];
      && "ip" in d && d["ip"] == c.ip && "userAgent" in d && d["userAgent"] == c.userAgent
  {
  }

  /** The mail can go out and the client still get 500: when the `info`
      write throws, the `catch` records an `error` as if sending had failed. */
  lemma SentYetReportedFailed(form: ContactForm, env: Env, user: Option<User>, c: Client, x: Faults)
    requires Given(form.name) && Given(form.email) && Given(form.message)
    requires Given(env.emailUser) && Given(env.emailPass)
    requires x.mailError.None? && x.firstWriteFails && !x.secondWriteFails
    ensures Expected(form, env, user, c, x).outcome == Respond(500, "Failed to send email")
    ensures |Expected(form, env, user, c, x).events| == 1
    ensures Expected(form, env, user, c, x).events[0].severity == Error
  {
  }
}
