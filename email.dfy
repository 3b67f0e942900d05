/**
 * emailworker/email.py: `sendemail` builds one message from its arguments and
 * hands it to a fresh SMTP session: connect, send, quit.
 */
module Email {
  import opened Types
  import opened Effects
  import Util
  import Dicts

  /** The parameter list of `sendemail(host, fromaddr, toaddrs, body, subject=None)`. */
  function SendEmailSignature(): (sig: Util.Signature)
    ensures forall i :: 0 <= i < |sig| ==> (sig[i].required <==> sig[i].name != "subject")
  {
    [Util.Param("host", true), Util.Param("fromaddr", true), Util.Param("toaddrs", true),
     Util.Param("body", true), Util.Param("subject", false)]
  }

  /** `sendemail` accepts exactly the keywords host, fromaddr, toaddrs, body
      and subject. */
  lemma SendEmailParameters()
    ensures Util.ParamNames(SendEmailSignature()) == {"host", "fromaddr", "toaddrs", "body", "subject"}
  {
    var sig := SendEmailSignature();
    assert sig[0].name == "host" && sig[1].name == "fromaddr" && sig[2].name == "toaddrs" &&
           sig[3].name == "body" && sig[4].name == "subject";
  }

  /** The dotted name of a value's type, as the content manager names it
      when it has no handler for the value. */
  function TypePath(v: Value): string
  {
    match v
    case NoneV => "builtins.NoneType"
    case Bool(_) => "builtins.bool"
    case Int(_) => "builtins.int"
    case Str(_) => "builtins.str"
    case Section(_) => "configparser.SectionProxy"
    case Dict(_) => "builtins.dict"
  }

  /** The message `sendemail` builds: From and To are the addresses as given,
      a subject of None becomes the empty string, and the content is the
      body. `set_content` only has a handler for text, so any other body
      raises KeyError naming its type. */
  function BuildMessage(fromaddr: Value, toaddrs: Value, body: Value, subject: Value := NoneV): (r: Result<Message, Exc>)
    ensures r.Ok? <==> body.Str?
    ensures r.Err? ==> r.error == Error(KeyError(TypePath(body)))
    ensures r.Ok? ==> r.value.fromHeader == fromaddr && r.value.toHeader == toaddrs && r.value.content == body
    ensures r.Ok? && subject == NoneV ==> r.value.subject == Str("")
    ensures r.Ok? && subject != NoneV ==> r.value.subject == subject
  {
    if body.Str? then Ok(Message(fromaddr, toaddrs, if subject != NoneV then subject else Str(""), body))
    else Err(Error(KeyError(TypePath(body))))
  }

  /** The subject argument of a bound call: `subject` when given, else its default None. */
  function SubjectArgument(kwargs: map<string, Value>): Value
  {
    if "subject" in kwargs then kwargs["subject"] else NoneV
  }

  /** A successful binding to `sendemail` supplies every required argument. */
  lemma BoundSendEmailArguments(data: Dicts.Items<Value>, kwargs: map<string, Value>)
    requires Util.BindAndCall(SendEmailSignature(), data) == Ok(kwargs)
    ensures "host" in kwargs && "fromaddr" in kwargs && "toaddrs" in kwargs && "body" in kwargs
  {
    var sig := SendEmailSignature();
    assert sig[0].name == "host" && sig[1].name == "fromaddr" && sig[2].name == "toaddrs" && sig[3].name == "body";
    assert sig[0].required && sig[1].required && sig[2].required && sig[3].required;
  }

  /** Leaving out the subject gives an empty Subject header. */
  lemma OmittedSubjectIsEmpty(fromaddr: Value, toaddrs: Value, text: string)
    ensures BuildMessage(fromaddr, toaddrs, Str(text)) == Ok(Message(fromaddr, toaddrs, Str(""), Str(text)))
  {
  }

  /** Only a text body has a content handler. */
  lemma NonTextBodyRejected(fromaddr: Value, toaddrs: Value, subject: Value)
    ensures BuildMessage(fromaddr, toaddrs, Int(5), subject) == Err(Error(KeyError("builtins.int")))
    ensures BuildMessage(fromaddr, toaddrs, NoneV, subject) == Err(Error(KeyError("builtins.NoneType")))
  {
  }

  /** The three SMTP steps of one session. */
  function FullSession(host: Value, m: Message): seq<Event>
  {
    [SmtpConnect(host), SmtpSendMessage(m), SmtpQuit]
  }

  /** One SMTP session with `server`: each step happens only if every earlier
      step returned, and the session ends with the first exception raised. */
  function SmtpSession(host: Value, m: Message, server: SmtpServer): (o: Outcome)
    ensures 1 <= |o.events| <= 3 && o.events == FullSession(host, m)[..|o.events|]
    ensures o.raised == FirstFailure(server)
    ensures o.raised.None? <==> server == SmtpServer(None, None, None)
    ensures o.raised.None? ==> o.events == FullSession(host, m)
  {
    if server.onConnect.Some? then Outcome([SmtpConnect(host)], server.onConnect)
    else if server.onSend.Some? then Outcome([SmtpConnect(host), SmtpSendMessage(m)], server.onSend)
    else Outcome(FullSession(host, m), server.onQuit)
  }

  /** Exactly one session to `host` is opened, and a successful one is
      connect, then this message, then quit. */
  lemma SessionOrder(host: Value, m: Message, server: SmtpServer)
    ensures SmtpSession(host, m, server).events[0] == SmtpConnect(host)
    ensures forall i :: 0 < i < |SmtpSession(host, m, server).events| ==>
              !SmtpSession(host, m, server).events[i].SmtpConnect?
    ensures server == SmtpServer(None, None, None) ==>
              SmtpSession(host, m, server) == Outcome([SmtpConnect(host), SmtpSendMessage(m), SmtpQuit], None)
  {
  }

  /** What `sendemail(host, fromaddr, toaddrs, body, subject)` does: build
      the message, then hold one session. A body the message cannot take
      raises before any connection is made. */
  function SendEmailOutcome(host: Value, fromaddr: Value, toaddrs: Value, body: Value, subject: Value,
                            server: SmtpServer): (o: Outcome)
    ensures o.events == [] <==> !body.Str?
    ensures !body.Str? ==> o.raised == Some(Error(KeyError(TypePath(body))))
    ensures body.Str? ==> o.raised == FirstFailure(server) && o.events[0] == SmtpConnect(host)
    ensures o.raised.None? <==> body.Str? && server == SmtpServer(None, None, None)
  {
    match BuildMessage(fromaddr, toaddrs, body, subject)
    case Err(e) => Outcome([], Some(e))
    case Ok(m) => SessionOrder(host, m, server); SmtpSession(host, m, server)
  }

  /** A text body with a healthy server: connect, send the message with the
      given headers and the body as content, quit. */
  lemma SendsBuiltMessage(host: Value, fromaddr: Value, toaddrs: Value, text: string, subject: Value)
    ensures var m := Message(fromaddr, toaddrs, if subject != NoneV then subject else Str(""), Str(text));
      SendEmailOutcome(host, fromaddr, toaddrs, Str(text), subject, SmtpServer(None, None, None)) ==
        Outcome([SmtpConnect(host), SmtpSendMessage(m), SmtpQuit], None)
  {
    var m := Message(fromaddr, toaddrs, if subject != NoneV then subject else Str(""), Str(text));
    assert BuildMessage(fromaddr, toaddrs, Str(text), subject) == Ok(m);
    SessionOrder(host, m, SmtpServer(None, None, None));
  }

  /** `sendemail(host, fromaddr, toaddrs, body, subject)`. */
  method SendEmail(rt: Runtime, server: SmtpServer, host: Value, fromaddr: Value, toaddrs: Value,
                   body: Value, subject: Value := NoneV)
    returns (raised: Option<Exc>)
    modifies rt
    ensures var o := SendEmailOutcome(host, fromaddr, toaddrs, body, subject, server);
      rt.events == old(rt.events) + o.events && raised == o.raised
  {
    var built := BuildMessage(fromaddr, toaddrs, body, subject);
    if built.Err? {
      return Some(built.error);
    }
    var message := built.value;
    rt.Emit(SmtpConnect(host));
    if server.onConnect.Some? {
      return server.onConnect;
    }
    rt.Emit(SmtpSendMessage(message));
    if server.onSend.Some? {
      return server.onSend;
    }
    rt.Emit(SmtpQuit);
    raised := server.onQuit;
  }
}
