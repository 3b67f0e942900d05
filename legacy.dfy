/**
 * emailworker/__init__.py: the earlier, single-module email worker. It runs
 * the same pipeline as the package modules with a different policy: its
 * binder takes keys verbatim, `sendemail` skips SMTP under `dryrun`, and
 * the consumer acknowledges a delivery only after the email went out, so a
 * failing delivery stays unacknowledged and stops the worker.
 */
module Legacy {
  import opened Types
  import opened Dicts
  import opened Effects
  import opened LegacyConfig
  import Util
  import WorkerModel

  /** The functions the sub-commands select. */
  datatype Command = Publish | Start

  type Arg = Attr<Command>

  /** What the legacy entry points meet outside the program: the files
      ConfigParser can open, JSON encoding and decoding, the deliveries the
      broker hands over, and how the `j`-th SMTP session is answered. */
  datatype Env = Env(
    read: string -> Option<IniFile>,
    serialize: Value -> string,
    deserialize: string -> Option<Items<Value>>,
    deliveries: seq<Delivery>,
    smtp: nat -> SmtpServer)

  /** `bind_and_call(func, data)` up to the call: the keys are bound as they
      are, with no renaming. */
  function LegacyBind<V>(sig: Util.Signature, data: Items<V>): (r: Result<map<string, V>, BindError>)
    ensures r.Ok? ==> r.value == ToMap(data)
  {
    Util.Bind(sig, ToMap(data))
  }

  /** A key spelled with `-` is refused by a function whose parameters have
      no `-` in their names: it is not rewritten to `_`. */
  lemma DashedKeyRejected<V>(sig: Util.Signature, data: Items<V>, j: nat)
    requires forall i :: 0 <= i < |sig| ==> '-' !in sig[i].name
    requires j < |data| && '-' in data[j].0
    ensures LegacyBind(sig, data).Err?
  {
    assert data[j].0 in Keys(data);
    assert data[j].0 !in Util.ParamNames(sig);
  }

  /** Where no key holds a `-` the two binders agree. */
  lemma AgreesWithoutDashes<V>(sig: Util.Signature, data: Items<V>)
    requires forall i :: 0 <= i < |data| ==> '-' !in data[i].0
    ensures LegacyBind(sig, data) == Util.BindAndCall(sig, data)
  {
    Util.NormalizedWithoutDashes(data);
  }

  /** `sendemail(fromaddr, toaddrs, msg)` */
  function SendEmailSignature(): Util.Signature
  {
    [Util.Param("fromaddr", true), Util.Param("toaddrs", true), Util.Param("msg", true)]
  }

  /** `publish(fromaddr, toaddrs, msg)` */
  function PublishSignature(): Util.Signature
  {
    [Util.Param("fromaddr", true), Util.Param("toaddrs", true), Util.Param("msg", true)]
  }

  /** `start()` */
  function StartSignature(): Util.Signature
  {
    []
  }

  /** A successful binding to a function with parameters fromaddr, toaddrs
      and msg supplies all three. */
  lemma BoundMessageArguments<V>(sig: Util.Signature, data: Items<V>)
    requires sig == SendEmailSignature()
    requires LegacyBind(sig, data).Ok?
    ensures var kw := LegacyBind(sig, data).value;
      kw.Keys == {"fromaddr", "toaddrs", "msg"}
  {
    assert sig[0].name == "fromaddr" && sig[1].name == "toaddrs" && sig[2].name == "msg";
    assert sig[0].required && sig[1].required && sig[2].required;
    assert Util.ParamNames(sig) == {"fromaddr", "toaddrs", "msg"};
  }

  /** The three SMTP steps of `smtplib.SMTP(host)`, `sendmail`, `quit`. */
  function FullSendmail(host: Value, fromaddr: Value, toaddrs: Value, msg: Value): seq<Event>
  {
    [SmtpConnect(host), SmtpSendmail(fromaddr, toaddrs, msg), SmtpQuit]
  }

  /** One SMTP session: each step happens only if the earlier ones returned. */
  function SendmailSession(host: Value, fromaddr: Value, toaddrs: Value, msg: Value, server: SmtpServer): (o: Outcome)
    ensures 1 <= |o.events| <= 3 && o.events == FullSendmail(host, fromaddr, toaddrs, msg)[..|o.events|]
    ensures o.raised == FirstFailure(server)
    ensures o.raised.None? ==> o.events == FullSendmail(host, fromaddr, toaddrs, msg)
  {
    if server.onConnect.Some? then Outcome([SmtpConnect(host)], server.onConnect)
    else if server.onSend.Some? then Outcome([SmtpConnect(host), SmtpSendmail(fromaddr, toaddrs, msg)], server.onSend)
    else Outcome(FullSendmail(host, fromaddr, toaddrs, msg), server.onQuit)
  }

  /** `sendemail(fromaddr, toaddrs, msg)` with the parser holding `ini`:
      without a true `dryrun` one session with `smtp_host`, then the send is
      logged; an exception on the way ends it. */
  function SendEmailOutcome(ini: IniFile, server: SmtpServer, fromaddr: Value, toaddrs: Value, msg: Value): Outcome
  {
    match Dryrun(ini)
    case Err(e) => Outcome([], Some(e))
    case Ok(dryrun) =>
      if dryrun == Some(true) then Outcome([SendLogged(fromaddr, toaddrs, msg)], None)
      else
        match Setting(ini, "smtp_host")
        case Err(e) => Outcome([], Some(e))
        case Ok(host) =>
          var session := SendmailSession(Str(host), fromaddr, toaddrs, msg, server);
          if session.raised.Some? then session
          else Outcome(session.events + [SendLogged(fromaddr, toaddrs, msg)], None)
  }

  /** Under a true `dryrun` no SMTP session is opened and the send is only
      logged; otherwise the session goes to `smtp_host`, and a send that
      went through is logged after it. */
  lemma DryrunGate(ini: IniFile, server: SmtpServer, fromaddr: Value, toaddrs: Value, msg: Value)
    ensures var o := SendEmailOutcome(ini, server, fromaddr, toaddrs, msg);
      && (Dryrun(ini) == Ok(Some(true)) ==> o == Outcome([SendLogged(fromaddr, toaddrs, msg)], None))
      && (Dryrun(ini).Ok? && Dryrun(ini) != Ok(Some(true)) && Setting(ini, "smtp_host").Ok? ==>
            o.events[0] == SmtpConnect(Str(Setting(ini, "smtp_host").value)))
      && (o.raised.None? ==> |o.events| > 0 && o.events[|o.events| - 1] == SendLogged(fromaddr, toaddrs, msg))
  {
    var o := SendEmailOutcome(ini, server, fromaddr, toaddrs, msg);
    if Dryrun(ini).Ok? && Dryrun(ini) != Ok(Some(true)) && Setting(ini, "smtp_host").Ok? {
      var session := SendmailSession(Str(Setting(ini, "smtp_host").value), fromaddr, toaddrs, msg, server);
      if session.raised.None? {
        assert o.events == session.events + [SendLogged(fromaddr, toaddrs, msg)];
      }
    }
  }

  /** With a clean SMTP server and a false `dryrun`, the email goes out in
      one full session and is then logged. */
  lemma SendsWhenNotDryrun(ini: IniFile, fromaddr: Value, toaddrs: Value, msg: Value)
    requires Dryrun(ini) == Ok(Some(false)) && Setting(ini, "smtp_host").Ok?
    ensures SendEmailOutcome(ini, SmtpServer(None, None, None), fromaddr, toaddrs, msg) ==
      Outcome(FullSendmail(Str(Setting(ini, "smtp_host").value), fromaddr, toaddrs, msg) +
              [SendLogged(fromaddr, toaddrs, msg)], None)
  {
  }

  /** `sendemail` never acknowledges a delivery. */
  lemma SendAcksNothing(ini: IniFile, server: SmtpServer, fromaddr: Value, toaddrs: Value, msg: Value)
    ensures AckedTags(SendEmailOutcome(ini, server, fromaddr, toaddrs, msg).events) == []
  {
    var e := SendEmailOutcome(ini, server, fromaddr, toaddrs, msg).events;
    forall i | 0 <= i < |e| ensures !e[i].BasicAck? {
    }
    NoAckedTags(e);
  }

  /** The body `publish` serializes: exactly fromaddr, toaddrs and msg. */
  function PublishPayload(fromaddr: Value, toaddrs: Value, msg: Value): Value
  {
    Dict(map["fromaddr" := fromaddr, "toaddrs" := toaddrs, "msg" := msg])
  }

  /** `publish(fromaddr, toaddrs, msg)`: `rabbitmq_host` is looked up before
      connecting and `queue_name` after; one message goes to the default
      exchange `''` with the queue name as routing key. */
  function PublishOutcome(ini: IniFile, serialize: Value -> string, fromaddr: Value, toaddrs: Value, msg: Value): Outcome
  {
    match Setting(ini, "rabbitmq_host")
    case Err(e) => Outcome([], Some(e))
    case Ok(host) =>
      var connect := BrokerConnect(ConnectionParams(Str(host), None, None));
      match Setting(ini, "queue_name")
      case Err(e) => Outcome([connect], Some(e))
      case Ok(queue) =>
        Outcome([connect, BasicPublish(Str(""), Str(queue), serialize(PublishPayload(fromaddr, toaddrs, msg))), ChannelClose], None)
  }

  /** A publish that goes through sends exactly one message, to exchange
      `''` with routing key `queue_name`, whose body holds exactly the keys
      fromaddr, toaddrs and msg; a missing setting stops it with KeyError. */
  lemma PublishShape(ini: IniFile, serialize: Value -> string, fromaddr: Value, toaddrs: Value, msg: Value)
    ensures var o := PublishOutcome(ini, serialize, fromaddr, toaddrs, msg);
      && (o.raised.None? <==> Setting(ini, "rabbitmq_host").Ok? && Setting(ini, "queue_name").Ok?)
      && (o.raised.Some? ==> o.raised.value.Error? && o.raised.value.kind.KeyError?)
      && (o.raised.None? ==>
            && |o.events| == 3
            && o.events[1] == BasicPublish(Str(""), Str(Setting(ini, "queue_name").value),
                                           serialize(PublishPayload(fromaddr, toaddrs, msg)))
            && PublishPayload(fromaddr, toaddrs, msg).entries.Keys == {"fromaddr", "toaddrs", "msg"})
  {
  }

  /** Whatever `publish` sends binds to `sendemail` with the same values,
      once decoded into any item list holding that mapping. */
  lemma PublishedPayloadBinds(fromaddr: Value, toaddrs: Value, msg: Value, d: Items<Value>)
    requires ToMap(d) == PublishPayload(fromaddr, toaddrs, msg).entries
    ensures LegacyBind(SendEmailSignature(), d) == Ok(map["fromaddr" := fromaddr, "toaddrs" := toaddrs, "msg" := msg])
  {
    var sig := SendEmailSignature();
    assert sig[0].name == "fromaddr" && sig[1].name == "toaddrs" && sig[2].name == "msg";
    assert Util.ParamNames(sig) == {"fromaddr", "toaddrs", "msg"};
  }

  /** `worker(channel, method, properties, body)` for a body that decodes to
      `payload`: bind it to `sendemail`, send, and only then acknowledge.
      Every exception propagates, and then nothing is acknowledged. */
  function WorkerOutcome(ini: IniFile, tag: nat, payload: Option<Items<Value>>, server: SmtpServer): Outcome
  {
    match payload
    case None => Outcome([], Some(Error(DecodeError)))
    case Some(d) =>
      match LegacyBind(SendEmailSignature(), d)
      case Err(why) => Outcome([], Some(Error(BindingFailed(why))))
      case Ok(kw) =>
        BoundMessageArguments(SendEmailSignature(), d);
        var sent := SendEmailOutcome(ini, server, kw["fromaddr"], kw["toaddrs"], kw["msg"]);
        if sent.raised.Some? then sent
        else Outcome(sent.events + [BasicAck(tag)], None)
  }

  /** The legacy worker acknowledges a delivery exactly when it handled it
      without an exception, and then as its last step. */
  lemma AcksOnlyAfterSuccess(ini: IniFile, tag: nat, payload: Option<Items<Value>>, server: SmtpServer)
    ensures var o := WorkerOutcome(ini, tag, payload, server);
      && AckedTags(o.events) == (if o.raised.None? then [tag] else [])
      && (o.raised.None? ==> o.events[|o.events| - 1] == BasicAck(tag))
  {
    var o := WorkerOutcome(ini, tag, payload, server);
    if payload.None? || LegacyBind(SendEmailSignature(), payload.value).Err? {
      assert o.events == [];
    } else {
      var d := payload.value;
      var kw := LegacyBind(SendEmailSignature(), d).value;
      BoundMessageArguments(SendEmailSignature(), d);
      var sent := SendEmailOutcome(ini, server, kw["fromaddr"], kw["toaddrs"], kw["msg"]);
      SendAcksNothing(ini, server, kw["fromaddr"], kw["toaddrs"], kw["msg"]);
      if sent.raised.None? {
        AckedTagsAppend(sent.events, [BasicAck(tag)]);
        assert AckedTags([BasicAck(tag)]) == [tag] + AckedTags([]);
      }
    }
  }

  /** The two acknowledgement policies side by side: the package worker
      acknowledges every delivery, first thing; the legacy worker only
      those it handled, last thing. A body that does not decode is
      acknowledged by the first and not by the second. */
  lemma AckPolicies(smtpHost: Value, ini: IniFile, tag: nat, payload: Option<Items<Value>>, server: SmtpServer)
    ensures var o := WorkerModel.AckAndSendEmailOutcome(smtpHost, tag, payload, server);
      AckedTags(o.events) == [tag] && o.events[0] == BasicAck(tag)
    ensures var o := WorkerOutcome(ini, tag, payload, server);
      (AckedTags(o.events) == [tag] <==> o.raised.None?) &&
      (o.raised.None? ==> o.events[|o.events| - 1] == BasicAck(tag))
    ensures payload.None? ==> AckedTags(WorkerOutcome(ini, tag, payload, server).events) == []
  {
    WorkerModel.AcksExactlyOnce(smtpHost, tag, payload, server);
    AcksOnlyAfterSuccess(ini, tag, payload, server);
  }

  /** `channel.start_consuming()` under `start`'s handler from delivery `i`
      on: a KeyboardInterrupt from the callback, or the operator's interrupt
      once the deliveries are exhausted, closes the channel; any other
      exception escapes with the channel open. */
  function ConsumeOutcome(ini: IniFile, deserializer: string -> Option<Items<Value>>,
                          ds: seq<Delivery>, smtp: nat -> SmtpServer, i: nat): Outcome
    decreases |ds| - i
  {
    if i >= |ds| then Outcome([ChannelClose], None)
    else
      var cb := WorkerOutcome(ini, ds[i].tag, deserializer(ds[i].body), smtp(i));
      if cb.raised == Some(KeyboardInterrupt) then Outcome(cb.events + [ChannelClose], None)
      else if cb.raised.Some? then cb
      else
        var rest := ConsumeOutcome(ini, deserializer, ds, smtp, i + 1);
        Outcome(cb.events + rest.events, rest.raised)
  }

  /** One turn of the consume loop, as the callback's outcome decides it. */
  lemma ConsumeStep(ini: IniFile, deserializer: string -> Option<Items<Value>>,
                    ds: seq<Delivery>, smtp: nat -> SmtpServer, i: nat)
    requires i < |ds|
    ensures var cb := WorkerOutcome(ini, ds[i].tag, deserializer(ds[i].body), smtp(i));
      var o := ConsumeOutcome(ini, deserializer, ds, smtp, i);
      var rest := ConsumeOutcome(ini, deserializer, ds, smtp, i + 1);
      && (cb.raised == Some(KeyboardInterrupt) ==> o == Outcome(cb.events + [ChannelClose], None))
      && (cb.raised.Some? && cb.raised != Some(KeyboardInterrupt) ==> o == cb)
      && (cb.raised.None? ==> o == Outcome(cb.events + rest.events, rest.raised))
  {
  }

  /** The tags one turn acknowledges: the delivery's own when it was
      handled, followed by those of the later turns. */
  lemma ConsumeAcks(ini: IniFile, deserializer: string -> Option<Items<Value>>,
                    ds: seq<Delivery>, smtp: nat -> SmtpServer, i: nat)
    requires i < |ds|
    ensures var cb := WorkerOutcome(ini, ds[i].tag, deserializer(ds[i].body), smtp(i));
      var rest := ConsumeOutcome(ini, deserializer, ds, smtp, i + 1);
      AckedTags(ConsumeOutcome(ini, deserializer, ds, smtp, i).events) ==
        if cb.raised.None? then [ds[i].tag] + AckedTags(rest.events) else []
  {
    var cb := WorkerOutcome(ini, ds[i].tag, deserializer(ds[i].body), smtp(i));
    var rest := ConsumeOutcome(ini, deserializer, ds, smtp, i + 1);
    ConsumeStep(ini, deserializer, ds, smtp, i);
    AcksOnlyAfterSuccess(ini, ds[i].tag, deserializer(ds[i].body), smtp(i));
    if cb.raised == Some(KeyboardInterrupt) {
      AckedTagsAppend(cb.events, [ChannelClose]);
      NoAckedTags([ChannelClose]);
    } else if cb.raised.None? {
      AckedTagsAppend(cb.events, rest.events);
    }
  }

  /** Deliveries are acknowledged in the order they arrive, each at most
      once, and never past the first one that failed. */
  lemma {:induction false} AckedTagsArePrefix(ini: IniFile, deserializer: string -> Option<Items<Value>>,
                                             ds: seq<Delivery>, smtp: nat -> SmtpServer, i: nat)
    requires i <= |ds|
    ensures AckedTags(ConsumeOutcome(ini, deserializer, ds, smtp, i).events) <= WorkerModel.Tags(ds[i..])
    decreases |ds| - i
  {
    var o := ConsumeOutcome(ini, deserializer, ds, smtp, i);
    if i == |ds| {
      NoAckedTags(o.events);
    } else {
      var cb := WorkerOutcome(ini, ds[i].tag, deserializer(ds[i].body), smtp(i));
      var rest := ConsumeOutcome(ini, deserializer, ds, smtp, i + 1);
      ConsumeAcks(ini, deserializer, ds, smtp, i);
      WorkerModel.TagsFrom(ds, i);
      if cb.raised.None? {
        AckedTagsArePrefix(ini, deserializer, ds, smtp, i + 1);
        WorkerModel.PrefixCons(ds[i].tag, AckedTags(rest.events), WorkerModel.Tags(ds[i + 1..]));
      }
    }
  }

  /** A delivery whose handling raises an Exception is left unacknowledged
      and stops the worker: nothing of that turn is acknowledged and no
      later delivery is handled. */
  lemma FailureStopsUnacked(ini: IniFile, deserializer: string -> Option<Items<Value>>,
                            ds: seq<Delivery>, smtp: nat -> SmtpServer, i: nat)
    requires i < |ds|
    requires var cb := WorkerOutcome(ini, ds[i].tag, deserializer(ds[i].body), smtp(i));
      cb.raised.Some? && cb.raised != Some(KeyboardInterrupt)
    ensures var o := ConsumeOutcome(ini, deserializer, ds, smtp, i);
      o == WorkerOutcome(ini, ds[i].tag, deserializer(ds[i].body), smtp(i)) && AckedTags(o.events) == []
  {
    ConsumeAcks(ini, deserializer, ds, smtp, i);
  }

  /** An undecodable body stops the legacy worker without an acknowledgement. */
  lemma MalformedBodyUnacked(ini: IniFile, deserializer: string -> Option<Items<Value>>,
                             ds: seq<Delivery>, smtp: nat -> SmtpServer, i: nat)
    requires i < |ds| && deserializer(ds[i].body).None?
    ensures ConsumeOutcome(ini, deserializer, ds, smtp, i) == Outcome([], Some(Error(DecodeError)))
  {
  }

  /** `start()`: look up `rabbitmq_host`, connect, look up `queue_name`,
      declare the queue durable, register the callback, consume. */
  function StartOutcome(ini: IniFile, deserializer: string -> Option<Items<Value>>,
                        ds: seq<Delivery>, smtp: nat -> SmtpServer): Outcome
  {
    match Setting(ini, "rabbitmq_host")
    case Err(e) => Outcome([], Some(e))
    case Ok(host) =>
      var connect := BrokerConnect(ConnectionParams(Str(host), None, None));
      match Setting(ini, "queue_name")
      case Err(e) => Outcome([connect], Some(e))
      case Ok(queue) =>
        var consume := ConsumeOutcome(ini, deserializer, ds, smtp, 0);
        Outcome([connect, QueueDeclare(Str(queue), true), BasicConsume(Str(queue))] + consume.events, consume.raised)
  }

  /** With both settings present, `start` declares the queue durable before
      registering the consumer, and everything else comes from the loop. */
  lemma StartDeclaresDurable(ini: IniFile, deserializer: string -> Option<Items<Value>>,
                             ds: seq<Delivery>, smtp: nat -> SmtpServer)
    requires Setting(ini, "rabbitmq_host").Ok? && Setting(ini, "queue_name").Ok?
    ensures var o := StartOutcome(ini, deserializer, ds, smtp);
      var queue := Str(Setting(ini, "queue_name").value);
      && o.events[..3] == [BrokerConnect(ConnectionParams(Str(Setting(ini, "rabbitmq_host").value), None, None)),
                           QueueDeclare(queue, true), BasicConsume(queue)]
      && o.events[3..] == ConsumeOutcome(ini, deserializer, ds, smtp, 0).events
      && o.raised == ConsumeOutcome(ini, deserializer, ds, smtp, 0).raised
  {
  }

  /** The consume loop either closes the channel after an interrupt, with
      nothing escaping, or lets an Exception escape. */
  lemma {:induction false} ConsumeEnds(ini: IniFile, deserializer: string -> Option<Items<Value>>,
                                       ds: seq<Delivery>, smtp: nat -> SmtpServer, i: nat)
    ensures var o := ConsumeOutcome(ini, deserializer, ds, smtp, i);
      && (o.raised.Some? ==> o.raised.value.Error?)
      && (o.raised.None? ==> |o.events| > 0 && o.events[|o.events| - 1] == ChannelClose)
    decreases |ds| - i
  {
    if i < |ds| {
      var cb := WorkerOutcome(ini, ds[i].tag, deserializer(ds[i].body), smtp(i));
      ConsumeStep(ini, deserializer, ds, smtp, i);
      if cb.raised == Some(KeyboardInterrupt) {
        WorkerModel.LastOfAppend(cb.events, [ChannelClose]);
      } else if cb.raised.None? {
        var rest := ConsumeOutcome(ini, deserializer, ds, smtp, i + 1);
        ConsumeEnds(ini, deserializer, ds, smtp, i + 1);
        WorkerModel.LastOfAppend(cb.events, rest.events);
      }
    }
  }

  /** Where `main` stands before calling the selected function: it stopped
      with an exception (`Stopped`), or it is about to bind `func` to the
      namespace (`Calling`); `config` is the parser's state either way. */
  datatype Stage =
    | Stopped(config: IniFile, ns: Items<Arg>, raised: Exc)
    | Calling(config: IniFile, func: Arg, ns: Items<Arg>)

  /** `main()` after `parse_args()` returned `ns`, with the parser holding
      `config`: a missing sub-command is a usage error; otherwise `setup()`,
      then `dryrun` is stored as 'yes' or 'no' in the `emailworker`
      section, and `dryrun` and `func` are deleted from the namespace. */
  function MainStage(env: Env, config: IniFile, ns: Items<Arg>): Stage
  {
    if "func" !in Keys(ns) then Stopped(config, ns, Error(UsageError))
    else
      var loaded := ReadFiles(env.read, config, ConfigFiles);
      if "dryrun" !in Keys(ns) then Stopped(loaded, ns, Error(AttributeError("dryrun")))
      else if AppSection !in loaded.sections then Stopped(loaded, ns, Error(KeyError(AppSection)))
      else
        var flagged := SetOption(loaded, "dryrun", FlagText(Truthy(ArgValue(Get(ns, "dryrun").value))));
        Calling(flagged, Get(ns, "func").value, Remove(Remove(ns, "dryrun"), "func"))
  }

  /** `bind_and_call(func, vars(args))` with the parser holding `config`. */
  function CallOutcome(env: Env, config: IniFile, func: Arg, args: Items<Arg>): Outcome
  {
    match func
    case Val(_) => Outcome([], Some(Error(TypeError("not callable"))))
    case Func(Publish) =>
      (match LegacyBind(PublishSignature(), args)
       case Err(why) => Outcome([], Some(Error(BindingFailed(why))))
       case Ok(kw) =>
         BoundMessageArguments(PublishSignature(), args);
         PublishOutcome(config, env.serialize, ArgValue(kw["fromaddr"]), ArgValue(kw["toaddrs"]), ArgValue(kw["msg"])))
    case Func(Start) =>
      match LegacyBind(StartSignature(), args)
      case Err(why) => Outcome([], Some(Error(BindingFailed(why))))
      case Ok(_) => StartOutcome(config, env.deserialize, env.deliveries, env.smtp)
  }

  /** What `main()` does from the parsed namespace on. */
  function MainOutcome(env: Env, config: IniFile, ns: Items<Arg>): Outcome
  {
    match MainStage(env, config, ns)
    case Stopped(_, _, raised) => Outcome([], Some(raised))
    case Calling(c, func, args) => CallOutcome(env, c, func, args)
  }

  /** Without a sub-command `main` stops with a usage error before reading
      any configuration, and does nothing else. */
  lemma SubcommandRequired(env: Env, config: IniFile, ns: Items<Arg>)
    requires "func" !in Keys(ns)
    ensures MainStage(env, config, ns).config == config
    ensures MainOutcome(env, config, ns) == Outcome([], Some(Error(UsageError)))
  {
  }

  /** When `main` gets as far as the call, the parser's `dryrun` option is
      'yes' or 'no' as the flag was given, and `getboolean` reads the flag
      back; every other setting is the one `setup()` read. */
  lemma DryrunStored(env: Env, config: IniFile, ns: Items<Arg>)
    requires MainStage(env, config, ns).Calling?
    ensures var c := MainStage(env, config, ns).config;
      var flag := Truthy(ArgValue(Get(ns, "dryrun").value));
      && Setting(c, "dryrun") == Ok(if flag then "yes" else "no")
      && Dryrun(c) == Ok(Some(flag))
      && forall o :: o != "dryrun" ==> Setting(c, o) == Setting(ReadFiles(env.read, config, ConfigFiles), o)
  {
    var loaded := ReadFiles(env.read, config, ConfigFiles);
    DryrunRoundTrip(loaded, Truthy(ArgValue(Get(ns, "dryrun").value)));
  }

  /** With `--dryrun` every email the started worker handles is only logged. */
  lemma DryrunFlagSkipsSmtp(env: Env, config: IniFile, ns: Items<Arg>, server: SmtpServer,
                            fromaddr: Value, toaddrs: Value, msg: Value)
    requires MainStage(env, config, ns).Calling?
    requires Truthy(ArgValue(Get(ns, "dryrun").value))
    ensures SendEmailOutcome(MainStage(env, config, ns).config, server, fromaddr, toaddrs, msg) ==
            Outcome([SendLogged(fromaddr, toaddrs, msg)], None)
  {
    DryrunStored(env, config, ns);
  }

  /** `dryrun` and `func` are deleted before binding; every other attribute
      reaches the function unchanged. */
  lemma ArgumentsForwarded(env: Env, config: IniFile, ns: Items<Arg>, k: string)
    requires DistinctKeys(ns)
    requires MainStage(env, config, ns).Calling?
    ensures var args := MainStage(env, config, ns).ns;
      && DistinctKeys(args)
      && Keys(args) == Keys(ns) - {"dryrun", "func"}
      && (k != "dryrun" && k != "func" ==> Get(args, k) == Get(ns, k))
  {
    RemoveDistinct(ns, "dryrun");
    RemoveDistinct(Remove(ns, "dryrun"), "func");
  }

  /** `emailworker start` runs the consumer with the configuration `setup()`
      read and the `dryrun` flag stored. */
  lemma StartCommand(env: Env, config: IniFile, ns: Items<Arg>)
    requires DistinctKeys(ns)
    requires Keys(ns) == {"func", "dryrun"} && Get(ns, "func") == Some(Func(Start))
    requires AppSection in ReadFiles(env.read, config, ConfigFiles).sections
    ensures MainStage(env, config, ns).Calling?
    ensures MainOutcome(env, config, ns) ==
            StartOutcome(MainStage(env, config, ns).config, env.deserialize, env.deliveries, env.smtp)
  {
    var stage := MainStage(env, config, ns);
    ArgumentsForwarded(env, config, ns, "func");
    assert stage.func == Func(Start);
    assert Keys(stage.ns) == {} by {
      StartKeysGone(Keys(ns), Keys(stage.ns));
    }
    assert LegacyBind(StartSignature(), stage.ns) == Ok(map[]);
  }

  /** Deleting `dryrun` and `func` from a `start` namespace leaves nothing. */
  lemma StartKeysGone(parsed: set<string>, args: set<string>)
    requires parsed == {"func", "dryrun"}
    requires args == parsed - {"dryrun", "func"}
    ensures args == {}
  {
  }

  /** `emailworker publish FROM TO MSG` publishes exactly those three values. */
  lemma PublishCommand(env: Env, config: IniFile, ns: Items<Arg>)
    requires DistinctKeys(ns)
    requires Keys(ns) == {"func", "dryrun", "fromaddr", "toaddrs", "msg"} && Get(ns, "func") == Some(Func(Publish))
    requires AppSection in ReadFiles(env.read, config, ConfigFiles).sections
    ensures MainStage(env, config, ns).Calling?
    ensures MainOutcome(env, config, ns) ==
            PublishOutcome(MainStage(env, config, ns).config, env.serialize, ArgValue(Get(ns, "fromaddr").value),
                           ArgValue(Get(ns, "toaddrs").value), ArgValue(Get(ns, "msg").value))
  {
    var stage := MainStage(env, config, ns);
    var args := stage.ns;
    ArgumentsForwarded(env, config, ns, "fromaddr");
    ArgumentsForwarded(env, config, ns, "toaddrs");
    ArgumentsForwarded(env, config, ns, "msg");
    PublishKeys(Keys(ns), Keys(args));
    PublishArguments(args);
    ToMapGet(args, "fromaddr");
    ToMapGet(args, "toaddrs");
    ToMapGet(args, "msg");
  }

  /** The attributes of `publish` left once `dryrun` and `func` are gone. */
  lemma PublishKeys(parsed: set<string>, args: set<string>)
    requires parsed == {"func", "dryrun", "fromaddr", "toaddrs", "msg"}
    requires args == parsed - {"dryrun", "func"}
    ensures args == {"fromaddr", "toaddrs", "msg"}
  {
  }

  /** A namespace holding exactly fromaddr, toaddrs and msg binds to `publish`. */
  lemma PublishArguments(args: Items<Arg>)
    requires DistinctKeys(args) && Keys(args) == {"fromaddr", "toaddrs", "msg"}
    ensures LegacyBind(PublishSignature(), args) == Ok(ToMap(args))
  {
    var sig := PublishSignature();
    assert sig[0].name == "fromaddr" && sig[1].name == "toaddrs" && sig[2].name == "msg";
    assert Util.ParamNames(sig) == {"fromaddr", "toaddrs", "msg"};
  }

  /** The module-level `config` parser and the entry points that use it. */
  class App {
    var config: IniFile

    /** `config = ConfigParser(interpolation=None)`: nothing read yet. */
    constructor()
      ensures config == IniFile(map[], map[])
    {
      config := IniFile(map[], map[]);
    }

    /** `setup()`: `config.read(['default.cfg', 'instance/config.cfg'])`. */
    method Setup(env: Env)
      modifies this
      ensures config == ReadFiles(env.read, old(config), ConfigFiles)
    {
      ghost var start := config;
      for i := 0 to |ConfigFiles|
        invariant config == ReadFiles(env.read, start, ConfigFiles[..i])
      {
        assert ConfigFiles[..i + 1][..i] == ConfigFiles[..i];
        config := ReadInto(config, env.read(ConfigFiles[i]));
      }
      assert ConfigFiles[..|ConfigFiles|] == ConfigFiles;
    }

    /** `sendemail(fromaddr, toaddrs, msg)` */
    method SendEmail(rt: Runtime, server: SmtpServer, fromaddr: Value, toaddrs: Value, msg: Value)
      returns (raised: Option<Exc>)
      modifies rt
      ensures var o := SendEmailOutcome(config, server, fromaddr, toaddrs, msg);
        rt.events == old(rt.events) + o.events && raised == o.raised
    {
      var dryrun := Dryrun(config);
      if dryrun.Err? {
        return Some(dryrun.error);
      }
      if dryrun.value != Some(true) {
        var host := Setting(config, "smtp_host");
        if host.Err? {
          return Some(host.error);
        }
        raised := Sendmail(rt, Str(host.value), server, fromaddr, toaddrs, msg);
        if raised.Some? {
          return;
        }
      }
      rt.Emit(SendLogged(fromaddr, toaddrs, msg));
      raised := None;
    }

    /** `server = smtplib.SMTP(host)`, `server.sendmail(...)`, `server.quit()` */
    method Sendmail(rt: Runtime, host: Value, server: SmtpServer, fromaddr: Value, toaddrs: Value, msg: Value)
      returns (raised: Option<Exc>)
      modifies rt
      ensures var o := SendmailSession(host, fromaddr, toaddrs, msg, server);
        rt.events == old(rt.events) + o.events && raised == o.raised
    {
      rt.Emit(SmtpConnect(host));
      if server.onConnect.Some? {
        return server.onConnect;
      }
      rt.Emit(SmtpSendmail(fromaddr, toaddrs, msg));
      if server.onSend.Some? {
        return server.onSend;
      }
      rt.Emit(SmtpQuit);
      raised := server.onQuit;
    }

    /** `publish(fromaddr, toaddrs, msg)` */
    method Publish(rt: Runtime, serialize: Value -> string, fromaddr: Value, toaddrs: Value, msg: Value)
      returns (raised: Option<Exc>)
      modifies rt
      ensures var o := PublishOutcome(config, serialize, fromaddr, toaddrs, msg);
        rt.events == old(rt.events) + o.events && raised == o.raised
    {
      var host := Setting(config, "rabbitmq_host");
      if host.Err? {
        return Some(host.error);
      }
      rt.Emit(BrokerConnect(ConnectionParams(Str(host.value), None, None)));
      var queue := Setting(config, "queue_name");
      if queue.Err? {
        return Some(queue.error);
      }
      rt.Emit(BasicPublish(Str(""), Str(queue.value), serialize(PublishPayload(fromaddr, toaddrs, msg))));
      rt.Emit(ChannelClose);
      raised := None;
    }

    /** `worker(channel, method, properties, body)` */
    method Worker(rt: Runtime, deserializer: string -> Option<Items<Value>>, server: SmtpServer, delivery: Delivery)
      returns (raised: Option<Exc>)
      modifies rt
      ensures var o := WorkerOutcome(config, delivery.tag, deserializer(delivery.body), server);
        rt.events == old(rt.events) + o.events && raised == o.raised
    {
      var payload := deserializer(delivery.body);
      if payload.None? {
        return Some(Error(DecodeError));
      }
      var bound := LegacyBind(SendEmailSignature(), payload.value);
      if bound.Err? {
        return Some(Error(BindingFailed(bound.error)));
      }
      var kw := bound.value;
      BoundMessageArguments(SendEmailSignature(), payload.value);
      raised := SendEmail(rt, server, kw["fromaddr"], kw["toaddrs"], kw["msg"]);
      if raised.None? {
        rt.Emit(BasicAck(delivery.tag));
      }
    }

    /** `start()` */
    method Start(rt: Runtime, deserializer: string -> Option<Items<Value>>, ds: seq<Delivery>, smtp: nat -> SmtpServer)
      returns (raised: Option<Exc>)
      modifies rt
      ensures var o := StartOutcome(config, deserializer, ds, smtp);
        rt.events == old(rt.events) + o.events && raised == o.raised
    {
      var host := Setting(config, "rabbitmq_host");
      if host.Err? {
        return Some(host.error);
      }
      rt.Emit(BrokerConnect(ConnectionParams(Str(host.value), None, None)));
      var queue := Setting(config, "queue_name");
      if queue.Err? {
        return Some(queue.error);
      }
      rt.Emit(QueueDeclare(Str(queue.value), true));
      rt.Emit(BasicConsume(Str(queue.value)));
      ghost var setup := [BrokerConnect(ConnectionParams(Str(host.value), None, None)),
                          QueueDeclare(Str(queue.value), true), BasicConsume(Str(queue.value))];
      assert rt.events == old(rt.events) + setup;
      ghost var consume := ConsumeOutcome(config, deserializer, ds, smtp, 0);
      assert StartOutcome(config, deserializer, ds, smtp) == Outcome(setup + consume.events, consume.raised);
      raised := StartConsuming(rt, deserializer, ds, smtp);
      AppendAssociative(old(rt.events), setup, consume.events);
    }

    /** `channel.start_consuming()` inside `start`'s interrupt handler. */
    method StartConsuming(rt: Runtime, deserializer: string -> Option<Items<Value>>, ds: seq<Delivery>, smtp: nat -> SmtpServer)
      returns (raised: Option<Exc>)
      modifies rt
      ensures var o := ConsumeOutcome(config, deserializer, ds, smtp, 0);
        rt.events == old(rt.events) + o.events && raised == o.raised
    {
      ghost var whole := ConsumeOutcome(config, deserializer, ds, smtp, 0);
      var i := 0;
      while i < |ds|
        invariant 0 <= i <= |ds|
        invariant rt.events + ConsumeOutcome(config, deserializer, ds, smtp, i).events == old(rt.events) + whole.events
        invariant ConsumeOutcome(config, deserializer, ds, smtp, i).raised == whole.raised
      {
        var stop, r := ConsumeTurn(rt, deserializer, ds, smtp, i);
        if stop {
          return r;
        }
        i := i + 1;
      }
      // the operator's interrupt once the broker has nothing more to deliver
      rt.Emit(ChannelClose);
      raised := None;
    }

    /** One delivery of the consume loop: the callback runs, and the loop
        stops after a KeyboardInterrupt, which closes the channel, or after
        any other exception, which escapes. */
    method ConsumeTurn(rt: Runtime, deserializer: string -> Option<Items<Value>>, ds: seq<Delivery>,
                       smtp: nat -> SmtpServer, i: nat)
      returns (stop: bool, raised: Option<Exc>)
      requires i < |ds|
      modifies rt
      ensures var o := ConsumeOutcome(config, deserializer, ds, smtp, i);
        var rest := ConsumeOutcome(config, deserializer, ds, smtp, i + 1);
        && (stop ==> rt.events == old(rt.events) + o.events && raised == o.raised)
        && (!stop ==> rt.events + rest.events == old(rt.events) + o.events && rest.raised == o.raised)
    {
      ghost var done := rt.events;
      ghost var cb := WorkerOutcome(config, ds[i].tag, deserializer(ds[i].body), smtp(i));
      ghost var rest := ConsumeOutcome(config, deserializer, ds, smtp, i + 1);
      ConsumeStep(config, deserializer, ds, smtp, i);
      var r := Worker(rt, deserializer, smtp(i), ds[i]);
      if r == Some(KeyboardInterrupt) {
        rt.Emit(ChannelClose);
        AppendAssociative(done, cb.events, [ChannelClose]);
        return true, None;
      } else if r.Some? {
        return true, r;
      }
      AppendAssociative(done, cb.events, rest.events);
      return false, None;
    }

    /** `main()` after `parser.parse_args()` returned `args`. */
    method RunMain(rt: Runtime, env: Env, args: Namespace<Command>) returns (raised: Option<Exc>)
      modifies this, rt, args
      ensures var s := MainStage(env, old(config), old(args.attrs));
        config == s.config && args.attrs == s.ns
      ensures var o := MainOutcome(env, old(config), old(args.attrs));
        rt.events == old(rt.events) + o.events && raised == o.raised
    {
      if "func" !in Keys(args.attrs) {
        return Some(Error(UsageError));
      }
      Setup(env);
      if "dryrun" !in Keys(args.attrs) {
        return Some(Error(AttributeError("dryrun")));
      }
      var flag := Truthy(ArgValue(Get(args.attrs, "dryrun").value));
      if AppSection !in config.sections {
        return Some(Error(KeyError(AppSection)));
      }
      config := SetOption(config, "dryrun", FlagText(flag));
      args.attrs := Remove(args.attrs, "dryrun");
      var func := Get(args.attrs, "func").value;
      args.attrs := Remove(args.attrs, "func");
      raised := Call(rt, env, func, args.attrs);
    }

    /** `bind_and_call(func, vars(args))` */
    method Call(rt: Runtime, env: Env, func: Arg, args: Items<Arg>) returns (raised: Option<Exc>)
      modifies rt
      ensures var o := CallOutcome(env, config, func, args);
        rt.events == old(rt.events) + o.events && raised == o.raised
    {
      if func.Val? {
        return Some(Error(TypeError("not callable")));
      }
      if func.cmd.Publish? {
        var bound := LegacyBind(PublishSignature(), args);
        if bound.Err? {
          return Some(Error(BindingFailed(bound.error)));
        }
        BoundMessageArguments(PublishSignature(), args);
        raised := Publish(rt, env.serialize, ArgValue(bound.value["fromaddr"]), ArgValue(bound.value["toaddrs"]),
                          ArgValue(bound.value["msg"]));
      } else {
        var bound := LegacyBind(StartSignature(), args);
        if bound.Err? {
          return Some(Error(BindingFailed(bound.error)));
        }
        raised := Start(rt, env.deserialize, env.deliveries, env.smtp);
      }
    }
  }
}
