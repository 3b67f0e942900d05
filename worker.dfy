/**
 * emailworker/worker.py: the dispatch worker. Each delivery is acknowledged
 * first, then decoded, given the configured SMTP host and bound to
 * `sendemail`; an Exception raised by binding or sending is logged and
 * dropped. The broker's consume loop (`start_consuming`) is modelled as the
 * processing of a finite sequence of deliveries ended by an operator
 * interrupt.
 */
module WorkerModel {
  import opened Types
  import opened Dicts
  import opened Effects
  import Util
  import Email

  /** The six values a Worker is constructed with. */
  datatype Settings = Settings(rabbitmqHost: Value, rabbitmqVirtualHost: Value, rabbitmqUsername: Value,
                               rabbitmqPassword: Value, queue: Value, smtpHost: Value)

  /** The keyword mapping handed to the binder: the decoded payload with `host`
      set to the worker's SMTP host. */
  function WithSmtpHost(payload: Items<Value>, smtpHost: Value): (kwargs: Items<Value>)
  {
    Assign(payload, "host", smtpHost)
  }

  /** The mapping handed to the binder is the payload with `host` set to the
      SMTP host, every other key unchanged, before and after normalisation. */
  lemma HostOverride(payload: Items<Value>, smtpHost: Value)
    requires DistinctKeys(payload)
    ensures ToMap(WithSmtpHost(payload, smtpHost)) == ToMap(payload)["host" := smtpHost]
    ensures Util.NormalizedArguments(WithSmtpHost(payload, smtpHost)) ==
            Util.NormalizedArguments(payload)["host" := smtpHost]
  {
    ToMapAssign(payload, "host", smtpHost);
    assert '-' !in "host" && '_' !in "host";
    Util.NormalizeAssign(payload, "host", smtpHost);
  }

  /** The effects of the `sendemail` call made with the bound keywords `kw`
      after delivery `tag` was acknowledged: an Exception from the session is
      logged and dropped, a KeyboardInterrupt escapes. */
  function SendStep(tag: nat, kw: map<string, Value>, server: SmtpServer): (o: Outcome)
    requires "host" in kw && "fromaddr" in kw && "toaddrs" in kw && "body" in kw
    ensures o.raised.None? <==> !kw["body"].Str? || FirstFailure(server) != Some(KeyboardInterrupt)
    ensures o.raised.Some? ==> o.raised == Some(KeyboardInterrupt)
  {
    var sent := Email.SendEmailOutcome(kw["host"], kw["fromaddr"], kw["toaddrs"], kw["body"], Email.SubjectArgument(kw), server);
    Outcome([BasicAck(tag)] + sent.events,
            if sent.raised == Some(KeyboardInterrupt) then sent.raised else None)
  }

  /** What `ack_and_send_email` does with one delivery whose body decodes to
      `payload` (None when the body is not JSON describing an object). */
  function AckAndSendEmailOutcome(smtpHost: Value, tag: nat, payload: Option<Items<Value>>, server: SmtpServer): (o: Outcome)
    ensures |o.events| >= 1 && o.events[0] == BasicAck(tag)
    ensures o.raised.Some? ==> o.raised == Some(KeyboardInterrupt) || (payload.None? && o.raised == Some(Error(DecodeError)))
    ensures payload.None? <==> o.raised == Some(Error(DecodeError))
  {
    match payload
    case None =>
      Outcome([BasicAck(tag)], Some(Error(DecodeError)))
    case Some(d) =>
      match Util.BindAndCall(Email.SendEmailSignature(), WithSmtpHost(d, smtpHost))
      case Err(_) =>
        Outcome([BasicAck(tag)], None)
      case Ok(kw) =>
        Email.BoundSendEmailArguments(WithSmtpHost(d, smtpHost), kw);
        SendStep(tag, kw, server)
  }

  /** Every delivery is acknowledged exactly once, whatever happens after. */
  lemma AcksExactlyOnce(smtpHost: Value, tag: nat, payload: Option<Items<Value>>, server: SmtpServer)
    ensures AckedTags(AckAndSendEmailOutcome(smtpHost, tag, payload, server).events) == [tag]
  {
    var o := AckAndSendEmailOutcome(smtpHost, tag, payload, server);
    if |o.events| == 1 {
      assert o.events == [BasicAck(tag)] + [];
    } else {
      var kw := Util.BindAndCall(Email.SendEmailSignature(), WithSmtpHost(payload.value, smtpHost)).value;
      Email.BoundSendEmailArguments(WithSmtpHost(payload.value, smtpHost), kw);
      var subject := Email.SubjectArgument(kw);
      SendAcksNothing(kw["host"], kw["fromaddr"], kw["toaddrs"], kw["body"], subject, server);
      AckedTagsAppend([BasicAck(tag)],
                      Email.SendEmailOutcome(kw["host"], kw["fromaddr"], kw["toaddrs"], kw["body"], subject, server).events);
    }
  }

  /** A `sendemail` call acknowledges nothing, whether or not it gets as far
      as a session. */
  lemma SendAcksNothing(host: Value, fromaddr: Value, toaddrs: Value, body: Value, subject: Value, server: SmtpServer)
    ensures AckedTags(Email.SendEmailOutcome(host, fromaddr, toaddrs, body, subject, server).events) == []
  {
    var built := Email.BuildMessage(fromaddr, toaddrs, body, subject);
    if built.Ok? {
      SessionAcksNothing(host, built.value, server);
    }
  }

  lemma SessionAcksNothing(host: Value, m: Message, server: SmtpServer)
    ensures AckedTags(Email.SmtpSession(host, m, server).events) == []
  {
    var e := Email.SmtpSession(host, m, server).events;
    assert forall i :: 0 <= i < |e| ==> e[i] == Email.FullSession(host, m)[i];
    NoAckedTags(e);
  }

  /** When binding succeeds and the body is text, the SMTP session goes to
      the worker's SMTP host, whatever `host` the payload carried; a body
      that is not text fails in `sendemail` before any connection, and the
      failure is dropped. */
  lemma SendsToSmtpHost(smtpHost: Value, tag: nat, d: Items<Value>, server: SmtpServer)
    requires DistinctKeys(d)
    requires Util.BindAndCall(Email.SendEmailSignature(), WithSmtpHost(d, smtpHost)).Ok?
    ensures var kw := Util.BindAndCall(Email.SendEmailSignature(), WithSmtpHost(d, smtpHost)).value;
      var o := AckAndSendEmailOutcome(smtpHost, tag, Some(d), server);
      && "body" in kw
      && (kw["body"].Str? ==> |o.events| > 1 && o.events[1] == SmtpConnect(smtpHost))
      && (!kw["body"].Str? ==> o == Outcome([BasicAck(tag)], None))
  {
    var kwargs := WithSmtpHost(d, smtpHost);
    var kw := Util.BindAndCall(Email.SendEmailSignature(), kwargs).value;
    HostOverride(d, smtpHost);
    Email.BoundSendEmailArguments(kwargs, kw);
    assert kw["host"] == smtpHost;
    BindSuccessSends(smtpHost, tag, d, server);
    SendStepConnects(tag, kw, server);
  }

  /** The send step connects to the bound `host` right after the
      acknowledgement when the body is text, and does nothing else otherwise. */
  lemma SendStepConnects(tag: nat, kw: map<string, Value>, server: SmtpServer)
    requires "host" in kw && "fromaddr" in kw && "toaddrs" in kw && "body" in kw
    ensures kw["body"].Str? ==> |SendStep(tag, kw, server).events| > 1 &&
                                SendStep(tag, kw, server).events[1] == SmtpConnect(kw["host"])
    ensures !kw["body"].Str? ==> SendStep(tag, kw, server) == Outcome([BasicAck(tag)], None)
  {
  }

  /** A binding failure is swallowed: the delivery is acknowledged and nothing is sent. */
  lemma BindFailureIsDropped(smtpHost: Value, tag: nat, d: Items<Value>, server: SmtpServer)
    requires Util.BindAndCall(Email.SendEmailSignature(), WithSmtpHost(d, smtpHost)).Err?
    ensures AckAndSendEmailOutcome(smtpHost, tag, Some(d), server) == Outcome([BasicAck(tag)], None)
  {
  }

  /** When binding succeeds the outcome is that of the `sendemail` call. */
  lemma BindSuccessSends(smtpHost: Value, tag: nat, d: Items<Value>, server: SmtpServer)
    requires Util.BindAndCall(Email.SendEmailSignature(), WithSmtpHost(d, smtpHost)).Ok?
    ensures var kw := Util.BindAndCall(Email.SendEmailSignature(), WithSmtpHost(d, smtpHost)).value;
      && "host" in kw && "fromaddr" in kw && "toaddrs" in kw && "body" in kw
      && AckAndSendEmailOutcome(smtpHost, tag, Some(d), server) == SendStep(tag, kw, server)
  {
    var kw := Util.BindAndCall(Email.SendEmailSignature(), WithSmtpHost(d, smtpHost)).value;
    Email.BoundSendEmailArguments(WithSmtpHost(d, smtpHost), kw);
  }

  /** An Exception from the SMTP session is swallowed, a KeyboardInterrupt is not. */
  lemma SendFailureIsDropped(smtpHost: Value, tag: nat, d: Items<Value>, server: SmtpServer)
    requires Util.BindAndCall(Email.SendEmailSignature(), WithSmtpHost(d, smtpHost)).Ok?
    ensures var kw := Util.BindAndCall(Email.SendEmailSignature(), WithSmtpHost(d, smtpHost)).value;
      var o := AckAndSendEmailOutcome(smtpHost, tag, Some(d), server);
      && "body" in kw
      && (o.raised.None? <==> !kw["body"].Str? || FirstFailure(server) != Some(KeyboardInterrupt))
  {
    BindSuccessSends(smtpHost, tag, d, server);
  }

  /** The channel operations `start` performs before consuming, in order:
      connect with the configured host, virtual host and credentials, declare
      the queue durable, bind it to the exchange of the same name, register
      the callback. */
  function SetupEvents(c: Settings): seq<Event>
  {
    [BrokerConnect(ConnectionParams(c.rabbitmqHost, Some(c.rabbitmqVirtualHost),
                                    Some((c.rabbitmqUsername, c.rabbitmqPassword)))),
     QueueDeclare(c.queue, true),
     QueueBind(c.queue, c.queue),
     BasicConsume(c.queue)]
  }

  /** The delivery tags of `ds`, in order. */
  function Tags(ds: seq<Delivery>): (r: seq<nat>)
    ensures |r| == |ds|
    ensures forall j :: 0 <= j < |ds| ==> r[j] == ds[j].tag
  {
    if ds == [] then [] else [ds[0].tag] + Tags(ds[1..])
  }

  /** `start_consuming` from delivery `i` on: each delivery is handed to the
      callback in order; a KeyboardInterrupt from the callback, or the
      operator's interrupt once the deliveries are exhausted, closes the
      channel; any other exception escapes the loop with the channel open. */
  function ConsumeOutcome(smtpHost: Value, deserializer: string -> Option<Items<Value>>,
                          ds: seq<Delivery>, smtp: nat -> SmtpServer, i: nat): Outcome
    decreases |ds| - i
  {
    if i >= |ds| then Outcome([ChannelClose], None)
    else
      var cb := AckAndSendEmailOutcome(smtpHost, ds[i].tag, deserializer(ds[i].body), smtp(i));
      if cb.raised == Some(KeyboardInterrupt) then Outcome(cb.events + [ChannelClose], None)
      else if cb.raised.Some? then cb
      else
        var rest := ConsumeOutcome(smtpHost, deserializer, ds, smtp, i + 1);
        Outcome(cb.events + rest.events, rest.raised)
  }

  /** A run of the consume loop ends in one of two ways: the channel is
      closed after an interrupt and nothing escapes, or an undecodable body
      escapes. Either way something happened. */
  predicate EndsWell(o: Outcome)
  {
    && |o.events| > 0
    && (o.raised.Some? ==> o.raised == Some(Error(DecodeError)))
    && (o.raised.None? ==> o.events[|o.events| - 1] == ChannelClose)
  }

  /** Events before a run that ends well leave it ending well. */
  lemma EndsWellAfter(a: seq<Event>, o: Outcome)
    requires EndsWell(o)
    ensures EndsWell(Outcome(a + o.events, o.raised))
  {
    LastOfAppend(a, o.events);
  }

  /** The consume loop ends well from every delivery on. */
  lemma {:induction false} ConsumeEnds(smtpHost: Value, deserializer: string -> Option<Items<Value>>,
                                       ds: seq<Delivery>, smtp: nat -> SmtpServer, i: nat)
    ensures EndsWell(ConsumeOutcome(smtpHost, deserializer, ds, smtp, i))
    decreases |ds| - i
  {
    var o := ConsumeOutcome(smtpHost, deserializer, ds, smtp, i);
    if i < |ds| {
      var cb := AckAndSendEmailOutcome(smtpHost, ds[i].tag, deserializer(ds[i].body), smtp(i));
      ConsumeStep(smtpHost, deserializer, ds, smtp, i);
      if cb.raised == Some(KeyboardInterrupt) {
        assert o == Outcome(cb.events + [ChannelClose], None);
        EndsWellAfter(cb.events, Outcome([ChannelClose], None));
      } else if cb.raised.Some? {
        assert o == cb;
      } else {
        var rest := ConsumeOutcome(smtpHost, deserializer, ds, smtp, i + 1);
        assert o == Outcome(cb.events + rest.events, rest.raised);
        ConsumeEnds(smtpHost, deserializer, ds, smtp, i + 1);
        EndsWellAfter(cb.events, rest);
      }
    } else {
      assert o == Outcome([ChannelClose], None);
    }
  }

  lemma LastOfAppend(a: seq<Event>, b: seq<Event>)
    ensures |b| > 0 ==> (a + b)[|a + b| - 1] == b[|b| - 1]
  {
  }

  /** One turn of the consume loop, as the callback's outcome decides it. */
  lemma ConsumeStep(smtpHost: Value, deserializer: string -> Option<Items<Value>>,
                    ds: seq<Delivery>, smtp: nat -> SmtpServer, i: nat)
    requires i < |ds|
    ensures var cb := AckAndSendEmailOutcome(smtpHost, ds[i].tag, deserializer(ds[i].body), smtp(i));
      var o := ConsumeOutcome(smtpHost, deserializer, ds, smtp, i);
      var rest := ConsumeOutcome(smtpHost, deserializer, ds, smtp, i + 1);
      && (cb.raised == Some(KeyboardInterrupt) ==> o == Outcome(cb.events + [ChannelClose], None))
      && (cb.raised.Some? && cb.raised != Some(KeyboardInterrupt) ==> o == cb)
      && (cb.raised.None? ==> o == Outcome(cb.events + rest.events, rest.raised))
  {
  }

  /** What `start` does when the broker delivers `ds` and the SMTP server
      answers the `j`-th session as `smtp(j)`. */
  function StartOutcome(c: Settings, deserializer: string -> Option<Items<Value>>,
                        ds: seq<Delivery>, smtp: nat -> SmtpServer): (o: Outcome)
    ensures |o.events| > 4 && o.events[..4] == SetupEvents(c)
    ensures o.raised.Some? ==> o.raised == Some(Error(DecodeError))
    ensures o.raised.None? ==> o.events[|o.events| - 1] == ChannelClose
  {
    var consume := ConsumeOutcome(c.smtpHost, deserializer, ds, smtp, 0);
    ConsumeEnds(c.smtpHost, deserializer, ds, smtp, 0);
    var events := SetupEvents(c) + consume.events;
    assert events[..4] == SetupEvents(c);
    EndsWellAfter(SetupEvents(c), consume);
    Outcome(events, consume.raised)
  }

  /** Only the callback acknowledges, so the acknowledged tags of a run are
      a prefix of the delivered tags: deliveries are acknowledged in the
      order the broker delivers them, each at most once. */
  lemma {:induction false} AckedTagsArePrefix(smtpHost: Value, deserializer: string -> Option<Items<Value>>,
                                             ds: seq<Delivery>, smtp: nat -> SmtpServer, i: nat)
    requires i <= |ds|
    ensures var acked := AckedTags(ConsumeOutcome(smtpHost, deserializer, ds, smtp, i).events);
      acked <= Tags(ds[i..]) && (i < |ds| ==> |acked| > 0)
    decreases |ds| - i
  {
    var o := ConsumeOutcome(smtpHost, deserializer, ds, smtp, i);
    if i == |ds| {
      NoAckedTags(o.events);
    } else {
      var cb := AckAndSendEmailOutcome(smtpHost, ds[i].tag, deserializer(ds[i].body), smtp(i));
      var rest := ConsumeOutcome(smtpHost, deserializer, ds, smtp, i + 1);
      ConsumeAcks(smtpHost, deserializer, ds, smtp, i);
      TagsFrom(ds, i);
      if cb.raised.None? {
        AckedTagsArePrefix(smtpHost, deserializer, ds, smtp, i + 1);
        PrefixCons(ds[i].tag, AckedTags(rest.events), Tags(ds[i + 1..]));
      } else {
        PrefixCons(ds[i].tag, [], Tags(ds[i + 1..]));
      }
    }
  }

  /** The tags one turn of the consume loop acknowledges: the delivery's
      own, then those of the later turns if the loop goes on. */
  lemma ConsumeAcks(smtpHost: Value, deserializer: string -> Option<Items<Value>>,
                    ds: seq<Delivery>, smtp: nat -> SmtpServer, i: nat)
    requires i < |ds|
    ensures var cb := AckAndSendEmailOutcome(smtpHost, ds[i].tag, deserializer(ds[i].body), smtp(i));
      var rest := ConsumeOutcome(smtpHost, deserializer, ds, smtp, i + 1);
      AckedTags(ConsumeOutcome(smtpHost, deserializer, ds, smtp, i).events) ==
        [ds[i].tag] + (if cb.raised.None? then AckedTags(rest.events) else [])
  {
    var cb := AckAndSendEmailOutcome(smtpHost, ds[i].tag, deserializer(ds[i].body), smtp(i));
    var rest := ConsumeOutcome(smtpHost, deserializer, ds, smtp, i + 1);
    ConsumeStep(smtpHost, deserializer, ds, smtp, i);
    AcksExactlyOnce(smtpHost, ds[i].tag, deserializer(ds[i].body), smtp(i));
    if cb.raised == Some(KeyboardInterrupt) {
      AckedTagsAppend(cb.events, [ChannelClose]);
      NoAckedTags([ChannelClose]);
    } else if cb.raised.None? {
      AckedTagsAppend(cb.events, rest.events);
    }
  }

  /** The tags from delivery `i` on start with the tag of delivery `i`. */
  lemma TagsFrom(ds: seq<Delivery>, i: nat)
    requires i < |ds|
    ensures Tags(ds[i..]) == [ds[i].tag] + Tags(ds[i + 1..])
  {
    assert ds[i..][1..] == ds[i + 1..];
  }

  lemma PrefixCons(t: nat, a: seq<nat>, b: seq<nat>)
    requires a <= b
    ensures [t] + a <= [t] + b
  {
    assert ([t] + b)[..|[t] + a|] == [t] + b[..|a|];
  }

  /** When every body decodes and no SMTP session is interrupted, every
      delivery is acknowledged, in order, and the run ends with the channel
      closed by the operator's interrupt. */
  lemma {:induction false} AllDeliveriesAcked(smtpHost: Value, deserializer: string -> Option<Items<Value>>,
                                              ds: seq<Delivery>, smtp: nat -> SmtpServer, i: nat)
    requires i <= |ds|
    requires forall j :: i <= j < |ds| ==> deserializer(ds[j].body).Some?
    requires forall j :: i <= j < |ds| ==> FirstFailure(smtp(j)) != Some(KeyboardInterrupt)
    ensures var o := ConsumeOutcome(smtpHost, deserializer, ds, smtp, i);
      AckedTags(o.events) == Tags(ds[i..]) && o.raised.None?
    decreases |ds| - i
  {
    var o := ConsumeOutcome(smtpHost, deserializer, ds, smtp, i);
    if i == |ds| {
      NoAckedTags(o.events);
    } else {
      var d := deserializer(ds[i].body).value;
      var cb := AckAndSendEmailOutcome(smtpHost, ds[i].tag, Some(d), smtp(i));
      if Util.BindAndCall(Email.SendEmailSignature(), WithSmtpHost(d, smtpHost)).Ok? {
        SendFailureIsDropped(smtpHost, ds[i].tag, d, smtp(i));
      } else {
        BindFailureIsDropped(smtpHost, ds[i].tag, d, smtp(i));
      }
      AcksExactlyOnce(smtpHost, ds[i].tag, Some(d), smtp(i));
      var rest := ConsumeOutcome(smtpHost, deserializer, ds, smtp, i + 1);
      ConsumeStep(smtpHost, deserializer, ds, smtp, i);
      AckedTagsAppend(cb.events, rest.events);
      AllDeliveriesAcked(smtpHost, deserializer, ds, smtp, i + 1);
      TagsFrom(ds, i);
    }
  }

  /** A body that does not decode stops the worker right after its
      acknowledgement: the error escapes and the channel is not closed. */
  lemma MalformedBodyStops(smtpHost: Value, deserializer: string -> Option<Items<Value>>,
                           ds: seq<Delivery>, smtp: nat -> SmtpServer, i: nat)
    requires i < |ds| && deserializer(ds[i].body).None?
    ensures ConsumeOutcome(smtpHost, deserializer, ds, smtp, i) ==
            Outcome([BasicAck(ds[i].tag)], Some(Error(DecodeError)))
  {
  }

  /** The request of the end-to-end scenario, as the worker decodes it. */
  function ScenarioPayload(): Items<Value>
  {
    [("fromaddr", Str("a@x.com")), ("toaddrs", Str("b@x.com")), ("body", Str("hi")), ("subject", Str("hello"))]
  }

  /** The keys of the scenario's requests hold no `-`. */
  lemma ScenarioKeysPlain()
    ensures forall i :: 0 <= i < |ScenarioPayload()| ==> '-' !in ScenarioPayload()[i].0
    ensures forall i :: 0 <= i < |BodylessPayload()| ==> '-' !in BodylessPayload()[i].0
  {
    assert '-' !in "fromaddr" && '-' !in "toaddrs" && '-' !in "body" && '-' !in "subject";
    var p := ScenarioPayload();
    assert p[0].0 == "fromaddr" && p[1].0 == "toaddrs" && p[2].0 == "body" && p[3].0 == "subject";
  }

  /** The scenario's request as a mapping. */
  lemma ScenarioMap()
    ensures ToMap(ScenarioPayload()) ==
            map["fromaddr" := Str("a@x.com"), "toaddrs" := Str("b@x.com"), "body" := Str("hi"), "subject" := Str("hello")]
  {
    var p := ScenarioPayload();
    var p1 := [] + [p[0]];
    var p2 := p1 + [p[1]];
    var p3 := p2 + [p[2]];
    assert p == p3 + [p[3]];
    ToMapSnoc([], p[0]);
    ToMapSnoc(p1, p[1]);
    ToMapSnoc(p2, p[2]);
    ToMapSnoc(p3, p[3]);
  }

  lemma ScenarioDistinct()
    ensures DistinctKeys(ScenarioPayload())
  {
  }

  /** The keyword mapping of the scenario's request, with the SMTP host added. */
  lemma ScenarioArguments(smtpHost: Value)
    ensures Util.NormalizedArguments(WithSmtpHost(ScenarioPayload(), smtpHost)) ==
            map["fromaddr" := Str("a@x.com"), "toaddrs" := Str("b@x.com"), "body" := Str("hi"),
                "subject" := Str("hello"), "host" := smtpHost]
  {
    var p := ScenarioPayload();
    ScenarioMap();
    ScenarioKeysPlain();
    Util.NormalizedWithoutDashes(p);
    ScenarioDistinct();
    HostOverride(p, smtpHost);
    assert Util.NormalizedArguments(p) == ToMap(p);
  }

  /** The scenario's keywords bind to `sendemail`. */
  lemma ScenarioKeywordsBind(kw: map<string, Value>)
    requires kw.Keys == {"fromaddr", "toaddrs", "body", "subject", "host"}
    ensures Util.Bind(Email.SendEmailSignature(), kw) == Ok(kw)
  {
    var sig := Email.SendEmailSignature();
    Email.SendEmailParameters();
    assert sig[0].name == "host" && sig[1].name == "fromaddr" && sig[2].name == "toaddrs" && sig[3].name == "body";
  }

  /** The scenario's request binds to `sendemail` with the SMTP host added. */
  lemma ScenarioBinds(smtpHost: Value)
    ensures Util.BindAndCall(Email.SendEmailSignature(), WithSmtpHost(ScenarioPayload(), smtpHost)) ==
            Ok(map["fromaddr" := Str("a@x.com"), "toaddrs" := Str("b@x.com"), "body" := Str("hi"),
                   "subject" := Str("hello"), "host" := smtpHost])
  {
    ScenarioArguments(smtpHost);
    ScenarioKeywordsBind(map["fromaddr" := Str("a@x.com"), "toaddrs" := Str("b@x.com"), "body" := Str("hi"),
                             "subject" := Str("hello"), "host" := smtpHost]);
  }

  /** A well-formed request is acknowledged and then sent, as one SMTP
      session to the worker's SMTP host carrying its From, To, Subject and
      content. */
  lemma EndToEndDelivery(smtpHost: Value, tag: nat)
    ensures AckAndSendEmailOutcome(smtpHost, tag, Some(ScenarioPayload()), SmtpServer(None, None, None)) ==
            Outcome([BasicAck(tag), SmtpConnect(smtpHost),
                      SmtpSendMessage(Message(Str("a@x.com"), Str("b@x.com"), Str("hello"), Str("hi"))),
                      SmtpQuit], None)
  {
    ScenarioBinds(smtpHost);
    BindSuccessSends(smtpHost, tag, ScenarioPayload(), SmtpServer(None, None, None));
    ScenarioSend(smtpHost, tag);
  }

  /** Sending the scenario's keywords to a server that accepts everything. */
  lemma ScenarioSend(smtpHost: Value, tag: nat)
    ensures SendStep(tag, map["fromaddr" := Str("a@x.com"), "toaddrs" := Str("b@x.com"), "body" := Str("hi"),
                              "subject" := Str("hello"), "host" := smtpHost], SmtpServer(None, None, None)) ==
            Outcome([BasicAck(tag), SmtpConnect(smtpHost),
                      SmtpSendMessage(Message(Str("a@x.com"), Str("b@x.com"), Str("hello"), Str("hi"))),
                      SmtpQuit], None)
  {
    var kw := map["fromaddr" := Str("a@x.com"), "toaddrs" := Str("b@x.com"), "body" := Str("hi"),
                  "subject" := Str("hello"), "host" := smtpHost];
    assert kw["host"] == smtpHost && kw["fromaddr"] == Str("a@x.com") && kw["toaddrs"] == Str("b@x.com");
    assert kw["body"] == Str("hi") && Email.SubjectArgument(kw) == Str("hello");
    Email.SendsBuiltMessage(smtpHost, Str("a@x.com"), Str("b@x.com"), "hi", Str("hello"));
  }

  /** Keywords without `body` do not bind to `sendemail`: `body` is reported missing. */
  lemma BodylessKeywordsFail(kw: map<string, Value>)
    requires kw.Keys == {"fromaddr", "toaddrs", "host"}
    ensures Util.Bind(Email.SendEmailSignature(), kw) == Err(MissingArgument("body"))
  {
    var sig := Email.SendEmailSignature();
    assert sig[3..][1..] == sig[4..];
    assert Util.FirstMissing(sig[3..], kw.Keys) == Some("body");
    assert sig[2..][1..] == sig[3..];
    assert sig[1..][1..] == sig[2..];
    assert sig[1..] == sig[1..];
  }

  /** The scenario's request without its body and subject. */
  function BodylessPayload(): Items<Value>
  {
    [("fromaddr", Str("a@x.com")), ("toaddrs", Str("b@x.com"))]
  }

  lemma BodylessDistinct()
    ensures DistinctKeys(BodylessPayload())
  {
  }

  lemma BodylessMap()
    ensures ToMap(BodylessPayload()) == map["fromaddr" := Str("a@x.com"), "toaddrs" := Str("b@x.com")]
  {
    var p := BodylessPayload();
    var p1 := [] + [p[0]];
    assert p == p1 + [p[1]];
    ToMapSnoc([], p[0]);
    ToMapSnoc(p1, p[1]);
  }

  lemma BodylessArguments(smtpHost: Value)
    ensures Util.NormalizedArguments(WithSmtpHost(BodylessPayload(), smtpHost)) ==
            map["fromaddr" := Str("a@x.com"), "toaddrs" := Str("b@x.com"), "host" := smtpHost]
  {
    var p := BodylessPayload();
    BodylessMap();
    ScenarioKeysPlain();
    Util.NormalizedWithoutDashes(p);
    BodylessDistinct();
    HostOverride(p, smtpHost);
  }

  /** A request without a body fails to bind. */
  lemma MissingBodyFailsToBind(smtpHost: Value)
    ensures Util.BindAndCall(Email.SendEmailSignature(), WithSmtpHost(BodylessPayload(), smtpHost)) ==
            Err(MissingArgument("body"))
  {
    BodylessArguments(smtpHost);
    BodylessKeywordsFail(map["fromaddr" := Str("a@x.com"), "toaddrs" := Str("b@x.com"), "host" := smtpHost]);
  }

  /** A request without a body is acknowledged and dropped, and the worker
      goes on with the next delivery. */
  lemma MissingBodyIsDropped(smtpHost: Value, tag: nat, server: SmtpServer)
    ensures AckAndSendEmailOutcome(smtpHost, tag, Some(BodylessPayload()), server) == Outcome([BasicAck(tag)], None)
  {
    MissingBodyFailsToBind(smtpHost);
    BindFailureIsDropped(smtpHost, tag, BodylessPayload(), server);
  }

  class Worker {
    var rabbitmqHost: Value
    var rabbitmqVirtualHost: Value
    var rabbitmqUsername: Value
    var rabbitmqPassword: Value
    var smtpHost: Value
    var queue: Value

    ghost function Config(): Settings
      reads this
    {
      Settings(rabbitmqHost, rabbitmqVirtualHost, rabbitmqUsername, rabbitmqPassword, queue, smtpHost)
    }

    constructor(rabbitmqHost: Value, rabbitmqVirtualHost: Value, rabbitmqUsername: Value,
                rabbitmqPassword: Value, queue: Value, smtpHost: Value)
      ensures Config() == Settings(rabbitmqHost, rabbitmqVirtualHost, rabbitmqUsername, rabbitmqPassword, queue, smtpHost)
    {
      this.rabbitmqHost := rabbitmqHost;
      this.rabbitmqVirtualHost := rabbitmqVirtualHost;
      this.rabbitmqUsername := rabbitmqUsername;
      this.rabbitmqPassword := rabbitmqPassword;
      this.smtpHost := smtpHost;
      this.queue := queue;
    }

    /** `ack_and_send_email(channel, method, properties, body)` */
    method AckAndSendEmail(rt: Runtime, deserializer: string -> Option<Items<Value>>, server: SmtpServer, delivery: Delivery)
      returns (raised: Option<Exc>)
      modifies rt
      ensures var o := AckAndSendEmailOutcome(smtpHost, delivery.tag, deserializer(delivery.body), server);
        rt.events == old(rt.events) + o.events && raised == o.raised
    {
      ghost var before := rt.events;
      rt.Emit(BasicAck(delivery.tag));
      var payload := deserializer(delivery.body);
      if payload.None? {
        return Some(Error(DecodeError));
      }
      ghost var o := AckAndSendEmailOutcome(smtpHost, delivery.tag, payload, server);
      raised := BindAndSend(rt, delivery.tag, payload.value, server);
      assert o.events == [BasicAck(delivery.tag)] + o.events[1..];
      AppendAssociative(before, [BasicAck(delivery.tag)], o.events[1..]);
    }

    /** The part of `ack_and_send_email` after the acknowledgement, for a
        body that decoded to `d`. */
    method BindAndSend(rt: Runtime, tag: nat, d: Items<Value>, server: SmtpServer) returns (raised: Option<Exc>)
      modifies rt
      ensures var o := AckAndSendEmailOutcome(smtpHost, tag, Some(d), server);
        rt.events == old(rt.events) + o.events[1..] && raised == o.raised
    {
      ghost var o := AckAndSendEmailOutcome(smtpHost, tag, Some(d), server);
      var kwargs := WithSmtpHost(d, smtpHost);
      var bound := Util.BindAndCall(Email.SendEmailSignature(), kwargs);
      if bound.Err? {
        // logged with the mapping, then dropped
        BindFailureIsDropped(smtpHost, tag, d, server);
        assert o.events[1..] == [];
        return None;
      }
      var kw := bound.value;
      BindSuccessSends(smtpHost, tag, d, server);
      assert o == SendStep(tag, kw, server);
      raised := SendBound(rt, tag, kw, server);
    }

    /** `sendemail(**kw)` inside the `try`: an Exception is logged and
        dropped, a KeyboardInterrupt escapes. */
    method SendBound(rt: Runtime, tag: nat, kw: map<string, Value>, server: SmtpServer) returns (raised: Option<Exc>)
      requires "host" in kw && "fromaddr" in kw && "toaddrs" in kw && "body" in kw
      modifies rt
      ensures var o := SendStep(tag, kw, server);
        rt.events == old(rt.events) + o.events[1..] && raised == o.raised
    {
      var r := Email.SendEmail(rt, server, kw["host"], kw["fromaddr"], kw["toaddrs"], kw["body"], Email.SubjectArgument(kw));
      if r == Some(KeyboardInterrupt) {
        raised := r;
      } else {
        // an Exception: logged with the mapping, then dropped
        raised := None;
      }
    }

    /** `start()`: connect, declare, bind and register, then consume the
        deliveries `ds`; the `j`-th SMTP session meets `smtp(j)`. */
    method Start(rt: Runtime, deserializer: string -> Option<Items<Value>>, ds: seq<Delivery>, smtp: nat -> SmtpServer)
      returns (raised: Option<Exc>)
      modifies rt
      ensures var o := StartOutcome(Config(), deserializer, ds, smtp);
        rt.events == old(rt.events) + o.events && raised == o.raised
    {
      rt.Emit(BrokerConnect(ConnectionParams(rabbitmqHost, Some(rabbitmqVirtualHost),
                                             Some((rabbitmqUsername, rabbitmqPassword)))));
      rt.Emit(QueueDeclare(queue, true));
      rt.Emit(QueueBind(queue, queue));
      rt.Emit(BasicConsume(queue));
      ghost var setup := rt.events;
      assert setup == old(rt.events) + SetupEvents(Config());
      raised := StartConsuming(rt, deserializer, ds, smtp);
      AppendAssociative(old(rt.events), SetupEvents(Config()),
                        ConsumeOutcome(smtpHost, deserializer, ds, smtp, 0).events);
    }

    /** `channel.start_consuming()` wrapped in `start`'s interrupt handler:
        the callback runs on each delivery in turn. */
    method StartConsuming(rt: Runtime, deserializer: string -> Option<Items<Value>>, ds: seq<Delivery>, smtp: nat -> SmtpServer)
      returns (raised: Option<Exc>)
      modifies rt
      ensures var o := ConsumeOutcome(smtpHost, deserializer, ds, smtp, 0);
        rt.events == old(rt.events) + o.events && raised == o.raised
    {
      ghost var whole := ConsumeOutcome(smtpHost, deserializer, ds, smtp, 0);
      var i := 0;
      while i < |ds|
        invariant 0 <= i <= |ds|
        invariant rt.events + ConsumeOutcome(smtpHost, deserializer, ds, smtp, i).events == old(rt.events) + whole.events
        invariant ConsumeOutcome(smtpHost, deserializer, ds, smtp, i).raised == whole.raised
      {
        var stop, r := ConsumeTurn(rt, deserializer, ds, smtp, i);
        if stop {
          return r;
        }
        i := i + 1;
      }
      // the operator's interrupt once the broker has nothing more to deliver
      rt.Emit(ChannelClose);
      raised := None;
    }

    /** One delivery of the consume loop: the callback runs, and the loop
        stops (`stop`) after a KeyboardInterrupt, which closes the channel,
        or after any other exception, which escapes. */
    method ConsumeTurn(rt: Runtime, deserializer: string -> Option<Items<Value>>, ds: seq<Delivery>,
                       smtp: nat -> SmtpServer, i: nat)
      returns (stop: bool, raised: Option<Exc>)
      requires i < |ds|
      modifies rt
      ensures var o := ConsumeOutcome(smtpHost, deserializer, ds, smtp, i);
        var rest := ConsumeOutcome(smtpHost, deserializer, ds, smtp, i + 1);
        && (stop ==> rt.events == old(rt.events) + o.events && raised == o.raised)
        && (!stop ==> rt.events + rest.events == old(rt.events) + o.events && rest.raised == o.raised)
    {
      ghost var done := rt.events;
      ghost var cb := AckAndSendEmailOutcome(smtpHost, ds[i].tag, deserializer(ds[i].body), smtp(i));
      ghost var rest := ConsumeOutcome(smtpHost, deserializer, ds, smtp, i + 1);
      ConsumeStep(smtpHost, deserializer, ds, smtp, i);
      var r := AckAndSendEmail(rt, deserializer, smtp(i), ds[i]);
      if r == Some(KeyboardInterrupt) {
        rt.Emit(ChannelClose);
        AppendAssociative(done, cb.events, [ChannelClose]);
        return true, None;
      } else if r.Some? {
        return true, r;
      }
      AppendAssociative(done, cb.events, rest.events);
      return false, None;
    }
  }
}
