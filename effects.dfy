/**
 * The observable effects of the worker: calls into the broker client and the
 * SMTP client, recorded in order on an event trace. The broker and SMTP
 * libraries themselves are not modelled; what they do in answer (accept,
 * refuse, raise) is given to the model as a parameter.
 */
module Effects {
  import opened Types

  /** An email as handed to the SMTP client: the From, To and Subject header
      fields of section 3.6 of RFC 5322 and the content. */
  datatype Message = Message(fromHeader: Value, toHeader: Value, subject: Value, content: Value)

  /** Parameters of a broker connection; the legacy entry points pass only a host. */
  datatype ConnectionParams = ConnectionParams(host: Value, virtualHost: Option<Value>, credentials: Option<(Value, Value)>)

  datatype Event =
    | BrokerConnect(params: ConnectionParams)
    | QueueDeclare(queue: Value, durable: bool)
    | QueueBind(exchange: Value, queue: Value)
    | BasicConsume(queue: Value)
    | BasicAck(deliveryTag: nat)
    | BasicPublish(exchange: Value, routingKey: Value, body: string)
    | ChannelClose
    | SmtpConnect(host: Value)
    | SmtpSendMessage(message: Message)
    | SmtpSendmail(fromaddr: Value, toaddrs: Value, msg: Value)
    | SmtpQuit
    | SendLogged(fromaddr: Value, toaddrs: Value, msg: Value)

  /** How an SMTP server answers one session: the exception (if any) raised
      by connecting, by transmitting and by quitting. */
  datatype SmtpServer = SmtpServer(onConnect: Option<Exc>, onSend: Option<Exc>, onQuit: Option<Exc>)

  /** The exception a session with `server` ends with: the first step that raises. */
  function FirstFailure(server: SmtpServer): Option<Exc>
  {
    if server.onConnect.Some? then server.onConnect
    else if server.onSend.Some? then server.onSend
    else server.onQuit
  }

  /** The effects of one operation and the exception it ends with, if any. */
  datatype Outcome = Outcome(events: seq<Event>, raised: Option<Exc>)

  /** One delivery from the broker: its tag and its body. */
  datatype Delivery = Delivery(tag: nat, body: string)

  /** The trace of effects performed so far. */
  class Runtime {
    var events: seq<Event>

    constructor()
      ensures events == []
    {
      events := [];
    }

    method Emit(e: Event)
      modifies this
      ensures events == old(events) + [e]
    {
      events := events + [e];
    }
  }

  lemma AppendAssociative(a: seq<Event>, b: seq<Event>, c: seq<Event>)
    ensures a + (b + c) == (a + b) + c
  {
  }

  /** The tags acknowledged in a trace, in order. */
  function AckedTags(events: seq<Event>): seq<nat>
  {
    if events == [] then []
    else (if events[0].BasicAck? then [events[0].deliveryTag] else []) + AckedTags(events[1..])
  }

  lemma {:induction false} AckedTagsAppend(a: seq<Event>, b: seq<Event>)
    ensures AckedTags(a + b) == AckedTags(a) + AckedTags(b)
  {
    if a == [] {
      assert a + b == b;
    } else {
      assert (a + b)[1..] == a[1..] + b;
      AckedTagsAppend(a[1..], b);
    }
  }

  /** A trace without acknowledgements acknowledges no tag. */
  lemma {:induction false} NoAckedTags(events: seq<Event>)
    requires forall i :: 0 <= i < |events| ==> !events[i].BasicAck?
    ensures AckedTags(events) == []
  {
    if events != [] {
      NoAckedTags(events[1..]);
    }
  }
}
