/**
 The webhook side of the bridge: the two handlers that turn a Twilio
 callback into Telegram sends, the signature gate that may stand in front
 of them, and the log of every message handed to the Telegram bot.
 */
module Webhook {
  import opened Wrappers
  import opened Strings
  import opened Notification

  /** One `sendMessage` call: the chat it goes to and the text it carries. */
  datatype Message = Message(chatId: string, text: string)

  /** The decoded parts of an inbound HTTP request the bridge looks at.
      `headers` is keyed by header name as the source spells it. */
  datatype Request = Request(url: string, args: map<string, string>, form: map<string, string>,
                             headers: map<string, string>)

  /** What the HTTP layer answers: a 200 with a body, the 403 of `abort(403)`,
      or the 500 Flask gives for an exception the handler lets escape. */
  datatype Response = Ok(body: string) | Forbidden | ServerError

  /** The two webhook routes. */
  datatype Route = MessageRoute | CallRoute

  /** The acknowledgment bodies Twilio gets back. */
  const MessageAck: string := "<response></response>"
  const CallAck: string := "<Response><Reject/></Response>"

  /** The header carrying Twilio's signature. */
  const SignatureKey: string := "X-TWILIO-SIGNATURE"

  /** `request.values`: query arguments and form fields together, a query
      argument winning over a form field of the same name. */
  function Values(req: Request): (v: map<string, string>)
    ensures v.Keys == req.args.Keys + req.form.Keys
    ensures forall k :: k in req.args ==> v[k] == req.args[k]
    ensures forall k :: k in req.form && k !in req.args ==> v[k] == req.form[k]
  {
    req.form + req.args
  }

  /** The signature handed to the validator: the header's value, or the
      empty string when the header is missing. */
  function SignatureOf(headers: map<string, string>): string
  {
    if SignatureKey in headers then headers[SignatureKey] else ""
  }

  /** The notification a route builds from the request's values. */
  function Notify(route: Route, values: map<string, string>): string
  {
    match route
    case MessageRoute => SmsMessage(values)
    case CallRoute => CallMessage(values)
  }

  /** The field holding the Twilio event id of a route. */
  function IdKey(route: Route): string
  {
    match route
    case MessageRoute => "MessageSid"
    case CallRoute => "CallSid"
  }

  /** The Twilio event id a route puts on the owner's copy. */
  function EventId(route: Route, values: map<string, string>): string
  {
    Get(values, IdKey(route))
  }

  /** The body a route answers with. */
  function Ack(route: Route): string
  {
    match route
    case MessageRoute => MessageAck
    case CallRoute => CallAck
  }

  /** One send of `text` to each recipient, in order. */
  function FanOut(recipients: seq<string>, text: string): seq<Message>
  {
    seq(|recipients|, i requires 0 <= i < |recipients| => Message(recipients[i], text))
  }

  /** The chats a sequence of sends goes to, in order. */
  function Recipients(sends: seq<Message>): seq<string>
  {
    seq(|sends|, i requires 0 <= i < |sends| => sends[i].chatId)
  }

  /** The subscriber sends for one notification; none when the subscriber
      setting is missing, since `split` on `None` raises before any send. */
  function SubscriberSends(subscribers: Option<string>, message: string): seq<Message>
  {
    match subscribers
    case Some(list) => FanOut(Split(list, ','), message)
    case None => []
  }

  /** All sends one handled event makes: the owner's copy, then each subscriber's. */
  function Dispatch(owner: string, subscribers: Option<string>, id: string, message: string): seq<Message>
  {
    [Message(owner, OwnerMessage(id, message))] + SubscriberSends(subscribers, message)
  }

  /** What a handler answers: its acknowledgment, or a server error when the
      subscriber setting is missing. It depends on nothing in the request. */
  function Reply(route: Route, subscribers: Option<string>): Response
  {
    if subscribers.Some? then Ok(Ack(route)) else ServerError
  }

  /**
   The Telegram side as the handlers see it: the configuration read from
   the environment and every message handed to the bot so far.
   */
  class Bridge {
    /** TELEGRAM_OWNER */
    const owner: string
    /** TELEGRAM_SUBSCRIBERS, a comma-separated list of chat ids, if set */
    const subscribers: Option<string>
    /** TWILIO_AUTH_TOKEN */
    const authToken: string
    /** Every `sendMessage` call made, oldest first. */
    var sent: seq<Message>

    constructor (owner: string, subscribers: Option<string>, authToken: string)
      ensures this.owner == owner && this.subscribers == subscribers && this.authToken == authToken
      ensures sent == []
    {
      this.owner := owner;
      this.subscribers := subscribers;
      this.authToken := authToken;
      sent := [];
    }

    /** `telegram_bot.sendMessage(text=text, chat_id=chatId, ...)`. */
    method SendMessage(chatId: string, text: string)
      modifies this
      ensures sent == old(sent) + [Message(chatId, text)]
    {
      sent := sent + [Message(chatId, text)];
    }

    /** `tg_send_owner_message`: one send to the owner. */
    method SendOwnerMessage(message: string)
      modifies this
      ensures sent == old(sent) + [Message(owner, message)]
    {
      SendMessage(owner, message);
    }

    /** `tg_send_subscribers_message`: the unmodified message to every entry of
        the comma-split subscriber setting, left to right. `ok` is false when
        the setting is missing; then nothing is sent. */
    method SendSubscribersMessage(message: string) returns (ok: bool)
      modifies this
      ensures ok == subscribers.Some?
      ensures sent == old(sent) + SubscriberSends(subscribers, message)
    {
      if subscribers.None? {
        return false;
      }
      var destinations := Split(subscribers.value, ',');
      var i := 0;
      while i < |destinations|
        invariant 0 <= i <= |destinations|
        invariant sent == old(sent) + FanOut(destinations[..i], message)
      {
        SendMessage(destinations[i], message);
        assert FanOut(destinations[..i + 1], message) == FanOut(destinations[..i], message) + [Message(destinations[i], message)];
        i := i + 1;
      }
      assert destinations[..i] == destinations;
      ok := true;
    }

    /** The body shared by `recv_message` and `recv_call`: build the
        notification, send the owner's copy, then the subscribers' copies. */
    method Handle(route: Route, req: Request) returns (resp: Response)
      modifies this
      ensures resp == Reply(route, subscribers)
      ensures sent == old(sent) + Dispatch(owner, subscribers, EventId(route, Values(req)), Notify(route, Values(req)))
    {
      var values := Values(req);
      var message := Notify(route, values);
      SendOwnerMessage(OwnerMessage(EventId(route, values), message));
      var ok := SendSubscribersMessage(message);
      if ok {
        resp := Ok(Ack(route));
      } else {
        resp := ServerError;
      }
    }

    /** `recv_message`: the SMS webhook. */
    method RecvMessage(req: Request) returns (resp: Response)
      modifies this
      ensures resp == Reply(MessageRoute, subscribers)
      ensures sent == old(sent) + Dispatch(owner, subscribers, Get(Values(req), "MessageSid"), SmsMessage(Values(req)))
      ensures "MessageSid" !in req.args && "MessageSid" !in req.form ==>
        sent[|old(sent)|] == Message(owner, OwnerMessage(Unknown, SmsMessage(Values(req))))
    {
      resp := Handle(MessageRoute, req);
    }

    /** `recv_call`: the call webhook. */
    method RecvCall(req: Request) returns (resp: Response)
      modifies this
      ensures resp == Reply(CallRoute, subscribers)
      ensures sent == old(sent) + Dispatch(owner, subscribers, Get(Values(req), "CallSid"), CallMessage(Values(req)))
      ensures "CallSid" !in req.args && "CallSid" !in req.form ==>
        sent[|old(sent)|] == Message(owner, OwnerMessage(Unknown, CallMessage(Values(req))))
    {
      resp := Handle(CallRoute, req);
    }

    /** `validate_twilio_request` wrapped around a route's handler. The
        validator stands for Twilio's `RequestValidator(token).validate(url,
        form, signature)`. A rejected request gets 403 and the handler does
        not run, so nothing is sent; an accepted one gets the handler's
        answer unchanged. */
    method Guarded(route: Route, req: Request, validate: (string, string, map<string, string>, string) -> bool)
      returns (resp: Response)
      modifies this
      ensures !validate(authToken, req.url, req.form, SignatureOf(req.headers)) ==>
        resp == Forbidden && sent == old(sent)
      ensures validate(authToken, req.url, req.form, SignatureOf(req.headers)) ==>
        resp == Reply(route, subscribers)
      ensures validate(authToken, req.url, req.form, SignatureOf(req.headers)) ==>
        sent == old(sent) + Dispatch(owner, subscribers, EventId(route, Values(req)), Notify(route, Values(req)))
      ensures SignatureKey in req.headers ==>
        (resp == Forbidden <==> !validate(authToken, req.url, req.form, req.headers[SignatureKey]))
      ensures SignatureKey !in req.headers ==>
        (resp == Forbidden <==> !validate(authToken, req.url, req.form, ""))
    {
      var valid := validate(authToken, req.url, req.form, SignatureOf(req.headers));
      if valid {
        resp := Handle(route, req);
      } else {
        resp := Forbidden;
      }
    }
  }

  /** An event id given in neither the query nor the form reads as "unknown". */
  lemma AbsentEventIdIsUnknown(route: Route, req: Request)
    requires IdKey(route) !in req.args && IdKey(route) !in req.form
    ensures EventId(route, Values(req)) == Unknown
  {
  }

  /** An event id in the query wins over one in the form; a form one is used otherwise. */
  lemma EventIdSource(route: Route, req: Request)
    ensures IdKey(route) in req.args ==> EventId(route, Values(req)) == req.args[IdKey(route)]
    ensures IdKey(route) !in req.args && IdKey(route) in req.form ==>
      EventId(route, Values(req)) == req.form[IdKey(route)]
  {
  }

  /** Recipients of a fan-out are the list it was given, each getting the same text. */
  lemma FanOutRecipients(recipients: seq<string>, text: string)
    ensures |FanOut(recipients, text)| == |recipients|
    ensures Recipients(FanOut(recipients, text)) == recipients
    ensures forall i :: 0 <= i < |recipients| ==> FanOut(recipients, text)[i].text == text
  {
  }

  /**
   One dispatch cycle with a subscriber setting present: the owner's copy goes
   first and is the only send carrying the id line, then exactly one send per
   comma-separated entry (one more send than there are commas), every one
   carrying the bare notification, and the
   recipients joined back with commas give the setting verbatim, so no entry is
   trimmed, dropped or reordered.
   */
  lemma DispatchCycle(owner: string, list: string, id: string, message: string)
    ensures var sends := Dispatch(owner, Some(list), id, message);
      && |sends| == Count(list, ',') + 2
      && sends[0] == Message(owner, OwnerMessage(id, message))
      && (forall i :: 1 <= i < |sends| ==> sends[i].text == message && sends[i].text != sends[0].text)
      && Join(Recipients(sends[1..]), ',') == list
  {
    var sends := Dispatch(owner, Some(list), id, message);
    var parts := Split(list, ',');
    SplitCount(list, ',');
    JoinSplit(list, ',');
    FanOutRecipients(parts, message);
    assert sends[1..] == FanOut(parts, message);
  }

  /** Without a subscriber setting, only the owner's copy goes out. */
  lemma DispatchWithoutSubscribers(owner: string, id: string, message: string)
    ensures Dispatch(owner, None, id, message) == [Message(owner, OwnerMessage(id, message))]
  {
  }

  /** An empty subscriber setting is one empty entry: one send to the chat id "". */
  lemma EmptySubscriberSetting(message: string)
    ensures SubscriberSends(Some(""), message) == [Message("", message)]
  {
  }

  /** With the setting present, the SMS handler always acknowledges with
      `<response></response>` and the call handler with
      `<Response><Reject/></Response>`, whatever the request holds. */
  lemma AcknowledgmentBodies(list: string)
    ensures Reply(MessageRoute, Some(list)) == Ok("<response></response>")
    ensures Reply(CallRoute, Some(list)) == Ok("<Response><Reject/></Response>")
  {
  }
}
