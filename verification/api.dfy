/** The bot of `bot.py` as the adapter's core uses it: its id, the answers
    of the calls it makes, the API methods that build those calls
    (`get_message`, `send_private_message`, `send_group_message`) and
    `send`'s routing by scene. What the network answers is not modelled: each
    call's answer is a function of its arguments, fixed when the bot is made,
    and a ghost list records the calls in order. */
module BotApi {
  import opened Outcomes
  import opened Segments
  import opened Records
  import opened Model
  import opened Events

  /** A call made on the bot's behalf. */
  datatype ApiCall =
    | HttpCall(action: string, params: map<string, Value>)
    | ResourceTempUrlCall(resourceId: Value)
    | ForwardedMessagesCall(forwardId: Value)

  /** One message of a forwarded conversation: its sender's name and its content. */
  datatype Forwarded = Forwarded(name: string, message: Message)

  /** Why a bot call failed: the call itself raised, its answer did not
      validate, or reading the answer raised. */
  datatype BotError = CallFailed(reason: string) | AnswerInvalid(err: ValidationError) | BotRaised(exc: DecodeError)

  class Bot {
    /** The account id; `bot.self_id` is its decimal string. */
    const selfId: int
    /** `adapter.call_http(bot, action, params)`: the decoded answer, or the exception it raises. */
    const http: (string, map<string, Value>) -> Result<Value, string>
    /** `bot.get_resource_temp_url(resource_id=...)`. */
    const resourceTempUrl: Value -> Result<Value, string>
    /** `bot.get_forwarded_messages(forward_id=...)`. */
    const forwardedMessages: Value -> Result<seq<Forwarded>, string>
    /** The calls made so far, oldest first. */
    ghost var calls: seq<ApiCall>

    constructor(selfId: int, http: (string, map<string, Value>) -> Result<Value, string>,
                resourceTempUrl: Value -> Result<Value, string>,
                forwardedMessages: Value -> Result<seq<Forwarded>, string>)
      ensures this.selfId == selfId && this.http == http
      ensures this.resourceTempUrl == resourceTempUrl && this.forwardedMessages == forwardedMessages
      ensures calls == []
    {
      this.selfId := selfId;
      this.http := http;
      this.resourceTempUrl := resourceTempUrl;
      this.forwardedMessages := forwardedMessages;
      calls := [];
    }

    method CallHttp(action: string, params: map<string, Value>) returns (r: Result<Value, string>)
      modifies this
      ensures r == http(action, params)
      ensures calls == old(calls) + [HttpCall(action, params)]
    {
      calls := calls + [HttpCall(action, params)];
      r := http(action, params);
    }

    method GetResourceTempUrl(resourceId: Value) returns (r: Result<Value, string>)
      modifies this
      ensures r == resourceTempUrl(resourceId)
      ensures calls == old(calls) + [ResourceTempUrlCall(resourceId)]
    {
      calls := calls + [ResourceTempUrlCall(resourceId)];
      r := resourceTempUrl(resourceId);
    }

    method GetForwardedMessages(forwardId: Value) returns (r: Result<seq<Forwarded>, string>)
      modifies this
      ensures r == forwardedMessages(forwardId)
      ensures calls == old(calls) + [ForwardedMessagesCall(forwardId)]
    {
      calls := calls + [ForwardedMessagesCall(forwardId)];
      r := forwardedMessages(forwardId);
    }
  }

  // ---------------------------------------------------------------------------
  // get_message

  function GetMessageParams(scene: string, peerId: int, messageSeq: Value): map<string, Value>
  {
    map["message_scene" := Str(scene), "peer_id" := Int(peerId), "message_seq" := messageSeq]
  }

  /** What `get_message` makes of an answer: its `message` validated as an
      `IncomingMessage`, kept whole, whose scene, ids, time and segments are
      then those the answer gave. */
  function IncomingOfAnswer(answer: Result<Value, string>): (r: Result<Incoming, BotError>)
    ensures r.Ok? <==> && answer.Ok? && answer.value.Object? && "message" in answer.value.fields
                       && Validate(IncomingMessageSchema, answer.value.fields["message"]).Ok?
    ensures r.Ok? ==> var x := answer.value.fields["message"];
      && r.value.record == Validate(IncomingMessageSchema, x).value
      && IncomingShape(x.fields) && HasIds(r.value, x.fields)
      && "time" in x.fields && "time" in r.value.record && r.value.record["time"] == x.fields["time"]
      && "segments" in x.fields && "segments" in r.value.record && r.value.record["segments"] == x.fields["segments"]
  {
    if answer.Err? then Err(CallFailed(answer.error))
    else if !answer.value.Object? then Err(BotRaised(TypeError("the answer is not a dict")))
    else if "message" !in answer.value.fields then Err(BotRaised(KeyError(Str("message"))))
    else
      var x := answer.value.fields["message"];
      var rec := Validate(IncomingMessageSchema, x);
      if rec.Err? then Err(AnswerInvalid(rec.error))
      else
        IncomingValidated(x);
        Ok(IncomingOf(rec.value))
  }

  /** `Bot.get_message`: one `get_message` call, whose answer is read as above. */
  method GetMessage(bot: Bot, scene: string, peerId: int, messageSeq: Value) returns (r: Result<Incoming, BotError>)
    modifies bot
    ensures bot.calls == old(bot.calls) + [HttpCall("get_message", GetMessageParams(scene, peerId, messageSeq))]
    ensures r == IncomingOfAnswer(bot.http("get_message", GetMessageParams(scene, peerId, messageSeq)))
  {
    var answer := bot.CallHttp("get_message", GetMessageParams(scene, peerId, messageSeq));
    r := IncomingOfAnswer(answer);
  }

  // ---------------------------------------------------------------------------
  // sending

  /** What `send` and the send methods accept as a message. */
  datatype SendArg = TextArg(text: string) | SegmentArg(segment: Segment) | SegmentsArg(segments: seq<Segment>)

  /** `Message(message)`: a string becomes one text segment, a segment a
      one-segment message, a list of segments a message of them in order. */
  function AsMessage(arg: SendArg): Message
  {
    match arg
    case TextArg(t) => [TextSegment(t)]
    case SegmentArg(s) => [s]
    case SegmentsArg(ss) => ss
  }

  /** Where a reply goes: a friend or temp peer, or a group. */
  datatype Target = PrivateTarget(userId: int) | GroupTarget(groupId: int)

  /** `Bot.send`'s routing: a group message answers into its group, any other
      message event to its peer, and any other event is a `TypeError`. */
  function Route(e: Event): (r: Result<Target, DecodeError>)
    ensures r.Err? <==> !e.MessageEvent?
    ensures r.Ok? ==> (r.value.GroupTarget? <==> e.data.scene == "group")
    ensures r.Ok? ==> r.value == if r.value.GroupTarget? then GroupTarget(e.data.peerId) else PrivateTarget(e.data.peerId)
  {
    if !e.MessageEvent? then Err(TypeError("send needs a MessageEvent"))
    else if e.data.scene == "group" then Ok(GroupTarget(e.data.peerId))
    else Ok(PrivateTarget(e.data.peerId))
  }

  function SendAction(t: Target): string
  {
    if t.GroupTarget? then "send_group_message" else "send_private_message"
  }

  /** The parameters of a send: the peer under its own key and the message as its elements. */
  function SendParams(t: Target, elements: seq<Value>): (p: map<string, Value>)
    ensures p.Keys == {if t.GroupTarget? then "group_id" else "user_id", "message"}
    ensures p["message"] == Array(elements)
    ensures t.GroupTarget? ==> p["group_id"] == Int(t.groupId)
    ensures t.PrivateTarget? ==> p["user_id"] == Int(t.userId)
  {
    match t
    case PrivateTarget(u) => map["user_id" := Int(u), "message" := Array(elements)]
    case GroupTarget(g) => map["group_id" := Int(g), "message" := Array(elements)]
  }

  /** The response a send yields: the answer validated as the response record of its kind. */
  datatype Sent = PrivateSent(privateResponse: PrivateResponse) | GroupSent(groupResponse: GroupResponse)

  function SentOfAnswer(t: Target, answer: Result<Value, string>): Result<Sent, BotError>
  {
    if answer.Err? then Err(CallFailed(answer.error))
    else if t.PrivateTarget? then
      var p := ValidatePrivateResponse(answer.value);
      if p.Err? then Err(AnswerInvalid(p.error)) else Ok(PrivateSent(p.value))
    else
      var g := ValidateGroupResponse(answer.value);
      if g.Err? then Err(AnswerInvalid(g.error)) else Ok(GroupSent(g.value))
  }

  /** `send_private_message` / `send_group_message`: the message is turned
      into elements and posted in one call; a segment that cannot be dumped
      raises before any call. */
  method SendMessage(bot: Bot, t: Target, arg: SendArg) returns (r: Result<Sent, BotError>)
    modifies bot
    ensures var elements := DumpAll(AsMessage(arg));
      && (elements.Err? ==> r == Err(BotRaised(elements.error)) && bot.calls == old(bot.calls))
      && (elements.Ok? ==>
            && bot.calls == old(bot.calls) + [HttpCall(SendAction(t), SendParams(t, elements.value))]
            && r == SentOfAnswer(t, bot.http(SendAction(t), SendParams(t, elements.value))))
  {
    var message := AsMessage(arg);
    var elements := ToElements(message);
    if elements.Err? {
      return Err(BotRaised(elements.error));
    }
    var params := match t
      case PrivateTarget(u) => map["user_id" := Int(u), "message" := Array(elements.value)]
      case GroupTarget(g) => map["group_id" := Int(g), "message" := Array(elements.value)];
    var answer := bot.CallHttp(SendAction(t), params);
    r := SentOfAnswer(t, answer);
  }

  /** `Bot.send`: routes by scene, then sends; an event that is not a message
      event raises `TypeError` without any call. */
  method Send(bot: Bot, e: Event, arg: SendArg) returns (r: Result<Sent, BotError>)
    modifies bot
    ensures Route(e).Err? ==> r == Err(BotRaised(Route(e).error)) && bot.calls == old(bot.calls)
    ensures Route(e).Ok? && DumpAll(AsMessage(arg)).Ok? ==>
      var t := Route(e).value;
      var p := SendParams(t, DumpAll(AsMessage(arg)).value);
      && bot.calls == old(bot.calls) + [HttpCall(SendAction(t), p)]
      && r == SentOfAnswer(t, bot.http(SendAction(t), p))
    ensures Route(e).Ok? && DumpAll(AsMessage(arg)).Err? ==>
      r == Err(BotRaised(DumpAll(AsMessage(arg)).error)) && bot.calls == old(bot.calls)
  {
    var t := Route(e);
    if t.Err? {
      return Err(BotRaised(t.error));
    }
    r := SendMessage(bot, t.value, arg);
  }

  // ---------------------------------------------------------------------------
  // properties

  /** The server receives the message itself: the posted elements decode back
      to the message sent, for every message of well-formed segments. */
  lemma SentElementsDecode(t: Target, arg: SendArg)
    requires forall i | 0 <= i < |AsMessage(arg)| :: WellFormed(AsMessage(arg)[i])
    ensures DumpAll(AsMessage(arg)).Ok?
    ensures DecodeElements(SendParams(t, DumpAll(AsMessage(arg)).value)["message"]) == Ok(AsMessage(arg))
  {
    RoundTripList(AsMessage(arg));
  }

  /** Sending a string posts exactly one `text` element holding that string. */
  lemma TextSendsOneElement(t: Target, text: string)
    ensures DumpAll(AsMessage(TextArg(text))) == Ok([Element("text", map["text" := Str(text)])])
  {
    var s := TextSegment(text);
    AsDictSegmentOfJson(s);
    assert Dump(s) == Ok(Element("text", map["text" := Str(text)]));
    assert [s][..0] == [];
    assert DumpAll([s][..0]) == Ok([]);
    assert AsMessage(TextArg(text)) == [s];
    assert DumpAll([s]) == Ok([] + [Dump(s).value]);
    assert [] + [Dump(s).value] == [Element("text", map["text" := Str(text)])];
    assert DumpAll(AsMessage(TextArg(text))) == Ok([Element("text", map["text" := Str(text)])]);
  }

  /** A reply to a message decoded from a frame goes to the frame's peer: the
      group for a group message, the friend or temp peer otherwise. */
  lemma RouteFollowsFrame(classes: map<string, RegisteredClass>, v: Value, e: Event)
    requires Consistent(classes) && JsonToEvent(classes, v) == Ok(Some(e)) && e.MessageEvent?
    ensures v.Object? && "data" in v.fields && v.fields["data"].Object?
    ensures var data := v.fields["data"].fields;
      && IncomingShape(data)
      && Route(e) == Ok(if data["message_scene"] == Str("group") then GroupTarget(data["peer_id"].i)
                        else PrivateTarget(data["peer_id"].i))
  {
    DecodedMessageEvent(classes, v, e);
  }

  /** A reply to an event that is no message cannot be routed. */
  lemma OnlyMessageEventsRoute(e: Event)
    requires !e.MessageEvent?
    ensures Route(e).Err? && Route(e).error.TypeError?
  {
  }
}
