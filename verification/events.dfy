/** The events of `event.py` and how a received JSON frame becomes one
    (`Adapter.json_to_event`): the class table filled by
    `register_event_class`, validation against the event records,
    specialisation of message events by scene, and the accessors the
    framework calls. */
module Events {
  import opened Outcomes
  import opened PyText
  import opened Segments
  import opened Records

  // ---------------------------------------------------------------------------
  // the class table

  /** The classes `register_event_class` is applied to. */
  datatype RegisteredClass = MessageReceiveClass | MessageRecallClass | FriendRequestClass

  /** A registered class's `__event_type__`. */
  function EventTypeOf(c: RegisteredClass): string
  {
    match c
    case MessageReceiveClass => "message_receive"
    case MessageRecallClass => "message_recall"
    case FriendRequestClass => "friend_request"
  }

  /** No two registered classes share an event type, so none overwrites another. */
  lemma EventTypesDistinct(a: RegisteredClass, b: RegisteredClass)
    requires EventTypeOf(a) == EventTypeOf(b)
    ensures a == b
  {
  }

  /** `EVENT_CLASSES`: the module-level table from event type to class. */
  class EventRegistry {
    var classes: map<string, RegisteredClass>

    constructor()
      ensures classes == map[]
    {
      classes := map[];
    }

    /** `register_event_class`: files the class under its own event type and hands it back. */
    method Register(c: RegisteredClass) returns (r: RegisteredClass)
      modifies this
      ensures classes == old(classes)[EventTypeOf(c) := c]
      ensures r == c
    {
      classes := classes[EventTypeOf(c) := c];
      r := c;
    }
  }

  /** A table in which every class is filed under its own event type. */
  predicate Consistent(classes: map<string, RegisteredClass>)
  {
    forall t | t in classes :: EventTypeOf(classes[t]) == t
  }

  /** The table once `event.py` has been loaded. */
  function StandardClasses(): (m: map<string, RegisteredClass>)
    ensures m.Keys == {"message_receive", "message_recall", "friend_request"}
    ensures Consistent(m)
  {
    map["message_receive" := MessageReceiveClass,
        "message_recall" := MessageRecallClass,
        "friend_request" := FriendRequestClass]
  }

  /** Loading `event.py`: the three decorated classes are registered in
      declaration order, which yields the standard table. */
  method LoadEventModule() returns (registry: EventRegistry)
    ensures fresh(registry)
    ensures registry.classes == StandardClasses()
  {
    registry := new EventRegistry();
    var receive := registry.Register(MessageReceiveClass);
    var recall := registry.Register(MessageRecallClass);
    var request := registry.Register(FriendRequestClass);
  }

  /** Registering into a consistent table keeps it consistent and makes the
      class reachable by its event type. */
  lemma RegisterKeepsConsistent(classes: map<string, RegisteredClass>, c: RegisteredClass)
    requires Consistent(classes)
    ensures Consistent(classes[EventTypeOf(c) := c])
    ensures EventTypeOf(c) in classes[EventTypeOf(c) := c]
  {
  }

  // ---------------------------------------------------------------------------
  // the event records

  const SceneOptions: seq<string> := ["friend", "group", "temp"]

  /** `Event`: every event carries `time` and `self_id`. */
  const EventSchema: Schema := [
    Required("time", IntType),
    Required("self_id", IntType)]

  const IncomingMessageSchema: Schema := [
    Required("message_scene", LiteralType(SceneOptions)),
    Required("peer_id", IntType),
    Required("message_seq", IntType),
    Required("sender_id", IntType),
    Required("time", IntType),
    OptionalField("client_seq", IntType),
    Required("segments", DictListType)]

  const MessageEventSchema: Schema := [
    Required("time", IntType),
    Required("self_id", IntType),
    Required("data", ModelType(IncomingMessageSchema)),
    OptionalField("reply", ModelType(IncomingMessageSchema)),
    Defaulted("to_me", BoolType, Bool(false))]

  const MessageRecallDataSchema: Schema := [
    Required("message_scene", LiteralType(SceneOptions)),
    Required("peer_id", IntType),
    Required("message_seq", IntType),
    OptionalField("operator_id", IntType)]

  const MessageRecallEventSchema: Schema := [
    Required("time", IntType),
    Required("self_id", IntType),
    Required("data", ModelType(MessageRecallDataSchema))]

  const FriendRequestDataSchema: Schema := [
    Required("request_id", StrType),
    Required("operator_id", IntType),
    OptionalField("comment", StrType),
    OptionalField("via", StrType)]

  const FriendRequestEventSchema: Schema := [
    Required("time", IntType),
    Required("self_id", IntType),
    Required("data", ModelType(FriendRequestDataSchema))]

  // ---------------------------------------------------------------------------
  // event values

  /** `MessageEvent` itself and its three scene subclasses. */
  datatype MessageClass = Receive | FriendMessage | GroupMessage | TempMessage

  /** A validated `IncomingMessage`: the scene and ids the accessors read,
      and the whole validated dict (`time`, `client_seq`, `segments` and any
      extra key). */
  datatype Incoming = Incoming(scene: string, peerId: int, messageSeq: int, senderId: int,
                               record: map<string, Value>)

  /** An event object: its class, the typed fields the adapter reads, and the
      validated dict (`record`) with every field and extra key. */
  datatype Event =
    | BaseEvent(eventType: Value, selfId: int, record: map<string, Value>)
    | MessageEvent(cls: MessageClass, selfId: int, data: Incoming, reply: Option<Incoming>, toMe: bool,
                   message: Message, originalMessage: Message, record: map<string, Value>)
    | MessageRecallEvent(selfId: int, scene: string, record: map<string, Value>)
    | FriendRequestEvent(selfId: int, record: map<string, Value>)

  predicate IntAt(m: map<string, Value>, k: string)
  {
    k in m && m[k].Int?
  }

  /** A dict whose `self_id` is an integer. */
  predicate HeaderShape(m: map<string, Value>)
  {
    IntAt(m, "self_id")
  }

  /** A dict with a valid `message_scene` and the integer ids of a message. */
  predicate IncomingShape(m: map<string, Value>)
  {
    && "message_scene" in m && m["message_scene"].Str? && m["message_scene"].s in SceneOptions
    && IntAt(m, "peer_id") && IntAt(m, "message_seq") && IntAt(m, "sender_id")
  }

  function IncomingOf(m: map<string, Value>): Incoming
    requires IncomingShape(m)
  {
    Incoming(m["message_scene"].s, m["peer_id"].i, m["message_seq"].i, m["sender_id"].i, m)
  }

  /** The scene and ids of `i` are those of the dict `m`. */
  predicate HasIds(i: Incoming, m: map<string, Value>)
    requires IncomingShape(m)
  {
    && i.scene == m["message_scene"].s && i.peerId == m["peer_id"].i
    && i.messageSeq == m["message_seq"].i && i.senderId == m["sender_id"].i
  }

  /** The `reply` of a validated `MessageEvent` dict: `None`, or a validated `IncomingMessage`. */
  function ReplyOf(r: map<string, Value>): Option<Incoming>
  {
    if "reply" in r && r["reply"].Object? && IncomingShape(r["reply"].fields)
    then Some(IncomingOf(r["reply"].fields)) else None
  }

  predicate MessageRecordShape(rec: map<string, Value>)
  {
    && HeaderShape(rec)
    && "data" in rec && rec["data"].Object? && IncomingShape(rec["data"].fields)
    && "to_me" in rec && rec["to_me"].Bool?
  }

  predicate RecallRecordShape(rec: map<string, Value>)
  {
    && HeaderShape(rec)
    && "data" in rec && rec["data"].Object?
    && "message_scene" in rec["data"].fields && rec["data"].fields["message_scene"].Str?
    && rec["data"].fields["message_scene"].s in SceneOptions
  }

  /** Every event record validates `time` and `self_id` as integers, kept from the input. */
  lemma HeaderValidated(schema: Schema, v: Value)
    requires |schema| >= 2 && schema[0] == Required("time", IntType) && schema[1] == Required("self_id", IntType)
    requires Validate(schema, v).Ok?
    ensures HeaderShape(v.fields) && HeaderShape(Validate(schema, v).value)
    ensures Validate(schema, v).value["self_id"] == v.fields["self_id"]
    ensures IntAt(v.fields, "time") && IntAt(Validate(schema, v).value, "time")
    ensures Validate(schema, v).value["time"] == v.fields["time"]
  {
    FieldIndexAt(schema, 0);
    ValidatedKept(schema, v, 0);
    FieldIndexAt(schema, 1);
    ValidatedKept(schema, v, 1);
  }

  /** A required integer field of a validated record is the input's own integer. */
  lemma IntFieldKept(schema: Schema, x: Value, i: nat)
    requires Validate(schema, x).Ok? && i < |schema| && schema[i] == Required(schema[i].name, IntType)
    requires forall j | 0 <= j < i :: schema[j].name != schema[i].name
    ensures IntAt(x.fields, schema[i].name) && IntAt(Validate(schema, x).value, schema[i].name)
    ensures Validate(schema, x).value[schema[i].name] == x.fields[schema[i].name]
  {
    FieldIndexAt(schema, i);
    ValidatedKept(schema, x, i);
  }

  /** A validated `IncomingMessage` keeps the scene, the ids, the time and
      the segments it was given. */
  lemma IncomingValidated(x: Value)
    requires Validate(IncomingMessageSchema, x).Ok?
    ensures IncomingShape(x.fields) && IncomingShape(Validate(IncomingMessageSchema, x).value)
    ensures HasIds(IncomingOf(Validate(IncomingMessageSchema, x).value), x.fields)
    ensures IntAt(x.fields, "time") && IntAt(Validate(IncomingMessageSchema, x).value, "time")
    ensures Validate(IncomingMessageSchema, x).value["time"] == x.fields["time"]
    ensures "segments" in x.fields && "segments" in Validate(IncomingMessageSchema, x).value
    ensures Validate(IncomingMessageSchema, x).value["segments"] == x.fields["segments"]
  {
    var s := IncomingMessageSchema;
    LiteralFieldClosed(s, x, 0);
    ValidatedKept(s, x, 0);
    IntFieldKept(s, x, 1);
    IntFieldKept(s, x, 2);
    IntFieldKept(s, x, 3);
    IntFieldKept(s, x, 4);
    FieldIndexAt(s, 6);
    ValidatedKept(s, x, 6);
  }

  /** A validated `MessageEvent` dict has the shape the typed view reads. */
  lemma MessageEventValidated(v: Value)
    requires Validate(MessageEventSchema, v).Ok?
    ensures "data" in v.fields && Validate(IncomingMessageSchema, v.fields["data"]).Ok?
    ensures MessageRecordShape(Validate(MessageEventSchema, v).value)
    ensures Validate(MessageEventSchema, v).value["data"]
         == Object(Validate(IncomingMessageSchema, v.fields["data"]).value)
  {
    var s := MessageEventSchema;
    HeaderValidated(s, v);
    FieldIndexAt(s, 2);
    FieldIndexAt(s, 4);
    ValidatedNested(s, v, 2);
    IncomingValidated(v.fields["data"]);
    ValidatedField(s, v, 4);
  }

  /** A validated `MessageRecallEvent` dict has the shape the typed view reads. */
  lemma RecallEventValidated(v: Value)
    requires Validate(MessageRecallEventSchema, v).Ok?
    ensures RecallRecordShape(Validate(MessageRecallEventSchema, v).value)
    ensures "data" in v.fields && v.fields["data"].Object? && "message_scene" in v.fields["data"].fields
    ensures Validate(MessageRecallEventSchema, v).value["data"].fields["message_scene"]
         == v.fields["data"].fields["message_scene"]
  {
    var s := MessageRecallEventSchema;
    HeaderValidated(s, v);
    FieldIndexAt(s, 2);
    ValidatedNested(s, v, 2);
    var x := v.fields["data"];
    FieldIndexAt(MessageRecallDataSchema, 0);
    LiteralFieldClosed(MessageRecallDataSchema, x, 0);
    ValidatedKept(MessageRecallDataSchema, x, 0);
  }

  /** The `reply` of a validated `MessageEvent` dict is `None` exactly when the
      input has none or `None`, and is otherwise the input's validated `IncomingMessage`. */
  lemma ReplyValidated(v: Value)
    requires Validate(MessageEventSchema, v).Ok?
    ensures var r := Validate(MessageEventSchema, v).value;
      && (ReplyOf(r).None? <==> "reply" !in v.fields || v.fields["reply"] == Null)
      && (ReplyOf(r).Some? ==>
            && "reply" in v.fields && Validate(IncomingMessageSchema, v.fields["reply"]).Ok?
            && IncomingShape(Validate(IncomingMessageSchema, v.fields["reply"]).value)
            && ReplyOf(r).value == IncomingOf(Validate(IncomingMessageSchema, v.fields["reply"]).value))
  {
    var s := MessageEventSchema;
    FieldIndexAt(s, 3);
    ValidatedField(s, v, 3);
    if "reply" in v.fields && v.fields["reply"] != Null {
      var x := v.fields["reply"];
      assert Validate(s, v).value["reply"] == Object(Validate(IncomingMessageSchema, x).value);
      IncomingValidated(x);
    }
  }

  /** `to_me` is true exactly when the dict says so; it defaults to `False`. */
  lemma ToMeValidated(v: Value)
    requires Validate(MessageEventSchema, v).Ok?
    ensures "to_me" in Validate(MessageEventSchema, v).value
    ensures var x := Validate(MessageEventSchema, v).value["to_me"];
      x.Bool? && (x.b <==> "to_me" in v.fields && v.fields["to_me"] == Bool(true))
    ensures "to_me" in v.fields ==> v.fields["to_me"].Bool?
  {
    FieldIndexAt(MessageEventSchema, 4);
    ValidatedField(MessageEventSchema, v, 4);
  }

  /** A validated `IncomingMessage` was given its `segments`. */
  lemma SegmentsValidated(x: Value)
    requires Validate(IncomingMessageSchema, x).Ok?
    ensures "segments" in x.fields
  {
    FieldIndexAt(IncomingMessageSchema, 6);
    ValidatedKept(IncomingMessageSchema, x, 6);
  }

  // ---------------------------------------------------------------------------
  // validation of one event class

  /** Why an event could not be built: an exception raised while validating,
      or a pydantic validation error. */
  datatype Failure = Raised(exc: DecodeError) | Rejected(err: ValidationError)

  /** `MessageEvent.handle_message`, run on the dict before its fields are
      checked: the message is decoded from `data["segments"]`, taken as `[]`
      when the key is absent. */
  function HandleMessage(values: map<string, Value>): Result<Message, DecodeError>
  {
    if "data" !in values then Err(KeyError(Str("data")))
    else if values["data"].Object? then
      var data := values["data"].fields;
      DecodeElements(if "segments" in data then data["segments"] else Array([]))
    else Err(AttributeError("segments"))
  }

  /** Validation as `MessageEvent`: `handle_message`, then the fields; the
      decoded message is both `message` and its copy `original_message`, which
      replace whatever the dict held under those two keys. */
  function ValidateMessageEvent(values: map<string, Value>): Result<Event, Failure>
  {
    var msg := HandleMessage(values);
    if msg.Err? then Err(Raised(msg.error))
    else
      var rec := Validate(MessageEventSchema, Object(values));
      if rec.Err? then Err(Rejected(rec.error))
      else
        MessageEventValidated(Object(values));
        var r := rec.value;
        Ok(MessageEvent(Receive, r["self_id"].i, IncomingOf(r["data"].fields), ReplyOf(r), r["to_me"].b,
                        msg.value, msg.value, r - {"message", "original_message"}))
  }

  /** The subclass `convert` picks for a scene; any other scene is a `KeyError`. */
  function SceneClass(scene: string): (r: Result<MessageClass, DecodeError>)
    ensures r.Ok? <==> scene in SceneOptions
    ensures r.Ok? ==> r.value != Receive
    ensures r.Err? ==> r.error == KeyError(Str(scene))
  {
    if scene == "friend" then Ok(FriendMessage)
    else if scene == "group" then Ok(GroupMessage)
    else if scene == "temp" then Ok(TempMessage)
    else Err(KeyError(Str(scene)))
  }

  /** Distinct scenes give distinct classes. */
  lemma SceneClassInjective(a: string, b: string)
    requires SceneClass(a).Ok? && SceneClass(a) == SceneClass(b)
    ensures a == b
  {
  }

  /** `MessageEvent.convert`: the same event, re-validated as the subclass of
      its scene; re-validation decodes the same segments into the same message. */
  function Convert(e: Event): (r: Result<Event, DecodeError>)
    requires e.MessageEvent?
    ensures r.Ok? <==> e.data.scene in SceneOptions
    ensures r.Ok? ==> r.value.MessageEvent? && r.value == e.(cls := r.value.cls) && r.value.cls != Receive
  {
    var c := SceneClass(e.data.scene);
    if c.Err? then Err(c.error) else Ok(e.(cls := c.value))
  }

  /** Validation into a registered class; a message event is converted at once. */
  function ValidateAs(c: RegisteredClass, values: map<string, Value>): Result<Event, Failure>
  {
    match c
    case MessageReceiveClass =>
      var e := ValidateMessageEvent(values);
      if e.Err? then e
      else
        var converted := Convert(e.value);
        if converted.Err? then Err(Raised(converted.error)) else Ok(converted.value)
    case MessageRecallClass =>
      var rec := Validate(MessageRecallEventSchema, Object(values));
      if rec.Err? then Err(Rejected(rec.error))
      else
        RecallEventValidated(Object(values));
        var r := rec.value;
        Ok(MessageRecallEvent(r["self_id"].i, r["data"].fields["message_scene"].s, r))
    case FriendRequestClass =>
      var rec := Validate(FriendRequestEventSchema, Object(values));
      if rec.Err? then Err(Rejected(rec.error))
      else
        HeaderValidated(FriendRequestEventSchema, Object(values));
        Ok(FriendRequestEvent(rec.value["self_id"].i, rec.value))
  }

  /** Validation as the base `Event`, tagged with the event type it arrived with. */
  function ValidateBase(eventType: Value, values: map<string, Value>): Result<Event, Failure>
  {
    var rec := Validate(EventSchema, Object(values));
    if rec.Err? then Err(Rejected(rec.error))
    else
      HeaderValidated(EventSchema, Object(values));
      Ok(BaseEvent(eventType, rec.value["self_id"].i, rec.value))
  }

  // ---------------------------------------------------------------------------
  // json_to_event

  /** `Adapter.json_to_event` over the class table `classes`. Only a dict is
      decoded; its `event_type` is popped before validation and a dict without
      one raises `KeyError` outside the guarded block; inside it every failure,
      including an unhashable event type, yields `None`. */
  function JsonToEvent(classes: map<string, RegisteredClass>, v: Value): (r: Result<Option<Event>, DecodeError>)
    ensures !v.Object? ==> r == Ok(None)
    ensures r.Err? <==> v.Object? && "event_type" !in v.fields
    ensures r.Err? ==> r.error == KeyError(Str("event_type"))
  {
    if !v.Object? then Ok(None)
    else if "event_type" !in v.fields then Err(KeyError(Str("event_type")))
    else
      var t := v.fields["event_type"];
      var values := v.fields - {"event_type"};
      if !Hashable(t) then Ok(None)
      else
        var e := if t.Str? && t.s in classes then ValidateAs(classes[t.s], values) else ValidateBase(t, values);
        if e.Err? then Ok(None) else Ok(Some(e.value))
  }

  /** `Event.event_type`: the class's `__event_type__`, or for a base event
      the tag it arrived with. */
  function EventType(e: Event): Value
  {
    match e
    case BaseEvent(t, _, _) => t
    case MessageEvent(_, _, _, _, _, _, _, _) => Str(EventTypeOf(MessageReceiveClass))
    case MessageRecallEvent(_, _, _) => Str(EventTypeOf(MessageRecallClass))
    case FriendRequestEvent(_, _) => Str(EventTypeOf(FriendRequestClass))
  }

  // ---------------------------------------------------------------------------
  // accessors

  /** The exception the base `Event` accessors raise. */
  datatype AccessError = ValueError(reason: string)

  /** `get_type`: `""` for the base class, then by family. */
  function GetType(e: Event): string
  {
    match e
    case BaseEvent(_, _, _) => ""
    case MessageEvent(_, _, _, _, _, _, _, _) => "message"
    case MessageRecallEvent(_, _, _) => "notice"
    case FriendRequestEvent(_, _) => "request"
  }

  /** `get_event_name`: `message:<scene>`, `recall:<scene>`, or the event type. */
  function GetEventName(e: Event): Value
  {
    if e.MessageEvent? then Str("message:" + e.data.scene)
    else if e.MessageRecallEvent? then Str("recall:" + e.scene)
    else EventType(e)
  }

  /** `get_user_id`: the sender of a message; other events raise. */
  function GetUserId(e: Event): Result<string, AccessError>
  {
    if e.MessageEvent? then Ok(IntStr(e.data.senderId))
    else Err(ValueError("This event does not have a user_id"))
  }

  /** `get_session_id`: group and sender in a group, the peer elsewhere; other events raise. */
  function GetSessionId(e: Event): Result<string, AccessError>
  {
    if !e.MessageEvent? then Err(ValueError("This event does not have a session_id"))
    else if e.data.scene == "group" then Ok(IntStr(e.data.peerId) + "_" + IntStr(e.data.senderId))
    else Ok(IntStr(e.data.peerId))
  }

  /** `get_message`: only message events have one. */
  function GetMessage(e: Event): Result<Message, AccessError>
  {
    if e.MessageEvent? then Ok(e.message) else Err(ValueError("This event does not have a message"))
  }

  /** `is_tome`: a message event's `to_me`; `False` for every other event. */
  predicate IsToMe(e: Event)
  {
    e.MessageEvent? && e.toMe
  }

  /** `MessageEvent.message_id`. */
  function MessageId(e: Event): int
    requires e.MessageEvent?
  {
    e.data.messageSeq
  }

  // ---------------------------------------------------------------------------
  // properties of json_to_event and the accessors

  /** A dict with an event type no class is registered under becomes a base
      `Event` that keeps that type, provided it validates as `Event`; it is
      not dropped for being unknown. */
  lemma UnknownTypeKept(classes: map<string, RegisteredClass>, v: Value)
    requires v.Object? && "event_type" in v.fields
    requires Hashable(v.fields["event_type"])
    requires !(v.fields["event_type"].Str? && v.fields["event_type"].s in classes)
    ensures var r := JsonToEvent(classes, v);
      r.Ok? && (r.value.Some? <==> Validate(EventSchema, Object(v.fields - {"event_type"})).Ok?)
    ensures var r := JsonToEvent(classes, v);
      r.Ok? && r.value.Some? ==>
        && r.value.value.BaseEvent?
        && EventType(r.value.value) == v.fields["event_type"]
        && GetEventName(r.value.value) == v.fields["event_type"]
        && GetType(r.value.value) == ""
        && IntAt(v.fields, "self_id") && r.value.value.selfId == v.fields["self_id"].i
  {
    var values := v.fields - {"event_type"};
    if Validate(EventSchema, Object(values)).Ok? {
      HeaderValidated(EventSchema, Object(values));
    }
  }

  /** With a consistent table, a decoded event's `event_type` is the tag the
      dict carried, and the popped tag is not among the event's fields. */
  lemma EventTypeKept(classes: map<string, RegisteredClass>, v: Value, e: Event)
    requires Consistent(classes) && JsonToEvent(classes, v) == Ok(Some(e))
    ensures v.Object? && "event_type" in v.fields
    ensures EventType(e) == v.fields["event_type"]
    ensures "event_type" !in e.record
  {
    var t := v.fields["event_type"];
    var values := v.fields - {"event_type"};
    var schema := if t.Str? && t.s in classes then
        match classes[t.s]
        case MessageReceiveClass => MessageEventSchema
        case MessageRecallClass => MessageRecallEventSchema
        case FriendRequestClass => FriendRequestEventSchema
      else EventSchema;
    assert Validate(schema, Object(values)).Ok?;
    ValidatedKeys(schema, Object(values));
    assert "event_type" !in Names(schema);
  }

  /** `get_type` follows the tag: `message`, `notice` and `request` for the three
      registered types, `""` for every other. */
  lemma TypeFollowsTag(v: Value, e: Event)
    requires JsonToEvent(StandardClasses(), v) == Ok(Some(e))
    ensures v.Object? && "event_type" in v.fields
    ensures var t := v.fields["event_type"];
      GetType(e) == if t == Str("message_receive") then "message"
                    else if t == Str("message_recall") then "notice"
                    else if t == Str("friend_request") then "request"
                    else ""
  {
    EventTypeKept(StandardClasses(), v, e);
  }

  /** A decoded message event reads its ids and scene from the dict's `data`,
      holds the message decoded from `data["segments"]` and an equal copy of
      it, is specialised to its scene's subclass, and is addressed to the bot
      exactly when the dict says `to_me: true`. */
  lemma DecodedMessageEvent(classes: map<string, RegisteredClass>, v: Value, e: Event)
    requires Consistent(classes) && JsonToEvent(classes, v) == Ok(Some(e)) && e.MessageEvent?
    ensures v.Object? && "event_type" in v.fields && v.fields["event_type"] == Str("message_receive")
    ensures "data" in v.fields && v.fields["data"].Object?
    ensures var data := v.fields["data"].fields;
      && IncomingShape(data) && HasIds(e.data, data)
      && Validate(IncomingMessageSchema, v.fields["data"]).Ok?
      && IncomingShape(Validate(IncomingMessageSchema, v.fields["data"]).value)
      && e.data == IncomingOf(Validate(IncomingMessageSchema, v.fields["data"]).value)
      && "segments" in data && DecodeElements(data["segments"]) == Ok(e.message)
    ensures e.originalMessage == e.message
    ensures SceneClass(e.data.scene) == Ok(e.cls)
    ensures IntAt(v.fields, "self_id") && e.selfId == v.fields["self_id"].i
    ensures e.toMe <==> "to_me" in v.fields && v.fields["to_me"] == Bool(true)
    ensures e.reply.None? <==> "reply" !in v.fields || v.fields["reply"] == Null
    ensures e.reply.Some? ==>
      && "reply" in v.fields && Validate(IncomingMessageSchema, v.fields["reply"]).Ok?
      && IncomingShape(Validate(IncomingMessageSchema, v.fields["reply"]).value)
      && e.reply.value == IncomingOf(Validate(IncomingMessageSchema, v.fields["reply"]).value)
  {
    EventTypeKept(classes, v, e);
    var values := v.fields - {"event_type"};
    var x := Object(values);
    assert Validate(MessageEventSchema, x).Ok?;
    MessageEventValidated(x);
    HeaderValidated(MessageEventSchema, x);
    IncomingValidated(values["data"]);
    SegmentsValidated(values["data"]);
    ToMeValidated(x);
    ReplyValidated(x);
  }

  /** A message event whose `data` has no `segments` gets an empty message from
      `handle_message`, but the required field then fails and the event is dropped. */
  lemma MissingSegmentsDropped(v: Value)
    requires v.Object? && "event_type" in v.fields && v.fields["event_type"] == Str("message_receive")
    requires "data" in v.fields && v.fields["data"].Object? && "segments" !in v.fields["data"].fields
    ensures HandleMessage(v.fields - {"event_type"}) == Ok([])
    ensures JsonToEvent(StandardClasses(), v) == Ok(None)
  {
    var x := Object(v.fields - {"event_type"});
    if Validate(MessageEventSchema, x).Ok? {
      MessageEventValidated(x);
      SegmentsValidated(x.fields["data"]);
      assert false;
    }
  }

  /** A decoded recall event is named after the scene the dict gave. */
  lemma DecodedRecallEvent(classes: map<string, RegisteredClass>, v: Value, e: Event)
    requires Consistent(classes) && JsonToEvent(classes, v) == Ok(Some(e)) && e.MessageRecallEvent?
    ensures v.Object? && "event_type" in v.fields && v.fields["event_type"] == Str("message_recall")
    ensures "data" in v.fields && v.fields["data"].Object? && "message_scene" in v.fields["data"].fields
    ensures var scene := v.fields["data"].fields["message_scene"];
      scene.Str? && scene.s in SceneOptions && GetEventName(e) == Str("recall:" + scene.s)
    ensures GetType(e) == "notice"
  {
    EventTypeKept(classes, v, e);
    var x := Object(v.fields - {"event_type"});
    assert Validate(MessageRecallEventSchema, x).Ok?;
    RecallEventValidated(x);
  }

  /** The accessors of a decoded message event, in terms of the dict received. */
  lemma MessageAccessors(classes: map<string, RegisteredClass>, v: Value, e: Event)
    requires Consistent(classes) && JsonToEvent(classes, v) == Ok(Some(e)) && e.MessageEvent?
    ensures v.Object? && "data" in v.fields && v.fields["data"].Object?
    ensures var data := v.fields["data"].fields;
      && IncomingShape(data)
      && GetType(e) == "message"
      && GetEventName(e) == Str("message:" + data["message_scene"].s)
      && GetUserId(e) == Ok(IntStr(data["sender_id"].i))
      && MessageId(e) == data["message_seq"].i
      && GetSessionId(e) == Ok(if data["message_scene"] == Str("group")
                               then IntStr(data["peer_id"].i) + "_" + IntStr(data["sender_id"].i)
                               else IntStr(data["peer_id"].i))
      && "segments" in data && GetMessage(e) == Ok(DecodeElements(data["segments"]).value)
  {
    DecodedMessageEvent(classes, v, e);
  }

  /** Session ids tell sessions apart: equal ids mean the same kind of scene,
      the same peer and, in a group, the same sender. */
  lemma SessionIdInjective(e1: Event, e2: Event)
    requires e1.MessageEvent? && e2.MessageEvent?
    requires GetSessionId(e1) == GetSessionId(e2)
    ensures (e1.data.scene == "group") == (e2.data.scene == "group")
    ensures e1.data.peerId == e2.data.peerId
    ensures e1.data.scene == "group" ==> e1.data.senderId == e2.data.senderId
  {
    var p1, s1, p2, s2 := IntStr(e1.data.peerId), IntStr(e1.data.senderId), IntStr(e2.data.peerId), IntStr(e2.data.senderId);
    IntStrNoUnderscore(e1.data.peerId);
    IntStrNoUnderscore(e2.data.peerId);
    var g1, g2 := e1.data.scene == "group", e2.data.scene == "group";
    if g1 && g2 {
      JoinUnderscoreInjective(p1, s1, p2, s2);
      IntStrInjective(e1.data.senderId, e2.data.senderId);
      IntStrInjective(e1.data.peerId, e2.data.peerId);
    } else if g1 || g2 {
      // one id has a `_` after the peer and the other has none
      assert false;
    } else {
      IntStrInjective(e1.data.peerId, e2.data.peerId);
    }
  }

  /** Only message events have a user, a session or a message, and only they
      can be addressed to the bot. */
  lemma OnlyMessagesHaveUsers(e: Event)
    ensures GetUserId(e).Ok? <==> e.MessageEvent?
    ensures GetSessionId(e).Ok? <==> e.MessageEvent?
    ensures GetMessage(e).Ok? <==> e.MessageEvent?
    ensures IsToMe(e) ==> e.MessageEvent?
  {
  }
}
