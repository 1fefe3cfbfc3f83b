# Milky adapter for NoneBot — a verified model of its core

This project models the protocol core of the NoneBot adapter for the Milky
protocol in Dafny and proves properties of that model:

- the message-segment codec (`message.py`): the twelve segment kinds and
  their tags, `parse`/`dump` (including `Forward`'s two shapes),
  `Message.from_elements`/`to_elements`, `is_text`/`__str__` and the
  factories;
- the outbound resolver `Message.sendable`, which turns lazy media into a
  `uri`, inlines a forwarded-message reference and drops receive-only kinds,
  against a bot whose two resolver calls are oracles recorded in a ghost
  call trace;
- the records of `model.py` and `model/common.py` (closed literal enums,
  optional fields, `ModelBase.dict_`, the `get_reply` builders, the
  `GroupNotification` union), with pydantic validation written out as
  explicit strict rules;
- events (`event.py`): the `EVENT_CLASSES` registry, `handle_message`,
  `convert`, the accessors, and `Adapter.json_to_event`;
- the adapter (`adapter.py`): `_call_api`, the header, body and error logic
  of `call_http`, and the bind/unbind/reconnect skeleton of `ws_connect`,
  as a class whose `connections` map and bot set the methods update;
- the bot (`bot.py`): `_check_reply` and `_check_at_me` as methods that
  edit a message event in place, `handle_event`'s preparation of a message
  event, `send`'s scene routing and the parameters of
  `send_private_message`/`send_group_message`/`get_message`.

Files: `outcomes.dfy` (Option/Result), `pytext.dfy` (Python's `str(int)`,
`isspace`, `lstrip`), `segments.dfy`, `records.dfy` (the validation rules),
`model.dfy`, `common.dfy`, `events.dfy`, `api.dfy` (the bot and its API
methods), `checks.dfy` (the message-event edits), `sendable.dfy`,
`adapter.dfy`.

Where the code and its documented behaviour differ, the model follows the
code. In `ws_connect` an error while reading frames (including a frame that
is not JSON) reconnects at once without sleeping; only a failure to set the
connection up waits `RECONNECT_INTERVAL`. In `_check_reply` a quoted message
from the bot sets `to_me`, but one from someone else leaves an earlier
`to_me` as it was: the code only ever sets the flag to true.

All paths below are relative to the repository root.

## Model

| member | source | states |
|---|---|---|
| PyText.NatStrShape | src/nonebot/adapters/milky/bot.py:61 | the decimal text of a natural number is non-empty and made of digits, with at least two digits from 10 on |
| PyText.IntStrInjective | src/nonebot/adapters/milky/bot.py:61 | `str()` of integers is injective, so the string comparison of ids agrees with integer equality |
| PyText.IntStrNoUnderscore | src/nonebot/adapters/milky/event.py:155-158 | the text of an integer never contains `_` |
| PyText.JoinUnderscoreInjective | src/nonebot/adapters/milky/event.py:155-158 | joining two integer texts with `_` is injective in the pair |
| PyText.LeadingSpaces | src/nonebot/adapters/milky/bot.py:73 | the count of leading whitespace characters: all of them are whitespace and the next one is not |
| PyText.LStrip | src/nonebot/adapters/milky/bot.py:73 | `lstrip` returns a suffix, removes only whitespace, starts with a non-space, and is empty exactly when the text is blank |
| Segments.TagFollowsSubclassRule | src/nonebot/adapters/milky/message.py:33-34 | every kind's tag is its `element_type` argument, else its lower-cased class name |
| Segments.TagInjective | src/nonebot/adapters/milky/message.py:130-296 | two kinds with the same tag are the same kind |
| Segments.TagsDistinct | src/nonebot/adapters/milky/message.py:130-296 | the twelve tags are pairwise distinct |
| Segments.KindListed | src/nonebot/adapters/milky/message.py:299 | every kind is among the classes collected into the tag table |
| Segments.TypeMappingExact | src/nonebot/adapters/milky/message.py:299 | the tag table maps each kind's tag to that kind and holds nothing else |
| Segments.KindOf | src/nonebot/adapters/milky/message.py:299 | a kind found for a type string has that string as its tag |
| Segments.KindOfTag | src/nonebot/adapters/milky/message.py:299 | looking up a kind's tag finds that kind |
| Segments.KindOfIsTypeMapping | src/nonebot/adapters/milky/message.py:299 | a type string has a kind exactly when it is a key of the table, and the kind is the table's value |
| Segments.AsDict | src/nonebot/adapters/milky/message.py:30-31 | `asdict` of a segment's data is plain JSON |
| Segments.AsDictKeepsJson | src/nonebot/adapters/milky/message.py:30-31 | `asdict` leaves plain JSON data unchanged |
| Segments.DumpAllPointwise | src/nonebot/adapters/milky/message.py:321-325 | `to_elements` succeeds exactly when every segment dumps, and then gives one dump per segment, in order |
| Segments.DumpAllFirstError | src/nonebot/adapters/milky/message.py:321-325 | `to_elements` fails with the error of the first segment that does not dump |
| Segments.DecodeItemsPointwise | src/nonebot/adapters/milky/message.py:315-319 | decoding succeeds exactly when every element parses, and then gives one segment per element, in order |
| Segments.DecodeItemsFirstError | src/nonebot/adapters/milky/message.py:315-319 | decoding fails with the error of the first element that does not parse |
| Segments.DecodeElementsPointwise | src/nonebot/adapters/milky/message.py:315-319 | `from_elements` keeps length and order and succeeds exactly when every element parses |
| Segments.UnknownTypeFailsWholeMessage | src/nonebot/adapters/milky/message.py:318 | an element whose type is not in the tag table raises `KeyError` and the whole decode fails; it is not skipped |
| Segments.ParseOfElement | src/nonebot/adapters/milky/message.py:27-28 | parsing an element dispatches on its tag to that kind's `parse` |
| Segments.RoundTrip | src/nonebot/adapters/milky/message.py:27-31 | every well-formed segment dumps, and parsing the dump gives the segment back |
| Segments.RoundTripNodes | src/nonebot/adapters/milky/message.py:235-267 | a forward's node list dumps one entry per node and parses back to the same nodes |
| Segments.RoundTripNode | src/nonebot/adapters/milky/message.py:241-245 | a node's `user_id`, `name` and segments dump and parse back unchanged |
| Segments.RoundTripList | src/nonebot/adapters/milky/message.py:315-325 | `from_elements(to_elements(m)) == m` for every well-formed message, with one element per segment |
| Segments.DecodedIsWellFormed | src/nonebot/adapters/milky/message.py:27-28 | every parsed segment is well-formed |
| Segments.ParsedForwardIsWellFormed | src/nonebot/adapters/milky/message.py:235-250 | a parsed forward, in either shape, is well-formed |
| Segments.DecodedNodesAreWellFormed | src/nonebot/adapters/milky/message.py:240-247 | parsing a node list gives one well-formed node per entry |
| Segments.DecodedListIsWellFormed | src/nonebot/adapters/milky/message.py:315-319 | a decoded message has one well-formed segment per element |
| Segments.NormalisedByOneRoundTrip | src/nonebot/adapters/milky/message.py:27-31 | a parsed element dumps, and parsing that dump gives the same segment: parse/dump is idempotent after one pass |
| Segments.FromElements | src/nonebot/adapters/milky/message.py:315-319 | the append loop returns exactly the list-level decode of the elements |
| Segments.ToElements | src/nonebot/adapters/milky/message.py:321-325 | the append loop returns exactly the list-level dump of the message |
| Segments.IsTextExactlyText | src/nonebot/adapters/milky/message.py:42-45 | `is_text` holds exactly for the text kind |
| Segments.ShownData | src/nonebot/adapters/milky/message.py:38 | the shown data holds exactly the keys not starting with `_`, with their values |
| Segments.Render | src/nonebot/adapters/milky/message.py:36-40 | a text segment renders as its raw text (a missing `text` key raises); any other renders as its type with exactly the shown data (the keys not starting with `_`, with their values) |
| Segments.TextSegment | src/nonebot/adapters/milky/message.py:47-50 | `text(content)` is a well-formed text segment whose data is exactly `{text}` |
| Segments.MentionSegment | src/nonebot/adapters/milky/message.py:52-55 | `mention(user_id)` is well-formed with data exactly `{user_id}` |
| Segments.MentionAllSegment | src/nonebot/adapters/milky/message.py:57-60 | `mention_all()` is well-formed with empty data |
| Segments.FaceSegment | src/nonebot/adapters/milky/message.py:62-65 | `face(face_id)` is well-formed with data exactly `{face_id}` |
| Segments.ReplySegment | src/nonebot/adapters/milky/message.py:67-70 | `reply(message_seq)` is well-formed with data exactly `{message_seq}` |
| Segments.ImageSegment | src/nonebot/adapters/milky/message.py:72-84 | `image(...)` is a well-formed image whose data is exactly `{uri, summary, sub_type}` with the given values (`None` for an absent summary) |
| Segments.RecordSegment | src/nonebot/adapters/milky/message.py:86-96 | `record(...)` is a well-formed record whose data is exactly `{uri}` with the given uri |
| Segments.VideoSegment | src/nonebot/adapters/milky/message.py:98-109 | `video(...)` is a well-formed video whose data is exactly `{uri, thumb_url}` with the given values |
| Segments.NodeOf | src/nonebot/adapters/milky/message.py:116-123 | `node` keeps the given user id, name and segments |
| Segments.ForwardSegment | src/nonebot/adapters/milky/message.py:111-114 | `forward(nodes)` has data exactly `{messages: nodes}`, and is well-formed when its nodes are |
| Records.CheckFieldsSpec | src/nonebot/adapters/milky/model.py:12-32 | a record validates exactly when each declared field does, and then holds each field's checked value |
| Records.CheckFieldsFirstError | src/nonebot/adapters/milky/model.py:12-32 | validation reports the first field, in declaration order, that fails |
| Records.BuildKeys | src/nonebot/adapters/milky/model.py:12-32 | a validated record holds the declared fields plus the input's extra keys, kept unchanged |
| Records.ValidatedField | src/nonebot/adapters/milky/model.py:12-32 | each declared field of a validated record holds that field's checked value |
| Records.LiteralFieldClosed | src/nonebot/adapters/milky/model.py:115-122 | a validated literal field holds one of its listed strings |
| Records.MissingRequiredFails | src/nonebot/adapters/milky/model.py:97-122 | an absent required field makes validation fail |
| Records.AbsentFieldDefaults | src/nonebot/adapters/milky/model.py:112 | an absent optional field takes its default |
| Records.ValidatedKeys | src/nonebot/adapters/milky/model.py:12-32 | the keys of a validated record are the input's keys plus the declared names |
| Records.ValidatedKept | src/nonebot/adapters/milky/model.py:12-32 | a present scalar field keeps the input's value |
| Records.ValidatedNested | src/nonebot/adapters/milky/model.py:77 | a nested record field holds the nested validation of its input |
| Records.FieldIndex | src/nonebot/adapters/milky/model.py:12-32 | the position of the first declared field with a given name, or -1 when none has it |
| Records.DumpFields | src/nonebot/adapters/milky/model.py:19-32 | with `exclude_none`, the dump holds exactly the non-`None` fields and never a `None` |
| Records.ModelDump | src/nonebot/adapters/milky/model.py:19-32 | `include`/`exclude` select keys, and `exclude_none` drops `None` values |
| Records.RoundTripField | src/nonebot/adapters/milky/model.py:19-32 | each field of a dumped record validates back to its value |
| Records.RoundTripRecord | src/nonebot/adapters/milky/model.py:19-32 | validating a record's dump gives the record back |
| Records.DumpExcludesNone | src/nonebot/adapters/milky/model.py:19-32 | a dump with `exclude_none` holds no `None` field, at any depth of nested records |
| Model.Dict | src/nonebot/adapters/milky/model.py:19-32 | `dict_` never emits `None` and holds a key exactly when it is included, not excluded and not `None` |
| Model.DictIgnoresFlags | src/nonebot/adapters/milky/model.py:19-32 | the caller's `by_alias`/`exclude_none` arguments do not change the result |
| Model.DictNoneFree | src/nonebot/adapters/milky/model.py:19-32 | whatever the flags, `dict_` emits no `None` |
| Model.DictRoundTrip | src/nonebot/adapters/milky/model.py:19-32 | validating `dict_()` of a record gives the record back |
| Model.MemberEnumsClosed | src/nonebot/adapters/milky/model.py:115-122 | a validated `Member` has `sex` in {male, female, unknown} and `role` in {member, admin, owner} |
| Model.MemberTitleOptional | src/nonebot/adapters/milky/model.py:112-115 | `Member.title` may be absent and then is `None`, while an absent `sex` fails |
| Model.ValidatePrivateResponse | src/nonebot/adapters/milky/model.py:212-222 | a private send's answer validates exactly when the record does, and keeps its `message_seq`/`client_seq` |
| Model.ValidateGroupResponse | src/nonebot/adapters/milky/model.py:229-236 | a group send's answer validates exactly when the record does, and keeps its `message_seq` |
| Model.PrivateReply | src/nonebot/adapters/milky/model.py:224-226 | the reply segment's data is exactly `{message_seq, client_seq}` copied from the response |
| Model.GroupReply | src/nonebot/adapters/milky/model.py:238-240 | the reply segment's data is exactly `{message_seq}` |
| Model.RepliesRoundTrip | src/nonebot/adapters/milky/model.py:224-240 | both reply segments survive a dump/parse round trip, and the group one equals `reply(message_seq)` |
| Common.NotificationSchema | src/nonebot/adapters/milky/model/common.py:268-366 | every notification record begins with its fixed `type` tag field |
| Common.NotificationTagsDistinct | src/nonebot/adapters/milky/model/common.py:271-348 | the five notification tags are pairwise distinct |
| Common.FirstAccepting | src/nonebot/adapters/milky/model/common.py:369-375 | the union yields a record of a listed variant that validates it, and fails only when every variant fails |
| Common.ValidatedTag | src/nonebot/adapters/milky/model/common.py:271-348 | a validated notification carries its variant's tag, and a given tag must be that one |
| Common.OnlyTaggedClassAccepts | src/nonebot/adapters/milky/model/common.py:271-348 | a tagged input validates as no other variant |
| Common.UnionFollowsTag | src/nonebot/adapters/milky/model/common.py:369-375 | a tagged input validates as the union exactly when it validates as its tag's variant, and then as that variant |
| Common.UntaggedKickFailsEarlierClasses | src/nonebot/adapters/milky/model/common.py:268-313 | an untagged kick record fails the join-request and admin-change variants |
| Common.UntaggedKickFitsKickAndQuit | src/nonebot/adapters/milky/model/common.py:314-343 | an untagged kick record validates as both the kick and the quit variant |
| Common.FirstAcceptingIsFirst | src/nonebot/adapters/milky/model/common.py:369-375 | when the earlier variants fail and one accepts, the union picks that one |
| Common.KickChosenAfterEarlierFail | src/nonebot/adapters/milky/model/common.py:369-375 | an input that fails the first two variants and fits kick is read as kick |
| Common.UntaggedUnionIsAmbiguous | src/nonebot/adapters/milky/model/common.py:314-375 | without its tag a kick record fits both kick and quit, and the union reads it as kick |
| Common.FriendRequestStateClosed | src/nonebot/adapters/milky/model/common.py:255 | a validated friend request's `state` is one of pending/accepted/rejected/ignored |
| Common.JoinRequestStateClosed | src/nonebot/adapters/milky/model/common.py:284 | the same closed `state` for join-request notifications |
| Common.InvitedJoinRequestStateClosed | src/nonebot/adapters/milky/model/common.py:361 | the same closed `state` for invited-join-request notifications |
| Common.OperatorIdRequired | src/nonebot/adapters/milky/model/common.py:310-327 | without `operator_id` the admin-change and kick variants fail |
| Common.JoinRequestOperatorOptional | src/nonebot/adapters/milky/model/common.py:287 | a join-request notification may omit `operator_id`, which is then `None` |
| Common.InvitedJoinRequestOperatorOptional | src/nonebot/adapters/milky/model/common.py:364 | an invited-join-request notification may omit `operator_id`, which is then `None` |
| Common.ProfileSexClosed | src/nonebot/adapters/milky/model/common.py:28 | a validated profile's `sex` is one of male/female/unknown |
| Common.FriendSexClosed | src/nonebot/adapters/milky/model/common.py:59 | a validated friend's `sex` is one of male/female/unknown |
| Common.MemberSexAndRoleClosed | src/nonebot/adapters/milky/model/common.py:97-112 | a validated member's `sex` and `role` lie in their literal sets |
| Common.MemberShutUpOptional | src/nonebot/adapters/milky/model/common.py:121 | `shut_up_end_time` may be absent and is then `None` |
| Common.AnnouncementImageOptional | src/nonebot/adapters/milky/model/common.py:143 | `image_url` may be absent and is then `None` |
| Common.FileExpiryOptional | src/nonebot/adapters/milky/model/common.py:168 | `expire_time` may be absent and is then `None` |
| Events.EventTypesDistinct | src/nonebot/adapters/milky/event.py:101-248 | the three registered classes have distinct event types |
| Events.EventRegistry.Register | src/nonebot/adapters/milky/event.py:59-61 | registering inserts the class under its event type, keeps every other entry, and returns the class |
| Events.StandardClasses | src/nonebot/adapters/milky/event.py:97-248 | the loaded table has exactly the keys message_receive, message_recall and friend_request, each mapping to its class |
| Events.LoadEventModule | src/nonebot/adapters/milky/event.py:54-248 | loading the module's three decorated classes yields exactly the standard table |
| Events.RegisterKeepsConsistent | src/nonebot/adapters/milky/event.py:59-61 | registering keeps every key mapped to a class of that event type |
| Events.HeaderValidated | src/nonebot/adapters/milky/event.py:16-26 | the event header validates only with integer `time` and `self_id`, both kept from the input |
| Events.IncomingValidated | src/nonebot/adapters/milky/event.py:64-86 | a validated incoming message keeps the scene, peer, sequence, sender, `time` and `segments` it was given |
| Events.MessageEventValidated | src/nonebot/adapters/milky/event.py:97-123 | a validated message event holds the validated incoming message of its `data` |
| Events.RecallEventValidated | src/nonebot/adapters/milky/event.py:192-213 | a validated recall event keeps its `data.message_scene` |
| Events.ReplyValidated | src/nonebot/adapters/milky/event.py:105-106 | a validated message event's `reply` is `None` exactly when the input has none or `None`, and otherwise is the input's validated `IncomingMessage` |
| Events.ToMeValidated | src/nonebot/adapters/milky/event.py:108 | `to_me` defaults to `False`; it is true exactly when the input says `True`, and a present non-boolean `to_me` fails validation |
| Events.SegmentsValidated | src/nonebot/adapters/milky/event.py:64-86 | an incoming message validates only with a `segments` field |
| Events.SceneClass | src/nonebot/adapters/milky/event.py:125-131 | the scene names friend/group/temp, and only they, pick a specialised class; another scene raises `KeyError` |
| Events.SceneClassInjective | src/nonebot/adapters/milky/event.py:125-131 | different scenes pick different classes |
| Events.Convert | src/nonebot/adapters/milky/event.py:125-131 | `convert` succeeds exactly for the three scenes and changes only the class |
| Events.JsonToEvent | src/nonebot/adapters/milky/adapter.py:180-217 | a non-dict gives `None`; a dict without `event_type` raises `KeyError` and nothing else raises |
| Events.UnknownTypeKept | src/nonebot/adapters/milky/adapter.py:199-206 | an unregistered tag yields a base event that keeps the tag, or `None` if the header does not validate |
| Events.EventTypeKept | src/nonebot/adapters/milky/adapter.py:196-211 | every decoded event reports the received tag, and `event_type` is not among its validated fields |
| Events.TypeFollowsTag | src/nonebot/adapters/milky/adapter.py:199-210 | a decoded event's class follows the registry entry for its tag |
| Events.DecodedMessageEvent | src/nonebot/adapters/milky/event.py:114-131 | a decoded `message_receive` is a message event of its scene's class, holding the validated `data` whole, with `message == original_message` and the decoded segments; its `reply` is `None` exactly when the frame has none, and otherwise the frame's validated `reply` |
| Events.MissingSegmentsDropped | src/nonebot/adapters/milky/event.py:114-123 | `handle_message` makes an absent `segments` an empty message, yet the event still fails validation and is dropped |
| Events.DecodedRecallEvent | src/nonebot/adapters/milky/event.py:208-218 | a decoded `message_recall` is named `recall:<scene>` |
| Events.MessageAccessors | src/nonebot/adapters/milky/event.py:133-162 | on a decoded message event: name `message:<scene>`, user id `str(sender_id)`, `message_id == message_seq`, session id by scene |
| Events.SessionIdInjective | src/nonebot/adapters/milky/event.py:155-158 | equal session ids mean the same peer, and for groups also the same sender |
| Events.OnlyMessagesHaveUsers | src/nonebot/adapters/milky/event.py:37-47 | the base event raises for user id, session id and message, and is not to-me |
| BotApi.Bot.CallHttp | src/nonebot/adapters/milky/adapter.py:88-115 | the bot's HTTP call returns the adapter's answer and records the call |
| BotApi.Bot.GetResourceTempUrl | src/nonebot/adapters/milky/message.py:339 | returns the resolver's answer and records one call |
| BotApi.Bot.GetForwardedMessages | src/nonebot/adapters/milky/message.py:345 | returns the resolver's answer and records one call |
| BotApi.IncomingOfAnswer | src/nonebot/adapters/milky/bot.py:263 | `get_message`'s answer gives a message exactly when it holds a valid `message` record; the result is that whole validated `IncomingMessage`, with the answer's scene, ids, `time` and `segments` |
| BotApi.GetMessage | src/nonebot/adapters/milky/bot.py:244-263 | one `get_message` call with the scene, peer and sequence, and its answer validated into a whole `IncomingMessage` |
| BotApi.Route | src/nonebot/adapters/milky/bot.py:192-202 | a message event in a group goes to its group, any other message event to its peer as a user, and any other event raises `TypeError` |
| BotApi.SendParams | src/nonebot/adapters/milky/bot.py:213-241 | the parameters are exactly the peer key and `message`, the latter holding the elements |
| BotApi.SendMessage | src/nonebot/adapters/milky/bot.py:204-242 | one call to the routed action with the message's elements, its answer validated as that action's response |
| BotApi.Send | src/nonebot/adapters/milky/bot.py:185-202 | a non-message event raises with no call; a routed message that fails to dump raises the dump error with no call; otherwise exactly one routed send call, whose answer is validated |
| BotApi.SentElementsDecode | src/nonebot/adapters/milky/bot.py:213-221 | the elements sent decode back to the message |
| BotApi.TextSendsOneElement | src/nonebot/adapters/milky/bot.py:213 | a plain string is sent as one text element |
| BotApi.RouteFollowsFrame | src/nonebot/adapters/milky/bot.py:192-202 | a decoded message event is routed by the scene and peer of its frame |
| BotApi.OnlyMessageEventsRoute | src/nonebot/adapters/milky/bot.py:202 | a non-message event is refused with `TypeError` |
| Checks.EventObject.constructor | src/nonebot/adapters/milky/event.py:97-112 | the mutable event holds the decoded event's message, scene, peer, `to_me` and the `reply` its frame gave (none for other events) |
| Checks.NoTagIsAt | src/nonebot/adapters/milky/bot.py:67 | no segment kind has the tag `at` |
| Checks.CodecSegmentIsNoAt | src/nonebot/adapters/milky/bot.py:99-100 | a segment built by the codec is never an at-me segment |
| Checks.NonEmpty | src/nonebot/adapters/milky/bot.py:77-78 | an empty message becomes one empty text segment, and a non-empty one is kept |
| Checks.TrimHeadKeepsSuffix | src/nonebot/adapters/milky/bot.py:106-109 | trimming the head text leaves the rest of the message untouched |
| Checks.TrimTextAt | src/nonebot/adapters/milky/bot.py:72-75 | trimming lstrips the text at an index and deletes the segment when it becomes empty, leaving every other segment; a non-text segment leaves the message unchanged |
| Checks.StripLeadingAtMe | src/nonebot/adapters/milky/bot.py:102-117 | when no leading at-me was found the message is unchanged |
| Checks.TrimTextOf | src/nonebot/adapters/milky/bot.py:106-109 | the in-place trim leaves the message that `TrimText` describes |
| Checks.CheckAtMe | src/nonebot/adapters/milky/bot.py:81-136 | a non-message event is untouched; otherwise the new message and `to_me` are those of the at-me rules, or the `KeyError`/`AttributeError` raised |
| Checks.AtMeNeverEmpty | src/nonebot/adapters/milky/bot.py:92-93 | the message is never left empty and `to_me` is never cleared |
| Checks.AtMeOutsideGroups | src/nonebot/adapters/milky/bot.py:95-96 | outside groups `to_me` is set and the message only gains `""` when empty |
| Checks.LeadingAtMeRemoved | src/nonebot/adapters/milky/bot.py:103-109 | a leading at-me is removed and the next text trimmed; a second at-me then at the head is removed and trimmed after in the same way; `to_me` is set and an empty result becomes `[text("")]` |
| Checks.AtMostTwoLeading | src/nonebot/adapters/milky/bot.py:103-117 | of three leading at-me segments the first two are removed and the third is kept |
| Checks.TrailingAtMeRemoved | src/nonebot/adapters/milky/bot.py:119-133 | a trailing at-me is removed and `to_me` set |
| Checks.TrailingAtMeBeforeBlankRemoved | src/nonebot/adapters/milky/bot.py:121-133 | an at-me before a final blank text is removed along with that text |
| Checks.CodecMessageUntouched | src/nonebot/adapters/milky/bot.py:99-136 | a group message of codec segments is kept as it is (an empty one gains `""`), since the rules look for `at` |
| Checks.FirstReply | src/nonebot/adapters/milky/bot.py:45-48 | the index of the first `reply` segment, or -1 when there is none |
| Checks.DropQuoteOf | src/nonebot/adapters/milky/bot.py:63-78 | the in-place deletions leave the message that `DropQuote` describes |
| Checks.CheckReply | src/nonebot/adapters/milky/bot.py:38-78 | one `get_message` call exactly when there is a reply with a sequence; the new message, `to_me` and reply are those of the reply rules |
| Checks.ReplyUnchangedWithoutQuote | src/nonebot/adapters/milky/bot.py:45-48 | without a reply segment nothing changes |
| Checks.DropQuoteKeeps | src/nonebot/adapters/milky/bot.py:63-75 | segments before the quote are kept; the reply segment goes, and so does an at for the sender right after it; then the next text is trimmed |
| Checks.ReplyRemoved | src/nonebot/adapters/milky/bot.py:50-78 | a resolved quote is stored, `to_me` holds iff it already did or the sender is the bot, and the quote is removed from a non-empty message |
| Checks.HandleEvent | src/nonebot/adapters/milky/bot.py:176-183 | a non-message event is untouched with no call; a message event is checked for a reply, then for at-me |
| Checks.PreparedForBot | src/nonebot/adapters/milky/bot.py:176-181 | a prepared message is never empty, and a quoted message from the bot makes it to-me |
| Sendable.DumpedData | src/nonebot/adapters/milky/message.py:337 | the dumped data has the segment's keys with their `asdict` values |
| Sendable.NodesOf | src/nonebot/adapters/milky/message.py:349 | one node per fetched message, each with the bot's id and that message's name and segments |
| Sendable.ResolveSegment | src/nonebot/adapters/milky/message.py:336-355 | the segment's rewrite and the calls it makes are those of `Resolve` |
| Sendable.SendableOf | src/nonebot/adapters/milky/message.py:327-356 | the loop returns the resolution of the whole message and makes exactly its calls, in order |
| Sendable.FailureEndsRun | src/nonebot/adapters/milky/message.py:335-351 | after a failed call no later segment is resolved |
| Sendable.ResolveAllSplit | src/nonebot/adapters/milky/message.py:335-356 | resolving a concatenation is resolving each part in turn |
| Sendable.ThenAssociative | src/nonebot/adapters/milky/message.py:335-356 | chaining resolutions is associative |
| Sendable.CachedTempUrlNeedsNoCall | src/nonebot/adapters/milky/message.py:338-341 | lazy media with a `temp_url` and no refresh becomes a `uri` of that URL with no call |
| Sendable.TempUrlFetchedOnce | src/nonebot/adapters/milky/message.py:338-339 | without a cached URL, or on refresh, exactly one `get_resource_temp_url` call and its answer becomes the `uri` |
| Sendable.ForwardFetchedOnce | src/nonebot/adapters/milky/message.py:343-351 | a forward reference makes exactly one `get_forwarded_messages` call and becomes inline nodes with the bot's id |
| Sendable.Kept | src/nonebot/adapters/milky/message.py:352-355 | the kept segments are no more than the input and none is receive-only |
| Sendable.NothingToResolve | src/nonebot/adapters/milky/message.py:352-355 | a message with nothing to resolve is sent with the receive-only kinds dropped, the rest unchanged in order, and no call |
| Sendable.OneCallPerResolvedSegment | src/nonebot/adapters/milky/message.py:336-351 | a successful resolution makes one call per lazy or referencing segment |
| Sendable.WithoutResolversOnlyCachedMessagesSend | src/nonebot/adapters/milky/bot.py:173-174 | with the bot's missing resolvers a message resolves exactly when it needs no call |
| MilkyAdapter.Classify | src/nonebot/adapters/milky/adapter.py:112-115 | an adapter exception passes unchanged; any other becomes `NetworkError("HTTP request failed: ...")` |
| MilkyAdapter.Headers | src/nonebot/adapters/milky/adapter.py:96-98 | `Content-Type: application/json` always, `Authorization: Bearer <token>` exactly when a token is set, nothing else |
| MilkyAdapter.Body | src/nonebot/adapters/milky/adapter.py:94-95 | the same keys; plain values kept and records replaced by `dict_()` |
| MilkyAdapter.RecordParamRoundTrip | src/nonebot/adapters/milky/adapter.py:95 | a record sent in the body validates back to the record |
| MilkyAdapter.Adapter.RequestFor | src/nonebot/adapters/milky/adapter.py:99-104 | a POST to the action's URL with the built headers |
| MilkyAdapter.Adapter.CallHttp | src/nonebot/adapters/milky/adapter.py:88-115 | one request recorded and its classified outcome returned, nothing else changed |
| MilkyAdapter.Adapter.CallApi | src/nonebot/adapters/milky/adapter.py:80-86 | an API the bot class lacks raises `ApiNotAvailable` before any request; another is sent |
| MilkyAdapter.Adapter.HandleFrame | src/nonebot/adapters/milky/adapter.py:132-147 | one frame read as the read loop reads it: the first event binds the socket to its `self_id`, each event is dispatched to the bound bot, an exception stops the loop |
| MilkyAdapter.Adapter.ReadLoop | src/nonebot/adapters/milky/adapter.py:130-147 | the first decoded event binds its `self_id` to the socket, and every event is dispatched to that bot |
| MilkyAdapter.Adapter.Session | src/nonebot/adapters/milky/adapter.py:125-169 | after a session the binding it made is gone and its events were dispatched |
| MilkyAdapter.Adapter.Pass | src/nonebot/adapters/milky/adapter.py:123-178 | one pass of the loop: a session, or a failed setup and one sleep |
| MilkyAdapter.Adapter.NextPass | src/nonebot/adapters/milky/adapter.py:123-178 | one more pass continues from what the earlier passes did: its binding removed, its events and sleep appended |
| MilkyAdapter.Adapter.WsConnect | src/nonebot/adapters/milky/adapter.py:117-178 | after the passes every binding they made is removed, the events dispatched in order, one sleep per setup failure |
| MilkyAdapter.EmptyBodyIsNetworkError | src/nonebot/adapters/milky/adapter.py:109-110 | an empty body becomes a `NetworkError` naming `ValueError('Empty response')` |
| MilkyAdapter.AdapterExceptionsPassThrough | src/nonebot/adapters/milky/adapter.py:112-113 | an adapter exception from any step reaches the caller unchanged |
| MilkyAdapter.OtherFailuresAreNetworkErrors | src/nonebot/adapters/milky/adapter.py:114-115 | any other exception becomes a `NetworkError` naming it |
| MilkyAdapter.UnraisedRequestSucceeds | src/nonebot/adapters/milky/adapter.py:107-111 | a request that raises nothing returns what `handle_api_result` gave |
| MilkyAdapter.Tagged | src/nonebot/adapters/milky/adapter.py:145 | one dispatch per event, each to the bound bot |
| MilkyAdapter.StoppedReadingStays | src/nonebot/adapters/milky/adapter.py:148-164 | once reading stops, later frames change nothing |
| MilkyAdapter.NonObjectFrameSkipped | src/nonebot/adapters/milky/adapter.py:133-135 | a frame that is not a dict decodes to `None` and is skipped |
| MilkyAdapter.UntaggedFrameEndsSession | src/nonebot/adapters/milky/adapter.py:154-164 | a dict without `event_type` raises and ends the session |
| MilkyAdapter.SessionDispatchesToFirstBot | src/nonebot/adapters/milky/adapter.py:136-147 | every event of a session is dispatched to the bot of its first event |
| MilkyAdapter.OnlySetupFailuresSleep | src/nonebot/adapters/milky/adapter.py:21 | there is one sleep of 3.0 seconds per setup failure, and none otherwise |

## Left out

- Pydantic's lax coercion (e.g. `"1"` accepted for an `int`) is not modelled. Validation is written as strict per-field rules: required, optional with a default, literal, nested record.
- `exclude_unset` and field aliases of `model_dump` are not modelled; no record here declares an alias.
- Python dict order is not modelled: JSON objects are maps. So `__str__` is modelled as a rendering (raw text, or the type with the shown data), not as a string.
- Segment `data` that is not a JSON object is a parse error in the model; Python would store it as is.
- `json_to_event` pops `event_type` from the caller's dict. The model returns the event built from the dict without that key and does not model the caller seeing its dict changed.
- Aliasing of segment data dicts between a message and its copies is not modelled. The edits of `_check_at_me` and `_check_reply` that raise part-way report the error but do not keep the partial edits.
- HTTP, the websocket and the resolvers are oracle functions fixed for the lifetime of an adapter or bot. They answer the same request the same way.
- The bot class defines neither `get_resource_temp_url` nor `get_forwarded_messages`, and its `__getattr__` raises `AttributeError` for them. They are modelled as resolver oracles. Sendable.WithoutResolversOnlyCachedMessagesSend covers the failing resolvers. In the model the attempted call is still recorded in the call trace.
- `_check_nickname` is not modelled: it is regex-based, case-insensitive matching over a set of nicknames. Checks.HandleEvent stops after `_check_at_me`.
- `IncomingMessage.get_reply` and `MessageEvent.reply_to` call `MessageSegment.reply` with two arguments while it takes one, so they always raise. They are not modelled. `get_event_description` (log text) is not modelled either.
- `clean_params`, `raise_api_response`, `handle_api_result` and `to_uri` are not part of this model. They are parameters of the adapter (`cleanParams`, `checkResponse`, `readResult`), and `uri` is an opaque string.
- `json.dumps`/`json.loads` and `DataclassEncoder` are not modelled. The body is the JSON value and the response content a string. `str(response.content)` is passed to `checkResponse` as is.
- `asyncio.create_task`, the `tasks` set, `_start_forward`, `_stop` and the logging are not modelled. A dispatched event is recorded in a ghost log instead of running `bot.handle_event`.
- MilkyAdapter.Adapter.WsConnect: the endless `while True` loop is modelled as a finite sequence of passes. When a session's frames run out, the socket has closed.
- MilkyAdapter.Adapter.CallApi: a found API is modelled as `call_http` of the same action with the same data. The per-method conversions of `send_*`/`get_message` are modelled separately in BotApi.
- The framework's set of connected bots (`bot_connect`/`bot_disconnect`) is modelled as a set of self ids.
- Checks.CodecMessageUntouched: `_check_at_me` and `_check_reply` look for the tag `at`, while the codec names mentions `mention`. The model keeps the code's `at`, so with codec-built segments these branches never fire.
- Checks.CheckReply: `to_me` is only ever set to true, as in the code. A quoted message from someone else leaves an earlier `to_me` unchanged rather than clearing it.
- Records.ModelDump: only `include`, `exclude` and `exclude_none` are modelled among `model_dump`'s options.
