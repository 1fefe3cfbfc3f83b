/** The edits `bot.py` makes to a received message event before the
    framework sees it: `_check_reply` removes the first reply segment and
    fetches the message it quotes, `_check_at_me` removes mentions of the bot
    at either end. Both change the event in place: its `message` list, the
    `text` of a segment, `to_me` and `reply`. */
module Checks {
  import opened Outcomes
  import opened PyText
  import opened Segments
  import opened Events
  import opened BotApi

  /** The parts of an event object the checks read and change. */
  class EventObject {
    const isMessageEvent: bool
    const selfId: int
    const scene: string
    const peerId: int
    var message: seq<Segment>
    var toMe: bool
    var reply: Option<Incoming>

    /** The object of a decoded event; only message events carry a message
        and the `reply` their frame gave. */
    constructor(e: Event)
      ensures isMessageEvent == e.MessageEvent? && selfId == e.selfId
      ensures e.MessageEvent? ==> && scene == e.data.scene && peerId == e.data.peerId
                                  && message == e.message && toMe == e.toMe
      ensures !e.MessageEvent? ==> message == [] && !toMe
      ensures reply == if e.MessageEvent? then e.reply else None
    {
      isMessageEvent := e.MessageEvent?;
      selfId := e.selfId;
      scene := if e.MessageEvent? then e.data.scene else "";
      peerId := if e.MessageEvent? then e.data.peerId else 0;
      message := if e.MessageEvent? then e.message else [];
      toMe := e.MessageEvent? && e.toMe;
      reply := if e.MessageEvent? then e.reply else None;
    }
  }

  // ---------------------------------------------------------------------------
  // segment tests

  /** `str(v) == str(n)` for a JSON value and an integer: only the integer
      itself and its decimal string print as `n` does. */
  predicate SameIdText(v: Value, n: int)
  {
    v == Int(n) || v == Str(IntStr(n))
  }

  /** An `at` segment naming `id`; an `at` segment without `user_id` raises. */
  function IsAt(s: Segment, id: int): Result<bool, DecodeError>
  {
    if s.tag != "at" then Ok(false)
    else if "user_id" !in s.data then Err(KeyError(Str("user_id")))
    else Ok(SameIdText(s.data["user_id"], id))
  }

  /** `seg.data["text"]`, read to apply the string method `op` to it. */
  function TextOf(s: Segment, op: string): Result<string, DecodeError>
  {
    if "text" !in s.data then Err(KeyError(Str("text")))
    else if !s.data["text"].Str? then Err(AttributeError(op))
    else Ok(s.data["text"].s)
  }

  /** No class of the codec is tagged `at`: the codec names mentions `mention`. */
  lemma NoTagIsAt(k: Kind)
    ensures Tag(k) != "at"
  {
  }

  /** On a segment the codec built, the `at` test never fires. */
  lemma CodecSegmentIsNoAt(s: Segment, id: int)
    requires s.tag == Tag(s.kind)
    ensures IsAt(s, id) == Ok(false)
  {
    NoTagIsAt(s.kind);
  }

  // ---------------------------------------------------------------------------
  // shared edits

  /** An empty message gains one empty text segment. */
  function NonEmpty(m: Message): (r: Message)
    ensures r != []
    ensures m != [] ==> r == m
  {
    if m == [] then [TextSegment("")] else m
  }

  /** Strip the leading whitespace of a text segment at `i`, deleting it when
      nothing is left; any other segment, or none at `i`, stays as it is. */
  function TrimText(m: Message, i: nat): Result<Message, DecodeError>
    requires i <= |m|
  {
    if i == |m| || m[i].tag != "text" then Ok(m)
    else
      var t := TextOf(m[i], "lstrip");
      if t.Err? then Err(t.error)
      else
        var rest := LStrip(t.value);
        if rest == [] then Ok(m[..i] + m[i + 1..])
        else Ok(m[i := m[i].(data := m[i].data["text" := Str(rest)])])
  }

  /** Two segments alike but for the string under `text`. */
  predicate SameButText(a: Segment, b: Segment)
  {
    && a.kind == b.kind && a.tag == b.tag && a.data.Keys == b.data.Keys
    && forall k | k in a.data && k != "text" :: a.data[k] == b.data[k]
  }

  /** `res` is a suffix of `m` whose first segment may have had its text changed. */
  predicate SuffixUpToHead(res: Message, m: Message)
  {
    && |res| <= |m|
    && (res != [] ==> SameButText(res[0], m[|m| - |res|]) && res[1..] == m[|m| - |res| + 1..])
  }

  /** Trimming a text at the head keeps the rest of the message. */
  lemma TrimHeadKeepsSuffix(m: Message)
    requires TrimText(m, 0).Ok?
    ensures SuffixUpToHead(TrimText(m, 0).value, m)
  {
    if m != [] && m[0].tag == "text" && LStrip(TextOf(m[0], "lstrip").value) == [] {
      assert TrimText(m, 0).value == m[1..];
    }
  }

  /** A suffix up to its head of a plain suffix is a suffix up to its head. */
  lemma SuffixOfSuffix(res: Message, m: Message, j: nat)
    requires j <= |m| && SuffixUpToHead(res, m[j..])
    ensures SuffixUpToHead(res, m)
  {
    if res != [] {
      var s := m[j..];
      assert s[|s| - |res|] == m[|m| - |res|];
      assert s[|s| - |res| + 1..] == m[|m| - |res| + 1..];
    }
  }

  /** Trimming a text at `i` keeps every other segment where it was; a text
      segment at `i` is left-stripped, and deleted when nothing is left. */
  lemma TrimTextAt(m: Message, i: nat)
    requires i <= |m| && TrimText(m, i).Ok?
    ensures var r := TrimText(m, i).value;
      |r| >= i && r[..i] == m[..i] && SuffixUpToHead(r[i..], m[i..])
    ensures i == |m| || m[i].tag != "text" ==> TrimText(m, i).value == m
    ensures i < |m| && m[i].tag == "text" ==>
      && TextOf(m[i], "lstrip").Ok?
      && var t := LStrip(TextOf(m[i], "lstrip").value);
         var r := TrimText(m, i).value;
         && (t == [] ==> r == m[..i] + m[i + 1..])
         && (t != [] ==> && |r| == |m| && SameButText(r[i], m[i]) && r[i].data["text"] == Str(t)
                         && r[i + 1..] == m[i + 1..])
  {
    var r := TrimText(m, i).value;
    if i < |m| && m[i].tag == "text" {
      if LStrip(TextOf(m[i], "lstrip").value) == [] {
        assert r[i..] == m[i + 1..];
      } else {
        assert r[i + 1..] == m[i + 1..];
      }
    }
  }

  // ---------------------------------------------------------------------------
  // _check_at_me

  /** A message and the event's `to_me` after an edit. */
  datatype Checked = Checked(message: Message, toMe: bool)

  /** The leading part of `_check_at_me` in a group: at most two at-me
      segments are popped, each followed by a trim of the next text. */
  function StripLeadingAtMe(m: Message, toMe: bool, selfId: int): (r: Result<Checked, DecodeError>)
    requires m != []
    ensures r.Ok? && !r.value.toMe ==> r.value.message == m
  {
    var first := IsAt(m[0], selfId);
    if first.Err? then Err(first.error)
    else if !first.value then Ok(Checked(m, toMe))
    else
      var m1 := TrimText(m[1..], 0);
      if m1.Err? then Err(m1.error)
      else if m1.value == [] then Ok(Checked([], true))
      else
        var second := IsAt(m1.value[0], selfId);
        if second.Err? then Err(second.error)
        else if !second.value then Ok(Checked(m1.value, true))
        else
          var m2 := TrimText(m1.value[1..], 0);
          if m2.Err? then Err(m2.error) else Ok(Checked(m2.value, true))
  }

  /** The trailing part: an at-me segment at the end, or just before a final
      blank text when there are two or more segments, cuts the message there. */
  function StripTrailingAtMe(m: Message, selfId: int): Result<Checked, DecodeError>
    requires m != []
  {
    var last := m[|m| - 1];
    var blank := if last.tag != "text" then Ok(false)
                 else var t := TextOf(last, "strip"); if t.Err? then Err(t.error) else Ok(IsBlank(t.value));
    if blank.Err? then Err(blank.error)
    else
      var i := if blank.value && |m| >= 2 then |m| - 2 else |m| - 1;
      var at := IsAt(m[i], selfId);
      if at.Err? then Err(at.error)
      else if at.value then Ok(Checked(m[..i], true))
      else Ok(Checked(m, false))
  }

  /** `_check_at_me` on a message event: outside groups the event is for the
      bot; in a group, leading and then (unless `to_me` is already set)
      trailing mentions of the bot are removed. */
  function AtMe(m: Message, toMe: bool, scene: string, selfId: int): Result<Checked, DecodeError>
  {
    var m0 := NonEmpty(m);
    if scene != "group" then Ok(Checked(m0, true))
    else
      var lead := StripLeadingAtMe(m0, toMe, selfId);
      if lead.Err? then lead
      else
        var trail := if lead.value.toMe then Ok(lead.value) else StripTrailingAtMe(lead.value.message, selfId);
        if trail.Err? then trail
        else Ok(Checked(NonEmpty(trail.value.message), trail.value.toMe))
  }

  /** Left-strip the text segment at `i` of the event's message, deleting it when empty. */
  method TrimTextOf(ev: EventObject, i: nat) returns (err: Option<DecodeError>)
    requires i <= |ev.message|
    modifies ev
    ensures var r := TrimText(old(ev.message), i);
      && (err.None? <==> r.Ok?)
      && (r.Ok? ==> ev.message == r.value)
      && (r.Err? ==> err == Some(r.error))
    ensures ev.toMe == old(ev.toMe) && ev.reply == old(ev.reply)
  {
    if i == |ev.message| || ev.message[i].tag != "text" {
      return None;
    }
    var t := TextOf(ev.message[i], "lstrip");
    if t.Err? {
      return Some(t.error);
    }
    var seg := ev.message[i];
    ev.message := ev.message[i := seg.(data := seg.data["text" := Str(LStrip(t.value))])];
    if LStrip(t.value) == [] {
      ev.message := ev.message[..i] + ev.message[i + 1..];
    }
    return None;
  }

  /** `_check_at_me`: does nothing to other events; on a message event it
      leaves the message and `to_me` as `AtMe` says, or raises its error. */
  method CheckAtMe(ev: EventObject) returns (err: Option<DecodeError>)
    modifies ev
    ensures !ev.isMessageEvent ==> err.None? && ev.message == old(ev.message) && ev.toMe == old(ev.toMe)
    ensures ev.isMessageEvent ==>
      var r := AtMe(old(ev.message), old(ev.toMe), ev.scene, ev.selfId);
      && (err.None? <==> r.Ok?)
      && (r.Ok? ==> ev.message == r.value.message && ev.toMe == r.value.toMe)
      && (r.Err? ==> err == Some(r.error))
    ensures ev.reply == old(ev.reply)
  {
    if !ev.isMessageEvent {
      return None;
    }
    if ev.message == [] {
      ev.message := ev.message + [TextSegment("")];
    }
    if ev.scene != "group" {
      ev.toMe := true;
      return None;
    }
    ghost var m0 := ev.message;
    var first := IsAt(ev.message[0], ev.selfId);
    if first.Err? {
      return Some(first.error);
    }
    if first.value {
      ev.toMe := true;
      ev.message := ev.message[1..];
      err := TrimTextOf(ev, 0);
      if err.Some? {
        return;
      }
      if ev.message != [] {
        var second := IsAt(ev.message[0], ev.selfId);
        if second.Err? {
          return Some(second.error);
        }
        if second.value {
          ev.message := ev.message[1..];
          err := TrimTextOf(ev, 0);
          if err.Some? {
            return;
          }
        }
      }
    }
    assert StripLeadingAtMe(m0, old(ev.toMe), ev.selfId) == Ok(Checked(ev.message, ev.toMe));
    if !ev.toMe {
      var i := |ev.message| - 1;
      var last := ev.message[i];
      if last.tag == "text" {
        var t := TextOf(last, "strip");
        if t.Err? {
          return Some(t.error);
        }
        if IsBlank(t.value) && |ev.message| >= 2 {
          i := i - 1;
          last := ev.message[i];
        }
      }
      var at := IsAt(last, ev.selfId);
      if at.Err? {
        return Some(at.error);
      }
      if at.value {
        ev.toMe := true;
        ev.message := ev.message[..i];
      }
    }
    if ev.message == [] {
      ev.message := ev.message + [TextSegment("")];
    }
    return None;
  }

  // ---------------------------------------------------------------------------
  // _check_at_me: properties

  /** After `_check_at_me` the message is never empty, and `to_me` is never unset. */
  lemma AtMeNeverEmpty(m: Message, toMe: bool, scene: string, selfId: int)
    requires AtMe(m, toMe, scene, selfId).Ok?
    ensures AtMe(m, toMe, scene, selfId).value.message != []
    ensures toMe ==> AtMe(m, toMe, scene, selfId).value.toMe
  {
  }

  /** Outside groups every message is for the bot and keeps its segments. */
  lemma AtMeOutsideGroups(m: Message, toMe: bool, scene: string, selfId: int)
    requires scene != "group"
    ensures AtMe(m, toMe, scene, selfId) == Ok(Checked(if m == [] then [TextSegment("")] else m, true))
  {
  }

  /** A leading mention of the bot marks the event for the bot; what is left
      is the rest of the message, its first text left-stripped (`TrimTextAt`
      states the effect), and a second mention removed and trimmed after in
      the same way, or a lone empty text. */
  lemma LeadingAtMeRemoved(m: Message, toMe: bool, selfId: int)
    requires m != [] && IsAt(m[0], selfId) == Ok(true)
    requires AtMe(m, toMe, "group", selfId).Ok?
    ensures var r := AtMe(m, toMe, "group", selfId).value;
      && r.toMe
      && (SuffixUpToHead(r.message, m[1..]) || r.message == [TextSegment("")])
    ensures TrimText(m[1..], 0).Ok?
    ensures var r := AtMe(m, toMe, "group", selfId).value;
      var m1 := TrimText(m[1..], 0).value;
      && (m1 == [] || IsAt(m1[0], selfId) == Ok(false) ==> r.message == NonEmpty(m1))
      && (m1 != [] && IsAt(m1[0], selfId) == Ok(true) ==>
            TrimText(m1[1..], 0).Ok? && r.message == NonEmpty(TrimText(m1[1..], 0).value))
  {
    var m1 := TrimText(m[1..], 0).value;
    TrimHeadKeepsSuffix(m[1..]);
    if m1 != [] && IsAt(m1[0], selfId) == Ok(true) {
      var m2 := TrimText(m1[1..], 0).value;
      TrimHeadKeepsSuffix(m1[1..]);
      assert m1[1..] == m[1..][|m[1..]| - |m1| + 1..];
      SuffixOfSuffix(m2, m[1..], |m[1..]| - |m1| + 1);
    }
  }

  /** At most two leading mentions are removed: a third stays in place. */
  lemma AtMostTwoLeading(m: Message, toMe: bool, selfId: int)
    requires |m| >= 3
    requires IsAt(m[0], selfId) == Ok(true) && IsAt(m[1], selfId) == Ok(true) && IsAt(m[2], selfId) == Ok(true)
    ensures AtMe(m, toMe, "group", selfId) == Ok(Checked(m[2..], true))
  {
    assert m[1..][1..] == m[2..];
  }

  /** With no leading mention and `to_me` unset, a trailing mention of the bot
      is cut off together with a final blank text after it. */
  lemma TrailingAtMeRemoved(m: Message, selfId: int)
    requires m != [] && IsAt(m[0], selfId) == Ok(false)
    requires IsAt(m[|m| - 1], selfId) == Ok(true)
    ensures AtMe(m, false, "group", selfId) == Ok(Checked(NonEmpty(m[..|m| - 1]), true))
  {
  }

  lemma TrailingAtMeBeforeBlankRemoved(m: Message, selfId: int)
    requires |m| >= 2 && IsAt(m[0], selfId) == Ok(false)
    requires TextOf(m[|m| - 1], "strip").Ok? && m[|m| - 1].tag == "text" && IsBlank(TextOf(m[|m| - 1], "strip").value)
    requires IsAt(m[|m| - 2], selfId) == Ok(true)
    ensures AtMe(m, false, "group", selfId) == Ok(Checked(NonEmpty(m[..|m| - 2]), true))
  {
  }

  /** Segments the codec built are never taken for mentions, so in a group
      `_check_at_me` changes nothing but an empty message, as long as a final
      text segment holds a string. */
  lemma CodecMessageUntouched(m: Message, toMe: bool, selfId: int)
    requires forall i | 0 <= i < |m| :: m[i].tag == Tag(m[i].kind)
    requires m != [] && m[|m| - 1].tag == "text" ==> TextOf(m[|m| - 1], "strip").Ok?
    ensures AtMe(m, toMe, "group", selfId) == Ok(Checked(NonEmpty(m), toMe))
  {
    var m0 := NonEmpty(m);
    CodecSegmentIsNoAt(m0[0], selfId);
    CodecSegmentIsNoAt(m0[|m0| - 1], selfId);
    if |m0| >= 2 {
      CodecSegmentIsNoAt(m0[|m0| - 2], selfId);
    }
  }

  // ---------------------------------------------------------------------------
  // _check_reply

  /** The index of the first `reply` segment, or -1 when there is none. */
  function FirstReply(m: Message): (i: int)
    ensures -1 <= i < |m|
    ensures i >= 0 ==> m[i].tag == "reply" && forall j | 0 <= j < i :: m[j].tag != "reply"
    ensures i == -1 ==> forall j | 0 <= j < |m| :: m[j].tag != "reply"
  {
    if m == [] then -1
    else if m[0].tag == "reply" then 0
    else
      var j := FirstReply(m[1..]);
      assert forall k | 1 <= k < |m| :: m[k] == m[1..][k - 1];
      if j < 0 then -1 else j + 1
  }

  /** The message, `to_me` and `reply` after `_check_reply`. */
  datatype ReplyChecked = ReplyChecked(message: Message, toMe: bool, reply: Option<Incoming>)

  /** What `get_message` answers for a reply segment; one without
      `message_seq` raises inside the guarded block. */
  function QuotedMessage(seg: Segment, scene: string, peerId: int,
                         http: (string, map<string, Value>) -> Result<Value, string>): Result<Incoming, BotError>
  {
    if "message_seq" !in seg.data then Err(BotRaised(KeyError(Str("message_seq"))))
    else IncomingOfAnswer(http("get_message", GetMessageParams(scene, peerId, seg.data["message_seq"])))
  }

  /** The edit `_check_reply` makes at the reply segment's index `i` once the
      quoted message from `sender` is known: delete the reply segment, then a
      mention of `sender` now at `i`, then left-strip a text now at `i`. */
  function DropQuote(m: Message, i: nat, sender: int): Result<Message, DecodeError>
    requires i < |m|
  {
    var m1 := m[..i] + m[i + 1..];
    var at := if i < |m1| then IsAt(m1[i], sender) else Ok(false);
    if at.Err? then Err(at.error)
    else TrimText(if at.value then m1[..i] + m1[i + 1..] else m1, i)
  }

  /** `_check_reply`: when the first reply segment's message can be fetched,
      it becomes `reply`, `to_me` is set if the bot sent it and the message is
      edited by `DropQuote`; otherwise nothing changes. */
  function ReplyEdit(m: Message, toMe: bool, reply: Option<Incoming>, scene: string, peerId: int, selfId: int,
                     http: (string, map<string, Value>) -> Result<Value, string>): Result<ReplyChecked, DecodeError>
  {
    var i := FirstReply(m);
    if i < 0 then Ok(ReplyChecked(m, toMe, reply))
    else
      var quoted := QuotedMessage(m[i], scene, peerId, http);
      if quoted.Err? then Ok(ReplyChecked(m, toMe, reply))
      else
        var sender := quoted.value.senderId;
        var edited := DropQuote(m, i, sender);
        if edited.Err? then Err(edited.error)
        else Ok(ReplyChecked(NonEmpty(edited.value), toMe || IntStr(sender) == IntStr(selfId), Some(quoted.value)))
  }

  /** The in-place edit `DropQuote` describes, on the event's message. */
  method DropQuoteOf(ev: EventObject, i: nat, sender: int) returns (err: Option<DecodeError>)
    requires i < |ev.message|
    modifies ev
    ensures var r := DropQuote(old(ev.message), i, sender);
      && (err.None? <==> r.Ok?)
      && (r.Ok? ==> ev.message == r.value)
      && (r.Err? ==> err == Some(r.error))
    ensures ev.toMe == old(ev.toMe) && ev.reply == old(ev.reply)
  {
    ev.message := ev.message[..i] + ev.message[i + 1..];
    if i < |ev.message| {
      var at := IsAt(ev.message[i], sender);
      if at.Err? {
        return Some(at.error);
      }
      if at.value {
        ev.message := ev.message[..i] + ev.message[i + 1..];
      }
    }
    err := TrimTextOf(ev, i);
  }

  /** `_check_reply`: edits the event as `ReplyEdit` says, making one
      `get_message` call exactly when the first reply segment has a `message_seq`. */
  method CheckReply(bot: Bot, ev: EventObject) returns (err: Option<DecodeError>)
    modifies bot, ev
    ensures var i := FirstReply(old(ev.message));
      bot.calls == old(bot.calls) +
        if i >= 0 && "message_seq" in old(ev.message)[i].data
        then [HttpCall("get_message", GetMessageParams(ev.scene, ev.peerId, old(ev.message)[i].data["message_seq"]))]
        else []
    ensures var r := ReplyEdit(old(ev.message), old(ev.toMe), old(ev.reply), ev.scene, ev.peerId, ev.selfId, bot.http);
      && (err.None? <==> r.Ok?)
      && (r.Ok? ==> ev.message == r.value.message && ev.toMe == r.value.toMe && ev.reply == r.value.reply)
      && (r.Err? ==> err == Some(r.error))
  {
    var index := FirstReply(ev.message);
    if index < 0 {
      return None;
    }
    var seg := ev.message[index];
    if "message_seq" !in seg.data {
      return None;
    }
    var quoted := BotApi.GetMessage(bot, ev.scene, ev.peerId, seg.data["message_seq"]);
    if quoted.Err? {
      return None;
    }
    ev.reply := Some(quoted.value);
    var sender := quoted.value.senderId;
    if IntStr(sender) == IntStr(ev.selfId) {
      ev.toMe := true;
    }
    err := DropQuoteOf(ev, index, sender);
    if err.Some? {
      return;
    }
    if ev.message == [] {
      ev.message := ev.message + [TextSegment("")];
    }
  }

  // ---------------------------------------------------------------------------
  // _check_reply: properties

  /** Without a reply segment, or when the quoted message cannot be fetched,
      the event is left as it was. */
  lemma ReplyUnchangedWithoutQuote(m: Message, toMe: bool, reply: Option<Incoming>, scene: string, peerId: int,
                                   selfId: int, http: (string, map<string, Value>) -> Result<Value, string>)
    requires FirstReply(m) < 0 || QuotedMessage(m[FirstReply(m)], scene, peerId, http).Err?
    ensures ReplyEdit(m, toMe, reply, scene, peerId, selfId, http) == Ok(ReplyChecked(m, toMe, reply))
  {
  }

  /** `DropQuote` keeps the segments before `i`; from `i` on it leaves the
      rest of the message after the reply segment, less a leading mention of
      the sender and with its first text possibly left-stripped. */
  lemma DropQuoteKeeps(m: Message, i: nat, sender: int)
    requires i < |m| && DropQuote(m, i, sender).Ok?
    ensures var r := DropQuote(m, i, sender).value;
      |r| >= i && r[..i] == m[..i] && SuffixUpToHead(r[i..], m[i + 1..])
    ensures i + 1 < |m| && IsAt(m[i + 1], sender) == Ok(true) ==>
      SuffixUpToHead(DropQuote(m, i, sender).value[i..], m[i + 2..])
    ensures var dropped := if i + 1 < |m| && IsAt(m[i + 1], sender) == Ok(true) then 2 else 1;
      i + dropped <= |m| && TrimText(m[..i] + m[i + dropped..], i) == DropQuote(m, i, sender)
  {
    var m1 := m[..i] + m[i + 1..];
    assert m1[..i] == m[..i] && m1[i..] == m[i + 1..];
    var at := if i < |m1| then IsAt(m1[i], sender) else Ok(false);
    var m2 := if at.value then m1[..i] + m1[i + 1..] else m1;
    var j := |m[i + 1..]| - |m2[i..]|;
    assert m2[..i] == m[..i];
    assert m2[i..] == m[i + 1..][j..];
    TrimTextAt(m2, i);
    var m3 := TrimText(m2, i).value;
    SuffixOfSuffix(m3[i..], m[i + 1..], j);
  }

  /** When the quoted message is fetched: it becomes `reply`, the event is for
      the bot exactly when it was already or the bot sent the quoted message,
      and the message is never empty; its segments are those `DropQuoteKeeps`
      describes, or a lone empty text when none are left. */
  lemma ReplyRemoved(m: Message, toMe: bool, reply: Option<Incoming>, scene: string, peerId: int,
                     selfId: int, http: (string, map<string, Value>) -> Result<Value, string>)
    requires FirstReply(m) >= 0 && QuotedMessage(m[FirstReply(m)], scene, peerId, http).Ok?
    requires ReplyEdit(m, toMe, reply, scene, peerId, selfId, http).Ok?
    ensures var i := FirstReply(m);
      var quoted := QuotedMessage(m[i], scene, peerId, http).value;
      var r := ReplyEdit(m, toMe, reply, scene, peerId, selfId, http).value;
      && r.reply == Some(quoted)
      && (r.toMe <==> toMe || quoted.senderId == selfId)
      && r.message != []
      && (r.message == DropQuote(m, i, quoted.senderId).value || r.message == [TextSegment("")])
  {
    var i := FirstReply(m);
    var quoted := QuotedMessage(m[i], scene, peerId, http).value;
    if IntStr(quoted.senderId) == IntStr(selfId) {
      IntStrInjective(quoted.senderId, selfId);
    }
  }

  // ---------------------------------------------------------------------------
  // handle_event

  /** The checks `Bot.handle_event` runs on a message event before the
      framework sees it: `_check_reply`, then `_check_at_me`. */
  function Prepared(m: Message, toMe: bool, reply: Option<Incoming>, scene: string, peerId: int, selfId: int,
                    http: (string, map<string, Value>) -> Result<Value, string>): Result<ReplyChecked, DecodeError>
  {
    var replied := ReplyEdit(m, toMe, reply, scene, peerId, selfId, http);
    if replied.Err? then replied
    else
      var checked := AtMe(replied.value.message, replied.value.toMe, scene, selfId);
      if checked.Err? then Err(checked.error)
      else Ok(ReplyChecked(checked.value.message, checked.value.toMe, replied.value.reply))
  }

  /** `Bot.handle_event` up to the nickname check: other events are left as
      they are; a message event is edited as `Prepared` says. */
  method HandleEvent(bot: Bot, ev: EventObject) returns (err: Option<DecodeError>)
    modifies bot, ev
    ensures !ev.isMessageEvent ==>
      && err.None? && bot.calls == old(bot.calls)
      && ev.message == old(ev.message) && ev.toMe == old(ev.toMe) && ev.reply == old(ev.reply)
    ensures ev.isMessageEvent ==>
      var r := Prepared(old(ev.message), old(ev.toMe), old(ev.reply), ev.scene, ev.peerId, ev.selfId, bot.http);
      && (err.None? <==> r.Ok?)
      && (r.Ok? ==> ev.message == r.value.message && ev.toMe == r.value.toMe && ev.reply == r.value.reply)
      && (r.Err? ==> err == Some(r.error))
  {
    if !ev.isMessageEvent {
      return None;
    }
    err := CheckReply(bot, ev);
    if err.Some? {
      return;
    }
    err := CheckAtMe(ev);
  }

  /** After both checks a message event always has a segment, and a reply to
      one of the bot's own messages makes it an event for the bot. */
  lemma PreparedForBot(m: Message, toMe: bool, reply: Option<Incoming>, scene: string, peerId: int, selfId: int,
                       http: (string, map<string, Value>) -> Result<Value, string>)
    requires Prepared(m, toMe, reply, scene, peerId, selfId, http).Ok?
    ensures Prepared(m, toMe, reply, scene, peerId, selfId, http).value.message != []
    ensures var i := FirstReply(m);
      i >= 0 && QuotedMessage(m[i], scene, peerId, http).Ok?
      && QuotedMessage(m[i], scene, peerId, http).value.senderId == selfId
      ==> Prepared(m, toMe, reply, scene, peerId, selfId, http).value.toMe
  {
    var replied := ReplyEdit(m, toMe, reply, scene, peerId, selfId, http).value;
    AtMeNeverEmpty(replied.message, replied.toMe, scene, selfId);
  }
}
