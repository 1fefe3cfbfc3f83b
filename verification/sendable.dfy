/** `Message.sendable`: the outgoing rewrite of a message. An image, record
    or video known only by `resource_id` gets a `uri` (its cached `temp_url`,
    or one fetched from the bot), a forward by `forward_id` becomes the node
    list the bot fetches, the receive-only kinds are dropped and every other
    segment is kept. The result is a new list; the input is not changed. */
module Sendable {
  import opened Outcomes
  import opened Segments
  import opened BotApi

  /** The kinds that can be received but not sent. */
  predicate ReceiveOnly(k: Kind)
  {
    k == MarketFace || k == LightApp || k == Xml
  }

  /** An image, record or video known only by `resource_id`. */
  predicate LazyMedia(s: Segment)
  {
    (s.kind == Image || s.kind == Record || s.kind == Video) && "resource_id" in s.data && "uri" !in s.data
  }

  /** A forward that refers to its messages by `forward_id`. */
  predicate ForwardRef(s: Segment)
  {
    s.kind == Forward && "forward_id" in s.data
  }

  /** A lazy media segment whose `uri` must be fetched: it has no cached
      `temp_url`, or a refresh was asked for. */
  predicate NeedsTempUrl(s: Segment, refresh: bool)
  {
    LazyMedia(s) && ("temp_url" !in s.data || refresh)
  }

  /** `seg.dump()["data"]` for a segment that is not a `Forward`. */
  function DumpedData(s: Segment): (d: map<string, Value>)
    requires s.kind != Forward
    ensures d.Keys == s.data.Keys && forall k | k in d :: d[k] == AsDict(s.data[k])
  {
    map k | k in s.data :: AsDict(s.data[k])
  }

  /** The nodes `MessageSegment.node(int(bot.self_id), msg.name, msg.message)`
      for each fetched message. */
  function NodesOf(selfId: int, messages: seq<Forwarded>): (ns: seq<Node>)
    ensures |ns| == |messages|
    ensures forall i | 0 <= i < |ns| :: ns[i] == NodeOf(selfId, messages[i].name, messages[i].message)
  {
    seq(|messages|, i requires 0 <= i < |messages| => NodeOf(selfId, messages[i].name, messages[i].message))
  }

  /** What rewriting one segment yields (nothing, or the segment to send, or
      the exception of a bot call) and the bot calls it makes. */
  datatype Step = Step(out: Result<seq<Segment>, string>, calls: seq<ApiCall>)

  /** A lazy media segment: its dumped data with `uri` set to the cached
      `temp_url`, or to what one `get_resource_temp_url` call answers. */
  function ResolveMedia(s: Segment, refresh: bool, bot: Bot): Step
    requires LazyMedia(s)
  {
    var data := DumpedData(s);
    if "temp_url" !in data || refresh then
      var url := bot.resourceTempUrl(data["resource_id"]);
      Step(if url.Err? then Err(url.error) else Ok([Parse(s.kind, Object(data["uri" := url.value])).value]),
           [ResourceTempUrlCall(data["resource_id"])])
    else Step(Ok([Parse(s.kind, Object(data["uri" := data["temp_url"]])).value]), [])
  }

  /** A forward reference: one `get_forwarded_messages` call, whose messages
      become the nodes of an inline forward. */
  function ResolveForward(s: Segment, bot: Bot): Step
    requires ForwardRef(s)
  {
    var id := s.data["forward_id"];
    var messages := bot.forwardedMessages(id);
    Step(if messages.Err? then Err(messages.error) else Ok([ForwardSegment(NodesOf(bot.selfId, messages.value))]),
         [ForwardedMessagesCall(id)])
  }

  /** One iteration of the loop in `sendable`. */
  function Resolve(s: Segment, refresh: bool, bot: Bot): Step
  {
    if LazyMedia(s) then ResolveMedia(s, refresh, bot)
    else if ForwardRef(s) then ResolveForward(s, bot)
    else if ReceiveOnly(s.kind) then Step(Ok([]), [])
    else Step(Ok([s]), [])
  }

  /** The new message and the calls made; the first failing call ends the loop. */
  datatype Run = Run(out: Result<Message, string>, calls: seq<ApiCall>)

  /** Two runs one after the other: a failure in the first skips the second. */
  function Then(first: Run, second: Run): Run
  {
    if first.out.Err? then first
    else if second.out.Err? then Run(Err(second.out.error), first.calls + second.calls)
    else Run(Ok(first.out.value + second.out.value), first.calls + second.calls)
  }

  /** `sendable` over a whole message. */
  function ResolveAll(msg: Message, refresh: bool, bot: Bot): Run
  {
    if msg == [] then Run(Ok([]), [])
    else
      var step := Resolve(msg[|msg| - 1], refresh, bot);
      Then(ResolveAll(msg[..|msg| - 1], refresh, bot), Run(step.out, step.calls))
  }

  /** One iteration, on the bot object: the calls it makes are recorded. */
  method ResolveSegment(bot: Bot, s: Segment, refresh: bool) returns (r: Result<seq<Segment>, string>)
    modifies bot
    ensures r == Resolve(s, refresh, bot).out
    ensures bot.calls == old(bot.calls) + Resolve(s, refresh, bot).calls
  {
    if LazyMedia(s) {
      var data := DumpedData(s);
      if "temp_url" !in data || refresh {
        var url := bot.GetResourceTempUrl(data["resource_id"]);
        if url.Err? {
          return Err(url.error);
        }
        data := data["uri" := url.value];
      } else {
        data := data["uri" := data["temp_url"]];
      }
      var seg := Parse(s.kind, Object(data));
      return Ok([seg.value]);
    } else if ForwardRef(s) {
      var messages := bot.GetForwardedMessages(s.data["forward_id"]);
      if messages.Err? {
        return Err(messages.error);
      }
      return Ok([ForwardSegment(NodesOf(bot.selfId, messages.value))]);
    } else if ReceiveOnly(s.kind) {
      return Ok([]);
    }
    return Ok([s]);
  }

  /** `Message.sendable(bot, refresh_resources)`: builds the new message
      segment by segment, as `ResolveAll` says, making the calls it lists. */
  method SendableOf(bot: Bot, msg: Message, refresh: bool) returns (r: Result<Message, string>)
    modifies bot
    ensures r == ResolveAll(msg, refresh, bot).out
    ensures bot.calls == old(bot.calls) + ResolveAll(msg, refresh, bot).calls
  {
    var res: Message := [];
    ghost var trace: seq<ApiCall> := [];
    var i := 0;
    while i < |msg|
      invariant 0 <= i <= |msg|
      invariant ResolveAll(msg[..i], refresh, bot) == Run(Ok(res), trace)
      invariant bot.calls == old(bot.calls) + trace
    {
      ghost var step := Resolve(msg[i], refresh, bot);
      NextSegment(msg, i, refresh, bot, res, trace);
      var out := ResolveSegment(bot, msg[i], refresh);
      if out.Err? {
        return Err(out.error);
      }
      res := res + out.value;
      trace := trace + step.calls;
      i := i + 1;
    }
    assert msg[..i] == msg;
    return Ok(res);
  }

  /** One more segment of the loop: a failing step is the outcome of the
      whole message, a successful one extends the output and the calls. */
  lemma NextSegment(msg: Message, i: nat, refresh: bool, bot: Bot, res: Message, trace: seq<ApiCall>)
    requires i < |msg| && ResolveAll(msg[..i], refresh, bot) == Run(Ok(res), trace)
    ensures var step := Resolve(msg[i], refresh, bot);
      && (step.out.Ok? ==> ResolveAll(msg[..i + 1], refresh, bot) == Run(Ok(res + step.out.value), trace + step.calls))
      && (step.out.Err? ==> ResolveAll(msg, refresh, bot) == Run(Err(step.out.error), trace + step.calls))
  {
    assert msg[..i + 1][..i] == msg[..i];
    if Resolve(msg[i], refresh, bot).out.Err? {
      FailureEndsRun(msg, i + 1, refresh, bot);
    }
  }

  /** A run that fails on a prefix is the run of the whole message. */
  lemma FailureEndsRun(msg: Message, j: nat, refresh: bool, bot: Bot)
    requires j <= |msg| && ResolveAll(msg[..j], refresh, bot).out.Err?
    ensures ResolveAll(msg, refresh, bot) == ResolveAll(msg[..j], refresh, bot)
  {
    var x := ResolveAll(msg[..j], refresh, bot);
    assert msg[..j] + msg[j..] == msg;
    ResolveAllSplit(msg[..j], msg[j..], refresh, bot);
    assert Then(x, ResolveAll(msg[j..], refresh, bot)) == x;
  }

  // ---------------------------------------------------------------------------
  // properties

  /** The run of a concatenation is the run of its parts, one after the other:
      output order follows input order and a failure stops everything after it. */
  lemma {:induction false} ResolveAllSplit(a: Message, b: Message, refresh: bool, bot: Bot)
    ensures ResolveAll(a + b, refresh, bot) == Then(ResolveAll(a, refresh, bot), ResolveAll(b, refresh, bot))
    decreases |b|
  {
    if b == [] {
      assert a + b == a;
      var x := ResolveAll(a, refresh, bot);
      assert x.calls + [] == x.calls;
      assert x.out.Ok? ==> x.out.value + [] == x.out.value;
    } else {
      var init := b[..|b| - 1];
      var step := Resolve(b[|b| - 1], refresh, bot);
      var last := Run(step.out, step.calls);
      assert (a + b)[..|a + b| - 1] == a + init;
      assert (a + b)[|a + b| - 1] == b[|b| - 1];
      assert ResolveAll(a + b, refresh, bot) == Then(ResolveAll(a + init, refresh, bot), last);
      assert ResolveAll(b, refresh, bot) == Then(ResolveAll(init, refresh, bot), last);
      ResolveAllSplit(a, init, refresh, bot);
      ThenAssociative(ResolveAll(a, refresh, bot), ResolveAll(init, refresh, bot), last);
    }
  }

  lemma ThenAssociative(x: Run, y: Run, z: Run)
    ensures Then(Then(x, y), z) == Then(x, Then(y, z))
  {
    if x.out.Ok? && y.out.Ok? && z.out.Ok? {
      assert x.out.value + y.out.value + z.out.value == x.out.value + (y.out.value + z.out.value);
    }
    if x.out.Ok? {
      assert x.calls + y.calls + z.calls == x.calls + (y.calls + z.calls);
    }
  }

  /** A cached `temp_url` becomes the `uri` with no call, unless a refresh is
      asked for; the rebuilt segment keeps its kind and every other field. */
  lemma CachedTempUrlNeedsNoCall(s: Segment, bot: Bot)
    requires LazyMedia(s) && "temp_url" in s.data
    ensures var step := Resolve(s, false, bot);
      && step.calls == []
      && step.out.Ok? && |step.out.value| == 1
      && var t := step.out.value[0];
         && t.kind == s.kind && t.tag == Tag(s.kind)
         && t.data.Keys == s.data.Keys + {"uri"}
         && t.data["uri"] == AsDict(s.data["temp_url"])
         && forall k | k in s.data :: t.data[k] == AsDict(s.data[k])
  {
  }

  /** Otherwise exactly one `get_resource_temp_url` call is made, for the
      segment's `resource_id`, and its answer becomes the `uri`. */
  lemma TempUrlFetchedOnce(s: Segment, refresh: bool, bot: Bot)
    requires NeedsTempUrl(s, refresh)
    ensures var step := Resolve(s, refresh, bot);
      var url := bot.resourceTempUrl(AsDict(s.data["resource_id"]));
      && step.calls == [ResourceTempUrlCall(AsDict(s.data["resource_id"]))]
      && (step.out.Ok? <==> url.Ok?)
      && (url.Err? ==> step.out == Err(url.error))
      && (url.Ok? ==> |step.out.value| == 1 && step.out.value[0].kind == s.kind
                      && step.out.value[0].data == DumpedData(s)["uri" := url.value])
  {
  }

  /** A forward reference makes exactly one `get_forwarded_messages` call and
      becomes an inline forward with one node per fetched message, each sent
      as the bot. */
  lemma ForwardFetchedOnce(s: Segment, refresh: bool, bot: Bot)
    requires ForwardRef(s)
    ensures var step := Resolve(s, refresh, bot);
      var fetched := bot.forwardedMessages(s.data["forward_id"]);
      && step.calls == [ForwardedMessagesCall(s.data["forward_id"])]
      && (step.out.Ok? <==> fetched.Ok?)
      && (fetched.Ok? ==>
            && |step.out.value| == 1 && step.out.value[0].kind == Forward && "forward_id" !in step.out.value[0].data
            && var nodes := step.out.value[0].data["messages"].nodes;
               && |nodes| == |fetched.value|
               && forall i | 0 <= i < |nodes| :: && nodes[i].userId == Int(bot.selfId)
                                                 && nodes[i].name == Str(fetched.value[i].name)
                                                 && nodes[i].segments == fetched.value[i].message)
  {
  }

  /** The segments `sendable` keeps as they are: all but the receive-only ones. */
  function Kept(msg: Message): (r: Message)
    ensures |r| <= |msg|
    ensures forall i | 0 <= i < |r| :: !ReceiveOnly(r[i].kind)
  {
    if msg == [] then []
    else Kept(msg[..|msg| - 1]) + (if ReceiveOnly(msg[|msg| - 1].kind) then [] else [msg[|msg| - 1]])
  }

  /** With nothing to resolve, `sendable` makes no call and returns the
      message without its receive-only segments, in order. */
  lemma {:induction false} NothingToResolve(msg: Message, refresh: bool, bot: Bot)
    requires forall i | 0 <= i < |msg| :: !LazyMedia(msg[i]) && !ForwardRef(msg[i])
    ensures ResolveAll(msg, refresh, bot) == Run(Ok(Kept(msg)), [])
  {
    if msg != [] {
      NothingToResolve(msg[..|msg| - 1], refresh, bot);
    }
  }

  /** The number of calls `sendable` needs for a message. */
  function CallsNeeded(msg: Message, refresh: bool): nat
  {
    if msg == [] then 0
    else CallsNeeded(msg[..|msg| - 1], refresh)
         + (if NeedsTempUrl(msg[|msg| - 1], refresh) || ForwardRef(msg[|msg| - 1]) then 1 else 0)
  }

  /** A successful run makes exactly one call per segment that needs one:
      none at all when every temp URL is cached and nothing is forwarded by reference. */
  lemma {:induction false} OneCallPerResolvedSegment(msg: Message, refresh: bool, bot: Bot)
    requires ResolveAll(msg, refresh, bot).out.Ok?
    ensures |ResolveAll(msg, refresh, bot).calls| == CallsNeeded(msg, refresh)
  {
    if msg != [] {
      OneCallPerResolvedSegment(msg[..|msg| - 1], refresh, bot);
    }
  }

  /** The bot of `bot.py` has neither `get_resource_temp_url` nor
      `get_forwarded_messages`, so both calls raise: `sendable` then succeeds
      exactly on messages that need no call. */
  lemma {:induction false} WithoutResolversOnlyCachedMessagesSend(msg: Message, refresh: bool, bot: Bot)
    requires forall v :: bot.resourceTempUrl(v).Err?
    requires forall v :: bot.forwardedMessages(v).Err?
    ensures ResolveAll(msg, refresh, bot).out.Ok? <==> CallsNeeded(msg, refresh) == 0
  {
    if msg != [] {
      WithoutResolversOnlyCachedMessagesSend(msg[..|msg| - 1], refresh, bot);
    }
  }
}
