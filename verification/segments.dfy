/** The message-segment codec of `message.py`: the closed set of segment
    kinds and their tags, the JSON-like values segments carry, `parse`/`dump`
    per kind (with `Forward`'s two shapes), `is_text`, `__str__`, the
    factories, and `Message.from_elements`/`to_elements`. */
module Segments {
  import opened Outcomes

  /** The twelve direct subclasses of `MessageSegment`, in declaration order. */
  datatype Kind =
    | Text | Mention | MentionAll | Face | Reply | Image | Record | Video
    | Forward | MarketFace | LightApp | Xml

  const Kinds: seq<Kind> :=
    [Text, Mention, MentionAll, Face, Reply, Image, Record, Video, Forward, MarketFace, LightApp, Xml]

  /** The Python class name of each kind. */
  function ClassName(k: Kind): string
  {
    match k
    case Text => "Text"
    case Mention => "Mention"
    case MentionAll => "MentionAll"
    case Face => "Face"
    case Reply => "Reply"
    case Image => "Image"
    case Record => "Record"
    case Video => "Video"
    case Forward => "Forward"
    case MarketFace => "MarketFace"
    case LightApp => "LightAPP"
    case Xml => "XML"
  }

  /** The `element_type=` keyword each class passes to `__init_subclass__`, if any. */
  function ElementTypeArgument(k: Kind): Option<string>
  {
    match k
    case MentionAll => Some("mention_all")
    case MarketFace => Some("market_face")
    case LightApp => Some("light_app")
    case Xml => Some("xml")
    case _ => None
  }

  function LowerChar(c: char): char
  {
    if 'A' <= c <= 'Z' then (c as int + 32) as char else c
  }

  /** ASCII `str.lower()`, which is all the class names need. */
  function Lower(s: string): (r: string)
    ensures |r| == |s| && forall i :: 0 <= i < |s| ==> r[i] == LowerChar(s[i])
  {
    seq(|s|, i requires 0 <= i < |s| => LowerChar(s[i]))
  }

  /** The rule of `__init_subclass__`: the keyword if given, else the lower-cased class name. */
  function SubclassTag(className: string, elementType: Option<string>): string
  {
    match elementType
    case Some(t) => t
    case None => Lower(className)
  }

  /** The `__element_type__` of each kind. */
  function Tag(k: Kind): string
  {
    match k
    case Text => "text"
    case Mention => "mention"
    case MentionAll => "mention_all"
    case Face => "face"
    case Reply => "reply"
    case Image => "image"
    case Record => "record"
    case Video => "video"
    case Forward => "forward"
    case MarketFace => "market_face"
    case LightApp => "light_app"
    case Xml => "xml"
  }

  /** The tag table is what `__init_subclass__` computes for each class. */
  lemma TagFollowsSubclassRule(k: Kind)
    ensures Tag(k) == SubclassTag(ClassName(k), ElementTypeArgument(k))
  {
    match k
    case Text => LowerIs("Text", "text");
    case Mention => LowerIs("Mention", "mention");
    case MentionAll =>
    case Face => LowerIs("Face", "face");
    case Reply => LowerIs("Reply", "reply");
    case Image => LowerIs("Image", "image");
    case Record => LowerIs("Record", "record");
    case Video => LowerIs("Video", "video");
    case Forward => LowerIs("Forward", "forward");
    case MarketFace =>
    case LightApp =>
    case Xml =>
  }

  /** `s.lower() == t`, checked character by character. */
  lemma LowerIs(s: string, t: string)
    requires |s| == |t| && forall i | 0 <= i < |s| :: LowerChar(s[i]) == t[i]
    ensures Lower(s) == t
  {
  }

  /** Length and first two characters, which already tell the tags apart. */
  function Signature(t: string): int
  {
    if |t| < 2 then -1 else |t| * 0x1_0000_0000 + t[0] as int * 0x1_0000 + t[1] as int
  }

  /** No two subclasses share a tag. */
  lemma TagInjective(a: Kind, b: Kind)
    requires Tag(a) == Tag(b)
    ensures a == b
  {
    assert Signature(Tag(a)) == Signature(Tag(b));
  }

  lemma TagsDistinct()
    ensures forall a, b | Tag(a) == Tag(b) :: a == b
  {
    forall a, b | Tag(a) == Tag(b) ensures a == b {
      TagInjective(a, b);
    }
  }

  lemma KindListed(k: Kind)
    ensures k in Kinds
  {
    match k
    case Text =>
    case Mention =>
    case MentionAll =>
    case Face =>
    case Reply =>
    case Image =>
    case Record =>
    case Video =>
    case Forward =>
    case MarketFace =>
    case LightApp =>
    case Xml =>
  }

  /** `TYPE_MAPPING`: each subclass under its tag. */
  function TypeMapping(): map<string, Kind>
  {
    TagsDistinct();
    map k | k in Kinds :: Tag(k) := k
  }

  /** Every subclass is found under its own tag, and every key of
      `TYPE_MAPPING` maps back to the class it names. */
  lemma TypeMappingExact()
    ensures forall k :: Tag(k) in TypeMapping() && TypeMapping()[Tag(k)] == k
    ensures forall t | t in TypeMapping() :: Tag(TypeMapping()[t]) == t
  {
    forall k ensures Tag(k) in TypeMapping() && TypeMapping()[Tag(k)] == k {
      KindListed(k);
    }
  }

  /** The only subclass whose tag can be `t`, judged from its length and
      first letters. */
  function Candidate(t: string): Option<Kind>
  {
    if |t| < 2 then None
    else match |t|
      case 3 => Some(Xml)
      case 4 => if t[0] == 't' then Some(Text) else Some(Face)
      case 5 => if t[0] == 'r' then Some(Reply) else if t[0] == 'i' then Some(Image) else Some(Video)
      case 6 => Some(Record)
      case 7 => if t[0] == 'm' then Some(Mention) else Some(Forward)
      case 9 => Some(LightApp)
      case 11 => if t[1] == 'e' then Some(MentionAll) else Some(MarketFace)
      case _ => None
  }

  /** `TYPE_MAPPING[t]`, or `None` where Python raises `KeyError`: the
      candidate subclass, kept only if its tag is exactly `t`. */
  function KindOf(t: string): (r: Option<Kind>)
    ensures r.Some? ==> Tag(r.value) == t
  {
    var c := Candidate(t);
    if c.Some? && Tag(c.value) == t then c else None
  }

  /** The length-and-letter dispatch picks the right subclass for each tag. */
  lemma CandidateOfTag(k: Kind)
    ensures Candidate(Tag(k)) == Some(k)
  {
    var t := Tag(k);
    match k
    case Text => assert |t| == 4 && t[0] == 't';
    case Mention => assert |t| == 7 && t[0] == 'm';
    case MentionAll => assert |t| == 11 && t[1] == 'e';
    case Face => assert |t| == 4 && t[0] == 'f';
    case Reply => assert |t| == 5 && t[0] == 'r';
    case Image => assert |t| == 5 && t[0] == 'i';
    case Record => assert |t| == 6;
    case Video => assert |t| == 5 && t[0] == 'v';
    case Forward => assert |t| == 7 && t[0] == 'f';
    case MarketFace => assert |t| == 11 && t[1] == 'a';
    case LightApp => assert |t| == 9;
    case Xml => assert |t| == 3;
  }

  /** Every subclass is found under its own tag. */
  lemma KindOfTag(k: Kind)
    ensures KindOf(Tag(k)) == Some(k)
  {
    CandidateOfTag(k);
  }

  /** The lookup agrees with `TYPE_MAPPING` on every string. */
  lemma KindOfIsTypeMapping(t: string)
    ensures t in TypeMapping() <==> KindOf(t).Some?
    ensures t in TypeMapping() ==> KindOf(t) == Some(TypeMapping()[t])
  {
    TypeMappingExact();
    if t in TypeMapping() {
      KindOfTag(TypeMapping()[t]);
    }
  }

  /** A Python value as segments hold it: JSON data, plus the list of
      `OutgoingForwardedMessage` objects an outgoing `Forward` keeps under `messages`. */
  datatype Value =
    | Null
    | Bool(b: bool)
    | Int(i: int)
    | Str(s: string)
    | Array(items: seq<Value>)
    | Object(fields: map<string, Value>)
    | NodeList(nodes: seq<Node>)

  /** `OutgoingForwardedMessage`: a dataclass whose fields are not validated. */
  datatype Node = Node(userId: Value, name: Value, segments: seq<Segment>)

  /** A segment object: its class, its `type` field and its `data` dict. */
  datatype Segment = Segment(kind: Kind, tag: string, data: map<string, Value>)

  /** `Message`: an ordered list of segments. */
  type Message = seq<Segment>

  /** The Python exceptions the codec can raise. */
  datatype DecodeError = KeyError(key: Value) | TypeError(reason: string) | AttributeError(name: string)

  /** Values that contain no dataclass objects, i.e. plain JSON. */
  predicate IsJson(v: Value)
    decreases v
  {
    match v
    case Array(items) => forall i | 0 <= i < |items| :: IsJson(items[i])
    case Object(m) => forall k | k in m :: IsJson(m[k])
    case NodeList(_) => false
    case _ => true
  }

  /** Only lists and dicts are unhashable; they cannot be looked up in `TYPE_MAPPING`. */
  predicate Hashable(v: Value)
  {
    !(v.Array? || v.Object? || v.NodeList?)
  }

  /** An iterable that yields nothing: `[]`, `{}`, `""` or an empty node list. */
  predicate EmptyIterable(v: Value)
  {
    v == Array([]) || v == Object(map[]) || v == Str("") || v == NodeList([])
  }

  // ---------------------------------------------------------------------------
  // dump

  /** The `{"type": ..., "data": ...}` dict of one element. */
  function Element(tag: string, data: map<string, Value>): Value
  {
    Object(map["type" := Str(tag), "data" := Object(data)])
  }

  /** `dataclasses.asdict` applied to a value: dataclass objects become dicts. */
  function AsDict(v: Value): (r: Value)
    ensures IsJson(r)
    decreases v, 1
  {
    match v
    case Array(items) => Array(seq(|items|, i requires 0 <= i < |items| => AsDict(items[i])))
    case Object(m) => Object(map k | k in m :: AsDict(m[k]))
    case NodeList(ns) => Array(seq(|ns|, i requires 0 <= i < |ns| => AsDictNode(ns[i])))
    case _ => v
  }

  function AsDictNode(n: Node): (r: Value)
    ensures IsJson(r)
    decreases n, 0
  {
    Object(map[
      "user_id" := AsDict(n.userId),
      "name" := AsDict(n.name),
      "segments" := Array(seq(|n.segments|, i requires 0 <= i < |n.segments| => AsDictSegment(n.segments[i])))])
  }

  /** `asdict(segment)`: the generic `dump` of every kind but `Forward`. */
  function AsDictSegment(s: Segment): (r: Value)
    ensures IsJson(r)
    decreases s, 0
  {
    Element(s.tag, map k | k in s.data :: AsDict(s.data[k]))
  }

  /** `asdict` changes nothing in plain JSON. */
  lemma {:induction false} AsDictKeepsJson(v: Value)
    requires IsJson(v)
    ensures AsDict(v) == v
    decreases v
  {
    match v
    case Array(items) =>
      forall i | 0 <= i < |items| ensures AsDict(items[i]) == items[i] {
        AsDictKeepsJson(items[i]);
      }
    case Object(m) =>
      forall k | k in m ensures AsDict(m[k]) == m[k] {
        AsDictKeepsJson(m[k]);
      }
      assert (map k | k in m :: AsDict(m[k])) == m;
    case _ =>
  }

  /** `dump()`: `asdict` for most kinds; `Forward.dump` keeps one of its two shapes. */
  function Dump(s: Segment): (r: Result<Value, DecodeError>)
    decreases s, 2
  {
    if s.kind != Forward then Ok(AsDictSegment(s))
    else if "messages" !in s.data then
      if "forward_id" in s.data then Ok(Element(s.tag, map["forward_id" := s.data["forward_id"]]))
      else Err(KeyError(Str("forward_id")))
    else
      var nodes := DumpNodes(s.data["messages"]);
      if nodes.Err? then Err(nodes.error)
      else Ok(Element(s.tag, map["messages" := Array(nodes.value)]))
  }

  /** The comprehension over `self.data["messages"]` in `Forward.dump`: a
      non-empty list, dict or string yields items without a `user_id` attribute. */
  function DumpNodes(v: Value): Result<seq<Value>, DecodeError>
    decreases v, 1
  {
    if v.NodeList? then DumpNodeSeq(v.nodes)
    else if EmptyIterable(v) then Ok([])
    else if v.Array? || v.Object? || v.Str? then Err(AttributeError("user_id"))
    else Err(TypeError("object is not iterable"))
  }

  function DumpNodeSeq(ns: seq<Node>): Result<seq<Value>, DecodeError>
    decreases ns, 0
  {
    if ns == [] then Ok([])
    else
      var prefix := DumpNodeSeq(ns[..|ns| - 1]);
      if prefix.Err? then prefix
      else
        var d := DumpNode(ns[|ns| - 1]);
        if d.Err? then Err(d.error) else Ok(prefix.value + [d.value])
  }

  function DumpNode(n: Node): Result<Value, DecodeError>
    decreases n, 1
  {
    var elements := DumpAll(n.segments);
    if elements.Err? then Err(elements.error)
    else Ok(Object(map["user_id" := n.userId, "name" := n.name, "segments" := Array(elements.value)]))
  }

  /** One `dump()` per segment, in order; the first failure is raised. */
  function DumpAll(segs: seq<Segment>): Result<seq<Value>, DecodeError>
    decreases segs, 0
  {
    if segs == [] then Ok([])
    else
      var prefix := DumpAll(segs[..|segs| - 1]);
      if prefix.Err? then prefix
      else
        var d := Dump(segs[|segs| - 1]);
        if d.Err? then Err(d.error) else Ok(prefix.value + [d.value])
  }

  // ---------------------------------------------------------------------------
  // parse

  /** `TYPE_MAPPING[element["type"]].parse(element["data"])` for one element. */
  function ParseElement(e: Value): Result<Segment, DecodeError>
    decreases e, 0, 0
  {
    if !e.Object? then Err(TypeError("element is not subscriptable by a string"))
    else if "type" !in e.fields then Err(KeyError(Str("type")))
    else if !Hashable(e.fields["type"]) then Err(TypeError("unhashable type"))
    else if !(e.fields["type"].Str? && KindOf(e.fields["type"].s).Some?) then Err(KeyError(e.fields["type"]))
    else if "data" !in e.fields then Err(KeyError(Str("data")))
    else Parse(KindOf(e.fields["type"].s).value, e.fields["data"])
  }

  /** `parse(data)`: every kind but `Forward` wraps the dict unchanged under its own tag. */
  function Parse(k: Kind, data: Value): Result<Segment, DecodeError>
    decreases data, 2, 0
  {
    if k == Forward then ParseForward(data)
    else if data.Object? then Ok(Segment(k, Tag(k), data.fields))
    else Err(TypeError("segment data is not a dict"))
  }

  /** `Forward.parse`: a `forward_id` reference, else an inline node list. */
  function ParseForward(data: Value): Result<Segment, DecodeError>
    decreases data, 1, 0
  {
    if !data.Object? then Err(TypeError("forward data is not a dict"))
    else if "forward_id" in data.fields then
      Ok(Segment(Forward, "forward", map["forward_id" := data.fields["forward_id"]]))
    else if "messages" !in data.fields then Err(KeyError(Str("messages")))
    else
      var nodes := ParseNodes(data.fields["messages"]);
      if nodes.Err? then Err(nodes.error)
      else Ok(Segment(Forward, "forward", map["messages" := NodeList(nodes.value)]))
  }

  /** The comprehension over `data["messages"]` in `Forward.parse`. */
  function ParseNodes(v: Value): Result<seq<Node>, DecodeError>
    decreases v, 4, 0
  {
    if v.Array? then ParseNodeItems(v, |v.items|)
    else if EmptyIterable(v) then Ok([])
    else Err(TypeError("not a list of dicts"))
  }

  function ParseNodeItems(parent: Value, n: nat): Result<seq<Node>, DecodeError>
    requires parent.Array? && n <= |parent.items|
    decreases parent, 3, n
  {
    if n == 0 then Ok([])
    else
      var prefix := ParseNodeItems(parent, n - 1);
      if prefix.Err? then prefix
      else
        var node := ParseNode(parent.items[n - 1]);
        if node.Err? then Err(node.error) else Ok(prefix.value + [node.value])
  }

  function ParseNode(msg: Value): Result<Node, DecodeError>
    decreases msg, 0, 0
  {
    if !msg.Object? then Err(TypeError("forwarded message is not a dict"))
    else if "user_id" !in msg.fields then Err(KeyError(Str("user_id")))
    else if "name" !in msg.fields then Err(KeyError(Str("name")))
    else if "segments" !in msg.fields then Err(KeyError(Str("segments")))
    else
      var segs := DecodeElements(msg.fields["segments"]);
      if segs.Err? then Err(segs.error)
      else Ok(Node(msg.fields["user_id"], msg.fields["name"], segs.value))
  }

  /** `Message.from_elements`, as a function over the decoded list. */
  function DecodeElements(elements: Value): Result<Message, DecodeError>
    decreases elements, 4, 0
  {
    if elements.Array? then DecodeItems(elements, |elements.items|)
    else if EmptyIterable(elements) then Ok([])
    else Err(TypeError("elements is not a list of dicts"))
  }

  /** Decoding of the first `n` elements of a list; the first failure is raised. */
  function DecodeItems(parent: Value, n: nat): Result<Message, DecodeError>
    requires parent.Array? && n <= |parent.items|
    decreases parent, 3, n
  {
    if n == 0 then Ok([])
    else
      var prefix := DecodeItems(parent, n - 1);
      if prefix.Err? then prefix
      else
        var s := ParseElement(parent.items[n - 1]);
        if s.Err? then Err(s.error) else Ok(prefix.value + [s.value])
  }

  // ---------------------------------------------------------------------------
  // well-formedness and the round trips

  /** A segment the codec can reproduce: its `type` is its class tag, a
      `Forward` has exactly one of its two shapes, and other data is plain JSON. */
  predicate WellFormed(s: Segment)
    decreases s
  {
    && s.tag == Tag(s.kind)
    && if s.kind == Forward then
         || s.data.Keys == {"forward_id"}
         || (&& s.data.Keys == {"messages"}
             && s.data["messages"].NodeList?
             && forall i | 0 <= i < |s.data["messages"].nodes| ::
                  WellFormedNode(s.data["messages"].nodes[i]))
       else forall k | k in s.data :: IsJson(s.data[k])
  }

  predicate WellFormedNode(n: Node)
    decreases n
  {
    forall i | 0 <= i < |n.segments| :: WellFormed(n.segments[i])
  }

  /** `to_elements` keeps one dump per segment, in order, and fails only where a dump fails. */
  lemma {:induction false} DumpAllPointwise(segs: seq<Segment>)
    ensures DumpAll(segs).Ok? <==> forall i | 0 <= i < |segs| :: Dump(segs[i]).Ok?
    ensures DumpAll(segs).Ok? ==>
      && |DumpAll(segs).value| == |segs|
      && forall i | 0 <= i < |segs| :: Dump(segs[i]) == Ok(DumpAll(segs).value[i])
    decreases |segs|
  {
    if segs != [] {
      var init := segs[..|segs| - 1];
      DumpAllPointwise(init);
    }
  }

  /** The first segment whose dump fails decides the error of `to_elements`. */
  lemma {:induction false} DumpAllFirstError(segs: seq<Segment>, i: nat)
    requires i < |segs| && DumpAll(segs[..i]).Ok? && Dump(segs[i]).Err?
    ensures DumpAll(segs) == Err(Dump(segs[i]).error)
    decreases |segs|
  {
    var init := segs[..|segs| - 1];
    if i < |init| {
      assert init[..i] == segs[..i];
      DumpAllFirstError(init, i);
    } else {
      assert init == segs[..i];
    }
  }

  /** `from_elements` keeps length and order: element `i` decodes to segment `i`. */
  lemma {:induction false} DecodeItemsPointwise(parent: Value, n: nat)
    requires parent.Array? && n <= |parent.items|
    ensures DecodeItems(parent, n).Ok? <==> forall i | 0 <= i < n :: ParseElement(parent.items[i]).Ok?
    ensures DecodeItems(parent, n).Ok? ==>
      && |DecodeItems(parent, n).value| == n
      && forall i | 0 <= i < n :: ParseElement(parent.items[i]) == Ok(DecodeItems(parent, n).value[i])
    decreases n
  {
    if n > 0 {
      DecodeItemsPointwise(parent, n - 1);
      var prefix := DecodeItems(parent, n - 1);
      var last := ParseElement(parent.items[n - 1]);
      if prefix.Ok? && last.Ok? {
        DecodeItemsSnoc(parent, n);
        ParsedSnoc(parent.items, n, prefix.value, last.value);
      } else if prefix.Err? {
        DecodeItemsErrorStays(parent, n);
      } else {
        DecodeItemsStopsAt(parent, n);
      }
    }
  }

  lemma ParsedSnoc(items: seq<Value>, n: nat, prefix: Message, last: Segment)
    requires 0 < n <= |items| && |prefix| == n - 1
    requires forall i | 0 <= i < n - 1 :: ParseElement(items[i]) == Ok(prefix[i])
    requires ParseElement(items[n - 1]) == Ok(last)
    ensures forall i | 0 <= i < n :: ParseElement(items[i]) == Ok((prefix + [last])[i])
  {
    forall i | 0 <= i < n ensures ParseElement(items[i]) == Ok((prefix + [last])[i]) {
      if i < n - 1 {
        assert (prefix + [last])[i] == prefix[i];
      }
    }
  }

  /** The first element that fails to parse decides the error of `from_elements`. */
  lemma {:induction false} DecodeItemsFirstError(parent: Value, i: nat, n: nat)
    requires parent.Array? && i < n <= |parent.items|
    requires DecodeItems(parent, i).Ok? && ParseElement(parent.items[i]).Err?
    ensures DecodeItems(parent, n) == Err(ParseElement(parent.items[i]).error)
    decreases n
  {
    if i < n - 1 {
      DecodeItemsFirstError(parent, i, n - 1);
      DecodeItemsErrorStays(parent, n);
    } else {
      DecodeItemsStopsAt(parent, n);
    }
  }

  lemma DecodeItemsErrorStays(parent: Value, n: nat)
    requires parent.Array? && 0 < n <= |parent.items| && DecodeItems(parent, n - 1).Err?
    ensures DecodeItems(parent, n) == DecodeItems(parent, n - 1)
  {
  }

  lemma DecodeItemsStopsAt(parent: Value, n: nat)
    requires parent.Array? && 0 < n <= |parent.items|
    requires DecodeItems(parent, n - 1).Ok? && ParseElement(parent.items[n - 1]).Err?
    ensures DecodeItems(parent, n) == Err(ParseElement(parent.items[n - 1]).error)
  {
  }

  lemma DecodeElementsPointwise(items: seq<Value>)
    ensures DecodeElements(Array(items)).Ok? <==> forall i | 0 <= i < |items| :: ParseElement(items[i]).Ok?
    ensures DecodeElements(Array(items)).Ok? ==>
      && |DecodeElements(Array(items)).value| == |items|
      && forall i | 0 <= i < |items| :: ParseElement(items[i]) == Ok(DecodeElements(Array(items)).value[i])
  {
    DecodeItemsPointwise(Array(items), |items|);
  }

  /** An element whose `type` is not a registered tag makes the whole
      `from_elements` fail: it is not skipped. */
  lemma UnknownTypeFailsWholeMessage(items: seq<Value>, i: nat, t: string)
    requires i < |items| && items[i].Object?
    requires "type" in items[i].fields && items[i].fields["type"] == Str(t)
    requires t !in TypeMapping()
    ensures ParseElement(items[i]) == Err(KeyError(Str(t)))
    ensures DecodeElements(Array(items)).Err?
  {
    KindOfIsTypeMapping(t);
    DecodeElementsPointwise(items);
  }

  /** Decoding a prefix of a list only looks at that prefix. */
  lemma {:induction false} ParseNodeItemsPrefix(a: Value, b: Value, n: nat)
    requires a.Array? && b.Array? && n <= |a.items| && n <= |b.items|
    requires a.items[..n] == b.items[..n]
    ensures ParseNodeItems(a, n) == ParseNodeItems(b, n)
    decreases n
  {
    if n > 0 {
      assert a.items[..n - 1] == b.items[..n - 1];
      assert a.items[n - 1] == a.items[..n][n - 1];
      ParseNodeItemsPrefix(a, b, n - 1);
    }
  }

  lemma {:induction false} DecodeItemsPrefix(a: Value, b: Value, n: nat)
    requires a.Array? && b.Array? && n <= |a.items| && n <= |b.items|
    requires a.items[..n] == b.items[..n]
    ensures DecodeItems(a, n) == DecodeItems(b, n)
    decreases n
  {
    if n > 0 {
      assert a.items[..n - 1] == b.items[..n - 1];
      assert a.items[n - 1] == a.items[..n][n - 1];
      DecodeItemsPrefix(a, b, n - 1);
    }
  }

  /** `Element` is read back by `ParseElement` into the class its tag names. */
  lemma ParseOfElement(k: Kind, data: map<string, Value>)
    ensures ParseElement(Element(Tag(k), data)) == Parse(k, Object(data))
  {
    KindOfTag(k);
  }

  /** On plain JSON data the generic dump is the element dict itself. */
  lemma AsDictSegmentOfJson(s: Segment)
    requires forall k | k in s.data :: IsJson(s.data[k])
    ensures AsDictSegment(s) == Element(s.tag, s.data)
  {
    var d := AsDictSegment(s).fields["data"].fields;
    forall k | k in s.data ensures d[k] == s.data[k] {
      AsDictKeepsJson(s.data[k]);
    }
    assert d == s.data;
  }

  /** For every well-formed segment, parsing its dump gives it back. */
  lemma {:induction false} RoundTrip(s: Segment)
    requires WellFormed(s)
    ensures Dump(s).Ok? && ParseElement(Dump(s).value) == Ok(s)
    decreases s, 2
  {
    if s.kind != Forward {
      AsDictSegmentOfJson(s);
      ParseOfElement(s.kind, s.data);
    } else if "messages" !in s.data {
      var id := s.data["forward_id"];
      ParseOfElement(Forward, map["forward_id" := id]);
      assert s.data == map["forward_id" := id];
    } else {
      var ns := s.data["messages"].nodes;
      RoundTripNodes(ns);
      var dumped := DumpNodeSeq(ns).value;
      assert Dump(s) == Ok(Element("forward", map["messages" := Array(dumped)]));
      ParseOfElement(Forward, map["messages" := Array(dumped)]);
      assert ParseNodes(Array(dumped)) == Ok(ns);
      assert s.data == map["messages" := NodeList(ns)];
    }
  }

  lemma {:induction false} RoundTripNodes(ns: seq<Node>)
    requires forall i | 0 <= i < |ns| :: WellFormedNode(ns[i])
    ensures DumpNodeSeq(ns).Ok?
    ensures |DumpNodeSeq(ns).value| == |ns|
    ensures ParseNodeItems(Array(DumpNodeSeq(ns).value), |ns|) == Ok(ns)
    decreases ns, 1
  {
    if ns != [] {
      var init, last := ns[..|ns| - 1], ns[|ns| - 1];
      RoundTripNodes(init);
      RoundTripNode(last);
      DumpNodeSeqSnoc(ns);
      var d, dl := DumpNodeSeq(init).value, DumpNode(last).value;
      ParseNodesSnoc(d, dl);
      assert DumpNodeSeq(ns).value == d + [dl] && |d| + 1 == |ns|;
      assert init + [last] == ns;
    }
  }

  lemma {:induction false} RoundTripNode(n: Node)
    requires WellFormedNode(n)
    ensures DumpNode(n).Ok? && ParseNode(DumpNode(n).value) == Ok(n)
    decreases n, 0
  {
    RoundTripList(n.segments);
  }

  lemma DumpNodeSeqSnoc(ns: seq<Node>)
    requires ns != [] && DumpNodeSeq(ns[..|ns| - 1]).Ok? && DumpNode(ns[|ns| - 1]).Ok?
    ensures DumpNodeSeq(ns) == Ok(DumpNodeSeq(ns[..|ns| - 1]).value + [DumpNode(ns[|ns| - 1]).value])
  {
  }

  /** Appending one message to a node list appends its parse to the nodes. */
  lemma ParseNodesSnoc(prefix: seq<Value>, d: Value)
    requires ParseNodeItems(Array(prefix), |prefix|).Ok? && ParseNode(d).Ok?
    ensures ParseNodeItems(Array(prefix + [d]), |prefix| + 1)
         == Ok(ParseNodeItems(Array(prefix), |prefix|).value + [ParseNode(d).value])
  {
    var all := prefix + [d];
    assert all[..|prefix|] == prefix;
    ParseNodeItemsPrefix(Array(prefix), Array(all), |prefix|);
  }

  lemma DumpAllSnoc(segs: seq<Segment>)
    requires segs != [] && DumpAll(segs[..|segs| - 1]).Ok? && Dump(segs[|segs| - 1]).Ok?
    ensures DumpAll(segs) == Ok(DumpAll(segs[..|segs| - 1]).value + [Dump(segs[|segs| - 1]).value])
  {
  }

  lemma DecodeItemsSnoc(parent: Value, n: nat)
    requires parent.Array? && 0 < n <= |parent.items|
    requires DecodeItems(parent, n - 1).Ok? && ParseElement(parent.items[n - 1]).Ok?
    ensures DecodeItems(parent, n) == Ok(DecodeItems(parent, n - 1).value + [ParseElement(parent.items[n - 1]).value])
  {
  }

  /** Appending one element to a list appends its parse to the decoded message. */
  lemma DecodeSnoc(prefix: seq<Value>, d: Value)
    requires DecodeElements(Array(prefix)).Ok? && ParseElement(d).Ok?
    ensures DecodeElements(Array(prefix + [d]))
         == Ok(DecodeElements(Array(prefix)).value + [ParseElement(d).value])
  {
    var all := prefix + [d];
    assert all[..|prefix|] == prefix;
    DecodeItemsPrefix(Array(prefix), Array(all), |prefix|);
    DecodeItemsSnoc(Array(all), |all|);
  }

  /** `from_elements(to_elements(m)) == m` for every message of well-formed segments. */
  lemma {:induction false} RoundTripList(segs: seq<Segment>)
    requires forall i | 0 <= i < |segs| :: WellFormed(segs[i])
    ensures DumpAll(segs).Ok?
    ensures |DumpAll(segs).value| == |segs|
    ensures DecodeElements(Array(DumpAll(segs).value)) == Ok(segs)
    decreases segs, 2
  {
    if segs != [] {
      var init, last := segs[..|segs| - 1], segs[|segs| - 1];
      RoundTripList(init);
      RoundTrip(last);
      RoundTripListStep(init, last);
      assert init + [last] == segs;
    }
  }

  /** The round trip of a message extends by one segment at a time. */
  lemma RoundTripListStep(init: seq<Segment>, last: Segment)
    requires DumpAll(init).Ok? && |DumpAll(init).value| == |init|
    requires DecodeElements(Array(DumpAll(init).value)) == Ok(init)
    requires Dump(last).Ok? && ParseElement(Dump(last).value) == Ok(last)
    ensures DumpAll(init + [last]).Ok?
    ensures |DumpAll(init + [last]).value| == |init| + 1
    ensures DecodeElements(Array(DumpAll(init + [last]).value)) == Ok(init + [last])
  {
    var segs := init + [last];
    assert segs[..|segs| - 1] == init;
    DumpAllSnoc(segs);
    DecodeSnoc(DumpAll(init).value, Dump(last).value);
  }

  /** Every segment decoded from JSON is well formed. */
  lemma {:induction false} DecodedIsWellFormed(e: Value)
    requires IsJson(e) && ParseElement(e).Ok?
    ensures WellFormed(ParseElement(e).value)
    decreases e, 2, 0
  {
    var k := KindOf(e.fields["type"].s).value;
    var data := e.fields["data"];
    assert ParseElement(e) == Parse(k, data);
    assert IsJson(data);
    if k == Forward {
      ParsedForwardIsWellFormed(data);
    }
  }

  lemma {:induction false} ParsedForwardIsWellFormed(data: Value)
    requires IsJson(data) && ParseForward(data).Ok?
    ensures WellFormed(ParseForward(data).value)
    decreases data, 1, 0
  {
    if "forward_id" !in data.fields {
      var msgs := data.fields["messages"];
      assert IsJson(msgs);
      assert ParseNodes(msgs).Ok?;
      if msgs.Array? {
        DecodedNodesAreWellFormed(msgs, |msgs.items|);
      }
    }
  }

  lemma {:induction false} DecodedNodesAreWellFormed(parent: Value, n: nat)
    requires IsJson(parent) && parent.Array? && n <= |parent.items|
    requires ParseNodeItems(parent, n).Ok?
    ensures |ParseNodeItems(parent, n).value| == n
    ensures forall i | 0 <= i < n :: WellFormedNode(ParseNodeItems(parent, n).value[i])
    decreases parent, 0, n
  {
    if n > 0 {
      DecodedNodesAreWellFormed(parent, n - 1);
      var msg := parent.items[n - 1];
      assert ParseNode(msg).Ok?;
      var segsValue := msg.fields["segments"];
      assert DecodeElements(segsValue).Ok?;
      if segsValue.Array? {
        DecodedListIsWellFormed(segsValue, |segsValue.items|);
      }
    }
  }

  lemma {:induction false} DecodedListIsWellFormed(parent: Value, n: nat)
    requires IsJson(parent) && parent.Array? && n <= |parent.items|
    requires DecodeItems(parent, n).Ok?
    ensures |DecodeItems(parent, n).value| == n
    ensures forall i | 0 <= i < n :: WellFormed(DecodeItems(parent, n).value[i])
    decreases parent, 0, n
  {
    if n > 0 {
      DecodedListIsWellFormed(parent, n - 1);
      DecodedIsWellFormed(parent.items[n - 1]);
    }
  }

  /** On wire data, one parse/dump round normalises: `parse . dump . parse == parse`. */
  lemma NormalisedByOneRoundTrip(e: Value)
    requires IsJson(e) && ParseElement(e).Ok?
    ensures Dump(ParseElement(e).value).Ok?
    ensures ParseElement(Dump(ParseElement(e).value).value) == ParseElement(e)
  {
    DecodedIsWellFormed(e);
    RoundTrip(ParseElement(e).value);
  }

  // ---------------------------------------------------------------------------
  // from_elements / to_elements, as the loops they are

  /** `Message.from_elements`: append the parse of each element in turn;
      the first element that fails raises. */
  method FromElements(elements: Value) returns (r: Result<Message, DecodeError>)
    ensures r == DecodeElements(elements)
  {
    if !elements.Array? {
      r := if EmptyIterable(elements) then Ok([]) else Err(TypeError("elements is not a list of dicts"));
      return;
    }
    var msg: Message := [];
    var i := 0;
    while i < |elements.items|
      invariant 0 <= i <= |elements.items|
      invariant DecodeItems(elements, i) == Ok(msg)
    {
      var s := ParseElement(elements.items[i]);
      if s.Err? {
        DecodeItemsFirstError(elements, i, |elements.items|);
        return Err(s.error);
      }
      msg := msg + [s.value];
      i := i + 1;
    }
    r := Ok(msg);
  }

  /** `Message.to_elements`: append the dump of each segment in turn;
      the first segment that fails raises. */
  method ToElements(msg: Message) returns (r: Result<seq<Value>, DecodeError>)
    ensures r == DumpAll(msg)
  {
    var res: seq<Value> := [];
    var i := 0;
    while i < |msg|
      invariant 0 <= i <= |msg|
      invariant DumpAll(msg[..i]) == Ok(res)
    {
      var d := Dump(msg[i]);
      if d.Err? {
        DumpAllFirstError(msg, i);
        return Err(d.error);
      }
      assert msg[..i + 1][..i] == msg[..i];
      res := res + [d.value];
      i := i + 1;
    }
    assert msg[..i] == msg;
    r := Ok(res);
  }

  // ---------------------------------------------------------------------------
  // is_text, __str__ and the factories

  /** `is_text`: the segment's `type` field is `"text"`. */
  predicate IsText(s: Segment)
  {
    s.tag == "text"
  }

  /** On segments whose `type` is their class tag, `is_text` picks out exactly the `Text` class. */
  lemma IsTextExactlyText(s: Segment)
    requires s.tag == Tag(s.kind)
    ensures IsText(s) <==> s.kind == Text
  {
  }

  predicate Hidden(key: string)
  {
    |key| > 0 && key[0] == '_'
  }

  /** `shown_data`: the data without the keys that start with `_`. */
  function ShownData(data: map<string, Value>): (r: map<string, Value>)
    ensures r.Keys == set k | k in data && !Hidden(k)
    ensures forall k | k in r :: r[k] == data[k]
  {
    map k | k in data && !Hidden(k) :: data[k]
  }

  /** What `__str__` shows: the raw text of a text segment, otherwise
      `[type: shown_data]`; the dict's own repr is left to Python. */
  datatype Rendering = Raw(text: Value) | Bracketed(tag: string, shown: map<string, Value>)

  function Render(s: Segment): (r: Result<Rendering, DecodeError>)
    ensures IsText(s) && "text" in s.data ==> r == Ok(Raw(s.data["text"]))
    ensures IsText(s) && "text" !in s.data ==> r.Err?
    ensures !IsText(s) ==> r.Ok? && r.value.Bracketed? && r.value.tag == s.tag
    ensures !IsText(s) ==> forall k :: k in r.value.shown <==> k in s.data && !Hidden(k)
    ensures !IsText(s) ==> r.value.shown == ShownData(s.data)
  {
    var shown := ShownData(s.data);
    if IsText(s) then
      if "text" in s.data then Ok(Raw(s.data["text"])) else Err(KeyError(Str("text")))
    else Ok(Bracketed(s.tag, shown))
  }

  function OptionalStr(v: Option<string>): Value
  {
    match v
    case Some(s) => Str(s)
    case None => Null
  }

  /** `MessageSegment.text`. */
  function TextSegment(content: string): (s: Segment)
    ensures WellFormed(s) && IsText(s) && s.data == map["text" := Str(content)]
  {
    Segment(Text, "text", map["text" := Str(content)])
  }

  /** `MessageSegment.mention`. */
  function MentionSegment(userId: int): (s: Segment)
    ensures WellFormed(s) && s.data == map["user_id" := Int(userId)]
  {
    Segment(Mention, "mention", map["user_id" := Int(userId)])
  }

  /** `MessageSegment.mention_all`. */
  function MentionAllSegment(): (s: Segment)
    ensures WellFormed(s) && s.data == map[]
  {
    Segment(MentionAll, "mention_all", map[])
  }

  /** `MessageSegment.face`. */
  function FaceSegment(faceId: string): (s: Segment)
    ensures WellFormed(s) && s.data == map["face_id" := Str(faceId)]
  {
    Segment(Face, "face", map["face_id" := Str(faceId)])
  }

  /** `MessageSegment.reply`: a reference by message sequence number. */
  function ReplySegment(messageSeq: int): (s: Segment)
    ensures WellFormed(s) && s.data == map["message_seq" := Int(messageSeq)]
  {
    Segment(Reply, "reply", map["message_seq" := Int(messageSeq)])
  }

  /** `MessageSegment.image` once `to_uri` has produced `uri`. */
  function ImageSegment(uri: string, summary: Option<string>, subType: string): (s: Segment)
    ensures WellFormed(s) && s.kind == Image && "resource_id" !in s.data
    ensures s.data == map["uri" := Str(uri), "summary" := OptionalStr(summary), "sub_type" := Str(subType)]
  {
    Segment(Image, "image", map["uri" := Str(uri), "summary" := OptionalStr(summary), "sub_type" := Str(subType)])
  }

  /** `MessageSegment.record` once `to_uri` has produced `uri`. */
  function RecordSegment(uri: string): (s: Segment)
    ensures WellFormed(s) && s.kind == Record && "resource_id" !in s.data
    ensures s.data == map["uri" := Str(uri)]
  {
    Segment(Record, "record", map["uri" := Str(uri)])
  }

  /** `MessageSegment.video` once `to_uri` has produced `uri`. */
  function VideoSegment(uri: string, thumbUrl: Option<string>): (s: Segment)
    ensures WellFormed(s) && s.kind == Video && "resource_id" !in s.data
    ensures s.data == map["uri" := Str(uri), "thumb_url" := OptionalStr(thumbUrl)]
  {
    Segment(Video, "video", map["uri" := Str(uri), "thumb_url" := OptionalStr(thumbUrl)])
  }

  /** `MessageSegment.node`. */
  function NodeOf(userId: int, name: string, segments: Message): (n: Node)
    ensures n.userId == Int(userId) && n.name == Str(name) && n.segments == segments
  {
    Node(Int(userId), Str(name), segments)
  }

  /** `MessageSegment.forward`: an inline node list. */
  function ForwardSegment(nodes: seq<Node>): (s: Segment)
    ensures (forall i | 0 <= i < |nodes| :: WellFormedNode(nodes[i])) ==> WellFormed(s)
    ensures s.kind == Forward && s.data == map["messages" := NodeList(nodes)]
  {
    Segment(Forward, "forward", map["messages" := NodeList(nodes)])
  }
}
