/** The adapter of `adapter.py`: dispatching API calls (`_call_api`),
    building and classifying HTTP calls (`call_http`) and the connect, bind,
    unbind and reconnect loop of `ws_connect`. The socket, the HTTP client,
    JSON text and the timer are not modelled: what the network delivers and
    answers is given to the model. `json_to_event` is `Events.JsonToEvent`. */
module MilkyAdapter {
  import opened Outcomes
  import opened PyText
  import opened Segments
  import opened Records
  import opened Model
  import opened Events

  /** `RECONNECT_INTERVAL`, in seconds. */
  const ReconnectInterval: real := 3.0

  /** The adapter's exceptions (`MilkyAdapterException` and its subclasses). */
  datatype AdapterException =
    | ApiNotAvailable(api: string)
    | NetworkError(message: string)
    | OtherAdapterException(name: string, message: string)

  /** An exception as `call_http`'s guard sees it: one of the adapter's own,
      or any other, known by its `repr`. */
  datatype Raised = AdapterRaised(exc: AdapterException) | OtherRaised(repr: string)

  /** What `call_http`'s guard makes of an exception: the adapter's own pass
      unchanged, any other becomes a `NetworkError` naming it. */
  function Classify(e: Raised): (x: AdapterException)
    ensures e.AdapterRaised? ==> x == e.exc
    ensures e.OtherRaised? ==> x == NetworkError("HTTP request failed: " + e.repr)
  {
    match e
    case AdapterRaised(exc) => exc
    case OtherRaised(repr) => NetworkError("HTTP request failed: " + repr)
  }

  /** The `repr` of the exception an empty response body raises. */
  const EmptyResponse: string := "ValueError('Empty response')"

  /** A parameter of an API call: a plain value or a `ModelBase` record. */
  datatype Param = PlainParam(value: Value) | RecordParam(schema: Schema, record: map<string, Value>)

  /** The connection settings of a client; `get_url` is given as a function. */
  datatype ClientInfo = ClientInfo(accessToken: Option<string>, url: string -> string)

  /** The request `call_http` sends. */
  datatype Request = Request(verb: string, url: string, body: map<string, Value>, headers: map<string, string>)

  /** A response: its status code and its content. */
  datatype Response = Response(status: int, content: string)

  /** A token is sent only when it is truthy: present and not empty. */
  predicate HasToken(token: Option<string>)
  {
    token.Some? && token.value != ""
  }

  /** The headers of a call: always `Content-Type: application/json`, and
      `Authorization: Bearer <token>` exactly when the token is truthy. */
  function Headers(token: Option<string>): (h: map<string, string>)
    ensures "Content-Type" in h && h["Content-Type"] == "application/json"
    ensures "Authorization" in h <==> HasToken(token)
    ensures HasToken(token) ==> h["Authorization"] == "Bearer " + token.value
    ensures h.Keys <= {"Content-Type", "Authorization"}
  {
    var plain := map["Content-Type" := "application/json"];
    if HasToken(token) then plain["Authorization" := "Bearer " + token.value] else plain
  }

  /** `v.dict_()` for a record, the value itself otherwise. */
  function ParamValue(p: Param): Value
  {
    match p
    case PlainParam(v) => v
    case RecordParam(schema, rec) => Object(Dict(schema, rec, None, None, false, false))
  }

  /** The body of a call: each cleaned parameter, records as their `dict_()`. */
  function Body(data: map<string, Param>): (b: map<string, Value>)
    ensures b.Keys == data.Keys
    ensures forall k | k in data && data[k].PlainParam? :: b[k] == data[k].value
    ensures forall k | k in data && data[k].RecordParam? ::
      && b[k].Object?
      && forall f | f in b[k].fields :: f in data[k].record && b[k].fields[f] != Null
  {
    map k | k in data :: ParamValue(data[k])
  }

  /** A record parameter is sent as a dict that validates back to the record. */
  lemma RecordParamRoundTrip(data: map<string, Param>, k: string)
    requires k in data && data[k].RecordParam?
    requires SchemaOk(data[k].schema) && Canonical(data[k].schema, data[k].record)
    ensures Validate(data[k].schema, Body(data)[k]) == Ok(data[k].record)
  {
    DictRoundTrip(data[k].schema, data[k].record, false, false);
  }

  /** The framework hands each event to the bot it came for. */
  datatype Dispatch = Dispatch(bot: string, event: Event)

  /** What reading one frame of an open socket gives: a JSON value, or an
      exception (`ws.receive()` failed, the socket closed, or the text was not JSON). */
  datatype Frame = Json(v: Value) | Unreadable(reason: string)

  /** One pass of the reconnect loop: the socket could not be set up, or it
      was opened, these frames were read, and then it closed. */
  datatype Attempt = SetupFailed(reason: string) | Opened(frames: seq<Frame>)

  class Adapter {
    /** `self.request(req)`: the response, or the exception sending raises. */
    const transport: Request -> Result<Response, Raised>
    /** `raise_api_response(status, content)`: the exception it raises, if any. */
    const checkResponse: (int, string) -> Option<Raised>
    /** `handle_api_result(json.loads(content))`: the result, or what either raises. */
    const readResult: string -> Result<Value, Raised>
    /** `clean_params`. */
    const cleanParams: map<string, Param> -> map<string, Param>
    /** `self.connections`: the socket of each bound bot id. */
    var connections: map<string, nat>
    /** The ids of the bots connected to the framework. */
    var bots: set<string>
    /** The requests sent, oldest first. */
    ghost var requests: seq<Request>
    /** The events handed to the framework, oldest first. */
    ghost var dispatched: seq<Dispatch>
    /** The reconnect delays slept, oldest first. */
    ghost var sleeps: seq<real>

    constructor(transport: Request -> Result<Response, Raised>, checkResponse: (int, string) -> Option<Raised>,
                readResult: string -> Result<Value, Raised>, cleanParams: map<string, Param> -> map<string, Param>)
      ensures this.transport == transport && this.checkResponse == checkResponse
      ensures this.readResult == readResult && this.cleanParams == cleanParams
      ensures connections == map[] && bots == {}
      ensures requests == [] && dispatched == [] && sleeps == []
    {
      this.transport := transport;
      this.checkResponse := checkResponse;
      this.readResult := readResult;
      this.cleanParams := cleanParams;
      connections := map[];
      bots := {};
      requests := [];
      dispatched := [];
      sleeps := [];
    }

    /** The request `call_http(bot, action, params)` sends. */
    function RequestFor(info: ClientInfo, action: string, params: Option<map<string, Param>>): (req: Request)
      ensures req.verb == "POST" && req.url == info.url(action) && req.headers == Headers(info.accessToken)
    {
      var data := cleanParams(if params.None? then map[] else params.value);
      Request("POST", info.url(action), Body(data), Headers(info.accessToken))
    }

    /** How a sent request ends: its result, or the classified exception. An
      empty body raises `ValueError` inside the guard. */
    function Outcome(req: Request): Result<Value, AdapterException>
    {
      var response := transport(req);
      if response.Err? then Err(Classify(response.error))
      else
        var check := checkResponse(response.value.status, response.value.content);
        if check.Some? then Err(Classify(check.value))
        else if response.value.content == "" then Err(Classify(OtherRaised(EmptyResponse)))
        else
          var result := readResult(response.value.content);
          if result.Err? then Err(Classify(result.error)) else Ok(result.value)
    }

    /** `call_http`: sends one request, built as `RequestFor` says, and ends as `Outcome` says. */
    method CallHttp(info: ClientInfo, action: string, params: Option<map<string, Param>>)
      returns (r: Result<Value, AdapterException>)
      modifies this
      ensures requests == old(requests) + [RequestFor(info, action, params)]
      ensures r == Outcome(RequestFor(info, action, params))
      ensures connections == old(connections) && bots == old(bots)
      ensures dispatched == old(dispatched) && sleeps == old(sleeps)
    {
      var data := cleanParams(if params.None? then map[] else params.value);
      var body := map k | k in data :: ParamValue(data[k]);
      var header := map["Content-Type" := "application/json"];
      if info.accessToken.Some? && info.accessToken.value != "" {
        header := header["Authorization" := "Bearer " + info.accessToken.value];
      }
      var req := Request("POST", info.url(action), body, header);
      requests := requests + [req];
      r := Outcome(req);
    }

    /** `_call_api`: an API the bot class does not have raises
        `ApiNotAvailable` and sends nothing; a found one is the `call_http` of
        that action with the call's data. */
    method CallApi(info: ClientInfo, api: string, data: map<string, Param>, inherited: set<string>)
      returns (r: Result<Value, AdapterException>)
      modifies this
      ensures api !in BotClassAttributes + inherited ==>
        r == Err(ApiNotAvailable(api)) && requests == old(requests)
      ensures api in BotClassAttributes + inherited ==>
        && requests == old(requests) + [RequestFor(info, api, Some(data))]
        && r == Outcome(RequestFor(info, api, Some(data)))
      ensures connections == old(connections) && bots == old(bots)
      ensures dispatched == old(dispatched) && sleeps == old(sleeps)
    {
      if api !in BotClassAttributes + inherited {
        return Err(ApiNotAvailable(api));
      }
      r := CallHttp(info, api, Some(data));
    }

    /** One frame of the read loop, continuing from the events `events0`
        read so far into the state `c0`/`b0`/`d0`. */
    method HandleFrame(sock: nat, frame: Frame, bound0: Option<string>, ghost events0: seq<Event>,
                       ghost c0: map<string, nat>, ghost b0: set<string>, ghost d0: seq<Dispatch>)
      returns (bound: Option<string>, stopped: bool, ghost events: seq<Event>)
      requires bound0 == FirstKey(events0)
      requires bound0.Some? ==> connections == c0[bound0.value := sock] && bots == b0 + {bound0.value}
      requires bound0.None? ==> connections == c0 && bots == b0
      requires dispatched == d0 + Tagged(bound0, events0)
      modifies this
      ensures Reading(events, stopped) == ReadOne(Reading(events0, false), frame)
      ensures bound == FirstKey(events)
      ensures bound.Some? ==> connections == c0[bound.value := sock] && bots == b0 + {bound.value}
      ensures bound.None? ==> connections == c0 && bots == b0
      ensures dispatched == d0 + Tagged(bound, events)
      ensures requests == old(requests) && sleeps == old(sleeps)
    {
      bound, stopped, events := bound0, false, events0;
      match frame {
        case Unreadable(_) =>
          stopped := true;
        case Json(v) =>
          var e := JsonToEvent(StandardClasses(), v);
          if e.Err? {
            stopped := true;
          } else if e.value.Some? {
            var event := e.value.value;
            if bound.None? {
              bound := Some(IntStr(event.selfId));
              bots := bots + {bound.value};
              connections := connections[bound.value := sock];
            }
            TaggedSnoc(bound, events, event);
            events := events + [event];
            dispatched := dispatched + [Dispatch(bound.value, event)];
          }
      }
    }

    /** The read loop of one open socket: the first event binds a bot named
        by its `self_id`, which registers the socket; every event goes to that
        bot; the loop ends at the first exception or when the frames run out.
        The binding is still in place when it ends. */
    method ReadLoop(sock: nat, frames: seq<Frame>) returns (bound: Option<string>)
      modifies this
      ensures bound == BoundKey(frames)
      ensures bound.Some? ==> connections == old(connections)[bound.value := sock] && bots == old(bots) + {bound.value}
      ensures bound.None? ==> connections == old(connections) && bots == old(bots)
      ensures dispatched == old(dispatched) + SessionLog(frames)
      ensures requests == old(requests) && sleeps == old(sleeps)
    {
      bound := None;
      ghost var events: seq<Event> := [];
      var stopped := false;
      var i := 0;
      while i < |frames| && !stopped
        invariant 0 <= i <= |frames|
        decreases |frames| - i
        invariant Read(frames[..i]) == Reading(events, stopped)
        invariant bound == FirstKey(events)
        invariant bound.Some? ==> connections == old(connections)[bound.value := sock] && bots == old(bots) + {bound.value}
        invariant bound.None? ==> connections == old(connections) && bots == old(bots)
        invariant dispatched == old(dispatched) + Tagged(bound, events)
        invariant requests == old(requests) && sleeps == old(sleeps)
      {
        assert frames[..i + 1][..i] == frames[..i];
        bound, stopped, events := HandleFrame(sock, frames[i], bound, events, old(connections), old(bots), old(dispatched));
        i := i + 1;
      }
      if stopped {
        StoppedReadingStays(frames[..i], frames[i..]);
        assert frames[..i] + frames[i..] == frames;
      } else {
        assert frames[..i] == frames;
      }
    }

    /** One open socket: the read loop, then the `finally` that removes the
        binding, whichever way the loop ended. */
    method Session(sock: nat, frames: seq<Frame>)
      modifies this
      ensures var key := BoundKey(frames);
        && connections == (if key.Some? then old(connections) - {key.value} else old(connections))
        && bots == (if key.Some? then old(bots) - {key.value} else old(bots))
      ensures dispatched == old(dispatched) + SessionLog(frames)
      ensures requests == old(requests) && sleeps == old(sleeps)
    {
      var bound := ReadLoop(sock, frames);
      if bound.Some? {
        connections := connections - {bound.value};
        bots := bots - {bound.value};
      }
    }

    /** One pass of the reconnect loop: a failed setup sleeps
        `RECONNECT_INTERVAL`, an opened socket is read until it closes. */
    method Pass(sock: nat, attempt: Attempt)
      modifies this
      ensures connections == old(connections) - AttemptUnbound(attempt)
      ensures bots == old(bots) - AttemptUnbound(attempt)
      ensures dispatched == old(dispatched) + AttemptLog(attempt)
      ensures sleeps == old(sleeps) + AttemptSleeps(attempt)
      ensures requests == old(requests)
    {
      match attempt {
        case SetupFailed(_) =>
          sleeps := sleeps + [ReconnectInterval];
        case Opened(frames) =>
          Session(sock, frames);
      }
    }

    /** Pass `k`, continuing from what the first `k` passes did to the
        state `c0`/`b0`/`d0`/`s0`. */
    method NextPass(attempts: seq<Attempt>, k: nat, ghost c0: map<string, nat>, ghost b0: set<string>,
                    ghost d0: seq<Dispatch>, ghost s0: seq<real>)
      requires k < |attempts|
      requires connections == c0 - Unbound(attempts[..k]) && bots == b0 - Unbound(attempts[..k])
      requires dispatched == d0 + Log(attempts[..k]) && sleeps == s0 + Sleeps(attempts[..k])
      modifies this
      ensures connections == c0 - Unbound(attempts[..k + 1]) && bots == b0 - Unbound(attempts[..k + 1])
      ensures dispatched == d0 + Log(attempts[..k + 1]) && sleeps == s0 + Sleeps(attempts[..k + 1])
      ensures requests == old(requests)
    {
      PassesStep(attempts, k);
      Pass(k, attempts[k]);
      RemoveInTurn(b0, Unbound(attempts[..k]), AttemptUnbound(attempts[k]));
      UnbindInTurn(c0, Unbound(attempts[..k]), AttemptUnbound(attempts[k]));
    }

    /** `ws_connect` over the passes it makes; a failed setup is followed by
        a sleep, a closed socket by the next pass at once. The `k`-th pass's
        socket is numbered `k`. */
    method WsConnect(attempts: seq<Attempt>)
      modifies this
      ensures connections == old(connections) - Unbound(attempts)
      ensures bots == old(bots) - Unbound(attempts)
      ensures dispatched == old(dispatched) + Log(attempts)
      ensures sleeps == old(sleeps) + Sleeps(attempts)
      ensures requests == old(requests)
    {
      for k := 0 to |attempts|
        invariant connections == old(connections) - Unbound(attempts[..k])
        invariant bots == old(bots) - Unbound(attempts[..k])
        invariant dispatched == old(dispatched) + Log(attempts[..k])
        invariant sleeps == old(sleeps) + Sleeps(attempts[..k])
        invariant requests == old(requests)
      {
        NextPass(attempts, k, old(connections), old(bots), old(dispatched), old(sleeps));
      }
      assert attempts[..|attempts|] == attempts;
    }
  }

  /** The names `getattr(Bot, name)` finds among those `bot.py` defines. */
  const BotClassAttributes: set<string> :=
    {"__init__", "__getattr__", "handle_event", "send", "send_private_message", "send_group_message", "get_message"}

  // ---------------------------------------------------------------------------
  // call_http: properties

  /** An empty body is an error, wrapped as a `NetworkError`. */
  lemma EmptyBodyIsNetworkError(a: Adapter, req: Request)
    requires a.transport(req).Ok? && a.transport(req).value.content == ""
    requires a.checkResponse(a.transport(req).value.status, "").None?
    ensures a.Outcome(req) == Err(NetworkError("HTTP request failed: " + EmptyResponse))
  {
  }

  /** The exception a request raises inside the guard, if it raises one:
      sending it, checking the status, or reading the result. */
  function RaisedBy(a: Adapter, req: Request): Option<Raised>
  {
    var response := a.transport(req);
    if response.Err? then Some(response.error)
    else
      var check := a.checkResponse(response.value.status, response.value.content);
      if check.Some? then check
      else if response.value.content == "" then Some(OtherRaised(EmptyResponse))
      else
        var result := a.readResult(response.value.content);
        if result.Err? then Some(result.error) else None
  }

  /** The adapter's own exceptions reach the caller unchanged, whichever step
      raised them. */
  lemma AdapterExceptionsPassThrough(a: Adapter, req: Request, e: AdapterException)
    requires RaisedBy(a, req) == Some(AdapterRaised(e))
    ensures a.Outcome(req) == Err(e)
  {
  }

  /** Every other exception reaches the caller as a `NetworkError` naming it. */
  lemma OtherFailuresAreNetworkErrors(a: Adapter, req: Request, repr: string)
    requires RaisedBy(a, req) == Some(OtherRaised(repr))
    ensures a.Outcome(req) == Err(NetworkError("HTTP request failed: " + repr))
  {
  }

  /** A request that raises nothing returns what `handle_api_result` gave. */
  lemma UnraisedRequestSucceeds(a: Adapter, req: Request)
    requires RaisedBy(a, req).None?
    ensures a.Outcome(req) == Ok(a.readResult(a.transport(req).value.content).value)
  {
  }

  // ---------------------------------------------------------------------------
  // ws_connect: what it does with a stream of frames

  /** The events the read loop dispatched so far, and whether it has stopped. */
  datatype Reading = Reading(events: seq<Event>, stopped: bool)

  /** The read loop over the frames: events for which `json_to_event` gives
      `None` are skipped; an unreadable frame or a raising `json_to_event`
      stops the loop, and nothing after it is read. */
  function Read(frames: seq<Frame>): Reading
  {
    if frames == [] then Reading([], false)
    else
      var before := Read(frames[..|frames| - 1]);
      if before.stopped then before
      else ReadOne(before, frames[|frames| - 1])
  }

  /** The read loop on one more frame. */
  function ReadOne(before: Reading, frame: Frame): Reading
  {
    match frame
    case Unreadable(_) => Reading(before.events, true)
    case Json(v) =>
      var e := JsonToEvent(StandardClasses(), v);
      if e.Err? then Reading(before.events, true)
      else if e.value.None? then before
      else Reading(before.events + [e.value.value], false)
  }

  /** The bot id of the first event, if there is one. */
  function FirstKey(events: seq<Event>): Option<string>
  {
    if events == [] then None else Some(IntStr(events[0].selfId))
  }

  /** The bot a socket binds: the `self_id` of the first event read from it. */
  function BoundKey(frames: seq<Frame>): Option<string>
  {
    FirstKey(Read(frames).events)
  }

  /** Events handed to the bound bot. */
  function Tagged(bound: Option<string>, events: seq<Event>): (ds: seq<Dispatch>)
    requires bound.None? ==> events == []
    ensures |ds| == |events|
    ensures forall i | 0 <= i < |ds| :: ds[i] == Dispatch(bound.value, events[i])
  {
    seq(|events|, i requires 0 <= i < |events| => Dispatch(bound.value, events[i]))
  }

  lemma TaggedSnoc(bound: Option<string>, events: seq<Event>, e: Event)
    requires bound.Some?
    ensures Tagged(bound, events + [e]) == Tagged(bound, events) + [Dispatch(bound.value, e)]
  {
  }

  /** What one open socket dispatches. */
  function SessionLog(frames: seq<Frame>): seq<Dispatch>
  {
    Tagged(BoundKey(frames), Read(frames).events)
  }

  /** What one pass dispatches. */
  function AttemptLog(a: Attempt): seq<Dispatch>
  {
    if a.Opened? then SessionLog(a.frames) else []
  }

  /** The bot id one pass bound and unbound, if any. */
  function AttemptUnbound(a: Attempt): set<string>
  {
    if a.Opened? && BoundKey(a.frames).Some? then {BoundKey(a.frames).value} else {}
  }

  /** What one pass sleeps. */
  function AttemptSleeps(a: Attempt): seq<real>
  {
    if a.SetupFailed? then [ReconnectInterval] else []
  }

  /** What the passes dispatch, in order. */
  function Log(attempts: seq<Attempt>): seq<Dispatch>
  {
    if attempts == [] then [] else Log(attempts[..|attempts| - 1]) + AttemptLog(attempts[|attempts| - 1])
  }

  /** The bot ids the passes bound; each was unbound when its socket closed. */
  function Unbound(attempts: seq<Attempt>): set<string>
  {
    if attempts == [] then {} else Unbound(attempts[..|attempts| - 1]) + AttemptUnbound(attempts[|attempts| - 1])
  }

  /** The delays slept: one per failed setup. */
  function Sleeps(attempts: seq<Attempt>): seq<real>
  {
    if attempts == [] then [] else Sleeps(attempts[..|attempts| - 1]) + AttemptSleeps(attempts[|attempts| - 1])
  }

  /** The number of passes whose setup failed. */
  function SetupFailures(attempts: seq<Attempt>): nat
  {
    if attempts == [] then 0
    else SetupFailures(attempts[..|attempts| - 1]) + if attempts[|attempts| - 1].SetupFailed? then 1 else 0
  }

  /** What the first `k + 1` passes did: the first `k`, then pass `k`. */
  lemma PassesStep(attempts: seq<Attempt>, k: nat)
    requires k < |attempts|
    ensures Unbound(attempts[..k + 1]) == Unbound(attempts[..k]) + AttemptUnbound(attempts[k])
    ensures Log(attempts[..k + 1]) == Log(attempts[..k]) + AttemptLog(attempts[k])
    ensures Sleeps(attempts[..k + 1]) == Sleeps(attempts[..k]) + AttemptSleeps(attempts[k])
  {
    assert attempts[..k + 1][..k] == attempts[..k];
  }

  lemma UnbindInTurn(m: map<string, nat>, u: set<string>, v: set<string>)
    ensures (m - u) - v == m - (u + v)
  {
  }

  lemma RemoveInTurn<T>(a: set<T>, u: set<T>, v: set<T>)
    ensures (a - u) - v == a - (u + v)
  {
  }

  // ---------------------------------------------------------------------------
  // ws_connect: properties

  /** Once the read loop has stopped, later frames change nothing. */
  lemma {:induction false} StoppedReadingStays(a: seq<Frame>, b: seq<Frame>)
    requires Read(a).stopped
    ensures Read(a + b) == Read(a)
    decreases |b|
  {
    if b != [] {
      assert (a + b)[..|a + b| - 1] == a + b[..|b| - 1];
      StoppedReadingStays(a, b[..|b| - 1]);
    } else {
      assert a + b == a;
    }
  }

  /** A frame that is not a JSON object gives no event and the loop reads on. */
  lemma NonObjectFrameSkipped(frames: seq<Frame>, v: Value)
    requires !v.Object? && !Read(frames).stopped
    ensures Read(frames + [Json(v)]) == Read(frames)
  {
    assert (frames + [Json(v)])[..|frames|] == frames;
  }

  /** An object without `event_type` raises outside the guard in
      `json_to_event` and ends the socket's read loop. */
  lemma UntaggedFrameEndsSession(frames: seq<Frame>, v: Value, rest: seq<Frame>)
    requires v.Object? && "event_type" !in v.fields
    ensures Read(frames + [Json(v)] + rest).events == Read(frames).events
  {
    var a := frames + [Json(v)];
    assert a[..|frames|] == frames;
    if !Read(frames).stopped {
      assert Read(a) == Reading(Read(frames).events, true);
    }
    StoppedReadingStays(a, rest);
  }

  /** Every event a socket yields goes to the bot its first event named, even
      one carrying another `self_id`. */
  lemma SessionDispatchesToFirstBot(frames: seq<Frame>)
    ensures var ds := SessionLog(frames);
      |ds| == |Read(frames).events|
      && forall i | 0 <= i < |ds| :: ds[i].event == Read(frames).events[i]
                                    && ds[i].bot == IntStr(Read(frames).events[0].selfId)
  {
  }

  /** Only failed setups sleep, each for `RECONNECT_INTERVAL` seconds. */
  lemma {:induction false} OnlySetupFailuresSleep(attempts: seq<Attempt>)
    ensures |Sleeps(attempts)| == SetupFailures(attempts)
    ensures forall i | 0 <= i < |Sleeps(attempts)| :: Sleeps(attempts)[i] == ReconnectInterval
  {
    if attempts != [] {
      OnlySetupFailuresSleep(attempts[..|attempts| - 1]);
    }
  }
}
