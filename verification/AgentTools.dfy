/** The agent's tools: requests to the internal services, and what is reported of them
    (AIAgent/internal/tools/internal_client.go). */
module AgentTools {
  import opened Prelude
  import opened Text

  datatype ExecuteContext = ExecuteContext(shortUrl: string, longUrl: string, expireAt: string, startDate: string, endDate: string)

  /** The content of an ExecuteRequest. */
  datatype Request = Request(
    requestId: string,
    operatorId: string,
    tenantId: string,
    idempotencyKey: string,
    query: string,
    context: ExecuteContext)

  /** The request that a caller owns; tools work on it directly or on a copy. */
  class ExecuteRequest {
    const requestId: string
    const operatorId: string
    const tenantId: string
    const idempotencyKey: string
    const query: string
    var context: ExecuteContext

    ghost function Value(): Request
      reads this
    {
      Request(requestId, operatorId, tenantId, idempotencyKey, query, context)
    }

    constructor (requestId: string, operatorId: string, tenantId: string, idempotencyKey: string, query: string,
                 context: ExecuteContext)
      ensures Value() == Request(requestId, operatorId, tenantId, idempotencyKey, query, context)
    {
      this.requestId, this.operatorId, this.tenantId := requestId, operatorId, tenantId;
      this.idempotencyKey, this.query, this.context := idempotencyKey, query, context;
    }
  }

  /** What goes over the wire.  A field that is not sent is None. */
  datatype HttpCall =
    | Post(who: Identity, longUrl: string)
    | Patch(who: Identity, idempotencyKey: string, shortCode: string, newUrl: Option<string>, expireAt: Option<string>)
    | Get(shortCode: string, startDate: string, endDate: string)

  datatype Identity = Identity(requestId: string, operatorId: string, tenantId: string)

  datatype HttpReply = NoReply(error: string) | Reply(status: nat, body: string)

  datatype CallStatus = Good | Failed | Blocked | Unsupported

  datatype ToolCall = ToolCall(tool: string, input: string, output: string, status: CallStatus, error: string)

  /** The outside world: the reply to the n-th request sent, which requests can be built at all, and the text functions
      of the libraries beyond Text. */
  datatype World = World(
    reply: nat -> HttpReply,
    builds: HttpCall -> bool,
    encode: HttpCall -> string,
    errorText: (nat, string) -> string,
    isDate: string -> bool,
    decode: string -> map<string, Argument>)

  /** A decoded JSON value: only strings matter. */
  datatype Argument = Words(text: string) | OtherValue

  /** The context of one Execute: done from a certain moment on.  The moments are the points of an Execute at which a
      done context is noticed, in the order in which they come. */
  datatype Context = Context(deadline: nat)
  {
    predicate Done(moment: nat) {
      moment >= deadline
    }
  }

  /** One step of a plan: send a request and report on it, or just report. */
  datatype Action = Send(tool: string, call: HttpCall) | Tell(report: ToolCall)

  /** What an action sends: nothing if its request cannot be built or the context is done. */
  function Requests(world: World, done: bool, action: Action): seq<HttpCall> {
    if action.Send? && world.builds(action.call) && !done then [action.call] else []
  }

  /** What comes of an action whose request, if any, is the n-th. */
  function Perform(world: World, done: bool, n: nat, action: Action): ToolCall {
    match action
    case Tell(report) => report
    case Send(tool, call) =>
      if !world.builds(call) then ToolCall(tool, world.encode(call), "", Failed, "request not built")
      else if done then ToolCall(tool, world.encode(call), "", Failed, "context done")
      else
        match world.reply(n)
        case NoReply(error) => ToolCall(tool, world.encode(call), "", Failed, error)
        case Reply(status, body) =>
          if status >= 400 then ToolCall(tool, world.encode(call), body, Failed, world.errorText(status, body))
          else ToolCall(tool, world.encode(call), body, Good, "")
  }

  /** What is sent by actions one after another, the first of them at moment t. */
  function Requested(world: World, ctx: Context, t: nat, actions: seq<Action>): seq<HttpCall> {
    if actions == [] then []
    else
      var k := |actions| - 1;
      Requested(world, ctx, t, actions[..k]) + Requests(world, ctx.Done(t + k), actions[k])
  }

  /** What is reported of them; each is told how many requests went before it. */
  function Reported(world: World, ctx: Context, t: nat, n: nat, actions: seq<Action>): seq<ToolCall> {
    if actions == [] then []
    else
      var k := |actions| - 1;
      Reported(world, ctx, t, n, actions[..k])
      + [Perform(world, ctx.Done(t + k), n + |Requested(world, ctx, t, actions[..k])|, actions[k])]
  }

  lemma SentOneMore(world: World, ctx: Context, t: nat, m: nat,
                    start: seq<HttpCall>, before: seq<HttpCall>, after: seq<HttpCall>, actions: seq<Action>, action: Action)
    requires m == t + |actions|
    requires before == start + Requested(world, ctx, t, actions) && after == before + Requests(world, ctx.Done(m), action)
    ensures after == start + Requested(world, ctx, t, actions + [action])
  {
    assert (actions + [action])[..|actions|] == actions;
  }

  lemma ReportedOneMore(world: World, ctx: Context, t: nat, m: nat, n: nat, l: nat,
                        calls: seq<ToolCall>, call: ToolCall, actions: seq<Action>, action: Action)
    requires m == t + |actions| && l == n + |Requested(world, ctx, t, actions)|
    requires calls == Reported(world, ctx, t, n, actions) && call == Perform(world, ctx.Done(m), l, action)
    ensures calls + [call] == Reported(world, ctx, t, n, actions + [action])
  {
    assert (actions + [action])[..|actions|] == actions;
  }

  /** A failed attempt that sends nothing. */
  function Complain(tool: string, input: string, status: CallStatus, error: string): Action {
    Tell(ToolCall(tool, input, "", status, error))
  }

  function Given(text: string): Option<string> {
    if Blank(text) then None else Some(text)
  }

  function CreateAction(req: Request): Action {
    Send("shortener.create", Post(Identity(req.requestId, req.operatorId, req.tenantId), req.context.longUrl))
  }

  function UpdateAction(world: World, req: Request): Action {
    var c := req.context;
    if Blank(c.shortUrl) then Complain("shortener.update", req.query, Failed, "shortCode is required")
    else
      Send("shortener.update",
           Patch(Identity(req.requestId, req.operatorId, req.tenantId), req.idempotencyKey,
                 TrimSpace(c.shortUrl), Given(c.longUrl), Given(c.expireAt)))
  }

  function QueryAction(world: World, req: Request): Action {
    var c := req.context;
    if Blank(c.shortUrl) then Complain("traffic.summary", req.query, Failed, "shortCode is required for traffic query")
    else if Blank(c.startDate) || Blank(c.endDate) then
      Complain("traffic.summary", req.query, Failed, "from and to are required for traffic query")
    else if !world.isDate(TrimSpace(c.startDate)) then Complain("traffic.summary", req.query, Failed, "invalid from format")
    else if !world.isDate(TrimSpace(c.endDate)) then Complain("traffic.summary", req.query, Failed, "invalid to format")
    else Send("traffic.summary", Get(TrimSpace(c.shortUrl), TrimSpace(c.startDate), TrimSpace(c.endDate)))
  }

  class InternalClient {
    const world: World
    /** Every request that was sent, in order. */
    var sent: seq<HttpCall>

    constructor (world: World)
      ensures this.world == world && sent == []
    {
      this.world := world;
      sent := [];
    }

    /** This action was taken, and this reported of it. */
    ghost predicate DidOne(before: seq<HttpCall>, done: bool, call: ToolCall, action: Action)
      reads this
    {
      sent == before + Requests(world, done, action) && call == Perform(world, done, |before|, action)
    }

    /** These were, in this order, from moment t on. */
    ghost predicate Did(before: seq<HttpCall>, ctx: Context, t: nat, calls: seq<ToolCall>, actions: seq<Action>)
      reads this
    {
      && sent == before + Requested(world, ctx, t, actions)
      && calls == Reported(world, ctx, t, |before|, actions)
    }

    lemma DidOneMore(start: seq<HttpCall>, before: seq<HttpCall>, ctx: Context, t: nat, m: nat,
                     calls: seq<ToolCall>, call: ToolCall, actions: seq<Action>, action: Action)
      requires m == t + |actions|
      requires before == start + Requested(world, ctx, t, actions) && calls == Reported(world, ctx, t, |start|, actions)
      requires DidOne(before, ctx.Done(m), call, action)
      ensures Did(start, ctx, t, calls + [call], actions + [action])
    {
      SentOneMore(world, ctx, t, m, start, before, sent, actions, action);
      ReportedOneMore(world, ctx, t, m, |start|, |before|, calls, call, actions, action);
    }

    /** The first action. */
    lemma DidFirst(start: seq<HttpCall>, ctx: Context, t: nat, call: ToolCall, action: Action)
      requires DidOne(start, ctx.Done(t), call, action)
      ensures Did(start, ctx, t, [call], [action])
    {
      assert start + Requested(world, ctx, t, []) == start;
      DidOneMore(start, start, ctx, t, t, [], call, [], action);
      assert [] + [call] == [call] && [] + [action] == [action];
    }

    method CreateShortLink(done: bool, req: ExecuteRequest) returns (call: ToolCall)
      modifies this
      ensures DidOne(old(sent), done, call, CreateAction(req.Value()))
    {
      call := DoJSON(done, "shortener.create", Post(Identity(req.requestId, req.operatorId, req.tenantId), req.context.longUrl));
    }

    method UpdateShortLink(done: bool, req: ExecuteRequest) returns (call: ToolCall)
      modifies this
      ensures DidOne(old(sent), done, call, UpdateAction(world, req.Value()))
    {
      var shortCode := TrimSpace(req.context.shortUrl);
      if shortCode == "" {
        return ToolCall("shortener.update", req.query, "", Failed, "shortCode is required");
      }
      var longUrl, expireAt := None, None;
      if TrimSpace(req.context.longUrl) != "" {
        longUrl := Some(req.context.longUrl);
      }
      if TrimSpace(req.context.expireAt) != "" {
        expireAt := Some(req.context.expireAt);
      }
      call := DoJSON(done, "shortener.update",
                     Patch(Identity(req.requestId, req.operatorId, req.tenantId), req.idempotencyKey, shortCode, longUrl, expireAt));
    }

    method QueryTrafficSummary(done: bool, req: ExecuteRequest) returns (call: ToolCall)
      modifies this
      ensures DidOne(old(sent), done, call, QueryAction(world, req.Value()))
    {
      var shortCode := TrimSpace(req.context.shortUrl);
      if shortCode == "" {
        return ToolCall("traffic.summary", req.query, "", Failed, "shortCode is required for traffic query");
      }
      var startDate, endDate := TrimSpace(req.context.startDate), TrimSpace(req.context.endDate);
      if startDate == "" || endDate == "" {
        return ToolCall("traffic.summary", req.query, "", Failed, "from and to are required for traffic query");
      }
      if !world.isDate(startDate) {
        return ToolCall("traffic.summary", req.query, "", Failed, "invalid from format");
      }
      if !world.isDate(endDate) {
        return ToolCall("traffic.summary", req.query, "", Failed, "invalid to format");
      }
      call := DoJSON(done, "traffic.summary", Get(shortCode, startDate, endDate));
    }

    /** doJSON and getJSON: build the request, send it, read the reply.  `done` is the state of the context. */
    method DoJSON(done: bool, tool: string, request: HttpCall) returns (call: ToolCall)
      modifies this
      ensures DidOne(old(sent), done, call, Send(tool, request))
    {
      if !world.builds(request) {
        return ToolCall(tool, world.encode(request), "", Failed, "request not built");
      }
      if done {
        return ToolCall(tool, world.encode(request), "", Failed, "context done");
      }
      var resp := world.reply(|sent|);
      sent := sent + [request];
      match resp {
        case NoReply(error) =>
          return ToolCall(tool, world.encode(request), "", Failed, error);
        case Reply(code, body) =>
          var status, errMsg := Good, "";
          if code >= 400 {
            status, errMsg := Failed, world.errorText(code, body);
          }
          return ToolCall(tool, world.encode(request), body, status, errMsg);
      }
    }
  }
}
