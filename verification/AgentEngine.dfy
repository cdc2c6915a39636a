/** Executing a request: the workflow of model calls and tools, and the rule engine behind it
    (AIAgent/internal/agent/eino_engine.go and engine.go).  The model is an oracle. */
module AgentEngine {
  import opened Prelude
  import opened Text
  import opened AgentTools

  datatype Settings = Settings(allowWriteActions: bool, fallbackToRule: bool, enableVerifier: bool, maxSteps: int)

  /** The function that the model wants called, by name; only three names exist. */
  datatype Tool = CreateShortlink | UpdateShortlink | QueryTraffic | NoSuchTool(name: string)

  datatype ToolRequest = ToolRequest(tool: Tool, arguments: string)

  datatype Planner = Planner(intent: string, steps: seq<string>)

  /** Everything the model, the workflow library and the clock decide during one Execute.  None is an error.
      `ctx` says when the context is done.  The runner looks at it before the nodes in `looks` (4: before handing
      over the result). */
  datatype Oracle = Oracle(
    modelBuilds: bool,
    compiles: bool,
    ctx: Context,
    looks: set<nat>,
    intent: Option<string>,
    planner: Option<Planner>,
    intentForTools: Option<string>,
    binds: bool,
    toolReply: Option<seq<ToolRequest>>,
    verified: Option<string>,
    intentAtEnd: Option<string>,
    intentForRules: Option<string>)

  // The moments of one Execute; m is the number of actions that the tool node takes.
  const INTENT := 1
  const PLANNER := 3
  const AGAIN := 5
  const TOOLS := 6
  const ACTIONS := 7

  /** When the runner is about to run node k, or, for 4, to hand over the result. */
  function LookAt(k: nat, m: nat): nat {
    if k <= 2 then 2 * k else if k == 3 then 7 + m else 9 + m
  }

  function Verifying(m: nat): nat {
    8 + m
  }

  function Reporting(m: nat): nat {
    10 + m
  }

  function FallingBack(m: nat): nat {
    11 + m
  }

  /** What a model call at this moment returns: with the context done, an error. */
  function Hears<T>(ctx: Context, moment: nat, reply: Option<T>): Option<T> {
    if ctx.Done(moment) then None else reply
  }

  /** The runner fails instead of running node k: the step limit is used up, or it finds the context done. */
  predicate Stops(settings: Settings, o: Oracle, k: nat, m: nat) {
    (k < 4 && 0 < settings.maxSteps <= k) || (k in o.looks && o.ctx.Done(LookAt(k, m)))
  }

  datatype Answer = NothingDone | Counted(intent: string, ok: nat, fail: nat) | Verified(text: string)

  datatype TaskStatus = NoOp | PartialFailed | Succeeded

  datatype ExecuteResult = ExecuteResult(intent: Intent, plan: seq<string>, calls: seq<ToolCall>, answer: Answer, status: TaskStatus)

  // ---------------------------------------------------------------- intents and plans

  datatype Intent = Create | Update | Query | UpdateAndQuery | Unknown

  function Name(intent: Intent): string {
    match intent
    case Create => "create_shortlink"
    case Update => "update_shortlink"
    case Query => "query_traffic"
    case UpdateAndQuery => "update_and_query"
    case Unknown => "unknown"
  }

  /** normalizeIntent: one of the known intents, whatever the model wrote. */
  function NormalizeIntent(text: string): Intent {
    var name := TrimSpace(LowerCase(text));
    if name == Name(Create) then Create
    else if name == Name(Update) then Update
    else if name == Name(Query) then Query
    else if name == Name(UpdateAndQuery) then UpdateAndQuery
    else Unknown
  }

  /** Normalizing again changes nothing. */
  lemma NormalizeName(intent: Intent)
    ensures NormalizeIntent(Name(intent)) == intent && !Blank(Name(intent)) && TrimSpace(Name(intent)) == Name(intent)
  {
    var name := Name(intent);
    assert LowerCase(name) == name;
    assert !IsSpace(name[0]) && !IsSpace(name[|name| - 1]);
    assert TrimLeft(name) == name && TrimRight(name) == name;
  }

  function BuildPlan(intent: Intent): seq<string> {
    match intent
    case Create => ["intent analyze", "plan create", "call shortener.create", "verify result"]
    case Update => ["intent analyze", "plan update", "call shortener.update", "verify result"]
    case Query => ["intent analyze", "plan query", "call traffic.summary", "verify result"]
    case UpdateAndQuery => ["intent analyze", "plan update+query", "call shortener.update", "call traffic.summary", "verify result"]
    case Unknown => ["intent analyze", "unsupported fallback"]
  }

  /** The model's steps without blank ones, or else the given plan. */
  method NonEmptySteps(steps: seq<string>, fallback: seq<string>) returns (res: seq<string>)
    ensures res == if Trimmed(steps) == [] then fallback else Trimmed(steps)
  {
    if |steps| == 0 {
      return fallback;
    }
    res := [];
    for i := 0 to |steps|
      invariant res == Trimmed(steps[..i])
    {
      var t := TrimSpace(steps[i]);
      assert steps[..i + 1][..i] == steps[..i];
      if t != "" {
        res := res + [t];
      }
    }
    assert steps[..|steps|] == steps;
    if |res| == 0 {
      return fallback;
    }
  }

  function Trimmed(steps: seq<string>): seq<string> {
    if steps == [] then []
    else Trimmed(steps[..|steps| - 1]) + if Blank(steps[|steps| - 1]) then [] else [TrimSpace(steps[|steps| - 1])]
  }

  // ---------------------------------------------------------------- summing up

  function GoodCalls(calls: seq<ToolCall>): (n: nat)
    ensures n <= |calls|
  {
    if calls == [] then 0 else GoodCalls(calls[..|calls| - 1]) + if calls[|calls| - 1].status == Good then 1 else 0
  }

  function AnswerOf(intent: string, calls: seq<ToolCall>): Answer {
    if calls == [] then NothingDone else Counted(intent, GoodCalls(calls), |calls| - GoodCalls(calls))
  }

  method Summarize(intent: string, calls: seq<ToolCall>) returns (answer: Answer)
    ensures answer == AnswerOf(intent, calls)
  {
    if |calls| == 0 {
      return NothingDone;
    }
    var ok, fail := 0, 0;
    for i := 0 to |calls|
      invariant ok == GoodCalls(calls[..i]) && ok + fail == i
    {
      assert calls[..i + 1][..i] == calls[..i];
      if calls[i].status == Good {
        ok := ok + 1;
      } else {
        fail := fail + 1;
      }
    }
    assert calls[..|calls|] == calls;
    return Counted(intent, ok, fail);
  }

  /** "succeeded" exactly when there were calls and all went well. */
  method FinalStatus(calls: seq<ToolCall>) returns (status: TaskStatus)
    ensures status == StatusOf(calls)
  {
    if |calls| == 0 {
      return NoOp;
    }
    for i := 0 to |calls|
      invariant forall k | 0 <= k < i :: calls[k].status == Good
    {
      if calls[i].status != Good {
        return PartialFailed;
      }
    }
    return Succeeded;
  }

  function StatusOf(calls: seq<ToolCall>): TaskStatus {
    if calls == [] then NoOp
    else if forall k | 0 <= k < |calls| :: calls[k].status == Good then Succeeded
    else PartialFailed
  }

  // ---------------------------------------------------------------- what the paths do, as functions

  function BlockedUpdate(input: string): Action {
    Complain("shortener.update", input, Blocked, "write actions disabled")
  }

  function UpdateIfAllowed(world: World, allow: bool, req: Request): Action {
    if allow then UpdateAction(world, req) else BlockedUpdate(req.query)
  }

  /** The local plan for an intent, which the rule engine follows too. */
  function Planned(world: World, allow: bool, intent: Intent, req: Request): seq<Action> {
    match intent
    case Create => [CreateAction(req)]
    case Update => [UpdateIfAllowed(world, allow, req)]
    case Query => [QueryAction(world, req)]
    case UpdateAndQuery => [UpdateIfAllowed(world, allow, req), QueryAction(world, req)]
    case Unknown => [Complain("intent.fallback", req.query, Unsupported, "unsupported intent")]
  }

  /** A string argument that is not blank, or what was there before. */
  function Override(args: map<string, Argument>, name: string, original: string): string {
    if name in args && args[name].Words? && !Blank(args[name].text) then args[name].text else original
  }

  /** The request as a tool sees it: its own arguments over the caller's context. */
  function SeenBy(world: World, req: Request, tc: ToolRequest): Request {
    var args, c := world.decode(tc.arguments), req.context;
    req.(context := match tc.tool
      case CreateShortlink => c.(longUrl := Override(args, "longUrl", c.longUrl))
      case UpdateShortlink =>
        c.(shortUrl := Override(args, "shortCode", c.shortUrl),
           longUrl := Override(args, "longUrl", c.longUrl),
           expireAt := Override(args, "expireAt", c.expireAt))
      case QueryTraffic =>
        c.(shortUrl := Override(args, "shortCode", c.shortUrl),
           startDate := Override(args, "from", c.startDate),
           endDate := Override(args, "to", c.endDate))
      case NoSuchTool(_) => c)
  }

  function Dispatched(world: World, allow: bool, req: Request, tc: ToolRequest): Action {
    match tc.tool
    case CreateShortlink => CreateAction(SeenBy(world, req, tc))
    case UpdateShortlink => if allow then UpdateAction(world, SeenBy(world, req, tc)) else BlockedUpdate(tc.arguments)
    case QueryTraffic => QueryAction(world, SeenBy(world, req, tc))
    case NoSuchTool(name) => Complain(name, tc.arguments, Unsupported, "unsupported tool")
  }

  /** The model's list: every call on the original request. */
  function AllDispatched(world: World, allow: bool, req: Request, tcs: seq<ToolRequest>): seq<Action> {
    seq(|tcs|, i requires 0 <= i < |tcs| => Dispatched(world, allow, req, tcs[i]))
  }

  lemma DispatchedNext(world: World, allow: bool, req: Request, tcs: seq<ToolRequest>, actions: seq<Action>, i: nat)
    requires i < |tcs| && actions == AllDispatched(world, allow, req, tcs)
    ensures |actions| == |tcs| && actions[i] == Dispatched(world, allow, req, tcs[i])
    ensures |actions[..i]| == i && actions[..i] + [actions[i]] == actions[..i + 1]
  {
  }

  lemma {:induction false} ReportPerAction(world: World, ctx: Context, t: nat, n: nat, actions: seq<Action>)
    ensures |Reported(world, ctx, t, n, actions)| == |actions|
  {
    if actions != [] {
      ReportPerAction(world, ctx, t, n, actions[..|actions| - 1]);
    }
  }

  /** validateExecuteRequest */
  predicate Complete(req: Request) {
    !Blank(req.requestId) && !Blank(req.operatorId) && !Blank(req.tenantId) && !Blank(req.query)
  }

  /** The intent that the rule engine hears at moment t. */
  function RuleIntent(o: Oracle, t: nat): Option<Intent> {
    match Hears(o.ctx, t, o.intentForRules)
    case None => None
    case Some(text) => Some(NormalizeIntent(text))
  }

  /** The rule engine: the model names the intent, the local plan does the rest. */
  function Ruled(world: World, allow: bool, o: Oracle, t: nat, req: Request): seq<Action> {
    match RuleIntent(o, t)
    case None => [Complain("intent.llm", req.query, Failed, "intent inference failed")]
    case Some(intent) => Planned(world, allow, intent, req)
  }

  /** The planner's intent, which is the intent node's if the planner gave none. */
  function PlannerIntent(intent: Intent, planner: Planner): string {
    if Blank(planner.intent) then Name(intent) else planner.intent
  }

  /** The intent that a node works with: the planner's, or what the model says when asked once more. */
  function SettledIntent(planner: string, again: Option<string>): Intent {
    var first := NormalizeIntent(TrimSpace(planner));
    if first == Unknown && again.Some? then NormalizeIntent(again.value) else first
  }

  /** The tool node: the model's list, or the local plan when the list is empty.  Its errors all come before any tool. */
  function ToolActions(world: World, allow: bool, o: Oracle, planner: string, req: Request): Option<seq<Action>> {
    if !o.binds then None
    else
      match Hears(o.ctx, TOOLS, o.toolReply)
      case None => None
      case Some(tcs) =>
        if tcs == [] then Some(Planned(world, allow, SettledIntent(planner, Hears(o.ctx, AGAIN, o.intentForTools)), req))
        else Some(AllDispatched(world, allow, req, tcs))
  }

  /** The planner's intent after the first two nodes, if they are run and succeed. */
  function PlannedIntent(settings: Settings, o: Oracle): Option<string> {
    var intent, planner := Hears(o.ctx, INTENT, o.intent), Hears(o.ctx, PLANNER, o.planner);
    if !o.compiles || Stops(settings, o, 0, 0) || intent.None? || Stops(settings, o, 1, 0) || planner.None? then None
    else Some(PlannerIntent(NormalizeIntent(intent.value), planner.value))
  }

  /** What the tool node of a workflow does, if it is reached and succeeds. */
  function Tools(world: World, settings: Settings, o: Oracle, req: Request): Option<seq<Action>> {
    var planner := PlannedIntent(settings, o);
    if planner.None? || Stops(settings, o, 2, 0) then None
    else ToolActions(world, settings.allowWriteActions, o, planner.value, req)
  }

  /** The whole workflow hands over a result. */
  predicate WorkflowSucceeds(world: World, settings: Settings, o: Oracle, req: Request) {
    var did := Tools(world, settings, o, req);
    did.Some? && !Stops(settings, o, 3, |did.value|) && !Stops(settings, o, 4, |did.value|)
  }

  /** The verifier's words, if it is asked and has any; m is the number of calls. */
  function Spoken(settings: Settings, o: Oracle, m: nat): Option<string> {
    var verified := Hears(o.ctx, Verifying(m), o.verified);
    if settings.enableVerifier && verified.Some? && !Blank(verified.value) then Some(TrimSpace(verified.value)) else None
  }

  /** The verifier's words if there are any, else the count of good and failed calls. */
  function AnswerGiven(spoken: Option<string>, intent: string, calls: seq<ToolCall>): Answer {
    if spoken.Some? then Verified(spoken.value) else AnswerOf(intent, calls)
  }

  /** What one Execute does: the actions of its workflow, then those of the rule engine, of which only the
      last group is reported, if there is a result at all; when that group begins; its intent and plan; and, for the
      answer, the intent's text and the verifier's words. */
  datatype Execution = Execution(
    rejected: bool,
    finished: bool,
    unreported: seq<Action>,
    start: nat,
    reported: seq<Action>,
    intent: Intent,
    plan: seq<string>,
    named: string,
    spoken: Option<string>)

  /** Execute: the workflow; and the rule engine if the workflow failed and falling back is configured. */
  function Executed(world: World, settings: Settings, o: Oracle, req: Request): Execution {
    if !Complete(req) then Execution(true, false, [], 0, [], Unknown, [], "", None)
    else if !o.modelBuilds then FallenBack(world, settings, o, req, [])
    else
      var did := Tools(world, settings, o, req);
      if WorkflowSucceeds(world, settings, o, req) then Completed(settings, o, did.value)
      else FallenBack(world, settings, o, req, if did.Some? then did.value else [])
  }

  /** The workflow's own result: the planner's intent, asked for once more if unknown, and the planner's steps. */
  function Completed(settings: Settings, o: Oracle, did: seq<Action>): Execution {
    var planner := PlannedIntent(settings, o);
    var intent := SettledIntent(if planner.Some? then planner.value else "", Hears(o.ctx, Reporting(|did|), o.intentAtEnd));
    var steps := Trimmed(if o.planner.Some? then o.planner.value.steps else []);
    Execution(false, true, [], ACTIONS, did, intent, if steps == [] then BuildPlan(intent) else steps,
              if planner.Some? then planner.value else "", Spoken(settings, o, |did|))
  }

  /** The rule engine's, after the workflow has already taken some actions. */
  function FallenBack(world: World, settings: Settings, o: Oracle, req: Request, before: seq<Action>): Execution {
    var t := FallingBack(|before|);
    var intent := if RuleIntent(o, t).Some? then RuleIntent(o, t).value else Unknown;
    if settings.fallbackToRule then
      Execution(false, true, before, t + 1, Ruled(world, settings.allowWriteActions, o, t, req), intent, BuildPlan(intent), Name(intent), None)
    else Execution(false, false, before, t + 1, [], Unknown, [], "", None)
  }

  datatype Response = Rejected | Broken | Finished(result: ExecuteResult)

  /** Plan, answer and status of a result agree with its calls. */
  ghost predicate ResultFits(result: ExecuteResult) {
    && result.status == StatusOf(result.calls)
    && AnswerFits(result.answer, result.calls)
    && result.plan != [] && (forall k | 0 <= k < |result.plan| :: result.plan[k] != "")
  }

  ghost predicate AnswerFits(answer: Answer, calls: seq<ToolCall>) {
    match answer
    case Verified(_) => true
    case NothingDone => calls == []
    case Counted(_, ok, fail) => calls != [] && ok == GoodCalls(calls) && ok + fail == |calls|
  }

  lemma PlansAreClean(steps: seq<string>, intent: Intent)
    ensures forall k | 0 <= k < |Trimmed(steps)| :: Trimmed(steps)[k] != ""
    ensures BuildPlan(intent) != [] && forall k | 0 <= k < |BuildPlan(intent)| :: BuildPlan(intent)[k] != ""
  {
  }

  /** The state that the nodes pass on and fill in. */
  class DagState {
    const req: ExecuteRequest
    var intent: string
    var planner: Planner
    var calls: seq<ToolCall>
    var answer: Answer

    constructor (req: ExecuteRequest)
      ensures this.req == req && intent == "" && planner == Planner("", []) && calls == [] && answer == NothingDone
    {
      this.req := req;
      intent, planner, calls, answer := "", Planner("", []), [], NothingDone;
    }
  }

  class RuleEngine {
    const settings: Settings
    const tools: InternalClient

    constructor (settings: Settings, tools: InternalClient)
      ensures this.settings == settings && this.tools == tools
    {
      this.settings, this.tools := settings, tools;
    }

    /** Execute, beginning at moment t: the calls are the plan's for the inferred intent, or one failed "intent.llm". */
    method Execute(req: ExecuteRequest, o: Oracle, t: nat) returns (r: Response)
      modifies tools
      ensures !Complete(req.Value()) ==> r.Rejected? && tools.sent == old(tools.sent)
      ensures Complete(req.Value()) ==>
        && r.Finished?
        && tools.Did(old(tools.sent), o.ctx, t + 1, r.result.calls, Ruled(tools.world, settings.allowWriteActions, o, t, req.Value()))
        && r.result.intent == (if RuleIntent(o, t).Some? then RuleIntent(o, t).value else Unknown)
        && r.result.plan == BuildPlan(r.result.intent)
        && r.result.answer == AnswerOf(Name(r.result.intent), r.result.calls)
        && ResultFits(r.result)
    {
      if Blank(req.requestId) || Blank(req.operatorId) || Blank(req.tenantId) || Blank(req.query) {
        return Rejected;
      }
      var toolCalls, intent := [], Unknown;
      match Hears(o.ctx, t, o.intentForRules) {
        case None =>
          var failure := ToolCall("intent.llm", req.query, "", Failed, "intent inference failed");
          toolCalls := [failure];
          tools.DidFirst(tools.sent, o.ctx, t + 1, failure, Tell(failure));
        case Some(text) =>
          intent := NormalizeIntent(text);
          NormalizeName(intent);
          toolCalls := ExecuteToolPlan(settings, tools, o.ctx, t + 1, Name(intent), req);
      }
      PlansAreClean([], intent);
      var answer := Summarize(Name(intent), toolCalls);
      var status := FinalStatus(toolCalls);
      return Finished(ExecuteResult(intent, BuildPlan(intent), toolCalls, answer, status));
    }
  }

  /** executeToolPlan, and the same switch in the rule engine, beginning at moment t. */
  method ExecuteToolPlan(settings: Settings, tools: InternalClient, ctx: Context, t: nat, intent: string, req: ExecuteRequest)
    returns (calls: seq<ToolCall>)
    modifies tools
    ensures tools.Did(old(tools.sent), ctx, t, calls,
                      Planned(tools.world, settings.allowWriteActions, NormalizeIntent(intent), req.Value()))
  {
    var call;
    ghost var value, allow := req.Value(), settings.allowWriteActions;
    match NormalizeIntent(intent) {
      case Create =>
        call := tools.CreateShortLink(ctx.Done(t), req);
        tools.DidFirst(old(tools.sent), ctx, t, call, CreateAction(value));
        calls := [call];
      case Update =>
        call := UpdateOrBlock(settings, tools, ctx.Done(t), req);
        tools.DidFirst(old(tools.sent), ctx, t, call, UpdateIfAllowed(tools.world, allow, value));
        calls := [call];
      case Query =>
        call := tools.QueryTrafficSummary(ctx.Done(t), req);
        tools.DidFirst(old(tools.sent), ctx, t, call, QueryAction(tools.world, value));
        calls := [call];
      case UpdateAndQuery =>
        calls := UpdateThenQuery(settings, tools, ctx, t, req);
      case Unknown =>
        call := ToolCall("intent.fallback", req.query, "", Unsupported, "unsupported intent");
        tools.DidFirst(old(tools.sent), ctx, t, call, Tell(call));
        calls := [call];
    }
  }

  method UpdateThenQuery(settings: Settings, tools: InternalClient, ctx: Context, t: nat, req: ExecuteRequest) returns (calls: seq<ToolCall>)
    modifies tools
    ensures tools.Did(old(tools.sent), ctx, t, calls, Planned(tools.world, settings.allowWriteActions, UpdateAndQuery, req.Value()))
  {
    ghost var update := UpdateIfAllowed(tools.world, settings.allowWriteActions, req.Value());
    ghost var query := QueryAction(tools.world, req.Value());
    var call := UpdateOrBlock(settings, tools, ctx.Done(t), req);
    tools.DidFirst(old(tools.sent), ctx, t, call, update);
    calls := [call];
    ghost var before := tools.sent;
    var next := t + 1;
    call := tools.QueryTrafficSummary(ctx.Done(next), req);
    tools.DidOneMore(old(tools.sent), before, ctx, t, next, calls, call, [update], query);
    calls := calls + [call];
    assert [update] + [query] == Planned(tools.world, settings.allowWriteActions, UpdateAndQuery, req.Value());
  }

  method UpdateOrBlock(settings: Settings, tools: InternalClient, done: bool, req: ExecuteRequest) returns (call: ToolCall)
    modifies tools
    ensures tools.DidOne(old(tools.sent), done, call, UpdateIfAllowed(tools.world, settings.allowWriteActions, req.Value()))
  {
    if !settings.allowWriteActions {
      return ToolCall("shortener.update", req.query, "", Blocked, "write actions disabled");
    }
    call := tools.UpdateShortLink(done, req);
  }

  class EinoEngine {
    const settings: Settings
    const tools: InternalClient
    const ruleFallback: RuleEngine

    /** Both engines send through the one HTTP client. */
    predicate Valid() {
      ruleFallback.tools == tools && ruleFallback.settings == settings
    }

    constructor (settings: Settings, tools: InternalClient)
      ensures Valid() && this.settings == settings && this.tools == tools
    {
      this.settings, this.tools := settings, tools;
      ruleFallback := new RuleEngine(settings, tools);
    }

    /** dispatchToolCall works on a copy, so the caller's request stays as it is for the next call. */
    method DispatchToolCall(done: bool, req: ExecuteRequest, tc: ToolRequest) returns (call: ToolCall)
      modifies tools
      ensures tools.DidOne(old(tools.sent), done, call, Dispatched(tools.world, settings.allowWriteActions, req.Value(), tc))
    {
      var args := tools.world.decode(tc.arguments);
      var reqCopy := new ExecuteRequest(req.requestId, req.operatorId, req.tenantId, req.idempotencyKey, req.query, req.context);
      match tc.tool {
        case CreateShortlink =>
          reqCopy.context := reqCopy.context.(longUrl := Override(args, "longUrl", reqCopy.context.longUrl));
          call := tools.CreateShortLink(done, reqCopy);
        case UpdateShortlink =>
          if !settings.allowWriteActions {
            return ToolCall("shortener.update", tc.arguments, "", Blocked, "write actions disabled");
          }
          reqCopy.context := reqCopy.context.(shortUrl := Override(args, "shortCode", reqCopy.context.shortUrl));
          reqCopy.context := reqCopy.context.(longUrl := Override(args, "longUrl", reqCopy.context.longUrl));
          reqCopy.context := reqCopy.context.(expireAt := Override(args, "expireAt", reqCopy.context.expireAt));
          call := tools.UpdateShortLink(done, reqCopy);
        case QueryTraffic =>
          reqCopy.context := reqCopy.context.(shortUrl := Override(args, "shortCode", reqCopy.context.shortUrl));
          reqCopy.context := reqCopy.context.(startDate := Override(args, "from", reqCopy.context.startDate));
          reqCopy.context := reqCopy.context.(endDate := Override(args, "to", reqCopy.context.endDate));
          call := tools.QueryTrafficSummary(done, reqCopy);
        case NoSuchTool(name) =>
          call := ToolCall(name, tc.arguments, "", Unsupported, "unsupported tool");
      }
    }

    /** toolAgent: the model's calls in order, or the local plan.  An error means that no tool was called. */
    method ToolAgent(state: DagState, o: Oracle) returns (calls: Option<seq<ToolCall>>)
      modifies tools
      ensures
        var did := ToolActions(tools.world, settings.allowWriteActions, o,
                               if Blank(state.planner.intent) then state.intent else state.planner.intent, state.req.Value());
        if did.None? then calls == None && tools.sent == old(tools.sent)
        else calls.Some? && tools.Did(old(tools.sent), o.ctx, ACTIONS, calls.value, did.value)
    {
      var text := TrimSpace(state.planner.intent);
      if text == "" {
        text := TrimSpace(state.intent);
      }
      var intent := NormalizeIntent(text);
      if intent == Unknown {
        var inferred := Hears(o.ctx, AGAIN, o.intentForTools);
        if inferred.Some? {
          intent := NormalizeIntent(inferred.value);
        }
      }
      if !o.binds {
        return None;
      }
      var msg := Hears(o.ctx, TOOLS, o.toolReply);
      if msg.None? {
        return None;
      }
      var toolCalls := msg.value;
      if |toolCalls| == 0 {
        NormalizeName(intent);
        var planned := ExecuteToolPlan(settings, tools, o.ctx, ACTIONS, Name(intent), state.req);
        return Some(planned);
      }
      var done := DispatchAll(o.ctx, state.req, toolCalls);
      return Some(done);
    }

    method DispatchAll(ctx: Context, req: ExecuteRequest, toolCalls: seq<ToolRequest>) returns (calls: seq<ToolCall>)
      modifies tools
      ensures tools.Did(old(tools.sent), ctx, ACTIONS, calls,
                        AllDispatched(tools.world, settings.allowWriteActions, req.Value(), toolCalls))
    {
      calls := [];
      ghost var actions := AllDispatched(tools.world, settings.allowWriteActions, req.Value(), toolCalls);
      for i := 0 to |toolCalls|
        invariant tools.Did(old(tools.sent), ctx, ACTIONS, calls, actions[..i])
      {
        ghost var before := tools.sent;
        var moment := ACTIONS + i;
        var call := DispatchToolCall(ctx.Done(moment), req, toolCalls[i]);
        DispatchedNext(tools.world, settings.allowWriteActions, req.Value(), toolCalls, actions, i);
        tools.DidOneMore(old(tools.sent), before, ctx, ACTIONS, moment, calls, call, actions[..i], actions[i]);
        calls := calls + [call];
      }
      assert actions[..|toolCalls|] == actions;
    }

    /** The first two nodes. */
    method IntentAndPlan(state: DagState, o: Oracle) returns (ok: bool)
      modifies state
      ensures state.calls == old(state.calls)
      ensures ok == PlannedIntent(settings, o).Some?
      ensures ok ==> o.planner.Some? && state.planner == o.planner.value.(intent := PlannedIntent(settings, o).value)
      ensures ok ==> !Blank(state.planner.intent)
    {
      if !o.compiles || Stops(settings, o, 0, 0) {
        return false;
      }
      // intent-agent
      var intent := Hears(o.ctx, INTENT, o.intent);
      if intent.None? {
        return false;
      }
      state.intent := Name(NormalizeIntent(intent.value));
      if Stops(settings, o, 1, 0) {
        return false;
      }
      // planner-agent
      var planner := Hears(o.ctx, PLANNER, o.planner);
      if planner.None? {
        return false;
      }
      state.planner := planner.value;
      if Blank(state.planner.intent) {
        state.planner := state.planner.(intent := state.intent);
      }
      NormalizeName(NormalizeIntent(intent.value));
      return true;
    }

    /** runDAG: the nodes fill in the state one after another, unless one fails or the runner stops. */
    method RunDAG(state: DagState, o: Oracle) returns (ok: bool)
      requires state.calls == []
      modifies state, tools
      ensures
        var did := Tools(tools.world, settings, o, state.req.Value());
        && ok == WorkflowSucceeds(tools.world, settings, o, state.req.Value())
        && |state.calls| == (if did.Some? then |did.value| else 0)
        && if did.None? then tools.sent == old(tools.sent)
           else tools.Did(old(tools.sent), o.ctx, ACTIONS, state.calls, did.value)
      ensures ok ==>
        && PlannedIntent(settings, o).Some? && o.planner.Some?
        && state.planner == o.planner.value.(intent := PlannedIntent(settings, o).value)
        && !Blank(state.planner.intent)
        && state.answer == AnswerGiven(Spoken(settings, o, |state.calls|), state.planner.intent, state.calls)
    {
      ok := IntentAndPlan(state, o);
      if !ok || Stops(settings, o, 2, 0) {
        return false;
      }
      // tool-agent
      var calls := ToolAgent(state, o);
      if calls.None? {
        return false;
      }
      state.calls := calls.value;
      ghost var did := Tools(tools.world, settings, o, state.req.Value());
      ReportPerAction(tools.world, o.ctx, ACTIONS, |old(tools.sent)|, did.value);
      if Stops(settings, o, 3, |state.calls|) {
        return false;
      }
      // verifier-agent
      var answer := Summarize(state.planner.intent, state.calls);
      if settings.enableVerifier {
        var verified := Hears(o.ctx, Verifying(|state.calls|), o.verified);
        if verified.Some? && TrimSpace(verified.value) != "" {
          answer := Verified(TrimSpace(verified.value));
        }
      }
      state.answer := answer;
      return !Stops(settings, o, 4, |state.calls|);
    }

    /** The requests sent since `start`, and the answer, are this execution's. */
    ghost predicate Shows(start: seq<HttpCall>, ctx: Context, r: Response, did: Execution)
      reads tools
    {
      var before := start + Requested(tools.world, ctx, ACTIONS, did.unreported);
      && tools.sent == before + Requested(tools.world, ctx, did.start, did.reported)
      && r.Rejected? == did.rejected && r.Finished? == did.finished
      && (r.Finished? ==>
            && r.result.calls == Reported(tools.world, ctx, did.start, |before|, did.reported)
            && r.result.intent == did.intent && r.result.plan == did.plan
            && r.result.answer == AnswerGiven(did.spoken, did.named, r.result.calls)
            && ResultFits(r.result))
    }

    /** fallbackOrErr, after the workflow has taken the actions in `before`, m in number. */
    method FallbackOrErr(req: ExecuteRequest, o: Oracle, m: nat, ghost start: seq<HttpCall>, ghost before: seq<Action>) returns (r: Response)
      requires Valid() && Complete(req.Value()) && m == |before|
      requires tools.sent == start + Requested(tools.world, o.ctx, ACTIONS, before)
      modifies tools
      ensures Shows(start, o.ctx, r, FallenBack(tools.world, settings, o, req.Value(), before))
    {
      if !settings.fallbackToRule {
        return Broken;
      }
      r := ruleFallback.Execute(req, o, FallingBack(m));
    }

    /** Execute: reports the calls of the workflow, or else those of the rule engine. */
    method Execute(req: ExecuteRequest, o: Oracle) returns (r: Response)
      requires Valid()
      modifies tools
      ensures Shows(old(tools.sent), o.ctx, r, Executed(tools.world, settings, o, req.Value()))
    {
      if Blank(req.requestId) || Blank(req.operatorId) || Blank(req.tenantId) || Blank(req.query) {
        return Rejected;
      }
      if !o.modelBuilds {
        r := FallbackOrErr(req, o, 0, tools.sent, []);
        return;
      }
      r := ExecuteWorkflow(req, o);
    }

    /** Execute, once the model is there. */
    method ExecuteWorkflow(req: ExecuteRequest, o: Oracle) returns (r: Response)
      requires Valid() && Complete(req.Value()) && o.modelBuilds
      modifies tools
      ensures Shows(old(tools.sent), o.ctx, r, Executed(tools.world, settings, o, req.Value()))
    {
      var state := new DagState(req);
      ghost var did := Tools(tools.world, settings, o, req.Value());
      var ok := RunDAG(state, o);
      if ok {
        assert old(tools.sent) + Requested(tools.world, o.ctx, ACTIONS, []) == old(tools.sent);
        r := Report(state, o);
      } else {
        r := FallbackOrErr(req, o, |state.calls|, old(tools.sent), if did.Some? then did.value else []);
      }
    }

    /** The end of Execute: intent, plan, answer and status of a finished workflow. */
    method Report(out: DagState, o: Oracle) returns (r: Response)
      requires AnswerFits(out.answer, out.calls)
      ensures r.Finished? && r.result.calls == out.calls && r.result.answer == out.answer && ResultFits(r.result)
      ensures r.result.intent == SettledIntent(if Blank(out.planner.intent) then out.intent else out.planner.intent,
                                               Hears(o.ctx, Reporting(|out.calls|), o.intentAtEnd))
      ensures var steps := Trimmed(out.planner.steps);
        r.result.plan == if steps == [] then BuildPlan(r.result.intent) else steps
    {
      var text := TrimSpace(out.planner.intent);
      if text == "" {
        text := TrimSpace(out.intent);
      }
      var intent := NormalizeIntent(text);
      if intent == Unknown {
        var inferred := Hears(o.ctx, Reporting(|out.calls|), o.intentAtEnd);
        if inferred.Some? {
          intent := NormalizeIntent(inferred.value);
        }
      }
      var steps := NonEmptySteps(out.planner.steps, BuildPlan(intent));
      PlansAreClean(out.planner.steps, intent);
      var status := FinalStatus(out.calls);
      return Finished(ExecuteResult(intent, steps, out.calls, out.answer, status));
    }
  }
}
