/** What one Execute sends, plans and answers, told by the texts that the model returned and the fields of the request. */
module AgentPlans {
  import opened Prelude
  import opened Text
  import opened AgentTools
  import opened AgentEngine
  import opened AgentTraces

  // ---------------------------------------------------------------- texts

  const KNOWN := {"create_shortlink", "update_shortlink", "query_traffic", "update_and_query"}

  function Cleaned(text: string): string {
    LowerCase(TrimSpace(text))
  }

  /** A text that names none of the four intents means none. */
  function Meaning(text: string): string {
    if Cleaned(text) in KNOWN then Cleaned(text) else "unknown"
  }

  /** Case and surrounding blanks of an intent's name do not matter, anything else does. */
  lemma NormalizeMeans(text: string)
    ensures Name(NormalizeIntent(text)) == Meaning(text)
    ensures NormalizeIntent(TrimSpace(text)) == NormalizeIntent(text)
  {
    TrimLower(text);
    TrimTwice(text);
    TrimLower(TrimSpace(text));
  }

  /** The planner's intent, or the intent node's if the planner left it blank. */
  function First(o: Oracle): string
    requires o.intent.Some? && o.planner.Some?
  {
    if TrimSpace(o.planner.value.intent) == "" then o.intent.value else o.planner.value.intent
  }

  /** The intent that a node works with: the first one, or, where that means nothing, what the model says when asked
      again. */
  function Decided(o: Oracle, again: Option<string>): string
    requires o.intent.Some? && o.planner.Some?
  {
    if Meaning(First(o)) == "unknown" && again.Some? then Meaning(again.value) else Meaning(First(o))
  }

  lemma NamesDiffer(intent: Intent)
    ensures intent == Unknown <==> Name(intent) == "unknown"
    ensures intent != Unknown <==> Name(intent) in KNOWN
  {
  }

  lemma FirstMeans(o: Oracle)
    requires o.intent.Some? && o.planner.Some?
    ensures Name(NormalizeIntent(TrimSpace(PlannerIntent(NormalizeIntent(o.intent.value), o.planner.value)))) == Meaning(First(o))
  {
    NormalizeMeans(o.intent.value);
    NormalizeMeans(o.planner.value.intent);
    NormalizeName(NormalizeIntent(o.intent.value));
  }

  lemma SettledMeans(o: Oracle, again: Option<string>)
    requires o.intent.Some? && o.planner.Some?
    ensures Name(SettledIntent(PlannerIntent(NormalizeIntent(o.intent.value), o.planner.value), again)) == Decided(o, again)
  {
    FirstMeans(o);
    NamesDiffer(NormalizeIntent(TrimSpace(PlannerIntent(NormalizeIntent(o.intent.value), o.planner.value))));
    if again.Some? {
      NormalizeMeans(again.value);
    }
  }

  // ---------------------------------------------------------------- requests

  function Built(world: World, call: HttpCall): seq<HttpCall> {
    if world.builds(call) then [call] else []
  }

  function PostOf(world: World, req: Request, longUrl: string): seq<HttpCall> {
    Built(world, Post(Identity(req.requestId, req.operatorId, req.tenantId), longUrl))
  }

  /** An update goes out if writes are on and there is a code; it carries the fields that are not blank. */
  function PatchOf(world: World, allow: bool, req: Request, code: string, longUrl: string, expireAt: string): seq<HttpCall> {
    if allow && TrimSpace(code) != "" then
      Built(world, Patch(Identity(req.requestId, req.operatorId, req.tenantId), req.idempotencyKey, TrimSpace(code),
                         if TrimSpace(longUrl) == "" then None else Some(longUrl),
                         if TrimSpace(expireAt) == "" then None else Some(expireAt)))
    else []
  }

  /** A traffic query goes out if there are a code and two readable dates. */
  function GetOf(world: World, code: string, from: string, until: string): seq<HttpCall> {
    if TrimSpace(code) != "" && TrimSpace(from) != "" && TrimSpace(until) != ""
       && world.isDate(TrimSpace(from)) && world.isDate(TrimSpace(until)) then
      Built(world, Get(TrimSpace(code), TrimSpace(from), TrimSpace(until)))
    else []
  }

  /** What the local plan for an intent is to send. */
  function Wanted(world: World, allow: bool, name: string, req: Request): seq<HttpCall> {
    var c := req.context;
    if name == "create_shortlink" then PostOf(world, req, c.longUrl)
    else if name == "update_shortlink" then PatchOf(world, allow, req, c.shortUrl, c.longUrl, c.expireAt)
    else if name == "query_traffic" then GetOf(world, c.shortUrl, c.startDate, c.endDate)
    else if name == "update_and_query" then
      PatchOf(world, allow, req, c.shortUrl, c.longUrl, c.expireAt) + GetOf(world, c.shortUrl, c.startDate, c.endDate)
    else []
  }

  lemma OneSends(world: World, ctx: Context, t: nat, a: Action)
    ensures Requested(world, ctx, t, [a]) == Requests(world, ctx.Done(t), a)
  {
    assert [a][..0] == [];
    assert Requested(world, ctx, t, [a][..0]) == [];
  }

  lemma TwoSend(world: World, ctx: Context, t: nat, next: nat, a: Action, b: Action)
    requires next == t + 1
    ensures Requested(world, ctx, t, [a, b]) == Requests(world, ctx.Done(t), a) + Requests(world, ctx.Done(next), b)
  {
    OneSends(world, ctx, t, a);
    assert [a, b][..1] == [a];
  }

  lemma ActionsSend(world: World, allow: bool, req: Request)
    ensures
      var c := req.context;
      && Requests(world, false, CreateAction(req)) == PostOf(world, req, c.longUrl)
      && Requests(world, false, UpdateIfAllowed(world, allow, req)) == PatchOf(world, allow, req, c.shortUrl, c.longUrl, c.expireAt)
      && Requests(world, false, QueryAction(world, req)) == GetOf(world, c.shortUrl, c.startDate, c.endDate)
  {
  }

  lemma PlannedSends(world: World, allow: bool, ctx: Context, t: nat, next: nat, intent: Intent, req: Request)
    requires next == t + 1 && !ctx.Done(next)
    ensures Requested(world, ctx, t, Planned(world, allow, intent, req)) == Wanted(world, allow, Name(intent), req)
  {
    ActionsSend(world, allow, req);
    match intent
    case Create => OneSends(world, ctx, t, CreateAction(req));
    case Update => OneSends(world, ctx, t, UpdateIfAllowed(world, allow, req));
    case Query => OneSends(world, ctx, t, QueryAction(world, req));
    case UpdateAndQuery => TwoSend(world, ctx, t, next, UpdateIfAllowed(world, allow, req), QueryAction(world, req));
    case Unknown => OneSends(world, ctx, t, Complain("intent.fallback", req.query, Unsupported, "unsupported intent"));
  }

  // ---------------------------------------------------------------- the workflow

  /** Every node is run and answered in time; the tools take at most m actions. */
  predicate Smooth(settings: Settings, o: Oracle, m: nat) {
    && o.modelBuilds && o.compiles && o.binds
    && o.intent.Some? && o.planner.Some? && o.toolReply.Some?
    && (settings.maxSteps <= 0 || settings.maxSteps >= 4)
    && !o.ctx.Done(Reporting(m))
  }

  /** The tools of such a workflow. */
  function SmoothTools(world: World, settings: Settings, o: Oracle, req: Request): seq<Action>
    requires o.intent.Some? && o.planner.Some? && o.toolReply.Some?
  {
    var planner := PlannerIntent(NormalizeIntent(o.intent.value), o.planner.value);
    if o.toolReply.value == [] then Planned(world, settings.allowWriteActions, SettledIntent(planner, o.intentForTools), req)
    else AllDispatched(world, settings.allowWriteActions, req, o.toolReply.value)
  }

  lemma SmoothPlans(settings: Settings, o: Oracle, m: nat)
    requires Smooth(settings, o, m)
    ensures PlannedIntent(settings, o) == Some(PlannerIntent(NormalizeIntent(o.intent.value), o.planner.value))
    ensures !Stops(settings, o, 2, 0) && !Stops(settings, o, 3, m) && !Stops(settings, o, 4, m)
  {
  }

  lemma Sooner(settings: Settings, o: Oracle, m: nat, n: nat)
    requires Smooth(settings, o, m) && n <= m
    ensures Smooth(settings, o, n)
  {
  }

  lemma SmoothRuns(world: World, settings: Settings, o: Oracle, m: nat, req: Request)
    requires Smooth(settings, o, m) && |SmoothTools(world, settings, o, req)| <= m
    ensures Tools(world, settings, o, req) == Some(SmoothTools(world, settings, o, req))
    ensures WorkflowSucceeds(world, settings, o, req)
  {
    SmoothPlans(settings, o, m);
    Sooner(settings, o, m, |SmoothTools(world, settings, o, req)|);
    SmoothPlans(settings, o, |SmoothTools(world, settings, o, req)|);
  }

  lemma SmoothExecuted(world: World, settings: Settings, o: Oracle, m: nat, req: Request)
    requires Complete(req) && Smooth(settings, o, m) && |SmoothTools(world, settings, o, req)| <= m
    ensures Executed(world, settings, o, req) == Completed(settings, o, SmoothTools(world, settings, o, req))
  {
    SmoothRuns(world, settings, o, m, req);
  }

  lemma CompletedSends(world: World, settings: Settings, o: Oracle, actions: seq<Action>)
    ensures
      var did := Completed(settings, o, actions);
      did.finished && did.unreported == [] && Sent(world, o.ctx, did) == Requested(world, o.ctx, ACTIONS, actions)
  {
    assert SentUnreported(world, o.ctx, Completed(settings, o, actions)) == [];
  }

  /** A workflow without faults whose model asks for no tool sends exactly what the decided intent wants, once. */
  lemma LocalPlanSends(world: World, settings: Settings, o: Oracle, req: Request)
    requires Complete(req) && Smooth(settings, o, 2) && o.toolReply == Some([])
    ensures
      var did := Executed(world, settings, o, req);
      && did.finished && did.unreported == []
      && Sent(world, o.ctx, did) == Wanted(world, settings.allowWriteActions, Decided(o, o.intentForTools), req)
  {
    PlansAreShort(world, settings, o, req);
    SmoothExecuted(world, settings, o, 2, req);
    CompletedSends(world, settings, o, SmoothTools(world, settings, o, req));
    SettledMeans(o, o.intentForTools);
    var intent := SettledIntent(PlannerIntent(NormalizeIntent(o.intent.value), o.planner.value), o.intentForTools);
    PlannedSends(world, settings.allowWriteActions, o.ctx, ACTIONS, 8, intent, req);
  }

  lemma PlansAreShort(world: World, settings: Settings, o: Oracle, req: Request)
    requires o.intent.Some? && o.planner.Some? && o.toolReply.Some?
    ensures |SmoothTools(world, settings, o, req)| <= if o.toolReply.value == [] then 2 else |o.toolReply.value|
  {
  }

  /** The value of a string argument, unless it is missing, blank or no string. */
  function ArgumentOr(world: World, tc: ToolRequest, name: string, original: string): string {
    var args := world.decode(tc.arguments);
    if name in args && args[name].Words? && TrimSpace(args[name].text) != "" then args[name].text else original
  }

  /** What a call of the model's list is to send. */
  function WantedBy(world: World, allow: bool, req: Request, tc: ToolRequest): seq<HttpCall> {
    var c := req.context;
    match tc.tool
    case CreateShortlink => PostOf(world, req, ArgumentOr(world, tc, "longUrl", c.longUrl))
    case UpdateShortlink =>
      PatchOf(world, allow, req, ArgumentOr(world, tc, "shortCode", c.shortUrl), ArgumentOr(world, tc, "longUrl", c.longUrl),
              ArgumentOr(world, tc, "expireAt", c.expireAt))
    case QueryTraffic =>
      GetOf(world, ArgumentOr(world, tc, "shortCode", c.shortUrl), ArgumentOr(world, tc, "from", c.startDate),
            ArgumentOr(world, tc, "to", c.endDate))
    case NoSuchTool(_) => []
  }

  function AllWanted(world: World, allow: bool, req: Request, tcs: seq<ToolRequest>): seq<HttpCall> {
    if tcs == [] then [] else AllWanted(world, allow, req, tcs[..|tcs| - 1]) + WantedBy(world, allow, req, tcs[|tcs| - 1])
  }

  lemma OverrideIsArgument(world: World, tc: ToolRequest, name: string, original: string)
    ensures Override(world.decode(tc.arguments), name, original) == ArgumentOr(world, tc, name, original)
  {
  }

  lemma DispatchedSends(world: World, allow: bool, req: Request, tc: ToolRequest)
    ensures Requests(world, false, Dispatched(world, allow, req, tc)) == WantedBy(world, allow, req, tc)
  {
    var c := req.context;
    match tc.tool
    case CreateShortlink =>
      OverrideIsArgument(world, tc, "longUrl", c.longUrl);
      ActionsSend(world, allow, SeenBy(world, req, tc));
    case UpdateShortlink => DispatchedUpdateSends(world, allow, req, tc);
    case QueryTraffic => DispatchedQuerySends(world, allow, req, tc);
    case NoSuchTool(_) =>
  }

  lemma DispatchedUpdateSends(world: World, allow: bool, req: Request, tc: ToolRequest)
    requires tc.tool == UpdateShortlink
    ensures Requests(world, false, Dispatched(world, allow, req, tc)) == WantedBy(world, allow, req, tc)
  {
    var c := req.context;
    OverrideIsArgument(world, tc, "shortCode", c.shortUrl);
    OverrideIsArgument(world, tc, "longUrl", c.longUrl);
    OverrideIsArgument(world, tc, "expireAt", c.expireAt);
    ActionsSend(world, allow, SeenBy(world, req, tc));
  }

  lemma DispatchedQuerySends(world: World, allow: bool, req: Request, tc: ToolRequest)
    requires tc.tool == QueryTraffic
    ensures Requests(world, false, Dispatched(world, allow, req, tc)) == WantedBy(world, allow, req, tc)
  {
    var c := req.context;
    OverrideIsArgument(world, tc, "shortCode", c.shortUrl);
    OverrideIsArgument(world, tc, "from", c.startDate);
    OverrideIsArgument(world, tc, "to", c.endDate);
    ActionsSend(world, allow, SeenBy(world, req, tc));
  }

  lemma DispatchedOneMore(world: World, allow: bool, req: Request, tcs: seq<ToolRequest>, front: seq<ToolRequest>, tc: ToolRequest)
    requires tcs == front + [tc]
    ensures AllDispatched(world, allow, req, tcs) == AllDispatched(world, allow, req, front) + [Dispatched(world, allow, req, tc)]
  {
  }

  lemma WantedOneMore(world: World, allow: bool, req: Request, tcs: seq<ToolRequest>, front: seq<ToolRequest>, tc: ToolRequest)
    requires tcs == front + [tc]
    ensures AllWanted(world, allow, req, tcs) == AllWanted(world, allow, req, front) + WantedBy(world, allow, req, tc)
  {
    assert tcs[..|tcs| - 1] == front;
  }

  lemma {:induction false} AllDispatchedSend(world: World, allow: bool, ctx: Context, t: nat, req: Request, tcs: seq<ToolRequest>)
    requires !ctx.Done(t + |tcs|)
    ensures Requested(world, ctx, t, AllDispatched(world, allow, req, tcs)) == AllWanted(world, allow, req, tcs)
  {
    if tcs != [] {
      var front, tc := tcs[..|tcs| - 1], tcs[|tcs| - 1];
      AllDispatchedSend(world, allow, ctx, t, req, front);
      DispatchedSends(world, allow, req, tc);
      DispatchedOneMore(world, allow, req, tcs, front, tc);
      WantedOneMore(world, allow, req, tcs, front, tc);
      OneMoreInTime(world, ctx, t, |front|, AllDispatched(world, allow, req, tcs), AllDispatched(world, allow, req, front),
                    Dispatched(world, allow, req, tc), AllWanted(world, allow, req, front), WantedBy(world, allow, req, tc));
    }
  }

  lemma OneMoreInTime(world: World, ctx: Context, t: nat, k: nat, actions: seq<Action>, front: seq<Action>, last: Action,
                      before: seq<HttpCall>, wanted: seq<HttpCall>)
    requires actions == front + [last] && |front| == k && !ctx.Done(t + k)
    requires Requested(world, ctx, t, front) == before && Requests(world, false, last) == wanted
    ensures Requested(world, ctx, t, actions) == before + wanted
  {
    assert actions[..k] == front;
  }

  /** A workflow without faults sends exactly what the calls of the model's list want, in order, once. */
  lemma ListSends(world: World, settings: Settings, o: Oracle, req: Request)
    requires Complete(req) && o.toolReply.Some? && o.toolReply.value != [] && Smooth(settings, o, |o.toolReply.value|)
    ensures
      var did := Executed(world, settings, o, req);
      && did.finished && did.unreported == []
      && Sent(world, o.ctx, did) == AllWanted(world, settings.allowWriteActions, req, o.toolReply.value)
  {
    PlansAreShort(world, settings, o, req);
    SmoothExecuted(world, settings, o, |o.toolReply.value|, req);
    CompletedSends(world, settings, o, SmoothTools(world, settings, o, req));
    AllDispatchedSend(world, settings.allowWriteActions, o.ctx, ACTIONS, req, o.toolReply.value);
  }

  // ---------------------------------------------------------------- the rule engine

  /** Something goes wrong before any tool is called. */
  predicate FailsEarly(settings: Settings, o: Oracle) {
    || !o.modelBuilds || !o.compiles || o.intent.None? || o.planner.None? || !o.binds || o.toolReply.None?
    || 0 < settings.maxSteps <= 2
  }

  /** A workflow that fails before its tools sends nothing itself.  With falling back configured, and in time, the rule
      engine then sends exactly what the intent that it hears wants; if it hears none, or without falling back,
      nothing is sent at all. */
  lemma RulesSend(world: World, settings: Settings, o: Oracle, req: Request)
    requires Complete(req) && FailsEarly(settings, o) && !o.ctx.Done(FallingBack(2))
    ensures
      var did := Executed(world, settings, o, req);
      && (did.finished <==> settings.fallbackToRule) && did.unreported == []
      && Sent(world, o.ctx, did)
         == (if settings.fallbackToRule && o.intentForRules.Some?
             then Wanted(world, settings.allowWriteActions, Meaning(o.intentForRules.value), req) else [])
      && (did.finished ==> Name(did.intent) == if o.intentForRules.Some? then Meaning(o.intentForRules.value) else "unknown")
      && (did.finished ==> did.plan == DefaultPlan(Name(did.intent)))
  {
    assert Tools(world, settings, o, req).None? || !o.modelBuilds;
    var did := Executed(world, settings, o, req);
    assert did == FallenBack(world, settings, o, req, []);
    FallenBackSends(world, settings, o, req);
    DefaultPlans(did.intent);
  }

  lemma FallenBackSends(world: World, settings: Settings, o: Oracle, req: Request)
    requires !o.ctx.Done(FallingBack(2))
    ensures
      var did := FallenBack(world, settings, o, req, []);
      && Sent(world, o.ctx, did)
         == (if settings.fallbackToRule && o.intentForRules.Some?
             then Wanted(world, settings.allowWriteActions, Meaning(o.intentForRules.value), req) else [])
      && (did.finished ==> Name(did.intent) == if o.intentForRules.Some? then Meaning(o.intentForRules.value) else "unknown")
  {
    var did := FallenBack(world, settings, o, req, []);
    assert SentUnreported(world, o.ctx, did) == [];
    if settings.fallbackToRule && o.intentForRules.Some? {
      NormalizeMeans(o.intentForRules.value);
      PlannedSends(world, settings.allowWriteActions, o.ctx, 12, 13, NormalizeIntent(o.intentForRules.value), req);
    } else if settings.fallbackToRule {
      OneSends(world, o.ctx, 12, Complain("intent.llm", req.query, Failed, "intent inference failed"));
    }
  }

  /** A request without request, operator or tenant id, or without a query, is rejected, and nothing else is. */
  lemma RejectedIff(world: World, settings: Settings, o: Oracle, req: Request)
    ensures
      var did := Executed(world, settings, o, req);
      && (did.rejected <==> TrimSpace(req.requestId) == "" || TrimSpace(req.operatorId) == "" || TrimSpace(req.tenantId) == "" || TrimSpace(req.query) == "")
      && (did.rejected ==> !did.finished && Sent(world, o.ctx, did) == [])
  {
  }

  // ---------------------------------------------------------------- plan and answer

  /** The steps that are reported when the planner gave none. */
  function DefaultPlan(name: string): seq<string> {
    if name == "create_shortlink" then ["intent analyze", "plan create", "call shortener.create", "verify result"]
    else if name == "update_shortlink" then ["intent analyze", "plan update", "call shortener.update", "verify result"]
    else if name == "query_traffic" then ["intent analyze", "plan query", "call traffic.summary", "verify result"]
    else if name == "update_and_query" then
      ["intent analyze", "plan update+query", "call shortener.update", "call traffic.summary", "verify result"]
    else ["intent analyze", "unsupported fallback"]
  }

  lemma DefaultPlans(intent: Intent)
    ensures BuildPlan(intent) == DefaultPlan(Name(intent))
  {
  }

  /** A list in order without some of its elements: where each of the remaining ones comes from. */
  ghost predicate Positions(pos: seq<nat>, n: nat) {
    (forall k | 0 <= k < |pos| :: pos[k] < n) && forall j, k | 0 <= j < k < |pos| :: pos[j] < pos[k]
  }

  /** Steps without the blank ones, trimmed, in the order in which they came. */
  ghost predicate IsTrimmed(steps: seq<string>, res: seq<string>, pos: seq<nat>) {
    && |pos| == |res| && Positions(pos, |steps|)
    && (forall k | 0 <= k < |pos| :: res[k] == TrimSpace(steps[pos[k]]) != "")
    && (forall i | 0 <= i < |steps| && TrimSpace(steps[i]) != "" :: i in pos)
  }

  lemma {:induction false} TrimmedKeepsOrder(steps: seq<string>) returns (pos: seq<nat>)
    ensures IsTrimmed(steps, Trimmed(steps), pos)
  {
    pos := [];
    if steps != [] {
      var n := |steps| - 1;
      pos := TrimmedKeepsOrder(steps[..n]);
      OneMoreStep(steps, n, Trimmed(steps[..n]), pos);
      if TrimSpace(steps[n]) != "" {
        pos := pos + [n];
      }
    }
  }

  lemma OneMoreStep(steps: seq<string>, n: nat, res: seq<string>, pos: seq<nat>)
    requires |steps| == n + 1 && IsTrimmed(steps[..n], res, pos)
    ensures TrimSpace(steps[n]) == "" ==> IsTrimmed(steps, res, pos)
    ensures TrimSpace(steps[n]) != "" ==> IsTrimmed(steps, res + [TrimSpace(steps[n])], pos + [n])
  {
    var t := TrimSpace(steps[n]);
    assert forall i | 0 <= i < n :: steps[..n][i] == steps[i];
    assert forall k | 0 <= k < |pos| :: pos[k] < n;
  }

  /** A workflow without faults reports the decided intent, and the planner's steps without blank ones, or, if none
      remain, the default plan of the intent. */
  lemma ReportedPlan(world: World, settings: Settings, o: Oracle, m: nat, req: Request) returns (pos: seq<nat>)
    requires Complete(req) && Smooth(settings, o, m) && |o.toolReply.value| <= m && m >= 2
    ensures
      var did := Executed(world, settings, o, req);
      && Name(did.intent) == Decided(o, o.intentAtEnd)
      && if forall i | 0 <= i < |o.planner.value.steps| :: TrimSpace(o.planner.value.steps[i]) == ""
         then did.plan == DefaultPlan(Name(did.intent))
         else IsTrimmed(o.planner.value.steps, did.plan, pos)
  {
    var actions := SmoothTools(world, settings, o, req);
    PlansAreShort(world, settings, o, req);
    SmoothExecuted(world, settings, o, m, req);
    CompletedPlan(settings, o, m, actions);
    SettledMeans(o, o.intentAtEnd);
    DefaultPlans(Completed(settings, o, actions).intent);
    pos := TrimmedKeepsOrder(o.planner.value.steps);
    NoneRemain(o.planner.value.steps, pos);
  }

  lemma CompletedPlan(settings: Settings, o: Oracle, m: nat, actions: seq<Action>)
    requires Smooth(settings, o, m) && |actions| <= m
    ensures
      var did := Completed(settings, o, actions);
      && did.intent == SettledIntent(PlannerIntent(NormalizeIntent(o.intent.value), o.planner.value), o.intentAtEnd)
      && did.plan == (if Trimmed(o.planner.value.steps) == [] then BuildPlan(did.intent) else Trimmed(o.planner.value.steps))
      && did.named == PlannerIntent(NormalizeIntent(o.intent.value), o.planner.value)
      && did.spoken == (if settings.enableVerifier && o.verified.Some? && TrimSpace(o.verified.value) != ""
                        then Some(TrimSpace(o.verified.value)) else None)
  {
    SmoothPlans(settings, o, m);
  }

  lemma NoneRemain(steps: seq<string>, pos: seq<nat>)
    requires IsTrimmed(steps, Trimmed(steps), pos)
    ensures Trimmed(steps) == [] <==> forall i | 0 <= i < |steps| :: TrimSpace(steps[i]) == ""
  {
    if Trimmed(steps) != [] {
      assert TrimSpace(steps[pos[0]]) != "";
    }
  }

  /** The count of calls that went well, and of the others. */
  predicate Counts(answer: Answer, intent: string, calls: seq<ToolCall>) {
    answer.Counted? && answer.intent == intent && answer.ok == |Good(calls)| && answer.ok + answer.fail == |calls|
  }

  /** It answers with the verifier's words exactly if the verifier is enabled and has any; and otherwise with the count
      of its calls, under the planner's intent as it was written, or the intent node's if that is blank. */
  lemma VerifierAnswers(world: World, settings: Settings, o: Oracle, m: nat, req: Request, calls: seq<ToolCall>)
    requires Complete(req) && Smooth(settings, o, m) && |o.toolReply.value| <= m && m >= 2
    ensures
      var did, p := Executed(world, settings, o, req), o.planner.value.intent;
      var answer := AnswerGiven(did.spoken, did.named, calls);
      if settings.enableVerifier && o.verified.Some? && TrimSpace(o.verified.value) != "" then
        answer == Verified(TrimSpace(o.verified.value))
      else if calls == [] then answer == NothingDone
      else Counts(answer, if TrimSpace(p) != "" then p else Meaning(o.intent.value), calls)
  {
    var actions := SmoothTools(world, settings, o, req);
    PlansAreShort(world, settings, o, req);
    SmoothExecuted(world, settings, o, m, req);
    CompletedPlan(settings, o, m, actions);
    NormalizeMeans(o.intent.value);
    GoodCounted(calls);
  }

  /** The positions of the calls that went well. */
  function Good(calls: seq<ToolCall>): set<nat> {
    set k: nat | k < |calls| && calls[k].status == CallStatus.Good
  }

  lemma {:induction false} GoodCounted(calls: seq<ToolCall>)
    ensures GoodCalls(calls) == |Good(calls)|
  {
    if calls == [] {
      assert Good(calls) == {};
    } else {
      var n := |calls| - 1;
      GoodCounted(calls[..n]);
      assert Good(calls) == Good(calls[..n]) + if calls[n].status == CallStatus.Good then {n} else {};
    }
  }

  // ---------------------------------------------------------------- reports

  /** Each request that goes out is reported with the reply to it: the body, and good exactly below status 400. */
  lemma ReportCarriesReply(world: World, ctx: Context, t: nat, n: nat, actions: seq<Action>, i: nat)
    requires i < |actions| && actions[i].Send?
    ensures |Reported(world, ctx, t, n, actions)| == |actions|
    ensures
      var call := Reported(world, ctx, t, n, actions)[i];
      var k := |Requested(world, ctx, t, actions[..i])|;
      && call.tool == actions[i].tool
      && (if world.builds(actions[i].call) && !ctx.Done(t + i) then
            && k < |Requested(world, ctx, t, actions)| && Requested(world, ctx, t, actions)[k] == actions[i].call
            && match world.reply(n + k)
               case NoReply(error) => call.status == Failed && call.output == "" && call.error == error
               case Reply(status, body) =>
                 call.output == body && if status < 400 then call.status == CallStatus.Good && call.error == ""
                                        else call.status == Failed && call.error == world.errorText(status, body)
          else call.status == Failed && call.output == "")
  {
    OwnReport(world, ctx, t, n, actions, i);
    RequestAt(world, ctx, t, actions, i);
  }

  /** The tools that the local plan for an intent reports on, whether or not they could be used. */
  function ToolNames(name: string): seq<string> {
    if name == "create_shortlink" then ["shortener.create"]
    else if name == "update_shortlink" then ["shortener.update"]
    else if name == "query_traffic" then ["traffic.summary"]
    else if name == "update_and_query" then ["shortener.update", "traffic.summary"]
    else ["intent.fallback"]
  }

  function ToolOf(action: Action): string {
    if action.Send? then action.tool else action.report.tool
  }

  lemma PlannedTools(world: World, allow: bool, intent: Intent, req: Request, i: nat)
    ensures |Planned(world, allow, intent, req)| == |ToolNames(Name(intent))|
    ensures i < |ToolNames(Name(intent))| ==> ToolOf(Planned(world, allow, intent, req)[i]) == ToolNames(Name(intent))[i]
  {
    ActionTools(world, allow, req);
    match intent
    case UpdateAndQuery => assert i < 2 ==> i == 0 || i == 1;
    case _ => assert i < 1 ==> i == 0;
  }

  lemma ActionTools(world: World, allow: bool, req: Request)
    ensures ToolOf(CreateAction(req)) == "shortener.create"
    ensures ToolOf(UpdateIfAllowed(world, allow, req)) == "shortener.update"
    ensures ToolOf(QueryAction(world, req)) == "traffic.summary"
  {
  }

  lemma PerformedTool(world: World, done: bool, n: nat, action: Action)
    ensures Perform(world, done, n, action).tool == ToolOf(action)
  {
  }

  lemma ReportedTool(world: World, ctx: Context, t: nat, n: nat, actions: seq<Action>, i: nat)
    ensures |Reported(world, ctx, t, n, actions)| == |actions|
    ensures i < |actions| ==> Reported(world, ctx, t, n, actions)[i].tool == ToolOf(actions[i])
  {
    ReportPerAction(world, ctx, t, n, actions);
    if i < |actions| {
      OwnReport(world, ctx, t, n, actions, i);
      PerformedTool(world, ctx.Done(t + i), n + |Requested(world, ctx, t, actions[..i])|, actions[i]);
    }
  }

  lemma LocalPlan(world: World, settings: Settings, o: Oracle, req: Request) returns (intent: Intent)
    requires Complete(req) && Smooth(settings, o, 2) && o.toolReply == Some([])
    ensures Name(intent) == Decided(o, o.intentForTools)
    ensures
      var did := Executed(world, settings, o, req);
      did.start == ACTIONS && did.reported == Planned(world, settings.allowWriteActions, intent, req)
  {
    PlansAreShort(world, settings, o, req);
    SmoothExecuted(world, settings, o, 2, req);
    SettledMeans(o, o.intentForTools);
    intent := SettledIntent(PlannerIntent(NormalizeIntent(o.intent.value), o.planner.value), o.intentForTools);
  }

  /** The reports name the tools of the decided intent, in order. */
  lemma LocalPlanReports(world: World, settings: Settings, o: Oracle, req: Request, n: nat, i: nat)
    requires Complete(req) && Smooth(settings, o, 2) && o.toolReply == Some([])
    ensures
      var did, names := Executed(world, settings, o, req), ToolNames(Decided(o, o.intentForTools));
      var calls := Reported(world, o.ctx, did.start, n, did.reported);
      |calls| == |names| && (i < |names| ==> calls[i].tool == names[i])
  {
    var intent := LocalPlan(world, settings, o, req);
    PlannedTools(world, settings.allowWriteActions, intent, req, i);
    ReportedTool(world, o.ctx, ACTIONS, n, Planned(world, settings.allowWriteActions, intent, req), i);
  }

  lemma RequestAt(world: World, ctx: Context, t: nat, actions: seq<Action>, i: nat)
    requires i < |actions|
    ensures Requested(world, ctx, t, actions[..i + 1])
         == Requested(world, ctx, t, actions[..i]) + Requests(world, ctx.Done(t + i), actions[i])
  {
    assert actions[..i + 1][..i] == actions[..i];
  }
}
