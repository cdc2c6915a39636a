/** What the requests of one Execute can look like, for every reply of the model and every failure. */
module AgentTraces {
  import opened Prelude
  import opened Text
  import opened AgentTools
  import opened AgentEngine

  /** What the workflow of an Execute has sent without reporting it, and what is sent by the reported actions. */
  function SentUnreported(world: World, ctx: Context, did: Execution): seq<HttpCall> {
    Requested(world, ctx, ACTIONS, did.unreported)
  }

  function SentReported(world: World, ctx: Context, did: Execution): seq<HttpCall> {
    Requested(world, ctx, did.start, did.reported)
  }

  /** Everything that one Execute sends. */
  function Sent(world: World, ctx: Context, did: Execution): seq<HttpCall> {
    SentUnreported(world, ctx, did) + SentReported(world, ctx, did)
  }

  // ---------------------------------------------------------------- disabled writes

  /** The requests that are not updates. */
  function NoUpdates(sent: seq<HttpCall>): (r: seq<HttpCall>)
    ensures forall k | 0 <= k < |r| :: !r[k].Patch?
  {
    if sent == [] then []
    else NoUpdates(sent[..|sent| - 1]) + if sent[|sent| - 1].Patch? then [] else [sent[|sent| - 1]]
  }

  lemma {:induction false} NoUpdatesApart(a: seq<HttpCall>, b: seq<HttpCall>)
    ensures NoUpdates(a + b) == NoUpdates(a) + NoUpdates(b)
  {
    if b == [] {
      assert a + b == a;
    } else {
      assert (a + b)[..|a + b| - 1] == a + b[..|b| - 1];
      NoUpdatesApart(a, b[..|b| - 1]);
    }
  }

  /** `off` sends what `on` sends, but for an update, instead of which it only reports. */
  predicate Tamed(off: Action, on: Action) {
    if on.Send? && !on.call.Patch? then off == on else off.Tell?
  }

  predicate AllTamed(off: seq<Action>, on: seq<Action>) {
    |off| == |on| && forall i | 0 <= i < |off| :: Tamed(off[i], on[i])
  }

  lemma {:induction false} TamedSendsNoUpdates(world: World, ctx: Context, t: nat, off: seq<Action>, on: seq<Action>)
    requires AllTamed(off, on)
    ensures Requested(world, ctx, t, off) == NoUpdates(Requested(world, ctx, t, on))
  {
    if on != [] {
      var k := |on| - 1;
      TamedSendsNoUpdates(world, ctx, t, off[..k], on[..k]);
      var last := Requests(world, ctx.Done(t + k), on[k]);
      NoUpdatesApart(Requested(world, ctx, t, on[..k]), last);
      assert Tamed(off[k], on[k]);
      if last != [] {
        assert last[..0] == [];
      }
    }
  }

  lemma PlannedTamed(world: World, intent: Intent, req: Request)
    ensures AllTamed(Planned(world, false, intent, req), Planned(world, true, intent, req))
  {
  }

  lemma DispatchedTamed(world: World, req: Request, tcs: seq<ToolRequest>)
    ensures AllTamed(AllDispatched(world, false, req, tcs), AllDispatched(world, true, req, tcs))
  {
  }

  lemma ToolsTamed(world: World, settings: Settings, o: Oracle, req: Request)
    ensures
      var off := Tools(world, settings.(allowWriteActions := false), o, req);
      var on := Tools(world, settings.(allowWriteActions := true), o, req);
      off.Some? == on.Some? && (off.Some? ==> AllTamed(off.value, on.value))
  {
    var planner := PlannedIntent(settings, o);
    assert PlannedIntent(settings.(allowWriteActions := false), o) == planner;
    assert PlannedIntent(settings.(allowWriteActions := true), o) == planner;
    if planner.Some? {
      ToolActionsTamed(world, o, planner.value, req);
    }
  }

  lemma ToolActionsTamed(world: World, o: Oracle, planner: string, req: Request)
    ensures
      var off, on := ToolActions(world, false, o, planner, req), ToolActions(world, true, o, planner, req);
      off.Some? == on.Some? && (off.Some? ==> AllTamed(off.value, on.value))
  {
    PlannedTamed(world, SettledIntent(planner, Hears(o.ctx, AGAIN, o.intentForTools)), req);
    if o.toolReply.Some? {
      DispatchedTamed(world, req, o.toolReply.value);
    }
  }

  lemma RuledTamed(world: World, o: Oracle, t: nat, req: Request)
    ensures AllTamed(Ruled(world, false, o, t, req), Ruled(world, true, o, t, req))
  {
    if RuleIntent(o, t).Some? {
      PlannedTamed(world, RuleIntent(o, t).value, req);
    }
  }

  lemma ExecutedTamed(world: World, settings: Settings, o: Oracle, req: Request)
    ensures
      var on := Executed(world, settings.(allowWriteActions := true), o, req);
      var off := Executed(world, settings.(allowWriteActions := false), o, req);
      && AllTamed(off.unreported, on.unreported) && AllTamed(off.reported, on.reported) && off.start == on.start
      && off.finished == on.finished && off.rejected == on.rejected
  {
    ToolsTamed(world, settings, o, req);
    var off := Tools(world, settings.(allowWriteActions := false), o, req);
    var on := Tools(world, settings.(allowWriteActions := true), o, req);
    FallenBackTamed(world, settings, o, req, [], []);
    if on.Some? {
      FallenBackTamed(world, settings, o, req, off.value, on.value);
      SucceedAlike(world, settings, o, req);
    }
  }

  lemma SucceedAlike(world: World, settings: Settings, o: Oracle, req: Request)
    ensures WorkflowSucceeds(world, settings.(allowWriteActions := false), o, req)
         == WorkflowSucceeds(world, settings.(allowWriteActions := true), o, req)
  {
    ToolsTamed(world, settings, o, req);
  }

  lemma FallenBackTamed(world: World, settings: Settings, o: Oracle, req: Request, off: seq<Action>, on: seq<Action>)
    requires AllTamed(off, on)
    ensures
      var didOff := FallenBack(world, settings.(allowWriteActions := false), o, req, off);
      var didOn := FallenBack(world, settings.(allowWriteActions := true), o, req, on);
      && AllTamed(didOff.unreported, didOn.unreported) && AllTamed(didOff.reported, didOn.reported)
      && didOff.start == didOn.start && didOff.finished == didOn.finished && didOff.rejected == didOn.rejected
  {
    RuledTamed(world, o, FallingBack(|on|), req);
  }

  /** Switching write actions off removes the updates from what one Execute sends, on every path, and nothing else:
      no update is ever sent, and creation goes on. */
  lemma DisabledWritesRemoveExactlyTheUpdates(world: World, settings: Settings, o: Oracle, req: Request)
    ensures
      var on := Executed(world, settings.(allowWriteActions := true), o, req);
      var off := Executed(world, settings.(allowWriteActions := false), o, req);
      Sent(world, o.ctx, off) == NoUpdates(Sent(world, o.ctx, on)) && off.finished == on.finished && off.rejected == on.rejected
  {
    var on := Executed(world, settings.(allowWriteActions := true), o, req);
    var off := Executed(world, settings.(allowWriteActions := false), o, req);
    ExecutedTamed(world, settings, o, req);
    TamedSendsNoUpdates(world, o.ctx, ACTIONS, off.unreported, on.unreported);
    TamedSendsNoUpdates(world, o.ctx, on.start, off.reported, on.reported);
    NoUpdatesApart(SentUnreported(world, o.ctx, on), SentReported(world, o.ctx, on));
  }

  /** An update that the model's list asks for and that is blocked shows in the status. */
  lemma BlockedUpdateIsReported(world: World, ctx: Context, n: nat, req: Request, tcs: seq<ToolRequest>, i: nat)
    requires i < |tcs| && tcs[i].tool == UpdateShortlink
    ensures StatusOf(Reported(world, ctx, ACTIONS, n, AllDispatched(world, false, req, tcs))) == PartialFailed
  {
    var actions := AllDispatched(world, false, req, tcs);
    OwnReport(world, ctx, ACTIONS, n, actions, i);
    assert actions[i] == BlockedUpdate(tcs[i].arguments);
  }

  // ---------------------------------------------------------------- each call on its own

  /** Report i is that of action i at its moment, as the request after those before it; it hangs on no later action. */
  lemma {:induction false} OwnReport(world: World, ctx: Context, t: nat, n: nat, actions: seq<Action>, i: nat)
    requires i < |actions|
    ensures |Reported(world, ctx, t, n, actions)| == |actions|
    ensures Reported(world, ctx, t, n, actions)[i]
         == Perform(world, ctx.Done(t + i), n + |Requested(world, ctx, t, actions[..i])|, actions[i])
    ensures Requested(world, ctx, t, actions[..i + 1]) <= Requested(world, ctx, t, actions)
  {
    var k := |actions| - 1;
    ReportPerAction(world, ctx, t, n, actions);
    if i < k {
      var front := actions[..k];
      OwnReport(world, ctx, t, n, front, i);
      EarlierReport(world, ctx, t, n, actions, front, i);
    } else {
      assert actions[..i + 1] == actions;
      LastReport(world, ctx, t, n, actions, i);
    }
  }

  lemma LastReport(world: World, ctx: Context, t: nat, n: nat, actions: seq<Action>, k: nat)
    requires |actions| == k + 1
    ensures |Reported(world, ctx, t, n, actions)| == |actions|
    ensures Reported(world, ctx, t, n, actions)[k]
         == Perform(world, ctx.Done(t + k), n + |Requested(world, ctx, t, actions[..k])|, actions[k])
  {
    ReportPerAction(world, ctx, t, n, actions);
    ReportPerAction(world, ctx, t, n, actions[..k]);
  }

  lemma EarlierReport(world: World, ctx: Context, t: nat, n: nat, actions: seq<Action>, front: seq<Action>, i: nat)
    requires i < |front| == |actions| - 1 && front == actions[..|actions| - 1]
    ensures front[..i] == actions[..i] && front[..i + 1] == actions[..i + 1] && front[i] == actions[i]
    ensures |Reported(world, ctx, t, n, actions)| == |actions| && |Reported(world, ctx, t, n, front)| == |front|
    ensures Reported(world, ctx, t, n, actions)[i] == Reported(world, ctx, t, n, front)[i]
    ensures Requested(world, ctx, t, front) <= Requested(world, ctx, t, actions)
  {
    ReportPerAction(world, ctx, t, n, actions);
    ReportPerAction(world, ctx, t, n, front);
  }

  /** A field as a tool sees it: the string argument of this name if it is not blank, else the caller's value. */
  ghost predicate Argued(world: World, tc: ToolRequest, name: string, seen: string, original: string) {
    var args := world.decode(tc.arguments);
    if name in args && args[name].Words? && !Blank(args[name].text) then args[name] == Words(seen) else seen == original
  }

  /** Every call of the model's list works on the caller's request, each field overridden by that call's own argument
      for it, and by nothing else. */
  lemma SeesOwnArguments(world: World, allow: bool, req: Request, tcs: seq<ToolRequest>, i: nat)
    requires i < |tcs| && AllDispatched(world, allow, req, tcs)[i].Send?
    ensures
      var call, c := AllDispatched(world, allow, req, tcs)[i].call, req.context;
      match call
      case Post(who, longUrl) =>
        && tcs[i].tool.CreateShortlink? && who == Identity(req.requestId, req.operatorId, req.tenantId)
        && Argued(world, tcs[i], "longUrl", longUrl, c.longUrl)
      case Patch(who, key, code, longUrl, expireAt) =>
        && allow && tcs[i].tool.UpdateShortlink?
        && who == Identity(req.requestId, req.operatorId, req.tenantId) && key == req.idempotencyKey
        && (exists seen :: Argued(world, tcs[i], "shortCode", seen, c.shortUrl) && code == TrimSpace(seen) != "")
        && (exists seen :: Argued(world, tcs[i], "longUrl", seen, c.longUrl) && longUrl == Given(seen))
        && (exists seen :: Argued(world, tcs[i], "expireAt", seen, c.expireAt) && expireAt == Given(seen))
      case Get(code, startDate, endDate) =>
        && tcs[i].tool.QueryTraffic?
        && (exists seen :: Argued(world, tcs[i], "shortCode", seen, c.shortUrl) && code == TrimSpace(seen) != "")
        && (exists seen :: Argued(world, tcs[i], "from", seen, c.startDate) && startDate == TrimSpace(seen) && world.isDate(startDate))
        && (exists seen :: Argued(world, tcs[i], "to", seen, c.endDate) && endDate == TrimSpace(seen) && world.isDate(endDate))
  {
    var seen := SeenBy(world, req, tcs[i]).context;
    if tcs[i].tool.UpdateShortlink? {
      assert Argued(world, tcs[i], "shortCode", seen.shortUrl, req.context.shortUrl);
      assert Argued(world, tcs[i], "longUrl", seen.longUrl, req.context.longUrl);
      assert Argued(world, tcs[i], "expireAt", seen.expireAt, req.context.expireAt);
    } else if tcs[i].tool.QueryTraffic? {
      assert Argued(world, tcs[i], "shortCode", seen.shortUrl, req.context.shortUrl);
      assert Argued(world, tcs[i], "from", seen.startDate, req.context.startDate);
      assert Argued(world, tcs[i], "to", seen.endDate, req.context.endDate);
    }
  }

  // ---------------------------------------------------------------- one source of effects

  /** The workflow fails although its tools have run. */
  predicate Abandoned(world: World, settings: Settings, o: Oracle, req: Request) {
    Complete(req) && o.modelBuilds && Tools(world, settings, o, req).Some? && !WorkflowSucceeds(world, settings, o, req)
  }

  datatype Source = Nothing | ModelList(tcs: seq<ToolRequest>) | LocalPlan(intent: Intent) | Rules(moment: nat)

  function ActionsOf(world: World, allow: bool, o: Oracle, req: Request, source: Source): seq<Action> {
    match source
    case Nothing => []
    case ModelList(tcs) => AllDispatched(world, allow, req, tcs)
    case LocalPlan(intent) => Planned(world, allow, intent, req)
    case Rules(moment) => Ruled(world, allow, o, moment, req)
  }

  /** Everything that one Execute reports comes from one source; something else was done only if the tools were
      abandoned. */
  lemma OneSource(world: World, settings: Settings, o: Oracle, req: Request) returns (source: Source)
    ensures
      var did, allow := Executed(world, settings, o, req), settings.allowWriteActions;
      && did.reported == ActionsOf(world, allow, o, req, source)
      && did.unreported == (if Abandoned(world, settings, o, req) then Tools(world, settings, o, req).value else [])
      && (did.finished <==> source != Nothing)
    ensures source.ModelList? ==> o.toolReply == Some(source.tcs) && source.tcs != []
    ensures source.Rules? ==> settings.fallbackToRule
  {
    if !Complete(req) {
      source := Nothing;
    } else if o.modelBuilds && WorkflowSucceeds(world, settings, o, req) {
      var planner := PlannedIntent(settings, o).value;
      source := if o.toolReply.value == [] then LocalPlan(SettledIntent(planner, Hears(o.ctx, AGAIN, o.intentForTools)))
                else ModelList(o.toolReply.value);
    } else {
      var m := if o.modelBuilds && Tools(world, settings, o, req).Some? then |Tools(world, settings, o, req).value| else 0;
      source := if settings.fallbackToRule then Rules(FallingBack(m)) else Nothing;
    }
  }

  /** Why tools are abandoned: the step limit stops the runner before the verifier, or it finds the context done. */
  lemma AbandonedBecause(world: World, settings: Settings, o: Oracle, req: Request)
    requires Abandoned(world, settings, o, req)
    ensures settings.maxSteps == 3 || o.ctx.Done(LookAt(4, |Tools(world, settings, o, req).value|))
  {
  }

  /** Once the context is done, the rule engine's model call fails, and it sends nothing. */
  lemma DoneFallbackSendsNothing(world: World, settings: Settings, o: Oracle, req: Request, before: seq<Action>)
    requires o.ctx.Done(FallingBack(|before|))
    ensures SentReported(world, o.ctx, FallenBack(world, settings, o, req, before)) == []
  {
    var did := FallenBack(world, settings, o, req, before);
    assert RuleIntent(o, FallingBack(|before|)) == None;
    if settings.fallbackToRule {
      var only := Complain("intent.llm", req.query, Failed, "intent inference failed");
      assert did.reported == [only] && [only][..0] == [];
      assert Requested(world, o.ctx, did.start, [only][..0]) == [];
    }
  }

  /** With any step limit but 3, at most one of workflow and rule engine sends anything, whatever the model answers,
      whichever nodes fail, and whenever the context is done. */
  lemma OneGroupSends(world: World, settings: Settings, o: Oracle, req: Request)
    requires settings.maxSteps != 3
    ensures
      var did := Executed(world, settings, o, req);
      SentUnreported(world, o.ctx, did) == [] || SentReported(world, o.ctx, did) == []
  {
    if Abandoned(world, settings, o, req) {
      AbandonedBecause(world, settings, o, req);
      DoneFallbackSendsNothing(world, settings, o, req, Tools(world, settings, o, req).value);
    } else {
      var source := OneSource(world, settings, o, req);
    }
  }

  /** A model that has a link created, in time. */
  function CreatesInTime(): Oracle {
    Oracle(true, true, Context(100), {}, Some(Name(Create)), Some(Planner(Name(Create), [])), None, true,
           Some([]), None, None, Some(Name(Create)))
  }

  lemma CreatesOnce(world: World, ctx: Context, t: nat, req: Request)
    requires !ctx.Done(t)
    ensures Requested(world, ctx, t, [CreateAction(req)])
         == if world.builds(CreateAction(req).call) then [CreateAction(req).call] else []
  {
    var actions := [CreateAction(req)];
    assert actions[..0] == [];
  }

  lemma CreatesTools(world: World, settings: Settings, req: Request)
    requires settings.maxSteps == 3
    ensures Tools(world, settings, CreatesInTime(), req) == Some([CreateAction(req)])
    ensures !WorkflowSucceeds(world, settings, CreatesInTime(), req)
  {
    var o := CreatesInTime();
    NormalizeName(Create);
    assert PlannedIntent(settings, o) == Some(Name(Create));
  }

  /** With a step limit of 3 the runner stops after the tool node, with its tools run and the context in time: then
      falling back creates the link a second time, and reports one creation. */
  lemma CreatedTwice(world: World, settings: Settings, req: Request)
    requires Complete(req) && settings.fallbackToRule && settings.maxSteps == 3
    requires world.builds(CreateAction(req).call)
    ensures
      var did, ctx, post := Executed(world, settings, CreatesInTime(), req), CreatesInTime().ctx, CreateAction(req).call;
      SentUnreported(world, ctx, did) == [post] && SentReported(world, ctx, did) == [post] && |did.reported| == 1
  {
    var o := CreatesInTime();
    CreatesTools(world, settings, req);
    NormalizeName(Create);
    var did := Executed(world, settings, o, req);
    assert did.unreported == [CreateAction(req)] && did.reported == [CreateAction(req)];
    CreatesOnce(world, o.ctx, ACTIONS, req);
    CreatesOnce(world, o.ctx, did.start, req);
  }

  /** For a request that can be sent at all: workflow and rule engine can both send, for some model and some timing,
      if and only if falling back is configured and the step limit is 3. */
  lemma RepeatIff(world: World, settings: Settings, req: Request)
    requires Complete(req) && world.builds(CreateAction(req).call)
    ensures
      (exists o: Oracle ::
        var did := Executed(world, settings, o, req);
        SentUnreported(world, o.ctx, did) != [] && SentReported(world, o.ctx, did) != [])
      <==> settings.fallbackToRule && settings.maxSteps == 3
  {
    if settings.fallbackToRule && settings.maxSteps == 3 {
      CreatedTwice(world, settings, req);
    }
    forall o: Oracle | !(settings.fallbackToRule && settings.maxSteps == 3)
      ensures
        var did := Executed(world, settings, o, req);
        SentUnreported(world, o.ctx, did) == [] || SentReported(world, o.ctx, did) == []
    {
      if settings.maxSteps != 3 {
        OneGroupSends(world, settings, o, req);
      } else {
        var source := OneSource(world, settings, o, req);
      }
    }
  }

  /** A failed workflow whose runner does not look at the context has sent nothing, for every model and timing, if and
      only if the step limit is not 3. */
  lemma FailedWorkflowSentNothingIff(world: World, settings: Settings, req: Request)
    requires Complete(req) && world.builds(CreateAction(req).call)
    ensures (forall o: Oracle | o.looks == {} :: SentUnreported(world, o.ctx, Executed(world, settings, o, req)) == [])
       <==> settings.maxSteps != 3
  {
    if settings.maxSteps == 3 {
      var o := CreatesInTime();
      CreatesTools(world, settings, req);
      CreatesOnce(world, o.ctx, ACTIONS, req);
      assert Executed(world, settings, o, req).unreported == [CreateAction(req)];
    } else {
      forall o: Oracle | o.looks == {}
        ensures SentUnreported(world, o.ctx, Executed(world, settings, o, req)) == []
      {
        var source := OneSource(world, settings, o, req);
      }
    }
  }

  /** The reported intent is the one whose plan was followed, if the planner gave a known one. */
  lemma ReportedIntentIsPlanned(world: World, settings: Settings, o: Oracle, req: Request)
    requires Complete(req) && o.modelBuilds && WorkflowSucceeds(world, settings, o, req)
    requires NormalizeIntent(TrimSpace(PlannedIntent(settings, o).value)) != Unknown
    ensures
      var did := Executed(world, settings, o, req);
      && did.intent == NormalizeIntent(TrimSpace(PlannedIntent(settings, o).value))
      && (o.toolReply == Some([]) ==> did.reported == Planned(world, settings.allowWriteActions, did.intent, req))
  {
  }

  // ---------------------------------------------------------------- what is reported is what happened

  predicate WellAnswered(world: World, k: nat) {
    world.reply(k).Reply? && world.reply(k).status < 400
  }

  /** How many of the requests n, ..., n + count - 1 were answered well. */
  function Answered(world: World, n: nat, count: nat): nat {
    if count == 0 then 0 else Answered(world, n, count - 1) + if WellAnswered(world, n + count - 1) then 1 else 0
  }

  /** Nothing is called good without having been sent. */
  predicate Candid(actions: seq<Action>) {
    forall i | 0 <= i < |actions| :: actions[i].Tell? ==> actions[i].report.status != Good
  }

  lemma AnsweredNext(world: World, n: nat, m: nat, next: nat)
    requires next == m + 1
    ensures Answered(world, n, next) == Answered(world, n, m) + if WellAnswered(world, n + m) then 1 else 0
  {
  }

  lemma AnsweredOneMore(world: World, n: nat, before: seq<HttpCall>, sent: seq<HttpCall>)
    requires |sent| <= 1
    ensures Answered(world, n, |before + sent|)
         == Answered(world, n, |before|) + if sent != [] && WellAnswered(world, n + |before|) then 1 else 0
  {
    if sent != [] {
      AnsweredNext(world, n, |before|, |before + sent|);
    } else {
      assert before + sent == before;
    }
  }

  lemma GoodOneMore(reports: seq<ToolCall>, call: ToolCall)
    ensures GoodCalls(reports + [call]) == GoodCalls(reports) + if call.status == Good then 1 else 0
  {
    assert (reports + [call])[..|reports|] == reports;
  }

  lemma GoodMeansSent(world: World, done: bool, n: nat, action: Action)
    requires action.Tell? ==> action.report.status != Good
    ensures Perform(world, done, n, action).status == Good <==> Requests(world, done, action) != [] && WellAnswered(world, n)
  {
  }

  /** One more call, good exactly if its request was sent and answered well. */
  lemma GoodStep(world: World, n: nat, m: nat, done: bool, reports: seq<ToolCall>, before: seq<HttpCall>, action: Action)
    requires m == n + |before| && (action.Tell? ==> action.report.status != Good)
    requires GoodCalls(reports) == Answered(world, n, |before|)
    ensures GoodCalls(reports + [Perform(world, done, m, action)])
         == Answered(world, n, |before + Requests(world, done, action)|)
  {
    GoodMeansSent(world, done, m, action);
    GoodOneMore(reports, Perform(world, done, m, action));
    AnsweredOneMore(world, n, before, Requests(world, done, action));
  }

  /** As many good calls are reported as requests were answered well. */
  lemma {:induction false} GoodCallsWereAnswered(world: World, ctx: Context, t: nat, n: nat, actions: seq<Action>)
    requires Candid(actions)
    ensures GoodCalls(Reported(world, ctx, t, n, actions)) == Answered(world, n, |Requested(world, ctx, t, actions)|)
  {
    if actions != [] {
      var k := |actions| - 1;
      GoodCallsWereAnswered(world, ctx, t, n, actions[..k]);
      var before, reports := Requested(world, ctx, t, actions[..k]), Reported(world, ctx, t, n, actions[..k]);
      var m, done := n + |before|, ctx.Done(t + k);
      GoodStep(world, n, m, done, reports, before, actions[k]);
      assert Requested(world, ctx, t, actions) == before + Requests(world, done, actions[k]);
      assert Reported(world, ctx, t, n, actions) == reports + [Perform(world, done, m, actions[k])];
    }
  }

  lemma PlannedCandid(world: World, allow: bool, intent: Intent, req: Request)
    ensures Candid(Planned(world, allow, intent, req)) && Planned(world, allow, intent, req) != []
  {
  }

  lemma DispatchedCandid(world: World, allow: bool, req: Request, tcs: seq<ToolRequest>)
    ensures Candid(AllDispatched(world, allow, req, tcs))
  {
  }

  lemma ReportedAreCandid(world: World, settings: Settings, o: Oracle, req: Request)
    requires Executed(world, settings, o, req).finished
    ensures Candid(Executed(world, settings, o, req).reported) && Executed(world, settings, o, req).reported != []
  {
    var allow := settings.allowWriteActions;
    var source := OneSource(world, settings, o, req);
    match source {
      case ModelList(tcs) =>
        DispatchedCandid(world, allow, req, tcs);
      case LocalPlan(intent) =>
        PlannedCandid(world, allow, intent, req);
      case Rules(moment) =>
        if RuleIntent(o, moment).Some? {
          PlannedCandid(world, allow, RuleIntent(o, moment).value, req);
        }
    }
  }

  /** Every finished Execute reports at least one call, as many good ones as requests were answered well, and
      succeeds exactly when each of its reported calls was sent and answered well. */
  lemma ReportIsHonest(world: World, settings: Settings, o: Oracle, n: nat, req: Request)
    requires Executed(world, settings, o, req).finished
    ensures
      var did := Executed(world, settings, o, req);
      var calls := Reported(world, o.ctx, did.start, n, did.reported);
      var answered := Answered(world, n, |SentReported(world, o.ctx, did)|);
      && |calls| == |did.reported| > 0
      && GoodCalls(calls) == answered
      && (StatusOf(calls) == Succeeded <==> answered == |did.reported|)
  {
    var did := Executed(world, settings, o, req);
    ReportedAreCandid(world, settings, o, req);
    GoodCallsWereAnswered(world, o.ctx, did.start, n, did.reported);
    ReportPerAction(world, o.ctx, did.start, n, did.reported);
    SucceededMeansAllGood(Reported(world, o.ctx, did.start, n, did.reported));
  }

  lemma {:induction false} SucceededMeansAllGood(calls: seq<ToolCall>)
    ensures StatusOf(calls) == Succeeded <==> calls != [] && GoodCalls(calls) == |calls|
  {
    if calls != [] {
      SucceededMeansAllGood(calls[..|calls| - 1]);
    }
  }
}
