/** BusinessMagician: business formation, planning, market research and
    funding. Only `validate-business-idea` computes anything from its input;
    the other handlers return fixed documents, whose contents are not
    modelled, after reading (and so type-checking) their payload fields. */
module BusinessMagician {
  import opened Common
  import opened Values
  import opened Models
  import Text
  import Config
  import opened MagicianBase

  const DefaultNodeId: string := "business-magician-01"
  const Port: string := "8001"

  /** The actions this node accepts. */
  const Actions: set<string> :=
    {"validate-business-idea", "create-business-plan", "analyze-market", "find-funding", "register-business"}

  /** The accessibility keywords looked for in a lower-cased idea. */
  const Keywords: seq<string> := ["deaf", "asl", "accessibility", "inclusive"]

  const WellDescribed: string := "Idea is well-described"
  const NeedsDetail: string := "Idea needs more detail"
  const TargetIdentified: string := "Target market identified"
  const TargetUndefined: string := "Target market needs definition"
  const AccessibilityPraise: string := "Excellent focus on accessibility and Deaf community"
  const NextSteps: seq<string> :=
    ["Create detailed business plan", "Conduct market research", "Identify funding sources"]

  /** What a handler returns. The score is in tenths (0.3 is 3). */
  datatype Output =
    | IdeaValidation(scoreTenths: nat, feedback: seq<string>, nextSteps: seq<string>)
    | BusinessPlan
    | MarketAnalysis
    | FundingOptions
    | RegistrationGuidance

  /** The constructor. The webhook address comes from the environment, or is
      the local default on this node's port. */
  function New(nodeId: string, config: Option<map<string, Value>>, env: map<string, string>): (n: Node)
    ensures n.nodeId == nodeId && n.status == Initialized && n.tasksExecuted == 0 && n.lastHeartbeat == None
    ensures Config.EnvKey("webhook.url") in env ==> n.webhookUrl == Str(env[Config.EnvKey("webhook.url")])
    ensures Config.EnvKey("webhook.url") !in env ==> n.webhookUrl == Str("http://localhost:" + Port + "/webhook")
  {
    NewNode(nodeId, config, ServiceWebhookUrl(env, Port))
  }

  /** The constructor called with no arguments: the default node id and no
      configuration. */
  function NewDefault(env: map<string, string>): (n: Node)
    ensures n.nodeId == "business-magician-01"
    ensures n.config == map[] && n.status == Initialized && n.tasksExecuted == 0
    ensures n.webhookUrl == ServiceWebhookUrl(env, Port)
  {
    New(DefaultNodeId, None, env)
  }

  /** `len(v)`, which raises for values without a length. */
  function Length(v: Value): (r: Result<nat, Fault>)
    ensures r.Ok? <==> v.Str? || v.List? || v.Obj?
    ensures v.Str? ==> r == Ok(|v.s|)
    ensures r.Err? ==> r.error == NoLen(TypeName(v))
  {
    match v
    case Str(s) => Ok(|s|)
    case List(items) => Ok(|items|)
    case Obj(fields) => Ok(|fields|)
    case _ => Err(NoLen(TypeName(v)))
  }

  /** Some keyword occurs in `lowered`, trying the keywords from `i` on. */
  predicate AnyKeywordFrom(lowered: string, i: nat)
    decreases |Keywords| - i
  {
    i < |Keywords| && (Text.Contains(lowered, Keywords[i]) || AnyKeywordFrom(lowered, i + 1))
  }

  /** `any(keyword in idea.lower() for keyword in [...])`. */
  predicate MentionsAccessibility(idea: string) {
    AnyKeywordFrom(Text.Lower(idea), 0)
  }

  /** The idea mentions accessibility exactly when one of the keywords occurs in
      some window of the lower-cased idea. */
  lemma {:induction false} MentionsAccessibilityIff(idea: string)
    ensures MentionsAccessibility(idea) <==>
              exists k, i :: 0 <= k < |Keywords| && Text.OccursAt(Text.Lower(idea), Keywords[k], i)
  {
    var lowered := Text.Lower(idea);
    forall k | 0 <= k < |Keywords|
      ensures Text.Contains(lowered, Keywords[k]) <==> exists i :: Text.OccursAt(lowered, Keywords[k], i)
    {
      Text.ContainsIffOccurs(lowered, Keywords[k]);
    }
    AnyKeywordFromIff(lowered, 0);
  }

  /** Unrolling the search over the keywords. */
  lemma {:induction false} AnyKeywordFromIff(lowered: string, i: nat)
    ensures AnyKeywordFrom(lowered, i) <==> exists k :: i <= k < |Keywords| && Text.Contains(lowered, Keywords[k])
    decreases |Keywords| - i
  {
    if i < |Keywords| {
      AnyKeywordFromIff(lowered, i + 1);
      if exists k :: i <= k < |Keywords| && Text.Contains(lowered, Keywords[k]) {
        var k :| i <= k < |Keywords| && Text.Contains(lowered, Keywords[k]);
        if k > i {
          assert i + 1 <= k < |Keywords| && Text.Contains(lowered, Keywords[k]);
        }
      }
    }
  }

  /** `_validate_business_idea`. The idea must be a string: `len` raises for
      values without a length and `.lower()` for lists and dicts. */
  function ValidateIdea(payload: Value): (r: Result<Output, Fault>)
    ensures !payload.Obj? ==> r == Err(NoAttribute(TypeName(payload), "get"))
    ensures payload.Obj? ==>
              var idea := Lookup(payload.fields, "idea", Str(""));
              && (r.Ok? <==> idea.Str?)
              && (idea.Null? || idea.Bool? || idea.Int? ==> r == Err(NoLen(TypeName(idea))))
              && (idea.List? || idea.Obj? ==> r == Err(NoAttribute(TypeName(idea), "lower")))
    ensures r.Ok? ==> r.value.IdeaValidation? && r.value.scoreTenths <= 10 && r.value.nextSteps == NextSteps
    ensures r.Ok? ==> 2 <= |r.value.feedback| <= 3
    ensures r.Ok? ==>
              var idea := Lookup(payload.fields, "idea", Str("")).s;
              var target := Lookup(payload.fields, "target_market", Str(""));
              && r.value.feedback[0] == (if |idea| > 50 then WellDescribed else NeedsDetail)
              && r.value.feedback[1] == (if Truthy(target) then TargetIdentified else TargetUndefined)
              && (|r.value.feedback| == 3 <==> MentionsAccessibility(idea))
              && (|r.value.feedback| == 3 ==> r.value.feedback[2] == AccessibilityPraise)
  {
    var fields :- ReadPayload(payload);
    var idea := Lookup(fields, "idea", Str(""));
    var target := Lookup(fields, "target_market", Str(""));
    var length :- Length(idea);
    if !idea.Str? then Err(NoAttribute(TypeName(idea), "lower"))
    else
      var described := length > 50;
      var targeted := Truthy(target);
      var accessible := MentionsAccessibility(idea.s);
      var score := (if described then 3 else 0) + (if targeted then 3 else 0) + (if accessible then 4 else 0);
      var feedback := [if described then WellDescribed else NeedsDetail]
                      + [if targeted then TargetIdentified else TargetUndefined]
                      + (if accessible then [AccessibilityPraise] else []);
      Ok(IdeaValidation(if score < 10 then score else 10, feedback, NextSteps))
  }

  /** The score is the sum of the positive findings the feedback reports:
      three tenths each for a well-described idea and an identified target
      market, four for the accessibility focus. */
  lemma ScoreMatchesFeedback(payload: Value)
    requires ValidateIdea(payload).Ok?
    ensures var v := ValidateIdea(payload).value;
            v.scoreTenths ==
              (if v.feedback[0] == WellDescribed then 3 else 0)
              + (if v.feedback[1] == TargetIdentified then 3 else 0)
              + (if |v.feedback| == 3 then 4 else 0)
  {
  }

  /** A full score needs all three findings. */
  lemma FullScoreNeedsAllFindings(payload: Value)
    requires ValidateIdea(payload).Ok?
    ensures ValidateIdea(payload).value.scoreTenths == 10 <==>
              ValidateIdea(payload).value.feedback == [WellDescribed, TargetIdentified, AccessibilityPraise]
  {
  }

  /** The action is one this node knows. */
  predicate Known(action: Value) {
    action.Str? && action.s in Actions
  }

  /** The handler for `action` returns instead of raising: every known action
      but `create-business-plan` reads its payload with `.get`, and the idea
      validation also needs a string idea. */
  predicate Accepts(action: Value, payload: Value) {
    && Known(action)
    && (action != Str("create-business-plan") ==> payload.Obj?)
    && (action == Str("validate-business-idea") ==> Lookup(payload.fields, "idea", Str("")).Str?)
  }

  /** The dispatch of `execute`: the handler's result, or the exception it or
      the dispatch raised. */
  function Handle(action: Value, payload: Value): (r: Result<Output, Fault>)
    ensures r.Ok? <==> Accepts(action, payload)
    ensures !Known(action) ==> r == Err(UnknownAction(action))
    ensures Known(action) && action != Str("create-business-plan") && !payload.Obj? ==>
              r == Err(NoAttribute(TypeName(payload), "get"))
    ensures action == Str("validate-business-idea") ==> r == ValidateIdea(payload)
    ensures action == Str("create-business-plan") ==> r == Ok(BusinessPlan)
    ensures action == Str("analyze-market") && payload.Obj? ==> r == Ok(MarketAnalysis)
    ensures action == Str("find-funding") && payload.Obj? ==> r == Ok(FundingOptions)
    ensures action == Str("register-business") && payload.Obj? ==> r == Ok(RegistrationGuidance)
  {
    if action == Str("validate-business-idea") then ValidateIdea(payload)
    else if action == Str("create-business-plan") then Ok(BusinessPlan)
    else if action == Str("analyze-market") then
      var _ :- ReadPayload(payload);
      Ok(MarketAnalysis)
    else if action == Str("find-funding") then
      var _ :- ReadPayload(payload);
      Ok(FundingOptions)
    else if action == Str("register-business") then
      var _ :- ReadPayload(payload);
      Ok(RegistrationGuidance)
    else Err(UnknownAction(action))
  }

  /** `execute`: echoes the request's task id, succeeds exactly when the
      handler returns, and counts only successful tasks. */
  function Execute(n: Node, request: map<string, Value>): (r: Reply<ExecResult<Output>>)
    ensures WellFormed(r.value)
    ensures r.value.taskId == Lookup(request, "task_id", Str("unknown"))
    ensures r.value.status == Success <==> Accepts(ActionOf(request), PayloadOf(request))
    ensures r.value.status == Failure <==> !Accepts(ActionOf(request), PayloadOf(request))
    ensures !Known(ActionOf(request)) ==>
              r.value.error == Some(UnknownAction(ActionOf(request))) && r.node == n
    ensures r.node.tasksExecuted == n.tasksExecuted + (if r.value.status == Success then 1 else 0)
    ensures r.node == n.(tasksExecuted := r.node.tasksExecuted)
    ensures Handle(ActionOf(request), PayloadOf(request)).Ok? ==>
              r.value.result == Some(Handle(ActionOf(request), PayloadOf(request)).value)
    ensures Handle(ActionOf(request), PayloadOf(request)).Err? ==>
              r.value.result == None && r.value.error == Some(Handle(ActionOf(request), PayloadOf(request)).error)
  {
    Complete(n, TaskIdOf(request), Handle(ActionOf(request), PayloadOf(request)))
  }

  /** An unknown string action fails with "Unknown action: <action>". */
  lemma UnknownActionMessage(n: Node, request: map<string, Value>)
    requires "action" in request && request["action"].Str? && request["action"].s !in Actions
    ensures Execute(n, request).value.status == Failure
    ensures Execute(n, request).value.error.value.Message() == Some("Unknown action: " + request["action"].s)
    ensures Execute(n, request).node.tasksExecuted == n.tasksExecuted
  {
  }

  /** `healthcheck`: healthy when ready, degraded before initialisation,
      unhealthy after shutdown. */
  function Healthcheck(n: Node): (r: HealthReport)
    ensures r.status == Healthy <==> n.status == Ready
    ensures r.status == Degraded <==> n.status == Initialized
    ensures r.status == Unhealthy <==> n.status == ShutDown
    ensures r.tasksExecuted == n.tasksExecuted
  {
    HealthReport(
      if n.status == Ready then Healthy else if n.status == Initialized then Degraded else Unhealthy,
      n.tasksExecuted)
  }

  /** The lifecycle seen through the health check: new nodes are degraded,
      initialised ones healthy, shut-down ones unhealthy. */
  lemma LifecycleHealth(nodeId: string, config: Option<map<string, Value>>,
                        env: map<string, string>, settings: map<string, Value>)
    ensures Healthcheck(New(nodeId, config, env)).status == Degraded
    ensures Healthcheck(Initialize(New(nodeId, config, env), settings).node).status == Healthy
    ensures Healthcheck(Shutdown(Initialize(New(nodeId, config, env), settings).node).node).status == Unhealthy
  {
  }
}
