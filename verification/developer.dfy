/** DeveloperMagician: website and API scaffolding, accessibility review, code
    generation and debugging help. Every handler reads its payload with
    `.get`; apart from the accessibility score of `create-website` and the
    language echoed by `generate-code`, the documents returned are fixed and
    their contents are not modelled. */
module DeveloperMagician {
  import opened Common
  import opened Values
  import opened Models
  import Config
  import opened MagicianBase

  const DefaultNodeId: string := "developer-magician-01"
  const Port: string := "8003"

  /** The actions this node accepts. */
  const Actions: set<string> :=
    {"create-website", "validate-accessibility", "generate-code", "debug-issue", "create-api"}

  /** What a handler returns. Scores are in tenths (10.0 is 100). */
  datatype Output =
    | Website(accessibilityScoreTenths: nat)
    | AccessibilityReport
    | GeneratedCode(language: Value)
    | DebugAdvice
    | ApiScaffold

  /** The constructor. The webhook address comes from the environment, or is
      the local default on this node's port. */
  function New(nodeId: string, config: Option<map<string, Value>>, env: map<string, string>): (n: Node)
    ensures n.nodeId == nodeId && n.status == Initialized && n.tasksExecuted == 0 && n.lastHeartbeat == None
    ensures Config.EnvKey("webhook.url") in env ==> n.webhookUrl == Str(env[Config.EnvKey("webhook.url")])
    ensures Config.EnvKey("webhook.url") !in env ==> n.webhookUrl == Str("http://localhost:" + Port + "/webhook")
  {
    NewNode(nodeId, config, ServiceWebhookUrl(env, Port))
  }

  /** The constructor called with no arguments: the default node id and no
      configuration. */
  function NewDefault(env: map<string, string>): (n: Node)
    ensures n.nodeId == "developer-magician-01"
    ensures n.config == map[] && n.status == Initialized && n.tasksExecuted == 0
    ensures n.webhookUrl == ServiceWebhookUrl(env, Port)
  {
    New(DefaultNodeId, None, env)
  }

  /** `_create_website`: full marks unless `asl_first` is given and falsy. */
  function CreateWebsite(payload: Value): (r: Result<Output, Fault>)
    ensures r.Ok? <==> payload.Obj?
    ensures r.Ok? ==> r.value.Website?
    ensures r.Ok? ==> (r.value.accessibilityScoreTenths == 100 <==> Truthy(Lookup(payload.fields, "asl_first", Bool(true))))
    ensures r.Ok? ==> (r.value.accessibilityScoreTenths == 75 <==> !Truthy(Lookup(payload.fields, "asl_first", Bool(true))))
    ensures r.Ok? && "asl_first" !in payload.fields ==> r.value.accessibilityScoreTenths == 100
  {
    var fields :- ReadPayload(payload);
    var aslFirst := Lookup(fields, "asl_first", Bool(true));
    Ok(Website(if Truthy(aslFirst) then 100 else 75))
  }

  /** `_generate_code`: reports the requested language, Python by default. */
  function GenerateCode(payload: Value): (r: Result<Output, Fault>)
    ensures r.Ok? <==> payload.Obj?
    ensures r.Ok? ==> r.value.GeneratedCode?
    ensures r.Ok? && "language" in payload.fields ==> r.value.language == payload.fields["language"]
    ensures r.Ok? && "language" !in payload.fields ==> r.value.language == Str("python")
  {
    var fields :- ReadPayload(payload);
    Ok(GeneratedCode(Lookup(fields, "language", Str("python"))))
  }

  /** The action is one this node knows. */
  predicate Known(action: Value) {
    action.Str? && action.s in Actions
  }

  /** The dispatch of `execute`: the handler's result, or the exception it or
      the dispatch raised. */
  function Handle(action: Value, payload: Value): (r: Result<Output, Fault>)
    ensures r.Ok? <==> Known(action) && payload.Obj?
    ensures !Known(action) ==> r == Err(UnknownAction(action))
    ensures Known(action) && !payload.Obj? ==> r == Err(NoAttribute(TypeName(payload), "get"))
    ensures action == Str("create-website") ==> r == CreateWebsite(payload)
    ensures action == Str("generate-code") ==> r == GenerateCode(payload)
    ensures action == Str("validate-accessibility") && payload.Obj? ==> r == Ok(AccessibilityReport)
    ensures action == Str("debug-issue") && payload.Obj? ==> r == Ok(DebugAdvice)
    ensures action == Str("create-api") && payload.Obj? ==> r == Ok(ApiScaffold)
  {
    if action == Str("create-website") then CreateWebsite(payload)
    else if action == Str("validate-accessibility") then
      var _ :- ReadPayload(payload);
      Ok(AccessibilityReport)
    else if action == Str("generate-code") then GenerateCode(payload)
    else if action == Str("debug-issue") then
      var _ :- ReadPayload(payload);
      Ok(DebugAdvice)
    else if action == Str("create-api") then
      var _ :- ReadPayload(payload);
      Ok(ApiScaffold)
    else Err(UnknownAction(action))
  }

  /** `execute`: echoes the request's task id, succeeds exactly for a known
      action with a dictionary payload, and counts only successful tasks. */
  function Execute(n: Node, request: map<string, Value>): (r: Reply<ExecResult<Output>>)
    ensures WellFormed(r.value)
    ensures r.value.taskId == Lookup(request, "task_id", Str("unknown"))
    ensures r.value.status == Success <==> Known(ActionOf(request)) && PayloadOf(request).Obj?
    ensures r.value.status == Failure <==> !(Known(ActionOf(request)) && PayloadOf(request).Obj?)
    ensures !Known(ActionOf(request)) ==>
              r.value.error == Some(UnknownAction(ActionOf(request))) && r.node == n
    ensures r.node.tasksExecuted == n.tasksExecuted + (if r.value.status == Success then 1 else 0)
    ensures r.node == n.(tasksExecuted := r.node.tasksExecuted)
    ensures Handle(ActionOf(request), PayloadOf(request)).Ok? ==>
              r.value.result == Some(Handle(ActionOf(request), PayloadOf(request)).value)
    ensures Handle(ActionOf(request), PayloadOf(request)).Err? ==>
              r.value.result == None && r.value.error == Some(Handle(ActionOf(request), PayloadOf(request)).error)
  {
    Complete(n, TaskIdOf(request), Handle(ActionOf(request), PayloadOf(request)))
  }

  /** An unknown string action fails with "Unknown action: <action>". */
  lemma UnknownActionMessage(n: Node, request: map<string, Value>)
    requires "action" in request && request["action"].Str? && request["action"].s !in Actions
    ensures Execute(n, request).value.status == Failure
    ensures Execute(n, request).value.error.value.Message() == Some("Unknown action: " + request["action"].s)
    ensures Execute(n, request).node.tasksExecuted == n.tasksExecuted
  {
  }

  /** `healthcheck`: healthy when ready and degraded otherwise; this node never
      reports itself unhealthy. */
  function Healthcheck(n: Node): (r: HealthReport)
    ensures r.status == Healthy <==> n.status == Ready
    ensures r.status == Degraded <==> n.status != Ready
    ensures r.status != Unhealthy
    ensures r.tasksExecuted == n.tasksExecuted
  {
    HealthReport(if n.status == Ready then Healthy else Degraded, n.tasksExecuted)
  }
}
