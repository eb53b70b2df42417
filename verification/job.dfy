/** JobMagician: hiring pipelines, job postings, candidate matching, skills
    assessment and interview scheduling. Every handler reads its payload with
    `.get` and returns a fixed document whose contents are not modelled. */
module JobMagician {
  import opened Common
  import opened Values
  import opened Models
  import Config
  import opened MagicianBase

  const DefaultNodeId: string := "job-magician-01"
  const Port: string := "8002"

  /** The actions this node accepts. */
  const Actions: set<string> :=
    {"setup-hiring-pipeline", "post-job", "match-candidates", "assess-skills", "schedule-interview"}

  /** What a handler returns. */
  datatype Output =
    | HiringPipeline
    | JobPosting
    | CandidateMatches
    | SkillsAssessment
    | InterviewSchedule

  /** The constructor. The webhook address comes from the environment, or is
      the local default on this node's port. */
  function New(nodeId: string, config: Option<map<string, Value>>, env: map<string, string>): (n: Node)
    ensures n.nodeId == nodeId && n.status == Initialized && n.tasksExecuted == 0 && n.lastHeartbeat == None
    ensures Config.EnvKey("webhook.url") in env ==> n.webhookUrl == Str(env[Config.EnvKey("webhook.url")])
    ensures Config.EnvKey("webhook.url") !in env ==> n.webhookUrl == Str("http://localhost:" + Port + "/webhook")
  {
    NewNode(nodeId, config, ServiceWebhookUrl(env, Port))
  }

  /** The constructor called with no arguments: the default node id and no
      configuration. */
  function NewDefault(env: map<string, string>): (n: Node)
    ensures n.nodeId == "job-magician-01"
    ensures n.config == map[] && n.status == Initialized && n.tasksExecuted == 0
    ensures n.webhookUrl == ServiceWebhookUrl(env, Port)
  {
    New(DefaultNodeId, None, env)
  }

  /** The action is one this node knows. */
  predicate Known(action: Value) {
    action.Str? && action.s in Actions
  }

  /** The dispatch of `execute`: the handler's result, or the exception it or
      the dispatch raised. */
  function Handle(action: Value, payload: Value): (r: Result<Output, Fault>)
    ensures r.Ok? <==> Known(action) && payload.Obj?
    ensures !Known(action) ==> r == Err(UnknownAction(action))
    ensures Known(action) && !payload.Obj? ==> r == Err(NoAttribute(TypeName(payload), "get"))
    ensures action == Str("setup-hiring-pipeline") && payload.Obj? ==> r == Ok(HiringPipeline)
    ensures action == Str("post-job") && payload.Obj? ==> r == Ok(JobPosting)
    ensures action == Str("match-candidates") && payload.Obj? ==> r == Ok(CandidateMatches)
    ensures action == Str("assess-skills") && payload.Obj? ==> r == Ok(SkillsAssessment)
    ensures action == Str("schedule-interview") && payload.Obj? ==> r == Ok(InterviewSchedule)
  {
    if !Known(action) then Err(UnknownAction(action))
    else
      var _ :- ReadPayload(payload);
      if action == Str("setup-hiring-pipeline") then Ok(HiringPipeline)
      else if action == Str("post-job") then Ok(JobPosting)
      else if action == Str("match-candidates") then Ok(CandidateMatches)
      else if action == Str("assess-skills") then Ok(SkillsAssessment)
      else Ok(InterviewSchedule)
  }

  /** `execute`: echoes the request's task id, succeeds exactly for a known
      action with a dictionary payload, and counts only successful tasks. */
  function Execute(n: Node, request: map<string, Value>): (r: Reply<ExecResult<Output>>)
    ensures WellFormed(r.value)
    ensures r.value.taskId == Lookup(request, "task_id", Str("unknown"))
    ensures r.value.status == Success <==> Known(ActionOf(request)) && PayloadOf(request).Obj?
    ensures r.value.status == Failure <==> !(Known(ActionOf(request)) && PayloadOf(request).Obj?)
    ensures !Known(ActionOf(request)) ==>
              r.value.error == Some(UnknownAction(ActionOf(request))) && r.node == n
    ensures r.node.tasksExecuted == n.tasksExecuted + (if r.value.status == Success then 1 else 0)
    ensures r.node == n.(tasksExecuted := r.node.tasksExecuted)
    ensures Handle(ActionOf(request), PayloadOf(request)).Ok? ==>
              r.value.result == Some(Handle(ActionOf(request), PayloadOf(request)).value)
    ensures Handle(ActionOf(request), PayloadOf(request)).Err? ==>
              r.value.result == None && r.value.error == Some(Handle(ActionOf(request), PayloadOf(request)).error)
  {
    Complete(n, TaskIdOf(request), Handle(ActionOf(request), PayloadOf(request)))
  }

  /** An unknown string action fails with "Unknown action: <action>". */
  lemma UnknownActionMessage(n: Node, request: map<string, Value>)
    requires "action" in request && request["action"].Str? && request["action"].s !in Actions
    ensures Execute(n, request).value.status == Failure
    ensures Execute(n, request).value.error.value.Message() == Some("Unknown action: " + request["action"].s)
    ensures Execute(n, request).node.tasksExecuted == n.tasksExecuted
  {
  }

  /** `healthcheck`: healthy when ready and degraded otherwise. */
  function Healthcheck(n: Node): (r: HealthReport)
    ensures r.status == Healthy <==> n.status == Ready
    ensures r.status == Degraded <==> n.status != Ready
    ensures r.status != Unhealthy
    ensures r.tasksExecuted == n.tasksExecuted
  {
    HealthReport(if n.status == Ready then Healthy else Degraded, n.tasksExecuted)
  }
}
