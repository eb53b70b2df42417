/** The shared data model of the back end: the closed status and node-kind
    enumerations, and the task, result, health and pathway records with their
    field defaults and constraints. Wall-clock fields (`created_at`,
    `started_at`, `completed_at`, `duration_ms`, `uptime_seconds`) are not part
    of the model. */
module Models {
  import opened Common
  import opened Values

  /** Task execution status; each constructor carries the string value it has
      as a `str` enum member. */
  datatype TaskStatus = Pending | InProgress | Success | Failure | Cancelled {

    function Value(): string {
      match this
      case Pending => "pending"
      case InProgress => "in_progress"
      case Success => "success"
      case Failure => "failure"
      case Cancelled => "cancelled"
    }
  }

  /** `TaskStatus(s)`: the member whose value is `s`, if any. */
  function ParseTaskStatus(s: string): (r: Option<TaskStatus>)
    ensures r.Some? ==> r.value.Value() == s
  {
    if s == "pending" then Some(Pending)
    else if s == "in_progress" then Some(InProgress)
    else if s == "success" then Some(Success)
    else if s == "failure" then Some(Failure)
    else if s == "cancelled" then Some(Cancelled)
    else None
  }

  datatype HealthStatus = Healthy | Degraded | Unhealthy {

    function Value(): string {
      match this
      case Healthy => "healthy"
      case Degraded => "degraded"
      case Unhealthy => "unhealthy"
    }
  }

  /** `HealthStatus(s)`. */
  function ParseHealthStatus(s: string): (r: Option<HealthStatus>)
    ensures r.Some? ==> r.value.Value() == s
  {
    if s == "healthy" then Some(Healthy)
    else if s == "degraded" then Some(Degraded)
    else if s == "unhealthy" then Some(Unhealthy)
    else None
  }

  /** The seven kinds of Magician node. */
  datatype MagicianType = Business | Job | Developer | Creative | Docuhand | Sync | Fibonrose {

    function Value(): string {
      match this
      case Business => "business"
      case Job => "job"
      case Developer => "developer"
      case Creative => "creative"
      case Docuhand => "docuhand"
      case Sync => "sync"
      case Fibonrose => "fibonrose"
    }
  }

  /** `MagicianType(s)`. */
  function ParseMagicianType(s: string): (r: Option<MagicianType>)
    ensures r.Some? ==> r.value.Value() == s
  {
    if s == "business" then Some(Business)
    else if s == "job" then Some(Job)
    else if s == "developer" then Some(Developer)
    else if s == "creative" then Some(Creative)
    else if s == "docuhand" then Some(Docuhand)
    else if s == "sync" then Some(Sync)
    else if s == "fibonrose" then Some(Fibonrose)
    else None
  }

  /** Each enumeration parses its own string values back to the same member,
      so distinct members have distinct values. */
  lemma EnumValuesRoundTrip()
    ensures forall t: TaskStatus :: ParseTaskStatus(t.Value()) == Some(t)
    ensures forall h: HealthStatus :: ParseHealthStatus(h.Value()) == Some(h)
    ensures forall m: MagicianType :: ParseMagicianType(m.Value()) == Some(m)
    ensures forall a: TaskStatus, b: TaskStatus :: a.Value() == b.Value() ==> a == b
    ensures forall a: HealthStatus, b: HealthStatus :: a.Value() == b.Value() ==> a == b
    ensures forall a: MagicianType, b: MagicianType :: a.Value() == b.Value() ==> a == b
  {
    forall t: TaskStatus ensures ParseTaskStatus(t.Value()) == Some(t) {
      match t
      case Pending => case InProgress => case Success => case Failure => case Cancelled =>
    }
    forall h: HealthStatus ensures ParseHealthStatus(h.Value()) == Some(h) {
      match h
      case Healthy => case Degraded => case Unhealthy =>
    }
    forall m: MagicianType ensures ParseMagicianType(m.Value()) == Some(m) {
      match m
      case Business => case Job => case Developer => case Creative =>
      case Docuhand => case Sync => case Fibonrose =>
    }
    forall a: TaskStatus, b: TaskStatus | a.Value() == b.Value() ensures a == b {
      assert Some(a) == ParseTaskStatus(a.Value()) == ParseTaskStatus(b.Value()) == Some(b);
    }
    forall a: HealthStatus, b: HealthStatus | a.Value() == b.Value() ensures a == b {
      assert Some(a) == ParseHealthStatus(a.Value()) == ParseHealthStatus(b.Value()) == Some(b);
    }
    forall a: MagicianType, b: MagicianType | a.Value() == b.Value() ensures a == b {
      assert Some(a) == ParseMagicianType(a.Value()) == ParseMagicianType(b.Value()) == Some(b);
    }
  }

  const DefaultPriority: int := 5
  const DefaultTimeout: int := 300

  /** A task priority: the field validator admits 1 through 10 only. */
  type Priority = p: int | 1 <= p <= 10 witness 5

  datatype Task = Task(
    taskId: string,
    magicianType: MagicianType,
    action: string,
    payload: map<string, Value>,
    context: map<string, Value>,
    priority: Priority,
    timeout: Option<int>)

  /** A priority outside 1..10 fails validation. */
  datatype ValidationError = PriorityOutOfRange(priority: int)

  /** Constructing a `Task` with every field given: validation rejects a
      priority outside 1..10 and accepts everything else unchanged. */
  function MakeTask(taskId: string, magicianType: MagicianType, action: string,
                    payload: map<string, Value>, context: map<string, Value>,
                    priority: int, timeout: Option<int>): (r: Result<Task, ValidationError>)
    ensures r.Ok? <==> 1 <= priority <= 10
    ensures r.Err? ==> r.error == PriorityOutOfRange(priority)
    ensures r.Ok? ==>
              && r.value.taskId == taskId && r.value.magicianType == magicianType
              && r.value.action == action && r.value.payload == payload
              && r.value.context == context && r.value.priority == priority
              && r.value.timeout == timeout
  {
    if 1 <= priority <= 10 then Ok(Task(taskId, magicianType, action, payload, context, priority, timeout))
    else Err(PriorityOutOfRange(priority))
  }

  /** Constructing a `Task` from its three required fields: the others take
      their defaults, and the defaults pass validation. */
  function NewTask(taskId: string, magicianType: MagicianType, action: string): (t: Task)
    ensures MakeTask(taskId, magicianType, action, map[], map[], DefaultPriority, Some(DefaultTimeout)) == Ok(t)
    ensures t.payload == map[] && t.context == map[]
    ensures t.priority == 5 && t.timeout == Some(300)
  {
    Task(taskId, magicianType, action, map[], map[], DefaultPriority, Some(DefaultTimeout))
  }

  datatype TaskResult = TaskResult(
    taskId: string,
    status: TaskStatus,
    result: Option<map<string, Value>>,
    error: Option<string>)

  /** A health check of one node; `lastHeartbeat` is a time in microseconds. */
  datatype HealthCheck = HealthCheck(
    nodeId: string,
    status: HealthStatus,
    lastHeartbeat: Option<int>)

  const DefaultRetryCount: int := 3

  datatype PathwayStep = PathwayStep(
    magician: MagicianType,
    action: string,
    condition: Option<string>,
    timeout: Option<int>,
    retryCount: int,
    onSuccess: Option<string>,
    onFailure: Option<string>)

  /** A step from its two required fields; the optional ones are absent and
      the retry count is 3. */
  function NewStep(magician: MagicianType, action: string): (s: PathwayStep)
    ensures s.magician == magician && s.action == action
    ensures s.condition == None && s.timeout == None
    ensures s.onSuccess == None && s.onFailure == None
    ensures s.retryCount == 3
  {
    PathwayStep(magician, action, None, None, DefaultRetryCount, None, None)
  }

  datatype Pathway = Pathway(
    pathwayId: string,
    name: string,
    description: Option<string>,
    steps: seq<PathwayStep>,
    parallel: bool)

  /** A pathway from its required fields: no description, sequential. */
  function NewPathway(pathwayId: string, name: string, steps: seq<PathwayStep>): (p: Pathway)
    ensures p.pathwayId == pathwayId && p.name == name && p.steps == steps
    ensures p.description == None
    ensures !p.parallel
  {
    Pathway(pathwayId, name, None, steps, false)
  }
}
