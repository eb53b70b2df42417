/** MagicianNode: the lifecycle, heartbeat and task-result conventions shared
    by every magician node, and the pieces of `execute` that the Business,
    Developer and Job magicians have in common (reading the request, the
    success/failure envelope, the exception texts). Clocks are integer
    microseconds supplied by the caller. */
module MagicianBase {
  import opened Common
  import opened Values
  import opened Models
  import Text
  import Config

  /** The node's lifecycle status string. */
  datatype Lifecycle = Initialized | Ready | ShutDown {
    function Value(): string {
      match this
      case Initialized => "initialized"
      case Ready => "ready"
      case ShutDown => "shutdown"
    }
  }

  /** The state a magician node keeps. `webhookUrl` is fixed when the node is
      built; `tasksExecuted` counts the tasks that completed successfully. */
  datatype Node = Node(
    nodeId: string,
    config: map<string, Value>,
    status: Lifecycle,
    lastHeartbeat: Option<int>,
    tasksExecuted: nat,
    webhookUrl: Value)

  /** A return value together with the node state after the call. */
  datatype Reply<T> = Reply(value: T, node: Node)

  /** The webhook address: the `webhook.url` setting, or the local default on
      the node's own port. */
  function WebhookUrl(cm: Config.ConfigManager, env: map<string, string>, port: string): (r: Value)
    ensures Config.EnvKey("webhook.url") in env ==> r == Str(env[Config.EnvKey("webhook.url")])
    ensures Config.EnvKey("webhook.url") !in env && Config.Walk(cm.config, Config.Segments("webhook.url")).None? ==>
              r == Str("http://localhost:" + port + "/webhook")
    ensures Config.EnvKey("webhook.url") !in env && Config.Walk(cm.config, Config.Segments("webhook.url")).Some? ==>
              r == Config.Walk(cm.config, Config.Segments("webhook.url")).value
  {
    Config.Get(cm, env, "webhook.url", Str("http://localhost:" + port + "/webhook"))
  }

  /** The webhook address as every service reads it: from the fresh
      `ConfigManager()` it builds, which holds no file settings, so only the
      environment can override the local default. */
  function ServiceWebhookUrl(env: map<string, string>, port: string): (r: Value)
    ensures Config.EnvKey("webhook.url") in env ==> r == Str(env[Config.EnvKey("webhook.url")])
    ensures Config.EnvKey("webhook.url") !in env ==> r == Str("http://localhost:" + port + "/webhook")
  {
    WebhookUrl(Config.ConfigManager(map[]), env, port)
  }

  /** The base constructor: status "initialized", no heartbeat yet, and an
      empty configuration when none (or an empty one) is given. */
  function NewNode(nodeId: string, config: Option<map<string, Value>>, webhookUrl: Value): (n: Node)
    ensures n.nodeId == nodeId && n.webhookUrl == webhookUrl
    ensures n.status == Initialized && n.lastHeartbeat == None && n.tasksExecuted == 0
    ensures config.None? ==> n.config == map[]
    ensures config.Some? ==> n.config == config.value
  {
    Node(nodeId, config.GetOr(map[]), Initialized, None, 0, webhookUrl)
  }

  /** What `heartbeat` returns. */
  datatype HeartbeatReport = HeartbeatReport(nodeId: string, timestamp: int, status: string)

  /** `heartbeat`: records the time and reports id and status; nothing else changes. */
  function Heartbeat(n: Node, now: int): (r: Reply<HeartbeatReport>)
    ensures r.value.nodeId == n.nodeId && r.value.timestamp == now
    ensures r.value.status == n.status.Value()
    ensures r.node.lastHeartbeat == Some(now)
    ensures r.node == n.(lastHeartbeat := Some(now))
  {
    Reply(HeartbeatReport(n.nodeId, now, n.status.Value()), n.(lastHeartbeat := Some(now)))
  }

  /** `initialize` of every magician: merges the configuration (new keys win),
      becomes "ready" and reports success. */
  function Initialize(n: Node, config: map<string, Value>): (r: Reply<bool>)
    ensures r.value
    ensures r.node.status == Ready
    ensures r.node.config.Keys == n.config.Keys + config.Keys
    ensures forall k :: k in config ==> r.node.config[k] == config[k]
    ensures forall k :: k in n.config && k !in config ==> r.node.config[k] == n.config[k]
    ensures r.node.nodeId == n.nodeId && r.node.tasksExecuted == n.tasksExecuted
    ensures r.node.lastHeartbeat == n.lastHeartbeat && r.node.webhookUrl == n.webhookUrl
  {
    Reply(true, n.(config := n.config + config, status := Ready))
  }

  /** `shutdown` of every magician: becomes "shutdown" and reports success. */
  function Shutdown(n: Node): (r: Reply<bool>)
    ensures r.value
    ensures r.node.status == ShutDown
    ensures r.node == n.(status := ShutDown)
  {
    Reply(true, n.(status := ShutDown))
  }

  /** `str(v)` of a scalar: `None`, `True`/`False`, decimal integers, strings
      as they are. Lists and dicts have no rendering here. */
  function Display(v: Value): (r: Option<string>)
    ensures r.Some? <==> !v.List? && !v.Obj?
    ensures v.Null? ==> r == Some("None")
    ensures v == Bool(true) ==> r == Some("True")
    ensures v == Bool(false) ==> r == Some("False")
    ensures v.Str? ==> r == Some(v.s)
    ensures v.Int? && v.i >= 0 ==> r == Some(Text.NatToString(v.i))
    ensures v.Int? && v.i < 0 ==> r == Some("-" + Text.NatToString(-v.i))
  {
    match v
    case Null => Some("None")
    case Bool(b) => Some(if b then "True" else "False")
    case Int(i) => Some(if i < 0 then "-" + Text.NatToString(-i) else Text.NatToString(i))
    case Str(s) => Some(s)
    case List(_) => None
    case Obj(_) => None
  }

  /** The exceptions `execute` turns into a failure result. */
  datatype Fault =
      // `ValueError` raised for an action the node does not know
    | UnknownAction(action: Value)
      // `AttributeError` from calling a method the value's type lacks
    | NoAttribute(typeName: string, attribute: string)
      // `TypeError` from `len` on a value without a length
    | NoLen(typeName: string)
  {
    /** `str(e)` of the exception, as CPython words it. The text of an
        unknown action that is a list or a dict is not modelled. */
    function Message(): (r: Option<string>)
      ensures UnknownAction? && Display(action).Some? ==> r == Some("Unknown action: " + Display(action).value)
      ensures NoAttribute? ==> r == Some("'" + typeName + "' object has no attribute '" + attribute + "'")
      ensures NoLen? ==> r == Some("object of type '" + typeName + "' has no len()")
    {
      match this
      case UnknownAction(a) =>
        if Display(a).Some? then Some("Unknown action: " + Display(a).value) else None
      case NoAttribute(t, attr) => Some("'" + t + "' object has no attribute '" + attr + "'")
      case NoLen(t) => Some("object of type '" + t + "' has no len()")
    }
  }

  /** The dictionary `execute` returns: the request's task id, "success" with
      the handler's result or "failure" with the exception. */
  datatype ExecResult<O> = ExecResult(taskId: Value, status: TaskStatus, result: Option<O>, error: Option<Fault>)

  /** The result contract every magician promises: the status is success,
      failure or pending, and a failure carries an error. */
  predicate WellFormed<O>(r: ExecResult<O>) {
    && (r.status == Success || r.status == Failure || r.status == Pending)
    && (r.status == Failure ==> r.error.Some?)
  }

  /** `task.get('task_id', 'unknown')`. */
  function TaskIdOf(request: map<string, Value>): Value {
    Lookup(request, "task_id", Str("unknown"))
  }

  /** `task.get('action', '')`. */
  function ActionOf(request: map<string, Value>): Value {
    Lookup(request, "action", Str(""))
  }

  /** `task.get('payload', {})`. */
  function PayloadOf(request: map<string, Value>): Value {
    Lookup(request, "payload", Obj(map[]))
  }

  /** The payload as a dictionary for its `.get` calls; any other value raises
      at the first `.get`. */
  function ReadPayload(payload: Value): (r: Result<map<string, Value>, Fault>)
    ensures payload.Obj? <==> r.Ok?
    ensures payload.Obj? ==> r.value == payload.fields
    ensures !payload.Obj? ==> r.error == NoAttribute(TypeName(payload), "get")
  {
    match payload
    case Obj(fields) => Ok(fields)
    case _ => Err(NoAttribute(TypeName(payload), "get"))
  }

  /** The common tail of `execute`: a handler that returned counts the task and
      answers "success" with its result; one that raised answers "failure"
      with the exception and leaves the node as it was. */
  function Complete<O>(n: Node, taskId: Value, handled: Result<O, Fault>): (r: Reply<ExecResult<O>>)
    ensures WellFormed(r.value)
    ensures r.value.taskId == taskId
    ensures r.value.status == Success <==> handled.Ok?
    ensures handled.Ok? ==> r.value.result == Some(handled.value) && r.value.error == None
    ensures handled.Ok? ==> r.node == n.(tasksExecuted := n.tasksExecuted + 1)
    ensures handled.Err? ==> r.value.status == Failure && r.value.error == Some(handled.error)
    ensures handled.Err? ==> r.value.result == None && r.node == n
  {
    match handled
    case Ok(out) => Reply(ExecResult(taskId, Success, Some(out), None), n.(tasksExecuted := n.tasksExecuted + 1))
    case Err(e) => Reply(ExecResult(taskId, Failure, None, Some(e)), n)
  }

  /** What `healthcheck` reports apart from wall-clock figures. */
  datatype HealthReport = HealthReport(status: HealthStatus, tasksExecuted: nat)
}
