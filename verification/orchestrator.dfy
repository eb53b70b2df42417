/** MagicianOrchestrator: the node registry, the FIFO task queue, task
    execution bookkeeping and heartbeat-based health classification. Times are
    integers in microseconds supplied by the caller; the webhook call that a
    real execution would make is not part of the code and not modelled. */
module Orchestrator {
  import opened Common
  import opened Values
  import opened Models

  /** Heartbeats younger than 30 s are healthy, younger than 60 s degraded. */
  const HealthyAge: int := 30_000_000
  const DegradedAge: int := 60_000_000

  datatype NodeRecord = NodeRecord(
    nodeId: string,
    magicianType: MagicianType,
    webhookUrl: string,
    metadata: map<string, Value>,
    status: string,
    registeredAt: int,
    lastHeartbeat: Option<int>)

  /** The orchestrator's state. `order` lists the registered ids in insertion
      order, which is the iteration order of the registry dictionary. */
  datatype Orchestrator = Orchestrator(
    order: seq<string>,
    nodes: map<string, NodeRecord>,
    queue: seq<Task>,
    active: map<string, Task>,
    results: map<string, TaskResult>)

  /** A return value together with the orchestrator state after the call. */
  datatype Reply<T> = Reply(value: T, state: Orchestrator)

  predicate Distinct(s: seq<string>) {
    forall i, j :: 0 <= i < j < |s| ==> s[i] != s[j]
  }

  /** The registry invariant: `order` enumerates the registered ids once each,
      and every record is filed under its own id. */
  ghost predicate Valid(o: Orchestrator) {
    && Distinct(o.order)
    && (forall id :: id in o.nodes <==> id in o.order)
    && (forall id :: id in o.nodes ==> o.nodes[id].nodeId == id)
  }

  /** A freshly constructed orchestrator: nothing registered, nothing queued. */
  function Init(): (o: Orchestrator)
    ensures Valid(o)
    ensures |o.nodes| == 0 && |o.queue| == 0 && |o.active| == 0 && |o.results| == 0
  {
    Orchestrator([], map[], [], map[], map[])
  }

  /** `register_node`: always succeeds; the id now maps to an active record of
      the given type. Re-registering an id replaces its record in place. */
  function Register(o: Orchestrator, nodeId: string, magicianType: MagicianType, webhookUrl: string,
                    metadata: Option<map<string, Value>>, now: int): (r: Reply<bool>)
    requires Valid(o)
    ensures r.value
    ensures Valid(r.state)
    ensures nodeId in r.state.nodes
    ensures r.state.nodes[nodeId].magicianType == magicianType
    ensures r.state.nodes[nodeId].status == "active"
    ensures r.state.nodes[nodeId].webhookUrl == webhookUrl
    ensures r.state.nodes[nodeId].lastHeartbeat == Some(now)
    ensures r.state.nodes[nodeId].metadata == (if metadata.Some? then metadata.value else map[])
    ensures forall id :: id != nodeId ==> (id in r.state.nodes <==> id in o.nodes)
    ensures forall id :: id != nodeId && id in o.nodes ==> r.state.nodes[id] == o.nodes[id]
    ensures |r.state.order| == |o.order| + (if nodeId in o.nodes then 0 else 1)
    ensures nodeId in o.nodes ==> r.state.order == o.order
    ensures nodeId !in o.nodes ==> r.state.order == o.order + [nodeId]
    ensures r.state.queue == o.queue && r.state.active == o.active && r.state.results == o.results
  {
    var record := NodeRecord(nodeId, magicianType, webhookUrl, metadata.GetOr(map[]), "active", now, Some(now));
    var order := if nodeId in o.nodes then o.order else o.order + [nodeId];
    Reply(true, o.(order := order, nodes := o.nodes[nodeId := record]))
  }

  /** `s` without `x`, the rest in order. */
  function Without(s: seq<string>, x: string): (r: seq<string>)
    ensures forall y :: y in r <==> y in s && y != x
    ensures Distinct(s) ==> Distinct(r)
    ensures |r| <= |s|
    decreases |s|
  {
    if |s| == 0 then []
    else
      var rest := Without(s[1..], x);
      assert Distinct(s) ==> Distinct(s[1..]) && s[0] !in s[1..];
      if s[0] == x then rest else [s[0]] + rest
  }

  /** Removing an id that does not occur leaves the order as it was. */
  lemma {:induction false} WithoutAbsent(s: seq<string>, x: string)
    requires x !in s
    ensures Without(s, x) == s
    decreases |s|
  {
    if |s| > 0 {
      assert s[1..] + [] == s[1..];
      WithoutAbsent(s[1..], x);
      assert [s[0]] + s[1..] == s;
    }
  }

  /** Removing an id from a duplicate-free order removes exactly its position:
      the ids before and after it stay, in their order. */
  lemma {:induction false} WithoutAt(s: seq<string>, x: string, k: nat)
    requires Distinct(s) && k < |s| && s[k] == x
    ensures Without(s, x) == s[..k] + s[k + 1..]
    decreases k
  {
    assert Distinct(s[1..]);
    if k == 0 {
      assert x !in s[1..];
      WithoutAbsent(s[1..], x);
    } else {
      assert s[0] != x;
      assert s[1..][k - 1] == x;
      WithoutAt(s[1..], x, k - 1);
      assert [s[0]] + (s[1..][..k - 1] + s[1..][k..]) == s[..k] + s[k + 1..];
    }
  }

  /** `unregister_node`: removes a registered id and answers true; for an
      unknown id it answers false and changes nothing. */
  function Unregister(o: Orchestrator, nodeId: string): (r: Reply<bool>)
    requires Valid(o)
    ensures r.value <==> nodeId in o.nodes
    ensures Valid(r.state)
    ensures r.state.nodes == o.nodes - {nodeId}
    ensures !r.value ==> r.state == o
    ensures r.value ==> r.state.order == Without(o.order, nodeId)
    ensures r.state.queue == o.queue && r.state.active == o.active && r.state.results == o.results
  {
    if nodeId in o.nodes then
      Reply(true, o.(order := Without(o.order, nodeId), nodes := o.nodes - {nodeId}))
    else
      Reply(false, o)
  }

  /** Removing an id just appended to an order that lacked it restores the order. */
  lemma {:induction false} WithoutAppended(s: seq<string>, x: string)
    requires x !in s
    ensures Without(s + [x], x) == s
    decreases |s|
  {
    if |s| == 0 {
      assert [x][1..] == [];
    } else {
      assert (s + [x])[1..] == s[1..] + [x];
      WithoutAppended(s[1..], x);
      assert [s[0]] + s[1..] == s;
    }
  }

  /** Registering a new id and unregistering it again leaves the orchestrator
      exactly as it was. */
  lemma RegisterThenUnregister(o: Orchestrator, nodeId: string, t: MagicianType, url: string,
                               metadata: Option<map<string, Value>>, now: int)
    requires Valid(o)
    requires nodeId !in o.nodes
    ensures Unregister(Register(o, nodeId, t, url, metadata, now).state, nodeId).value
    ensures Unregister(Register(o, nodeId, t, url, metadata, now).state, nodeId).state == o
  {
    var registered := Register(o, nodeId, t, url, metadata, now).state;
    WithoutAppended(o.order, nodeId);
    assert registered.nodes - {nodeId} == o.nodes;
  }

  /** Unregistering the id at position `k` of the registration order leaves
      the other ids in their order, as deleting a dict key does. */
  lemma UnregisterKeepsOrder(o: Orchestrator, nodeId: string, k: nat)
    requires Valid(o) && k < |o.order| && o.order[k] == nodeId
    ensures Unregister(o, nodeId).state.order == o.order[..k] + o.order[k + 1..]
  {
    WithoutAt(o.order, nodeId, k);
  }

  /** The ids in `order` whose node has type `t`, in order. */
  function IdsOfType(order: seq<string>, nodes: map<string, NodeRecord>, t: MagicianType): (r: seq<string>)
    requires forall i :: 0 <= i < |order| ==> order[i] in nodes
    ensures forall id :: id in r <==> id in order && nodes[id].magicianType == t
    ensures Distinct(order) ==> Distinct(r)
    decreases |order|
  {
    if |order| == 0 then []
    else
      var rest := IdsOfType(order[1..], nodes, t);
      if nodes[order[0]].magicianType == t then [order[0]] + rest else rest
  }

  /** `get_nodes_by_type`: exactly the registered records of type `t`, each once,
      in registration order. */
  function GetNodesByType(o: Orchestrator, t: MagicianType): (r: seq<NodeRecord>)
    requires Valid(o)
    ensures forall i :: 0 <= i < |r| ==>
              r[i].magicianType == t && r[i].nodeId in o.nodes && o.nodes[r[i].nodeId] == r[i]
    ensures forall id :: id in o.nodes && o.nodes[id].magicianType == t ==> o.nodes[id] in r
    ensures forall i, j :: 0 <= i < j < |r| ==> r[i].nodeId != r[j].nodeId
    ensures |r| == |IdsOfType(o.order, o.nodes, t)|
    ensures forall i :: 0 <= i < |r| ==> r[i] == o.nodes[IdsOfType(o.order, o.nodes, t)[i]]
  {
    var ids := IdsOfType(o.order, o.nodes, t);
    var r := seq(|ids|, i requires 0 <= i < |ids| => o.nodes[ids[i]]);
    assert forall id :: id in o.nodes && o.nodes[id].magicianType == t ==> o.nodes[id] in r by {
      forall id | id in o.nodes && o.nodes[id].magicianType == t ensures o.nodes[id] in r {
        var k :| 0 <= k < |ids| && ids[k] == id;
        assert r[k] == o.nodes[id];
      }
    }
    r
  }

  /** Some registered node has type `t`. */
  ghost predicate HasNodeOfType(o: Orchestrator, t: MagicianType) {
    exists id :: id in o.nodes && o.nodes[id].magicianType == t
  }

  /** `submit_task`: the task joins the back of the queue and its id is returned. */
  function Submit(o: Orchestrator, task: Task): (r: Reply<string>)
    ensures r.value == task.taskId
    ensures r.state.queue == o.queue + [task]
    ensures |r.state.queue| == |o.queue| + 1
    ensures r.state.order == o.order && r.state.nodes == o.nodes
    ensures r.state.active == o.active && r.state.results == o.results
  {
    Reply(task.taskId, o.(queue := o.queue + [task]))
  }

  /** The error text when no node can take a task of type `t`. */
  function NoNodesError(t: MagicianType): string {
    "No " + t.Value() + " nodes available"
  }

  /** `execute_task`: fails without recording anything when no node of the
      task's type is registered; otherwise succeeds and records the result under
      the task id. Either way the task is no longer active afterwards. */
  function ExecuteTask(o: Orchestrator, task: Task): (r: Reply<TaskResult>)
    requires Valid(o)
    ensures Valid(r.state)
    ensures r.value.taskId == task.taskId
    ensures r.value.status == Success <==> HasNodeOfType(o, task.magicianType)
    ensures r.value.status == Failure <==> !HasNodeOfType(o, task.magicianType)
    ensures r.value.status == Failure ==>
              && r.value.error == Some(NoNodesError(task.magicianType))
              && r.value.result == None
              && r.state.results == o.results
    ensures r.value.status == Success ==>
              && r.state.results == o.results[task.taskId := r.value]
              && r.value.result == Some(map["message" := Str("Task executed successfully")])
              && r.value.error == None
    ensures r.state.active == o.active - {task.taskId}
    ensures r.state.order == o.order && r.state.nodes == o.nodes && r.state.queue == o.queue
  {
    var candidates := GetNodesByType(o, task.magicianType);
    var o' := o.(active := o.active[task.taskId := task]);
    var done := o'.(active := o'.active - {task.taskId});
    if |candidates| == 0 then
      Reply(TaskResult(task.taskId, Failure, None, Some(NoNodesError(task.magicianType))), done)
    else
      assert candidates[0] in candidates;
      var result := TaskResult(task.taskId, Success, Some(map["message" := Str("Task executed successfully")]), None);
      Reply(result, done.(results := done.results[task.taskId := result]))
  }

  /** `get_task_result`. */
  function GetTaskResult(o: Orchestrator, taskId: string): (r: Option<TaskResult>)
    ensures r.Some? <==> taskId in o.results
    ensures r.Some? ==> r.value == o.results[taskId]
  {
    if taskId in o.results then Some(o.results[taskId]) else None
  }

  /** A successful execution can be read back with `get_task_result`; a
      failed one leaves whatever was recorded for the id before. */
  lemma ExecutedResultRetrievable(o: Orchestrator, task: Task)
    requires Valid(o)
    ensures ExecuteTask(o, task).value.status == Success ==>
              GetTaskResult(ExecuteTask(o, task).state, task.taskId) == Some(ExecuteTask(o, task).value)
    ensures ExecuteTask(o, task).value.status == Failure ==>
              GetTaskResult(ExecuteTask(o, task).state, task.taskId) == GetTaskResult(o, task.taskId)
  {
  }

  /** The health of a node whose last heartbeat was at `lastHeartbeat`, at time
      `now`: healthy under 30 s, degraded under 60 s, otherwise (or with no
      heartbeat at all) unhealthy. */
  function Classify(lastHeartbeat: Option<int>, now: int): (h: HealthStatus)
    ensures h == Healthy <==> lastHeartbeat.Some? && now - lastHeartbeat.value < HealthyAge
    ensures h == Degraded <==> lastHeartbeat.Some? && HealthyAge <= now - lastHeartbeat.value < DegradedAge
    ensures h == Unhealthy <==> lastHeartbeat.None? || now - lastHeartbeat.value >= DegradedAge
  {
    match lastHeartbeat
    case None => Unhealthy
    case Some(t) =>
      var age := now - t;
      if age < HealthyAge then Healthy
      else if age < DegradedAge then Degraded
      else Unhealthy
  }

  /** Healthy ranks above degraded, degraded above unhealthy. */
  function Rank(h: HealthStatus): nat {
    match h
    case Healthy => 2
    case Degraded => 1
    case Unhealthy => 0
  }

  /** A more recent heartbeat never yields a worse classification. */
  lemma ClassifyMonotone(earlier: int, later: int, now: int)
    requires earlier <= later
    ensures Rank(Classify(Some(earlier), now)) <= Rank(Classify(Some(later), now))
  {
  }

  /** `healthcheck_nodes`: one entry per registered node, keyed by its id, with
      the heartbeat classification at time `now`. */
  function HealthcheckNodes(o: Orchestrator, now: int): (r: map<string, HealthCheck>)
    ensures r.Keys == o.nodes.Keys
    ensures forall id :: id in r ==>
              && r[id].nodeId == id
              && r[id].status == Classify(o.nodes[id].lastHeartbeat, now)
              && r[id].lastHeartbeat == o.nodes[id].lastHeartbeat
  {
    map id | id in o.nodes :: HealthCheck(id, Classify(o.nodes[id].lastHeartbeat, now), o.nodes[id].lastHeartbeat)
  }

  /** A node checked less than 30 s after it registered is healthy. */
  lemma RegisteredNodeIsHealthy(o: Orchestrator, nodeId: string, t: MagicianType, url: string,
                                metadata: Option<map<string, Value>>, registeredAt: int, now: int)
    requires Valid(o)
    requires registeredAt <= now < registeredAt + HealthyAge
    ensures nodeId in HealthcheckNodes(Register(o, nodeId, t, url, metadata, registeredAt).state, now)
    ensures HealthcheckNodes(Register(o, nodeId, t, url, metadata, registeredAt).state, now)[nodeId].status == Healthy
  {
  }

  /** The ids of the tasks in a queue. */
  function QueuedIds(q: seq<Task>): set<string> {
    set i | 0 <= i < |q| :: q[i].taskId
  }

  /** The ids of a non-empty queue: the first task's and those of the rest. */
  lemma QueuedIdsTail(q: seq<Task>)
    requires |q| > 0
    ensures QueuedIds(q) == {q[0].taskId} + QueuedIds(q[1..])
  {
    forall id | id in QueuedIds(q[1..]) ensures id in QueuedIds(q) {
      var k :| 0 <= k < |q[1..]| && q[1..][k].taskId == id;
      assert q[k + 1].taskId == id;
    }
    forall id | id in QueuedIds(q) && id != q[0].taskId ensures id in QueuedIds(q[1..]) {
      var k :| 0 <= k < |q| && q[k].taskId == id;
      assert q[1..][k - 1].taskId == id;
    }
  }

  /** Reference definition of what draining `q` leaves in the stored results:
      the tasks are executed in queue order and each success is stored under
      its task id, a later success replacing an earlier one. */
  function StoreResults(o: Orchestrator, q: seq<Task>, results: map<string, TaskResult>): map<string, TaskResult>
    requires Valid(o)
    decreases |q|
  {
    if |q| == 0 then results
    else
      var r := ExecuteTask(o, q[0]).value;
      StoreResults(o, q[1..], if r.status == Success then results[q[0].taskId := r] else results)
  }

  /** Draining a queue runs its first task, then drains the rest. */
  lemma StoreResultsStep(o: Orchestrator, q: seq<Task>, results: map<string, TaskResult>, result: TaskResult)
    requires Valid(o) && |q| > 0
    requires result == ExecuteTask(o, q[0]).value
    ensures StoreResults(o, q, results)
            == StoreResults(o, q[1..], if result.status == Success then results[q[0].taskId := result] else results)
  {
  }

  /** Draining never removes a stored result. */
  lemma {:induction false} StoreResultsGrows(o: Orchestrator, q: seq<Task>, results: map<string, TaskResult>, id: string)
    requires Valid(o)
    requires id in results
    ensures id in StoreResults(o, q, results)
    decreases |q|
  {
    if |q| > 0 {
      var r := ExecuteTask(o, q[0]).value;
      StoreResultsGrows(o, q[1..], if r.status == Success then results[q[0].taskId := r] else results, id);
    }
  }

  /** Every queued task that succeeds has a stored result afterwards. */
  lemma {:induction false} StoreResultsSuccess(o: Orchestrator, q: seq<Task>, results: map<string, TaskResult>, i: nat)
    requires Valid(o)
    requires i < |q| && ExecuteTask(o, q[i]).value.status == Success
    ensures q[i].taskId in StoreResults(o, q, results)
    decreases |q|
  {
    var r := ExecuteTask(o, q[0]).value;
    var next := if r.status == Success then results[q[0].taskId := r] else results;
    if i == 0 {
      StoreResultsGrows(o, q[1..], next, q[0].taskId);
    } else {
      assert q[1..][i - 1] == q[i];
      StoreResultsSuccess(o, q[1..], next, i - 1);
    }
  }

  /** A stored result whose id is not queued is left as it was. */
  lemma {:induction false} StoreResultsFrame(o: Orchestrator, q: seq<Task>, results: map<string, TaskResult>, id: string)
    requires Valid(o)
    requires id in results && id !in QueuedIds(q)
    ensures id in StoreResults(o, q, results) && StoreResults(o, q, results)[id] == results[id]
    decreases |q|
  {
    if |q| > 0 {
      var r := ExecuteTask(o, q[0]).value;
      var next := if r.status == Success then results[q[0].taskId := r] else results;
      QueuedIdsTail(q);
      StoreResultsFrame(o, q[1..], next, id);
    }
  }

  /** Every id stored after draining was stored before or is a queued task's id. */
  lemma {:induction false} StoreResultsOnlyQueued(o: Orchestrator, q: seq<Task>, results: map<string, TaskResult>, id: string)
    requires Valid(o)
    requires id in StoreResults(o, q, results)
    ensures id in results || id in QueuedIds(q)
    decreases |q|
  {
    if |q| > 0 {
      var r := ExecuteTask(o, q[0]).value;
      var next := if r.status == Success then results[q[0].taskId := r] else results;
      StoreResultsOnlyQueued(o, q[1..], next, id);
      QueuedIdsTail(q);
    }
  }

  /** The three facts above for every index and id at once. */
  lemma StoreResultsProperties(o: Orchestrator, q: seq<Task>, results: map<string, TaskResult>)
    requires Valid(o)
    ensures forall i :: 0 <= i < |q| && ExecuteTask(o, q[i]).value.status == Success ==>
              q[i].taskId in StoreResults(o, q, results)
    ensures forall id :: id in results && id !in QueuedIds(q) ==>
              id in StoreResults(o, q, results) && StoreResults(o, q, results)[id] == results[id]
    ensures forall id :: id in StoreResults(o, q, results) ==> id in results || id in QueuedIds(q)
  {
    forall i | 0 <= i < |q| && ExecuteTask(o, q[i]).value.status == Success
      ensures q[i].taskId in StoreResults(o, q, results)
    {
      StoreResultsSuccess(o, q, results, i);
    }
    forall id | id in results && id !in QueuedIds(q)
      ensures id in StoreResults(o, q, results) && StoreResults(o, q, results)[id] == results[id]
    {
      StoreResultsFrame(o, q, results, id);
    }
    forall id | id in StoreResults(o, q, results) ensures id in results || id in QueuedIds(q) {
      StoreResultsOnlyQueued(o, q, results, id);
    }
  }

  /** Reference definition of what draining `q` returns: the result of
      executing each queued task, in queue order. */
  function ExecutedResults(o: Orchestrator, q: seq<Task>): (r: seq<TaskResult>)
    requires Valid(o)
    ensures |r| == |q|
    decreases |q|
  {
    if |q| == 0 then [] else [ExecuteTask(o, q[0]).value] + ExecutedResults(o, q[1..])
  }

  /** Entry `i` of the reference results is the execution of task `i`. */
  lemma {:induction false} ExecutedResultsAt(o: Orchestrator, q: seq<Task>, i: nat)
    requires Valid(o) && i < |q|
    ensures ExecutedResults(o, q)[i] == ExecuteTask(o, q[i]).value
    decreases |q|
  {
    if i > 0 {
      assert q[1..][i - 1] == q[i];
      ExecutedResultsAt(o, q[1..], i - 1);
    }
  }

  /** One pass of the queue drain in `start`: tasks are taken from the front
      and executed one by one until the queue is empty. What `execute_task`
      returns is discarded there, so the stored results are the pass's lasting
      effect: every task that succeeded has one, results of tasks not in the
      queue are kept, and nothing else is stored. */
  method DrainQueue(o: Orchestrator) returns (o': Orchestrator, processed: seq<TaskResult>)
    requires Valid(o)
    ensures Valid(o')
    ensures o'.queue == []
    ensures o'.order == o.order && o'.nodes == o.nodes
    ensures |processed| == |o.queue|
    ensures forall i :: 0 <= i < |processed| ==> processed[i] == ExecuteTask(o, o.queue[i]).value
    ensures o'.results == StoreResults(o, o.queue, o.results)
    ensures forall i :: 0 <= i < |processed| && processed[i].status == Success ==> o.queue[i].taskId in o'.results
    ensures forall id :: id in o.results && id !in QueuedIds(o.queue) ==> id in o'.results && o'.results[id] == o.results[id]
    ensures forall id :: id in o'.results ==> id in o.results || id in QueuedIds(o.queue)
  {
    o', processed := ExecuteQueued(o);
    forall i | 0 <= i < |processed| ensures processed[i] == ExecuteTask(o, o.queue[i]).value {
      ExecutedResultsAt(o, o.queue, i);
    }
    StoreResultsProperties(o, o.queue, o.results);
  }

  /** The loop of the drain: executes the queued tasks front to back, returning
      and storing results as the reference definitions say. */
  method ExecuteQueued(o: Orchestrator) returns (o': Orchestrator, processed: seq<TaskResult>)
    requires Valid(o)
    ensures Valid(o')
    ensures o'.queue == []
    ensures o'.order == o.order && o'.nodes == o.nodes
    ensures processed == ExecutedResults(o, o.queue)
    ensures o'.results == StoreResults(o, o.queue, o.results)
  {
    o' := o;
    processed := [];
    while |o'.queue| > 0
      invariant Valid(o')
      invariant o'.order == o.order && o'.nodes == o.nodes
      invariant processed + ExecutedResults(o, o'.queue) == ExecutedResults(o, o.queue)
      invariant StoreResults(o, o'.queue, o'.results) == StoreResults(o, o.queue, o.results)
      decreases |o'.queue|
    {
      ghost var before := o';
      ResultDependsOnNodesOnly(o', o, o'.queue[0]);
      var result;
      o', result := ProcessNext(o');
      StoreResultsStep(o, before.queue, before.results, result);
      assert ExecutedResults(o, before.queue) == [result] + ExecutedResults(o, o'.queue);
      assert (processed + [result]) + ExecutedResults(o, o'.queue) == processed + ([result] + ExecutedResults(o, o'.queue));
      processed := processed + [result];
    }
    assert processed + [] == processed;
  }

  /** One round of the drain loop: pop the oldest task and execute it. */
  method ProcessNext(o: Orchestrator) returns (o': Orchestrator, result: TaskResult)
    requires Valid(o) && |o.queue| > 0
    ensures Valid(o')
    ensures o'.queue == o.queue[1..]
    ensures o'.order == o.order && o'.nodes == o.nodes
    ensures o'.active == o.active - {o.queue[0].taskId}
    ensures result == ExecuteTask(o, o.queue[0]).value
    ensures o'.results == if result.status == Success then o.results[o.queue[0].taskId := result] else o.results
  {
    var task := o.queue[0];
    var popped := o.(queue := o.queue[1..]);
    ResultDependsOnNodesOnly(popped, o, task);
    var reply := ExecuteTask(popped, task);
    o' := reply.state;
    result := reply.value;
  }

  /** The result `execute_task` returns depends on the registered nodes alone,
      not on the queue, the active set or the stored results. */
  lemma ResultDependsOnNodesOnly(o1: Orchestrator, o2: Orchestrator, task: Task)
    requires Valid(o1) && Valid(o2)
    requires o1.order == o2.order && o1.nodes == o2.nodes
    ensures ExecuteTask(o1, task).value == ExecuteTask(o2, task).value
  {
  }
}
