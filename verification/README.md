# 360 Magicians back end, modelled in Dafny

This project models the Python back end of the 360 Magicians system:

- the **orchestrator**, which keeps a registry of magician nodes, a FIFO task queue, the set of active tasks and the stored task results, and classifies node health from heartbeats;
- the **pathway engine**, which runs a pathway's steps against the orchestrator, either sequentially or in parallel, with step conditions, retries, halting on failure, and threading of result maps into the payload;
- the **ConfigManager**, which does dot-path lookup and update over a nested configuration map, with environment variables taking precedence;
- the **magician node** conventions shared by every node: lifecycle, heartbeat, and the success/failure envelope of `execute`;
- the **Business, Developer and Job magicians**: their dispatch, the exceptions their handlers can raise, the idea validation of the Business magician, and their health checks;
- the **shared models**: the task, result, health and pathway records and the string enumerations.

Python values are modelled by `Values.Value`: `None`, booleans, integers, strings, lists and string-keyed dicts. The model also covers:

- `dict.get` (`Values.Lookup`);
- truthiness (`Values.Truthy`);
- the type names CPython puts in its error messages (`Values.TypeName`).

Parts of the system become explicit inputs:

- **Clocks** are integer microseconds supplied by the caller.
- **The process environment** is a map.
- **The orchestrator call and the condition evaluator** are oracle parameters of the pathway engine. Its theorems therefore hold for every behaviour of the orchestrator call, and for every condition evaluator that does not write to the payload. `PathwayEngine.OrchestratorBackedStep` then plugs in the modelled orchestrator.

Module layout:

- `common.dfy`: `Option` and `Result`.
- `values.dfy`: Python values.
- `text.dfy`: ASCII case mapping, `split`/`join`, substring search, decimal rendering.
- `models.dfy`: shared models.
- `config.dfy`: ConfigManager.
- `orchestrator.dfy`: orchestrator.
- `engine.dfy`: pathway engine.
- `magician_base.dfy`: the node base class and the common part of `execute`.
- `business.dfy`, `developer.dfy`, `job.dfy`: the three magicians.

## Model

| member | source | states |
|---|---|---|
| Values.Lookup | magicians/business/service.py:67-69 | `d.get(key, default)`: the stored value when the key is present, the default otherwise |
| Models.ParseTaskStatus | shared/models/__init__.py:9-15 | parsing a status string yields a member whose string value is that string |
| Models.ParseHealthStatus | shared/models/__init__.py:18-22 | parsing a health string yields a member whose string value is that string |
| Models.ParseMagicianType | shared/models/__init__.py:25-33 | parsing a type string yields a member whose string value is that string |
| Models.EnumValuesRoundTrip | shared/models/__init__.py:9-33 | every member of the three enumerations parses back from its string value, so distinct members have distinct values |
| Models.MakeTask | shared/models/__init__.py:36-45 | a task validates exactly when its priority lies in 1..10; the error names the bad priority; a valid task keeps every field given |
| Models.NewTask | shared/models/__init__.py:36-45 | the defaults (empty payload and context, priority 5, timeout 300) pass validation |
| Models.NewStep | shared/models/__init__.py:98-106 | a step from magician and action has no condition, timeout or handlers, and retry count 3 |
| Models.NewPathway | shared/models/__init__.py:109-116 | a pathway from id, name and steps has no description and is sequential |
| Config.EnvKey | shared/utils/config.py:34 | the environment key has the key's length, contains no dot and no lower-case ASCII letter, replaces every dot by `_`, and upper-cases every other character |
| Config.Segments | shared/utils/config.py:40 | a key has at least one segment, and joining the segments with dots gives the key back |
| Text.JoinSplit | shared/utils/config.py:40 | joining the parts of `s.split(sep)` with `sep` gives `s` back |
| Text.SplitJoin | shared/utils/config.py:40 | splitting the join of separator-free parts gives the parts back |
| Config.Walk | shared/utils/config.py:40-50 | the walk never yields `None`; a missing or `None` first segment gives the default; a one-segment path gives the stored value; a non-mapping before the last segment gives the default |
| Config.WalkLast | shared/utils/config.py:40-50 | walking a whole path is walking all but its last segment and then looking the last segment up: the default unless the prefix found a mapping holding a non-`None` value there |
| Config.Get | shared/utils/config.py:23-50 | an environment override wins; otherwise the walked value, or the default when the walk finds nothing |
| Config.Store | shared/utils/config.py:59-65 | the write succeeds exactly when no existing value on the path is a non-mapping; only the first segment's entry changes; the error lies before the last segment |
| Config.Set | shared/utils/config.py:52-65 | `set` succeeds exactly when the path is writable, and adds at most the first segment to the top-level keys |
| Config.WalkStore | shared/utils/config.py:40-65 | walking the stored path finds the stored value, or nothing when it is `None` |
| Config.WalkStoreFrame | shared/utils/config.py:40-65 | a store leaves the walk of every diverging path unchanged |
| Config.SetThenGet | shared/utils/config.py:23-65 | with no environment override, `get` after `set` returns the value set, or the default when it was `None` |
| Config.SetPreservesOtherKeys | shared/utils/config.py:23-65 | `set` does not change `get` of a key whose path diverges from the key set |
| Config.GetTopLevel | shared/utils/config.py:23-73 | for an undotted key with no override, `get` agrees with the map `get_all` returns |
| Orchestrator.Init | core/orchestrator/service.py:21-33 | a new orchestrator is valid and has no nodes, queue, active tasks or results |
| Orchestrator.Register | core/orchestrator/service.py:37-70 | registration always answers true and keeps the registry valid; the id maps to an active record with the given type, URL, metadata and heartbeat time; other ids and the queues are untouched; a new id is appended to the registration order and a re-registered one keeps its place |
| Orchestrator.Without | core/orchestrator/service.py:81-82 | deleting a key from the registry's id order keeps every other id, keeps distinctness and never adds an id |
| Orchestrator.WithoutAbsent | core/orchestrator/service.py:81-82 | removing an id that does not occur leaves the order unchanged |
| Orchestrator.WithoutAt | core/orchestrator/service.py:81-82 | in a duplicate-free order, removing the id at position `k` removes exactly that position: the ids before and after it stay in order |
| Orchestrator.Unregister | core/orchestrator/service.py:72-85 | true exactly when the id was registered; afterwards the id is gone, the rest of the registry is kept, and the remaining ids keep their order (the old order without the id); on false nothing changes |
| Orchestrator.UnregisterKeepsOrder | core/orchestrator/service.py:72-85 | unregistering the id at position `k` of the registration order leaves exactly the other ids, in their order, as `del` on the dict does |
| Orchestrator.WithoutAppended | core/orchestrator/service.py:55-82 | removing an id just appended to an id order that lacked it gives the old order back |
| Orchestrator.RegisterThenUnregister | core/orchestrator/service.py:37-85 | unregistering a freshly registered id answers true and restores the orchestrator exactly |
| Orchestrator.IdsOfType | core/orchestrator/service.py:96-99 | exactly the ids of the requested type, with no duplicates |
| Orchestrator.GetNodesByType | core/orchestrator/service.py:87-99 | every returned record is a registered record of the type; every registered record of the type is returned; no record appears twice; the records follow the registration order of their ids |
| Orchestrator.Submit | core/orchestrator/service.py:101-117 | the task joins the back of the queue and its id is returned; nothing else changes |
| Orchestrator.ExecuteTask | core/orchestrator/service.py:119-188 | success exactly when a node of the task's type is registered; a failure carries "No <type> nodes available", no result document, and stores nothing; a success carries the document `{"message": "Task executed successfully"}` and is stored under the task id; the task is never active afterwards |
| Orchestrator.GetTaskResult | core/orchestrator/service.py:190-199 | the stored result for the id, and nothing when none was stored |
| Orchestrator.ExecutedResultRetrievable | core/orchestrator/service.py:119-199 | `get_task_result` after a successful `execute_task` returns that result; after a failure it returns what it returned before |
| Orchestrator.Classify | core/orchestrator/service.py:215-224 | healthy below 30 s since the last heartbeat, degraded from 30 s to below 60 s, unhealthy from 60 s or with no heartbeat, each as an if-and-only-if |
| Orchestrator.ClassifyMonotone | core/orchestrator/service.py:215-224 | a later heartbeat never gives a worse health status |
| Orchestrator.HealthcheckNodes | core/orchestrator/service.py:201-233 | exactly one check per registered node, keyed by and naming that node, carrying its classification and heartbeat |
| Orchestrator.RegisteredNodeIsHealthy | core/orchestrator/service.py:37-233 | a node checked less than 30 s after registering is reported healthy |
| Orchestrator.ResultDependsOnNodesOnly | core/orchestrator/service.py:133-171 | the result of `execute_task` depends only on the registered nodes |
| Orchestrator.ProcessNext | core/orchestrator/service.py:242-244 | pops the oldest task, returns its execution result, keeps the registry, leaves that task inactive, and stores the result under the task id exactly when it succeeded |
| Orchestrator.QueuedIdsTail | core/orchestrator/service.py:242-244 | the ids in a queue are the front task's id and the ids of the rest |
| Orchestrator.StoreResultsGrows | core/orchestrator/service.py:170-171 | storing the results of a queue never drops a stored id |
| Orchestrator.StoreResultsSuccess | core/orchestrator/service.py:170-171 | after storing the results of a queue, every task of it whose execution succeeded has a stored result |
| Orchestrator.StoreResultsFrame | core/orchestrator/service.py:170-171 | storing the results of a queue keeps the result of every id not in the queue |
| Orchestrator.StoreResultsOnlyQueued | core/orchestrator/service.py:170-171 | storing the results of a queue adds only ids of queued tasks |
| Orchestrator.StoreResultsProperties | core/orchestrator/service.py:170-171 | the three facts above together, for every id |
| Orchestrator.ExecutedResultsAt | core/orchestrator/service.py:242-244 | entry `i` of the results of a queue is the execution of task `i` |
| Orchestrator.ExecuteQueued | core/orchestrator/service.py:235-246 | the loop empties the queue, keeps the registry, returns the result of each queued task in queue order, and stores the successful ones front to back |
| Orchestrator.DrainQueue | core/orchestrator/service.py:235-246 | the drain empties the queue, keeps the registry, and returns one result per queued task, in queue order, each the result of executing that task; afterwards every successful task has a stored result, results of tasks not queued are kept, and nothing but queued ids is added |
| PathwayEngine.ConditionHolds | core/pathway_engine/engine.py:289-309 | the condition holds exactly when its evaluation succeeds with a truthy value; an evaluation that raises counts as false |
| PathwayEngine.StepTaskIdsDistinct | core/pathway_engine/engine.py:233 | different steps of one pathway get different task ids |
| Text.ParseNatToString | core/pathway_engine/engine.py:233 | reading back the decimal rendering of a step index gives the index |
| PathwayEngine.StepTask | core/pathway_engine/engine.py:232-238 | the step's task carries the step's task id, magician, action and timeout, and the current payload |
| PathwayEngine.RetryLoop | core/pathway_engine/engine.py:241-278 | at most `retry_count + 1` orchestrator calls; a success is the first successful attempt; without success every allowed attempt was made and the last error is kept |
| PathwayEngine.ExecuteStep | core/pathway_engine/engine.py:191-287 | a step is skipped exactly when its condition is set and does not hold, with no orchestrator call; otherwise it finishes with success or failure within `retry_count + 1` calls |
| PathwayEngine.StepOutcome | core/pathway_engine/engine.py:241-287 | a successful step carries the result map of its first successful attempt; a failed one made every allowed attempt, none succeeded, and it carries the last error |
| PathwayEngine.OrchestratorRetries | core/pathway_engine/engine.py:241-278 | against the orchestrator, the retry loop succeeds exactly when a node of the type is registered, after one call; otherwise it ends with the "No <type> nodes available" error |
| PathwayEngine.OrchestratorBackedStep | core/pathway_engine/engine.py:191-287 | a step run against the orchestrator succeeds after one call exactly when a node of its type is registered; otherwise it fails after `retry_count + 1` calls with the orchestrator's error |
| PathwayEngine.RunSequential | core/pathway_engine/engine.py:105-155 | results follow the steps from the first; only the last result may halt, and an early end means the last step failed with no failure handler |
| PathwayEngine.SequentialStopsOnlyAtHalt | core/pathway_engine/engine.py:124-149 | a non-empty pathway gives at least one result; a skipped, successful, or handled failed step is always followed by the next step; a halting step is always the last result |
| PathwayEngine.SequentialStepAt | core/pathway_engine/engine.py:122-153 | result `i` of a run from any step equals the reference result, where the payload is threaded through every earlier step's result map |
| PathwayEngine.SequentialThreadsPayload | core/pathway_engine/engine.py:122-153 | each step of the sequential run receives the initial payload updated with the non-empty result maps of the steps before it |
| PathwayEngine.SequentialResultsInStepOrder | core/pathway_engine/engine.py:124-133 | sequential results are numbered 0, 1, … and carry their steps' magician and action |
| PathwayEngine.RunParallel | core/pathway_engine/engine.py:157-189 | one result per step, in step order, each the result of running that step on the initial payload, so a step is skipped exactly when its condition fails on the initial payload |
| PathwayEngine.ExecutePathway | core/pathway_engine/engine.py:30-103 | the returned context is "completed", records the same list as steps and results, holds the sequential or parallel results as chosen, and the pathway is no longer active |
| PathwayEngine.GetPathwayStatus | core/pathway_engine/engine.py:311-320 | the context of the pathway while it is active, nothing otherwise |
| PathwayEngine.NoStatusAfterExecution | core/pathway_engine/engine.py:101-103 | once `execute_pathway` returns, the pathway has no status |
| MagicianBase.NewNode | shared/interfaces/magician_base.py:19-30 | a new node is "initialized", has no heartbeat, and keeps the given configuration or an empty one |
| MagicianBase.Heartbeat | shared/interfaces/magician_base.py:94-105 | the heartbeat records the time and reports id, time and status; nothing else changes |
| MagicianBase.Initialize | magicians/business/service.py:39-55 | `initialize` answers true and becomes ready; the merged configuration has both key sets, new values winning; identity, counter and webhook are kept |
| MagicianBase.Shutdown | magicians/business/service.py:314-322 | `shutdown` answers true and only the status changes, to "shutdown" |
| MagicianBase.WebhookUrl | magicians/business/service.py:33 | the webhook address is the environment override, else the `webhook.url` setting, else the local default on the node's port |
| MagicianBase.ServiceWebhookUrl | magicians/business/service.py:32-33 | with the empty `ConfigManager()` the services build, the webhook address is the environment override, else the local default on the node's port |
| MagicianBase.Display | magicians/business/service.py:90 | scalars render as `str()` does: strings as themselves, `None` as "None", booleans as "True"/"False", integers in decimal with a leading minus when negative |
| MagicianBase.Fault.Message | magicians/business/service.py:110-121 | the failure's error text is "Unknown action: <action>" for an unknown scalar action, "'<type>' object has no attribute '<name>'" for a missing attribute, and "object of type '<type>' has no len()" for a missing `len` |
| MagicianBase.ReadPayload | magicians/business/service.py:132 | a dict payload yields its fields; any other value raises "'<type>' object has no attribute 'get'" |
| MagicianBase.Complete | magicians/business/service.py:92-121 | a handler that returned gives "success" with its result and counts the task; one that raised gives "failure" with the exception and leaves the node unchanged |
| BusinessMagician.New | magicians/business/service.py:23-37 | a new Business node is "initialized" with a zero counter; its webhook address is the `WEBHOOK_URL` environment value when set, else `http://localhost:8001/webhook` |
| BusinessMagician.NewDefault | magicians/business/service.py:23 | a Business node built with no arguments has id "business-magician-01" and an empty configuration |
| BusinessMagician.Length | magicians/business/service.py:139 | `len` succeeds exactly on strings, lists and dicts; otherwise it raises "has no len()" naming the type |
| BusinessMagician.MentionsAccessibilityIff | magicians/business/service.py:152 | the accessibility check holds exactly when one of "deaf", "asl", "accessibility", "inclusive" occurs in the lower-cased idea |
| BusinessMagician.AnyKeywordFromIff | magicians/business/service.py:152 | the keyword search finds a keyword exactly when one of the remaining keywords occurs |
| Text.ContainsIffOccurs | magicians/business/service.py:152 | the substring test holds exactly when the needle occurs at some position |
| BusinessMagician.ValidateIdea | magicians/business/service.py:123-164 | a non-dict payload fails on `.get`; a non-string idea fails on `len` or `.lower` with the CPython text; otherwise the score is at most 1.0 and the feedback has two or three lines, each chosen by its finding, the third present exactly for an accessibility mention |
| BusinessMagician.ScoreMatchesFeedback | magicians/business/service.py:139-157 | the score is 0.3 per positive finding on description and target market, plus 0.4 for the accessibility praise |
| BusinessMagician.FullScoreNeedsAllFindings | magicians/business/service.py:139-157 | the score is 1.0 exactly when all three findings are positive |
| BusinessMagician.Handle | magicians/business/service.py:79-278 | the dispatch returns exactly when the action is known and its handler's reads succeed; each known action reaches its own handler (idea validation, business plan, market analysis, funding options, registration guidance); an unknown action raises `ValueError` |
| BusinessMagician.Execute | magicians/business/service.py:57-121 | echoes the task id, succeeds exactly when the handler returns, counts only successes, and changes nothing else; a success returns the handler's output as its result, and a failure carries the fault the dispatch or the handler raised |
| BusinessMagician.UnknownActionMessage | magicians/business/service.py:89-90 | an unknown string action fails with "Unknown action: <action>" and is not counted |
| BusinessMagician.Healthcheck | magicians/business/service.py:288-312 | healthy exactly when ready, degraded exactly when initialized, unhealthy exactly after shutdown |
| BusinessMagician.LifecycleHealth | magicians/business/service.py:23-322 | a new node is degraded, an initialized one healthy, and a shut-down one unhealthy |
| DeveloperMagician.New | magicians/developer/service.py:24-31 | a new Developer node is "initialized" with a zero counter; its webhook address is the `WEBHOOK_URL` environment value when set, else `http://localhost:8003/webhook` |
| DeveloperMagician.NewDefault | magicians/developer/service.py:24 | a Developer node built with no arguments has id "developer-magician-01" and an empty configuration |
| DeveloperMagician.CreateWebsite | magicians/developer/service.py:79-97 | the accessibility score is 10.0 exactly when `asl_first` is truthy or absent, and 7.5 otherwise; a non-dict payload raises |
| DeveloperMagician.GenerateCode | magicians/developer/service.py:133-167 | the result reports the requested language, "python" when none is given; a non-dict payload raises |
| DeveloperMagician.Handle | magicians/developer/service.py:51-203 | the dispatch returns exactly for a known action with a dict payload, each known action reaching its own handler (website, accessibility report, code, debugging advice, API scaffold), and raises for an unknown action |
| DeveloperMagician.Execute | magicians/developer/service.py:43-77 | echoes the task id, succeeds exactly for a known action with a dict payload, and counts only successes; a success returns the handler's output as its result, and a failure carries the fault the dispatch or the handler raised |
| DeveloperMagician.UnknownActionMessage | magicians/developer/service.py:62-63 | an unknown string action fails with "Unknown action: <action>" and is not counted |
| DeveloperMagician.Healthcheck | magicians/developer/service.py:208-216 | healthy exactly when ready, otherwise degraded, never unhealthy |
| JobMagician.New | magicians/job/service.py:24-31 | a new Job node is "initialized" with a zero counter; its webhook address is the `WEBHOOK_URL` environment value when set, else `http://localhost:8002/webhook` |
| JobMagician.NewDefault | magicians/job/service.py:24 | a Job node built with no arguments has id "job-magician-01" and an empty configuration |
| JobMagician.Handle | magicians/job/service.py:51-146 | the dispatch returns exactly for a known action with a dict payload, each known action reaching its own handler (hiring pipeline, job posting, candidate matches, skills assessment, interview schedule), and raises for an unknown action |
| JobMagician.Execute | magicians/job/service.py:43-77 | echoes the task id, succeeds exactly for a known action with a dict payload, and counts only successes; a success returns the handler's output as its result, and a failure carries the fault the dispatch or the handler raised |
| JobMagician.UnknownActionMessage | magicians/job/service.py:62-63 | an unknown string action fails with "Unknown action: <action>" and is not counted |
| JobMagician.Healthcheck | magicians/job/service.py:151-159 | healthy exactly when ready, otherwise degraded, never unhealthy |

## Left out

- **HTTP and webhooks.** The FastAPI applications, their endpoints, the webhook calls and the event bus are I/O.
- **Logging.** The structured logger only records; nothing reads it back.
- **Clock-derived fields.** `created_at`, `started_at`, `completed_at`, `duration_ms`, uptime, `last_task_time`, `tasks_per_minute`, and the timestamps inside generated project ids are left out. Heartbeat and registration times are caller-supplied microseconds, and registration uses one time for both.
- **Configuration loading.** The configuration file and YAML loading are not modelled: a `ConfigManager` starts from a given map, and `os.environ` is a map parameter.
- **Unicode case mapping.** `upper()` and `lower()` are modelled on ASCII letters only; other characters map to themselves.
- **Floating point.** Scores are exact tenths: 0.3 is 3 and 7.5 is 75. The float sums in the idea validation are exact at these values.
- **Float values.** `Values.Value` has no float case, so float payload, request and configuration values are not modelled. Every theorem is about inputs without floats. The source treats them like the other scalars:
  - an `asl_first` of `0.0` is falsy and gives 7.5;
  - a float idea raises "object of type 'float' has no len()";
  - a float action fails with "Unknown action: " followed by Python's rendering of the float.
- **Fixed handler documents.** The constant documents the handlers return (plans, market data, code samples and so on) are represented only by their constructor.
- **Parallel interleaving.** The asyncio scheduling of parallel mode is not modelled. Each step runs on its own copy of the initial payload, and no step can raise, so `gather` returns exactly the step results.
- **Condition evaluation.** `eval` is an oracle parameter of the pathway engine that returns a value or raises. The engine passes the live payload dict to `eval` as its locals (core/pathway_engine/engine.py:302). A condition with a side effect, such as an assignment expression or a call that mutates a list in the payload, would change the payload the step's task and later steps receive. Through the shallow copies of the payload it could also change the caller's nested values. The model assumes conditions do not write to the payload. `PathwayEngine.SequentialThreadsPayload` and the "initial payload" of `PathwayEngine.RunParallel` hold only under that assumption.
- **Run loop.** The `running` flag, `stop`, and the 0.1 s polling of `start` are left out. `Orchestrator.DrainQueue` models one pass of the inner queue loop.
- **Unreachable exception branches.**
  - The exception branch of `execute_task` cannot be reached with these inputs, and is not modelled.
  - Nor is the "failed" outcome of `execute_pathway`, because every exception a step can meet is caught inside the step.
- **Retry waits.** The one-second sleeps between retries and the asyncio sleep in `execute_task` are timing only.
- Config.Set: a path that runs through an existing non-mapping is reported as `NotAMapping(depth)` rather than with CPython's `TypeError` text. The write is never partial, so no state change is lost. Every segment before the failing one is an existing mapping, because a missing segment is followed only by freshly created mappings.
- MagicianBase.Fault.Message: the message of an unknown action that is itself a list or a dict is not modelled (`Message` gives no text for it).
- Config.GetAll: `get_all` returns a shallow copy, so nested dicts in it are shared with the manager and a caller's in-place change to them would show through later `get` calls. The model's maps are values, so this aliasing is not modelled.
- Config.SetPreservesOtherKeys: the model's configuration is a tree of values, but Python's `set` stores a dict value by reference and writes into stored dicts in place (shared/utils/config.py:59-65). After `set("a", d)` and `set("b", d)` with the same dict `d`, `set("a.x", 1)` also changes `get("b.x")`. The frame stated here, like `Config.WalkStoreFrame`, holds in the source only when no dict object can be reached by two paths of the configuration or from the caller.
- MagicianBase.NewNode: keeps a caller's non-empty configuration dict by reference (shared/interfaces/magician_base.py:27), and `MagicianBase.Initialize` updates that dict in place (magicians/business/service.py:49). So in the source, the caller sees the merge and later changes by the caller show through. The model copies values, so this sharing is not modelled.
- Orchestrator.DrainQueue: does not restate which tasks are active afterwards. `Orchestrator.ProcessNext` and `Orchestrator.ExecuteTask` state it for each task.
- Orchestrator.HealthcheckNodes: the uptime figure is not modelled (see above); the classification and heartbeat are.
- Models: the `WebhookEvent` model belongs to the event bus and is left out with it.
- **Other magician types.** The Creative, Docuhand, Sync and Fibonrose magicians are only enumeration members here; their services are not part of this model.
