/** PathwayEngine: runs the steps of a pathway against the orchestrator.
    The orchestrator's `execute_task` and the evaluation of a step's condition
    are oracles supplied by the caller, so the model fixes the engine's own
    logic (skipping, retrying, stopping, payload threading, bookkeeping) for
    every possible behaviour of the orchestrator call and for every condition
    evaluator that does not write to the payload it is given. */
module PathwayEngine {
  import opened Common
  import opened Values
  import opened Models
  import Text
  import Orchestrator

  /** What one call of the orchestrator did: returned a result or raised. */
  datatype Attempt = Returned(result: TaskResult) | Raised(message: string)

  /** The orchestrator call: the outcome of attempt number `n` (from 0) of a task. */
  type Dispatcher = (Task, nat) -> Attempt

  /** What evaluating a condition over a payload did: produced a value or raised. */
  datatype Evaluation = Evaluated(value: Value) | EvalRaised

  /** The condition evaluator (Python's `eval`) as an oracle. It only returns a
      value or raises: conditions that write to the payload are not modelled. */
  type Evaluator = (string, map<string, Value>) -> Evaluation

  /** A step's status: "skipped", or the task status it finished with. */
  datatype StepStatus = Skipped | Finished(status: TaskStatus)

  datatype StepResult = StepResult(
    stepIndex: nat,
    magician: MagicianType,
    action: string,
    status: StepStatus,
    result: Option<map<string, Value>>,
    error: Option<string>,
    reason: Option<string>)

  datatype PathwayStatus = Running | Completed | Failed(error: string)

  /** The execution context kept for a pathway while it runs and returned at the end. */
  datatype ExecutionContext = ExecutionContext(
    pathwayId: string,
    name: string,
    steps: seq<StepResult>,
    status: PathwayStatus,
    results: seq<StepResult>)

  datatype Engine = Engine(active: map<string, ExecutionContext>)

  predicate Succeeded(a: Attempt) {
    a.Returned? && a.result.status == Success
  }

  /** The error an unsuccessful attempt leaves behind. */
  function ErrorOf(a: Attempt): Option<string> {
    match a
    case Returned(res) => res.error
    case Raised(msg) => Some(msg)
  }

  /** An optional string field is set when it is present and non-empty. */
  predicate IsSet(field: Option<string>) {
    field.Some? && |field.value| > 0
  }

  /** `_evaluate_condition`: the truth value of the evaluated condition; an
      evaluation that raises counts as false. */
  function ConditionHolds(evaluate: Evaluator, condition: string, payload: map<string, Value>): (b: bool)
    ensures evaluate(condition, payload).EvalRaised? ==> !b
    ensures evaluate(condition, payload).Evaluated? ==> (b <==> Truthy(evaluate(condition, payload).value))
  {
    match evaluate(condition, payload)
    case Evaluated(v) => Truthy(v)
    case EvalRaised => false
  }

  /** The task id of step `index` of pathway `pathwayId`: `<pathwayId>_step_<index>`. */
  function StepTaskId(pathwayId: string, index: nat): string {
    pathwayId + "_step_" + Text.NatToString(index)
  }

  /** Different steps of one pathway get different task ids. */
  lemma StepTaskIdsDistinct(pathwayId: string, i: nat, j: nat)
    requires i != j
    ensures StepTaskId(pathwayId, i) != StepTaskId(pathwayId, j)
  {
    var prefix := pathwayId + "_step_";
    if StepTaskId(pathwayId, i) == StepTaskId(pathwayId, j) {
      var a := StepTaskId(pathwayId, i);
      assert a[|prefix|..] == Text.NatToString(i);
      assert StepTaskId(pathwayId, j)[|prefix|..] == Text.NatToString(j);
      Text.NatToStringInjective(i, j);
    }
  }

  /** The task built for a step. */
  function StepTask(pathwayId: string, index: nat, step: PathwayStep, payload: map<string, Value>): (t: Task)
    ensures t.taskId == StepTaskId(pathwayId, index)
    ensures t.magicianType == step.magician && t.action == step.action
    ensures t.payload == payload && t.timeout == step.timeout
  {
    Task(StepTaskId(pathwayId, index), step.magician, step.action, payload, map[], DefaultPriority, step.timeout)
  }

  /** The number of attempts the retry loop allows: `retry_count + 1`, and none
      when the retry count is negative. */
  function MaxAttempts(retryCount: int): nat {
    if retryCount < 0 then 0 else retryCount + 1
  }

  /** How the retry loop ended: the successful result if any, the last error,
      and how many times the orchestrator was called. */
  datatype Attempts = Attempts(success: Option<TaskResult>, lastError: Option<string>, calls: nat)

  /** The retry loop of `_execute_step`, entered with `n` attempts already made. */
  function RetryLoop(dispatch: Dispatcher, task: Task, n: nat, retryCount: int, lastError: Option<string>): (r: Attempts)
    ensures n <= r.calls
    ensures r.calls <= if n < MaxAttempts(retryCount) then MaxAttempts(retryCount) else n
    ensures forall k :: n <= k < r.calls && (r.success.None? || k < r.calls - 1) ==> !Succeeded(dispatch(task, k))
    ensures r.success.Some? ==> r.calls > n && dispatch(task, r.calls - 1) == Returned(r.success.value)
    ensures r.success.Some? ==> r.success.value.status == Success
    ensures r.success.None? ==> r.calls == (if n < MaxAttempts(retryCount) then MaxAttempts(retryCount) else n)
    ensures r.success.None? && r.calls > n ==> r.lastError == ErrorOf(dispatch(task, r.calls - 1))
    ensures r.success.None? && r.calls == n ==> r.lastError == lastError
    decreases MaxAttempts(retryCount) - n
  {
    if n > retryCount then Attempts(None, lastError, n)
    else match dispatch(task, n)
      case Returned(res) =>
        if res.status == Success then Attempts(Some(res), lastError, n + 1)
        else RetryLoop(dispatch, task, n + 1, retryCount, res.error)
      case Raised(msg) =>
        RetryLoop(dispatch, task, n + 1, retryCount, Some(msg))
  }

  /** A step's result together with the number of orchestrator calls it made. */
  datatype StepRun = StepRun(result: StepResult, calls: nat)

  /** The step is skipped: its condition is set and does not hold. */
  predicate SkipsStep(evaluate: Evaluator, step: PathwayStep, payload: map<string, Value>) {
    IsSet(step.condition) && !ConditionHolds(evaluate, step.condition.value, payload)
  }

  /** `_execute_step`: skip on an unmet condition without calling the
      orchestrator; otherwise run the retry loop on the step's task. */
  function ExecuteStep(dispatch: Dispatcher, evaluate: Evaluator, pathwayId: string,
                       index: nat, step: PathwayStep, payload: map<string, Value>): (r: StepRun)
    ensures r.result.stepIndex == index
    ensures r.result.magician == step.magician && r.result.action == step.action
    ensures r.result.status == Skipped <==> SkipsStep(evaluate, step, payload)
    ensures r.result.status == Skipped ==> r.calls == 0 && r.result.reason == Some("condition_not_met")
    ensures r.calls <= MaxAttempts(step.retryCount)
    ensures r.result.status.Finished? ==> r.result.status.status == Success || r.result.status.status == Failure
  {
    if SkipsStep(evaluate, step, payload) then
      StepRun(StepResult(index, step.magician, step.action, Skipped, None, None, Some("condition_not_met")), 0)
    else
      var task := StepTask(pathwayId, index, step, payload);
      var a := RetryLoop(dispatch, task, 0, step.retryCount, None);
      match a.success
      case Some(res) =>
        StepRun(StepResult(index, step.magician, step.action, Finished(res.status), res.result, None, None), a.calls)
      case None =>
        StepRun(StepResult(index, step.magician, step.action, Finished(Failure), None, a.lastError, None), a.calls)
  }

  /** A step that runs succeeds on the first successful attempt, carrying that
      attempt's result map; it fails only after `retry_count + 1` unsuccessful
      attempts, with the last attempt's error. */
  lemma StepOutcome(dispatch: Dispatcher, evaluate: Evaluator, pathwayId: string,
                    index: nat, step: PathwayStep, payload: map<string, Value>)
    ensures var r := ExecuteStep(dispatch, evaluate, pathwayId, index, step, payload);
            var task := StepTask(pathwayId, index, step, payload);
            r.result.status == Finished(Success) ==>
              && r.calls >= 1
              && Succeeded(dispatch(task, r.calls - 1))
              && r.result.result == dispatch(task, r.calls - 1).result.result
              && r.result.error == None
              && forall k :: 0 <= k < r.calls - 1 ==> !Succeeded(dispatch(task, k))
    ensures var r := ExecuteStep(dispatch, evaluate, pathwayId, index, step, payload);
            var task := StepTask(pathwayId, index, step, payload);
            r.result.status == Finished(Failure) ==>
              && r.calls == MaxAttempts(step.retryCount)
              && (forall k :: 0 <= k < r.calls ==> !Succeeded(dispatch(task, k)))
              && r.result.error == (if r.calls == 0 then None else ErrorOf(dispatch(task, r.calls - 1)))
              && r.result.result == None
  {
  }

  /** The orchestrator as the engine's dispatcher: every attempt runs
      `execute_task`. Its answer depends on the registered nodes alone
      (`Orchestrator.ResultDependsOnNodesOnly`), so the bookkeeping it does
      between attempts does not change what the engine sees. */
  function OrchestratorDispatcher(o: Orchestrator.Orchestrator): Dispatcher
    requires Orchestrator.Valid(o)
  {
    (task: Task, n: nat) => Returned(Orchestrator.ExecuteTask(o, task).value)
  }

  /** A retry loop against the orchestrator: one call when a node of the
      task's type is registered, every allowed attempt otherwise. */
  lemma {:induction false} OrchestratorRetries(o: Orchestrator.Orchestrator, task: Task, n: nat, retryCount: int,
                                               lastError: Option<string>)
    requires Orchestrator.Valid(o)
    requires n <= MaxAttempts(retryCount)
    ensures RetryLoop(OrchestratorDispatcher(o), task, n, retryCount, lastError).success.Some?
            <==> n < MaxAttempts(retryCount) && Orchestrator.HasNodeOfType(o, task.magicianType)
    ensures n < MaxAttempts(retryCount) && Orchestrator.HasNodeOfType(o, task.magicianType) ==>
              RetryLoop(OrchestratorDispatcher(o), task, n, retryCount, lastError).calls == n + 1
    ensures n < MaxAttempts(retryCount) && !Orchestrator.HasNodeOfType(o, task.magicianType) ==>
              RetryLoop(OrchestratorDispatcher(o), task, n, retryCount, lastError).lastError
              == Some(Orchestrator.NoNodesError(task.magicianType))
    decreases MaxAttempts(retryCount) - n
  {
    var dispatch := OrchestratorDispatcher(o);
    var answer := Orchestrator.ExecuteTask(o, task).value;
    assert dispatch(task, n) == Returned(answer);
    if n < MaxAttempts(retryCount) && answer.status != Success {
      OrchestratorRetries(o, task, n + 1, retryCount, answer.error);
    }
  }

  /** A step that runs against the orchestrator succeeds exactly when some
      node of its magician type is registered, after a single call; otherwise
      it fails after `retry_count + 1` calls with the orchestrator's
      "No <type> nodes available" error. */
  lemma OrchestratorBackedStep(o: Orchestrator.Orchestrator, evaluate: Evaluator, pathwayId: string,
                               index: nat, step: PathwayStep, payload: map<string, Value>)
    requires Orchestrator.Valid(o)
    requires step.retryCount >= 0
    requires !SkipsStep(evaluate, step, payload)
    ensures ExecuteStep(OrchestratorDispatcher(o), evaluate, pathwayId, index, step, payload).result.status
            == Finished(if Orchestrator.HasNodeOfType(o, step.magician) then Success else Failure)
    ensures Orchestrator.HasNodeOfType(o, step.magician) ==>
              ExecuteStep(OrchestratorDispatcher(o), evaluate, pathwayId, index, step, payload).calls == 1
    ensures !Orchestrator.HasNodeOfType(o, step.magician) ==>
              && ExecuteStep(OrchestratorDispatcher(o), evaluate, pathwayId, index, step, payload).calls
                 == step.retryCount + 1
              && ExecuteStep(OrchestratorDispatcher(o), evaluate, pathwayId, index, step, payload).result.error
                 == Some(Orchestrator.NoNodesError(step.magician))
  {
    OrchestratorRetries(o, StepTask(pathwayId, index, step, payload), 0, step.retryCount, None);
  }

  /** A failed step halts the pathway unless it names an `on_failure` handler. */
  predicate Halts(step: PathwayStep, r: StepResult) {
    r.status == Finished(Failure) && !IsSet(step.onFailure)
  }

  /** The payload handed on after a step: updated with its result map when
      that map is present and non-empty. */
  function Thread(payload: map<string, Value>, r: StepResult): map<string, Value> {
    if r.result.Some? && |r.result.value| > 0 then payload + r.result.value else payload
  }

  /** `_execute_step` with the pathway's oracles and id fixed: step index,
      step and current payload to step result. The payload type is left
      generic so that the run's bookkeeping is separate from what the payload
      holds. */
  type StepExecutor<-P> = (nat, PathwayStep, P) -> StepResult

  /** How the payload is handed on from one step to the next. */
  type Threader<!P> = (P, StepResult) -> P

  function StepExecutorOf(dispatch: Dispatcher, evaluate: Evaluator, pathwayId: string): StepExecutor<map<string, Value>> {
    (i: nat, step: PathwayStep, payload: map<string, Value>) =>
      ExecuteStep(dispatch, evaluate, pathwayId, i, step, payload).result
  }

  /** `_execute_sequential` from step `from` on, with `payload` as the current
      payload: the results form a prefix of the steps, ending at the first step
      that halts. */
  function RunSequential<P>(exec: StepExecutor<P>, thread: Threader<P>, steps: seq<PathwayStep>, from: nat,
                            payload: P): (r: seq<StepResult>)
    ensures from < |steps| ==> 1 <= |r| <= |steps| - from
    ensures from >= |steps| ==> r == []
    ensures forall i :: 0 <= i < |r| - 1 ==> !Halts(steps[from + i], r[i])
    ensures from + |r| < |steps| ==> Halts(steps[from + |r| - 1], r[|r| - 1])
    decreases |steps| - from
  {
    if from >= |steps| then []
    else
      var sr := exec(from, steps[from], payload);
      if Halts(steps[from], sr) then [sr]
      else
        var rest := RunSequential(exec, thread, steps, from + 1, thread(payload, sr));
        assert forall i :: 1 <= i < |rest| + 1 ==> ([sr] + rest)[i] == rest[i - 1];
        [sr] + rest
  }

  /** Only a failure without an `on_failure` handler ends the run early: a
      skipped step, a successful one, and a failed one with a handler are
      always followed by the next step's result. */
  lemma SequentialStopsOnlyAtHalt<P>(exec: StepExecutor<P>, thread: Threader<P>, steps: seq<PathwayStep>, initial: P)
    ensures |steps| > 0 ==> |RunSequential(exec, thread, steps, 0, initial)| > 0
    ensures forall i :: 0 <= i < |RunSequential(exec, thread, steps, 0, initial)| && i + 1 < |steps| &&
                        !Halts(steps[i], RunSequential(exec, thread, steps, 0, initial)[i]) ==>
              i + 1 < |RunSequential(exec, thread, steps, 0, initial)|
    ensures forall i :: 0 <= i < |RunSequential(exec, thread, steps, 0, initial)| &&
                        Halts(steps[i], RunSequential(exec, thread, steps, 0, initial)[i]) ==>
              i == |RunSequential(exec, thread, steps, 0, initial)| - 1
  {
  }

  /** Reference definition of the payload step `i` receives: the initial payload,
      threaded through the results of steps 0..i-1. */
  function PayloadBefore<P>(exec: StepExecutor<P>, thread: Threader<P>, steps: seq<PathwayStep>, initial: P, i: nat): P
    requires i <= |steps|
    decreases i, 0
  {
    if i == 0 then initial
    else thread(PayloadBefore(exec, thread, steps, initial, i - 1), ReferenceStep(exec, thread, steps, initial, i - 1))
  }

  /** Reference definition of step `i`'s result: the step run on the payload
      of the reference definition. */
  function ReferenceStep<P>(exec: StepExecutor<P>, thread: Threader<P>, steps: seq<PathwayStep>, initial: P, i: nat): StepResult
    requires i < |steps|
    decreases i, 1
  {
    exec(i, steps[i], PayloadBefore(exec, thread, steps, initial, i))
  }

  /** Result `i` of the run from `from` is the reference result of step `from + i`. */
  lemma {:induction false} SequentialStepAt<P>(exec: StepExecutor<P>, thread: Threader<P>, steps: seq<PathwayStep>,
                                               initial: P, from: nat, payload: P, i: nat)
    requires from <= |steps|
    requires payload == PayloadBefore(exec, thread, steps, initial, from)
    requires i < |RunSequential(exec, thread, steps, from, payload)|
    ensures RunSequential(exec, thread, steps, from, payload)[i] == ReferenceStep(exec, thread, steps, initial, from + i)
    decreases i
  {
    var sr := exec(from, steps[from], payload);
    if i > 0 {
      var next := thread(payload, sr);
      assert next == PayloadBefore(exec, thread, steps, initial, from + 1);
      assert RunSequential(exec, thread, steps, from, payload) == [sr] + RunSequential(exec, thread, steps, from + 1, next);
      SequentialStepAt(exec, thread, steps, initial, from + 1, next, i - 1);
    }
  }

  /** The sequential run agrees with the reference definition everywhere: each
      step receives the payload of the step before it, threaded through that
      step's result. */
  lemma SequentialThreadsPayload<P>(exec: StepExecutor<P>, thread: Threader<P>, steps: seq<PathwayStep>, initial: P)
    ensures forall i :: 0 <= i < |RunSequential(exec, thread, steps, 0, initial)| ==>
              RunSequential(exec, thread, steps, 0, initial)[i] == ReferenceStep(exec, thread, steps, initial, i)
  {
    forall i | 0 <= i < |RunSequential(exec, thread, steps, 0, initial)|
      ensures RunSequential(exec, thread, steps, 0, initial)[i] == ReferenceStep(exec, thread, steps, initial, i)
    {
      SequentialStepAt(exec, thread, steps, initial, 0, initial, i);
    }
  }

  /** With the engine's own step executor the results are numbered 0, 1, ...
      and carry their steps' magician and action, in step order. */
  lemma SequentialResultsInStepOrder(dispatch: Dispatcher, evaluate: Evaluator, pathwayId: string,
                                     steps: seq<PathwayStep>, initial: map<string, Value>)
    ensures forall i :: 0 <= i < |RunSequential(StepExecutorOf(dispatch, evaluate, pathwayId), Thread, steps, 0, initial)| ==>
              RunSequential(StepExecutorOf(dispatch, evaluate, pathwayId), Thread, steps, 0, initial)[i].stepIndex == i
    ensures forall i :: 0 <= i < |RunSequential(StepExecutorOf(dispatch, evaluate, pathwayId), Thread, steps, 0, initial)| ==>
              RunSequential(StepExecutorOf(dispatch, evaluate, pathwayId), Thread, steps, 0, initial)[i].magician == steps[i].magician
    ensures forall i :: 0 <= i < |RunSequential(StepExecutorOf(dispatch, evaluate, pathwayId), Thread, steps, 0, initial)| ==>
              RunSequential(StepExecutorOf(dispatch, evaluate, pathwayId), Thread, steps, 0, initial)[i].action == steps[i].action
  {
    var exec := StepExecutorOf(dispatch, evaluate, pathwayId);
    SequentialThreadsPayload(exec, Thread, steps, initial);
  }

  /** `_execute_parallel`: every step runs on the initial payload, none halts
      the others, and results come back in step order. */
  function RunParallel(dispatch: Dispatcher, evaluate: Evaluator, pathwayId: string,
                       steps: seq<PathwayStep>, initial: map<string, Value>): (r: seq<StepResult>)
    ensures |r| == |steps|
    ensures forall i :: 0 <= i < |r| ==> r[i].stepIndex == i && r[i].action == steps[i].action
    ensures forall i :: 0 <= i < |r| ==> (r[i].status == Skipped <==> SkipsStep(evaluate, steps[i], initial))
    ensures forall i :: 0 <= i < |r| ==> r[i] == ExecuteStep(dispatch, evaluate, pathwayId, i, steps[i], initial).result
  {
    seq(|steps|, i requires 0 <= i < |steps| => ExecuteStep(dispatch, evaluate, pathwayId, i, steps[i], initial).result)
  }

  /** `execute_pathway`: runs the steps and returns the context with status
      "completed". Every exception a step can meet is caught inside the step, so
      the "failed" outcome cannot arise. The pathway is removed from the active
      set whatever happens. */
  function ExecutePathway(engine: Engine, dispatch: Dispatcher, evaluate: Evaluator,
                          pathway: Pathway, initial: map<string, Value>): (r: (ExecutionContext, Engine))
    ensures r.0.status == Completed
    ensures r.0.pathwayId == pathway.pathwayId && r.0.name == pathway.name
    ensures r.0.steps == r.0.results
    ensures !pathway.parallel ==>
              r.0.results == RunSequential(StepExecutorOf(dispatch, evaluate, pathway.pathwayId), Thread, pathway.steps, 0, initial)
    ensures pathway.parallel ==> r.0.results == RunParallel(dispatch, evaluate, pathway.pathwayId, pathway.steps, initial)
    ensures pathway.pathwayId !in r.1.active
    ensures r.1.active == engine.active - {pathway.pathwayId}
  {
    var running := ExecutionContext(pathway.pathwayId, pathway.name, [], Running, []);
    var during := Engine(engine.active[pathway.pathwayId := running]);
    var results :=
      if pathway.parallel then RunParallel(dispatch, evaluate, pathway.pathwayId, pathway.steps, initial)
      else RunSequential(StepExecutorOf(dispatch, evaluate, pathway.pathwayId), Thread, pathway.steps, 0, initial);
    (running.(steps := results, status := Completed, results := results),
     Engine(during.active - {pathway.pathwayId}))
  }

  /** `get_pathway_status`: the context of a pathway while it is active. */
  function GetPathwayStatus(engine: Engine, pathwayId: string): (r: Option<ExecutionContext>)
    ensures r.Some? <==> pathwayId in engine.active
    ensures r.Some? ==> r.value == engine.active[pathwayId]
  {
    if pathwayId in engine.active then Some(engine.active[pathwayId]) else None
  }

  /** Once `execute_pathway` has returned, its pathway has no status any more. */
  lemma NoStatusAfterExecution(engine: Engine, dispatch: Dispatcher, evaluate: Evaluator,
                               pathway: Pathway, initial: map<string, Value>)
    ensures GetPathwayStatus(ExecutePathway(engine, dispatch, evaluate, pathway, initial).1, pathway.pathwayId) == None
  {
  }
}
