/** What each service call decides: the rows and events it commits, and its reply.

    A decision is a function of the committed store, the call's arguments and what the environment
    supplies while it runs. The imperative methods in `TaskSession` are proved to commit exactly these. */
module TaskDecisions {
  import opened Options
  import opened TaskStateMachine
  import opened TaskRecords

  /** The two settings that bound tasks: the lineage depth limit and the pause time to live, in seconds. */
  datatype Settings = Settings(maxDepth: nat, pauseTtl: int)

  datatype Workflow = Workflow(owner: string, timeout: Option<int>)

  /** What the environment supplies to one call: the workflows, agents and suspended agents it sees, two readings
      of the clock, a generated task id, and which of equally new context events a query returns. */
  datatype Moment = Moment(
    workflows: map<string, Workflow>,
    agents: set<string>,
    suspended: set<string>,
    first: Time,
    second: Time,
    newId: TaskId,
    pick: nat)

  datatype Call =
    | CreateTask(workflow: string, caller: string, input: Data, schemaAccepts: bool, executor: Option<string>,
                 priorityName: string, timeout: Option<int>, key: Option<string>)
    | CancelTask(workflow: string, task: TaskId, caller: string, reason: Json)
    | RetaskTask(workflow: string, task: TaskId, caller: string, additionalInput: Data,
                 priority: Option<string>, key: Option<string>)
    | RedirectTask(workflow: string, task: TaskId, caller: string, reason: Json, newInput: Data,
                   priority: Option<string>, key: Option<string>)
    | PauseTask(workflow: string, task: TaskId, caller: string, reason: Json)
    | ResumeTask(workflow: string, task: TaskId, caller: string, priority: Option<string>)
    | InjectContext(workflow: string, task: TaskId, caller: string, context: Data, contextSequence: int)
    | SidecarEvent(task: TaskId, kind: string, data: Data, sequence: int, agent: string)

  datatype Request = Request(call: Call, at: Moment)

  datatype Error =
    | WorkflowNotFound
    | TaskNotFound
    | NotAuthorized
    | InvalidInput
    | InvalidStateTransition
    | RetaskNotReviewable
    | RedirectNotPossible
    | DepthExceeded
    | IdempotencyMismatch
    | TaskNotPausable
    | TaskNotPaused
    | PauseTimeout
    | ContextRejected
    | AgentSuspended
    | NotAnInteger  // `int()` raises on the context number of the newest injection
    | DuplicateId   // the primary key violation of two equal generated ids
    | UnknownAgent  // the foreign key violation of a row that names no agent

  datatype Reply = Done(task: TaskId, replayed: bool) | Raised(error: Error)

  datatype Effect =
    | Nothing
    | Insert(id: TaskId, task: Task, event: TaskEvent)
    | Update(id: TaskId, task: Task, event: TaskEvent)
    | Fork(id: TaskId, task: Task, event: TaskEvent, childId: TaskId, child: Task, childEvent: TaskEvent)

  datatype Decision = Decision(effect: Effect, reply: Reply)

  function Refuse(error: Error): Decision {
    Decision(Nothing, Raised(error))
  }

  /** A call that ran as decided: its effect is committed and its reply given. */
  predicate Carried(store: Store, decision: Decision, after: Store, reply: Reply) {
    after == Commit(store, decision.effect) && reply == decision.reply
  }

  function Commit(store: Store, effect: Effect): Store {
    match effect
    case Nothing => store
    case Insert(id, task, event) => Append(Put(store, id, task), id, event)
    case Update(id, task, event) => Append(Put(store, id, task), id, event)
    case Fork(id, task, event, childId, child, childEvent) =>
      Append(Append(Put(Put(store, id, task), childId, child), id, event), childId, childEvent)
  }

  // ---------------------------------------------------------------- steps shared by the calls

  datatype Found = Found(task: Task) | Missing(error: Error)

  /** Steps 1 to 3 of every principal-side call: the workflow, the task in it, the caller's right. */
  function Locate(store: Store, at: Moment, workflow: string, id: TaskId, caller: string): Found {
    if workflow !in at.workflows then Missing(WorkflowNotFound)
    else if id !in store.tasks || store.tasks[id].spec.workflow != workflow then Missing(TaskNotFound)
    else if caller != store.tasks[id].spec.principal && caller != at.workflows[workflow].owner then
      Missing(NotAuthorized)
    else Found(store.tasks[id])
  }

  /** The tasks holding an idempotency key. */
  function Holders(store: Store, key: string): set<TaskId> {
    set id | id in store.tasks && store.tasks[id].spec.idempotencyKey == Some(key)
  }

  datatype Idempotency = Fresh | Existing(id: TaskId) | Mismatch

  /** `check_idempotency`, with equal inputs for equal hashes; no key is always fresh. */
  ghost function CheckIdempotency(store: Store, key: Option<string>, input: Data): Idempotency {
    if key.None? || Holders(store, key.value) == {} then Fresh
    else
      var id :| id in Holders(store, key.value);
      if store.tasks[id].spec.input == input then Existing(id) else Mismatch
  }

  /** The unique index on `idempotency_key`. */
  ghost predicate KeysUnique(store: Store) {
    forall a, b | a in store.tasks && b in store.tasks && store.tasks[a].spec.idempotencyKey.Some? ::
      store.tasks[a].spec.idempotencyKey == store.tasks[b].spec.idempotencyKey ==> a == b
  }

  function NextSequence(store: Store, id: TaskId): int {
    MaxSequence(LogOf(store, id)) + 1
  }

  /** A status event of a principal-side call; `extra` holds the fields that only inform. */
  function ChangeEvent(kind: string, from: TaskStatus, to: TaskStatus, extra: Data, sequence: int,
                       at: Time): TaskEvent {
    TaskEvent(kind, extra["from_status" := Text(StatusName(from))]["to_status" := Text(StatusName(to))], sequence, at)
  }

  /** The `created` event; `extra` names the task it continues, if any. */
  function CreatedEvent(caller: string, extra: Data, at: Time): TaskEvent {
    TaskEvent("created", extra["status" := Text("accepted")]["caller" := Text(caller)], 1, at)
  }

  /** The priority a call asks for, `inherited` when it names none, nothing when it names no priority. */
  function ResolvePriority(asked: Option<string>, inherited: TaskPriority): Option<TaskPriority> {
    if asked.None? then Some(inherited) else ParsePriority(asked.value)
  }

  /** The row that retask and redirect insert: it inherits everything but its input, priority and key. */
  function Child(id: TaskId, task: Task, input: Data, origin: Origin, priority: TaskPriority,
                 key: Option<string>, at: Time): Task {
    var spec := TaskSpec(task.spec.workflow, task.spec.principal, task.spec.executor, input, task.spec.timeout,
                         Some(id), Some(task.spec.root.GetOr(id)), task.spec.depth + 1, task.spec.delegationDepth,
                         key, origin, at);
    Task(spec, Accepted, priority, Null, None, None, None)
  }

  // ---------------------------------------------------------------- crud.py

  ghost function DecideCreate(store: Store, call: Call, at: Moment): Decision
    requires call.CreateTask?
  {
    match CheckIdempotency(store, call.key, call.input)
    case Mismatch => Refuse(IdempotencyMismatch)
    case Existing(id) =>
      if call.workflow in at.workflows then Decision(Nothing, Done(id, true)) else Refuse(WorkflowNotFound)
    case Fresh =>
      if call.workflow !in at.workflows then Refuse(WorkflowNotFound) else
      var workflow := at.workflows[call.workflow];
      var executor := if call.executor.GetOr("") != "" then call.executor.value else workflow.owner;
      if executor in at.suspended then Refuse(AgentSuspended)
      else if !call.schemaAccepts then Refuse(InvalidInput)
      else if ParsePriority(call.priorityName).None? then Refuse(InvalidInput)
      else if at.newId in store.tasks then Refuse(DuplicateId)
      else if call.caller !in at.agents || executor !in at.agents then Refuse(UnknownAgent)
      else
        var timeout := if call.timeout.GetOr(0) != 0 then call.timeout else workflow.timeout;
        var spec := TaskSpec(call.workflow, call.caller, executor, call.input, timeout, None, None, 0, 0, call.key,
                             Dispatched(call.input), at.first);
        var task := Task(spec, Accepted, ParsePriority(call.priorityName).value, Null, None, None, None);
        Decision(Insert(at.newId, task, CreatedEvent(call.caller, map[], at.first)), Done(at.newId, false))
  }

  // ---------------------------------------------------------------- lifecycle.py

  function DecideCancel(store: Store, call: Call, at: Moment): Decision
    requires call.CancelTask?
  {
    match Locate(store, at, call.workflow, call.task, call.caller)
    case Missing(error) => Refuse(error)
    case Found(task) =>
      if !CanTransition(task.status, Cancelled) then Refuse(InvalidStateTransition)
      else
        var extra := map["reason" := call.reason, "cancelled_by" := Text(call.caller)];
        var event := ChangeEvent("status", task.status, Cancelled, extra, NextSequence(store, call.task), at.first);
        Decision(Update(call.task, Moved(task, Cancelled, at.first), event), Done(call.task, false))
  }

  /** The end of retask and redirect: `id` moves to `to` and a new task continues it. */
  function DecideFork(store: Store, id: TaskId, task: Task, to: TaskStatus, input: Data, origin: Origin,
                      asked: Option<string>, key: Option<string>, extra: Data, link: Data, at: Moment): Decision {
    var priority := ResolvePriority(asked, task.priority);
    if priority.None? then Refuse(InvalidInput)
    else if at.newId in store.tasks then Refuse(DuplicateId)
    else
      var child := Child(id, task, input, origin, priority.value, key, at.second);
      var event := ChangeEvent("status", task.status, to, extra, NextSequence(store, id), at.second);
      var created := CreatedEvent(task.spec.principal, link, at.second);
      Decision(Fork(id, Moved(task, to, at.first), event, at.newId, child, created), Done(at.newId, false))
  }

  ghost function DecideRetask(settings: Settings, store: Store, call: Call, at: Moment): Decision
    requires call.RetaskTask?
  {
    match Locate(store, at, call.workflow, call.task, call.caller)
    case Missing(error) => Refuse(error)
    case Found(task) =>
      if task.status !in {Completed, Failed} then Refuse(RetaskNotReviewable)
      else if task.spec.depth >= settings.maxDepth then Refuse(DepthExceeded)
      else
        var merged := task.spec.input + call.additionalInput;
        match CheckIdempotency(store, call.key, merged)
        case Mismatch => Refuse(IdempotencyMismatch)
        case Existing(id) => Decision(Nothing, Done(id, true))
        case Fresh =>
          var extra := map["retask_id" := Text(at.newId), "retasked_by" := Text(call.caller)];
          var link := map["retask_of" := Text(call.task)];
          DecideFork(store, call.task, task, Retasked, merged, Refined(call.additionalInput), call.priority, call.key,
                     extra, link, at)
  }

  ghost function DecideRedirect(settings: Settings, store: Store, call: Call, at: Moment): Decision
    requires call.RedirectTask?
  {
    match Locate(store, at, call.workflow, call.task, call.caller)
    case Missing(error) => Refuse(error)
    case Found(task) =>
      if task.status !in {Running, Paused} then Refuse(RedirectNotPossible)
      else if task.spec.depth >= settings.maxDepth then Refuse(DepthExceeded)
      else
        match CheckIdempotency(store, call.key, call.newInput)
        case Mismatch => Refuse(IdempotencyMismatch)
        case Existing(id) => Decision(Nothing, Done(id, true))
        case Fresh =>
          var extra := map["reason" := call.reason, "redirect_id" := Text(at.newId),
                           "redirected_by" := Text(call.caller)];
          var link := map["redirect_of" := Text(call.task)];
          DecideFork(store, call.task, task, Redirected, call.newInput, Replaced(call.newInput), call.priority,
                     call.key,
                     extra, link, at)
  }

  function DecidePause(store: Store, call: Call, at: Moment): Decision
    requires call.PauseTask?
  {
    match Locate(store, at, call.workflow, call.task, call.caller)
    case Missing(error) => Refuse(error)
    case Found(task) =>
      if task.status != Running then Refuse(TaskNotPausable)
      else
        var extra := map["reason" := call.reason, "paused_by" := Text(call.caller)];
        var event := ChangeEvent("pause_requested", Running, Paused, extra, NextSequence(store, call.task), at.second);
        Decision(Update(call.task, Moved(task, Paused, at.first).(pausedAt := Some(at.second)), event),
                 Done(call.task, false))
  }

  /** Whether a pause has outlived the configured time to live. */
  predicate PauseExpired(settings: Settings, task: Task, now: Time) {
    task.pausedAt.Some? && now - task.pausedAt.value > settings.pauseTtl * SECOND
  }

  function DecideResume(settings: Settings, store: Store, call: Call, at: Moment): Decision
    requires call.ResumeTask?
  {
    match Locate(store, at, call.workflow, call.task, call.caller)
    case Missing(error) => Refuse(error)
    case Found(task) =>
      if task.status != Paused then Refuse(TaskNotPaused)
      else if PauseExpired(settings, task, at.first) then
        var extra := map["reason" := Text("PAUSE_TIMEOUT")];
        var event := ChangeEvent("status", Paused, Cancelled, extra, NextSequence(store, call.task), at.second);
        Decision(Update(call.task, Moved(task, Cancelled, at.second), event), Raised(PauseTimeout))
      else
        var priority := ResolvePriority(call.priority, task.priority);
        if priority.None? then Refuse(InvalidInput)
        else
          var extra := map["resumed_by" := Text(call.caller)];
          var event := ChangeEvent("resume_requested", Paused, Running, extra, NextSequence(store, call.task),
                                   at.second);
          var resumed := Moved(task, Running, at.second).(pausedAt := None, priority := priority.value);
          Decision(Update(call.task, resumed, event), Done(call.task, false))
  }

  // ---------------------------------------------------------------- context.py

  predicate IsContext(log: seq<TaskEvent>, i: nat) {
    i < |log| && log[i].kind == "context_injected"
  }

  /** An injection the newest-first query may return: none was created later. */
  predicate IsNewestContext(log: seq<TaskEvent>, i: nat) {
    IsContext(log, i) && forall j: nat | j < |log| && IsContext(log, j) :: log[j].createdAt <= log[i].createdAt
  }

  /** The context number of the newest injection, 0 without one, `None` if that injection's is not a number.
      Among injections created at the same time the query returns any: `pick` if that is one of them, else the
      last. */
  function LastContextNumber(log: seq<TaskEvent>, pick: nat): Option<int> {
    if IsNewestContext(log, pick) then ContextNumber(log[pick]) else NewestContextNumber(log, |log|)
  }

  function ContextNumber(event: TaskEvent): Option<int> {
    if "context_sequence" in event.data then IntOf(event.data["context_sequence"]) else Some(0)
  }

  function NewestContextNumber(log: seq<TaskEvent>, upTo: nat): Option<int>
    requires upTo <= |log|
  {
    if upTo == 0 then Some(0)
    else if IsNewestContext(log, upTo - 1) then ContextNumber(log[upTo - 1])
    else NewestContextNumber(log, upTo - 1)
  }

  function DecideInject(store: Store, call: Call, at: Moment): Decision
    requires call.InjectContext?
  {
    match Locate(store, at, call.workflow, call.task, call.caller)
    case Missing(error) => Refuse(error)
    case Found(task) =>
      if task.status !in {Running, Paused} then Refuse(ContextRejected)
      else
        var last := LastContextNumber(LogOf(store, call.task), at.pick);
        if last.None? then Refuse(NotAnInteger)
        else if call.contextSequence <= last.value then Refuse(ContextRejected)
        else
          var data := call.context["context_sequence" := Number(call.contextSequence)];
          var event := TaskEvent("context_injected", data, NextSequence(store, call.task), at.first);
          Decision(Update(call.task, task, event), Done(call.task, false))
  }

  // ---------------------------------------------------------------- sidecar.py

  const EXECUTOR_EVENTS := {"status", "progress", "log", "completed", "failed", "heartbeat", "context_injected",
                            "escalation"}

  datatype RowChange = Becomes(task: Task) | Refused(error: Error)

  /** Step 5: what an executor's event makes of the row. */
  function ApplyExecutorEvent(task: Task, kind: string, data: Data, at: Moment): RowChange {
    match kind
    case "status" =>
      var status := StatusIn(Get(data, "status"));
      if status.None? then Refused(InvalidInput)
      else if !CanTransition(task.status, status.value) then Refused(InvalidStateTransition)
      else
        var moved := Moved(task, status.value, at.second);
        Becomes(if status.value == Running && task.startedAt.None? then moved.(startedAt := Some(at.first)) else moved)
    case "completed" =>
      if !CanTransition(task.status, Completed) then Refused(InvalidStateTransition)
      else Becomes(Moved(task, Completed, at.second).(result := Get(data, "result")))
    case "failed" =>
      if !CanTransition(task.status, Failed) then Refused(InvalidStateTransition)
      else
        var result := Object(map["error_code" := Get(data, "error_code"), "message" := Get(data, "message")]);
        Becomes(Moved(task, Failed, at.second).(result := result))
    case "progress" =>
      if "progress" !in data then Refused(InvalidInput) else Becomes(task)
    case _ => Becomes(task)
  }

  function DecideSidecar(store: Store, call: Call, at: Moment): Decision
    requires call.SidecarEvent?
  {
    if call.kind !in EXECUTOR_EVENTS then Refuse(InvalidInput)
    else if call.task !in store.tasks then Refuse(TaskNotFound)
    else if store.tasks[call.task].spec.executor != call.agent then Refuse(NotAuthorized)
    else if call.sequence <= MaxSequence(LogOf(store, call.task)) then Refuse(InvalidInput)
    else
      match ApplyExecutorEvent(store.tasks[call.task], call.kind, call.data, at)
      case Refused(error) => Refuse(error)
      case Becomes(task) =>
        Decision(Update(call.task, task, TaskEvent(call.kind, call.data, call.sequence, at.first)),
                 Done(call.task, false))
  }

  // ---------------------------------------------------------------- runs

  ghost function Decide(settings: Settings, store: Store, request: Request): Decision {
    match request.call
    case CreateTask(_, _, _, _, _, _, _, _) => DecideCreate(store, request.call, request.at)
    case CancelTask(_, _, _, _) => DecideCancel(store, request.call, request.at)
    case RetaskTask(_, _, _, _, _, _) => DecideRetask(settings, store, request.call, request.at)
    case RedirectTask(_, _, _, _, _, _, _) => DecideRedirect(settings, store, request.call, request.at)
    case PauseTask(_, _, _, _) => DecidePause(store, request.call, request.at)
    case ResumeTask(_, _, _, _) => DecideResume(settings, store, request.call, request.at)
    case InjectContext(_, _, _, _, _) => DecideInject(store, request.call, request.at)
    case SidecarEvent(_, _, _, _, _) => DecideSidecar(store, request.call, request.at)
  }

  ghost function Serve(settings: Settings, store: Store, request: Request): Store {
    Commit(store, Decide(settings, store, request).effect)
  }

  /** The store after serving a whole history, one call at a time, from an empty database. */
  ghost function StoreAfter(settings: Settings, history: seq<Request>): Store {
    if history == [] then EMPTY_STORE
    else Serve(settings, StoreAfter(settings, history[..|history| - 1]), history[|history| - 1])
  }

  /** The clock never runs backwards, within a call or from one call to the next. */
  ghost predicate Timely(history: seq<Request>) {
    forall i | 0 <= i < |history| ::
      && history[i].at.first <= history[i].at.second
      && (0 < i ==> history[i - 1].at.second <= history[i].at.first)
  }

  /** The last reading of the clock in a nonempty history. */
  function Now(history: seq<Request>): Time
    requires history != []
  {
    history[|history| - 1].at.second
  }
}
