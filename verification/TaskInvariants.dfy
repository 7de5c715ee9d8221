/** What every reachable store satisfies, and the proof that each of the eight calls keeps it. */
module TaskInvariants {
  import opened Options
  import opened TaskStateMachine
  import opened TaskRecords
  import opened TaskDecisions

  /** Each task has a log, legal, whose replay is the task's status. */
  ghost predicate LogsTellStatus(store: Store) {
    && store.logs.Keys == store.tasks.Keys
    && forall id | id in store.tasks ::
         Legal(store.logs[id]) && Replay(store.logs[id]) == Some(store.tasks[id].status)
  }

  /** The two states a task enters when another task takes over. */
  predicate Superseded(status: TaskStatus) {
    status in {Retasked, Redirected}
  }

  /** `task` continues `parent`: one level deeper, same root and inherited fields, and the input that its
      origin prescribes. */
  predicate Continues(task: Task, parentId: TaskId, parent: Task) {
    && task.spec.parent == Some(parentId)
    && task.spec.root == Some(parent.spec.root.GetOr(parentId))
    && task.spec.depth == parent.spec.depth + 1
    && task.spec.workflow == parent.spec.workflow && task.spec.principal == parent.spec.principal
    && task.spec.executor == parent.spec.executor
    && task.spec.timeout == parent.spec.timeout && task.spec.delegationDepth == parent.spec.delegationDepth
    && match task.spec.origin
       case Refined(additional) => task.spec.input == parent.spec.input + additional
       case Replaced(newInput) => task.spec.input == newInput
       case Dispatched(_) => false
  }

  predicate IsRoot(task: Task) {
    && task.spec.parent.None? && task.spec.root.None? && task.spec.depth == 0
    && task.spec.origin == Dispatched(task.spec.input)
  }

  /** A task within the depth limit that is a root or continues a superseded task of the store. */
  predicate Linked(settings: Settings, store: Store, task: Task) {
    && task.spec.depth <= settings.maxDepth
    && match task.spec.parent
       case None => IsRoot(task)
       case Some(p) => p in store.tasks && Superseded(store.tasks[p].status) && Continues(task, p, store.tasks[p])
  }

  ghost predicate LineageLinked(settings: Settings, store: Store) {
    forall id | id in store.tasks :: Linked(settings, store, store.tasks[id])
  }

  ghost predicate OnlyChildren(store: Store) {
    forall a, b | a in store.tasks && b in store.tasks && store.tasks[a].spec.parent.Some? ::
      store.tasks[a].spec.parent == store.tasks[b].spec.parent ==> a == b
  }

  /** The timestamps of a row agree with its status and with each other. */
  predicate Timed(task: Task, now: Time) {
    && (task.completedAt.Some? <==> IsTerminal(task.status))
    && (task.status in {Running, Paused, Completed, Redirected} ==> task.startedAt.Some?)
    && task.spec.createdAt <= now
    && (task.startedAt.Some? ==> task.spec.createdAt <= task.startedAt.value <= now)
    && (task.completedAt.Some? ==> task.spec.createdAt <= task.completedAt.value <= now)
    && (task.startedAt.Some? && task.completedAt.Some? ==> task.startedAt.value <= task.completedAt.value)
  }

  ghost predicate AllTimed(store: Store, now: Time) {
    forall id | id in store.tasks :: Timed(store.tasks[id], now)
  }

  ghost predicate Valid(settings: Settings, store: Store, now: Time) {
    LogsTellStatus(store) && LineageLinked(settings,
                                           store) && OnlyChildren(store) && KeysUnique(store) && AllTimed(store, now)
  }

  // ---------------------------------------------------------------- lawful effects

  /** A rewritten row differs from the old one only where the calls may write; `startedAt` is write-once. */
  predicate Rewrites(was: Task, task: Task) {
    && task.spec == was.spec
    && (was.startedAt.Some? ==> task.startedAt == was.startedAt)
  }

  /** An event may be appended with this row: it is newer than the log and tells the row's new status. */
  ghost predicate Tells(store: Store, id: TaskId, task: Task, event: TaskEvent)
    requires id in store.tasks
  {
    && event.kind != "created"
    && MaxSequence(LogOf(store, id)) < event.sequence
    && match StatusOf(event)
       case None => task.status == store.tasks[id].status
       case Some(status) => task.status == status && CanTransition(store.tasks[id].status, status)
  }

  ghost predicate LawfulUpdate(store: Store, id: TaskId, task: Task, event: TaskEvent, now: Time) {
    id in store.tasks && Rewrites(store.tasks[id], task) && Tells(store, id, task, event) && Timed(task, now)
  }

  ghost predicate LawfulInsert(settings: Settings, store: Store, id: TaskId, task: Task, event: TaskEvent, now: Time) {
    && id !in store.tasks
    && task.status == Accepted && task.spec.depth <= settings.maxDepth && Timed(task, now)
    && Legal([event]) && StatusOf(event) == Some(Accepted)
    && (task.spec.idempotencyKey.Some? ==> Holders(store, task.spec.idempotencyKey.value) == {})
  }

  ghost predicate Lawful(settings: Settings, store: Store, effect: Effect, now: Time) {
    match effect
    case Nothing => true
    case Insert(id, task, event) => LawfulInsert(settings, store, id, task, event, now) && IsRoot(task)
    case Update(id, task, event) => LawfulUpdate(store, id, task, event, now)
    case Fork(id, task, event, childId, child, childEvent) =>
      && LawfulUpdate(store, id, task, event, now)
      && !Superseded(store.tasks[id].status) && Superseded(task.status)
      && LawfulInsert(settings, store, childId, child, childEvent, now)
      && Continues(child, id, store.tasks[id])
  }

  // ---------------------------------------------------------------- every decision is lawful

  lemma ChangeTells(kind: string, from: TaskStatus, to: TaskStatus, extra: Data, sequence: int, at: Time)
    requires kind in {"status", "pause_requested", "resume_requested"} && "status" !in extra
    ensures StatusOf(ChangeEvent(kind, from, to, extra, sequence, at)) == Some(to)
  {
  }

  lemma CreatedOpens(caller: string, extra: Data, at: Time)
    ensures Legal([CreatedEvent(caller, extra, at)])
    ensures StatusOf(CreatedEvent(caller, extra, at)) == Some(Accepted)
  {
  }

  lemma CreateLawful(settings: Settings, store: Store, call: Call, at: Moment, now: Time)
    requires call.CreateTask? && at.first <= at.second
    ensures Lawful(settings, store, DecideCreate(store, call, at).effect, at.second)
  {
  }

  lemma CancelLawful(settings: Settings, store: Store, call: Call, at: Moment, now: Time)
    requires call.CancelTask? && AllTimed(store, now) && now <= at.first <= at.second
    ensures Lawful(settings, store, DecideCancel(store, call, at).effect, at.second)
  {
  }

  lemma ForkLawful(settings: Settings, store: Store, id: TaskId, to: TaskStatus, input: Data, origin: Origin,
                   asked: Option<string>, key: Option<string>, extra: Data, link: Data, at: Moment, now: Time)
    requires id in store.tasks && Timed(store.tasks[id], now) && now <= at.first <= at.second
    requires Superseded(to) && CanTransition(store.tasks[id].status, to) && "status" !in extra
    requires store.tasks[id].spec.depth < settings.maxDepth
    requires key.Some? ==> Holders(store, key.value) == {}
    requires match origin
             case Refined(additional) => input == store.tasks[id].spec.input + additional
             case Replaced(newInput) => input == newInput
             case Dispatched(_) => false
    ensures Lawful(settings, store, DecideFork(store, id, store.tasks[id], to, input, origin, asked, key, extra, link,
                                               at).effect, at.second)
  {
    var task := store.tasks[id];
    ChangeTells("status", task.status, to, extra, NextSequence(store, id), at.second);
    CreatedOpens(task.spec.principal, link, at.second);
  }

  lemma RetaskLawful(settings: Settings, store: Store, call: Call, at: Moment, now: Time)
    requires call.RetaskTask? && AllTimed(store, now) && now <= at.first <= at.second
    ensures Lawful(settings, store, DecideRetask(settings, store, call, at).effect, at.second)
  {
    if DecideRetask(settings, store, call, at).effect.Fork? {
      var merged := store.tasks[call.task].spec.input + call.additionalInput;
      ForkLawful(settings, store, call.task, Retasked, merged, Refined(call.additionalInput), call.priority, call.key,
                 map["retask_id" := Text(at.newId), "retasked_by" := Text(call.caller)],
                 map["retask_of" := Text(call.task)], at, now);
    }
  }

  lemma RedirectLawful(settings: Settings, store: Store, call: Call, at: Moment, now: Time)
    requires call.RedirectTask? && AllTimed(store, now) && now <= at.first <= at.second
    ensures Lawful(settings, store, DecideRedirect(settings, store, call, at).effect, at.second)
  {
    if DecideRedirect(settings, store, call, at).effect.Fork? {
      ForkLawful(settings, store, call.task, Redirected, call.newInput, Replaced(call.newInput), call.priority,
                 call.key,
                 map["reason" := call.reason, "redirect_id" := Text(at.newId), "redirected_by" := Text(call.caller)],
                 map["redirect_of" := Text(call.task)], at, now);
    }
  }

  lemma PauseLawful(settings: Settings, store: Store, call: Call, at: Moment, now: Time)
    requires call.PauseTask? && AllTimed(store, now) && now <= at.first <= at.second
    ensures Lawful(settings, store, DecidePause(store, call, at).effect, at.second)
  {
  }

  lemma ResumeLawful(settings: Settings, store: Store, call: Call, at: Moment, now: Time)
    requires call.ResumeTask? && AllTimed(store, now) && now <= at.first <= at.second
    ensures Lawful(settings, store, DecideResume(settings, store, call, at).effect, at.second)
  {
    var expired := map["reason" := Text("PAUSE_TIMEOUT")];
    ChangeTells("status", Paused, Cancelled, expired, NextSequence(store, call.task), at.second);
    var extra := map["resumed_by" := Text(call.caller)];
    ChangeTells("resume_requested", Paused, Running, extra, NextSequence(store, call.task), at.second);
  }

  lemma InjectLawful(settings: Settings, store: Store, call: Call, at: Moment, now: Time)
    requires call.InjectContext? && AllTimed(store, now) && now <= at.first <= at.second
    ensures Lawful(settings, store, DecideInject(store, call, at).effect, at.second)
  {
  }

  lemma ExecutorEventLawful(task: Task, kind: string, data: Data, at: Moment, sequence: int, now: Time)
    requires kind in EXECUTOR_EVENTS && Timed(task, now) && now <= at.first <= at.second
    requires ApplyExecutorEvent(task, kind, data, at).Becomes?
    ensures var after := ApplyExecutorEvent(task, kind, data, at).task;
            && Rewrites(task, after) && Timed(after, at.second)
            && match StatusOf(TaskEvent(kind, data, sequence, at.first))
               case None => after.status == task.status
               case Some(status) => after.status == status && CanTransition(task.status, status)
  {
  }

  lemma SidecarLawful(settings: Settings, store: Store, call: Call, at: Moment, now: Time)
    requires call.SidecarEvent? && AllTimed(store, now) && now <= at.first <= at.second
    ensures Lawful(settings, store, DecideSidecar(store, call, at).effect, at.second)
  {
    if DecideSidecar(store, call, at).effect.Update? {
      ExecutorEventLawful(store.tasks[call.task], call.kind, call.data, at, call.sequence, now);
    }
  }

  lemma DecisionLawful(settings: Settings, store: Store, request: Request, now: Time)
    requires AllTimed(store, now) && now <= request.at.first <= request.at.second
    ensures Lawful(settings, store, Decide(settings, store, request).effect, request.at.second)
  {
    match request.call
    case CreateTask(_, _, _, _, _, _, _, _) => CreateLawful(settings, store, request.call, request.at, now);
    case CancelTask(_, _, _, _) => CancelLawful(settings, store, request.call, request.at, now);
    case RetaskTask(_, _, _, _, _, _) => RetaskLawful(settings, store, request.call, request.at, now);
    case RedirectTask(_, _, _, _, _, _, _) => RedirectLawful(settings, store, request.call, request.at, now);
    case PauseTask(_, _, _, _) => PauseLawful(settings, store, request.call, request.at, now);
    case ResumeTask(_, _, _, _) => ResumeLawful(settings, store, request.call, request.at, now);
    case InjectContext(_, _, _, _, _) => InjectLawful(settings, store, request.call, request.at, now);
    case SidecarEvent(_, _, _, _, _) => SidecarLawful(settings, store, request.call, request.at, now);
  }

  // ---------------------------------------------------------------- lawful effects keep the store valid

  /** The store with a row rewritten or inserted and one event appended to its log. */
  function With(store: Store, id: TaskId, task: Task, event: TaskEvent): Store {
    Append(Put(store, id, task), id, event)
  }

  lemma UpdateKeepsLogs(store: Store, id: TaskId, task: Task, event: TaskEvent, now: Time)
    requires LogsTellStatus(store) && LawfulUpdate(store, id, task, event, now)
    ensures LogsTellStatus(With(store, id, task, event))
  {
  }

  lemma UpdateKeepsLineage(settings: Settings, store: Store, id: TaskId, task: Task, event: TaskEvent, now: Time)
    requires LineageLinked(settings, store) && LawfulUpdate(store, id, task, event, now)
    ensures LineageLinked(settings, With(store, id, task, event))
  {
    var after := With(store, id, task, event);
    forall other | other in after.tasks
      ensures Linked(settings, after, after.tasks[other])
    {
      assert Linked(settings, store, store.tasks[other]);
      RewriteKeepsLink(settings, store, id, task, event, now, store.tasks[other]);
      if other == id {
        RewriteKeepsShape(settings, after, store.tasks[id], task);
      }
    }
  }

  /** Rewriting one row leaves links to it intact: a superseded task has no transition left. */
  lemma RewriteKeepsLink(settings: Settings, store: Store, id: TaskId, task: Task, event: TaskEvent, now: Time,
                         linked: Task)
    requires LawfulUpdate(store, id, task, event, now) && Linked(settings, store, linked)
    ensures Linked(settings, With(store, id, task, event), linked)
  {
  }

  lemma RewriteKeepsShape(settings: Settings, store: Store, was: Task, task: Task)
    requires Rewrites(was, task) && Linked(settings, store, was)
    ensures Linked(settings, store, task)
  {
  }

  lemma UpdateKeepsRest(store: Store, id: TaskId, task: Task, event: TaskEvent, now: Time, until: Time)
    requires OnlyChildren(store) && KeysUnique(store) && AllTimed(store, now) && now <= until
    requires LawfulUpdate(store, id, task, event, until)
    ensures OnlyChildren(With(store, id, task, event))
    ensures KeysUnique(With(store, id, task, event))
    ensures AllTimed(With(store, id, task, event), until)
  {
  }

  lemma UpdateKeeps(settings: Settings, store: Store, id: TaskId, task: Task, event: TaskEvent, now: Time, until: Time)
    requires Valid(settings, store, now) && now <= until && LawfulUpdate(store, id, task, event, until)
    ensures Valid(settings, With(store, id, task, event), until)
  {
    UpdateKeepsLogs(store, id, task, event, until);
    UpdateKeepsLineage(settings, store, id, task, event, until);
    UpdateKeepsRest(store, id, task, event, now, until);
  }

  /** A new task is a root, or the first to continue a superseded task. */
  ghost predicate Attaches(store: Store, task: Task) {
    match task.spec.parent
    case None => IsRoot(task)
    case Some(p) =>
      && p in store.tasks && Superseded(store.tasks[p].status) && Continues(task, p, store.tasks[p])
      && forall other | other in store.tasks :: store.tasks[other].spec.parent != Some(p)
  }

  lemma InsertKeepsLogs(settings: Settings, store: Store, id: TaskId, task: Task, event: TaskEvent, now: Time)
    requires LogsTellStatus(store) && LawfulInsert(settings, store, id, task, event, now)
    ensures LogsTellStatus(With(store, id, task, event))
  {
  }

  lemma InsertKeepsLineage(settings: Settings, store: Store, id: TaskId, task: Task, event: TaskEvent, now: Time)
    requires LineageLinked(settings, store) && OnlyChildren(store)
    requires LawfulInsert(settings, store, id, task, event, now) && Attaches(store, task)
    ensures LineageLinked(settings, With(store, id, task, event)) && OnlyChildren(With(store, id, task, event))
  {
    InsertKeepsLinks(settings, store, id, task, event);
    InsertKeepsChildren(store, id, task, event);
  }

  lemma InsertKeepsLinks(settings: Settings, store: Store, id: TaskId, task: Task, event: TaskEvent)
    requires LineageLinked(settings, store) && id !in store.tasks
    requires task.spec.depth <= settings.maxDepth && Attaches(store, task)
    ensures LineageLinked(settings, With(store, id, task, event))
  {
  }

  lemma InsertKeepsChildren(store: Store, id: TaskId, task: Task, event: TaskEvent)
    requires OnlyChildren(store) && id !in store.tasks && Attaches(store, task)
    ensures OnlyChildren(With(store, id, task, event))
  {
  }

  lemma InsertKeepsKeys(settings: Settings, store: Store, id: TaskId, task: Task, event: TaskEvent, now: Time)
    requires KeysUnique(store) && LawfulInsert(settings, store, id, task, event, now)
    ensures KeysUnique(With(store, id, task, event))
  {
    forall other | other in store.tasks && task.spec.idempotencyKey.Some?
      ensures store.tasks[other].spec.idempotencyKey != task.spec.idempotencyKey
    {
      assert other !in Holders(store, task.spec.idempotencyKey.value);
    }
  }

  lemma InsertKeepsTimes(store: Store, id: TaskId, task: Task, event: TaskEvent, now: Time, until: Time)
    requires AllTimed(store, now) && now <= until && Timed(task, until)
    ensures AllTimed(With(store, id, task, event), until)
  {
  }

  lemma InsertKeeps(settings: Settings, store: Store, id: TaskId, task: Task, event: TaskEvent, now: Time, until: Time)
    requires Valid(settings, store, now) && now <= until
    requires LawfulInsert(settings, store, id, task, event, until) && Attaches(store, task)
    ensures Valid(settings, With(store, id, task, event), until)
  {
    InsertKeepsLogs(settings, store, id, task, event, until);
    InsertKeepsLineage(settings, store, id, task, event, until);
    InsertKeepsKeys(settings, store, id, task, event, until);
    InsertKeepsTimes(store, id, task, event, now, until);
  }

  /** A fork is an update of the parent followed by the insertion of its only child. */
  lemma ForkAttaches(settings: Settings, store: Store, effect: Effect, now: Time, until: Time)
    requires Valid(settings, store, now) && effect.Fork? && Lawful(settings, store, effect, until)
    ensures var middle := With(store, effect.id, effect.task, effect.event);
            && LawfulInsert(settings, middle, effect.childId, effect.child, effect.childEvent, until)
            && Attaches(middle, effect.child)
            && With(middle, effect.childId, effect.child, effect.childEvent) == Commit(store, effect)
  {
  }

  lemma ForkKeeps(settings: Settings, store: Store, effect: Effect, now: Time, until: Time)
    requires Valid(settings, store, now) && now <= until
    requires effect.Fork? && Lawful(settings, store, effect, until)
    ensures Valid(settings, Commit(store, effect), until)
  {
    var middle := With(store, effect.id, effect.task, effect.event);
    UpdateKeeps(settings, store, effect.id, effect.task, effect.event, now, until);
    ForkAttaches(settings, store, effect, now, until);
    InsertKeeps(settings, middle, effect.childId, effect.child, effect.childEvent, until, until);
  }

  lemma LawfulKeeps(settings: Settings, store: Store, effect: Effect, now: Time, until: Time)
    requires Valid(settings, store, now) && now <= until && Lawful(settings, store, effect, until)
    ensures Valid(settings, Commit(store, effect), until)
  {
    match effect
    case Nothing =>
    case Insert(id, task, event) => InsertKeeps(settings, store, id, task, event, now, until);
    case Update(id, task, event) => UpdateKeeps(settings, store, id, task, event, now, until);
    case Fork(_, _, _, _, _, _) => ForkKeeps(settings, store, effect, now, until);
  }

  // ---------------------------------------------------------------- every reachable store is valid

  lemma ServeKeeps(settings: Settings, store: Store, request: Request, now: Time)
    requires Valid(settings, store, now) && now <= request.at.first <= request.at.second
    ensures Valid(settings, Serve(settings, store, request), request.at.second)
  {
    DecisionLawful(settings, store, request, now);
    LawfulKeeps(settings, store, Decide(settings, store, request).effect, now, request.at.second);
  }

  /** After any history of calls the store is valid: the log of each task tells its status through valid
      transitions, lineages are linked, children and idempotency keys are unique, timestamps are ordered. */
  lemma {:induction false} ReachableValid(settings: Settings, history: seq<Request>)
    requires Timely(history) && history != []
    ensures Valid(settings, StoreAfter(settings, history), Now(history))
  {
    var before, last := history[..|history| - 1], history[|history| - 1];
    if before == [] {
      assert Valid(settings, EMPTY_STORE, last.at.first);
      ServeKeeps(settings, EMPTY_STORE, last, last.at.first);
    } else {
      ReachableValid(settings, before);
      ServeKeeps(settings, StoreAfter(settings, before), last, Now(before));
    }
  }
}
