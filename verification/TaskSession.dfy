/** The service calls as they run: a database session with a working copy, the task objects loaded from it,
    and the eight operations, each of which may change its working copy and then give up.

    Every operation is proved to commit exactly what `TaskDecisions` says it decides. */
module TaskSession {
  import opened Options
  import opened TaskStateMachine
  import opened TaskRecords
  import opened TaskDecisions
  import opened TaskInvariants
  import opened Lineage
  import TaskHistory

  /** A task loaded into memory. Changes reach the working copy only when the session flushes it. */
  class TaskObject {
    const id: TaskId
    const spec: TaskSpec
    var status: TaskStatus
    var priority: TaskPriority
    var result: Json
    var startedAt: Option<Time>
    var completedAt: Option<Time>
    var pausedAt: Option<Time>

    function Row(): Task
      reads this
    {
      Task(spec, status, priority, result, startedAt, completedAt, pausedAt)
    }

    constructor (id: TaskId, row: Task)
      ensures this.id == id && Row() == row
    {
      this.id, this.spec := id, row.spec;
      status, priority, result := row.status, row.priority, row.result;
      startedAt, completedAt, pausedAt := row.startedAt, row.completedAt, row.pausedAt;
    }

    /** Moves the task to `to` if the state machine allows it, and stamps a terminal state; else changes nothing. */
    method TransitionTo(to: TaskStatus, now: Time) returns (ok: bool)
      modifies this
      ensures ok <==> CanTransition(old(status), to)
      ensures Row() == if ok then Moved(old(Row()), to, now) else old(Row())
    {
      ok := CanTransition(status, to);
      if ok {
        status := to;
        if IsTerminal(to) {
          completedAt := Some(now);
        }
      }
    }
  }

  class Session {
    const settings: Settings
    var committed: Store
    var working: Store

    constructor (settings: Settings, database: Store)
      ensures Clean() && committed == database && this.settings == settings
    {
      this.settings := settings;
      committed, working := database, database;
    }

    /** Nothing uncommitted is pending. */
    predicate Clean()
      reads this
    {
      working == committed
    }

    /** What `get_session` does when a call raises. */
    method Rollback()
      modifies this`working
      ensures Clean()
    {
      working := committed;
    }

    method CommitWork()
      modifies this`committed
      ensures Clean()
    {
      committed := working;
    }

    method Flush(task: TaskObject)
      modifies this`working
      ensures working == Put(old(working), task.id, task.Row())
    {
      working := working.(tasks := working.tasks[task.id := task.Row()]);
    }

    /** Inserts a row, unless its generated id is taken. */
    method AddTask(id: TaskId, row: Task) returns (ok: bool)
      modifies this`working
      ensures ok <==> id !in old(working).tasks
      ensures working == if ok then Put(old(working), id, row) else old(working)
    {
      ok := id !in working.tasks;
      if ok {
        working := working.(tasks := working.tasks[id := row]);
      }
    }

    method AddEvent(id: TaskId, event: TaskEvent)
      modifies this`working
      ensures working == Append(old(working), id, event)
    {
      var log := if id in working.logs then working.logs[id] else [];
      working := working.(logs := working.logs[id := log + [event]]);
    }

    /** Loads the task a principal-side call names, after its three checks. */
    method Load(workflow: string, id: TaskId, caller: string, at: Moment) returns (task: TaskObject?, error: Error)
      ensures match Locate(working, at, workflow, id, caller)
              case Missing(e) => task == null && error == e
              case Found(row) =>
                task != null && fresh(task) && task.id == id && task.Row() == row && id in working.tasks
    {
      task, error := null, WorkflowNotFound;
      if workflow !in at.workflows {
        return;
      }
      if id !in working.tasks || working.tasks[id].spec.workflow != workflow {
        return null, TaskNotFound;
      }
      if caller != working.tasks[id].spec.principal && caller != at.workflows[workflow].owner {
        return null, NotAuthorized;
      }
      task := new TaskObject(id, working.tasks[id]);
    }

    /** The task that already holds the key, if its input is the same. */
    method FindByKey(key: Option<string>, input: Data) returns (found: Idempotency)
      requires KeysUnique(working)
      ensures found == CheckIdempotency(working, key, input)
    {
      if key.None? {
        return Fresh;
      }
      var holders := Holders(working, key.value);
      if holders == {} {
        return Fresh;
      }
      var id :| id in holders;
      assert forall other | other in holders :: other == id;
      found := if working.tasks[id].spec.input == input then Existing(id) else Mismatch;
    }

    // -------------------------------------------------------------- crud.py

    method CreateTask(call: Call, at: Moment) returns (reply: Reply)
      requires call.CreateTask? && Clean() && KeysUnique(committed)
      modifies this
      ensures Clean()
      ensures Carried(old(committed), DecideCreate(old(committed), call, at), committed, reply)
    {
      var existing := FindByKey(call.key, call.input);
      if existing.Mismatch? {
        return Raised(IdempotencyMismatch);
      }
      if call.workflow !in at.workflows {
        return Raised(WorkflowNotFound);
      }
      if existing.Existing? {
        return Done(existing.id, true);
      }
      var workflow := at.workflows[call.workflow];
      var executor := workflow.owner;
      if call.executor.Some? && call.executor.value != "" {
        executor := call.executor.value;
      }
      if executor in at.suspended {
        return Raised(AgentSuspended);
      }
      if !call.schemaAccepts {
        return Raised(InvalidInput);
      }
      var priority := ParsePriority(call.priorityName);
      if priority.None? {
        return Raised(InvalidInput);
      }
      var timeout := workflow.timeout;
      if call.timeout.Some? && call.timeout.value != 0 {
        timeout := call.timeout;
      }
      var spec := TaskSpec(call.workflow, call.caller, executor, call.input, timeout, None, None, 0, 0, call.key,
                           Dispatched(call.input), at.first);
      var ok := AddTask(at.newId, Task(spec, Accepted, priority.value, Null, None, None, None));
      if !ok {
        Rollback();
        return Raised(DuplicateId);
      }
      if call.caller !in at.agents || executor !in at.agents {
        Rollback();
        return Raised(UnknownAgent);
      }
      AddEvent(at.newId, TaskEvent("created", map["status" := Text("accepted"), "caller" := Text(call.caller)], 1,
                                   at.first));
      assert working.logs[at.newId] == LogOf(committed, at.newId) + [CreatedEvent(call.caller, map[], at.first)] by {
        assert map["status" := Text("accepted"), "caller" := Text(call.caller)]
            == CreatedEvent(call.caller, map[], at.first).data;
      }
      CommitWork();
      return Done(at.newId, false);
    }

    // -------------------------------------------------------------- lifecycle.py

    method CancelTask(call: Call, at: Moment) returns (reply: Reply)
      requires call.CancelTask? && Clean()
      modifies this
      ensures Clean()
      ensures Carried(old(committed), DecideCancel(old(committed), call, at), committed, reply)
    {
      var task, error := Load(call.workflow, call.task, call.caller, at);
      if task == null {
        return Raised(error);
      }
      var before := task.status;
      var ok := task.TransitionTo(Cancelled, at.first);
      if !ok {
        Rollback();
        return Raised(InvalidStateTransition);
      }
      Flush(task);
      var extra := map["reason" := call.reason, "cancelled_by" := Text(call.caller)];
      AddEvent(task.id, ChangeEvent("status", before, Cancelled, extra, NextSequence(working, task.id), at.first));
      CommitWork();
      return Done(call.task, false);
    }

    /** Inserts a child and the events of both tasks, and commits; rolls back if the child's id is taken. */
    method InsertChild(id: TaskId, event: TaskEvent, childId: TaskId, child: Task,
                       created: TaskEvent) returns (reply: Reply)
      modifies this
      ensures Clean()
      ensures if childId in old(working).tasks then committed == old(committed) && reply == Raised(DuplicateId)
              else committed == Append(Append(Put(old(working), childId, child), id, event), childId, created)
                   && reply == Done(childId, false)
    {
      var ok := AddTask(childId, child);
      if !ok {
        Rollback();
        return Raised(DuplicateId);
      }
      AddEvent(id, event);
      AddEvent(childId, created);
      CommitWork();
      return Done(childId, false);
    }

    /** The end of retask and redirect: moves the loaded task, inserts its child and both events, and commits. */
    method Supersede(task: TaskObject, to: TaskStatus, input: Data, origin: Origin, asked: Option<string>,
                     key: Option<string>, extra: Data, link: Data, at: Moment) returns (reply: Reply)
      requires Clean() && CanTransition(task.status, to) && task.id in committed.tasks
      modifies this, task
      ensures Clean()
      ensures Carried(old(committed), DecideFork(old(committed), task.id, old(task.Row()), to, input, origin, asked,
                                                 key,
                                                 extra, link, at), committed, reply)
    {
      var row := task.Row();
      ghost var store := committed;
      var _ := task.TransitionTo(to, at.first);
      Flush(task);
      assert working == Put(store, task.id, Moved(row, to, at.first));
      var priority := ResolvePriority(asked, row.priority);
      if priority.None? {
        Rollback();
        return Raised(InvalidInput);
      }
      var child := Child(task.id, row, input, origin, priority.value, key, at.second);
      var event := ChangeEvent("status", row.status, to, extra, NextSequence(working, task.id), at.second);
      assert event == ChangeEvent("status", row.status, to, extra, NextSequence(store, task.id), at.second);
      reply := InsertChild(task.id, event, at.newId, child, CreatedEvent(row.spec.principal, link, at.second));
    }

    method RetaskTask(call: Call, at: Moment) returns (reply: Reply)
      requires call.RetaskTask? && Clean() && KeysUnique(committed)
      modifies this
      ensures Clean()
      ensures Carried(old(committed), DecideRetask(settings, old(committed), call, at), committed, reply)
    {
      var task, error := Load(call.workflow, call.task, call.caller, at);
      if task == null {
        return Raised(error);
      }
      if task.status != Completed && task.status != Failed {
        return Raised(RetaskNotReviewable);
      }
      if task.spec.depth >= settings.maxDepth {
        return Raised(DepthExceeded);
      }
      var merged := task.spec.input + call.additionalInput;
      var existing := FindByKey(call.key, merged);
      if existing.Mismatch? {
        return Raised(IdempotencyMismatch);
      }
      if existing.Existing? {
        return Done(existing.id, true);
      }
      var extra := map["retask_id" := Text(at.newId), "retasked_by" := Text(call.caller)];
      var link := map["retask_of" := Text(task.id)];
      reply := Supersede(task, Retasked, merged, Refined(call.additionalInput), call.priority, call.key, extra, link,
                         at);
    }

    method RedirectTask(call: Call, at: Moment) returns (reply: Reply)
      requires call.RedirectTask? && Clean() && KeysUnique(committed)
      modifies this
      ensures Clean()
      ensures Carried(old(committed), DecideRedirect(settings, old(committed), call, at), committed, reply)
    {
      var task, error := Load(call.workflow, call.task, call.caller, at);
      if task == null {
        return Raised(error);
      }
      if task.status != Running && task.status != Paused {
        return Raised(RedirectNotPossible);
      }
      if task.spec.depth >= settings.maxDepth {
        return Raised(DepthExceeded);
      }
      var existing := FindByKey(call.key, call.newInput);
      if existing.Mismatch? {
        return Raised(IdempotencyMismatch);
      }
      if existing.Existing? {
        return Done(existing.id, true);
      }
      var extra := map["reason" := call.reason, "redirect_id" := Text(at.newId), "redirected_by" := Text(call.caller)];
      var link := map["redirect_of" := Text(task.id)];
      reply := Supersede(task, Redirected, call.newInput, Replaced(call.newInput), call.priority, call.key, extra,
                         link, at);
    }

    method PauseTask(call: Call, at: Moment) returns (reply: Reply)
      requires call.PauseTask? && Clean()
      modifies this
      ensures Clean()
      ensures Carried(old(committed), DecidePause(old(committed), call, at), committed, reply)
    {
      var task, error := Load(call.workflow, call.task, call.caller, at);
      if task == null {
        return Raised(error);
      }
      if task.status != Running {
        return Raised(TaskNotPausable);
      }
      var before := task.status;
      var ok := task.TransitionTo(Paused, at.first);
      assert ok;
      task.pausedAt := Some(at.second);
      Flush(task);
      var extra := map["reason" := call.reason, "paused_by" := Text(call.caller)];
      AddEvent(task.id, ChangeEvent("pause_requested", before, Paused, extra, NextSequence(working, task.id),
                                    at.second));
      CommitWork();
      return Done(call.task, false);
    }

    /** Cancels a task whose pause has outlived its time to live, and commits. */
    method ExpirePause(task: TaskObject, at: Moment)
      requires task.status == Paused && Clean()
      modifies this, task
      ensures Clean()
      ensures committed == Append(Put(old(committed), task.id, Moved(old(task.Row()), Cancelled, at.second)), task.id,
                                  ChangeEvent("status", Paused, Cancelled, map["reason" := Text("PAUSE_TIMEOUT")],
                                              NextSequence(old(committed), task.id), at.second))
    {
      var _ := task.TransitionTo(Cancelled, at.second);
      Flush(task);
      var extra := map["reason" := Text("PAUSE_TIMEOUT")];
      AddEvent(task.id, ChangeEvent("status", Paused, Cancelled, extra, NextSequence(working, task.id), at.second));
      CommitWork();
    }

    method ResumeTask(call: Call, at: Moment) returns (reply: Reply)
      requires call.ResumeTask? && Clean()
      modifies this
      ensures Clean()
      ensures Carried(old(committed), DecideResume(settings, old(committed), call, at), committed, reply)
    {
      var task, error := Load(call.workflow, call.task, call.caller, at);
      if task == null {
        return Raised(error);
      }
      if task.status != Paused {
        return Raised(TaskNotPaused);
      }
      if task.pausedAt.Some? {
        var elapsed := at.first - task.pausedAt.value;
        if elapsed > settings.pauseTtl * SECOND {
          ExpirePause(task, at);
          return Raised(PauseTimeout);
        }
      }
      var before := task.status;
      var ok := task.TransitionTo(Running, at.second);
      assert ok;
      task.pausedAt := None;
      Flush(task);
      if call.priority.Some? {
        var priority := ParsePriority(call.priority.value);
        if priority.None? {
          Rollback();
          return Raised(InvalidInput);
        }
        task.priority := priority.value;
        Flush(task);
      }
      var extra := map["resumed_by" := Text(call.caller)];
      AddEvent(task.id, ChangeEvent("resume_requested", before, Running, extra, NextSequence(working, task.id),
                                    at.second));
      CommitWork();
      return Done(call.task, false);
    }

    /** Walks the parent links from a task towards its root, at most `depth` of them, and reverses what it met. */
    method BuildLineageChain(id: TaskId) returns (chain: seq<TaskId>)
      requires id in committed.tasks
      ensures chain == ChainOf(committed, id)
    {
      chain := [id];
      var current := committed.tasks[id].spec.parent;
      var left := committed.tasks[id].spec.depth;
      ghost var whole := [id] + Climb(committed, current, left);
      while left > 0
        invariant chain + Climb(committed, current, left) == whole
      {
        if current.None? || current.value !in committed.tasks {
          break;
        }
        chain := chain + [current.value];
        current := committed.tasks[current.value].spec.parent;
        left := left - 1;
      }
      assert chain + [] == chain;
      chain := Reverse(chain);
    }

    // -------------------------------------------------------------- context.py

    method InjectContext(call: Call, at: Moment) returns (reply: Reply)
      requires call.InjectContext? && Clean()
      modifies this
      ensures Clean()
      ensures Carried(old(committed), DecideInject(old(committed), call, at), committed, reply)
    {
      var task, error := Load(call.workflow, call.task, call.caller, at);
      if task == null {
        return Raised(error);
      }
      if task.status != Running && task.status != Paused {
        return Raised(ContextRejected);
      }
      var last := LastContextNumber(LogOf(working, task.id), at.pick);
      if last.None? {
        return Raised(NotAnInteger);
      }
      if call.contextSequence <= last.value {
        return Raised(ContextRejected);
      }
      var data := call.context["context_sequence" := Number(call.contextSequence)];
      AddEvent(task.id, TaskEvent("context_injected", data, NextSequence(working, task.id), at.first));
      assert working == Append(Put(committed, call.task, task.Row()), call.task,
                               TaskEvent("context_injected", data, NextSequence(committed, call.task), at.first));
      CommitWork();
      return Done(call.task, false);
    }

    // -------------------------------------------------------------- sidecar.py

    method ProcessSidecarEvent(call: Call, at: Moment) returns (reply: Reply)
      requires call.SidecarEvent? && Clean()
      modifies this
      ensures Clean()
      ensures Carried(old(committed), DecideSidecar(old(committed), call, at), committed, reply)
    {
      if call.kind !in EXECUTOR_EVENTS {
        return Raised(InvalidInput);
      }
      if call.task !in working.tasks {
        return Raised(TaskNotFound);
      }
      var task := new TaskObject(call.task, working.tasks[call.task]);
      if task.spec.executor != call.agent {
        return Raised(NotAuthorized);
      }
      if call.sequence <= MaxSequence(LogOf(working, call.task)) {
        return Raised(InvalidInput);
      }
      var ok, error := ApplyEvent(task, call.kind, call.data, at);
      if !ok {
        Rollback();
        return Raised(error);
      }
      Flush(task);
      AddEvent(task.id, TaskEvent(call.kind, call.data, call.sequence, at.first));
      CommitWork();
      return Done(call.task, false);
    }

    /** Step 5 of the executor's post, on the loaded object. */
    method ApplyEvent(task: TaskObject, kind: string, data: Data, at: Moment) returns (ok: bool, error: Error)
      modifies task
      ensures match ApplyExecutorEvent(old(task.Row()), kind, data, at)
              case Becomes(row) => ok && task.Row() == row
              case Refused(e) => !ok && error == e
    {
      ok, error := true, InvalidInput;
      if kind == "status" {
        var status := StatusIn(Get(data, "status"));
        if status.None? {
          return false, InvalidInput;
        }
        ok := task.TransitionTo(status.value, at.second);
        error := InvalidStateTransition;
        if ok && status.value == Running && task.startedAt.None? {
          task.startedAt := Some(at.first);
        }
      } else if kind == "completed" {
        ok := task.TransitionTo(Completed, at.second);
        error := InvalidStateTransition;
        if ok {
          task.result := Get(data, "result");
        }
      } else if kind == "failed" {
        ok := task.TransitionTo(Failed, at.second);
        error := InvalidStateTransition;
        if ok {
          task.result := Object(map["error_code" := Get(data, "error_code"), "message" := Get(data, "message")]);
        }
      } else if kind == "progress" {
        ok := "progress" in data;
      }
    }

    // -------------------------------------------------------------- every call

    method Handle(request: Request) returns (reply: Reply)
      requires Clean() && KeysUnique(committed)
      modifies this
      ensures Clean()
      ensures Carried(old(committed), Decide(settings, old(committed), request), committed, reply)
    {
      match request.call {
        case CreateTask(_, _, _, _, _, _, _, _) => reply := CreateTask(request.call, request.at);
        case CancelTask(_, _, _, _) => reply := CancelTask(request.call, request.at);
        case RetaskTask(_, _, _, _, _, _) => reply := RetaskTask(request.call, request.at);
        case RedirectTask(_, _, _, _, _, _, _) => reply := RedirectTask(request.call, request.at);
        case PauseTask(_, _, _, _) => reply := PauseTask(request.call, request.at);
        case ResumeTask(_, _, _, _) => reply := ResumeTask(request.call, request.at);
        case InjectContext(_, _, _, _, _) => reply := InjectContext(request.call, request.at);
        case SidecarEvent(_, _, _, _, _) => reply := ProcessSidecarEvent(request.call, request.at);
      }
    }

    /** Serves any of the eight calls on a valid database and keeps it valid. A call that raises leaves the
        database as it was; a pause timeout alone commits one cancellation before it raises. */
    method Serve(request: Request, ghost now: Time) returns (reply: Reply)
      requires Clean() && Valid(settings, committed, now) && now <= request.at.first <= request.at.second
      modifies this
      ensures Clean() && Valid(settings, committed, request.at.second)
      ensures committed == TaskDecisions.Serve(settings, old(committed), request)
      ensures reply.Raised? && reply.error != PauseTimeout ==> committed == old(committed)
      ensures reply == Raised(PauseTimeout) ==>
                request.call.ResumeTask? && TaskHistory.OnlyTimesOut(old(committed), request.call.task, committed)
    {
      ServeKeeps(settings, committed, request, now);
      ghost var before := committed;
      reply := Handle(request);
      if reply.Raised? {
        TaskHistory.RefusalLeavesNoTrace(settings, before, request);
      }
    }
  }
}
