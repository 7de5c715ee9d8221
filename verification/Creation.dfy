/** What a creation fixes for good: whose task it is, who executes it, and with what. */
module Creation {
  import opened Options
  import opened TaskStateMachine
  import opened TaskRecords
  import opened TaskDecisions
  import opened TaskHistory
  import opened Outcomes

  /** The i-th call creates a task of its own. */
  ghost predicate CreatesAt(settings: Settings, history: seq<Request>, i: nat, id: TaskId) {
    i < |history| && history[i].call.CreateTask? && DecisionAt(settings, history, i).reply == Done(id, false)
  }

  lemma CreatedRow(settings: Settings, history: seq<Request>, i: nat, id: TaskId)
    requires Timely(history) && CreatesAt(settings, history, i, id)
    ensures var call, at, after := history[i].call, history[i].at, StoreBefore(settings, history, i + 1);
            && id !in StoreBefore(settings, history, i).tasks && id in after.tasks
            && call.workflow in at.workflows
            && CreatedBy(call, at.workflows[call.workflow], after.tasks[id], at.first)
  {
    CallLawful(settings, history, i);
    CreateOutcome(StoreBefore(settings, history, i), history[i].call, history[i].at);
  }

  /** In every later store a created task belongs to the caller that created it and is executed by the agent that
      call named, or by the workflow's owner when it named none; workflow, input, time limit and key are the call's,
      and its priority, until a resume changes it, is the one named. */
  lemma CreatedAsAsked(settings: Settings, history: seq<Request>, i: nat, j: nat, id: TaskId)
    requires Timely(history) && CreatesAt(settings, history, i, id) && i < j <= |history|
    ensures var call, at := history[i].call, history[i].at;
            var later, first := StoreBefore(settings, history, j), StoreBefore(settings, history, i + 1);
            && id !in StoreBefore(settings, history, i).tasks
            && id in later.tasks && call.workflow in at.workflows
            && var spec, workflow := later.tasks[id].spec, at.workflows[call.workflow];
               && spec.principal == call.caller
               && (spec.executor == if call.executor.None? || call.executor.value == "" then workflow.owner
                                    else call.executor.value)
               && spec.workflow == call.workflow && spec.input == call.input && spec.idempotencyKey == call.key
               && (spec.timeout == if call.timeout in {None, Some(0)} then workflow.timeout else call.timeout)
               && id in first.tasks && first.tasks[id].status == Accepted
               && Names(call.priorityName, first.tasks[id].priority)
  {
    CreatedRow(settings, history, i, id);
    TaskPersists(settings, history, i + 1, j, id);
  }

  lemma ExecutorPosts(settings: Settings, history: seq<Request>, j: nat)
    requires Timely(history) && j < |history| && history[j].call.SidecarEvent?
    requires DecisionAt(settings, history, j).reply.Done?
    ensures var store, call := StoreBefore(settings, history, j), history[j].call;
            call.task in store.tasks && call.agent == store.tasks[call.task].spec.executor
  {
    CallLawful(settings, history, j);
    PostOutcome(StoreBefore(settings, history, j), history[j].call, history[j].at);
  }

  /** So every accepted executor post to it comes from that agent. */
  lemma OnlyItsExecutorPosts(settings: Settings, history: seq<Request>, i: nat, j: nat, id: TaskId)
    requires Timely(history) && CreatesAt(settings, history, i, id) && i < j < |history|
    requires history[j].call.SidecarEvent? && history[j].call.task == id
    requires DecisionAt(settings, history, j).reply.Done?
    ensures var call := history[i].call;
            && call.workflow in history[i].at.workflows
            && history[j].call.agent == if call.executor.None? || call.executor.value == "" then
                                          history[i].at.workflows[call.workflow].owner
                                        else call.executor.value
  {
    CreatedAsAsked(settings, history, i, j, id);
    ExecutorPosts(settings, history, j);
  }
}
