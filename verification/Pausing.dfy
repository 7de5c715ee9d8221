/** Pauses: when a resume undoes one, and when `paused_at` tells whether a task is paused. */
module Pausing {
  import opened Options
  import opened TaskStateMachine
  import opened TaskRecords
  import opened TaskDecisions
  import opened TaskInvariants
  import opened TaskHistory

  // ---------------------------------------------------------------- one call

  lemma CallerKeepsRow(settings: Settings, store: Store, request: Request)
    requires !request.call.SidecarEvent? && Decide(settings, store, request).effect.Update?
    ensures var effect := Decide(settings, store, request).effect;
            && effect.id in store.tasks
            && (effect.task.status == store.tasks[effect.id].status ==> effect.task == store.tasks[effect.id])
  {
  }

  lemma ExecutorKeepsRow(store: Store, call: Call, at: Moment)
    requires call.SidecarEvent? && DecideSidecar(store, call, at).effect.Update?
    ensures var effect := DecideSidecar(store, call, at).effect;
            && effect.id in store.tasks
            && (effect.task.status == store.tasks[effect.id].status ==> effect.task == store.tasks[effect.id])
  {
  }

  /** A call that leaves a task's status leaves its whole row. */
  lemma SameStatusSameRow(settings: Settings, store: Store, request: Request, id: TaskId, now: Time)
    requires id in store.tasks && Lawful(settings, store, Decide(settings, store, request).effect, now)
    ensures var after := Serve(settings, store, request);
            && id in after.tasks
            && (after.tasks[id].status == store.tasks[id].status ==> after.tasks[id] == store.tasks[id])
  {
    var effect := Decide(settings, store, request).effect;
    if effect.Update? {
      if request.call.SidecarEvent? {
        assert effect == DecideSidecar(store, request.call, request.at).effect;
        ExecutorKeepsRow(store, request.call, request.at);
      } else {
        CallerKeepsRow(settings, store, request);
      }
    }
  }

  // ---------------------------------------------------------------- a resume undoes a pause

  /** The task is found paused by every call from the i-th to the j-th. */
  ghost predicate StaysPaused(settings: Settings, history: seq<Request>, i: nat, j: nat, id: TaskId)
    requires j <= |history|
  {
    forall k: nat | i < k <= j ::
      id in StoreBefore(settings, history, k).tasks && StoreBefore(settings, history, k).tasks[id].status == Paused
  }

  lemma {:induction false} RowStays(settings: Settings, history: seq<Request>, i: nat, j: nat, id: TaskId)
    requires Timely(history) && i < j <= |history| && StaysPaused(settings, history, i, j, id)
    ensures StoreBefore(settings, history, j).tasks[id] == StoreBefore(settings, history, i + 1).tasks[id]
    decreases j
  {
    if i + 1 < j {
      RowStays(settings, history, i, j - 1, id);
      RowStep(settings, history, j - 1, id);
    }
  }

  lemma RowStep(settings: Settings, history: seq<Request>, k: nat, id: TaskId)
    requires Timely(history) && k < |history| && id in StoreBefore(settings, history, k).tasks
    ensures var row, later := StoreBefore(settings, history, k).tasks[id], StoreBefore(settings, history, k + 1);
            id in later.tasks && (later.tasks[id].status == row.status ==> later.tasks[id] == row)
  {
    CallLawful(settings, history, k);
    SameStatusSameRow(settings, StoreBefore(settings, history, k), history[k], id, history[k].at.second);
  }

  lemma PausedRow(settings: Settings, store: Store, request: Request)
    requires request.call.PauseTask? && Decide(settings, store, request).reply.Done?
    ensures var id, after := request.call.task, Serve(settings, store, request);
            && id in store.tasks && id in after.tasks && store.tasks[id].status == Running
            && after.tasks[id] == store.tasks[id].(status := Paused, pausedAt := Some(request.at.second))
  {
  }

  /** What a resume makes of a task that was paused at a known time. */
  lemma ResumedRow(settings: Settings, store: Store, request: Request, pausedAt: Time)
    requires request.call.ResumeTask?
    requires Locate(store, request.at, request.call.workflow, request.call.task, request.call.caller).Found?
    requires store.tasks[request.call.task].status == Paused
    requires store.tasks[request.call.task].pausedAt == Some(pausedAt)
    ensures var id, after := request.call.task, Serve(settings, store, request);
            var row, reply := store.tasks[id], Decide(settings, store, request).reply;
            var priority := ResolvePriority(request.call.priority, row.priority);
            && id in after.tasks
            && if request.at.first - pausedAt > settings.pauseTtl * SECOND then
                 && reply == Raised(PauseTimeout)
                 && after.tasks[id] == row.(status := Cancelled, completedAt := Some(request.at.second))
               else if priority.None? then reply == Raised(InvalidInput) && after == store
               else
                 && reply == Done(id, false)
                 && after.tasks[id] == row.(status := Running, pausedAt := None, priority := priority.value)
  {
  }

  /** A resume undoes a pause that lasts until it comes: within the time to live the row is again what it was, but
      for the priority that the resume may set; later the task is cancelled. */
  lemma ResumeUndoesPause(settings: Settings, history: seq<Request>, i: nat, j: nat)
    requires Timely(history) && i < j < |history|
    requires history[i].call.PauseTask? && DecisionAt(settings, history, i).reply.Done?
    requires history[j].call.ResumeTask? && history[j].call.task == history[i].call.task
    requires StaysPaused(settings, history, i, j, history[i].call.task)
    requires var call := history[j].call;
             Locate(StoreBefore(settings, history, j), history[j].at, call.workflow, call.task, call.caller).Found?
    ensures var id := history[i].call.task;
            var before, after := StoreBefore(settings, history, i), StoreBefore(settings, history, j + 1);
            var reply := DecisionAt(settings, history, j).reply;
            && id in before.tasks && id in after.tasks
            && var row := before.tasks[id];
               var priority := ResolvePriority(history[j].call.priority, row.priority);
               if history[j].at.first - history[i].at.second > settings.pauseTtl * SECOND then
                 reply == Raised(PauseTimeout) && after.tasks[id].status == Cancelled
               else if priority.None? then
                 reply == Raised(InvalidInput) && after == StoreBefore(settings, history, j)
               else
                 reply == Done(id, false) && after.tasks[id] == row.(pausedAt := None, priority := priority.value)
  {
    CallLawful(settings, history, i);
    PausedRow(settings, StoreBefore(settings, history, i), history[i]);
    RowStays(settings, history, i, j, history[i].call.task);
    CallLawful(settings, history, j);
    ResumedRow(settings, StoreBefore(settings, history, j), history[j], history[i].at.second);
  }

  // ---------------------------------------------------------------- what `paused_at` tells

  /** `paused_at` is set exactly while the task is paused; a task cancelled or redirected may keep it. */
  predicate PausedAtTells(task: Task) {
    task.status !in {Cancelled, Redirected} ==> (task.pausedAt.Some? <==> task.status == Paused)
  }

  /** The executor itself pauses or resumes the task, and is accepted. */
  ghost predicate ExecutorSwaps(settings: Settings, store: Store, request: Request, id: TaskId) {
    && request.call.SidecarEvent? && request.call.task == id && request.call.kind == "status"
    && id in store.tasks && store.tasks[id].status in {Running, Paused}
    && StatusIn(Get(request.call.data, "status")) in {Some(Running), Some(Paused)}
    && Decide(settings, store, request).reply.Done?
  }

  lemma ExecutorPost(store: Store, call: Call, at: Moment)
    requires call.SidecarEvent? && call.task in store.tasks && PausedAtTells(store.tasks[call.task])
    ensures var decision, status := DecideSidecar(store, call, at), StatusIn(Get(call.data, "status"));
            && (decision.reply.Raised? <==> decision.effect.Nothing?)
            && (decision.reply.Done? ==>
                  && decision.effect.Update? && decision.effect.id == call.task
                  && (PausedAtTells(decision.effect.task) <==>
                        !(call.kind == "status" && store.tasks[call.task].status in {Running, Paused}
                          && status in {Some(Running), Some(Paused)})))
  {
  }

  lemma CallerUpdate(settings: Settings, store: Store, request: Request)
    requires !request.call.SidecarEvent?
    ensures var effect := Decide(settings, store, request).effect;
            && (effect.Update? ==> effect.id in store.tasks
                                   && (PausedAtTells(store.tasks[effect.id]) ==> PausedAtTells(effect.task)))
            && (effect.Fork? ==> effect.id in store.tasks
                                 && (PausedAtTells(store.tasks[effect.id]) ==> PausedAtTells(effect.task)))
  {
  }

  /** From a row of which `paused_at` tells, only the executor's own pause or resume leads to one of which it
      does not, and that always does. */
  lemma CallKeepsPausedAt(settings: Settings, store: Store, request: Request, id: TaskId, now: Time)
    requires id in store.tasks && Lawful(settings, store, Decide(settings, store, request).effect, now)
    requires PausedAtTells(store.tasks[id])
    ensures var after := Serve(settings, store, request);
            && id in after.tasks
            && (PausedAtTells(after.tasks[id]) <==> !ExecutorSwaps(settings, store, request, id))
  {
    if request.call.SidecarEvent? {
      var decision := DecideSidecar(store, request.call, request.at);
      assert Decide(settings, store, request) == decision;
      if request.call.task == id {
        ExecutorPost(store, request.call, request.at);
      }
    } else {
      CallerUpdate(settings, store, request);
    }
  }

  lemma NewRowsTell(settings: Settings, store: Store, request: Request)
    ensures var effect := Decide(settings, store, request).effect;
            && (effect.Insert? ==> PausedAtTells(effect.task))
            && (effect.Fork? ==> PausedAtTells(effect.child))
  {
  }

  lemma InsertedTells(settings: Settings, store: Store, request: Request, id: TaskId, now: Time)
    requires id !in store.tasks && id in Serve(settings, store, request).tasks
    requires Lawful(settings, store, Decide(settings, store, request).effect, now)
    ensures PausedAtTells(Serve(settings, store, request).tasks[id])
  {
    NewRowsTell(settings, store, request);
  }

  ghost predicate TellsAt(settings: Settings, history: seq<Request>, i: nat, id: TaskId)
    requires i <= |history|
  {
    id in StoreBefore(settings, history, i).tasks ==> PausedAtTells(StoreBefore(settings, history, i).tasks[id])
  }

  ghost predicate SwapsAt(settings: Settings, history: seq<Request>, i: nat, id: TaskId)
    requires i < |history|
  {
    ExecutorSwaps(settings, StoreBefore(settings, history, i), history[i], id)
  }

  lemma TellsStepwise(settings: Settings, history: seq<Request>, i: nat, id: TaskId)
    requires Timely(history) && i < |history| && TellsAt(settings, history, i, id)
    ensures TellsAt(settings, history, i + 1, id) <==> !SwapsAt(settings, history, i, id)
  {
    var store := StoreBefore(settings, history, i);
    CallLawful(settings, history, i);
    if id in store.tasks {
      CallKeepsPausedAt(settings, store, history[i], id, history[i].at.second);
    } else if id in StoreBefore(settings, history, i + 1).tasks {
      InsertedTells(settings, store, history[i], id, history[i].at.second);
    }
  }

  lemma {:induction false} TellsWithoutSwaps(settings: Settings, history: seq<Request>, i: nat, id: TaskId)
    requires Timely(history) && i <= |history|
    requires forall k: nat | k < i :: !SwapsAt(settings, history, k, id)
    ensures TellsAt(settings, history, i, id)
  {
    if i > 0 {
      TellsWithoutSwaps(settings, history, i - 1, id);
      TellsStepwise(settings, history, i - 1, id);
    } else {
      assert history[..0] == [];
    }
  }

  /** Throughout a history `paused_at` tells whether a task is paused exactly if its executor never itself pauses
      or resumes it. */
  lemma PausedAtTellsIff(settings: Settings, history: seq<Request>, id: TaskId)
    requires Timely(history)
    ensures (forall i: nat | i <= |history| :: TellsAt(settings, history, i, id))
            <==> forall i: nat | i < |history| :: !SwapsAt(settings, history, i, id)
  {
    if forall i: nat | i < |history| :: !SwapsAt(settings, history, i, id) {
      forall i: nat | i <= |history|
        ensures TellsAt(settings, history, i, id)
      {
        TellsWithoutSwaps(settings, history, i, id);
      }
    }
    if forall i: nat | i <= |history| :: TellsAt(settings, history, i, id) {
      forall i: nat | i < |history|
        ensures !SwapsAt(settings, history, i, id)
      {
        assert TellsAt(settings, history, i + 1, id);
        TellsStepwise(settings, history, i, id);
      }
    }
  }
}
