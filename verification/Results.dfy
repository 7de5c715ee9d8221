/** What a finished task carries: its log determines its result. */
module Results {
  import opened TaskStateMachine
  import opened TaskRecords
  import opened TaskDecisions
  import opened TaskInvariants
  import opened TaskHistory
  import opened Outcomes

  predicate Finishes(event: TaskEvent) {
    event.kind in {"completed", "failed"}
  }

  /** The result an event brings. */
  function Brought(event: TaskEvent): Json {
    if event.kind == "completed" then Get(event.data, "result")
    else Object(map["error_code" := Get(event.data, "error_code"), "message" := Get(event.data, "message")])
  }

  /** The result a log tells: that of its newest event that finishes the task. */
  function Told(log: seq<TaskEvent>): Json {
    if log == [] then Null
    else if Finishes(log[|log| - 1]) then Brought(log[|log| - 1])
    else Told(log[..|log| - 1])
  }

  // ---------------------------------------------------------------- a task is finished once

  /** Once a legal log holds a finishing event, it tells completed, failed or retasked. */
  lemma {:induction false} FinishedTells(log: seq<TaskEvent>, k: nat)
    requires Legal(log) && k < |log| && Finishes(log[k])
    ensures Replay(log).Some? && Replay(log).value in {Completed, Failed, Retasked}
    decreases |log|
  {
    if k < |log| - 1 {
      FinishedTells(log[..|log| - 1], k);
    }
  }

  /** A legal log tells the result of its finishing event, if it has one. */
  lemma {:induction false} ToldIsBrought(log: seq<TaskEvent>, k: nat)
    requires Legal(log) && k < |log| && Finishes(log[k])
    ensures Told(log) == Brought(log[k])
    decreases |log|
  {
    if k < |log| - 1 {
      FinishedTells(log[..|log| - 1], k);
      ToldIsBrought(log[..|log| - 1], k);
    }
  }

  lemma {:induction false} NothingTold(log: seq<TaskEvent>)
    requires forall k | 0 <= k < |log| :: !Finishes(log[k])
    ensures Told(log) == Null
  {
    if log != [] {
      NothingTold(log[..|log| - 1]);
    }
  }

  // ---------------------------------------------------------------- every call keeps it

  lemma ToldAppend(log: seq<TaskEvent>, event: TaskEvent)
    ensures Told(log + [event]) == if Finishes(event) then Brought(event) else Told(log)
  {
    assert (log + [event])[..|log|] == log;
  }

  lemma CallersBringNothing(settings: Settings, store: Store, request: Request)
    requires !request.call.SidecarEvent?
    ensures var effect := Decide(settings, store, request).effect;
            && (effect.Insert? ==> effect.task.result == Null && !Finishes(effect.event))
            && (effect.Update? || effect.Fork? ==>
                  && effect.id in store.tasks && effect.task.result == store.tasks[effect.id].result
                  && !Finishes(effect.event))
            && (effect.Fork? ==> effect.child.result == Null && !Finishes(effect.childEvent))
  {
  }

  ghost predicate AllTold(store: Store) {
    forall id | id in store.tasks :: store.tasks[id].result == Told(LogOf(store, id))
  }

  lemma MoveKeepsTold(store: Store, id: TaskId, row: Task, event: TaskEvent)
    requires AllTold(store)
    requires id !in store.tasks ==> LogOf(store, id) == []
    requires row.result == if Finishes(event) then Brought(event)
                           else if id in store.tasks then store.tasks[id].result else Null
    ensures AllTold(With(store, id, row, event))
  {
    ToldAppend(LogOf(store, id), event);
  }

  lemma CallKeepsTold(settings: Settings, store: Store, request: Request, now: Time)
    requires LogsTellStatus(store) && AllTold(store)
    requires Lawful(settings, store, Decide(settings, store, request).effect, now)
    ensures AllTold(Serve(settings, store, request))
  {
    var decision := Decide(settings, store, request);
    if request.call.SidecarEvent? {
      assert decision == DecideSidecar(store, request.call, request.at);
      PostKeepsTold(store, request.call, request.at);
    } else {
      CallersBringNothing(settings, store, request);
      EffectKeepsTold(settings, store, decision.effect, now);
    }
  }

  lemma PostKeepsTold(store: Store, call: Call, at: Moment)
    requires LogsTellStatus(store) && AllTold(store) && call.SidecarEvent?
    ensures AllTold(Commit(store, DecideSidecar(store, call, at).effect))
  {
    PostOutcome(store, call, at);
    var effect := DecideSidecar(store, call, at).effect;
    if effect.Update? {
      ToldAppend(LogOf(store, call.task), TaskEvent(call.kind, call.data, call.sequence, at.first));
    }
  }

  lemma EffectKeepsTold(settings: Settings, store: Store, effect: Effect, now: Time)
    requires LogsTellStatus(store) && AllTold(store) && Lawful(settings, store, effect, now)
    requires effect.Insert? ==> effect.task.result == Null && !Finishes(effect.event)
    requires effect.Update? || effect.Fork? ==>
               && effect.id in store.tasks && effect.task.result == store.tasks[effect.id].result
               && !Finishes(effect.event)
    requires effect.Fork? ==> effect.child.result == Null && !Finishes(effect.childEvent)
    ensures AllTold(Commit(store, effect))
  {
    match effect
    case Nothing =>
    case Insert(id, task, event) => MoveKeepsTold(store, id, task, event);
    case Update(id, task, event) => MoveKeepsTold(store, id, task, event);
    case Fork(id, task, event, childId, child, childEvent) =>
      MoveKeepsTold(store, id, task, event);
      MoveKeepsTold(With(store, id, task, event), childId, child, childEvent);
      assert With(With(store, id, task, event), childId, child, childEvent) == Commit(store, effect);
  }

  lemma {:induction false} ReachableTold(settings: Settings, history: seq<Request>)
    requires Timely(history)
    ensures AllTold(StoreAfter(settings, history))
  {
    if history != [] {
      var n := |history| - 1;
      ReachableTold(settings, history[..n]);
      CallLawful(settings, history, n);
      CallKeepsTold(settings, StoreBefore(settings, history, n), history[n], history[n].at.second);
    }
  }

  /** In every reachable store a task's log determines its result: the `result` of its `completed` event, the error
      code and message of its `failed` event, nothing without either. */
  lemma LogTellsResult(settings: Settings, history: seq<Request>, id: TaskId)
    requires Timely(history) && history != [] && id in StoreAfter(settings, history).tasks
    ensures var log, row := LogOf(StoreAfter(settings, history), id), StoreAfter(settings, history).tasks[id];
            && (forall k | 0 <= k < |log| && log[k].kind == "completed" :: row.result == Get(log[k].data, "result"))
            && (forall k | 0 <= k < |log| && log[k].kind == "failed" ::
                  row.result == Object(map["error_code" := Get(log[k].data, "error_code"),
                                           "message" := Get(log[k].data, "message")]))
            && ((forall k | 0 <= k < |log| :: log[k].kind !in {"completed", "failed"}) ==> row.result == Null)
  {
    var log := LogOf(StoreAfter(settings, history), id);
    ReachableTold(settings, history);
    ReachableValid(settings, history);
    forall k | 0 <= k < |log| && Finishes(log[k])
      ensures Told(log) == Brought(log[k])
    {
      ToldIsBrought(log, k);
    }
    if forall k | 0 <= k < |log| :: !Finishes(log[k]) {
      NothingTold(log);
    }
  }
}
