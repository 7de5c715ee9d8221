/** How a task comes to be superseded: by a call that gives it a child, or by its executor, which does not. */
module Supersession {
  import opened Options
  import opened TaskStateMachine
  import opened TaskRecords
  import opened TaskDecisions
  import opened TaskInvariants
  import opened Lineage
  import opened TaskHistory

  ghost predicate HasChild(store: Store, id: TaskId) {
    exists child :: child in store.tasks && ParentOf(store, child) == Some(id)
  }

  /** A post by which the executor declares its task retasked or redirected. */
  predicate DeclaresSuperseded(call: Call, id: TaskId) {
    && call.SidecarEvent? && call.task == id && call.kind == "status"
    && StatusIn(Get(call.data, "status")) in {Some(Retasked), Some(Redirected)}
  }

  /** The i-th call is such a post, and it is accepted. */
  ghost predicate SupersedesAt(settings: Settings, history: seq<Request>, i: nat, id: TaskId) {
    i < |history| && DeclaresSuperseded(history[i].call, id) && DecisionAt(settings, history, i).reply.Done?
  }

  ghost predicate ExecutorSuperseded(settings: Settings, history: seq<Request>, id: TaskId) {
    exists i: nat :: SupersedesAt(settings, history, i, id)
  }

  predicate Forks(effect: Effect, id: TaskId) {
    effect.Fork? && effect.id == id
  }

  // ---------------------------------------------------------------- one call

  /** Callers move a task by an update only to a state that is not superseded. */
  lemma CallersUpdate(settings: Settings, store: Store, request: Request)
    requires !request.call.SidecarEvent? && Decide(settings, store, request).effect.Update?
    ensures var effect := Decide(settings, store, request).effect;
            effect.id in store.tasks && !Superseded(effect.task.status) && !Superseded(store.tasks[effect.id].status)
  {
  }

  lemma ExecutorUpdates(store: Store, call: Call, at: Moment)
    requires call.SidecarEvent? && DecideSidecar(store, call, at).reply.Done?
    ensures var effect := DecideSidecar(store, call, at).effect;
            && effect.Update? && effect.id == call.task && call.task in store.tasks
            && (Superseded(effect.task.status) <==>
                  Superseded(store.tasks[call.task].status) || DeclaresSuperseded(call, call.task))
            && (DeclaresSuperseded(call, call.task) ==> !Superseded(store.tasks[call.task].status))
  {
  }

  lemma ExecutorRefused(store: Store, call: Call, at: Moment)
    requires call.SidecarEvent? && DecideSidecar(store, call, at).reply.Raised?
    ensures DecideSidecar(store, call, at).effect.Nothing?
  {
  }

  /** The executor's accepted post and the fork are the two ways, and each needs a task not yet superseded. */
  lemma CallSupersedes(settings: Settings, store: Store, request: Request, id: TaskId, now: Time)
    requires id in store.tasks && Lawful(settings, store, Decide(settings, store, request).effect, now)
    ensures var decision, after := Decide(settings, store, request), Serve(settings, store, request);
            var declared := DeclaresSuperseded(request.call, id) && decision.reply.Done?;
            && id in after.tasks
            && (Superseded(after.tasks[id].status) <==>
                  Superseded(store.tasks[id].status) || Forks(decision.effect, id) || declared)
            && (Forks(decision.effect, id) || declared ==> !Superseded(store.tasks[id].status))
            && !(Forks(decision.effect, id) && declared)
  {
    var decision := Decide(settings, store, request);
    if request.call.SidecarEvent? {
      assert decision == DecideSidecar(store, request.call, request.at);
      if decision.reply.Done? {
        ExecutorUpdates(store, request.call, request.at);
      } else {
        ExecutorRefused(store, request.call, request.at);
      }
    } else if decision.effect.Update? {
      CallersUpdate(settings, store, request);
    }
  }

  lemma CallBears(settings: Settings, store: Store, effect: Effect, id: TaskId, now: Time)
    requires Lawful(settings, store, effect, now)
    ensures HasChild(Commit(store, effect), id) <==> HasChild(store, id) || Forks(effect, id)
  {
    if HasChild(store, id) || Forks(effect, id) {
      ChildBorn(settings, store, effect, id, now);
    } else {
      NoChildBorn(settings, store, effect, id, now);
    }
  }

  lemma ChildBorn(settings: Settings, store: Store, effect: Effect, id: TaskId, now: Time)
    requires Lawful(settings, store, effect, now) && (HasChild(store, id) || Forks(effect, id))
    ensures HasChild(Commit(store, effect), id)
  {
    var after := Commit(store, effect);
    if Forks(effect, id) {
      assert effect.childId in after.tasks && ParentOf(after, effect.childId) == Some(id);
    } else {
      var child :| child in store.tasks && ParentOf(store, child) == Some(id);
      assert child in after.tasks && ParentOf(after, child) == Some(id);
    }
  }

  lemma NoChildBorn(settings: Settings, store: Store, effect: Effect, id: TaskId, now: Time)
    requires Lawful(settings, store, effect, now) && !HasChild(store, id) && !Forks(effect, id)
    ensures !HasChild(Commit(store, effect), id)
  {
    forall x | x in Commit(store, effect).tasks
      ensures ParentOf(Commit(store, effect), x) != Some(id)
    {
      if x in store.tasks {
        assert ParentOf(store, x) != Some(id);
      }
    }
  }

  // ---------------------------------------------------------------- whole runs

  /** The declarations of a history are those of its prefix and of its last call. */
  lemma DeclaredStepwise(settings: Settings, history: seq<Request>, id: TaskId)
    requires history != []
    ensures var n := |history| - 1;
            ExecutorSuperseded(settings, history, id) <==>
              ExecutorSuperseded(settings, history[..n], id) || SupersedesAt(settings, history, n, id)
  {
    var n := |history| - 1;
    var before := history[..n];
    forall i: nat | i < n
      ensures SupersedesAt(settings, before, i, id) <==> SupersedesAt(settings, history, i, id)
    {
      assert before[..i] == history[..i];
    }
    if i: nat :| SupersedesAt(settings, before, i, id) {
      assert SupersedesAt(settings, history, i, id);
    }
  }

  lemma DeclarationIsPresent(settings: Settings, history: seq<Request>, i: nat, id: TaskId)
    requires SupersedesAt(settings, history, i, id)
    ensures id in StoreBefore(settings, history, i).tasks
  {
    ExecutorUpdates(StoreBefore(settings, history, i), history[i].call, history[i].at);
  }

  /** A task is in the store once its executor's post is accepted. */
  lemma DeclaredIsPresent(settings: Settings, history: seq<Request>, id: TaskId)
    requires Timely(history) && ExecutorSuperseded(settings, history, id)
    ensures id in StoreAfter(settings, history).tasks
  {
    var i: nat :| SupersedesAt(settings, history, i, id);
    DeclarationIsPresent(settings, history, i, id);
    TaskPersists(settings, history, i, |history|, id);
    assert history[..|history|] == history;
  }

  /** What the last call of a history does to children and declarations of a task that was there before. */
  lemma LastCallSupersedes(settings: Settings, history: seq<Request>, id: TaskId)
    requires Timely(history) && history != [] && id in StoreAfter(settings, history[..|history| - 1]).tasks
    ensures var n := |history| - 1;
            var store, after := StoreAfter(settings, history[..n]), StoreAfter(settings, history);
            var forks, declares := Forks(DecisionAt(settings, history, n).effect, id), SupersedesAt(settings, history,
                                                                                                    n, id);
            && id in after.tasks
            && (Superseded(after.tasks[id].status) <==> Superseded(store.tasks[id].status) || forks || declares)
            && (forks || declares ==> !Superseded(store.tasks[id].status)) && !(forks && declares)
            && (HasChild(after, id) <==> HasChild(store, id) || forks)
            && (ExecutorSuperseded(settings, history, id) <==>
                  ExecutorSuperseded(settings, history[..n], id) || declares)
  {
    var n := |history| - 1;
    var store := StoreBefore(settings, history, n);
    assert history[..n + 1] == history;
    CallLawful(settings, history, n);
    DeclaredStepwise(settings, history, id);
    CallBears(settings, store, DecisionAt(settings, history, n).effect, id, history[n].at.second);
    CallSupersedes(settings, store, history[n], id, history[n].at.second);
  }

  /** A superseded task has a child exactly if its executor did not itself declare it retasked or redirected; a
      task that is not superseded has no child, and was not so declared. */
  lemma {:induction false} ChildIffNotDeclared(settings: Settings, history: seq<Request>, id: TaskId)
    requires Timely(history) && id in StoreAfter(settings, history).tasks
    ensures var store := StoreAfter(settings, history);
            if Superseded(store.tasks[id].status) then
              HasChild(store, id) <==> !ExecutorSuperseded(settings, history, id)
            else !HasChild(store, id) && !ExecutorSuperseded(settings, history, id)
  {
    var before := history[..|history| - 1];
    if id in StoreAfter(settings, before).tasks {
      ChildIffNotDeclared(settings, before, id);
      LastCallSupersedes(settings, history, id);
    } else {
      InsertedIsAlone(settings, history, id);
      InsertedIsUndeclared(settings, history, id);
    }
  }

  /** A task that the last call inserted is not superseded and has no child. */
  lemma InsertedIsAlone(settings: Settings, history: seq<Request>, id: TaskId)
    requires Timely(history) && history != [] && id in StoreAfter(settings, history).tasks
    requires id !in StoreAfter(settings, history[..|history| - 1]).tasks
    ensures var store := StoreAfter(settings, history);
            !Superseded(store.tasks[id].status) && !HasChild(store, id)
  {
    var n := |history| - 1;
    assert history[..n + 1] == history;
    CallLawful(settings, history, n);
    ReachableValid(settings, history);
    InsertedHasNoChild(settings, StoreBefore(settings, history, n), DecisionAt(settings, history, n).effect, id,
                       history[n].at.second);
  }

  lemma InsertedHasNoChild(settings: Settings, store: Store, effect: Effect, id: TaskId, now: Time)
    requires LineageLinked(settings, Commit(store, effect)) && Lawful(settings, store, effect, now)
    requires id in Commit(store, effect).tasks && id !in store.tasks
    ensures !Superseded(Commit(store, effect).tasks[id].status) && !HasChild(Commit(store, effect), id)
  {
    var after := Commit(store, effect);
    forall x | x in after.tasks
      ensures ParentOf(after, x) != Some(id)
    {
      assert Linked(settings, after, after.tasks[x]);
    }
  }

  /** Nor did its executor declare it superseded, now or before. */
  lemma InsertedIsUndeclared(settings: Settings, history: seq<Request>, id: TaskId)
    requires Timely(history) && history != []
    requires id !in StoreAfter(settings, history[..|history| - 1]).tasks
    ensures !ExecutorSuperseded(settings, history, id)
  {
    var n := |history| - 1;
    DeclaredStepwise(settings, history, id);
    if ExecutorSuperseded(settings, history[..n], id) {
      DeclaredIsPresent(settings, history[..n], id);
    }
    if SupersedesAt(settings, history, n, id) {
      DeclarationIsPresent(settings, history, n, id);
    }
  }
}
