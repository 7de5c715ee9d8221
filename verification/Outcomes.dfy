/** What each call does, seen from outside: when it succeeds, what the store then holds, and how it is refused.

    The statements name states, statuses and priorities literally and speak of the store alone, so that they hold of
    the service whatever its decisions are made of. */
module Outcomes {
  import opened Options
  import opened TaskStateMachine
  import opened TaskRecords
  import opened TaskDecisions
  import opened TaskInvariants

  /** The caller of a principal-side call has the right to it: the task is one of the workflow, and the caller its
      principal or the workflow's owner. */
  predicate MayAct(store: Store, at: Moment, workflow: string, id: TaskId, caller: string) {
    && workflow in at.workflows
    && id in store.tasks && store.tasks[id].spec.workflow == workflow
    && (caller == store.tasks[id].spec.principal || caller == at.workflows[workflow].owner)
  }

  /** The reply to a call without that right. */
  predicate IsDenied(store: Store, at: Moment, workflow: string, id: TaskId, decision: Decision) {
    && decision.effect.Nothing? && decision.reply.Raised?
    && (decision.reply.error == WorkflowNotFound <==> workflow !in at.workflows)
    && (decision.reply.error == TaskNotFound <==>
          workflow in at.workflows && (id !in store.tasks || store.tasks[id].spec.workflow != workflow))
    && decision.reply.error in {WorkflowNotFound, TaskNotFound, NotAuthorized}
  }

  /** One task has a new row and one more event, numbered next; nothing else has changed. */
  ghost predicate OneMoves(store: Store, after: Store, id: TaskId, row: Task, event: TaskEvent) {
    && LogOf(store, id) != []
    && after.tasks == store.tasks[id := row] && after.logs == store.logs[id := LogOf(store, id) + [event]]
    && event.sequence == LogOf(store, id)[|LogOf(store, id)| - 1].sequence + 1
  }

  /** The event of a caller's change tells where it led from and to, and when. */
  predicate TellsMove(event: TaskEvent, kind: string, from: TaskStatus, to: string, time: Time) {
    && event.kind == kind && event.createdAt == time
    && Get(event.data, "from_status") == Text(StatusName(from)) && Get(event.data, "to_status") == Text(to)
    && "status" !in event.data
  }

  ghost predicate Unchanged(decision: Decision, error: Error) {
    decision == Decision(Nothing, Raised(error))
  }

  lemma NextIsOneMore(store: Store, id: TaskId)
    requires Legal(LogOf(store, id))
    ensures NextSequence(store, id) == LogOf(store, id)[|LogOf(store, id)| - 1].sequence + 1
  {
    LegalMax(LogOf(store, id));
  }

  // ---------------------------------------------------------------- cancel, pause, resume

  /** A cancel succeeds exactly for an accepted, running or paused task, which is then cancelled and stamped. */
  lemma CancelOutcome(store: Store, call: Call, at: Moment)
    requires call.CancelTask? && LogsTellStatus(store)
    ensures var decision := DecideCancel(store, call, at);
            var id, after := call.task, Commit(store, decision.effect);
            if !MayAct(store, at, call.workflow, id, call.caller) then
              IsDenied(store, at, call.workflow, id, decision)
            else
              var row := store.tasks[id];
              if row.status in {Accepted, Running, Paused} then
                && decision.reply == Done(id, false) && decision.effect.Update?
                && OneMoves(store, after, id, row.(status := Cancelled, completedAt := Some(at.first)),
                            decision.effect.event)
                && TellsMove(decision.effect.event, "status", row.status, "cancelled", at.first)
                && Get(decision.effect.event.data, "reason") == call.reason
                && Get(decision.effect.event.data, "cancelled_by") == Text(call.caller)
              else Unchanged(decision, InvalidStateTransition)
  {
    if call.task in store.tasks {
      NextIsOneMore(store, call.task);
    }
  }

  /** A pause succeeds exactly for a running task, which keeps when it was paused. */
  lemma PauseOutcome(store: Store, call: Call, at: Moment)
    requires call.PauseTask? && LogsTellStatus(store)
    ensures var decision := DecidePause(store, call, at);
            var id, after := call.task, Commit(store, decision.effect);
            if !MayAct(store, at, call.workflow, id, call.caller) then
              IsDenied(store, at, call.workflow, id, decision)
            else
              var row := store.tasks[id];
              if row.status == Running then
                && decision.reply == Done(id, false) && decision.effect.Update?
                && OneMoves(store, after, id, row.(status := Paused, pausedAt := Some(at.second)),
                            decision.effect.event)
                && TellsMove(decision.effect.event, "pause_requested", Running, "paused", at.second)
                && Get(decision.effect.event.data, "reason") == call.reason
                && Get(decision.effect.event.data, "paused_by") == Text(call.caller)
              else Unchanged(decision, TaskNotPausable)
  {
    if call.task in store.tasks {
      NextIsOneMore(store, call.task);
    }
  }

  /** The priority a name stands for. */
  predicate Names(name: string, priority: TaskPriority) {
    || (name == "low" && priority == Low) || (name == "normal" && priority == Normal)
    || (name == "high" && priority == High) || (name == "critical" && priority == Critical)
  }

  predicate NamesOne(name: Option<string>) {
    name.None? || name.value in {"low", "normal", "high", "critical"}
  }

  /** A named priority is the one set; without a name the old one stays. */
  predicate PriorityIs(name: Option<string>, was: TaskPriority, now: TaskPriority) {
    if name.None? then now == was else Names(name.value, now)
  }

  /** A resume needs a paused task. It cancels one that has been paused for longer than the time to live, and raises;
      otherwise it succeeds exactly if it names a priority or none, and the task runs again. */
  lemma ResumeOutcome(settings: Settings, store: Store, call: Call, at: Moment)
    requires call.ResumeTask? && LogsTellStatus(store)
    ensures var decision := DecideResume(settings, store, call, at);
            var id, after := call.task, Commit(store, decision.effect);
            if !MayAct(store, at, call.workflow, id, call.caller) then
              IsDenied(store, at, call.workflow, id, decision)
            else
              var row := store.tasks[id];
              if row.status != Paused then Unchanged(decision, TaskNotPaused)
              else if row.pausedAt.Some? && at.first - row.pausedAt.value > settings.pauseTtl * 1_000_000 then
                && decision.reply == Raised(PauseTimeout) && decision.effect.Update?
                && OneMoves(store, after, id, row.(status := Cancelled, completedAt := Some(at.second)),
                            decision.effect.event)
                && TellsMove(decision.effect.event, "status", Paused, "cancelled", at.second)
                && Get(decision.effect.event.data, "reason") == Text("PAUSE_TIMEOUT")
              else if !NamesOne(call.priority) then Unchanged(decision, InvalidInput)
              else
                && decision.reply == Done(id, false) && decision.effect.Update?
                && (var now := decision.effect.task;
                    && OneMoves(store, after, id, now, decision.effect.event)
                    && now == row.(status := Running, pausedAt := None, priority := now.priority)
                    && PriorityIs(call.priority, row.priority, now.priority))
                && TellsMove(decision.effect.event, "resume_requested", Paused, "running", at.second)
                && Get(decision.effect.event.data, "resumed_by") == Text(call.caller)
  {
    if call.task in store.tasks {
      NextIsOneMore(store, call.task);
    }
  }

  // ---------------------------------------------------------------- context

  /** An injection was created, and none later. */
  predicate Newest(log: seq<TaskEvent>, k: nat) {
    && k < |log| && log[k].kind == "context_injected"
    && forall j: nat | j < |log| && log[j].kind == "context_injected" :: log[j].createdAt <= log[k].createdAt
  }

  /** An injection whose number a new one must exceed. */
  ghost predicate Compared(log: seq<TaskEvent>, k: nat, pick: nat) {
    Newest(log, k) && if Newest(log, pick) then k == pick else forall j: nat | k < j :: !Newest(log, j)
  }

  /** Whether a number may follow the injections of a log: it exceeds that of the newest, as the query picks it, or
      zero when there is none. */
  ghost predicate MayFollow(log: seq<TaskEvent>, number: int, pick: nat) {
    if forall k: nat :: !Newest(log, k) then 0 < number
    else exists k: nat ::
      Compared(log, k, pick) && ContextNumber(log[k]).Some? && ContextNumber(log[k]).value < number
  }

  lemma {:induction false} NewestNumber(log: seq<TaskEvent>, upTo: nat) returns (k: nat)
    requires upTo <= |log| && forall j: nat | upTo <= j :: !Newest(log, j)
    ensures if forall j: nat :: !Newest(log, j) then NewestContextNumber(log, upTo) == Some(0)
            else
              && Newest(log, k) && (forall j: nat | k < j :: !Newest(log, j))
              && NewestContextNumber(log, upTo) == ContextNumber(log[k])
  {
    k := 0;
    if upTo > 0 {
      assert IsNewestContext(log, upTo - 1) <==> Newest(log, upTo - 1);
      if Newest(log, upTo - 1) {
        k := upTo - 1;
      } else {
        k := NewestNumber(log, upTo - 1);
      }
    }
  }

  lemma ComparedIsOne(log: seq<TaskEvent>, pick: nat) returns (k: nat)
    ensures if forall j: nat :: !Newest(log, j) then LastContextNumber(log, pick) == Some(0)
            else
              && Compared(log, k, pick) && (forall j: nat :: Compared(log, j, pick) ==> j == k)
              && LastContextNumber(log, pick) == ContextNumber(log[k])
  {
    assert IsNewestContext(log, pick) <==> Newest(log, pick);
    k := pick;
    if !Newest(log, pick) {
      k := NewestNumber(log, |log|);
    }
  }

  lemma LastNumberMayFollow(log: seq<TaskEvent>, number: int, pick: nat)
    ensures MayFollow(log, number, pick) <==>
            LastContextNumber(log, pick).Some? && LastContextNumber(log, pick).value < number
  {
    var k := ComparedIsOne(log, pick);
  }

  /** An injection succeeds exactly into a running or paused task and under a number that may follow; it is recorded
      with its content under that number, and the row stays. */
  lemma InjectOutcome(store: Store, call: Call, at: Moment)
    requires call.InjectContext? && LogsTellStatus(store)
    ensures var decision := DecideInject(store, call, at);
            var id, after := call.task, Commit(store, decision.effect);
            if !MayAct(store, at, call.workflow, id, call.caller) then
              IsDenied(store, at, call.workflow, id, decision)
            else if store.tasks[id].status in {Running, Paused}
                    && MayFollow(LogOf(store, id), call.contextSequence, at.pick) then
              && decision.reply == Done(id, false) && decision.effect.Update?
              && OneMoves(store, after, id, store.tasks[id], decision.effect.event)
              && decision.effect.event.kind == "context_injected"
              && decision.effect.event.createdAt == at.first
              && decision.effect.event.data == call.context["context_sequence" := Number(call.contextSequence)]
            else decision.effect.Nothing? && decision.reply.Raised?
  {
    LastNumberMayFollow(LogOf(store, call.task), call.contextSequence, at.pick);
    if call.task in store.tasks {
      NextIsOneMore(store, call.task);
    }
  }

  // ---------------------------------------------------------------- retask and redirect

  ghost predicate Held(store: Store, key: Option<string>) {
    key.Some? && exists id :: id in store.tasks && store.tasks[id].spec.idempotencyKey == key
  }

  /** The answer from a held key: the holder if its input is the same, else a mismatch. */
  ghost predicate AnswersFromKey(store: Store, key: Option<string>, input: Data, decision: Decision) {
    && decision.effect.Nothing?
    && if decision.reply.Raised? then
         && decision.reply.error == IdempotencyMismatch
         && forall id | id in store.tasks && store.tasks[id].spec.idempotencyKey == key ::
              store.tasks[id].spec.input != input
       else
         && decision.reply.replayed && decision.reply.task in store.tasks
         && store.tasks[decision.reply.task].spec.idempotencyKey == key
         && store.tasks[decision.reply.task].spec.input == input
  }

  lemma KeyAnswers(store: Store, key: Option<string>, input: Data)
    requires KeysUnique(store)
    ensures CheckIdempotency(store, key, input) == Fresh <==> !Held(store, key)
    ensures match CheckIdempotency(store, key, input)
            case Fresh => true
            case Existing(id) =>
              && id in store.tasks && store.tasks[id].spec.idempotencyKey == key
              && store.tasks[id].spec.input == input
            case Mismatch =>
              forall id | id in store.tasks && store.tasks[id].spec.idempotencyKey == key ::
                store.tasks[id].spec.input != input
  {
    if key.Some? {
      assert forall id :: id in Holders(store, key.value) <==>
          id in store.tasks && store.tasks[id].spec.idempotencyKey == key;
    }
  }

  /** The row of a task that continues another: all is inherited but input, priority and key. */
  predicate Inherits(id: TaskId, row: Task, child: Task, input: Data, priority: Option<string>, key: Option<string>,
                     time: Time) {
    && child.spec.workflow == row.spec.workflow && child.spec.principal == row.spec.principal
    && child.spec.executor == row.spec.executor && child.spec.timeout == row.spec.timeout
    && child.spec.delegationDepth == row.spec.delegationDepth
    && child.spec.parent == Some(id) && child.spec.depth == row.spec.depth + 1
    && child.spec.root == Some(if row.spec.root.None? then id else row.spec.root.value)
    && child.spec.input == input && child.spec.idempotencyKey == key && child.spec.createdAt == time
    && child.status == Accepted && child.result == Null
    && child.startedAt.None? && child.completedAt.None? && child.pausedAt.None?
    && PriorityIs(priority, row.priority, child.priority)
  }

  /** Two tasks have new rows and one more event each; nothing else has changed. */
  predicate TwoMove(store: Store, after: Store, id: TaskId, row: Task, event: TaskEvent,
                    childId: TaskId, child: Task, childEvent: TaskEvent) {
    && after.tasks == store.tasks[id := row][childId := child]
    && after.logs == store.logs[id := LogOf(store, id) + [event]][childId := LogOf(store, childId) + [childEvent]]
  }

  /** The old task's event tells the move and names the new task under `tag`; the new one's names the old under
      `link`. */
  predicate TellWay(id: TaskId, row: Task, event: TaskEvent, childEvent: TaskEvent, name: string, tag: string,
                    link: string, at: Moment) {
    && TellsMove(event, "status", row.status, name, at.second) && Get(event.data, tag) == Text(at.newId)
    && childEvent.kind == "created" && childEvent.sequence == 1 && childEvent.createdAt == at.second
    && Get(childEvent.data, "status") == Text("accepted")
    && Get(childEvent.data, "caller") == Text(row.spec.principal) && Get(childEvent.data, link) == Text(id)
  }

  /** A task has made way for a new one, and both logs tell it. */
  ghost predicate MakesWay(store: Store, decision: Decision, id: TaskId, to: TaskStatus, name: string, tag: string,
                           link: string, input: Data, priority: Option<string>, key: Option<string>, at: Moment) {
    && decision.reply == Done(at.newId, false) && decision.effect.Fork?
    && at.newId !in store.tasks && id in store.tasks && LogOf(store, id) != []
    && var effect, row := decision.effect, store.tasks[id];
       && TwoMove(store, Commit(store, effect), id, row.(status := to, completedAt := Some(at.first)), effect.event,
                  at.newId, effect.child, effect.childEvent)
       && effect.event.sequence == LogOf(store, id)[|LogOf(store, id)| - 1].sequence + 1
       && TellWay(id, row, effect.event, effect.childEvent, name, tag, link, at)
       && Inherits(id, row, effect.child, input, priority, key, at.second)
  }

  lemma ForkTells(id: TaskId, row: Task, to: TaskStatus, name: string, tag: string, link: string, extra: Data,
                  links: Data, sequence: int, at: Moment)
    requires StatusName(to) == name && "status" !in extra && Get(extra, tag) == Text(at.newId)
    requires tag !in {"from_status", "to_status"} && links == map[link := Text(id)] && link !in {"status", "caller"}
    ensures TellWay(id, row, ChangeEvent("status", row.status, to, extra, sequence, at.second),
                    CreatedEvent(row.spec.principal, links, at.second), name, tag, link, at)
  {
  }

  lemma ChildInherits(id: TaskId, row: Task, input: Data, origin: Origin, asked: Option<string>, priority: TaskPriority,
                      key: Option<string>, time: Time)
    requires ResolvePriority(asked, row.priority) == Some(priority)
    ensures Inherits(id, row, Child(id, row, input, origin, priority, key, time), input, asked, key, time)
  {
  }

  lemma ForkCommits(store: Store, id: TaskId, row: Task, event: TaskEvent, childId: TaskId, child: Task,
                    childEvent: TaskEvent)
    requires id != childId
    ensures TwoMove(store, Commit(store, Fork(id, row, event, childId, child, childEvent)), id, row, event, childId,
                    child,
                    childEvent)
  {
  }

  lemma ForkOutcome(store: Store, id: TaskId, to: TaskStatus, name: string, tag: string, link: string, input: Data,
                    origin: Origin, priority: Option<string>, key: Option<string>, extra: Data, links: Data, at: Moment)
    requires id in store.tasks && Legal(LogOf(store, id)) && IsTerminal(to)
    requires StatusName(to) == name && "status" !in extra && Get(extra, tag) == Text(at.newId)
    requires tag !in {"from_status", "to_status"} && links == map[link := Text(id)] && link !in {"status", "caller"}
    ensures var decision := DecideFork(store, id, store.tasks[id], to, input, origin, priority, key, extra, links, at);
            if !NamesOne(priority) then Unchanged(decision, InvalidInput)
            else if at.newId in store.tasks then Unchanged(decision, DuplicateId)
            else MakesWay(store, decision, id, to, name, tag, link, input, priority, key, at)
  {
    NextIsOneMore(store, id);
    var decision := DecideFork(store, id, store.tasks[id], to, input, origin, priority, key, extra, links, at);
    if decision.effect.Fork? {
      var effect := decision.effect;
      ChildInherits(id, store.tasks[id], input, origin, priority,
                    ResolvePriority(priority, store.tasks[id].priority).value,
                    key, at.second);
      ForkCommits(store, id, effect.task, effect.event, effect.childId, effect.child, effect.childEvent);
    }
    ForkTells(id, store.tasks[id], to, name, tag, link, extra, links, NextSequence(store, id), at);
  }

  /** Every field of the old input, and every field of the new, which prevails where both have one. */
  predicate Overlays(was: Data, added: Data, merged: Data) {
    && merged.Keys == was.Keys + added.Keys
    && forall key | key in merged :: merged[key] == if key in added then added[key] else was[key]
  }

  /** A retask needs a completed or failed task below the depth limit. Unless its key is held, it then succeeds
      exactly if it names a priority or none; the new task has the old input overlaid with the additional one. */
  lemma RetaskOutcome(settings: Settings, store: Store, call: Call, at: Moment) returns (merged: Data)
    requires call.RetaskTask? && LogsTellStatus(store) && KeysUnique(store)
    ensures var decision, id := DecideRetask(settings, store, call, at), call.task;
            if !MayAct(store, at, call.workflow, id, call.caller) then
              IsDenied(store, at, call.workflow, id, decision)
            else
              && Overlays(store.tasks[id].spec.input, call.additionalInput, merged)
              && if store.tasks[id].status !in {Completed, Failed} then Unchanged(decision, RetaskNotReviewable)
                 else if store.tasks[id].spec.depth >= settings.maxDepth then Unchanged(decision, DepthExceeded)
                 else if Held(store, call.key) then AnswersFromKey(store, call.key, merged, decision)
                 else if !NamesOne(call.priority) then Unchanged(decision, InvalidInput)
                 else if at.newId in store.tasks then Unchanged(decision, DuplicateId)
                 else MakesWay(store, decision, id, Retasked, "retasked", "retask_id", "retask_of", merged,
                               call.priority, call.key, at)
  {
    merged := map[];
    if MayAct(store, at, call.workflow, call.task, call.caller) {
      var row := store.tasks[call.task];
      merged := row.spec.input + call.additionalInput;
      KeyAnswers(store, call.key, merged);
      ForkOutcome(store, call.task, Retasked, "retasked", "retask_id", "retask_of", merged,
                  Refined(call.additionalInput),
                  call.priority, call.key, map["retask_id" := Text(at.newId), "retasked_by" := Text(call.caller)],
                  map["retask_of" := Text(call.task)], at);
    }
  }

  /** A redirect needs a running or paused task below the depth limit; the new task has the new input. */
  lemma RedirectOutcome(settings: Settings, store: Store, call: Call, at: Moment)
    requires call.RedirectTask? && LogsTellStatus(store) && KeysUnique(store)
    ensures var decision, id := DecideRedirect(settings, store, call, at), call.task;
            if !MayAct(store, at, call.workflow, id, call.caller) then
              IsDenied(store, at, call.workflow, id, decision)
            else if store.tasks[id].status !in {Running, Paused} then Unchanged(decision, RedirectNotPossible)
            else if store.tasks[id].spec.depth >= settings.maxDepth then Unchanged(decision, DepthExceeded)
            else if Held(store, call.key) then AnswersFromKey(store, call.key, call.newInput, decision)
            else if !NamesOne(call.priority) then Unchanged(decision, InvalidInput)
            else if at.newId in store.tasks then Unchanged(decision, DuplicateId)
            else
              MakesWay(store, decision, id, Redirected, "redirected", "redirect_id", "redirect_of", call.newInput,
                       call.priority, call.key,
                       at)
  {
    if MayAct(store, at, call.workflow, call.task, call.caller) {
      KeyAnswers(store, call.key, call.newInput);
      ForkOutcome(store, call.task, Redirected, "redirected", "redirect_id", "redirect_of", call.newInput,
                  Replaced(call.newInput),
                  call.priority, call.key,
                  map["reason" := call.reason, "redirect_id" := Text(at.newId), "redirected_by" := Text(call.caller)],
                  map["redirect_of" := Text(call.task)], at);
    }
  }

  // ---------------------------------------------------------------- the executor's posts

  /** What an executor may post of a task in a given state. */
  predicate MayPost(status: TaskStatus, kind: string, data: Data) {
    if kind == "status" then
      && Get(data, "status").Text?
      && var name := Get(data, "status").text;
         match status
         case Accepted => name in {"running", "cancelled", "failed"}
         case Running => name in {"completed", "failed", "paused", "cancelled", "redirected"}
         case Paused => name in {"running", "cancelled", "redirected"}
         case Completed => name == "retasked"
         case Failed => name == "retasked"
         case _ => false
    else if kind == "completed" then status == Running
    else if kind == "failed" then status in {Accepted, Running}
    else if kind == "progress" then "progress" in data
    else kind in {"log", "heartbeat", "context_injected", "escalation"}
  }

  /** The state a `status` post names. */
  predicate Means(name: Json, status: TaskStatus) {
    && (name == Text("running") ==> status == Running) && (name == Text("paused") ==> status == Paused)
    && (name == Text("completed") ==> status == Completed) && (name == Text("failed") ==> status == Failed)
    && (name == Text("cancelled") ==> status == Cancelled) && (name == Text("retasked") ==> status == Retasked)
    && (name == Text("redirected") ==> status == Redirected)
  }

  /** The row after a post: its state and result as posted, its start stamped once, its end at each terminal state. */
  predicate PostMakes(row: Task, kind: string, data: Data, at: Moment, after: Task) {
    && after.spec == row.spec && after.priority == row.priority && after.pausedAt == row.pausedAt
    && (if kind == "status" then Means(Get(data, "status"), after.status)
        else if kind == "completed" then after.status == Completed
        else if kind == "failed" then after.status == Failed
        else after.status == row.status)
    && after.result == (if kind == "completed" then Get(data, "result")
                        else if kind == "failed" then
                          Object(map["error_code" := Get(data, "error_code"), "message" := Get(data, "message")])
                        else row.result)
    && after.startedAt == (if row.startedAt.None? && kind == "status" && after.status == Running then Some(at.first)
                           else row.startedAt)
    && after.completedAt == (if && kind in {"status", "completed", "failed"}
                                && after.status in {Completed, Failed, Cancelled, Retasked, Redirected}
                             then Some(at.second) else row.completedAt)
  }

  /** A post succeeds exactly if its kind is known, it comes from the task's executor, it is numbered above every event
      of the log, and the task's state allows it; it is then appended as it is, and the row follows it. */
  lemma PostOutcome(store: Store, call: Call, at: Moment)
    requires call.SidecarEvent? && LogsTellStatus(store)
    ensures var decision, id := DecideSidecar(store, call, at), call.task;
            if && id in store.tasks && call.agent == store.tasks[id].spec.executor
               && (forall event | event in LogOf(store, id) :: event.sequence < call.sequence)
               && MayPost(store.tasks[id].status, call.kind, call.data)
            then
              && decision.reply == Done(id, false) && decision.effect.Update?
              && (var after := Commit(store, decision.effect);
                  var event := TaskEvent(call.kind, call.data, call.sequence, at.first);
                  && after.tasks == store.tasks[id := decision.effect.task]
                  && after.logs == store.logs[id := LogOf(store, id) + [event]])
              && PostMakes(store.tasks[id], call.kind, call.data, at, decision.effect.task)
            else decision.effect.Nothing? && decision.reply.Raised?
  {
    if call.task in store.tasks {
      var log := LogOf(store, call.task);
      MaxSequenceIsGreatest(log);
      AllBelow(log, call.sequence);
      AllowedPost(store.tasks[call.task], call.kind, call.data, at);
    }
  }

  lemma AllBelow(log: seq<TaskEvent>, number: int)
    requires Legal(log)
    ensures (forall event | event in log :: event.sequence < number) <==> MaxSequence(log) < number
  {
    MaxSequenceIsGreatest(log);
  }

  lemma AllowedPost(row: Task, kind: string, data: Data, at: Moment)
    ensures kind in EXECUTOR_EVENTS && ApplyExecutorEvent(row, kind, data, at).Becomes? <==> MayPost(row.status, kind,
                                                                                                     data)
    ensures MayPost(row.status, kind, data) ==>
              PostMakes(row, kind, data, at, ApplyExecutorEvent(row, kind, data, at).task)
  {
    if kind == "status" {
      NamedState(Get(data, "status"));
    }
  }

  lemma NamedState(name: Json)
    ensures StatusIn(name).Some? <==>
            name.Text? && name.text in {"accepted", "running", "paused", "completed", "failed", "cancelled", "retasked",
                                        "redirected"}
    ensures StatusIn(name).Some? ==> Means(name, StatusIn(name).value)
    ensures name == Text("accepted") ==> StatusIn(name) == Some(Accepted)
  {
  }

  // ---------------------------------------------------------------- creation

  /** The executor of a task: the agent the call names, or the workflow's owner when it names none or the empty one. */
  function ExecutorFor(call: Call, workflow: Workflow): string
    requires call.CreateTask?
  {
    if call.executor.None? || call.executor.value == "" then workflow.owner else call.executor.value
  }

  /** The row of a task just created by a call. */
  predicate CreatedBy(call: Call, workflow: Workflow, row: Task, time: Time)
    requires call.CreateTask?
  {
    && row.spec.workflow == call.workflow && row.spec.input == call.input
    && row.spec.principal == call.caller && row.spec.executor == ExecutorFor(call, workflow)
    && row.spec.timeout == (if call.timeout in {None, Some(0)} then workflow.timeout else call.timeout)
    && row.spec.parent.None? && row.spec.root.None? && row.spec.depth == 0 && row.spec.delegationDepth == 0
    && row.spec.idempotencyKey == call.key && row.spec.createdAt == time
    && row.status == Accepted && Names(call.priorityName, row.priority) && row.result == Null
    && row.startedAt.None? && row.completedAt.None? && row.pausedAt.None?
  }

  /** A creation without a held key succeeds exactly in a known workflow, for registered agents of which the executor
      is not suspended, with an input the schema accepts and a priority; it inserts the task the call describes. */
  lemma CreateOutcome(store: Store, call: Call, at: Moment)
    requires call.CreateTask? && LogsTellStatus(store) && KeysUnique(store)
    ensures var decision := DecideCreate(store, call, at);
            if Held(store, call.key) then
              Unchanged(decision, WorkflowNotFound) || AnswersFromKey(store, call.key, call.input, decision)
            else if && call.workflow in at.workflows
                    && (var executor := ExecutorFor(call, at.workflows[call.workflow]);
                        executor !in at.suspended && executor in at.agents)
                    && call.caller in at.agents && call.schemaAccepts
                    && call.priorityName in {"low", "normal", "high", "critical"} && at.newId !in store.tasks
            then
              && decision.reply == Done(at.newId, false) && decision.effect.Insert?
              && (var after, event := Commit(store, decision.effect), decision.effect.event;
                  && after.tasks == store.tasks[at.newId := decision.effect.task]
                  && after.logs == store.logs[at.newId := [event]]
                  && event.kind == "created" && event.sequence == 1 && event.createdAt == at.first
                  && event.data == map["status" := Text("accepted"), "caller" := Text(call.caller)])
              && CreatedBy(call, at.workflows[call.workflow], decision.effect.task, at.first)
            else decision.effect.Nothing? && decision.reply.Raised?
    ensures Held(store, call.key) && DecideCreate(store, call, at).reply == Raised(WorkflowNotFound) ==>
              call.workflow !in at.workflows
  {
    KeyAnswers(store, call.key, call.input);
    assert map[]["status" := Text("accepted")]["caller" := Text(call.caller)]
        == map["status" := Text("accepted"), "caller" := Text(call.caller)];
    if at.newId !in store.tasks {
      assert LogOf(store, at.newId) + [CreatedEvent(call.caller, map[], at.first)]
          == [CreatedEvent(call.caller, map[], at.first)];
    }
  }
}
