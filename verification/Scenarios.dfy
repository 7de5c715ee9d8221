/** Short runs of the service that show, each from an empty database, a promise the code does not keep. */
module Scenarios {
  import opened Options
  import opened TaskStateMachine
  import opened TaskRecords
  import opened TaskDecisions
  import opened TaskHistory
  import opened Supersession
  import opened Pausing
  import opened ContextOrder

  /** One agent owns the workflow, creates the task and executes it. */
  const AGENT := "a"
  const WORKFLOW := "w"
  const ID: TaskId := "t"

  function At(time: Time, pick: nat): Moment {
    Moment(map[WORKFLOW := Workflow(AGENT, None)], {AGENT}, {}, time, time, ID, pick)
  }

  function Create(time: Time): Request {
    Request(CreateTask(WORKFLOW, AGENT, map[], true, None, "normal", None, None), At(time, 0))
  }

  function Post(kind: string, data: Data, sequence: int, time: Time): Request {
    Request(SidecarEvent(ID, kind, data, sequence, AGENT), At(time, 0))
  }

  function Inject(number: int, time: Time, pick: nat): Request {
    Request(InjectContext(WORKFLOW, ID, AGENT, map[], number), At(time, pick))
  }

  function NewTask(): Task {
    var spec := TaskSpec(WORKFLOW, AGENT, AGENT, map[], None, None, None, 0, 0, None, Dispatched(map[]), 0);
    Task(spec, Accepted, Normal, Null, None, None, None)
  }

  function RunningTask(): Task {
    NewTask().(status := Running, startedAt := Some(1))
  }

  function StatusData(name: string): Data {
    map["status" := Text(name)]
  }

  function NumberData(number: int): Data {
    map["context_sequence" := Number(number)]
  }

  /** The store that holds the one task with a log. */
  function Holding(task: Task, log: seq<TaskEvent>): Store {
    Store(map[ID := task], map[ID := log])
  }

  const STARTED_LOG := [CreatedEvent(AGENT, map[], 0), TaskEvent("status", map["status" := Text("running")], 2, 1)]

  const STARTED := [Create(0), Post("status", map["status" := Text("running")], 2, 1)]

  // ---------------------------------------------------------------- steps

  lemma Extended(settings: Settings, history: seq<Request>, request: Request)
    ensures StoreAfter(settings, history + [request]) == Serve(settings, StoreAfter(settings, history), request)
  {
    assert (history + [request])[..|history|] == history;
  }

  lemma MaxOfAppend(log: seq<TaskEvent>, event: TaskEvent)
    requires log == [] || MaxSequence(log) < event.sequence
    ensures MaxSequence(log + [event]) == event.sequence
  {
    assert (log + [event])[..|log|] == log;
  }

  lemma Creates(settings: Settings)
    ensures Serve(settings, EMPTY_STORE, Create(0)) == Holding(NewTask(), [CreatedEvent(AGENT, map[], 0)])
  {
    var decision := DecideCreate(EMPTY_STORE, Create(0).call, At(0, 0));
    assert decision.effect == Insert(ID, NewTask(), CreatedEvent(AGENT, map[], 0));
    assert Decide(settings, EMPTY_STORE, Create(0)) == decision;
    OneAppended(EMPTY_STORE, NewTask(), CreatedEvent(AGENT, map[], 0));
    assert LogOf(EMPTY_STORE, ID) + [CreatedEvent(AGENT, map[], 0)] == [CreatedEvent(AGENT, map[], 0)];
  }

  lemma OneAppended(store: Store, task: Task, event: TaskEvent)
    requires store.tasks.Keys <= {ID} && store.logs.Keys <= {ID}
    ensures Append(Put(store, ID, task), ID, event) == Holding(task, LogOf(store, ID) + [event])
  {
    assert Append(Put(store, ID, task), ID, event).tasks == map[ID := task];
    assert Append(Put(store, ID, task), ID, event).logs == map[ID := LogOf(store, ID) + [event]];
  }

  lemma Starts(settings: Settings)
    ensures StoreAfter(settings, STARTED) == Holding(RunningTask(), STARTED_LOG)
    ensures MaxSequence(STARTED_LOG) == 2
  {
    var created := [CreatedEvent(AGENT, map[], 0)];
    Extended(settings, [], Create(0));
    assert [] + [Create(0)] == [Create(0)];
    Creates(settings);
    Extended(settings, [Create(0)], STARTED[1]);
    assert [Create(0)] + [STARTED[1]] == STARTED;
    MaxOfAppend([], created[0]);
    assert [] + [created[0]] == created;
    Posts(settings, NewTask(), created, STARTED[1], RunningTask());
    assert created + [TaskEvent("status", StatusData("running"), 2, 1)] == STARTED_LOG;
    MaxOfAppend(created, STARTED_LOG[1]);
  }

  lemma PostDecision(store: Store, call: Call, at: Moment, after: Task)
    requires call.SidecarEvent? && call.kind in EXECUTOR_EVENTS && call.task in store.tasks
    requires store.tasks[call.task].spec.executor == call.agent && MaxSequence(LogOf(store, call.task)) < call.sequence
    requires ApplyExecutorEvent(store.tasks[call.task], call.kind, call.data, at) == Becomes(after)
    ensures DecideSidecar(store, call, at) ==
            Decision(Update(call.task, after, TaskEvent(call.kind, call.data, call.sequence, at.first)),
                     Done(call.task, false))
  {
  }

  lemma ServesPost(settings: Settings, store: Store, request: Request, after: Task, event: TaskEvent)
    requires request.call.SidecarEvent? && store.tasks.Keys <= {ID} && store.logs.Keys <= {ID}
    requires DecideSidecar(store, request.call, request.at).effect == Update(ID, after, event)
    ensures Serve(settings, store, request) == Holding(after, LogOf(store, ID) + [event])
  {
    var decision := DecideSidecar(store, request.call, request.at);
    OneAppended(store, after, event);
    assert Decide(settings, store, request) == decision;
  }

  lemma Posts(settings: Settings, task: Task, log: seq<TaskEvent>, request: Request, after: Task)
    requires task.spec == NewTask().spec && request.call.SidecarEvent? && request.call.task == ID
    requires request.call.kind in EXECUTOR_EVENTS && request.call.agent == AGENT
    requires MaxSequence(log) < request.call.sequence
    requires ApplyExecutorEvent(task, request.call.kind, request.call.data, request.at) == Becomes(after)
    ensures Serve(settings, Holding(task, log), request) == Holding(after, log + [EntryOf(request)])
  {
    PostDecision(Holding(task, log), request.call, request.at, after);
    ServesPost(settings, Holding(task, log), request, after, EntryOf(request));
  }

  lemma Injects(settings: Settings, log: seq<TaskEvent>, number: int, time: Time, pick: nat)
    requires LastContextNumber(log, pick).Some? && LastContextNumber(log, pick).value < number
    ensures Serve(settings, Holding(RunningTask(), log), Inject(number, time, pick))
            == Holding(RunningTask(), log + [Injected(number, MaxSequence(log) + 1, time)])
  {
    var store, request := Holding(RunningTask(), log), Inject(number, time, pick);
    InjectDecision(store, request.call, request.at, RunningTask(), LastContextNumber(log, pick).value);
    assert map[]["context_sequence" := Number(number)] == NumberData(number);
    OneAppended(store, RunningTask(), Injected(number, MaxSequence(log) + 1, time));
  }

  function Injected(number: int, sequence: int, time: Time): TaskEvent {
    TaskEvent("context_injected", NumberData(number), sequence, time)
  }

  lemma InjectDecision(store: Store, call: Call, at: Moment, task: Task, last: int)
    requires call.InjectContext? && Locate(store, at, call.workflow, call.task, call.caller) == Found(task)
    requires task.status == Running && LastContextNumber(LogOf(store, call.task), at.pick) == Some(last)
    requires last < call.contextSequence
    ensures DecideInject(store, call, at) ==
            Decision(Update(call.task, task, TaskEvent("context_injected",
                                                       call.context["context_sequence" := Number(call.contextSequence)],
                                                       NextSequence(store, call.task), at.first)), Done(call.task,
                                                                                                        false))
  {
  }

  // ---------------------------------------------------------------- context numbers fall

  lemma {:induction false} NoneIsNewest(log: seq<TaskEvent>, upTo: nat)
    requires upTo <= |log| && forall i: nat | i < |log| :: !IsContext(log, i)
    ensures NewestContextNumber(log, upTo) == Some(0)
  {
    if upTo > 0 {
      NoneIsNewest(log, upTo - 1);
    }
  }

  /** The number compared with when one injection is newer than all others. */
  lemma SoleNewest(log: seq<TaskEvent>, k: nat, pick: nat)
    requires IsContext(log, k)
    requires forall i: nat | IsContext(log, i) && i != k :: log[i].createdAt < log[k].createdAt
    ensures LastContextNumber(log, pick) == ContextNumber(log[k])
  {
    var newest := LastIsOfNewest(log, pick, k);
    assert log[k].createdAt <= log[newest].createdAt;
  }

  /** One more injection by the caller, after some history that leaves the task running. */
  lemma ThenInjects(settings: Settings, history: seq<Request>, log: seq<TaskEvent>, number: int, time: Time, pick: nat)
    requires StoreAfter(settings, history) == Holding(RunningTask(), log)
    requires LastContextNumber(log, pick).Some? && LastContextNumber(log, pick).value < number
    ensures var event := Injected(number, MaxSequence(log) + 1, time);
            && StoreAfter(settings, history + [Inject(number, time, pick)]) == Holding(RunningTask(), log + [event])
            && MaxSequence(log + [event]) == event.sequence
  {
    var event := Injected(number, MaxSequence(log) + 1, time);
    MaxOfAppend(log, event);
    Injects(settings, log, number, time, pick);
    ThenServes(settings, history, Inject(number, time, pick), Holding(RunningTask(), log),
               Holding(RunningTask(), log + [event]));
  }

  lemma ThenServes(settings: Settings, history: seq<Request>, request: Request, before: Store, after: Store)
    requires StoreAfter(settings, history) == before && Serve(settings, before, request) == after
    ensures StoreAfter(settings, history + [request]) == after
  {
    Extended(settings, history, request);
  }

  /** One more post by the executor. */
  lemma ThenPosts(settings: Settings, history: seq<Request>, task: Task, log: seq<TaskEvent>, kind: string, data: Data,
                  sequence: int, time: Time, after: Task)
    requires StoreAfter(settings, history) == Holding(task, log) && task.spec == NewTask().spec
    requires kind in EXECUTOR_EVENTS && MaxSequence(log) < sequence
    requires ApplyExecutorEvent(task, kind, data, At(time, 0)) == Becomes(after)
    ensures var event := TaskEvent(kind, data, sequence, time);
            && StoreAfter(settings, history + [Post(kind, data, sequence, time)]) == Holding(after, log + [event])
            && MaxSequence(log + [event]) == sequence
  {
    var event := TaskEvent(kind, data, sequence, time);
    MaxOfAppend(log, event);
    Posts(settings, task, log, Post(kind, data, sequence, time), after);
    ThenServes(settings, history, Post(kind, data, sequence, time), Holding(task, log), Holding(after, log + [event]));
  }

  const INJECTED_LOG := STARTED_LOG + [Injected(5, 3, 2)]

  /** After injection 5 the executor injects without a number, and injection 1 is accepted. */
  const AFTER_EXECUTOR := STARTED + [Inject(5, 2, 0)] + [Post("context_injected", map[], 4, 3)] + [Inject(1, 4, 0)]

  const RESET_LOG := INJECTED_LOG + [TaskEvent("context_injected", map[], 4, 3)]

  lemma InjectsFirst(settings: Settings)
    ensures StoreAfter(settings, STARTED + [Inject(5, 2, 0)]) == Holding(RunningTask(), INJECTED_LOG)
    ensures MaxSequence(INJECTED_LOG) == 3
  {
    Starts(settings);
    NoneIsNewest(STARTED_LOG, 2);
    ThenInjects(settings, STARTED, STARTED_LOG, 5, 2, 0);
  }

  const RESET := STARTED + [Inject(5, 2, 0)] + [Post("context_injected", map[], 4, 3)]

  lemma ExecutorResets(settings: Settings)
    ensures StoreAfter(settings, RESET) == Holding(RunningTask(), RESET_LOG) && MaxSequence(RESET_LOG) == 4
  {
    InjectsFirst(settings);
    ThenPosts(settings, STARTED + [Inject(5, 2, 0)], RunningTask(), INJECTED_LOG, "context_injected", map[], 4, 3,
              RunningTask());
  }

  lemma ResetLogFalls(now: Time)
    ensures var log := RESET_LOG + [Injected(1, 5, 4)]; ContextsDistinct(log) && !ContextsOrdered(log, now)
  {
    var log := RESET_LOG + [Injected(1, 5, 4)];
    assert IsContext(log, 2) && IsContext(log, 4);
    assert ContextNumber(log[2]) == Some(5) && ContextNumber(log[4]) == Some(1);
  }

  /** The number compared with is not the highest: once the executor has injected without a number, 1 is accepted
      after 5. */
  lemma ExecutorBreaksNumbering(settings: Settings)
    ensures Timely(AFTER_EXECUTOR)
    ensures StoreAfter(settings, AFTER_EXECUTOR) == Holding(RunningTask(), RESET_LOG + [Injected(1, 5, 4)])
    ensures ContextsDistinct(RESET_LOG + [Injected(1, 5, 4)])
    ensures !ContextsOrdered(RESET_LOG + [Injected(1, 5, 4)], Now(AFTER_EXECUTOR))
  {
    ExecutorResets(settings);
    SoleNewest(RESET_LOG, 3, 0);
    ThenInjects(settings, RESET, RESET_LOG, 1, 4, 0);
    ResetLogFalls(Now(AFTER_EXECUTOR));
  }

  /** Of injections 5 and 7 at one instant the query returns 5, and injection 6 is accepted. */
  const AFTER_TIE := STARTED + [Inject(5, 2, 0)] + [Inject(7, 2, 0)] + [Inject(6, 3, 2)]

  const TIED_LOG := INJECTED_LOG + [Injected(7, 4, 2)]

  lemma Ties(settings: Settings)
    ensures StoreAfter(settings, STARTED + [Inject(5, 2, 0)] + [Inject(7, 2, 0)]) == Holding(RunningTask(), TIED_LOG)
    ensures MaxSequence(TIED_LOG) == 4
  {
    InjectsFirst(settings);
    SoleNewest(INJECTED_LOG, 2, 0);
    ThenInjects(settings, STARTED + [Inject(5, 2, 0)], INJECTED_LOG, 7, 2, 0);
  }

  lemma TiedLogFalls(now: Time)
    ensures !ContextsOrdered(TIED_LOG + [Injected(6, 5, 3)], now)
    ensures LastContextNumber(TIED_LOG, 2) == Some(5)
  {
    var log := TIED_LOG + [Injected(6, 5, 3)];
    assert IsContext(log, 3) && IsContext(log, 4);
    assert ContextNumber(log[3]) == Some(7) && ContextNumber(log[4]) == Some(6);
    assert IsNewestContext(TIED_LOG, 2);
  }

  /** Without executor injections too the numbers may fall, if two injections are created at the same instant. */
  lemma TieBreaksNumbering(settings: Settings)
    ensures Timely(AFTER_TIE) && ExecutorNumbersAbove(settings, AFTER_TIE, ID)
    ensures StoreAfter(settings, AFTER_TIE) == Holding(RunningTask(), TIED_LOG + [Injected(6, 5, 3)])
    ensures !ContextsOrdered(TIED_LOG + [Injected(6, 5, 3)], Now(AFTER_TIE))
  {
    Ties(settings);
    TiedLogFalls(Now(AFTER_TIE));
    ThenInjects(settings, STARTED + [Inject(5, 2, 0)] + [Inject(7, 2, 0)], TIED_LOG, 6, 3, 2);
  }

  // ---------------------------------------------------------------- a redirected task without a child

  const DECLARED := STARTED + [Post("status", map["status" := Text("redirected")], 3, 2)]

  /** The executor's own post leaves a redirected task that nothing continues. */
  lemma DeclaredHasNoChild(settings: Settings)
    ensures Timely(DECLARED) && ID in StoreAfter(settings, DECLARED).tasks
    ensures StoreAfter(settings, DECLARED).tasks[ID].status == Redirected
    ensures !HasChild(StoreAfter(settings, DECLARED), ID) && ExecutorSuperseded(settings, DECLARED, ID)
  {
    var redirected := RunningTask().(status := Redirected, completedAt := Some(2));
    Starts(settings);
    ThenPosts(settings, STARTED, RunningTask(), STARTED_LOG, "status", StatusData("redirected"), 3, 2, redirected);
    ChildIffNotDeclared(settings, DECLARED, ID);
  }

  // ---------------------------------------------------------------- a fresh pause that times out

  function Pause(time: Time): Request {
    Request(PauseTask(WORKFLOW, ID, AGENT, Null), At(time, 0))
  }

  function Resume(time: Time): Request {
    Request(ResumeTask(WORKFLOW, ID, AGENT, None), At(time, 0))
  }

  /** When the executor pauses the task again: past the time to live of the caller's pause at 2. */
  function Late(settings: Settings): Time {
    3 + (if settings.pauseTtl > 0 then settings.pauseTtl else 0) * SECOND
  }

  function Swapped(settings: Settings): seq<Request> {
    STARTED + [Pause(2)] + [Post("status", StatusData("running"), 4, 3)]
    + [Post("status", StatusData("paused"), 5, Late(settings))]
  }

  function PauseEvent(): TaskEvent {
    ChangeEvent("pause_requested", Running, Paused, map["reason" := Null, "paused_by" := Text(AGENT)], 3, 2)
  }

  lemma Pauses(settings: Settings)
    ensures StoreAfter(settings, STARTED + [Pause(2)])
            == Holding(RunningTask().(status := Paused, pausedAt := Some(2)), STARTED_LOG + [PauseEvent()])
    ensures MaxSequence(STARTED_LOG + [PauseEvent()]) == 3
  {
    Starts(settings);
    Extended(settings, STARTED, Pause(2));
    OneAppended(Holding(RunningTask(), STARTED_LOG), RunningTask().(status := Paused, pausedAt := Some(2)),
                PauseEvent());
    MaxOfAppend(STARTED_LOG, PauseEvent());
  }

  lemma Swaps(settings: Settings)
    ensures var store := StoreAfter(settings, Swapped(settings));
            store.tasks == map[ID := RunningTask().(status := Paused, pausedAt := Some(2))]
  {
    var paused, resumed := STARTED + [Pause(2)], STARTED + [Pause(2)] + [Post("status", StatusData("running"), 4, 3)];
    var pausedTask := RunningTask().(status := Paused, pausedAt := Some(2));
    var pausedLog := STARTED_LOG + [PauseEvent()];
    Pauses(settings);
    ThenPosts(settings, paused, pausedTask, pausedLog, "status", StatusData("running"), 4, 3,
              pausedTask.(status := Running));
    var resumedLog := pausedLog + [TaskEvent("status", StatusData("running"), 4, 3)];
    ThenPosts(settings, resumed, pausedTask.(status := Running), resumedLog, "status", StatusData("paused"), 5,
              Late(settings), pausedTask);
  }

  /** After the caller's pause, the executor's resume and the executor's pause, the stale `paused_at` makes a resume
      time out that comes at the very moment of the second pause. */
  lemma FreshPauseTimesOut(settings: Settings)
    ensures Timely(Swapped(settings) + [Resume(Late(settings))])
    ensures ID in StoreAfter(settings, Swapped(settings)).tasks
    ensures StoreAfter(settings, Swapped(settings)).tasks[ID].status == Paused
    ensures Decide(settings, StoreAfter(settings, Swapped(settings)),
                   Resume(Late(settings))).reply == Raised(PauseTimeout)
  {
    Swaps(settings);
    ResumedRow(settings, StoreAfter(settings, Swapped(settings)), Resume(Late(settings)), 2);
  }
}
