/** Rows of the `tasks` and `task_events` tables, and the queries over one task's log. */
module TaskRecords {
  import opened Options
  import opened TaskStateMachine

  type TaskId = string

  /** A point in time or a duration, in microseconds. */
  type Time = int

  const SECOND: Time := 1_000_000

  /** A JSON value: objects and the scalars the code looks into; anything else by its canonical text and what the
      conversion `int()` makes of it. */
  datatype Json =
    | Null
    | Text(text: string)
    | Number(n: int)
    | Object(fields: map<string, Json>)
    | Opaque(canonical: string, asInt: Option<int>)

  type Data = map<string, Json>

  function Get(data: Data, key: string): Json {
    if key in data then data[key] else Null
  }

  /** `int()` of a JSON value: `None` where it raises. */
  function IntOf(value: Json): Option<int> {
    match value
    case Number(n) => Some(n)
    case Text(text) => ReadInt(Strip(text))
    case Opaque(_, asInt) => asInt
    case _ => None
  }

  predicate IsSpace(c: char) {
    c == ' ' || '\t' <= c <= '\r' || '\U{1C}' <= c <= '\U{1F}'
  }

  function Strip(text: string): string {
    if text == "" then ""
    else if IsSpace(text[0]) then Strip(text[1..])
    else if IsSpace(text[|text| - 1]) then Strip(text[..|text| - 1])
    else text
  }

  /** Decimal digits after an optional sign, with single underscores between them. */
  function ReadInt(text: string): Option<int> {
    if text != "" && text[0] == '-' then
      var n := ReadDigits(text[1..]);
      if n.Some? then Some(-n.value) else None
    else if text != "" && text[0] == '+' then ReadDigits(text[1..])
    else ReadDigits(text)
  }

  function ReadDigits(text: string): Option<int> {
    if text == "" || !('0' <= text[|text| - 1] <= '9') then None
    else
      var digit, front := text[|text| - 1] as int - '0' as int, text[..|text| - 1];
      if front == "" then Some(digit)
      else
        var n := ReadDigits(if front[|front| - 1] == '_' then front[..|front| - 1] else front);
        if n.Some? then Some(n.value * 10 + digit) else None
  }

  datatype TaskPriority = Low | Normal | High | Critical

  function ParsePriority(name: string): Option<TaskPriority> {
    if name == "low" then Some(Low)
    else if name == "normal" then Some(Normal)
    else if name == "high" then Some(High)
    else if name == "critical" then Some(Critical)
    else None
  }

  /** How a task came to be, and the input that call supplied. */
  datatype Origin = Dispatched(input: Data) | Refined(additionalInput: Data) | Replaced(newInput: Data)

  /** The columns no call writes once the row is inserted. */
  datatype TaskSpec = TaskSpec(
    workflow: string,
    principal: string,
    executor: string,
    input: Data,
    timeout: Option<int>,
    parent: Option<TaskId>,
    root: Option<TaskId>,
    depth: nat,
    delegationDepth: nat,
    idempotencyKey: Option<string>,
    origin: Origin,
    createdAt: Time)

  datatype Task = Task(
    spec: TaskSpec,
    status: TaskStatus,
    priority: TaskPriority,
    result: Json,
    startedAt: Option<Time>,
    completedAt: Option<Time>,
    pausedAt: Option<Time>)

  /** What `transition_to` makes of a row when the transition is allowed. */
  function Moved(task: Task, to: TaskStatus, at: Time): Task {
    task.(status := to, completedAt := if IsTerminal(to) then Some(at) else task.completedAt)
  }

  datatype TaskEvent = TaskEvent(kind: string, data: Data, sequence: int, createdAt: Time)

  datatype Store = Store(tasks: map<TaskId, Task>, logs: map<TaskId, seq<TaskEvent>>)

  const EMPTY_STORE := Store(map[], map[])

  /** The events of a task in insertion order; empty for an unknown task. */
  function LogOf(store: Store, id: TaskId): seq<TaskEvent> {
    if id in store.logs then store.logs[id] else []
  }

  function Put(store: Store, id: TaskId, task: Task): Store {
    store.(tasks := store.tasks[id := task])
  }

  function Append(store: Store, id: TaskId, event: TaskEvent): Store {
    store.(logs := store.logs[id := LogOf(store, id) + [event]])
  }

  /** `coalesce(max(sequence), 0)` over a log. */
  function MaxSequence(log: seq<TaskEvent>): int {
    if log == [] then 0
    else
      var last := log[|log| - 1];
      if |log| == 1 then last.sequence
      else
        var top := MaxSequence(log[..|log| - 1]);
        if top < last.sequence then last.sequence else top
  }

  /** The state a JSON value names, if it names one. */
  function StatusIn(value: Json): Option<TaskStatus> {
    if value.Text? then ParseStatus(value.text) else None
  }

  /** The status change an event records: `status` in its data, else `to_status`, or its type. */
  function StatusOf(event: TaskEvent): Option<TaskStatus> {
    if event.kind == "completed" then Some(Completed)
    else if event.kind == "failed" then Some(Failed)
    else if event.kind in {"created", "status", "pause_requested", "resume_requested"} then
      if "status" in event.data then StatusIn(event.data["status"]) else StatusIn(Get(event.data, "to_status"))
    else None
  }

  /** The status a log tells: that of its newest event that records one. */
  function Replay(log: seq<TaskEvent>): Option<TaskStatus> {
    if log == [] then None
    else
      var last := log[|log| - 1];
      if StatusOf(last).Some? then StatusOf(last) else Replay(log[..|log| - 1])
  }

  /** A log that opens with `created` at sequence 1 as accepted, whose sequence numbers strictly
      increase, and whose every later status change is a valid transition. */
  predicate Legal(log: seq<TaskEvent>) {
    if |log| == 0 then false
    else
      var last := log[|log| - 1];
      var before := log[..|log| - 1];
      if |log| == 1 then
        last.kind == "created" && last.sequence == 1 && StatusOf(last) == Some(Accepted)
      else
        && Legal(before)
        && last.kind != "created"
        && before[|before| - 1].sequence < last.sequence
        && (StatusOf(last).Some? ==> Replay(before).Some? && CanTransition(Replay(before).value, StatusOf(last).value))
  }

  /** How many status changes of a log are not between running and paused. */
  function NonSwapChanges(log: seq<TaskEvent>): nat {
    if |log| <= 1 then 0
    else
      var before := log[..|log| - 1];
      var change := StatusOf(log[|log| - 1]);
      NonSwapChanges(before) +
      (if change.Some? && Replay(before).Some? && !IsSwap(Replay(before).value, change.value) then 1 else 0)
  }

  /** The root a task belongs to: `root_task_id or id`. */
  function RootOf(store: Store, id: TaskId): TaskId
    requires id in store.tasks
  {
    store.tasks[id].spec.root.GetOr(id)
  }

  // ---------------------------------------------------------------- facts about one log

  lemma {:induction false} LegalIncreases(log: seq<TaskEvent>, i: nat, j: nat)
    requires Legal(log) && i < j < |log|
    ensures 1 <= log[i].sequence < log[j].sequence
    decreases |log|
  {
    var before := log[..|log| - 1];
    if j < |log| - 1 {
      LegalIncreases(before, i, j);
    } else if i < j - 1 {
      LegalIncreases(before, i, j - 1);
    } else if 0 < i {
      LegalIncreases(before, i - 1, i);
    }
  }

  /** No event of a log is above its maximum, and one is at it. */
  lemma {:induction false} MaxSequenceIsGreatest(log: seq<TaskEvent>)
    ensures forall e | e in log :: e.sequence <= MaxSequence(log)
    ensures log != [] ==> exists e :: e in log && e.sequence == MaxSequence(log)
  {
    if log != [] {
      var before, last := log[..|log| - 1], log[|log| - 1];
      MaxSequenceIsGreatest(before);
      assert forall e | e in log :: e in before || e == last;
      if before != [] && MaxSequence(before) >= last.sequence {
        var e :| e in before && e.sequence == MaxSequence(before);
        assert e in log;
      } else {
        assert last in log;
      }
    }
  }

  /** In a legal log the newest event carries the greatest sequence number. */
  lemma LegalMax(log: seq<TaskEvent>)
    requires Legal(log)
    ensures MaxSequence(log) == log[|log| - 1].sequence >= 1
  {
  }

  lemma {:induction false} LegalReplays(log: seq<TaskEvent>)
    requires Legal(log)
    ensures Replay(log).Some?
  {
    if 1 < |log| {
      LegalReplays(log[..|log| - 1]);
    }
  }

  /** Every legal log records at most three changes besides pausing and resuming. */
  lemma {:induction false} LegalSpendsBudget(log: seq<TaskEvent>)
    requires Legal(log)
    ensures Replay(log).Some? && NonSwapChanges(log) + Budget(Replay(log).value) <= 3
  {
    if 1 < |log| {
      var before := log[..|log| - 1];
      LegalSpendsBudget(before);
      if StatusOf(log[|log| - 1]).Some? {
        TransitionSpendsBudget(Replay(before).value, StatusOf(log[|log| - 1]).value);
      }
    }
  }
}
