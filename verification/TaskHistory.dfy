/** What holds along every history of calls: nothing recorded is lost or renumbered, work is bounded, a
    repeated creation is a replay, a refused call leaves no trace. */
module TaskHistory {
  import opened Options
  import opened TaskStateMachine
  import opened TaskRecords
  import opened TaskDecisions
  import opened TaskInvariants
  import opened Lineage

  // ---------------------------------------------------------------- nothing is lost

  /** How one task may look later: same spec, a longer log, `startedAt` unchanged once set, terminal for good,
      superseded for good. */
  predicate TaskEvolves(task: Task, log: seq<TaskEvent>, later: Task, laterLog: seq<TaskEvent>) {
    && later.spec == task.spec
    && log <= laterLog
    && (task.startedAt.Some? ==> later.startedAt == task.startedAt)
    && (IsTerminal(task.status) ==> IsTerminal(later.status))
    && (Superseded(task.status) ==> later.status == task.status)
  }

  ghost predicate Evolves(store: Store, later: Store) {
    forall id | id in store.tasks :: id in later.tasks
      && TaskEvolves(store.tasks[id], LogOf(store, id), later.tasks[id], LogOf(later, id))
  }

  lemma UpdateEvolves(store: Store, id: TaskId, task: Task, event: TaskEvent, now: Time)
    requires LawfulUpdate(store, id, task, event, now)
    ensures Evolves(store, With(store, id, task, event))
  {
  }

  lemma InsertEvolves(store: Store, id: TaskId, task: Task, event: TaskEvent)
    requires id !in store.tasks
    ensures Evolves(store, With(store, id, task, event))
  {
  }

  lemma EvolvesTransitively(a: Store, b: Store, c: Store)
    requires Evolves(a, b) && Evolves(b, c)
    ensures Evolves(a, c)
  {
  }

  lemma LawfulEvolves(settings: Settings, store: Store, effect: Effect, now: Time)
    requires Lawful(settings, store, effect, now)
    ensures Evolves(store, Commit(store, effect))
  {
    match effect
    case Nothing =>
    case Insert(id, task, event) => InsertEvolves(store, id, task, event);
    case Update(id, task, event) => UpdateEvolves(store, id, task, event, now);
    case Fork(id, task, event, childId, child, childEvent) =>
      var middle := With(store, id, task, event);
      UpdateEvolves(store, id, task, event, now);
      InsertEvolves(middle, childId, child, childEvent);
      EvolvesTransitively(store, middle, With(middle, childId, child, childEvent));
      assert With(middle, childId, child, childEvent) == Commit(store, effect);
  }

  /** Prefixes of a timely history are timely, and reach valid stores. */
  lemma PrefixValid(settings: Settings, history: seq<Request>, i: nat, now: Time)
    requires Timely(history) && i <= |history|
    requires if i == 0 then true else history[i - 1].at.second <= now
    ensures Valid(settings, StoreAfter(settings, history[..i]), now)
  {
    if i > 0 {
      ReachableValid(settings, history[..i]);
    }
  }

  /** What the i-th call of a history found, decided and left behind. */
  ghost function StoreBefore(settings: Settings, history: seq<Request>, i: nat): Store
    requires i <= |history|
  {
    StoreAfter(settings, history[..i])
  }

  ghost function DecisionAt(settings: Settings, history: seq<Request>, i: nat): Decision
    requires i < |history|
  {
    Decide(settings, StoreBefore(settings, history, i), history[i])
  }

  lemma CallLawful(settings: Settings, history: seq<Request>, i: nat)
    requires Timely(history) && i < |history|
    ensures Valid(settings, StoreBefore(settings, history, i), history[i].at.first)
    ensures Lawful(settings, StoreBefore(settings, history, i), DecisionAt(settings, history, i).effect,
                   history[i].at.second)
    ensures StoreBefore(settings, history, i + 1) == Commit(StoreBefore(settings, history, i),
                                                            DecisionAt(settings, history, i).effect)
  {
    PrefixValid(settings, history, i, history[i].at.first);
    DecisionLawful(settings, StoreBefore(settings, history, i), history[i], history[i].at.first);
    assert history[..i + 1][..i] == history[..i];
  }

  /** Over any stretch of a history every task keeps its spec and its events, and what is final stays final. */
  lemma {:induction false} HistoryEvolves(settings: Settings, history: seq<Request>, i: nat, j: nat)
    requires Timely(history) && i <= j <= |history|
    ensures Evolves(StoreBefore(settings, history, i), StoreBefore(settings, history, j))
    decreases j
  {
    if i < j {
      HistoryEvolves(settings, history, i, j - 1);
      CallLawful(settings, history, j - 1);
      LawfulEvolves(settings, StoreBefore(settings, history, j - 1), DecisionAt(settings, history, j - 1).effect,
                    history[j - 1].at.second);
      EvolvesTransitively(StoreBefore(settings, history, i), StoreBefore(settings, history, j - 1),
                          StoreBefore(settings, history, j));
    }
  }

  // ---------------------------------------------------------------- the log tells the status

  /** In every reachable store a task's log opens with `created` at sequence 1, its numbers strictly increase,
      its replay is the task's status through valid transitions only, and at most three of them are not
      between running and paused. */
  lemma LogTellsStatus(settings: Settings, history: seq<Request>, id: TaskId)
    requires Timely(history) && history != [] && id in StoreAfter(settings, history).tasks
    ensures var store := StoreAfter(settings, history);
            var log := LogOf(store, id);
            && Legal(log) && Replay(log) == Some(store.tasks[id].status)
            && log[0].kind == "created" && log[0].sequence == 1
            && (forall i, j | 0 <= i < j < |log| :: log[i].sequence < log[j].sequence)
            && NonSwapChanges(log) + Budget(store.tasks[id].status) <= 3
  {
    ReachableValid(settings, history);
    var log := LogOf(StoreAfter(settings, history), id);
    LegalOpens(log);
    forall i, j | 0 <= i < j < |log|
      ensures log[i].sequence < log[j].sequence
    {
      LegalIncreases(log, i, j);
    }
    LegalSpendsBudget(log);
  }

  lemma {:induction false} LegalOpens(log: seq<TaskEvent>)
    requires Legal(log)
    ensures log[0].kind == "created" && log[0].sequence == 1
  {
    if 1 < |log| {
      LegalOpens(log[..|log| - 1]);
    }
  }

  // ---------------------------------------------------------------- lineages

  /** In every reachable store: a task has at most one child, a task with a child is superseded and stays so
      in every later store, and a root's lineage has at most D + 1 tasks of which at most one is live. */
  lemma LineageHasOneLiveHead(settings: Settings, history: seq<Request>, i: nat, root: TaskId)
    requires Timely(history) && 0 < i <= |history|
    ensures var store := StoreBefore(settings, history, i);
            var later := StoreAfter(settings, history);
            && (forall a, b | a in store.tasks && b in store.tasks && ParentOf(store, a).Some? ::
                  ParentOf(store, a) == ParentOf(store, b) ==> a == b)
            && (forall c | c in store.tasks && ParentOf(store, c).Some? ::
                  var p := ParentOf(store, c).value;
                  p in store.tasks && Superseded(store.tasks[p].status)
                  && p in later.tasks && later.tasks[p].status == store.tasks[p].status)
            && (forall a, b | a in Members(store, root) && b in Members(store, root) ::
                  !Superseded(store.tasks[a].status) && !Superseded(store.tasks[b].status) ==> a == b)
            && |Members(store, root)| <= settings.maxDepth + 1
  {
    var store := StoreBefore(settings, history, i);
    PrefixValid(settings, history, i, history[i - 1].at.second);
    HistoryEvolves(settings, history, i, |history|);
    assert history[..|history|] == history;
    forall c | c in store.tasks && ParentOf(store, c).Some?
      ensures ParentOf(store, c).value in store.tasks && Superseded(store.tasks[ParentOf(store, c).value].status)
    {
      assert Linked(settings, store, store.tasks[c]);
    }
    forall a, b | a in Members(store, root) && b in Members(store, root)
                  && !Superseded(store.tasks[a].status) && !Superseded(store.tasks[b].status)
      ensures a == b
    {
      OneLiveHead(settings, store, a, b);
    }
    LineageIsBounded(settings, store, root);
  }

  /** In every reachable store the chain built for a task is its whole path from the root, linked by parents
      and without repeats; the task shares the root's fields and has the input its path prescribes. */
  lemma LineageChainIsWhole(settings: Settings, history: seq<Request>, id: TaskId)
    requires Timely(history) && history != [] && id in StoreAfter(settings, history).tasks
    ensures var store := StoreAfter(settings, history);
            var chain := ChainOf(store, id);
            && |chain| == DepthOf(store, id) + 1 && chain[0] == RootOf(store, id) && chain[|chain| - 1] == id
            && (forall i | 0 <= i < |chain| :: chain[i] in store.tasks && DepthOf(store, chain[i]) == i)
            && (forall i | 0 < i < |chain| :: ParentOf(store, chain[i]) == Some(chain[i - 1]))
            && (forall i, j | 0 <= i < j < |chain| :: chain[i] != chain[j])
            && SharesLineageFields(store.tasks[id].spec, store.tasks[chain[0]].spec)
            && store.tasks[id].spec.input == PrescribedInput(Origins(store, chain))
  {
    ReachableValid(settings, history);
    var store := StoreAfter(settings, history);
    ChainIsPath(settings, store, id);
    PathLinksRootToTask(settings, store, id);
    LineageInherits(settings, store, id);
  }

  // ---------------------------------------------------------------- bounded work

  /** What a lineage can still do: four units per unused level, and the budget of its head. */
  ghost function Measure(settings: Settings, store: Store, root: TaskId): int
    requires LineageLinked(settings, store) && root in store.tasks
  {
    var head := Head(settings, store, root);
    (settings.maxDepth - DepthOf(store, head)) * 4 + Budget(store.tasks[head].status)
  }

  /** The effect retasks or redirects a task of the lineage, or moves one other than between running and paused. */
  ghost predicate Works(store: Store, effect: Effect, root: TaskId) {
    match effect
    case Update(id, task, event) =>
      && id in store.tasks && RootOf(store, id) == root
      && StatusOf(event).Some? && !IsSwap(store.tasks[id].status, task.status)
    case Fork(id, _, _, _, _, _) => id in store.tasks && RootOf(store, id) == root
    case _ => false
  }

  lemma LiveIsHead(settings: Settings, store: Store, id: TaskId)
    requires LineageLinked(settings, store) && id in store.tasks && !Superseded(store.tasks[id].status)
    ensures IsHead(store, id)
  {
  }

  /** Heads are a matter of the specs alone. */
  lemma SameSpecsSameHead(settings: Settings, store: Store, after: Store, root: TaskId)
    requires LineageLinked(settings, store) && OnlyChildren(store) && LineageLinked(settings, after)
    requires store.tasks.Keys == after.tasks.Keys && root in store.tasks
    requires forall id | id in store.tasks :: after.tasks[id].spec == store.tasks[id].spec
    ensures Head(settings, after, root) == Head(settings, store, root)
  {
    var headAfter := Head(settings, after, root);
    forall other | other in store.tasks
      ensures ParentOf(store, other) != Some(headAfter)
    {
      assert ParentOf(after, other) != Some(headAfter);
    }
    HeadIsUnique(settings, store, Head(settings, store, root), headAfter);
  }

  lemma UpdateSpends(store: Store, id: TaskId, task: Task, event: TaskEvent, now: Time)
    requires LawfulUpdate(store, id, task, event, now)
    ensures Budget(task.status) <= Budget(store.tasks[id].status)
    ensures StatusOf(event).Some? ==> !Superseded(store.tasks[id].status)
    ensures StatusOf(event).Some? && !IsSwap(store.tasks[id].status, task.status) ==>
              Budget(task.status) < Budget(store.tasks[id].status)
  {
  }

  lemma UpdateMeasure(settings: Settings, store: Store, root: TaskId, id: TaskId, task: Task, event: TaskEvent,
                      now: Time)
    requires LineageLinked(settings, store) && OnlyChildren(store) && root in store.tasks && IsRoot(store.tasks[root])
    requires LawfulUpdate(store, id, task, event, now)
    ensures LineageLinked(settings, With(store, id, task, event))
    ensures Measure(settings, With(store, id, task, event), root) <= Measure(settings, store, root)
    ensures Works(store, Update(id, task, event), root) ==>
              Measure(settings, With(store, id, task, event), root) < Measure(settings, store, root)
  {
    var after := With(store, id, task, event);
    UpdateKeepsLineage(settings, store, id, task, event, now);
    UpdateSpends(store, id, task, event, now);
    SameSpecsSameHead(settings, store, after, root);
    if Works(store, Update(id, task, event), root) {
      LiveIsHead(settings, store, id);
      HeadIsUnique(settings, store, Head(settings, store, root), id);
    }
  }

  /** A task just inserted has no child. */
  lemma NewTaskIsHead(settings: Settings, store: Store, id: TaskId, task: Task, event: TaskEvent)
    requires LineageLinked(settings, store) && id !in store.tasks && task.spec.parent != Some(id)
    ensures IsHead(With(store, id, task, event), id)
  {
  }

  /** Inserting into a lineage makes the new task its head. */
  lemma InsertMeasure(settings: Settings, store: Store, root: TaskId, id: TaskId, task: Task, event: TaskEvent,
                      now: Time)
    requires LineageLinked(settings, store) && OnlyChildren(store) && root in store.tasks
    requires LawfulInsert(settings, store, id, task, event, now) && Attaches(store, task)
    requires task.spec.root == Some(root)
    ensures LineageLinked(settings, With(store, id, task, event))
    ensures Measure(settings, With(store, id, task, event), root) == (settings.maxDepth - task.spec.depth) * 4 + 3
  {
    var after := With(store, id, task, event);
    InsertKeepsLineage(settings, store, id, task, event, now);
    NewTaskIsHead(settings, store, id, task, event);
    RootOwnsItself(settings, store, task, root);
    HeadIsUnique(settings, after, id, Head(settings, after, root));
  }

  lemma RootOwnsItself(settings: Settings, store: Store, task: Task, root: TaskId)
    requires LineageLinked(settings, store) && Attaches(store, task) && task.spec.root == Some(root)
    ensures root in store.tasks && RootOf(store, root) == root
  {
    if task.spec.parent.Some? {
      var p := task.spec.parent.value;
      PathLinksRootToTask(settings, store, p);
    }
  }

  /** Inserting elsewhere leaves a lineage's head where it was. */
  lemma InsertElsewhereMeasure(settings: Settings, store: Store, root: TaskId, id: TaskId, task: Task,
                               event: TaskEvent, now: Time)
    requires LineageLinked(settings, store) && OnlyChildren(store) && root in store.tasks && IsRoot(store.tasks[root])
    requires LawfulInsert(settings, store, id, task, event, now) && Attaches(store, task)
    requires task.spec.root != Some(root)
    ensures LineageLinked(settings, With(store, id, task, event))
    ensures Measure(settings, With(store, id, task, event), root) == Measure(settings, store, root)
  {
    var after, head := With(store, id, task, event), Head(settings, store, root);
    InsertKeepsLineage(settings, store, id, task, event, now);
    assert task.spec.parent != Some(head);
    assert IsHead(after, head);
    HeadIsUnique(settings, after, head, Head(settings, after, root));
  }

  /** Every retask, redirect and transition other than a swap strictly decreases the measure of the lineage it
      is in; no call increases it. */
  lemma WorkDecreasesMeasure(settings: Settings, store: Store, effect: Effect, root: TaskId, now: Time, until: Time)
    requires Valid(settings, store, now) && now <= until && Lawful(settings, store, effect, until)
    requires root in store.tasks && IsRoot(store.tasks[root])
    ensures Valid(settings, Commit(store, effect), until) && root in Commit(store, effect).tasks
    ensures Measure(settings, Commit(store, effect), root) <= Measure(settings, store, root)
    ensures Works(store, effect, root) ==> Measure(settings, Commit(store, effect), root) < Measure(settings, store,
                                                                                                    root)
  {
    LawfulKeeps(settings, store, effect, now, until);
    match effect
    case Nothing =>
    case Insert(id, task, event) => InsertElsewhereMeasure(settings, store, root, id, task, event, until);
    case Update(id, task, event) => UpdateMeasure(settings, store, root, id, task, event, until);
    case Fork(id, task, event, childId, child, childEvent) =>
      ForkMeasure(settings, store, effect, root, now, until);
  }

  lemma ForkMeasure(settings: Settings, store: Store, effect: Effect, root: TaskId, now: Time, until: Time)
    requires Valid(settings, store, now) && now <= until && effect.Fork? && Lawful(settings, store, effect, until)
    requires root in store.tasks && IsRoot(store.tasks[root]) && Valid(settings, Commit(store, effect), until)
    ensures Measure(settings, Commit(store, effect), root) <= Measure(settings, store, root)
    ensures RootOf(store, effect.id) == root ==> Measure(settings, Commit(store, effect), root) < Measure(settings,
                                                                                                          store, root)
  {
    var middle := With(store, effect.id, effect.task, effect.event);
    UpdateMeasure(settings, store, root, effect.id, effect.task, effect.event, until);
    UpdateKeepsRest(store, effect.id, effect.task, effect.event, now, until);
    ForkAttaches(settings, store, effect, now, until);
    if RootOf(store, effect.id) == root {
      InsertMeasure(settings, middle, root, effect.childId, effect.child, effect.childEvent, until);
      LiveIsHead(settings, store, effect.id);
      HeadIsUnique(settings, store, Head(settings, store, root), effect.id);
    } else {
      InsertElsewhereMeasure(settings, middle, root, effect.childId, effect.child, effect.childEvent, until);
    }
  }

  /** How many retasks, redirects and transitions other than swaps a history made in a lineage. */
  ghost function WorkDone(settings: Settings, history: seq<Request>, root: TaskId): nat {
    if history == [] then 0
    else
      var before, last := history[..|history| - 1], history[|history| - 1];
      var store := StoreAfter(settings, before);
      WorkDone(settings, before, root) + if Works(store, Decide(settings, store, last).effect, root) then 1 else 0
  }

  /** A lineage lives in the store with its root. */
  lemma RootPresent(settings: Settings, store: Store, id: TaskId)
    requires LineageLinked(settings, store) && id in store.tasks
    ensures RootOf(store, id) in store.tasks
  {
    PathLinksRootToTask(settings, store, id);
  }

  lemma {:induction false} NoWorkBeforeRoot(settings: Settings, history: seq<Request>, root: TaskId)
    requires Timely(history) && root !in StoreAfter(settings, history).tasks
    ensures WorkDone(settings, history, root) == 0
  {
    if history != [] {
      var n := |history| - 1;
      var before := history[..n];
      HistoryEvolves(settings, history, n, n + 1);
      assert history[..n + 1] == history;
      NoWorkBeforeRoot(settings, before, root);
      CallLawful(settings, history, n);
      AbsentRootIdle(settings, StoreAfter(settings, before), DecisionAt(settings, history, n).effect, root);
    }
  }

  lemma AbsentRootIdle(settings: Settings, store: Store, effect: Effect, root: TaskId)
    requires LineageLinked(settings, store) && root !in store.tasks
    ensures !Works(store, effect, root)
  {
    if Works(store, effect, root) {
      RootPresent(settings, store, effect.id);
    }
  }

  /** Only a creation brings a root into the store. */
  lemma OnlyInsertRoots(settings: Settings, store: Store, effect: Effect, root: TaskId, now: Time)
    requires Lawful(settings, store, effect, now)
    requires root !in store.tasks && root in Commit(store, effect).tasks && IsRoot(Commit(store, effect).tasks[root])
    ensures effect.Insert? && effect.id == root
  {
  }

  /** The measure of a lineage that a call just started. */
  lemma RootInserted(settings: Settings, store: Store, effect: Effect, root: TaskId, now: Time, until: Time)
    requires Valid(settings, store, now) && now <= until && Lawful(settings, store, effect, until)
    requires root !in store.tasks && root in Commit(store, effect).tasks && IsRoot(Commit(store, effect).tasks[root])
    ensures LineageLinked(settings, Commit(store, effect))
    ensures Measure(settings, Commit(store, effect), root) == settings.maxDepth * 4 + 3
  {
    LawfulKeeps(settings, store, effect, now, until);
    OnlyInsertRoots(settings, store, effect, root, until);
    var after := Commit(store, effect);
    NewTaskIsHead(settings, store, root, effect.task, effect.event);
    HeadIsUnique(settings, after, root, Head(settings, after, root));
  }

  /** One step's work is paid for by the measure, once the lineage exists. */
  lemma WorkStep(settings: Settings, store: Store, effect: Effect, root: TaskId, now: Time, until: Time)
    requires Valid(settings, store, now) && now <= until && Lawful(settings, store, effect, until)
    requires root in Commit(store, effect).tasks && IsRoot(Commit(store, effect).tasks[root])
    ensures LineageLinked(settings, Commit(store, effect))
    ensures var unit := if Works(store, effect, root) then 1 else 0;
            var left := unit + Measure(settings, Commit(store, effect), root);
            if root in store.tasks then IsRoot(store.tasks[root]) && left <= Measure(settings, store, root)
            else left == settings.maxDepth * 4 + 3
  {
    LawfulEvolves(settings, store, effect, until);
    if root in store.tasks {
      WorkDecreasesMeasure(settings, store, effect, root, now, until);
    } else {
      AbsentRootIdle(settings, store, effect, root);
      RootInserted(settings, store, effect, root, now, until);
    }
  }

  /** The last call of a history pays for its work, or starts the lineage. */
  lemma LastCallPays(settings: Settings, history: seq<Request>, root: TaskId)
    requires Timely(history) && history != []
    requires root in StoreAfter(settings, history).tasks && IsRoot(StoreAfter(settings, history).tasks[root])
    ensures var store, after := StoreAfter(settings, history[..|history| - 1]), StoreAfter(settings, history);
            var unit := WorkDone(settings, history, root) - WorkDone(settings, history[..|history| - 1], root);
            && LineageLinked(settings, store) && LineageLinked(settings, after)
            && if root in store.tasks then
                 IsRoot(store.tasks[root]) && unit + Measure(settings, after, root) <= Measure(settings, store, root)
               else unit + Measure(settings, after, root) == settings.maxDepth * 4 + 3
  {
    var n := |history| - 1;
    var store, effect, at := StoreAfter(settings, history[..n]), DecisionAt(settings, history, n).effect, history[n].at;
    assert history[..n + 1] == history;
    CallLawful(settings, history, n);
    WorkStep(settings, store, effect, root, at.first, at.second);
  }

  /** With depth limit D, no history makes more than 4 * D + 3 moves other than swaps in one lineage. */
  lemma {:induction false} WorkIsBounded(settings: Settings, history: seq<Request>, root: TaskId)
    requires Timely(history) && history != []
    requires root in StoreAfter(settings, history).tasks && IsRoot(StoreAfter(settings, history).tasks[root])
    ensures LineageLinked(settings, StoreAfter(settings, history))
    ensures WorkDone(settings, history, root) + Measure(settings, StoreAfter(settings, history),
                                                        root) <= settings.maxDepth * 4 + 3
  {
    var before := history[..|history| - 1];
    LastCallPays(settings, history, root);
    if root in StoreAfter(settings, before).tasks {
      WorkIsBounded(settings, before, root);
    } else {
      NoWorkBeforeRoot(settings, before, root);
    }
  }

  // ---------------------------------------------------------------- timestamps

  /** `_compute_duration`: whole seconds, truncated toward zero, when both ends are known. */
  function ComputeDuration(startedAt: Option<Time>, completedAt: Option<Time>): Option<int> {
    if startedAt.None? || completedAt.None? then None
    else
      var elapsed := completedAt.value - startedAt.value;
      Some(if elapsed >= 0 then elapsed / SECOND else -(-elapsed / SECOND))
  }

  /** A duration of so many whole seconds, not negative. */
  predicate IsWholeSeconds(duration: Option<int>, elapsed: Time) {
    && duration.Some? && duration.value >= 0
    && duration.value * 1_000_000 <= elapsed < (duration.value + 1) * 1_000_000
  }

  /** In every reachable store timestamps agree with the status and are ordered, `startedAt` never changes
      once set, and the duration of a completed task is defined and not negative. */
  lemma TimestampsAreOrdered(settings: Settings, history: seq<Request>, i: nat, id: TaskId)
    requires Timely(history) && 0 < i <= |history| && id in StoreBefore(settings, history, i).tasks
    ensures var task := StoreBefore(settings, history, i).tasks[id];
            && Timed(task, history[i - 1].at.second)
            && (task.startedAt.Some? ==>
                  id in StoreAfter(settings, history).tasks
                  && StoreAfter(settings, history).tasks[id].startedAt == task.startedAt)
            && (task.status == Completed ==>
                  task.startedAt.Some? && task.completedAt.Some?
                  && IsWholeSeconds(ComputeDuration(task.startedAt, task.completedAt),
                                    task.completedAt.value - task.startedAt.value))
  {
    PrefixValid(settings, history, i, history[i - 1].at.second);
    HistoryEvolves(settings, history, i, |history|);
    assert history[..|history|] == history;
  }

  // ---------------------------------------------------------------- idempotent creation

  /** A successful creation with a key leaves the key on the task it returns, with the input it was given. */
  lemma CreateHoldsKey(settings: Settings, store: Store, request: Request)
    requires request.call.CreateTask? && request.call.key.Some?
    requires Decide(settings, store, request).reply.Done?
    ensures var id, after := Decide(settings, store, request).reply.task, Serve(settings, store, request);
            && id in after.tasks && after.tasks[id].spec.idempotencyKey == request.call.key
            && after.tasks[id].spec.input == request.call.input
  {
  }

  /** A creation with a key some task holds can only succeed as a replay of that task. */
  lemma HeldKeyReplays(store: Store, call: Call, at: Moment, id: TaskId)
    requires call.CreateTask? && call.key.Some? && KeysUnique(store)
    requires id in store.tasks && store.tasks[id].spec.idempotencyKey == call.key
    requires DecideCreate(store, call, at).reply.Done?
    ensures DecideCreate(store, call, at) == Decision(Nothing, Done(id, true))
    ensures call.input == store.tasks[id].spec.input
  {
    assert Holders(store, call.key.value) == {id};
  }

  /** Of two successful creations with one key the later is a replay: it returns the task of the earlier,
      leaves the store unchanged, and was given the same input. */
  lemma CreateReplays(settings: Settings, history: seq<Request>, i: nat, j: nat)
    requires Timely(history) && i < j < |history|
    requires history[i].call.CreateTask? && history[j].call.CreateTask?
    requires history[i].call.key.Some? && history[i].call.key == history[j].call.key
    requires DecisionAt(settings, history, i).reply.Done? && DecisionAt(settings, history, j).reply.Done?
    ensures DecisionAt(settings, history, j).reply == Done(DecisionAt(settings, history, i).reply.task, true)
    ensures StoreBefore(settings, history, j + 1) == StoreBefore(settings, history, j)
    ensures history[j].call.input == history[i].call.input
  {
    var id := DecisionAt(settings, history, i).reply.task;
    CallLawful(settings, history, i);
    CreateHoldsKey(settings, StoreBefore(settings, history, i), history[i]);
    TaskPersists(settings, history, i + 1, j, id);
    CallLawful(settings, history, j);
    HeldKeyReplays(StoreBefore(settings, history, j), history[j].call, history[j].at, id);
  }

  lemma TaskPersists(settings: Settings, history: seq<Request>, i: nat, j: nat, id: TaskId)
    requires Timely(history) && i <= j <= |history| && id in StoreBefore(settings, history, i).tasks
    ensures id in StoreBefore(settings, history, j).tasks
    ensures StoreBefore(settings, history, j).tasks[id].spec == StoreBefore(settings, history, i).tasks[id].spec
    ensures LogOf(StoreBefore(settings, history, i), id) <= LogOf(StoreBefore(settings, history, j), id)
  {
    HistoryEvolves(settings, history, i, j);
  }

  /** The task that a call retasks or redirects. */
  function ForkedTask(call: Call): Option<TaskId> {
    match call
    case RetaskTask(_, task, _, _, _, _) => Some(task)
    case RedirectTask(_, task, _, _, _, _, _) => Some(task)
    case _ => None
  }

  lemma ForkSupersedes(settings: Settings, store: Store, request: Request, id: TaskId)
    requires ForkedTask(request.call) == Some(id)
    requires Decide(settings, store, request).reply.Done? && !Decide(settings, store, request).reply.replayed
    ensures id in Serve(settings, store, request).tasks && Superseded(Serve(settings, store, request).tasks[id].status)
  {
  }

  lemma SupersededIsNotForked(settings: Settings, store: Store, request: Request, id: TaskId)
    requires ForkedTask(request.call) == Some(id) && id in store.tasks && Superseded(store.tasks[id].status)
    ensures Decide(settings, store, request).reply.Raised?
  {
  }

  /** A retask or redirect, unlike a creation, is never replayed by repeating it: whatever its key, a later one of
      the same task is refused, because the status is looked at before the key. */
  lemma RepeatedForkIsRefused(settings: Settings, history: seq<Request>, i: nat, j: nat, id: TaskId)
    requires Timely(history) && i < j < |history|
    requires ForkedTask(history[i].call) == Some(id) && ForkedTask(history[j].call) == Some(id)
    requires DecisionAt(settings, history, i).reply.Done? && !DecisionAt(settings, history, i).reply.replayed
    ensures DecisionAt(settings, history, j).reply.Raised?
  {
    ForkSupersedes(settings, StoreBefore(settings, history, i), history[i], id);
    CallLawful(settings, history, i);
    HistoryEvolves(settings, history, i + 1, j);
    SupersededIsNotForked(settings, StoreBefore(settings, history, j), history[j], id);
  }

  /** No two tasks of a reachable store share an idempotency key. */
  lemma KeysStayUnique(settings: Settings, history: seq<Request>)
    requires Timely(history) && history != []
    ensures KeysUnique(StoreAfter(settings, history))
  {
    ReachableValid(settings, history);
  }

  // ---------------------------------------------------------------- executor posts

  /** An accepted post is newer than the whole log, and is appended to it. */
  lemma AcceptedPostAppends(store: Store, call: Call, at: Moment)
    requires call.SidecarEvent? && DecideSidecar(store, call, at).reply.Done?
    ensures forall e | e in LogOf(store, call.task) :: e.sequence < call.sequence
    ensures var after := Commit(store, DecideSidecar(store, call, at).effect);
            && call.task in after.tasks
            && LogOf(after, call.task) == LogOf(store,
                                                call.task) + [TaskEvent(call.kind, call.data, call.sequence, at.first)]
  {
    MaxSequenceIsGreatest(LogOf(store, call.task));
  }

  /** Of two accepted executor posts to one task the later has the greater sequence number. */
  lemma AcceptedPostsIncrease(settings: Settings, history: seq<Request>, i: nat, j: nat)
    requires Timely(history) && i < j < |history|
    requires history[i].call.SidecarEvent? && history[j].call.SidecarEvent?
    requires history[i].call.task == history[j].call.task
    requires DecisionAt(settings, history, i).reply.Done? && DecisionAt(settings, history, j).reply.Done?
    ensures history[i].call.sequence < history[j].call.sequence
  {
    var id := history[i].call.task;
    CallLawful(settings, history, i);
    AcceptedPostAppends(StoreBefore(settings, history, i), history[i].call, history[i].at);
    AcceptedPostAppends(StoreBefore(settings, history, j), history[j].call, history[j].at);
    TaskPersists(settings, history, i + 1, j, id);
    var early, late := LogOf(StoreBefore(settings, history, i + 1), id), LogOf(StoreBefore(settings, history, j), id);
    assert late[|early| - 1] == early[|early| - 1] && late[|early| - 1] in late;
  }

  /** Where the log of a task stood when a call came. */
  ghost function PlaceOf(settings: Settings, history: seq<Request>, i: nat, task: TaskId): nat
    requires i < |history|
  {
    |LogOf(StoreBefore(settings, history, i), task)|
  }

  /** The log entry an accepted post makes. */
  function EntryOf(request: Request): TaskEvent
    requires request.call.SidecarEvent?
  {
    TaskEvent(request.call.kind, request.call.data, request.call.sequence, request.at.first)
  }

  /** An accepted post is in every later log, at the place where the log stood. */
  lemma AcceptedPostStays(settings: Settings, history: seq<Request>, i: nat, j: nat)
    requires Timely(history) && i < j <= |history| && history[i].call.SidecarEvent?
    requires DecisionAt(settings, history, i).reply.Done?
    ensures var call, log := history[i].call, LogOf(StoreBefore(settings, history, j), history[i].call.task);
            var place := PlaceOf(settings, history, i, call.task);
            && place < |log|
            && log[place] == EntryOf(history[i])
  {
    var id := history[i].call.task;
    CallLawful(settings, history, i);
    AcceptedPostAppends(StoreBefore(settings, history, i), history[i].call, history[i].at);
    TaskPersists(settings, history, i + 1, j, id);
    var soon, late := LogOf(StoreBefore(settings, history, i + 1), id), LogOf(StoreBefore(settings, history, j), id);
    assert late[|soon| - 1] == soon[|soon| - 1];
  }

  // ---------------------------------------------------------------- refused calls

  /** What the one refusal that commits something changes: a paused task is cancelled, with one event. */
  ghost predicate OnlyTimesOut(store: Store, id: TaskId, later: Store) {
    && id in store.tasks && store.tasks[id].status == Paused
    && later.tasks.Keys == store.tasks.Keys && later.logs.Keys == store.logs.Keys + {id}
    && (forall other | other in store.tasks && other != id :: later.tasks[other] == store.tasks[other])
    && (forall other | other in store.logs && other != id :: later.logs[other] == store.logs[other])
    && later.tasks[id] == store.tasks[id].(status := Cancelled, completedAt := later.tasks[id].completedAt)
    && later.tasks[id].completedAt.Some?
    && exists event :: later.logs[id] == LogOf(store, id) + [event]
                       && event.sequence == NextSequence(store, id) && StatusOf(event) == Some(Cancelled)
  }

  lemma TimeoutLeavesOneEvent(settings: Settings, store: Store, call: Call, at: Moment)
    requires call.ResumeTask? && DecideResume(settings, store, call, at).reply == Raised(PauseTimeout)
    ensures OnlyTimesOut(store, call.task, Commit(store, DecideResume(settings, store, call, at).effect))
  {
  }

  /** A call that raises leaves the committed store as it was, except for the pause timeout. */
  lemma RefusalLeavesNoTrace(settings: Settings, store: Store, request: Request)
    requires Decide(settings, store, request).reply.Raised?
    ensures Decide(settings, store, request).reply.error != PauseTimeout ==> Serve(settings, store, request) == store
    ensures Decide(settings, store, request).reply.error == PauseTimeout ==>
              request.call.ResumeTask? && OnlyTimesOut(store, request.call.task, Serve(settings, store, request))
  {
    if Decide(settings, store, request).reply.error == PauseTimeout {
      assert request.call.ResumeTask?;
      TimeoutLeavesOneEvent(settings, store, request.call, request.at);
    }
  }
}
