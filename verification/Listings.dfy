/** The two paged listings: tasks newest first, workflows by id. */
module Listings {
  import opened Options
  import opened TaskStateMachine
  import opened TaskRecords
  import opened TaskDecisions
  import opened TaskHistory
  import opened Outcomes
  import opened KeysetPages

  /** The database's collation of ids: any strict total order. */
  type Collation = (string, string) -> bool

  datatype ListReply<K> = Listed(page: Page<K>) | Rejected(error: Error)

  // ---------------------------------------------------------------- tasks

  datatype TaskFilter = TaskFilter(
    workflow: string,
    status: Option<string>,
    priority: Option<string>,
    caller: Option<string>,
    since: Option<Time>,
    until: Option<Time>)

  /** What orders the listing and what a cursor encodes. */
  datatype TaskKey = TaskKey(createdAt: Time, id: TaskId)

  /** Newest first; tasks of one instant by descending id. */
  function NewestFirst(collation: Collation): (TaskKey, TaskKey) -> bool {
    (a: TaskKey, b: TaskKey) => b.createdAt < a.createdAt || (a.createdAt == b.createdAt && collation(b.id, a.id))
  }

  lemma NewestFirstIsTotal(collation: Collation)
    requires StrictTotal(collation)
    ensures StrictTotal(NewestFirst(collation))
  {
    var before := NewestFirst(collation);
    forall a, b, c | before(a, b) && before(b, c)
      ensures before(a, c)
    {
      if a.createdAt == b.createdAt == c.createdAt {
        assert collation(c.id, b.id) && collation(b.id, a.id);
      }
    }
    forall a, b
      ensures a == b || before(a, b) || before(b, a)
    {
      assert a.id == b.id || collation(a.id, b.id) || collation(b.id, a.id);
    }
  }

  predicate ValidFilter(filter: TaskFilter) {
    && (filter.status.Some? ==> ParseStatus(filter.status.value).Some?)
    && (filter.priority.Some? ==> ParsePriority(filter.priority.value).Some?)
  }

  predicate Matches(task: Task, filter: TaskFilter)
    requires ValidFilter(filter)
  {
    && task.spec.workflow == filter.workflow
    && (filter.status.Some? ==> task.status == ParseStatus(filter.status.value).value)
    && (filter.priority.Some? ==> task.priority == ParsePriority(filter.priority.value).value)
    && (filter.caller.Some? ==> task.spec.principal == filter.caller.value)
    && (filter.since.Some? ==> filter.since.value <= task.spec.createdAt)
    && (filter.until.Some? ==> task.spec.createdAt <= filter.until.value)
  }

  /** A filter is valid exactly if it names states and priorities there are. */
  lemma ValidFilterIff(filter: TaskFilter)
    ensures ValidFilter(filter) <==>
            && (filter.status.Some? ==>
                  filter.status.value in {"accepted", "running", "paused", "completed", "failed", "cancelled",
                                          "retasked",
                                          "redirected"})
            && NamesOne(filter.priority)
  {
  }

  /** A task matches exactly if it is of the workflow, in the named state and priority, of the named principal, and
      created in the closed interval the filter gives. */
  lemma MatchesIff(task: Task, filter: TaskFilter)
    requires ValidFilter(filter)
    ensures Matches(task, filter) <==>
            && task.spec.workflow == filter.workflow
            && (filter.status.None? || StatusName(task.status) == filter.status.value)
            && (filter.priority.None? || Names(filter.priority.value, task.priority))
            && (filter.caller.None? || task.spec.principal == filter.caller.value)
            && (filter.since.None? || task.spec.createdAt >= filter.since.value)
            && (filter.until.None? || task.spec.createdAt <= filter.until.value)
  {
    ParseStatusName(task.status);
  }

  function KeyOf(store: Store, id: TaskId): TaskKey
    requires id in store.tasks
  {
    TaskKey(store.tasks[id].spec.createdAt, id)
  }

  function MatchingTasks(store: Store, filter: TaskFilter): set<TaskKey>
    requires ValidFilter(filter)
  {
    set id | id in store.tasks && Matches(store.tasks[id], filter) :: KeyOf(store, id)
  }

  ghost function ListTasks(collation: Collation, store: Store, workflows: set<string>, filter: TaskFilter,
                           cursor: Option<TaskKey>, limit: nat): ListReply<TaskKey>
    requires StrictTotal(collation)
  {
    NewestFirstIsTotal(collation);
    if filter.workflow !in workflows then Rejected(WorkflowNotFound)
    else if !ValidFilter(filter) then Rejected(InvalidInput)
    else Listed(FetchPage(NewestFirst(collation), MatchingTasks(store, filter), cursor, limit))
  }

  /** A listing is refused exactly for an unknown workflow or a filter that names no status or priority; else its
      page starts right after the cursor, is full if it can be, and tells truly whether there is more. */
  lemma TaskListingReplies(collation: Collation, store: Store, workflows: set<string>, filter: TaskFilter,
                           cursor: Option<TaskKey>, limit: nat)
    requires StrictTotal(collation) && limit >= 1
    ensures match ListTasks(collation, store, workflows, filter, cursor, limit)
            case Rejected(error) =>
              if error == WorkflowNotFound then filter.workflow !in workflows
              else filter.workflow in workflows && !ValidFilter(filter)
            case Listed(page) =>
              && filter.workflow in workflows && ValidFilter(filter)
              && var left := After(NewestFirst(collation), MatchingTasks(store, filter), cursor);
                 && (forall k | k in page.items :: k in left)
                 && |page.items| == (if |left| < limit then |left| else limit)
                 && (page.hasMore <==> limit < |left|) && (page.next.Some? <==> page.hasMore)
                 && page.total == |MatchingTasks(store, filter)|
  {
    if filter.workflow in workflows && ValidFilter(filter) {
      NewestFirstIsTotal(collation);
      PageCounts(NewestFirst(collation), MatchingTasks(store, filter), cursor, limit);
      PageTakesFirst(NewestFirst(collation), MatchingTasks(store, filter), cursor, limit);
    }
  }

  /** On a fixed store, following the cursors of any page size lists the matching tasks and no others, each
      once, newest first. */
  lemma TaskPagesListAll(collation: Collation, store: Store, filter: TaskFilter, limit: nat)
    requires StrictTotal(collation) && ValidFilter(filter) && limit >= 1
    ensures StrictTotal(NewestFirst(collation))
    ensures var shown := Follow(NewestFirst(collation), MatchingTasks(store, filter), None, limit);
            && (forall i, j | 0 <= i < j < |shown| ::
                  shown[j].createdAt < shown[i].createdAt
                  || (shown[j].createdAt == shown[i].createdAt && collation(shown[j].id, shown[i].id)))
            && (forall k | k in shown ::
                  k.id in store.tasks && k == KeyOf(store, k.id) && Matches(store.tasks[k.id], filter))
            && (forall id | id in store.tasks && Matches(store.tasks[id], filter) :: KeyOf(store, id) in shown)
            && (forall i, j | 0 <= i < j < |shown| :: shown[i].id != shown[j].id)
  {
    NewestFirstIsTotal(collation);
    var before, keys := NewestFirst(collation), MatchingTasks(store, filter);
    PagesRefineListing(before, keys, limit);
    ListingIsOrdered(before, keys);
    var shown := Follow(before, keys, None, limit);
    forall i, j | 0 <= i < j < |shown|
      ensures shown[i].id != shown[j].id
    {
      assert before(shown[i], shown[j]) && shown[i] in keys && shown[j] in keys;
    }
  }

  /** A filter on fields that never change keeps matching whatever it matched. */
  lemma StandingMatches(settings: Settings, history: seq<Request>, i: nat, j: nat, filter: TaskFilter)
    requires Timely(history) && i <= j <= |history|
    requires ValidFilter(filter) && filter.status.None? && filter.priority.None?
    ensures MatchingTasks(StoreBefore(settings, history, i),
                          filter) <= MatchingTasks(StoreBefore(settings, history, j), filter)
  {
    HistoryEvolves(settings, history, i, j);
    var store, later := StoreBefore(settings, history, i), StoreBefore(settings, history, j);
    forall id | id in store.tasks && Matches(store.tasks[id], filter)
      ensures KeyOf(store, id) in MatchingTasks(later, filter)
    {
      assert KeyOf(store, id) == KeyOf(later, id) && Matches(later.tasks[id], filter);
    }
  }

  /** The points of a history at which the pages of a walk are read, in time order. */
  ghost predicate ReadInOrder(history: seq<Request>, points: seq<nat>) {
    && (forall i | 0 <= i < |points| :: points[i] <= |history|)
    && (forall i, j | 0 <= i < j < |points| :: points[i] <= points[j])
  }

  ghost function Snapshots(settings: Settings, history: seq<Request>, points: seq<nat>,
                           filter: TaskFilter): seq<set<TaskKey>>
    requires ReadInOrder(history, points) && ValidFilter(filter)
  {
    seq(|points|, i requires 0 <= i < |points| => MatchingTasks(StoreBefore(settings, history, points[i]), filter))
  }

  /** A task has one key throughout a history. */
  lemma KeyStays(settings: Settings, history: seq<Request>, i: nat, j: nat, filter: TaskFilter, a: TaskKey, b: TaskKey)
    requires Timely(history) && i <= |history| && j <= |history| && ValidFilter(filter)
    requires a in MatchingTasks(StoreBefore(settings, history, i), filter)
    requires b in MatchingTasks(StoreBefore(settings, history, j), filter)
    requires a.id == b.id
    ensures a == b
  {
    if i <= j {
      HistoryEvolves(settings, history, i, j);
    } else {
      HistoryEvolves(settings, history, j, i);
    }
  }

  lemma ShownIdsDiffer(collation: Collation, settings: Settings, history: seq<Request>, points: seq<nat>,
                       filter: TaskFilter, limit: nat)
    requires StrictTotal(NewestFirst(collation)) && Timely(history)
    requires ReadInOrder(history, points) && ValidFilter(filter) && limit >= 1
    ensures var shown := Walk(NewestFirst(collation), Snapshots(settings, history, points, filter), None, limit);
            forall i, j | 0 <= i < j < |shown| :: shown[i].id != shown[j].id
  {
    var before, snapshots := NewestFirst(collation), Snapshots(settings, history, points, filter);
    var shown, pages := Walk(before, snapshots, None, limit), WalkPages(before, snapshots, None, limit);
    WalkIsOrdered(before, snapshots, None, limit);
    WalkShowsMatches(before, snapshots, None, limit);
    forall i, j | 0 <= i < j < |shown|
      ensures shown[i].id != shown[j].id
    {
      assert before(shown[i], shown[j]);
      if shown[i].id == shown[j].id {
        var p := FlatFrom(pages, snapshots, shown[i]);
        var q := FlatFrom(pages, snapshots, shown[j]);
        KeyStays(settings, history, points[p], points[q], filter, shown[i], shown[j]);
      }
    }
  }

  /** While calls go on between the pages, a walk that ends shows no task twice, each page shows only tasks that
      match when it is read, and with a filter on fields that never change the walk shows every task that matched
      when the first page was read. */
  lemma TaskWalkIsSound(collation: Collation, settings: Settings, history: seq<Request>, points: seq<nat>,
                        filter: TaskFilter, limit: nat)
    requires StrictTotal(collation) && StrictTotal(NewestFirst(collation)) && Timely(history)
    requires ReadInOrder(history, points) && ValidFilter(filter) && limit >= 1
    requires Ends(NewestFirst(collation), Snapshots(settings, history, points, filter), None, limit)
    ensures var before, snapshots := NewestFirst(collation), Snapshots(settings, history, points, filter);
            var shown, pages := Walk(before, snapshots, None, limit), WalkPages(before, snapshots, None, limit);
            && Ordered(before, shown)
            && (forall i, j | 0 <= i < j < |shown| :: shown[i].id != shown[j].id)
            && shown == Flatten(pages) && ShowsItsOwn(pages, snapshots)
            && (filter.status.None? && filter.priority.None? ==>
                  forall k | k in MatchingTasks(StoreBefore(settings, history, points[0]), filter) :: k in shown)
  {
    var before, snapshots := NewestFirst(collation), Snapshots(settings, history, points, filter);
    WalkIsOrdered(before, snapshots, None, limit);
    WalkShowsMatches(before, snapshots, None, limit);
    ShownIdsDiffer(collation, settings, history, points, filter, limit);
    if filter.status.None? && filter.priority.None? {
      forall k | k in snapshots[0]
        ensures k in Walk(before, snapshots, None, limit)
      {
        StandingIsShown(collation, settings, history, points, filter, limit, k);
      }
    }
  }

  lemma StandingIsShown(collation: Collation, settings: Settings, history: seq<Request>, points: seq<nat>,
                        filter: TaskFilter, limit: nat, k: TaskKey)
    requires StrictTotal(NewestFirst(collation)) && Timely(history)
    requires ReadInOrder(history, points) && ValidFilter(filter) && limit >= 1
    requires filter.status.None? && filter.priority.None?
    requires Ends(NewestFirst(collation), Snapshots(settings, history, points, filter), None, limit)
    requires k in Snapshots(settings, history, points, filter)[0]
    ensures k in Walk(NewestFirst(collation), Snapshots(settings, history, points, filter), None, limit)
  {
    var snapshots := Snapshots(settings, history, points, filter);
    forall i | 0 <= i < |snapshots|
      ensures k in snapshots[i]
    {
      StandingMatches(settings, history, points[0], points[i], filter);
    }
    WalkSkipsNone(NewestFirst(collation), snapshots, None, limit, k);
  }

  // ---------------------------------------------------------------- workflows

  datatype WorkflowStatus = Active | Deprecated

  datatype WorkflowRow = WorkflowRow(owner: string, status: WorkflowStatus, tags: set<string>)

  datatype WorkflowFilter = WorkflowFilter(status: Option<string>, owner: Option<string>, tag: Option<string>)

  function ParseWorkflowStatus(name: string): Option<WorkflowStatus> {
    if name == "active" then Some(Active) else if name == "deprecated" then Some(Deprecated) else None
  }

  /** The status listed: the one asked for, active when none is. */
  function ListedStatus(filter: WorkflowFilter): Option<WorkflowStatus> {
    if filter.status.None? then Some(Active) else ParseWorkflowStatus(filter.status.value)
  }

  predicate WorkflowMatches(row: WorkflowRow, filter: WorkflowFilter) {
    && ListedStatus(filter) == Some(row.status)
    && (filter.owner.Some? ==> row.owner == filter.owner.value)
    && (filter.tag.Some? ==> filter.tag.value in row.tags)
  }

  /** A workflow matches exactly if it is in the named state, active when none is named, of the named owner, and
      carries the named tag. */
  lemma WorkflowMatchesIff(row: WorkflowRow, filter: WorkflowFilter)
    ensures WorkflowMatches(row, filter) <==>
            && (row.status.Active? ==> filter.status in {None, Some("active")})
            && (row.status.Deprecated? ==> filter.status == Some("deprecated"))
            && (filter.owner.None? || row.owner == filter.owner.value)
            && (filter.tag.None? || filter.tag.value in row.tags)
  {
  }

  function MatchingWorkflows(rows: map<string, WorkflowRow>, filter: WorkflowFilter): set<string> {
    set id | id in rows && WorkflowMatches(rows[id], filter)
  }

  ghost function ListWorkflows(collation: Collation, rows: map<string, WorkflowRow>, filter: WorkflowFilter,
                               cursor: Option<string>, limit: nat): ListReply<string>
    requires StrictTotal(collation)
  {
    if ListedStatus(filter).None? then Rejected(InvalidInput)
    else Listed(FetchPage(collation, MatchingWorkflows(rows, filter), cursor, limit))
  }

  /** A listing is refused exactly for a status that is none; without a status it shows active workflows only. */
  lemma WorkflowListingReplies(collation: Collation, rows: map<string, WorkflowRow>, filter: WorkflowFilter,
                               cursor: Option<string>, limit: nat)
    requires StrictTotal(collation) && limit >= 1
    ensures match ListWorkflows(collation, rows, filter, cursor, limit)
            case Rejected(_) =>
              filter.status.Some? && filter.status.value != "active" && filter.status.value != "deprecated"
            case Listed(page) =>
              var left := After(collation, MatchingWorkflows(rows, filter), cursor);
              && (forall id | id in page.items :: id in left && (filter.status.None? ==> rows[id].status.Active?))
              && |page.items| == (if |left| < limit then |left| else limit)
              && (page.hasMore <==> limit < |left|) && (page.next.Some? <==> page.hasMore)
              && page.total == |MatchingWorkflows(rows, filter)|
  {
    if ListedStatus(filter).Some? {
      PageCounts(collation, MatchingWorkflows(rows, filter), cursor, limit);
      PageTakesFirst(collation, MatchingWorkflows(rows, filter), cursor, limit);
    }
  }

  /** Following the cursors of any page size lists the matching workflows and no others, each once, by id. */
  lemma WorkflowPagesListAll(collation: Collation, rows: map<string, WorkflowRow>, filter: WorkflowFilter, limit: nat)
    requires StrictTotal(collation) && limit >= 1
    ensures var shown := Follow(collation, MatchingWorkflows(rows, filter), None, limit);
            && Ordered(collation, shown)
            && (forall i, j | 0 <= i < j < |shown| :: shown[i] != shown[j])
            && (forall id :: id in shown <==> id in rows && WorkflowMatches(rows[id], filter))
  {
    PagesRefineListing(collation, MatchingWorkflows(rows, filter), limit);
    ListingIsOrdered(collation, MatchingWorkflows(rows, filter));
  }

  /** While workflows come, go and change between the pages, a walk that ends shows none twice, each page shows only
      workflows that match when it is read, and none that matched at every page is skipped. */
  lemma WorkflowWalkIsSound(collation: Collation, tables: seq<map<string, WorkflowRow>>, filter: WorkflowFilter,
                            limit: nat)
    requires StrictTotal(collation) && limit >= 1
    requires Ends(collation, seq(|tables|, i requires 0 <= i < |tables| => MatchingWorkflows(tables[i], filter)), None,
                  limit)
    ensures var snapshots := seq(|tables|, i requires 0 <= i < |tables| => MatchingWorkflows(tables[i], filter));
            var shown := Walk(collation, snapshots, None, limit);
            && (forall i, j | 0 <= i < j < |shown| :: shown[i] != shown[j])
            && shown == Flatten(WalkPages(collation, snapshots, None, limit))
            && ShowsItsOwn(WalkPages(collation, snapshots, None, limit), snapshots)
            && (forall id | (forall i | 0 <= i < |tables| :: id in tables[i] && WorkflowMatches(tables[i][id],
                                                                                                filter)) :: id in shown)
  {
    var snapshots := seq(|tables|, i requires 0 <= i < |tables| => MatchingWorkflows(tables[i], filter));
    WalkIsOrdered(collation, snapshots, None, limit);
    WalkShowsMatches(collation, snapshots, None, limit);
    forall id | (forall i | 0 <= i < |tables| :: id in tables[i] && WorkflowMatches(tables[i][id], filter))
      ensures id in Walk(collation, snapshots, None, limit)
    {
      WalkSkipsNone(collation, snapshots, None, limit, id);
    }
  }
}
