/** Lineages: the chain of tasks from a root through its retasks and redirects. */
module Lineage {
  import opened Options
  import opened TaskRecords
  import opened TaskDecisions
  import opened TaskInvariants

  /** The parent link of a task in the store. */
  function ParentOf(store: Store, id: TaskId): Option<TaskId>
    requires id in store.tasks
  {
    store.tasks[id].spec.parent
  }

  function DepthOf(store: Store, id: TaskId): nat
    requires id in store.tasks
  {
    store.tasks[id].spec.depth
  }

  /** The tasks from the root down to `id`. */
  ghost function Path(settings: Settings, store: Store, id: TaskId): (path: seq<TaskId>)
    requires LineageLinked(settings, store) && id in store.tasks
    ensures |path| == DepthOf(store, id) + 1 && path[|path| - 1] == id
    decreases DepthOf(store, id)
  {
    assert Linked(settings, store, store.tasks[id]);
    match ParentOf(store, id)
    case None => [id]
    case Some(p) => Path(settings, store, p) + [id]
  }

  /** A path starts at the task's root and is linked by parents; the i-th task has depth i, so none repeats. */
  lemma {:induction false} PathLinksRootToTask(settings: Settings, store: Store, id: TaskId)
    requires LineageLinked(settings, store) && id in store.tasks
    ensures var path := Path(settings, store, id);
            && path[0] == RootOf(store, id) && path[|path| - 1] == id
            && (forall i | 0 <= i < |path| ::
                  path[i] in store.tasks && DepthOf(store, path[i]) == i && RootOf(store, path[i]) == RootOf(store, id))
            && (forall i | 0 < i < |path| :: ParentOf(store, path[i]) == Some(path[i - 1]))
            && IsRoot(store.tasks[path[0]])
            && (forall i, j | 0 <= i < j < |path| :: path[i] != path[j])
    decreases DepthOf(store, id)
  {
    assert Linked(settings, store, store.tasks[id]);
    match ParentOf(store, id)
    case None =>
    case Some(p) =>
      PathLinksRootToTask(settings, store, p);
      var above, path := Path(settings, store, p), Path(settings, store, id);
      assert path == above + [id];
  }

  /** A lineage has one task at each depth. */
  lemma {:induction false} OnePerDepth(settings: Settings, store: Store, a: TaskId, b: TaskId)
    requires LineageLinked(settings, store) && OnlyChildren(store)
    requires a in store.tasks && b in store.tasks
    requires RootOf(store, a) == RootOf(store, b) && DepthOf(store, a) == DepthOf(store, b)
    ensures a == b
    decreases DepthOf(store, a)
  {
    assert Linked(settings, store, store.tasks[a]);
    assert Linked(settings, store, store.tasks[b]);
    if DepthOf(store, a) > 0 {
      var p, q := ParentOf(store, a).value, ParentOf(store, b).value;
      assert Linked(settings, store, store.tasks[p]);
      assert Linked(settings, store, store.tasks[q]);
      OnePerDepth(settings, store, p, q);
    }
  }

  /** Of two tasks of one lineage, the shallower one is on the other's path and is superseded. */
  lemma ShallowerIsSuperseded(settings: Settings, store: Store, a: TaskId, b: TaskId)
    requires LineageLinked(settings, store) && OnlyChildren(store)
    requires a in store.tasks && b in store.tasks
    requires RootOf(store, a) == RootOf(store, b) && DepthOf(store, a) < DepthOf(store, b)
    ensures Path(settings, store, b)[DepthOf(store, a)] == a
    ensures exists c | c in store.tasks :: ParentOf(store, c) == Some(a)
    ensures Superseded(store.tasks[a].status)
  {
    var path, d := Path(settings, store, b), DepthOf(store, a);
    PathLinksRootToTask(settings, store, b);
    OnePerDepth(settings, store, a, path[d]);
    assert ParentOf(store, path[d + 1]) == Some(a);
    assert Linked(settings, store, store.tasks[path[d + 1]]);
  }

  /** At most one task of a lineage is neither retasked nor redirected. */
  lemma OneLiveHead(settings: Settings, store: Store, a: TaskId, b: TaskId)
    requires LineageLinked(settings, store) && OnlyChildren(store)
    requires a in store.tasks && b in store.tasks && RootOf(store, a) == RootOf(store, b)
    requires !Superseded(store.tasks[a].status) && !Superseded(store.tasks[b].status)
    ensures a == b
  {
    if DepthOf(store, a) < DepthOf(store, b) {
      ShallowerIsSuperseded(settings, store, a, b);
    } else if DepthOf(store, b) < DepthOf(store, a) {
      ShallowerIsSuperseded(settings, store, b, a);
    } else {
      OnePerDepth(settings, store, a, b);
    }
  }

  // ---------------------------------------------------------------- the size of a lineage

  ghost function Members(store: Store, root: TaskId): set<TaskId> {
    set id | id in store.tasks && RootOf(store, id) == root
  }

  lemma {:induction false} DistinctDepthsCount(store: Store, ids: set<TaskId>, n: nat)
    requires forall id | id in ids :: id in store.tasks && DepthOf(store, id) < n
    requires forall a, b | a in ids && b in ids && DepthOf(store, a) == DepthOf(store, b) :: a == b
    ensures |ids| <= n
  {
    if n == 0 {
      assert ids == {};
    } else if deepest :| deepest in ids && DepthOf(store, deepest) == n - 1 {
      DistinctDepthsCount(store, ids - {deepest}, n - 1);
    } else {
      DistinctDepthsCount(store, ids, n - 1);
    }
  }

  /** With depth limit D a root has at most D + 1 tasks, itself included. */
  lemma LineageIsBounded(settings: Settings, store: Store, root: TaskId)
    requires LineageLinked(settings, store) && OnlyChildren(store)
    ensures |Members(store, root)| <= settings.maxDepth + 1
  {
    var members := Members(store, root);
    forall id | id in members
      ensures DepthOf(store, id) < settings.maxDepth + 1
    {
      assert Linked(settings, store, store.tasks[id]);
    }
    forall a, b | a in members && b in members && DepthOf(store, a) == DepthOf(store, b)
      ensures a == b
    {
      OnePerDepth(settings, store, a, b);
    }
    DistinctDepthsCount(store, members, settings.maxDepth + 1);
  }

  // ---------------------------------------------------------------- what a lineage shares

  /** The input a chain of origins prescribes: the nearest redirect's new input, or the root's input,
      overridden from left to right by the additional inputs of the later retasks. */
  function PrescribedInput(origins: seq<Origin>): Data {
    if origins == [] then map[]
    else
      match origins[|origins| - 1]
      case Dispatched(input) => input
      case Replaced(newInput) => newInput
      case Refined(additional) => PrescribedInput(origins[..|origins| - 1]) + additional
  }

  ghost function Origins(store: Store, path: seq<TaskId>): seq<Origin>
    requires forall id | id in path :: id in store.tasks
  {
    seq(|path|, i requires 0 <= i < |path| => store.tasks[path[i]].spec.origin)
  }

  predicate SharesLineageFields(a: TaskSpec, b: TaskSpec) {
    && a.workflow == b.workflow && a.principal == b.principal && a.executor == b.executor
    && a.timeout == b.timeout && a.delegationDepth == b.delegationDepth
  }

  /** Every task shares the root's workflow, principal, executor, timeout and delegation depth, and its input
      is the one its path of origins prescribes. */
  lemma {:induction false} LineageInherits(settings: Settings, store: Store, id: TaskId)
    requires LineageLinked(settings, store) && id in store.tasks
    ensures var path := Path(settings, store, id);
            && (forall step | step in path :: step in store.tasks)
            && SharesLineageFields(store.tasks[id].spec, store.tasks[path[0]].spec)
            && store.tasks[id].spec.input == PrescribedInput(Origins(store, path))
    decreases DepthOf(store, id)
  {
    assert Linked(settings, store, store.tasks[id]);
    PathLinksRootToTask(settings, store, id);
    match ParentOf(store, id)
    case None =>
    case Some(p) =>
      LineageInherits(settings, store, p);
      var above, path := Path(settings, store, p), Path(settings, store, id);
      assert path == above + [id];
      assert Origins(store, path)[..|above|] == Origins(store, above);
  }

  // ---------------------------------------------------------------- the head of a lineage

  ghost predicate IsHead(store: Store, id: TaskId) {
    id in store.tasks && forall other | other in store.tasks :: ParentOf(store, other) != Some(id)
  }

  /** The task at the end of the lineage that `id` is on. */
  ghost function Head(settings: Settings, store: Store, id: TaskId): (head: TaskId)
    requires LineageLinked(settings, store) && id in store.tasks
    ensures IsHead(store, head) && RootOf(store, head) == RootOf(store, id)
    decreases settings.maxDepth - DepthOf(store, id)
  {
    assert Linked(settings, store, store.tasks[id]);
    if child :| child in store.tasks && ParentOf(store, child) == Some(id) then
      assert Linked(settings, store, store.tasks[child]);
      Head(settings, store, child)
    else id
  }

  lemma HeadIsUnique(settings: Settings, store: Store, a: TaskId, b: TaskId)
    requires LineageLinked(settings, store) && OnlyChildren(store)
    requires IsHead(store, a) && IsHead(store, b) && RootOf(store, a) == RootOf(store, b)
    ensures a == b
  {
    if DepthOf(store, a) < DepthOf(store, b) {
      ShallowerIsSuperseded(settings, store, a, b);
    } else if DepthOf(store, b) < DepthOf(store, a) {
      ShallowerIsSuperseded(settings, store, b, a);
    } else {
      OnePerDepth(settings, store, a, b);
    }
  }

  /** Every task of a lineage but its head is superseded. */
  lemma OnlyHeadMoves(settings: Settings, store: Store, id: TaskId)
    requires LineageLinked(settings, store) && id in store.tasks && !IsHead(store, id)
    ensures Superseded(store.tasks[id].status)
  {
  }

  // ---------------------------------------------------------------- the chain that is built

  /** The ids met while following at most `steps` parent links upwards from `next`. */
  function Climb(store: Store, next: Option<TaskId>, steps: nat): seq<TaskId>
    decreases steps
  {
    if steps == 0 || next.None? || next.value !in store.tasks then []
    else [next.value] + Climb(store, store.tasks[next.value].spec.parent, steps - 1)
  }

  function Reverse(ids: seq<TaskId>): seq<TaskId> {
    if ids == [] then [] else Reverse(ids[1..]) + [ids[0]]
  }

  lemma ReverseCons(first: TaskId, rest: seq<TaskId>)
    ensures Reverse([first] + rest) == Reverse(rest) + [first]
  {
  }

  /** What `build_lineage_chain` returns: the walk from the task up, capped at its depth, reversed. */
  function ChainOf(store: Store, id: TaskId): seq<TaskId>
    requires id in store.tasks
  {
    Reverse([id] + Climb(store, ParentOf(store, id), DepthOf(store, id)))
  }

  lemma ChainExtends(store: Store, id: TaskId, p: TaskId)
    requires id in store.tasks && ParentOf(store, id) == Some(p)
    requires p in store.tasks && DepthOf(store, id) == DepthOf(store, p) + 1
    ensures ChainOf(store, id) == ChainOf(store, p) + [id]
  {
  }

  /** Capping the walk at the task's depth never cuts it short: the chain is the whole path from the root. */
  lemma {:induction false} ChainIsPath(settings: Settings, store: Store, id: TaskId)
    requires LineageLinked(settings, store) && id in store.tasks
    ensures ChainOf(store, id) == Path(settings, store, id)
    decreases DepthOf(store, id)
  {
    assert Linked(settings, store, store.tasks[id]);
    if ParentOf(store, id).Some? {
      var p := ParentOf(store, id).value;
      ChainExtends(store, id, p);
      ChainIsPath(settings, store, p);
    } else {
      ReverseCons(id, []);
    }
  }
}
