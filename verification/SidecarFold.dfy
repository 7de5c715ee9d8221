/** The signals of a dispatched task in the whole sidecar: its runs, seen by one task, are runs of `SignalFold`, and
    what the executor emits are the contexts they fold to. */
module SidecarFold {
  import opened Options
  import opened TaskRecords
  import opened Signals
  import opened Executor
  import opened Dispatcher
  import opened Sidecar
  import F = SignalFold

  // ---------------------------------------------------------------- what a step does to the signals

  function Joins(ids: seq<TaskId>): seq<F.Action> {
    seq(|ids|, i requires 0 <= i < |ids| => F.Join(ids[i]))
  }

  function TopActions(s: State, t: TaskId): seq<F.Action> {
    if t in s.redirects || IsCancelled(s, t) then []
    else if t in s.events && !s.events[t] then [F.Block(t)]
    else [F.Pop(t)]
  }

  function MoveActions(s: State, e: Execution, t: TaskId, move: Move): seq<F.Action> {
    match move
    case Begin(found) => if found then TopActions(s, t) else []
    case Wake => [F.Pop(t)]
    case Resume => if e.point.OfferingLine? then TopActions(s, t) else []
    case Read(line) => if line.Unreadable? then TopActions(s, t) else []
    case Expire => [F.Unblock(t)]
    case Ended => []
    case Exited(_) => []
  }

  function Projected(w: World, action: Action, limit: int): seq<F.Action> {
    match action
    case Poll(ids) => Joins(Admitted(w.inFlight, ids, limit))
    case Handle(signal) => if w.acking.Some? then [] else [F.Handle(F.Item(signal, Key(signal)))]
    case Acknowledged => [F.Acknowledged]
    case Run(t, move) =>
      if t in w.runs && Enabled(w.signals, w.runs[t], t, move) then MoveActions(w.signals, w.runs[t], t, move) else []
    case Leave(t) => if t in w.runs then [F.Leave(t)] else []
  }

  lemma {:induction false} JoinsRegister(trace: F.Trace, ids: seq<TaskId>, t: TaskId)
    ensures F.ActAll(trace, Joins(ids), t) == trace.(state := RegisteredAll(trace.state, ids))
  {
    if ids != [] {
      var before, last := ids[..|ids| - 1], ids[|ids| - 1];
      JoinsRegister(trace, before, t);
      RegisteredOneMore(trace.state, before, last);
      assert before + [last] == ids && Joins(ids)[..|ids| - 1] == Joins(before);
    }
  }

  lemma ActOne(trace: F.Trace, action: F.Action, t: TaskId)
    ensures F.ActAll(trace, [action], t) == F.Act(trace, action, t)
    ensures F.ActAll(trace, [], t) == trace
  {
    assert [action][..0] == [];
  }

  /** What a task's executor takes by a step of its own. */
  function Taken(w: World, action: Action, t: TaskId): seq<Payload> {
    if action.Run? && action.task == t && F.Pop(t) in Projected(w, action, 0) then Queue(w.signals, t) else []
  }

  lemma MoveProjects(s: State, e: Execution, o: TaskId, move: Move, trace: F.Trace, t: TaskId)
    requires Enabled(s, e, o, move) && trace.state == s
    ensures var after, actions := F.ActAll(trace, MoveActions(s, e, o, move), t), MoveActions(s, e, o, move);
            && after.state == Sidecar.Moved(s, e, o, move).signals && after.acking == trace.acking
            && after.popped == trace.popped + if o == t && F.Pop(t) in actions then Queue(s, t) else []
  {
    ActOne(trace, F.Pop(o), t);
    ActOne(trace, F.Block(o), t);
    ActOne(trace, F.Unblock(o), t);
  }

  /** A step of the sidecar is that run of `SignalFold` on the signal state. */
  lemma NextProjects(w: World, action: Action, limit: int, trace: F.Trace, t: TaskId)
    requires trace.state == w.signals && trace.acking == w.acking
    ensures var after, next := F.ActAll(trace, Projected(w, action, limit), t), Next(w, action, limit);
            && after.state == next.signals && after.acking == next.acking
            && after.popped == trace.popped + Taken(w, action, t)
  {
    assert trace.popped + [] == trace.popped;
    match action
    case Poll(ids) => JoinsRegister(trace, Admitted(w.inFlight, ids, limit), t);
    case Handle(signal) => ActOne(trace, F.Handle(F.Item(signal, Key(signal))), t);
    case Acknowledged => ActOne(trace, F.Acknowledged, t);
    case Run(o, move) =>
      if o in w.runs && Enabled(w.signals, w.runs[o], o, move) {
        MoveProjects(w.signals, w.runs[o], o, move, trace, t);
      }
    case Leave(o) => ActOne(trace, F.Leave(o), t);
  }

  // ---------------------------------------------------------------- what an executor has been given

  function ContextsOf(emitted: seq<Emission>): seq<Payload> {
    if emitted == [] then []
    else
      var last := emitted[|emitted| - 1];
      ContextsOf(emitted[..|emitted| - 1]) + if last.body.Context? then [last.body.payload] else []
  }

  /** The contexts an executor has emitted, then those it has taken and not yet emitted. */
  function Given(e: Execution): seq<Payload> {
    ContextsOf(e.emitted) + if e.point.OfferingContext? then e.point.rest else []
  }

  lemma EmitGives(e: Execution, body: Body, next: Point)
    ensures ContextsOf(Emit(e, body, next).emitted)
            == ContextsOf(e.emitted) + if body.Context? then [body.payload] else []
  {
    var emission := Emission(body, e.sequence + 1);
    assert (e.emitted + [emission])[..|e.emitted|] == e.emitted;
  }

  lemma OfferGives(e: Execution, contexts: seq<Payload>)
    ensures Given(OfferNext(e, contexts)) == ContextsOf(e.emitted) + contexts
  {
    if contexts != [] {
      EmitGives(e, Context(contexts[0]), OfferingContext(contexts[1..]));
      assert [contexts[0]] + contexts[1..] == contexts;
    }
  }

  lemma AfterPauseGives(s: State, e: Execution, t: TaskId)
    ensures Given(AfterPause(s, e, t).execution) == ContextsOf(e.emitted) + Queue(s, t)
  {
    OfferGives(e.(latePops := e.latePops + if IsCancelled(s, t) then 1 else 0), Queue(s, t));
  }

  lemma TopGives(s: State, e: Execution, t: TaskId)
    requires !e.point.OfferingContext?
    ensures Given(TopOfLoop(s, e, t).execution) == Given(e) + if F.Pop(t) in TopActions(s, t) then Queue(s, t) else []
  {
    AfterPauseGives(s, e, t);
    assert ContextsOf(e.emitted) + [] == ContextsOf(e.emitted);
  }

  lemma LineGives(s: State, e: Execution, t: TaskId, line: Line)
    requires e.point.Reading?
    ensures Given(LineRead(s, e, t, line).execution)
            == Given(e) + if line.Unreadable? && F.Pop(t) in TopActions(s, t) then Queue(s, t) else []
  {
    var read := e.(lateReads := e.lateReads + if IsCancelled(s, t) then 1 else 0);
    EmitGives(read, Output(if line.Readable? then line.text else ""), OfferingLine);
    TopGives(s, read, t);
  }

  lemma ResumeGives(s: State, e: Execution, t: TaskId)
    requires Enabled(s, e, t, Resume)
    ensures Given(Sidecar.Moved(s, e, t, Resume).execution)
            == Given(e) + if e.point.OfferingLine? && F.Pop(t) in TopActions(s, t) then Queue(s, t) else []
  {
    if e.point.OfferingContext? {
      OfferGives(e, e.point.rest);
    } else if e.point.OfferingLine? {
      TopGives(s, e, t);
    }
  }

  /** An executor gives out what it takes. */
  lemma MoveGives(s: State, e: Execution, t: TaskId, move: Move)
    requires Enabled(s, e, t, move)
    ensures Given(Sidecar.Moved(s, e, t, move).execution)
            == Given(e) + if F.Pop(t) in MoveActions(s, e, t, move) then Queue(s, t) else []
  {
    assert Given(e) + [] == Given(e);
    match move
    case Begin(found) =>
      if found {
        TopGives(s, e, t);
      } else {
        EmitGives(e, NotFoundFailure, OfferingLast);
      }
    case Wake => AfterPauseGives(s, e, t);
    case Resume => ResumeGives(s, e, t);
    case Read(line) => LineGives(s, e, t, line);
    case Expire =>
    case Ended =>
      EmitGives(e, CancelledNotice, OfferingLast);
      EmitGives(e, TimeoutFailure, OfferingLast);
    case Exited(_) => EmitGives(e, ExitFailure, OfferingLast);
  }

  lemma NextGives(w: World, action: Action, limit: int, t: TaskId)
    requires Sound(w, limit) && t in w.runs && action != Leave(t)
    ensures var next := Next(w, action, limit);
            t in next.runs && Given(next.runs[t]) == Given(w.runs[t]) + Taken(w, action, t)
  {
    assert Given(w.runs[t]) + [] == Given(w.runs[t]);
    if action.Run? && action.task == t && Enabled(w.signals, w.runs[t], t, action.move) {
      MoveGives(w.signals, w.runs[t], t, action.move);
    } else if action.Poll? {
      RoundStartsNew(w.inFlight, action.ids, limit);
    }
  }

  // ---------------------------------------------------------------- whole runs

  function AfterFrom(w: World, actions: seq<Action>, limit: int): World {
    if actions == [] then w else Next(AfterFrom(w, actions[..|actions| - 1], limit), actions[|actions| - 1], limit)
  }

  function ProjectedAll(w: World, actions: seq<Action>, limit: int): seq<F.Action> {
    if actions == [] then []
    else
      var before := actions[..|actions| - 1];
      ProjectedAll(w, before, limit) + Projected(AfterFrom(w, before, limit), actions[|actions| - 1], limit)
  }

  /** The dispatch of `t` does not end, and ids are plain. */
  predicate Spares(action: Action, t: TaskId) {
    match action
    case Poll(ids) => forall id | id in ids :: PlainId(id)
    case Handle(signal) => PlainId(signal.task)
    case Leave(other) => other != t && PlainId(other)
    case _ => true
  }

  lemma {:induction false} ActAllConcat(trace: F.Trace, a: seq<F.Action>, b: seq<F.Action>, t: TaskId)
    ensures F.ActAll(trace, a + b, t) == F.ActAll(F.ActAll(trace, a, t), b, t)
  {
    if b == [] {
      assert a + b == a;
    } else {
      ActAllConcat(trace, a, b[..|b| - 1], t);
      assert (a + b)[..|a + b| - 1] == a + b[..|b| - 1];
    }
  }

  lemma ProjectedSpares(w: World, action: Action, limit: int, t: TaskId)
    requires Sound(w, limit) && t in w.runs && Spares(action, t) && PlainId(t)
    ensures F.Stays(Projected(w, action, limit), t)
  {
    if action.Poll? {
      RoundStartsNew(w.inFlight, action.ids, limit);
    }
  }

  /** While `t` is dispatched, a run of the sidecar is a run of `SignalFold` that spares `t`, and what its executor
      has been given is what that run pops. */
  lemma {:induction false} RunProjects(w: World, actions: seq<Action>, limit: int, t: TaskId)
    requires Sound(w, limit) && t in w.runs && Given(w.runs[t]) == [] && PlainId(t)
    requires forall i | 0 <= i < |actions| :: Spares(actions[i], t)
    ensures var trace := F.ActAll(F.Trace(w.signals, [], w.acking), ProjectedAll(w, actions, limit), t);
            var after := AfterFrom(w, actions, limit);
            && Sound(after, limit) && t in after.runs
            && F.Stays(ProjectedAll(w, actions, limit), t)
            && trace == F.Trace(after.signals, Given(after.runs[t]), after.acking)
  {
    var begin := F.Trace(w.signals, [], w.acking);
    if actions != [] {
      var before, last := actions[..|actions| - 1], actions[|actions| - 1];
      var middle := AfterFrom(w, before, limit);
      RunProjects(w, before, limit, t);
      var trace := F.ActAll(begin, ProjectedAll(w, before, limit), t);
      NextProjects(middle, last, limit, trace, t);
      NextGives(middle, last, limit, t);
      NextKeeps(middle, last, limit);
      ProjectedSpares(middle, last, limit, t);
      ActAllConcat(begin, ProjectedAll(w, before, limit), Projected(middle, last, limit), t);
    }
  }

  lemma {:induction false} RegisteredAllIsClean(s: State, ids: seq<TaskId>, t: TaskId)
    ensures var after := RegisteredAll(s, ids);
            if t in ids then
              Registers(after, t) && F.ControlOf(after, t) == F.Control(true, false, None) && Queue(after, t) == []
            else
              && (Registers(s, t) ==> Registers(after, t))
              && F.ControlOf(after, t) == F.ControlOf(s, t) && Queue(after, t) == Queue(s, t)
    decreases |ids|
  {
    if ids != [] {
      RegisteredAllIsClean(Registered(s, ids[0]), ids[1..], t);
    }
  }

  lemma AfterLast(actions: seq<Action>, front: seq<Action>, last: Action, limit: int)
    requires actions == front + [last]
    ensures After(actions, limit) == Next(After(front, limit), last, limit)
  {
    assert actions[..|actions| - 1] == front;
  }

  lemma AfterFromLast(w: World, actions: seq<Action>, front: seq<Action>, last: Action, limit: int)
    requires actions == front + [last]
    ensures AfterFrom(w, actions, limit) == Next(AfterFrom(w, front, limit), last, limit)
  {
    assert actions[..|actions| - 1] == front;
  }

  lemma SplitLast<T>(a: seq<T>, b: seq<T>, front: seq<T>, last: T)
    requires b == front + [last]
    ensures a + b == (a + front) + [last]
  {
  }

  lemma {:induction false} AfterSplits(a: seq<Action>, b: seq<Action>, whole: seq<Action>, limit: int)
    requires whole == a + b
    ensures After(whole, limit) == AfterFrom(After(a, limit), b, limit)
    decreases |b|, 1
  {
    if b == [] {
      AppendNone(a, b);
      AfterFromNone(After(a, limit), b, limit);
    } else {
      AfterSplitsLast(a, b, b[..|b| - 1], b[|b| - 1], whole, limit);
    }
  }

  lemma AppendNone<T>(a: seq<T>, b: seq<T>)
    requires b == []
    ensures a + b == a
  {
  }

  lemma AfterFromNone(w: World, actions: seq<Action>, limit: int)
    requires actions == []
    ensures AfterFrom(w, actions, limit) == w
  {
  }

  lemma {:induction false} AfterSplitsLast(a: seq<Action>, b: seq<Action>, front: seq<Action>, last: Action,
                                           whole: seq<Action>, limit: int)
    requires whole == a + b && b == front + [last]
    ensures After(whole, limit) == AfterFrom(After(a, limit), b, limit)
    decreases |b|, 0
  {
    SplitLast(a, b, front, last);
    AfterSplits(a, front, a + front, limit);
    AfterLast(whole, a + front, last, limit);
    AfterFromLast(After(a, limit), b, front, last, limit);
  }

  lemma PollStarts(w: World, ids: seq<TaskId>, limit: int, t: TaskId)
    requires t !in w.runs && t in Next(w, Poll(ids), limit).runs
    ensures var begin := Next(w, Poll(ids), limit);
            Given(begin.runs[t]) == [] && F.Clean(F.Trace(begin.signals, [], begin.acking), t)
  {
    RegisteredAllIsClean(w.signals, Admitted(w.inFlight, ids, limit), t);
  }

  /** A task that a round starts has a clean slate. */
  lemma StartsClean(before: seq<Action>, ids: seq<TaskId>, limit: int, t: TaskId)
    requires t !in After(before, limit).runs && t in After(before + [Poll(ids)], limit).runs
    ensures var begin := After(before + [Poll(ids)], limit);
            && Sound(begin, limit) && Given(begin.runs[t]) == []
            && F.Clean(F.Trace(begin.signals, [], begin.acking), t)
  {
    AlwaysSound(before + [Poll(ids)], limit);
    AfterLast(before + [Poll(ids)], before, Poll(ids), limit);
    PollStarts(After(before, limit), ids, limit, t);
  }

  /** What a run does to a task that starts it clean. */
  lemma RunFolds(begin: World, actions: seq<Action>, limit: int, t: TaskId, seen: set<string>)
    requires Sound(begin, limit) && t in begin.runs && Given(begin.runs[t]) == []
    requires F.Clean(F.Trace(begin.signals, [], begin.acking), t)
    requires PlainId(t) && forall i | 0 <= i < |actions| :: Spares(actions[i], t)
    requires seen == begin.signals.processed + F.Pending(F.Trace(begin.signals, [], begin.acking))
    ensures var after := AfterFrom(begin, actions, limit);
            var kept := F.Fresh(seen, F.Polled(ProjectedAll(begin, actions, limit)), t);
            && t in after.runs
            && F.ControlOf(after.signals, t) == F.SteerAll(F.Control(true, false, None), kept)
            && Given(after.runs[t]) + Queue(after.signals, t) == F.ContextsIn(kept)
  {
    RunProjects(begin, actions, limit, t);
    F.CleanRunFolds(F.Trace(begin.signals, [], begin.acking), ProjectedAll(begin, actions, limit), t, seen);
  }

  /** From the round that starts a task until its dispatch ends, whatever interleaves: its pause, cancel and
      redirect state is that of one pass over the signals handled since, repeats dropped; and the contexts its
      executor has emitted, then those it holds, then those still queued are exactly those signals' contexts, once
      each and in order. */
  lemma ContextsAreEmitted(before: seq<Action>, ids: seq<TaskId>, more: seq<Action>, limit: int, t: TaskId)
    requires PlainId(t) && forall i | 0 <= i < |more| :: Spares(more[i], t)
    requires t !in After(before, limit).runs && t in After(before + [Poll(ids)], limit).runs
    ensures var begin, after := After(before + [Poll(ids)], limit), After(before + [Poll(ids)] + more, limit);
            var seen := begin.signals.processed + F.Pending(F.Trace(begin.signals, [], begin.acking));
            var kept := F.Fresh(seen, F.Polled(ProjectedAll(begin, more, limit)), t);
            && t in after.runs
            && F.ControlOf(after.signals, t) == F.SteerAll(F.Control(true, false, None), kept)
            && Given(after.runs[t]) + Queue(after.signals, t) == F.ContextsIn(kept)
  {
    var begin := After(before + [Poll(ids)], limit);
    StartsClean(before, ids, limit, t);
    AfterSplits(before + [Poll(ids)], more, before + [Poll(ids)] + more, limit);
    RunFolds(begin, more, limit, t, begin.signals.processed + F.Pending(F.Trace(begin.signals, [], begin.acking)));
  }
}
