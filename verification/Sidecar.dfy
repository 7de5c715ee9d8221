/** The whole sidecar: task poller, signal poller and executors, interleaved in every possible way. */
module Sidecar {
  import opened Options
  import opened TaskRecords
  import opened Signals
  import opened Executor
  import opened Dispatcher

  /** `runs` holds the live dispatches; `cancelSeen` those of them for which a cancel signal was handled; `acking`
      the key of the signal whose acknowledgement is being posted. */
  datatype World = World(
    signals: State,
    runs: map<TaskId, Execution>,
    inFlight: set<TaskId>,
    cancelSeen: set<TaskId>,
    acking: Option<string>)

  const IDLE_WORLD := World(NO_SIGNALS, map[], {}, {}, None)

  /** What happens to a waiting generator. */
  datatype Move =
    | Begin(found: bool)   // the subprocess started, or was not found
    | Wake                 // its pause event was set
    | Resume               // the consumer asks for the next event
    | Read(line: Line)
    | Expire               // the execution timeout fires while the generator waits
    | Ended                // the stopped subprocess has ended
    | Exited(failed: bool)

  datatype Action =
    | Poll(ids: seq<TaskId>)
    | Handle(signal: Signal)
    | Acknowledged
    | Run(task: TaskId, move: Move)
    | Leave(task: TaskId)  // a dispatch returns, or fails at any point

  predicate Enabled(s: State, e: Execution, t: TaskId, move: Move) {
    match move
    case Begin(_) => e.point.Starting?
    case Wake => e.point.Paused? && t !in s.waiting
    case Resume => e.point.OfferingContext? || e.point.OfferingLine? || e.point.OfferingLast?
    case Read(_) => e.point.Reading?
    case Expire => e.point.Paused? || e.point.Reading?
    case Ended => e.point.Stopping?
    case Exited(_) => e.point.Draining?
  }

  function Moved(s: State, e: Execution, t: TaskId, move: Move): Step
    requires Enabled(s, e, t, move)
  {
    match move
    case Begin(found) => if found then TopOfLoop(s, e, t) else Step(s, Emit(e, NotFoundFailure, OfferingLast))
    case Wake => AfterPause(s, e, t)
    case Resume =>
      (match e.point
       case OfferingContext(rest) => Step(s, OfferNext(e, rest))
       case OfferingLine => TopOfLoop(s, e, t)
       case _ => Step(s, e.(point := Finished)))
    case Read(line) => LineRead(s, e, t, line)
    case Expire => Step(s.(waiting := s.waiting - {t}), e.(point := Stopping(TimedOut)))
    case Ended => Step(s, Stopped(e))
    case Exited(failed) => Step(s, if failed then Emit(e, ExitFailure, OfferingLast) else e.(point := Finished))
  }

  /** A handler has run up to its acknowledgement. */
  function Signalled(w: World, signal: Signal, key: string): World {
    var cancelled := if signal.kind.CancelRequested? && signal.task in w.signals.events then {signal.task} else {};
    w.(signals := Handled(w.signals, signal), cancelSeen := w.cancelSeen + cancelled, acking := Some(key))
  }

  /** A generator has run on to its next wait. */
  function Stepped(w: World, t: TaskId, step: Step): World {
    w.(signals := step.signals, runs := w.runs[t := step.execution])
  }

  /** One step of the world; an action that is not enabled changes nothing. */
  function Next(w: World, action: Action, limit: int): World {
    match action
    case Poll(ids) =>
      var started := Admitted(w.inFlight, ids, limit);
      w.(signals := RegisteredAll(w.signals, started),
         runs := w.runs + map id | id in started :: FRESH_EXECUTION,
         inFlight := w.inFlight + set id | id in started)
    case Handle(signal) =>
      if w.acking.Some? || Key(signal) in w.signals.processed then w else Signalled(w, signal, Key(signal))
    case Acknowledged =>
      if w.acking.None? then w else w.(signals := Marked(w.signals, w.acking.value), acking := None)
    case Run(t, move) =>
      if t in w.runs && Enabled(w.signals, w.runs[t], t, move) then
        Stepped(w, t, Moved(w.signals, w.runs[t], t, move))
      else w
    case Leave(t) =>
      if t !in w.runs then w
      else w.(signals := Unregistered(w.signals, t), runs := w.runs - {t}, inFlight := w.inFlight - {t},
             cancelSeen := w.cancelSeen - {t})
  }

  function After(actions: seq<Action>, limit: int): World {
    if actions == [] then IDLE_WORLD else Next(After(actions[..|actions| - 1], limit), actions[|actions| - 1], limit)
  }

  // ---------------------------------------------------------------- what holds of one execution

  predicate Numbered(e: Execution) {
    e.sequence == |e.emitted| && forall i | 0 <= i < |e.emitted| :: e.emitted[i].sequence == i + 1
  }

  predicate SaysCancelled(e: Execution) {
    exists i | 0 <= i < |e.emitted| :: e.emitted[i].body.CancelledNotice?
  }

  /** How much an execution may have done since it was asked to stop. */
  predicate WithinBounds(e: Execution, asked: bool) {
    && e.latePops <= 1 && e.lateReads <= 1
    && (!asked || e.point.Starting? || e.point.Paused? ==> e.latePops == 0 && e.lateReads == 0)
    && (e.point.OfferingContext? || e.point.Reading? ==> e.lateReads == 0)
  }

  /** A registered task: a redirect sets the cancel flag too, and nobody waits on a task asked to stop. */
  predicate SignalsOk(s: State, t: TaskId, cancelSeen: bool) {
    && Registers(s, t)
    && (t in s.redirects ==> s.cancels[t])
    && (t in s.waiting ==> !s.events[t] && !s.cancels[t])
    && (s.cancels[t] ==> t in s.redirects || cancelSeen)
  }

  predicate RunOk(s: State, e: Execution, t: TaskId, cancelSeen: bool) {
    && SignalsOk(s, t, cancelSeen)
    && (t in s.waiting ==> e.point.Paused?)
    && Numbered(e)
    && WithinBounds(e, s.cancels[t])
    && (SaysCancelled(e) || e.point == Stopping(Cancelled) ==> cancelSeen)
  }

  /** Two signal states say the same about `t`. */
  predicate Agree(s: State, s': State, t: TaskId) {
    && (t in s.events <==> t in s'.events) && (t in s.events ==> s.events[t] == s'.events[t])
    && (t in s.cancels <==> t in s'.cancels) && (t in s.cancels ==> s.cancels[t] == s'.cancels[t])
    && (t in s.contexts <==> t in s'.contexts)
    && (t in s.redirects <==> t in s'.redirects)
    && (t in s.waiting <==> t in s'.waiting)
  }

  lemma EmitKeeps(e: Execution, body: Body, next: Point)
    requires Numbered(e)
    ensures Numbered(Emit(e, body, next))
    ensures SaysCancelled(Emit(e, body, next)) ==> SaysCancelled(e) || body.CancelledNotice?
  {
  }

  lemma OfferKeeps(e: Execution, contexts: seq<Payload>)
    requires Numbered(e)
    ensures Numbered(OfferNext(e, contexts))
    ensures SaysCancelled(OfferNext(e, contexts)) ==> SaysCancelled(e)
  {
  }

  lemma AfterPauseKeeps(s: State, e: Execution, t: TaskId, seen: bool)
    requires RunOk(s, e, t, seen) && t !in s.waiting && e.latePops == 0 && e.lateReads == 0
    ensures var step := AfterPause(s, e, t); RunOk(step.signals, step.execution, t, seen)
  {
  }

  lemma TopOfLoopKeeps(s: State, e: Execution, t: TaskId, seen: bool)
    requires RunOk(s, e, t, seen) && t !in s.waiting
    ensures var step := TopOfLoop(s, e, t); RunOk(step.signals, step.execution, t, seen)
  {
  }

  lemma LineReadKeeps(s: State, e: Execution, t: TaskId, seen: bool, line: Line)
    requires RunOk(s, e, t, seen) && e.point.Reading?
    ensures var step := LineRead(s, e, t, line); RunOk(step.signals, step.execution, t, seen)
  {
  }

  lemma MovedKeeps(s: State, e: Execution, t: TaskId, seen: bool, move: Move)
    requires RunOk(s, e, t, seen) && Enabled(s, e, t, move)
    ensures var step := Moved(s, e, t, move); RunOk(step.signals, step.execution, t, seen)
  {
    match move
    case Begin(found) =>
      TopOfLoopKeeps(s, e, t, seen);
      EmitKeeps(e, NotFoundFailure, OfferingLast);
    case Wake => AfterPauseKeeps(s, e, t, seen);
    case Resume =>
      if e.point.OfferingContext? {
        OfferKeeps(e, e.point.rest);
      } else if e.point.OfferingLine? {
        TopOfLoopKeeps(s, e, t, seen);
      }
    case Read(line) => LineReadKeeps(s, e, t, seen, line);
    case Expire =>
    case Ended =>
      EmitKeeps(e, CancelledNotice, OfferingLast);
      EmitKeeps(e, TimeoutFailure, OfferingLast);
    case Exited(_) => EmitKeeps(e, ExitFailure, OfferingLast);
  }

  // ---------------------------------------------------------------- what holds of the world

  /** In-flight ids, registered ids and live dispatches are the same set, within the limit. */
  ghost predicate InStep(w: World, limit: int) {
    && w.inFlight == w.runs.Keys == w.signals.events.Keys == w.signals.cancels.Keys == w.signals.contexts.Keys
    && w.signals.redirects.Keys <= w.inFlight && w.signals.waiting <= w.inFlight && w.cancelSeen <= w.inFlight
    && (w.inFlight == {} || |w.inFlight| <= limit)
  }

  ghost predicate AllRunsOk(w: World) {
    forall t | t in w.runs :: RunOk(w.signals, w.runs[t], t, t in w.cancelSeen)
  }

  ghost predicate Sound(w: World, limit: int) {
    InStep(w, limit) && AllRunsOk(w)
  }

  /** A registered task starts with a clean slate, and registering others does not touch it. */
  lemma {:induction false} RegisteredAllKeys(s: State, ids: seq<TaskId>)
    ensures var after := RegisteredAll(s, ids);
            && after.events.Keys == s.events.Keys + ToSet(ids) && after.cancels.Keys == s.cancels.Keys + ToSet(ids)
            && after.contexts.Keys == s.contexts.Keys + ToSet(ids)
            && after.redirects.Keys == s.redirects.Keys - ToSet(ids) && after.waiting == s.waiting - ToSet(ids)
    decreases |ids|
  {
    if ids != [] {
      RegisteredAllKeys(Registered(s, ids[0]), ids[1..]);
      assert ids == [ids[0]] + ids[1..];
      ToSetCons(ids[0], ids[1..]);
    }
  }

  lemma {:induction false} RegisteredAllIsFresh(s: State, ids: seq<TaskId>, t: TaskId)
    ensures t in ids ==> RunOk(RegisteredAll(s, ids), FRESH_EXECUTION, t, false)
    ensures t !in ids ==> Agree(s, RegisteredAll(s, ids), t)
    decreases |ids|
  {
    if ids != [] {
      RegisteredAllIsFresh(Registered(s, ids[0]), ids[1..], t);
      if t == ids[0] && t !in ids[1..] {
        assert RunOk(Registered(s, t), FRESH_EXECUTION, t, false);
      }
    }
  }

  lemma PollKeeps(w: World, ids: seq<TaskId>, limit: int)
    requires Sound(w, limit)
    ensures Sound(Next(w, Poll(ids), limit), limit)
  {
    var started, after := Admitted(w.inFlight, ids, limit), Next(w, Poll(ids), limit);
    RoundStartsNew(w.inFlight, ids, limit);
    RoundFits(w.inFlight, ids, limit);
    RegisteredAllKeys(w.signals, started);
    assert ToSet(started) == set id | id in started;
    assert after.runs.Keys == w.runs.Keys + ToSet(started);
    forall t | t in after.runs
      ensures RunOk(after.signals, after.runs[t], t, t in after.cancelSeen)
    {
      RegisteredAllIsFresh(w.signals, started, t);
    }
  }

  lemma HandledKeepsKeys(s: State, signal: Signal)
    requires signal.task in s.events ==> Registers(s, signal.task)
    ensures var after := Handled(s, signal);
            && after.events.Keys == s.events.Keys && after.cancels.Keys == s.cancels.Keys
            && after.contexts.Keys == s.contexts.Keys && after.waiting <= s.waiting
            && after.redirects.Keys <= s.redirects.Keys + {signal.task}
            && (signal.task !in s.events ==> after == s)
  {
  }

  /** Handling a signal wakes the waiting executor whenever it asks it to stop. */
  lemma HandledOk(s: State, e: Execution, signal: Signal, seen: bool)
    requires RunOk(s, e, signal.task, seen)
    ensures RunOk(Handled(s, signal), e, signal.task, seen || signal.kind.CancelRequested?)
  {
  }

  lemma HandledTouchesOne(s: State, signal: Signal, other: TaskId)
    requires other != signal.task
    ensures Agree(s, Handled(s, signal), other)
  {
    match signal.kind
    case PauseRequested =>
    case ResumeRequested =>
    case CancelRequested =>
    case RedirectRequested =>
    case ContextInjection =>
  }

  lemma SignalledKeeps(w: World, signal: Signal, key: string, limit: int)
    requires Sound(w, limit)
    ensures Sound(Signalled(w, signal, key), limit)
  {
    var after := Signalled(w, signal, key);
    HandledKeepsKeys(w.signals, signal);
    forall t | t in after.runs
      ensures RunOk(after.signals, after.runs[t], t, t in after.cancelSeen)
    {
      if t == signal.task {
        HandledOk(w.signals, w.runs[t], signal, t in w.cancelSeen);
      } else {
        HandledTouchesOne(w.signals, signal, t);
        AgreeKeeps(w.signals, after.signals, w.runs[t], t, t in w.cancelSeen);
      }
    }
  }

  lemma AgreeKeeps(s: State, s': State, e: Execution, t: TaskId, seen: bool)
    requires RunOk(s, e, t, seen) && Agree(s, s', t)
    ensures RunOk(s', e, t, seen)
  {
  }

  /** A step that keeps its own task's facts and touches no other keeps the world sound. */
  lemma SteppedKeeps(w: World, t: TaskId, step: Step, limit: int)
    requires Sound(w, limit) && t in w.runs
    requires RunOk(step.signals, step.execution, t, t in w.cancelSeen)
    requires forall other | other in w.runs && other != t :: Agree(w.signals, step.signals, other)
    requires step.signals.events == w.signals.events && step.signals.cancels == w.signals.cancels
    requires step.signals.redirects == w.signals.redirects && step.signals.contexts.Keys == w.signals.contexts.Keys
    requires step.signals.waiting <= w.signals.waiting + {t}
    ensures Sound(Stepped(w, t, step), limit)
  {
    var after := Stepped(w, t, step);
    assert after.runs.Keys == w.runs.Keys;
    forall other | other in after.runs
      ensures RunOk(after.signals, after.runs[other], other, other in after.cancelSeen)
    {
      if other != t {
        AgreeKeeps(w.signals, step.signals, w.runs[other], other, other in w.cancelSeen);
      }
    }
  }

  lemma RunKeeps(w: World, t: TaskId, move: Move, limit: int)
    requires Sound(w, limit) && t in w.runs && Enabled(w.signals, w.runs[t], t, move)
    ensures Sound(Stepped(w, t, Moved(w.signals, w.runs[t], t, move)), limit)
  {
    MovedKeeps(w.signals, w.runs[t], t, t in w.cancelSeen, move);
    MovedKeepsKeys(w.signals, w.runs[t], t, move);
    forall other | other in w.runs && other != t
      ensures Agree(w.signals, Moved(w.signals, w.runs[t], t, move).signals, other)
    {
      MovedTouchesOne(w.signals, w.runs[t], t, move, other);
    }
    SteppedKeeps(w, t, Moved(w.signals, w.runs[t], t, move), limit);
  }

  lemma MovedTouchesOne(s: State, e: Execution, t: TaskId, move: Move, other: TaskId)
    requires Enabled(s, e, t, move) && other != t
    ensures Agree(s, Moved(s, e, t, move).signals, other)
  {
  }

  lemma MovedKeepsKeys(s: State, e: Execution, t: TaskId, move: Move)
    requires Enabled(s, e, t, move) && t in s.contexts
    ensures var after := Moved(s, e, t, move).signals;
            && after.events == s.events && after.cancels == s.cancels && after.redirects == s.redirects
            && after.contexts.Keys == s.contexts.Keys && after.waiting <= s.waiting + {t}
  {
  }

  lemma LeaveKeeps(w: World, t: TaskId, limit: int)
    requires Sound(w, limit)
    ensures Sound(Next(w, Leave(t), limit), limit)
  {
    if t in w.runs {
      var after := Next(w, Leave(t), limit);
      assert |after.inFlight| == |w.inFlight| - 1;
      forall other | other in after.runs
        ensures RunOk(after.signals, after.runs[other], other, other in after.cancelSeen)
      {
        assert Agree(w.signals, after.signals, other);
      }
    }
  }

  lemma NextKeeps(w: World, action: Action, limit: int)
    requires Sound(w, limit)
    ensures Sound(Next(w, action, limit), limit)
  {
    match action
    case Poll(ids) => PollKeeps(w, ids, limit);
    case Handle(signal) => SignalledKeeps(w, signal, Key(signal), limit);
    case Acknowledged =>
    case Run(t, move) =>
      if t in w.runs && Enabled(w.signals, w.runs[t], t, move) {
        RunKeeps(w, t, move, limit);
      }
    case Leave(t) => LeaveKeeps(w, t, limit);
  }

  lemma {:induction false} AlwaysSound(actions: seq<Action>, limit: int)
    ensures Sound(After(actions, limit), limit)
  {
    if actions != [] {
      AlwaysSound(actions[..|actions| - 1], limit);
      NextKeeps(After(actions[..|actions| - 1], limit), actions[|actions| - 1], limit);
    }
  }

  // ---------------------------------------------------------------- what follows in every interleaving

  /** No executor stays blocked on a pause while its task's cancel flag or redirect is set: it can move on. */
  lemma NoLostWakeup(actions: seq<Action>, limit: int, t: TaskId)
    ensures var w := After(actions, limit);
            t in w.runs && w.runs[t].point.Paused? && (IsCancelled(w.signals, t) || t in w.signals.redirects) ==>
              t !in w.signals.waiting && Enabled(w.signals, w.runs[t], t, Wake)
  {
    AlwaysSound(actions, limit);
    var w := After(actions, limit);
    if t in w.runs {
      assert RunOk(w.signals, w.runs[t], t, t in w.cancelSeen);
    }
  }

  /** Once asked to stop an executor takes contexts at most once more and completes at most one more read; its
      events are numbered 1, 2, 3, ... whatever happens; and it reports a cancellation only if a cancel signal
      was handled, so never for a redirect alone. */
  lemma ExecutorStops(actions: seq<Action>, limit: int, t: TaskId)
    requires t in After(actions, limit).runs
    ensures var w := After(actions, limit);
            var e := w.runs[t];
            && e.latePops <= 1 && e.lateReads <= 1
            && (forall i | 0 <= i < |e.emitted| :: e.emitted[i].sequence == i + 1)
            && (SaysCancelled(e) ==> t in w.cancelSeen)
            && (t in w.signals.redirects && t !in w.cancelSeen ==> !SaysCancelled(e) && e.point != Stopping(Cancelled))
  {
    AlwaysSound(actions, limit);
    assert RunOk(After(actions, limit).signals, After(actions, limit).runs[t], t,
                 t in After(actions, limit).cancelSeen);
  }

  /** In-flight ids, registered ids and live dispatches always agree and never exceed the limit; after each
      round all slots are taken or every polled task is in flight. */
  lemma DispatchIsBounded(actions: seq<Action>, limit: int, ids: seq<TaskId>)
    ensures var w := After(actions, limit);
            && w.inFlight == w.runs.Keys == w.signals.events.Keys
            && (w.inFlight == {} || |w.inFlight| <= limit)
    ensures var polled := Next(After(actions, limit), Poll(ids), limit);
            |polled.inFlight| >= limit || forall id | id in ids :: id in polled.inFlight
  {
    AlwaysSound(actions, limit);
    var w := After(actions, limit);
    RoundFills(w.inFlight, ids, limit);
    assert ToSet(Admitted(w.inFlight, ids, limit)) == set id | id in Admitted(w.inFlight, ids, limit);
  }
}
