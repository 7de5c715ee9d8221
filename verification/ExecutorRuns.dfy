/** What a whole execution emits: the handler's output line by line, and how it ends. */
module ExecutorRuns {
  import opened TaskRecords
  import opened Signals
  import opened Executor
  import opened Dispatcher
  import opened Sidecar
  import opened SidecarFold

  // ---------------------------------------------------------------- the handler's output

  /** The output lines an execution has emitted. */
  function OutputsOf(emitted: seq<Emission>): seq<string> {
    if emitted == [] then []
    else
      var last := emitted[|emitted| - 1];
      OutputsOf(emitted[..|emitted| - 1]) + if last.body.Output? then [last.body.text] else []
  }

  /** The event that an action reads from the handler of `t`. */
  function LineOf(w: World, action: Action, t: TaskId): seq<string> {
    if action.Run? && action.task == t && t in w.runs && Enabled(w.signals, w.runs[t], t, action.move)
       && action.move.Read? && action.move.line.Readable?
    then [action.move.line.text]
    else []
  }

  /** The events read from the handler of `t` in a run, in order. */
  function LinesIn(w: World, actions: seq<Action>, limit: int, t: TaskId): seq<string> {
    if actions == [] then []
    else
      var before := actions[..|actions| - 1];
      LinesIn(w, before, limit, t) + LineOf(AfterFrom(w, before, limit), actions[|actions| - 1], t)
  }

  lemma EmitOutputs(e: Execution, body: Body, next: Point)
    ensures OutputsOf(Emit(e, body, next).emitted) == OutputsOf(e.emitted) + if body.Output? then [body.text] else []
  {
    assert (e.emitted + [Emission(body, e.sequence + 1)])[..|e.emitted|] == e.emitted;
  }

  lemma TopOutputs(s: State, e: Execution, t: TaskId)
    ensures OutputsOf(TopOfLoop(s, e, t).execution.emitted) == OutputsOf(e.emitted)
  {
    WakeOutputs(s, e, t);
  }

  lemma WakeOutputs(s: State, e: Execution, t: TaskId)
    ensures OutputsOf(AfterPause(s, e, t).execution.emitted) == OutputsOf(e.emitted)
  {
    OfferOutputs(e.(latePops := e.latePops + if IsCancelled(s, t) then 1 else 0), Queue(s, t));
  }

  lemma OfferOutputs(e: Execution, contexts: seq<Payload>)
    ensures OutputsOf(OfferNext(e, contexts).emitted) == OutputsOf(e.emitted)
  {
    if contexts != [] {
      EmitOutputs(e, Context(contexts[0]), OfferingContext(contexts[1..]));
    }
  }

  lemma LineOutputs(s: State, e: Execution, t: TaskId, line: Line)
    ensures OutputsOf(LineRead(s, e, t, line).execution.emitted)
            == OutputsOf(e.emitted) + if line.Readable? then [line.text] else []
  {
    var read := e.(lateReads := e.lateReads + if IsCancelled(s, t) then 1 else 0);
    TopOutputs(s, read, t);
    if line.Readable? {
      EmitOutputs(read, Output(line.text), OfferingLine);
    }
  }

  /** A step emits the line it reads, if that is an event, and no other output. */
  lemma MoveOutputs(s: State, e: Execution, t: TaskId, move: Move)
    requires Enabled(s, e, t, move)
    ensures OutputsOf(Sidecar.Moved(s, e, t, move).execution.emitted)
            == OutputsOf(e.emitted) + if move.Read? && move.line.Readable? then [move.line.text] else []
  {
    assert OutputsOf(e.emitted) + [] == OutputsOf(e.emitted);
    match move
    case Begin(_) =>
      TopOutputs(s, e, t);
      EmitOutputs(e, NotFoundFailure, OfferingLast);
    case Wake => WakeOutputs(s, e, t);
    case Resume =>
      if e.point.OfferingContext? {
        OfferOutputs(e, e.point.rest);
      } else {
        TopOutputs(s, e, t);
      }
    case Read(line) => LineOutputs(s, e, t, line);
    case Expire =>
    case Ended =>
      EmitOutputs(e, CancelledNotice, OfferingLast);
      EmitOutputs(e, TimeoutFailure, OfferingLast);
    case Exited(_) => EmitOutputs(e, ExitFailure, OfferingLast);
  }

  lemma NextOutputs(w: World, action: Action, limit: int, t: TaskId)
    requires Sound(w, limit) && t in w.runs && action != Leave(t)
    ensures var next := Next(w, action, limit);
            t in next.runs && OutputsOf(next.runs[t].emitted) == OutputsOf(w.runs[t].emitted) + LineOf(w, action, t)
  {
    assert OutputsOf(w.runs[t].emitted) + [] == OutputsOf(w.runs[t].emitted);
    if action.Run? && action.task == t && Enabled(w.signals, w.runs[t], t, action.move) {
      MoveOutputs(w.signals, w.runs[t], t, action.move);
    } else if action.Poll? {
      RoundStartsNew(w.inFlight, action.ids, limit);
    }
  }

  lemma {:induction false} RunOutputs(w: World, actions: seq<Action>, limit: int, t: TaskId)
    requires Sound(w, limit) && t in w.runs && Leave(t) !in actions
    ensures var after := AfterFrom(w, actions, limit);
            && Sound(after, limit) && t in after.runs
            && OutputsOf(after.runs[t].emitted) == OutputsOf(w.runs[t].emitted) + LinesIn(w, actions, limit, t)
  {
    if actions != [] {
      var before, last := actions[..|actions| - 1], actions[|actions| - 1];
      RunOutputs(w, before, limit, t);
      assert last in actions;
      NextOutputs(AfterFrom(w, before, limit), last, limit, t);
      NextKeeps(AfterFrom(w, before, limit), last, limit);
    }
  }

  /** From the round that starts a task until its dispatch ends, in every interleaving, the executor has emitted
      exactly the events its handler printed, each once and in order. */
  lemma OutputIsEmitted(before: seq<Action>, ids: seq<TaskId>, more: seq<Action>, limit: int, t: TaskId)
    requires t !in After(before, limit).runs && t in After(before + [Poll(ids)], limit).runs
    requires Leave(t) !in more
    ensures var begin, after := After(before + [Poll(ids)], limit), After(before + [Poll(ids)] + more, limit);
            t in after.runs && OutputsOf(after.runs[t].emitted) == LinesIn(begin, more, limit, t)
  {
    AlwaysSound(before + [Poll(ids)], limit);
    AfterSplits(before + [Poll(ids)], more, before + [Poll(ids)] + more, limit);
    AfterLast(before + [Poll(ids)], before, Poll(ids), limit);
    FreshOutputs(After(before, limit), ids, limit, t);
    RunOutputs(After(before + [Poll(ids)], limit), more, limit, t);
  }

  lemma FreshOutputs(w: World, ids: seq<TaskId>, limit: int, t: TaskId)
    requires t !in w.runs && t in Next(w, Poll(ids), limit).runs
    ensures OutputsOf(Next(w, Poll(ids), limit).runs[t].emitted) == []
  {
  }

  // ---------------------------------------------------------------- how a run stops

  /** An executor stops for a redirect if there is one, else for a cancellation; only an expired timeout is reported
      as one. */
  lemma StopsForItsReason(s: State, e: Execution, t: TaskId, move: Move)
    requires Enabled(s, e, t, move) && !e.point.Stopping?
    ensures var point := Sidecar.Moved(s, e, t, move).execution.point;
            point.Stopping? ==>
              && (point.reason.TimedOut? <==> move.Expire?)
              && (point.reason.Redirected? <==> !move.Expire? && t in s.redirects)
              && (point.reason.Cancelled? ==> IsCancelled(s, t))
  {
  }

  /** At the top of its loop an executor stops exactly if it is redirected or cancelled. */
  lemma StopsIff(s: State, e: Execution, t: TaskId)
    ensures TopOfLoop(s, e, t).execution.point.Stopping? <==> t in s.redirects || IsCancelled(s, t)
  {
  }

  // ---------------------------------------------------------------- how a run ends

  /** The steps that end an execution. */
  predicate Ends(move: Move) {
    move.Ended? || move.Exited? || move == Begin(false)
  }

  /** What is emitted last: a notice of the cancellation, the failure that ended it, or nothing. */
  function LastWords(e: Execution, move: Move): seq<Body>
    requires move.Ended? ==> e.point.Stopping?
  {
    match move
    case Begin(_) => [NotFoundFailure]
    case Exited(failed) => if failed then [ExitFailure] else []
    case Ended =>
      (match e.point.reason
       case Redirected => []
       case Cancelled => [CancelledNotice]
       case TimedOut => [TimeoutFailure])
    case _ => []
  }

  predicate IsEnding(e: Execution) {
    e.point.OfferingLast? || e.point.Finished?
  }

  function Bodies(emitted: seq<Emission>): seq<Body> {
    seq(|emitted|, i requires 0 <= i < |emitted| => emitted[i].body)
  }

  lemma EndingMove(s: State, e: Execution, t: TaskId, move: Move)
    requires Enabled(s, e, t, move) && Ends(move)
    ensures var after := Sidecar.Moved(s, e, t, move).execution;
            IsEnding(after) && Bodies(after.emitted) == Bodies(e.emitted) + LastWords(e, move)
  {
  }

  lemma EndingMoves(s: State, e: Execution, t: TaskId, move: Move)
    requires Enabled(s, e, t, move) && IsEnding(e)
    ensures var after := Sidecar.Moved(s, e, t, move).execution; IsEnding(after) && after.emitted == e.emitted
  {
  }

  lemma EndingStays(w: World, action: Action, limit: int, t: TaskId)
    requires Sound(w, limit) && t in w.runs && IsEnding(w.runs[t]) && action != Leave(t)
    ensures var next := Next(w, action, limit);
            t in next.runs && IsEnding(next.runs[t]) && next.runs[t].emitted == w.runs[t].emitted
  {
    if action.Poll? {
      RoundStartsNew(w.inFlight, action.ids, limit);
    } else if action.Run? && action.task == t && Enabled(w.signals, w.runs[t], t, action.move) {
      EndingMoves(w.signals, w.runs[t], t, action.move);
    }
  }

  lemma {:induction false} EndingLasts(w: World, actions: seq<Action>, limit: int, t: TaskId)
    requires Sound(w, limit) && t in w.runs && IsEnding(w.runs[t]) && Leave(t) !in actions
    ensures var after := AfterFrom(w, actions, limit);
            && Sound(after, limit) && t in after.runs && IsEnding(after.runs[t])
            && after.runs[t].emitted == w.runs[t].emitted
  {
    if actions != [] {
      var before, last := actions[..|actions| - 1], actions[|actions| - 1];
      EndingLasts(w, before, limit, t);
      assert last in actions;
      EndingStays(AfterFrom(w, before, limit), last, limit, t);
      NextKeeps(AfterFrom(w, before, limit), last, limit);
    }
  }

  /** Once an execution has ended, whatever follows, the last it emits is the notice after a cancellation, the failure
      after a timeout, a failing exit or a missing handler, and nothing more after a redirect or a clean exit. */
  lemma EndsWithItsLastWords(before: seq<Action>, move: Move, more: seq<Action>, limit: int, t: TaskId)
    requires t in After(before, limit).runs && Leave(t) !in more && Ends(move)
    requires Enabled(After(before, limit).signals, After(before, limit).runs[t], t, move)
    ensures var e, after := After(before, limit).runs[t], After(before + [Run(t, move)] + more, limit);
            t in after.runs && Bodies(after.runs[t].emitted) == Bodies(e.emitted) + LastWords(e, move)
  {
    AlwaysSound(before, limit);
    AfterLast(before + [Run(t, move)], before, Run(t, move), limit);
    AfterSplits(before + [Run(t, move)], more, before + [Run(t, move)] + more, limit);
    EndsFrom(After(before, limit), move, more, limit, t);
  }

  lemma EndsFrom(w: World, move: Move, more: seq<Action>, limit: int, t: TaskId)
    requires Sound(w, limit) && t in w.runs && Leave(t) !in more && Ends(move)
    requires Enabled(w.signals, w.runs[t], t, move)
    ensures var after := AfterFrom(Next(w, Run(t, move), limit), more, limit);
            t in after.runs && Bodies(after.runs[t].emitted) == Bodies(w.runs[t].emitted) + LastWords(w.runs[t], move)
  {
    EndingMove(w.signals, w.runs[t], t, move);
    NextKeeps(w, Run(t, move), limit);
    EndingLasts(Next(w, Run(t, move), limit), more, limit, t);
  }
}
