/** One task's execution: the generator that reads a subprocess and looks at the signals between lines.

    The generator runs without interruption from one place where it waits to the next; each such stretch is one
    step here, on the shared signal state and on the generator's own state. */
module Executor {
  import opened TaskRecords
  import opened Signals

  datatype Reason = Redirected | Cancelled | TimedOut

  /** Where the generator waits. */
  datatype Point =
    | Starting                             // the subprocess is being started and given its input
    | Paused                               // in `wait_if_paused`
    | OfferingContext(rest: seq<Payload>)  // a context event is with the consumer, more may follow
    | Reading                              // for a line of output
    | OfferingLine                         // an event of the handler is with the consumer
    | Stopping(reason: Reason)             // for the subprocess to end
    | Draining                             // for the exit code, after the end of output
    | OfferingLast                         // the final event is with the consumer
    | Finished

  datatype Body =
    | Context(payload: Payload)
    | Output(text: string)
    | NotFoundFailure
    | ExitFailure
    | TimeoutFailure
    | CancelledNotice

  datatype Emission = Emission(body: Body, sequence: int)

  /** The generator's state: where it waits, its numbering and what it has emitted. The last two fields count
      the context pops and line reads done while a stop was requested. */
  datatype Execution = Execution(point: Point, sequence: int, emitted: seq<Emission>, latePops: nat, lateReads: nat)

  const FRESH_EXECUTION := Execution(Starting, 0, [], 0, 0)

  /** A line of output: an event in JSON by its text, or one that is skipped. */
  datatype Line = EndOfOutput | Unreadable | Readable(text: string)

  datatype Step = Step(signals: State, execution: Execution)

  function Emit(e: Execution, body: Body, next: Point): Execution {
    e.(point := next, sequence := e.sequence + 1, emitted := e.emitted + [Emission(body, e.sequence + 1)])
  }

  /** From the end of the pause to the next wait: takes the pending contexts and offers the first, or reads. */
  function AfterPause(s: State, e: Execution, t: TaskId): Step {
    var contexts := Queue(s, t);
    var popped := e.(latePops := e.latePops + if IsCancelled(s, t) then 1 else 0);
    Step(Popped(s, t), OfferNext(popped, contexts))
  }

  function OfferNext(e: Execution, contexts: seq<Payload>): Execution {
    if contexts == [] then e.(point := Reading) else Emit(e, Context(contexts[0]), OfferingContext(contexts[1..]))
  }

  /** The top of the loop: a redirect, then a cancellation, stops; a pause blocks; else on it goes. */
  function TopOfLoop(s: State, e: Execution, t: TaskId): Step {
    if t in s.redirects then Step(s, e.(point := Stopping(Redirected)))
    else if IsCancelled(s, t) then Step(s, e.(point := Stopping(Cancelled)))
    else if t in s.events && !s.events[t] then Step(s.(waiting := s.waiting + {t}), e.(point := Paused))
    else AfterPause(s, e, t)
  }

  /** A line, or the end of output, has been read. */
  function LineRead(s: State, e: Execution, t: TaskId, line: Line): Step {
    var read := e.(lateReads := e.lateReads + if IsCancelled(s, t) then 1 else 0);
    match line
    case EndOfOutput => Step(s, read.(point := Draining))
    case Unreadable => TopOfLoop(s, read, t)
    case Readable(text) => Step(s, Emit(read, Output(text), OfferingLine))
  }

  /** The subprocess has ended after a stop. */
  function Stopped(e: Execution): Execution
    requires e.point.Stopping?
  {
    match e.point.reason
    case Redirected => e.(point := Finished)
    case Cancelled => Emit(e, CancelledNotice, OfferingLast)
    case TimedOut => Emit(e, TimeoutFailure, OfferingLast)
  }

  // ---------------------------------------------------------------- the generator

  class Generator {
    const task: TaskId
    const poller: SignalPoller
    var point: Point
    var sequence: int
    var emitted: seq<Emission>
    ghost var latePops: nat
    ghost var lateReads: nat

    ghost function View(): Execution
      reads this
    {
      Execution(point, sequence, emitted, latePops, lateReads)
    }

    constructor (task: TaskId, poller: SignalPoller)
      ensures View() == FRESH_EXECUTION && this.task == task && this.poller == poller
    {
      this.task, this.poller := task, poller;
      point, sequence, emitted := Starting, 0, [];
      latePops, lateReads := 0, 0;
    }

    method Yield(body: Body, next: Point)
      modifies this`point, this`sequence, this`emitted
      ensures View() == Emit(old(View()), body, next)
    {
      sequence := sequence + 1;
      emitted := emitted + [Emission(body, sequence)];
      point := next;
    }

    /** The handler command may be missing; otherwise the loop begins. */
    method Start(found: bool)
      requires point == Starting
      modifies this, poller
      ensures if found then Step(poller.View(), View()) == TopOfLoop(old(poller.View()), old(View()), task)
              else poller.View() == old(poller.View()) && View() == Emit(old(View()), NotFoundFailure, OfferingLast)
    {
      if found {
        CheckSignals();
      } else {
        Yield(NotFoundFailure, OfferingLast);
      }
    }

    method CheckSignals()
      modifies this, poller
      ensures Step(poller.View(), View()) == TopOfLoop(old(poller.View()), old(View()), task)
    {
      if task in poller.redirectPayloads {
        point := Stopping(Redirected);
        return;
      }
      if task in poller.cancelFlags && poller.cancelFlags[task] {
        point := Stopping(Cancelled);
        return;
      }
      var blocked := poller.WaitIfPaused(task);
      if blocked {
        point := Paused;
      } else {
        TakeContexts();
      }
    }

    method TakeContexts()
      modifies this, poller
      ensures Step(poller.View(), View()) == AfterPause(old(poller.View()), old(View()), task)
    {
      latePops := latePops + if IsCancelled(poller.View(), task) then 1 else 0;
      var contexts := poller.PopContext(task);
      Offer(contexts);
    }

    method Offer(contexts: seq<Payload>)
      modifies this`point, this`sequence, this`emitted
      ensures View() == OfferNext(old(View()), contexts)
    {
      if contexts == [] {
        point := Reading;
      } else {
        Yield(Context(contexts[0]), OfferingContext(contexts[1..]));
      }
    }

    method TakeLine(line: Line)
      requires point == Reading
      modifies this, poller
      ensures Step(poller.View(), View()) == LineRead(old(poller.View()), old(View()), task, line)
    {
      lateReads := lateReads + if IsCancelled(poller.View(), task) then 1 else 0;
      match line {
        case EndOfOutput => point := Draining;
        case Unreadable => CheckSignals();
        case Readable(text) => Yield(Output(text), OfferingLine);
      }
    }

    method Stop()
      requires point.Stopping?
      modifies this
      ensures View() == Stopped(old(View()))
    {
      match point.reason {
        case Redirected => point := Finished;
        case Cancelled => Yield(CancelledNotice, OfferingLast);
        case TimedOut => Yield(TimeoutFailure, OfferingLast);
      }
    }

    /** The exit code decides whether a failure is reported. */
    method Exit(failed: bool)
      requires point == Draining
      modifies this
      ensures View() == if failed then Emit(old(View()), ExitFailure, OfferingLast) else old(View()).(point := Finished)
    {
      if failed {
        Yield(ExitFailure, OfferingLast);
      } else {
        point := Finished;
      }
    }
  }
}
