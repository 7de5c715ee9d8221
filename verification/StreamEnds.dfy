/** The event stream over the logs of reachable stores: what ends it, and what keeps it alive. */
module StreamEnds {
  import opened Options
  import opened TaskStateMachine
  import opened TaskRecords
  import opened TaskDecisions
  import opened TaskInvariants
  import opened Outcomes
  import opened EventStream
  import opened EventDelivery

  /** The five states from which no call leads back to work. */
  predicate Over(status: TaskStatus) {
    status in {Completed, Failed, Cancelled, Retasked, Redirected}
  }

  // ---------------------------------------------------------------- the events that end a stream

  /** An accepted post ends the stream exactly if it moves the task to a terminal state. */
  lemma PostEndsIff(store: Store, call: Call, at: Moment)
    requires call.SidecarEvent? && LogsTellStatus(store) && DecideSidecar(store, call, at).reply.Done?
    ensures var after, id := Commit(store, DecideSidecar(store, call, at).effect), call.task;
            && id in store.tasks && id in after.tasks
            && (EndsStream(TaskEvent(call.kind, call.data, call.sequence, at.first)) <==>
                  Over(after.tasks[id].status) && after.tasks[id].status != store.tasks[id].status)
  {
    PostOutcome(store, call, at);
    if call.kind == "status" {
      NamedState(Get(call.data, "status"));
    }
  }

  /** The events that callers cause never end the stream: it closes on the status instead. */
  lemma CallersEndNothing(settings: Settings, store: Store, request: Request)
    requires !request.call.SidecarEvent?
    ensures var effect := Decide(settings, store, request).effect;
            && (!effect.Nothing? ==> !EndsStream(effect.event))
            && (effect.Fork? ==> !EndsStream(effect.childEvent))
  {
  }

  /** A legal log with such an event tells a terminal state. */
  lemma {:induction false} EndingTells(log: seq<TaskEvent>, k: nat)
    requires Legal(log) && k < |log| && EndsStream(log[k])
    ensures Replay(log).Some? && Over(Replay(log).value)
    decreases |log|
  {
    if k < |log| - 1 {
      EndingTells(log[..|log| - 1], k);
    }
  }

  /** In every reachable store a task whose log holds an event that ends the stream is in a terminal state. */
  lemma EndedIsOver(settings: Settings, history: seq<Request>, id: TaskId, k: nat)
    requires Timely(history) && history != [] && id in StoreAfter(settings, history).tasks
    requires k < |LogOf(StoreAfter(settings, history), id)|
    requires EndsStream(LogOf(StoreAfter(settings, history), id)[k])
    ensures Over(StoreAfter(settings, history).tasks[id].status)
  {
    ReachableValid(settings, history);
    EndingTells(LogOf(StoreAfter(settings, history), id), k);
  }

  // ---------------------------------------------------------------- when a stream closes

  /** The fetch returns exactly the events numbered above the last one sent. */
  lemma {:induction false} FetchIsExact(log: seq<TaskEvent>, after: int)
    ensures forall event :: event in EventsAfter(log, after) <==> event in log && event.sequence > after
  {
    if log != [] {
      var before, last := log[..|log| - 1], log[|log| - 1];
      FetchIsExact(before, after);
      assert forall event :: event in log <==> event in before || event == last;
    }
  }

  /** Over a reachable store a stream closes only when the task is in a terminal state, and then within two rounds. */
  lemma ClosesExactlyWhenOver(settings: Settings, history: seq<Request>, id: TaskId, connection: Connection,
                              heartbeat: int)
    requires Timely(history) && history != [] && id in StoreAfter(settings, history).tasks && connection.open
    ensures var log, status := LogOf(StoreAfter(settings, history), id), StoreAfter(settings, history).tasks[id].status;
            var once := Advance(connection, log, status, heartbeat).next;
            && (!once.open ==> Over(status))
            && (Over(status) ==> !once.open || !Advance(once, log, status, heartbeat).next.open)
  {
    var log, status := LogOf(StoreAfter(settings, history), id), StoreAfter(settings, history).tasks[id].status;
    TaskHistory.LogTellsStatus(settings, history, id);
    if !Advance(connection, log, status, heartbeat).next.open {
      ClosedIsOver(log, status, connection, heartbeat);
    }
    if Over(status) {
      TerminalStreamCloses(connection, log, status, heartbeat);
    }
  }

  lemma ClosedIsOver(log: seq<TaskEvent>, status: TaskStatus, connection: Connection, heartbeat: int)
    requires Legal(log) && Replay(log) == Some(status) && Increasing(log)
    requires connection.open && !Advance(connection, log, status, heartbeat).next.open
    ensures Over(status)
  {
    var sent := EventsOf(Advance(connection, log, status, heartbeat).frames);
    ClosesOnlyWhenDone(connection, log, status, heartbeat);
    AdvanceSends(connection, log, status, heartbeat);
    if sent != [] && EndsStream(sent[|sent| - 1]) {
      FetchIsExact(log, connection.lastSent);
      assert sent[|sent| - 1] in EventsAfter(log, connection.lastSent);
      var k :| 0 <= k < |log| && log[k] == sent[|sent| - 1];
      EndingTells(log, k);
    }
  }

  // ---------------------------------------------------------------- keepalives

  /** A connection after some rounds over a log at rest. */
  function After(connection: Connection, log: seq<TaskEvent>, status: TaskStatus, heartbeat: int,
                 rounds: nat): Connection {
    if rounds == 0 then connection
    else Advance(After(connection, log, status, heartbeat, rounds - 1), log, status, heartbeat).next
  }

  /** While nothing happens to a task at work, a heartbeat's worth of rounds sends one keepalive with the last id, in
      the last of them, and ends as it began. */
  lemma {:induction false} IdleStreamBeats(connection: Connection, log: seq<TaskEvent>, status: TaskStatus,
                                           heartbeat: int,
                                           rounds: nat)
    requires connection.open && connection.replayed && connection.idle == 0 && rounds < heartbeat
    requires EventsAfter(log, connection.lastSent) == [] && !Over(status)
    ensures var now := After(connection, log, status, heartbeat, rounds);
            && now == connection.(idle := rounds)
            && Advance(now, log, status, heartbeat) ==
               if rounds + 1 == heartbeat then Round([KeepAlive(connection.lastSent)], connection)
               else Round([], connection.(idle := rounds + 1))
  {
    if rounds > 0 {
      IdleStreamBeats(connection, log, status, heartbeat, rounds - 1);
    }
  }
}
