/** What a client receives over any interleaving of appends, polls, lost connections and reconnections. */
module EventDelivery {
  import opened Options
  import opened TaskStateMachine
  import opened TaskRecords
  import opened TaskDecisions
  import opened EventStream
  import TaskHistory

  /** A log in strictly increasing order of sequence. */
  ghost predicate Increasing(log: seq<TaskEvent>) {
    forall i, j | 0 <= i < j < |log| :: log[i].sequence < log[j].sequence
  }

  function EventsOf(frames: seq<Frame>): seq<TaskEvent> {
    if frames == [] then []
    else
      var before := EventsOf(frames[..|frames| - 1]);
      match frames[|frames| - 1]
      case Delivered(event) => before + [event]
      case KeepAlive(_) => before
  }

  // ---------------------------------------------------------------- facts about one round

  lemma {:induction false} EventsOfConcat(a: seq<Frame>, b: seq<Frame>)
    ensures EventsOf(a + b) == EventsOf(a) + EventsOf(b)
  {
    if b == [] {
      assert a + b == a;
    } else {
      EventsOfConcat(a, b[..|b| - 1]);
      assert (a + b)[..|a + b| - 1] == a + b[..|b| - 1];
    }
  }

  lemma {:induction false} EventsOfFrames(events: seq<TaskEvent>)
    ensures EventsOf(Frames(events)) == events
  {
    if events != [] {
      EventsOfFrames(events[..|events| - 1]);
      assert Frames(events)[..|events| - 1] == Frames(events[..|events| - 1]);
    }
  }

  lemma {:induction false} SentIsPrefix(events: seq<TaskEvent>)
    ensures Sent(events) <= events
    ensures forall i | 0 <= i < |Sent(events)| - 1 :: !EndsStream(Sent(events)[i])
    ensures Sent(events) == events || (Sent(events) != [] && EndsStream(Sent(events)[|Sent(events)| - 1]))
  {
    if events != [] && !EndsStream(events[0]) {
      SentIsPrefix(events[1..]);
    }
  }

  /** Position `k` parts a log into numbers up to `after` and numbers above it. */
  ghost predicate Parts(log: seq<TaskEvent>, after: int, k: nat) {
    && k <= |log|
    && (forall i | 0 <= i < k :: log[i].sequence <= after)
    && (forall i | k <= i < |log| :: log[i].sequence > after)
  }

  lemma {:induction false} FindPart(log: seq<TaskEvent>, after: int) returns (k: nat)
    requires Increasing(log)
    ensures Parts(log, after, k)
  {
    if log == [] || log[|log| - 1].sequence <= after {
      k := |log|;
    } else {
      k := FindPart(log[..|log| - 1], after);
    }
  }

  /** The events after a number are a suffix of the log. */
  lemma {:induction false} EventsAfterIsSuffix(log: seq<TaskEvent>, after: int, k: nat)
    requires Parts(log, after, k)
    ensures EventsAfter(log, after) == log[k..]
  {
    if log != [] {
      var front := log[..|log| - 1];
      if k == |log| {
        EventsAfterIsSuffix(front, after, k - 1);
      } else {
        EventsAfterIsSuffix(front, after, k);
        assert log[k..] == front[k..] + [log[|log| - 1]];
      }
    }
  }

  /** What follows a received run is what remains of the log after its last number. */
  lemma RunContinues(log: seq<TaskEvent>, after: int, run: seq<TaskEvent>)
    requires Increasing(log) && run <= EventsAfter(log, after)
    ensures EventsAfter(log, after) == run + EventsAfter(log, LastSequence(run, after))
  {
    var k := FindPart(log, after);
    EventsAfterIsSuffix(log, after, k);
    if run != [] {
      assert run[|run| - 1] == log[k + |run| - 1];
    }
    assert Parts(log, LastSequence(run, after), k + |run|);
    EventsAfterIsSuffix(log, LastSequence(run, after), k + |run|);
  }

  lemma {:induction false} EventsAfterGrows(log: seq<TaskEvent>, longer: seq<TaskEvent>, after: int)
    requires log <= longer
    ensures EventsAfter(log, after) <= EventsAfter(longer, after)
  {
    if |log| < |longer| {
      EventsAfterGrows(log, longer[..|longer| - 1], after);
    } else {
      assert log == longer;
    }
  }

  lemma EventsOfRound(sent: seq<TaskEvent>, id: int)
    ensures EventsOf(Frames(sent)) == sent
    ensures EventsOf(Frames(sent) + [KeepAlive(id)]) == sent
  {
    EventsOfFrames(sent);
    assert (Frames(sent) + [KeepAlive(id)])[..|sent|] == Frames(sent);
  }

  /** A round sends a prefix of the unsent events, then at most one keepalive with the id sent last. */
  lemma AdvanceSends(connection: Connection, log: seq<TaskEvent>, status: TaskStatus, heartbeat: int)
    ensures var round := Advance(connection, log, status, heartbeat);
            var sent := Sent(EventsAfter(log, connection.lastSent));
            && sent <= EventsAfter(log, connection.lastSent)
            && EventsOf(round.frames) == sent
            && (round.frames == Frames(sent) || round.frames == Frames(sent) + [KeepAlive(round.next.lastSent)])
            && round.next.lastSent == LastSequence(sent, connection.lastSent)
  {
    var sent := Sent(EventsAfter(log, connection.lastSent));
    SentIsPrefix(EventsAfter(log, connection.lastSent));
    EventsOfRound(sent, LastSequence(sent, connection.lastSent));
  }

  /** A stream closes in a round only after sending an event that ends it, or when the task is terminal and
      every event of its log has been sent. */
  lemma ClosesOnlyWhenDone(connection: Connection, log: seq<TaskEvent>, status: TaskStatus, heartbeat: int)
    requires Increasing(log) && connection.open && !Advance(connection, log, status, heartbeat).next.open
    ensures var round := Advance(connection, log, status, heartbeat);
            var sent := EventsOf(round.frames);
            || (sent != [] && EndsStream(sent[|sent| - 1]))
            || (IsTerminal(status) && EventsAfter(log, round.next.lastSent) == [])
  {
    var events := EventsAfter(log, connection.lastSent);
    AdvanceSends(connection, log, status, heartbeat);
    SentIsPrefix(events);
    if Sent(events) == events {
      RunContinues(log, connection.lastSent, events);
      assert events == events + EventsAfter(log, LastSequence(events, connection.lastSent));
    }
  }

  /** Once a task is terminal and its log at rest, the stream closes within two rounds. */
  lemma TerminalStreamCloses(connection: Connection, log: seq<TaskEvent>, status: TaskStatus, heartbeat: int)
    requires Increasing(log) && IsTerminal(status)
    ensures var once := Advance(connection, log, status, heartbeat).next;
            !once.open || !Advance(once, log, status, heartbeat).next.open
  {
    var events := EventsAfter(log, connection.lastSent);
    SentIsPrefix(events);
    if Sent(events) == events {
      RunContinues(log, connection.lastSent, events);
      assert events == events + EventsAfter(log, LastSequence(events, connection.lastSent));
    }
  }

  // ---------------------------------------------------------------- interleavings

  /** The task's log and status, the connection if any, the frames on their way, and what the client has. */
  datatype World = World(
    log: seq<TaskEvent>,
    status: TaskStatus,
    connection: Option<Connection>,
    wire: seq<Frame>,
    received: seq<Frame>,
    lastId: int,
    finished: bool)

  /** How the store changes a task between two rounds. */
  ghost predicate Grows(log: seq<TaskEvent>, status: TaskStatus, later: seq<TaskEvent>, laterStatus: TaskStatus) {
    log <= later && Increasing(later) && (IsTerminal(status) ==> IsTerminal(laterStatus))
  }

  ghost predicate Start(world: World, firstId: int) {
    && Increasing(world.log)
    && world.connection.None? && world.wire == [] && world.received == []
    && world.lastId == firstId && !world.finished
  }

  /** Other calls append to the log. */
  ghost predicate Append(w: World, w': World) {
    Grows(w.log, w.status, w'.log, w'.status) && w' == w.(log := w'.log, status := w'.status)
  }

  /** The client opens a connection with the last id it received. */
  predicate Connect(w: World, w': World) {
    && w.connection.None? && !w.finished
    && w' == w.(connection := Some(Connection(w.lastId, 0, false, true)), wire := [])
  }

  /** The server runs one round. */
  predicate Serve(w: World, w': World, heartbeat: int) {
    && w.connection.Some? && w.connection.value.open
    && var round := Advance(w.connection.value, w.log, w.status, heartbeat);
       w' == w.(connection := Some(round.next), wire := w.wire + round.frames)
  }

  /** A frame arrives. */
  predicate Receive(w: World, w': World) {
    && w.connection.Some? && w.wire != []
    && w' == w.(received := w.received + [w.wire[0]], lastId := FrameId(w.wire[0]), wire := w.wire[1..])
  }

  /** The connection breaks, and with it the frames on their way. */
  predicate Lose(w: World, w': World) {
    w.connection.Some? && w' == w.(connection := None, wire := [])
  }

  /** The client sees the stream closed after its last frame. */
  predicate SeeClose(w: World, w': World) {
    && w.connection.Some? && !w.connection.value.open && w.wire == []
    && w' == w.(connection := None, finished := true)
  }

  ghost predicate Next(w: World, w': World, heartbeat: int) {
    Append(w, w') || Connect(w, w') || Serve(w, w', heartbeat) || Receive(w, w') || Lose(w, w') || SeeClose(w, w')
  }

  ghost predicate IsRun(run: seq<World>, firstId: int, heartbeat: int) {
    && run != [] && Start(run[0], firstId)
    && forall i | 0 < i < |run| :: Next(run[i - 1], run[i], heartbeat)
  }

  /** Keepalives repeat the id of the last event before them. */
  ghost predicate Honest(frames: seq<Frame>, firstId: int) {
    forall i | 0 <= i < |frames| && frames[i].KeepAlive? :: frames[i].id == LastSequence(EventsOf(frames[..i]), firstId)
  }

  /** Everything received and on its way is a run of the log after the first id, and both ends know how far. */
  ghost predicate Consistent(w: World, firstId: int) {
    && Increasing(w.log)
    && EventsOf(w.received + w.wire) <= EventsAfter(w.log, firstId)
    && Honest(w.received + w.wire, firstId)
    && w.lastId == LastSequence(EventsOf(w.received), firstId)
    && (w.connection.None? ==> w.wire == [])
    && (w.connection.Some? ==> w.connection.value.lastSent == LastSequence(EventsOf(w.received + w.wire), firstId))
  }

  lemma ConcatLast(a: seq<TaskEvent>, b: seq<TaskEvent>, firstId: int)
    ensures LastSequence(a + b, firstId) == LastSequence(b, LastSequence(a, firstId))
  {
  }

  lemma HonestPrefix(a: seq<Frame>, b: seq<Frame>, firstId: int)
    requires Honest(a + b, firstId)
    ensures Honest(a, firstId)
  {
    forall i | 0 <= i < |a| && a[i].KeepAlive?
      ensures a[i].id == LastSequence(EventsOf(a[..i]), firstId)
    {
      assert (a + b)[i] == a[i] && (a + b)[..i] == a[..i];
    }
  }

  lemma HonestAppend(frames: seq<Frame>, more: seq<Frame>, firstId: int)
    requires Honest(frames, firstId)
    requires forall i | 0 <= i < |more| && more[i].KeepAlive? ::
               more[i].id == LastSequence(EventsOf(more[..i]), LastSequence(EventsOf(frames), firstId))
    ensures Honest(frames + more, firstId)
  {
    forall i | 0 <= i < |frames + more| && (frames + more)[i].KeepAlive?
      ensures (frames + more)[i].id == LastSequence(EventsOf((frames + more)[..i]), firstId)
    {
      if i < |frames| {
        assert (frames + more)[..i] == frames[..i];
      } else {
        var j := i - |frames|;
        assert (frames + more)[..i] == frames + more[..j];
        EventsOfConcat(frames, more[..j]);
        ConcatLast(EventsOf(frames), EventsOf(more[..j]), firstId);
      }
    }
  }

  /** A round extends what was sent to a longer run of the log. */
  lemma RoundExtends(all: seq<Frame>, connection: Connection, log: seq<TaskEvent>, status: TaskStatus, heartbeat: int,
                     firstId: int)
    requires Increasing(log) && EventsOf(all) <= EventsAfter(log, firstId)
    requires connection.lastSent == LastSequence(EventsOf(all), firstId)
    ensures var round := Advance(connection, log, status, heartbeat);
            && EventsOf(all + round.frames) == EventsOf(all) + EventsOf(round.frames)
            && EventsOf(all + round.frames) <= EventsAfter(log, firstId)
            && round.next.lastSent == LastSequence(EventsOf(all + round.frames), firstId)
  {
    var sent := Sent(EventsAfter(log, connection.lastSent));
    AdvanceSends(connection, log, status, heartbeat);
    RunContinues(log, firstId, EventsOf(all));
    EventsOfConcat(all, Advance(connection, log, status, heartbeat).frames);
    ConcatLast(EventsOf(all), sent, firstId);
  }

  lemma RoundIsHonest(all: seq<Frame>, connection: Connection, log: seq<TaskEvent>, status: TaskStatus, heartbeat: int,
                      firstId: int)
    requires Honest(all, firstId) && connection.lastSent == LastSequence(EventsOf(all), firstId)
    ensures Honest(all + Advance(connection, log, status, heartbeat).frames, firstId)
  {
    var sent, frames := Sent(EventsAfter(log, connection.lastSent)), Advance(connection, log, status, heartbeat).frames;
    AdvanceSends(connection, log, status, heartbeat);
    forall i | 0 <= i < |frames| && frames[i].KeepAlive?
      ensures frames[i].id == LastSequence(EventsOf(frames[..i]), connection.lastSent)
    {
      assert frames[..i] == Frames(sent);
      EventsOfFrames(sent);
    }
    HonestAppend(all, frames, firstId);
  }

  lemma ServeKeeps(w: World, w': World, firstId: int, heartbeat: int)
    requires Consistent(w, firstId) && Serve(w, w', heartbeat)
    ensures Consistent(w', firstId)
  {
    var all := w.received + w.wire;
    RoundExtends(all, w.connection.value, w.log, w.status, heartbeat, firstId);
    RoundIsHonest(all, w.connection.value, w.log, w.status, heartbeat, firstId);
    assert w'.received + w'.wire == all + Advance(w.connection.value, w.log, w.status, heartbeat).frames;
  }

  /** The id of an honest frame is that of the last event up to it. */
  lemma HonestId(received: seq<Frame>, frame: Frame, rest: seq<Frame>, firstId: int)
    requires Honest(received + ([frame] + rest), firstId)
    ensures FrameId(frame) == LastSequence(EventsOf(received + [frame]), firstId)
  {
    var all, n := received + ([frame] + rest), |received|;
    assert all[n] == frame && all[..n] == received;
    EventsOfConcat(received, [frame]);
    assert EventsOf([]) == [];
    assert [frame][..0] == [];
  }

  lemma ReceiveKeeps(w: World, w': World, firstId: int)
    requires Consistent(w, firstId) && Receive(w, w')
    ensures Consistent(w', firstId)
  {
    assert w.wire == [w.wire[0]] + w'.wire;
    HonestId(w.received, w.wire[0], w'.wire, firstId);
    assert w'.received + w'.wire == w.received + w.wire;
  }

  lemma LoseKeeps(w: World, w': World, firstId: int)
    requires Consistent(w, firstId) && Lose(w, w')
    ensures Consistent(w', firstId)
  {
    EventsOfConcat(w.received, w.wire);
    assert w'.received + w'.wire == w.received;
    HonestPrefix(w.received, w.wire, firstId);
  }

  lemma NextKeeps(w: World, w': World, firstId: int, heartbeat: int)
    requires Consistent(w, firstId) && Next(w, w', heartbeat)
    ensures Consistent(w', firstId)
  {
    if Append(w, w') {
      EventsAfterGrows(w.log, w'.log, firstId);
    } else if Connect(w, w') {
      assert w.received + w.wire == w.received;
    } else if Serve(w, w', heartbeat) {
      ServeKeeps(w, w', firstId, heartbeat);
    } else if Receive(w, w') {
      ReceiveKeeps(w, w', firstId);
    } else if Lose(w, w') {
      LoseKeeps(w, w', firstId);
    } else {
      assert w'.received + w'.wire == w.received + w.wire;
    }
  }

  lemma {:induction false} RunIsConsistent(run: seq<World>, firstId: int, heartbeat: int, n: nat)
    requires IsRun(run, firstId, heartbeat) && n < |run|
    ensures Consistent(run[n], firstId)
  {
    if n == 0 {
      assert run[0].received + run[0].wire == [];
    } else {
      RunIsConsistent(run, firstId, heartbeat, n - 1);
      NextKeeps(run[n - 1], run[n], firstId, heartbeat);
    }
  }

  /** In every run the events received so far are the first events of the log after the initial id: in order,
      without gaps or repeats, whatever was lost and however often the client reconnected. */
  lemma ReceivedIsRunOfLog(run: seq<World>, firstId: int, heartbeat: int, n: nat)
    requires IsRun(run, firstId, heartbeat) && n < |run|
    ensures EventsOf(run[n].received) <= EventsAfter(run[n].log, firstId)
    ensures run[n].lastId == LastSequence(EventsOf(run[n].received), firstId)
  {
    RunIsConsistent(run, firstId, heartbeat, n);
    EventsOfConcat(run[n].received, run[n].wire);
  }

  // ---------------------------------------------------------------- the first close

  /** Why a client may stop: it has an event that ends the stream, or all there was when the task had ended. */
  ghost predicate HasAll(received: seq<TaskEvent>, log: seq<TaskEvent>, status: TaskStatus, firstId: int) {
    || (received != [] && EndsStream(received[|received| - 1]))
    || (IsTerminal(status) && received == EventsAfter(log, firstId))
  }

  lemma ClosingRoundHasAll(all: seq<Frame>, connection: Connection, log: seq<TaskEvent>, status: TaskStatus,
                           heartbeat: int, firstId: int)
    requires Increasing(log) && EventsOf(all) <= EventsAfter(log, firstId)
    requires connection.lastSent == LastSequence(EventsOf(all), firstId)
    requires connection.open && !Advance(connection, log, status, heartbeat).next.open
    ensures HasAll(EventsOf(all + Advance(connection, log, status, heartbeat).frames), log, status, firstId)
  {
    var frames := Advance(connection, log, status, heartbeat).frames;
    ClosesOnlyWhenDone(connection, log, status, heartbeat);
    RoundExtends(all, connection, log, status, heartbeat, firstId);
    RunContinues(log, firstId, EventsOf(all + frames));
  }

  /** A closed connection only drains, until the client sees the close. */
  lemma ClosedDrains(w: World, w': World, heartbeat: int)
    requires Next(w, w', heartbeat) && w.connection.Some? && !w.connection.value.open && w'.connection.Some?
    ensures w'.received + w'.wire == w.received + w.wire
  {
  }

  /** While a connection is closed, what it delivered and still delivers is complete. */
  lemma {:induction false} ClosedIsComplete(run: seq<World>, firstId: int, heartbeat: int, n: nat) returns (m: nat)
    requires IsRun(run, firstId, heartbeat) && n < |run|
    requires run[n].connection.Some? && !run[n].connection.value.open
    ensures m < n && HasAll(EventsOf(run[n].received + run[n].wire), run[m].log, run[m].status, firstId)
  {
    m := n - 1;
    var w, w' := run[m], run[n];
    if w.connection.Some? && !w.connection.value.open {
      m := ClosedIsComplete(run, firstId, heartbeat, n - 1);
      ClosedDrains(w, w', heartbeat);
    } else {
      RunIsConsistent(run, firstId, heartbeat, m);
      NewlyClosed(w, w', firstId, heartbeat);
    }
  }

  lemma NewlyClosed(w: World, w': World, firstId: int, heartbeat: int)
    requires Consistent(w, firstId) && Next(w, w', heartbeat)
    requires w.connection.Some? ==> w.connection.value.open
    requires w'.connection.Some? && !w'.connection.value.open
    ensures HasAll(EventsOf(w'.received + w'.wire), w.log, w.status, firstId)
  {
    assert Serve(w, w', heartbeat);
    var all := w.received + w.wire;
    assert w'.received + w'.wire == all + Advance(w.connection.value, w.log, w.status, heartbeat).frames;
    ClosingRoundHasAll(all, w.connection.value, w.log, w.status, heartbeat, firstId);
  }

  /** A client that has seen the stream close holds an event that ends the stream, or everything that was in
      the log at a point of the run at which the task was already terminal. */
  lemma {:induction false} FinishedIsComplete(run: seq<World>, firstId: int, heartbeat: int, n: nat) returns (m: nat)
    requires IsRun(run, firstId, heartbeat) && n < |run| && run[n].finished
    ensures m < n && HasAll(EventsOf(run[n].received), run[m].log, run[m].status, firstId)
  {
    m := n - 1;
    var w, w' := run[m], run[n];
    if w.finished {
      FinishedStays(run, firstId, heartbeat, m);
      m := FinishedIsComplete(run, firstId, heartbeat, m);
    } else {
      assert SeeClose(w, w');
      m := ClosedIsComplete(run, firstId, heartbeat, m);
      assert w.received + w.wire == w'.received;
    }
  }

  lemma {:induction false} FinishedStays(run: seq<World>, firstId: int, heartbeat: int, n: nat)
    requires IsRun(run, firstId, heartbeat) && n < |run| && run[n].finished
    ensures run[n].connection.None?
    ensures n + 1 < |run| ==> run[n + 1].received == run[n].received
  {
    if n > 0 && run[n - 1].finished {
      FinishedStays(run, firstId, heartbeat, n - 1);
    }
    if n + 1 < |run| {
      assert Next(run[n], run[n + 1], heartbeat);
    }
  }

  /** The stream of a task reads a log that really grows this way: between any two points of a history. */
  lemma HistoryGrows(settings: Settings, history: seq<Request>, i: nat, j: nat, id: TaskId)
    requires TaskDecisions.Timely(history) && 0 < i <= j <= |history|
    requires id in TaskHistory.StoreBefore(settings, history, i).tasks
    ensures var store, later := TaskHistory.StoreBefore(settings, history, i), TaskHistory.StoreBefore(settings,
                                                                                                       history, j);
            id in later.tasks && Grows(LogOf(store, id), store.tasks[id].status, LogOf(later, id),
                                       later.tasks[id].status)
  {
    TaskHistory.HistoryEvolves(settings, history, i, j);
    TaskHistory.LogTellsStatus(settings, history[..j], id);
  }
}
