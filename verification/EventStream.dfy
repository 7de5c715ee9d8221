/** The server-sent event stream of one task: replay, polling, keepalives, reconnection.

    The stream reads a log that other calls keep appending to. A frame is either an event of the log or a
    keepalive, which repeats the id sent last. */
module EventStream {
  import opened TaskStateMachine
  import opened TaskRecords

  datatype Frame = Delivered(event: TaskEvent) | KeepAlive(id: int)

  /** The id a client remembers after receiving a frame. */
  function FrameId(frame: Frame): int {
    match frame
    case Delivered(event) => event.sequence
    case KeepAlive(id) => id
  }

  /** `_fetch_events_after`: the events numbered above `after`, in order. */
  function EventsAfter(log: seq<TaskEvent>, after: int): seq<TaskEvent> {
    if log == [] then []
    else
      var rest := EventsAfter(log[..|log| - 1], after);
      var last := log[|log| - 1];
      if last.sequence > after then rest + [last] else rest
  }

  /** An event after which the stream closes. */
  predicate EndsStream(event: TaskEvent) {
    || event.kind in {"completed", "failed"}
    || (event.kind == "status" && StatusIn(Get(event.data, "status")).Some?
        && IsTerminal(StatusIn(Get(event.data, "status")).value))
  }

  /** The events sent in one round: up to and including the first that ends the stream. */
  function Sent(events: seq<TaskEvent>): seq<TaskEvent> {
    if events == [] then []
    else if EndsStream(events[0]) then [events[0]]
    else [events[0]] + Sent(events[1..])
  }

  datatype Connection = Connection(lastSent: int, idle: nat, replayed: bool, open: bool)

  datatype Round = Round(frames: seq<Frame>, next: Connection)

  function Frames(events: seq<TaskEvent>): seq<Frame> {
    seq(|events|, i requires 0 <= i < |events| => Delivered(events[i]))
  }

  function LastSequence(events: seq<TaskEvent>, before: int): int {
    if events == [] then before else events[|events| - 1].sequence
  }

  /** One round of a connection: the first replays the log; later ones poll, close a finished and fully sent
      stream, and keep an idle one alive. */
  function Advance(connection: Connection, log: seq<TaskEvent>, status: TaskStatus, heartbeat: int): Round {
    var events := EventsAfter(log, connection.lastSent);
    var sent := Sent(events);
    var ended := sent != [] && EndsStream(sent[|sent| - 1]);
    var last := LastSequence(sent, connection.lastSent);
    if !connection.replayed then
      Round(Frames(sent), connection.(lastSent := last, replayed := true, open := !ended && !IsTerminal(status)))
    else
      var idle := if events == [] then connection.idle + 1 else 0;
      if ended || (events == [] && IsTerminal(status)) then
        Round(Frames(sent), connection.(lastSent := last, idle := idle, open := false))
      else if idle >= heartbeat then
        Round(Frames(sent) + [KeepAlive(last)], connection.(lastSent := last, idle := 0))
      else
        Round(Frames(sent), connection.(lastSent := last, idle := idle))
  }

  // ---------------------------------------------------------------- the generator

  /** The running generator of one connection. */
  class Generator {
    const heartbeat: int
    var lastSent: int
    var idle: nat
    var replayed: bool
    var open: bool

    function State(): Connection
      reads this
    {
      Connection(lastSent, idle, replayed, open)
    }

    constructor (lastEventId: int, heartbeat: int)
      ensures State() == Connection(lastEventId, 0, false, true) && this.heartbeat == heartbeat
    {
      lastSent, idle, replayed, open := lastEventId, 0, false, true;
      this.heartbeat := heartbeat;
    }

    /** Yields the fetched events in turn and closes on the first that ends the stream. */
    method Yield(events: seq<TaskEvent>) returns (frames: seq<Frame>)
      requires open
      modifies this`lastSent, this`open
      ensures frames == Frames(Sent(events))
      ensures lastSent == LastSequence(Sent(events), old(lastSent))
      ensures open == !(Sent(events) != [] && EndsStream(Sent(events)[|Sent(events)| - 1]))
    {
      frames := [];
      var i := 0;
      while i < |events|
        invariant 0 <= i <= |events|
        invariant open ==> frames == Frames(events[..i]) && lastSent == LastSequence(events[..i], old(lastSent))
        invariant open && Sent(events) == events[..i] + Sent(events[i..])
        invariant forall j | 0 <= j < i :: !EndsStream(events[j])
      {
        var event := events[i];
        assert events[i..][1..] == events[i + 1..];
        frames := frames + [Delivered(event)];
        lastSent := event.sequence;
        if EndsStream(event) {
          open := false;
          assert Sent(events) == events[..i] + [event];
          return;
        }
        i := i + 1;
        assert Sent(events) == events[..i] + Sent(events[i..]);
      }
      assert events[..i] == events && Sent(events[i..]) == [];
    }

    /** Phase 1: replays the log after the client's last id. */
    method Replay(log: seq<TaskEvent>, status: TaskStatus) returns (frames: seq<Frame>)
      requires open && !replayed
      modifies this
      ensures Round(frames, State()) == Advance(old(State()), log, status, heartbeat)
    {
      var events := EventsAfter(log, lastSent);
      frames := Yield(events);
      replayed := true;
      if open && IsTerminal(status) {
        open := false;
      }
    }

    /** Phase 2: one turn of the polling loop, a second after the last. */
    method Poll(log: seq<TaskEvent>, status: TaskStatus) returns (frames: seq<Frame>)
      requires open && replayed
      modifies this
      ensures Round(frames, State()) == Advance(old(State()), log, status, heartbeat)
    {
      idle := idle + 1;
      var events := EventsAfter(log, lastSent);
      if events != [] {
        idle := 0;
        frames := Yield(events);
        if !open {
          return;
        }
      } else {
        frames := [];
        if IsTerminal(status) {
          open := false;
          return;
        }
      }
      if idle >= heartbeat {
        frames := frames + [KeepAlive(lastSent)];
        idle := 0;
      }
    }
  }
}
