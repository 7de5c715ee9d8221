/** The control signals a sidecar receives and the state they share with the executors. */
module Signals {
  import opened TaskRecords

  type Payload = Data

  datatype SignalKind = PauseRequested | ResumeRequested | CancelRequested | RedirectRequested | ContextInjection

  function KindName(kind: SignalKind): string {
    match kind
    case PauseRequested => "pause_requested"
    case ResumeRequested => "resume_requested"
    case CancelRequested => "cancel_requested"
    case RedirectRequested => "redirect_requested"
    case ContextInjection => "context_injection"
  }

  datatype Signal = Signal(task: TaskId, kind: SignalKind, timestamp: string, payload: Payload)

  /** The key by which a signal is recognised when it is polled again. */
  function Key(signal: Signal): string {
    signal.task + ":" + KindName(signal.kind) + ":" + signal.timestamp
  }

  /** The dictionaries and the set of `SignalState`. `events` holds whether a task's pause event is set,
      `waiting` the tasks whose executor is blocked on it. */
  datatype State = State(
    events: map<TaskId, bool>,
    waiting: set<TaskId>,
    cancels: map<TaskId, bool>,
    redirects: map<TaskId, Payload>,
    contexts: map<TaskId, seq<Payload>>,
    processed: set<string>)

  const NO_SIGNALS := State(map[], {}, map[], map[], map[], {})

  function Registered(s: State, t: TaskId): State {
    s.(events := s.events[t := true], waiting := s.waiting - {t}, cancels := s.cancels[t := false],
       redirects := s.redirects - {t}, contexts := s.contexts[t := []])
  }

  function Unregistered(s: State, t: TaskId): State {
    s.(events := s.events - {t}, waiting := s.waiting - {t}, cancels := s.cancels - {t},
       redirects := s.redirects - {t}, contexts := s.contexts - {t},
       processed := set key | key in s.processed && !HasPrefix(t, key))
  }

  /** A key belongs to a task if it starts with the task's id and a colon. */
  predicate HasPrefix(t: TaskId, key: string) {
    t + ":" <= key
  }

  /** The task has an entry in each of the dictionaries that registering fills. */
  predicate Registers(s: State, t: TaskId) {
    t in s.events && t in s.cancels && t in s.contexts
  }

  predicate IsCancelled(s: State, t: TaskId) {
    t in s.cancels && s.cancels[t]
  }

  /** `Event.set()`: sets the flag and wakes whoever waits. */
  function EventSet(s: State, t: TaskId): State {
    s.(events := s.events[t := true], waiting := s.waiting - {t})
  }

  function Released(s: State, t: TaskId): State
    requires t in s.events
  {
    if s.events[t] then s else EventSet(s, t)
  }

  /** What handling a signal changes; a signal for a task that is not registered changes nothing. */
  function Handled(s: State, signal: Signal): State {
    var t := signal.task;
    if t !in s.events then s
    else
      match signal.kind
      case PauseRequested => if s.events[t] then s.(events := s.events[t := false]) else s
      case ResumeRequested => Released(s, t)
      case CancelRequested => Released(s.(cancels := s.cancels[t := true]), t)
      case RedirectRequested =>
        Released(s.(redirects := s.redirects[t := signal.payload], cancels := s.cancels[t := true]), t)
      case ContextInjection =>
        if t in s.contexts then s.(contexts := s.contexts[t := s.contexts[t] + [signal.payload]]) else s
  }

  function Marked(s: State, key: string): State {
    s.(processed := s.processed + {key})
  }

  /** One turn of the polling loop's inner loop. */
  function Processed(s: State, signal: Signal): State {
    ProcessedUnder(s, signal, Key(signal))
  }

  function ProcessedUnder(s: State, signal: Signal, key: string): State {
    if key in s.processed then s else Marked(Handled(s, signal), key)
  }

  function ProcessedAll(s: State, signals: seq<Signal>): State {
    if signals == [] then s else Processed(ProcessedAll(s, signals[..|signals| - 1]), signals[|signals| - 1])
  }

  function Queue(s: State, t: TaskId): seq<Payload> {
    if t in s.contexts then s.contexts[t] else []
  }

  /** The state after an executor takes all pending contexts. */
  function Popped(s: State, t: TaskId): State {
    if Queue(s, t) == [] then s else s.(contexts := s.contexts[t := []])
  }

  // ---------------------------------------------------------------- the poller

  class SignalPoller {
    var pauseEvents: map<TaskId, bool>
    var waiters: set<TaskId>
    var cancelFlags: map<TaskId, bool>
    var redirectPayloads: map<TaskId, Payload>
    var contextQueue: map<TaskId, seq<Payload>>
    var processedSignals: set<string>

    function View(): State
      reads this
    {
      State(pauseEvents, waiters, cancelFlags, redirectPayloads, contextQueue, processedSignals)
    }

    constructor ()
      ensures View() == NO_SIGNALS
    {
      pauseEvents, waiters, cancelFlags, redirectPayloads := map[], {}, map[], map[];
      contextQueue, processedSignals := map[], {};
    }

    method RegisterTask(t: TaskId)
      modifies this
      ensures View() == Registered(old(View()), t)
    {
      pauseEvents := pauseEvents[t := true];
      waiters := waiters - {t};
      cancelFlags := cancelFlags[t := false];
      redirectPayloads := redirectPayloads - {t};
      contextQueue := contextQueue[t := []];
    }

    method UnregisterTask(t: TaskId)
      modifies this
      ensures View() == Unregistered(old(View()), t)
    {
      pauseEvents := pauseEvents - {t};
      waiters := waiters - {t};
      cancelFlags := cancelFlags - {t};
      redirectPayloads := redirectPayloads - {t};
      contextQueue := contextQueue - {t};
      var prefix := t + ":";
      processedSignals := set key | key in processedSignals && !(prefix <= key);
    }

    method PopContext(t: TaskId) returns (contexts: seq<Payload>)
      modifies this`contextQueue
      ensures contexts == Queue(old(View()), t) && View() == Popped(old(View()), t)
    {
      contexts := if t in contextQueue then contextQueue[t] else [];
      if contexts != [] {
        contextQueue := contextQueue[t := []];
      }
    }

    /** Blocks the executor of a paused task; `false` when it may run on at once. */
    method WaitIfPaused(t: TaskId) returns (blocked: bool)
      modifies this`waiters
      ensures blocked <==> t in old(View()).events && !old(View()).events[t]
      ensures View() == if blocked then old(View()).(waiting := old(View()).waiting + {t}) else old(View())
    {
      blocked := t in pauseEvents && !pauseEvents[t];
      if blocked {
        waiters := waiters + {t};
      }
    }

    method SetEvent(t: TaskId)
      modifies this`pauseEvents, this`waiters
      ensures View() == EventSet(old(View()), t)
    {
      pauseEvents := pauseEvents[t := true];
      waiters := waiters - {t};
    }

    /** The part of a handler that runs before it waits for its acknowledgement to be posted. */
    method HandleSignal(signal: Signal)
      modifies this
      ensures View() == Handled(old(View()), signal)
    {
      var t := signal.task;
      if t !in pauseEvents {
        return;
      }
      match signal.kind {
        case PauseRequested =>
          if pauseEvents[t] {
            pauseEvents := pauseEvents[t := false];
          }
        case ResumeRequested =>
          if !pauseEvents[t] {
            SetEvent(t);
          }
        case CancelRequested =>
          cancelFlags := cancelFlags[t := true];
          if !pauseEvents[t] {
            SetEvent(t);
          }
        case RedirectRequested =>
          redirectPayloads := redirectPayloads[t := signal.payload];
          cancelFlags := cancelFlags[t := true];
          if !pauseEvents[t] {
            SetEvent(t);
          }
        case ContextInjection =>
          if t in contextQueue {
            contextQueue := contextQueue[t := contextQueue[t] + [signal.payload]];
          }
      }
    }

    /** Handles one polled list, skipping what was processed before. */
    method HandleList(signals: seq<Signal>)
      modifies this
      ensures View() == ProcessedAll(old(View()), signals)
    {
      var i := 0;
      while i < |signals|
        invariant 0 <= i <= |signals|
        invariant View() == ProcessedAll(old(View()), signals[..i])
      {
        var key := Key(signals[i]);
        if key !in processedSignals {
          HandleSignal(signals[i]);
          processedSignals := processedSignals + {key};
        }
        assert signals[..i + 1][..i] == signals[..i];
        i := i + 1;
      }
      assert signals[..i] == signals;
    }
  }

  // ---------------------------------------------------------------- keys

  /** Generated task ids hold no colon. */
  predicate PlainId(t: TaskId) {
    ':' !in t
  }

  /** The text before the first colon. */
  function UpToColon(text: string): string {
    if text == "" || text[0] == ':' then "" else [text[0]] + UpToColon(text[1..])
  }

  lemma {:induction false} UpToColonOf(a: string, x: string)
    requires ':' !in a
    ensures UpToColon(a + ":" + x) == a
  {
    if a != "" {
      UpToColonOf(a[1..], x);
      assert (a + ":" + x)[1..] == a[1..] + ":" + x;
    }
  }

  lemma ColonParts(a: string, b: string, x: string, y: string)
    requires ':' !in a && ':' !in b
    requires a + ":" + x == b + ":" + y
    ensures a == b && x == y
  {
    UpToColonOf(a, x);
    UpToColonOf(b, y);
    assert (a + ":" + x)[|a| + 1..] == x && (b + ":" + y)[|b| + 1..] == y;
  }

  /** For plain ids a key tells the task, kind and timestamp. */
  lemma KeyTells(a: Signal, b: Signal)
    requires PlainId(a.task) && PlainId(b.task) && Key(a) == Key(b)
    ensures a.task == b.task && a.kind == b.kind && a.timestamp == b.timestamp
  {
    var restA, restB := KindName(a.kind) + ":" + a.timestamp, KindName(b.kind) + ":" + b.timestamp;
    assert Key(a) == a.task + ":" + restA && Key(b) == b.task + ":" + restB;
    ColonParts(a.task, b.task, restA, restB);
    KindNameIsPlain(a.kind);
    KindNameIsPlain(b.kind);
    ColonParts(KindName(a.kind), KindName(b.kind), a.timestamp, b.timestamp);
    KindNameTells(a.kind, b.kind);
  }

  lemma KindNameIsPlain(kind: SignalKind)
    ensures ':' !in KindName(kind)
  {
  }

  lemma KindNameTells(a: SignalKind, b: SignalKind)
    requires KindName(a) == KindName(b)
    ensures a == b
  {
  }

  /** Pruning by the prefix of a plain id removes the keys of that task and no others. */
  lemma PruneIsExact(t: TaskId, signal: Signal)
    requires PlainId(t) && PlainId(signal.task)
    ensures HasPrefix(t, Key(signal)) <==> signal.task == t
  {
    var rest := KindName(signal.kind) + ":" + signal.timestamp;
    assert Key(signal) == signal.task + ":" + rest;
    if HasPrefix(t, Key(signal)) {
      assert Key(signal) == t + ":" + Key(signal)[|t| + 1..];
      ColonParts(t, signal.task, Key(signal)[|t| + 1..], rest);
    }
  }

  /** No key belongs to two plain ids. */
  lemma PrefixesExclude(a: TaskId, b: TaskId, key: string)
    requires PlainId(a) && PlainId(b) && HasPrefix(a, key) && HasPrefix(b, key)
    ensures a == b
  {
    assert key == a + ":" + key[|a| + 1..] && key == b + ":" + key[|b| + 1..];
    ColonParts(a, b, key[|a| + 1..], key[|b| + 1..]);
  }
}
