/** What repeated polling, executors and other tasks coming and going make of one task's signals. */
module SignalFold {
  import opened Options
  import opened TaskRecords
  import opened Signals

  /** What an executor can see of its task's signals, apart from the contexts. */
  datatype Control = Control(running: bool, cancelled: bool, redirect: Option<Payload>)

  function ControlOf(s: State, t: TaskId): Control {
    Control(t in s.events && s.events[t], IsCancelled(s, t), if t in s.redirects then Some(s.redirects[t]) else None)
  }

  /** What one signal means, however it reached the task. */
  function Steer(control: Control, signal: Signal): Control {
    match signal.kind
    case PauseRequested => control.(running := false)
    case ResumeRequested => control.(running := true)
    case CancelRequested => control.(running := true, cancelled := true)
    case RedirectRequested => Control(true, true, Some(signal.payload))
    case ContextInjection => control
  }

  function SteerAll(control: Control, signals: seq<Signal>): Control {
    if signals == [] then control else Steer(SteerAll(control, signals[..|signals| - 1]), signals[|signals| - 1])
  }

  /** A pause at `i` after which only pauses and contexts come. */
  predicate PausesFrom(signals: seq<Signal>, i: nat) {
    && i < |signals| && signals[i].kind.PauseRequested?
    && forall j | i < j < |signals| :: signals[j].kind in {PauseRequested, ContextInjection}
  }

  predicate StopsAt(signals: seq<Signal>, i: nat) {
    i < |signals| && signals[i].kind in {CancelRequested, RedirectRequested}
  }

  /** The last redirect among the signals is at `i`. */
  predicate RedirectsLast(signals: seq<Signal>, i: nat) {
    && i < |signals| && signals[i].kind.RedirectRequested?
    && forall j | i < j < |signals| :: !signals[j].kind.RedirectRequested?
  }

  /** What a pass over signals leaves: paused exactly if a pause came and since then at most contexts; cancelled exactly
      if a cancellation or redirect came; redirected by the last redirect, if any. */
  lemma {:induction false} SteerAllMeans(signals: seq<Signal>)
    ensures var control := SteerAll(Control(true, false, None), signals);
            && (!control.running <==> exists i: nat :: PausesFrom(signals, i))
            && (control.cancelled <==> exists i: nat :: StopsAt(signals, i))
            && (control.redirect.Some? <==> exists i: nat :: RedirectsLast(signals, i))
            && (forall i: nat | RedirectsLast(signals, i) :: control.redirect == Some(signals[i].payload))
  {
    if signals != [] {
      var n := |signals| - 1;
      var before := signals[..n];
      SteerAllMeans(before);
      forall i: nat
        ensures PausesFrom(signals, i) <==>
                (i == n && signals[n].kind.PauseRequested?)
                || (PausesFrom(before, i) && signals[n].kind in {PauseRequested, ContextInjection})
        ensures StopsAt(signals, i) <==> StopsAt(before, i) || (i == n && StopsAt(signals, n))
        ensures RedirectsLast(signals, i) <==>
                (i == n && signals[n].kind.RedirectRequested?)
                || (RedirectsLast(before, i) && !signals[n].kind.RedirectRequested?)
      {
      }
      assert signals[n].kind.PauseRequested? ==> PausesFrom(signals, n);
      assert signals[n].kind.RedirectRequested? ==> RedirectsLast(signals, n) && StopsAt(signals, n);
      assert signals[n].kind.CancelRequested? ==> StopsAt(signals, n);
    }
  }

  function ContextsIn(signals: seq<Signal>): seq<Payload> {
    if signals == [] then []
    else
      ContextsIn(signals[..|signals| - 1])
      + if signals[|signals| - 1].kind.ContextInjection? then [signals[|signals| - 1].payload] else []
  }

  /** A polled signal together with its key. */
  datatype Item = Item(signal: Signal, key: string)

  /** The signals for `t` whose key is not in `seen` and did not occur before. */
  function Fresh(seen: set<string>, items: seq<Item>, t: TaskId): seq<Signal> {
    if items == [] then []
    else
      var before, last := items[..|items| - 1], items[|items| - 1];
      Fresh(seen, before, t) + if last.signal.task == t && last.key !in seen + Keys(before) then [last.signal] else []
  }

  function Keys(items: seq<Item>): set<string> {
    set item | item in items :: item.key
  }

  // ---------------------------------------------------------------- interleavings

  /** The steps that interleave. Handling a signal ends when its acknowledgement is posted, and only then is its
      key remembered; other steps may come between. */
  datatype Action =
    | Handle(item: Item)
    | Acknowledged
    | Pop(task: TaskId)
    | Block(task: TaskId)
    | Unblock(task: TaskId)  // the execution timeout ends the wait
    | Join(task: TaskId)
    | Leave(task: TaskId)

  /** The state, the contexts that one executor has taken so far, and the key still to be remembered. */
  datatype Trace = Trace(state: State, popped: seq<Payload>, acking: Option<string>)

  /** The poller finishes the signal it is acknowledging. */
  function Settled(trace: Trace): Trace {
    if trace.acking.None? then trace else Trace(Marked(trace.state, trace.acking.value), trace.popped, None)
  }

  /** One step; the poller finishes one signal before it handles the next. */
  function Act(trace: Trace, action: Action, t: TaskId): Trace {
    match action
    case Handle(item) =>
      var settled := Settled(trace);
      if item.key in settled.state.processed then settled
      else settled.(state := Handled(settled.state, item.signal), acking := Some(item.key))
    case Acknowledged => Settled(trace)
    case Pop(other) =>
      trace.(state := Popped(trace.state, other),
             popped := trace.popped + if other == t then Queue(trace.state, t) else [])
    case Block(other) => trace.(state := trace.state.(waiting := trace.state.waiting + {other}))
    case Unblock(other) => trace.(state := trace.state.(waiting := trace.state.waiting - {other}))
    case Join(other) => trace.(state := Registered(trace.state, other))
    case Leave(other) => trace.(state := Unregistered(trace.state, other))
  }

  function ActAll(trace: Trace, actions: seq<Action>, t: TaskId): Trace {
    if actions == [] then trace else Act(ActAll(trace, actions[..|actions| - 1], t), actions[|actions| - 1], t)
  }

  /** What the polled signals of a run become with one more action. */
  function PolledWith(polled: seq<Item>, action: Action): seq<Item> {
    if action.Handle? then polled + [action.item] else polled
  }

  /** The signals handled in a run, in order. */
  function Polled(actions: seq<Action>): seq<Item> {
    if actions == [] then [] else PolledWith(Polled(actions[..|actions| - 1]), actions[|actions| - 1])
  }

  /** The action neither registers nor unregisters `t`, and its id is plain. */
  predicate Spares(action: Action, t: TaskId) {
    match action
    case Handle(item) => PlainId(item.signal.task) && item.key == Key(item.signal)
    case Join(other) => other != t && PlainId(other)
    case Leave(other) => other != t && PlainId(other)
    case _ => true
  }

  /** `t` stays registered throughout. */
  ghost predicate Stays(actions: seq<Action>, t: TaskId) {
    PlainId(t) && forall i | 0 <= i < |actions| :: Spares(actions[i], t)
  }

  /** Of the keys that belong to `t` those in `keys` are remembered and no others. */
  ghost predicate Remembers(s: State, t: TaskId, keys: set<string>) {
    forall key | HasPrefix(t, key) :: key in s.processed <==> key in keys
  }

  lemma HandledSteers(s: State, signal: Signal, t: TaskId)
    requires Registers(s, t)
    ensures Registers(Handled(s, signal), t) && Handled(s, signal).processed == s.processed
    ensures signal.task == t ==>
              ControlOf(Handled(s, signal), t) == Steer(ControlOf(s, t), signal)
              && Queue(Handled(s, signal), t) == Queue(s, t) + ContextsIn([signal])
    ensures signal.task != t ==>
              ControlOf(Handled(s, signal), t) == ControlOf(s, t) && Queue(Handled(s, signal), t) == Queue(s, t)
  {
    assert [signal][..0] == [];
  }

  lemma LeaveForgetsOthers(s: State, other: TaskId, t: TaskId, keys: set<string>)
    requires Remembers(s, t, keys) && PlainId(t) && PlainId(other) && other != t
    ensures Remembers(Unregistered(s, other), t, keys)
  {
    forall key | HasPrefix(t, key)
      ensures key in Unregistered(s, other).processed <==> key in keys
    {
      if HasPrefix(other, key) {
        PrefixesExclude(t, other, key);
      }
    }
  }

  /** What is known of a task after a run. */
  ghost predicate Folds(start: State, trace: Trace, polled: seq<Item>, t: TaskId) {
    var kept := Fresh(start.processed, polled, t);
    && Registers(trace.state, t)
    && Remembers(trace.state, t, start.processed + Keys(polled))
    && ControlOf(trace.state, t) == SteerAll(ControlOf(start, t), kept)
    && trace.popped + Queue(trace.state, t) == Queue(start, t) + ContextsIn(kept)
  }

  /** What is known of a settled trace, but for the keys, holds of the trace itself. */
  lemma FoldsTells(start: State, trace: Trace, polled: seq<Item>, t: TaskId)
    requires Folds(start, Settled(trace), polled, t)
    ensures var kept := Fresh(start.processed, polled, t);
            && ControlOf(trace.state, t) == SteerAll(ControlOf(start, t), kept)
            && trace.popped + Queue(trace.state, t) == Queue(start, t) + ContextsIn(kept)
  {
  }

  lemma FreshAppend(seen: set<string>, items: seq<Item>, item: Item, t: TaskId)
    ensures Keys(items + [item]) == Keys(items) + {item.key}
    ensures Fresh(seen, items + [item], t) ==
            if item.signal.task == t && item.key !in seen + Keys(items) then Fresh(seen, items, t) + [item.signal]
            else Fresh(seen, items, t)
  {
  }

  lemma SteerAppend(control: Control, signals: seq<Signal>, signal: Signal)
    ensures SteerAll(control, signals + [signal]) == Steer(SteerAll(control, signals), signal)
    ensures ContextsIn(signals + [signal]) == ContextsIn(signals) + ContextsIn([signal])
  {
  }

  lemma AppendContexts(popped: seq<Payload>, queue: seq<Payload>, base: seq<Payload>, kept: seq<Signal>, signal: Signal)
    requires popped + queue == base + ContextsIn(kept)
    ensures popped + (queue + ContextsIn([signal])) == base + ContextsIn(kept + [signal])
  {
    SteerAppend(Control(true, false, None), kept, signal);
    assert popped + (queue + ContextsIn([signal])) == (popped + queue) + ContextsIn([signal]);
  }

  lemma MarkedSame(s: State, key: string, t: TaskId, keys: set<string>)
    requires Remembers(s, t, keys)
    ensures Remembers(Marked(s, key), t, keys + {key})
    ensures ControlOf(Marked(s, key), t) == ControlOf(s, t) && Queue(Marked(s, key), t) == Queue(s, t)
    ensures Registers(s, t) ==> Registers(Marked(s, key), t)
  {
  }

  /** A signal for `t` whose key is new has its effect. */
  lemma NewFolds(start: State, trace: Trace, polled: seq<Item>, item: Item, t: TaskId, next: State)
    requires Folds(start, trace, polled, t) && item.signal.task == t && HasPrefix(t, item.key)
    requires item.key !in trace.state.processed && Registers(next, t) && next.processed == trace.state.processed
    requires ControlOf(next, t) == Steer(ControlOf(trace.state, t), item.signal)
    requires Queue(next, t) == Queue(trace.state, t) + ContextsIn([item.signal])
    ensures Folds(start, trace.(state := Marked(next, item.key)), polled + [item], t)
  {
    var kept, keys := Fresh(start.processed, polled, t), start.processed + Keys(polled);
    FreshAppend(start.processed, polled, item, t);
    SteerAppend(ControlOf(start, t), kept, item.signal);
    MarkedSame(next, item.key, t, keys);
    assert start.processed + Keys(polled + [item]) == keys + {item.key};
    AppendContexts(trace.popped, Queue(trace.state, t), Queue(start, t), kept, item.signal);
  }

  /** A signal that brings `t` nothing new has no effect on it. */
  lemma StaleFolds(start: State, trace: Trace, polled: seq<Item>, item: Item, t: TaskId, next: State)
    requires Folds(start, trace, polled, t)
    requires if item.signal.task == t then item.key in trace.state.processed && HasPrefix(t, item.key)
             else !HasPrefix(t, item.key)
    requires Registers(next, t) && ControlOf(next, t) == ControlOf(trace.state, t) && Queue(next,
                                                                                            t) == Queue(trace.state, t)
    requires next.processed == trace.state.processed || next.processed == trace.state.processed + {item.key}
    ensures Folds(start, trace.(state := next), polled + [item], t)
  {
    FreshAppend(start.processed, polled, item, t);
    var keys := start.processed + Keys(polled);
    assert start.processed + Keys(polled + [item]) == keys + {item.key};
    assert Remembers(next, t, keys + {item.key});
  }

  lemma HandleFolds(start: State, trace: Trace, polled: seq<Item>, item: Item, t: TaskId)
    requires Folds(start, trace, polled, t)
    requires HasPrefix(t, item.key) <==> item.signal.task == t
    ensures Folds(start, trace.(state := ProcessedUnder(trace.state, item.signal, item.key)), polled + [item], t)
  {
    var s := trace.state;
    HandledSteers(s, item.signal, t);
    if item.key in s.processed {
      StaleFolds(start, trace, polled, item, t, s);
    } else if item.signal.task == t {
      NewFolds(start, trace, polled, item, t, Handled(s, item.signal));
    } else {
      MarkedSame(Handled(s, item.signal), item.key, t, start.processed + Keys(polled));
      StaleFolds(start, trace, polled, item, t, Marked(Handled(s, item.signal), item.key));
    }
  }

  /** Remembering a key of another task changes nothing for `t`. */
  lemma ForeignMark(start: State, trace: Trace, polled: seq<Item>, key: string, t: TaskId)
    requires Folds(start, trace, polled, t) && !HasPrefix(t, key)
    ensures Folds(start, trace.(state := Marked(trace.state, key)), polled, t)
  {
  }

  lemma LeaveFolds(start: State, trace: Trace, polled: seq<Item>, other: TaskId, t: TaskId)
    requires Folds(start, trace, polled, t) && other != t && PlainId(other) && PlainId(t)
    ensures Folds(start, trace.(state := Unregistered(trace.state, other)), polled, t)
  {
    LeaveForgetsOthers(trace.state, other, t, start.processed + Keys(polled));
  }

  lemma JoinFolds(start: State, trace: Trace, polled: seq<Item>, other: TaskId, t: TaskId)
    requires Folds(start, trace, polled, t) && other != t
    ensures Folds(start, trace.(state := Registered(trace.state, other)), polled, t)
  {
  }

  /** Popping takes the task's own contexts and touches nothing else. */
  lemma PoppedTakes(s: State, other: TaskId, t: TaskId)
    requires Registers(s, t)
    ensures Registers(Popped(s, other), t) && Popped(s, other).processed == s.processed
    ensures ControlOf(Popped(s, other), t) == ControlOf(s, t)
    ensures Queue(Popped(s, other), t) == if other == t then [] else Queue(s, t)
  {
  }

  lemma PopFolds(start: State, trace: Trace, polled: seq<Item>, other: TaskId, t: TaskId)
    requires Folds(start, trace, polled, t)
    ensures Folds(start, Act(trace, Pop(other), t), polled, t)
  {
    PoppedTakes(trace.state, other, t);
    var after := Act(trace, Pop(other), t);
    assert after.popped + Queue(after.state, t) == trace.popped + Queue(trace.state, t);
  }

  /** Leaving while a signal is being acknowledged may leave that signal's key behind, but no key of `t`. */
  lemma LeaveUnsettled(start: State, trace: Trace, polled: seq<Item>, other: TaskId, t: TaskId)
    requires Folds(start, Settled(trace), polled, t) && other != t && PlainId(other) && PlainId(t)
    ensures Folds(start, Settled(Act(trace, Leave(other), t)), polled, t)
  {
    var after := Settled(trace).(state := Unregistered(Settled(trace).state, other));
    LeaveFolds(start, Settled(trace), polled, other, t);
    if trace.acking.Some? && HasPrefix(other, trace.acking.value) {
      var key := trace.acking.value;
      if HasPrefix(t, key) {
        PrefixesExclude(t, other, key);
      }
      ForeignMark(start, after, polled, key, t);
      assert Settled(Act(trace, Leave(other), t)).state.processed == after.state.processed + {key};
    } else {
      assert Settled(Act(trace, Leave(other), t)).state.processed == after.state.processed;
    }
  }

  lemma PopUnsettled(start: State, trace: Trace, polled: seq<Item>, other: TaskId, t: TaskId)
    requires Folds(start, Settled(trace), polled, t)
    ensures Folds(start, Settled(Act(trace, Pop(other), t)), polled, t)
  {
    PopFolds(start, Settled(trace), polled, other, t);
    assert Settled(Act(trace, Pop(other), t)) == Act(Settled(trace), Pop(other), t);
  }

  lemma ActFolds(start: State, trace: Trace, polled: seq<Item>, action: Action, t: TaskId)
    requires Folds(start, Settled(trace), polled, t) && Spares(action, t) && PlainId(t)
    ensures Folds(start, Settled(Act(trace, action, t)), PolledWith(polled, action), t)
  {
    match action
    case Handle(item) =>
      PruneIsExact(t, item.signal);
      HandleFolds(start, Settled(trace), polled, item, t);
    case Acknowledged =>
    case Leave(other) => LeaveUnsettled(start, trace, polled, other, t);
    case Join(other) => JoinFolds(start, Settled(trace), polled, other, t);
    case Pop(other) => PopUnsettled(start, trace, polled, other, t);
    case Block(_) =>
    case Unblock(_) =>
  }

  /** Whatever the interleaving, a task registered throughout ends up with the pause, cancel and redirect state
      that one pass over the polled signals gives once repeats are dropped; and the contexts its executor took,
      followed by those still queued, are exactly those signals' contexts, once each and in order. */
  lemma {:induction false} RunFolds(begin: Trace, actions: seq<Action>, t: TaskId)
    requires Registers(begin.state, t) && Stays(actions, t) && begin.popped == []
    ensures Folds(Settled(begin).state, Settled(ActAll(begin, actions, t)), Polled(actions), t)
  {
    var start := Settled(begin).state;
    if actions == [] {
      assert start.processed + Keys([]) == start.processed;
    } else {
      var before, last := actions[..|actions| - 1], actions[|actions| - 1];
      RunFolds(begin, before, t);
      assert Spares(last, t);
      ActFolds(start, ActAll(begin, before, t), Polled(before), last, t);
    }
  }

  // ---------------------------------------------------------------- signals polled before registration

  lemma HandleRemembers(trace: Trace, item: Item, t: TaskId, keys: set<string>)
    requires Remembers(Settled(trace).state, t, keys)
    ensures Remembers(Settled(Act(trace, Handle(item), t)).state, t, keys + {item.key})
  {
  }

  lemma LeaveRemembers(trace: Trace, other: TaskId, t: TaskId, keys: set<string>)
    requires Remembers(Settled(trace).state, t, keys) && PlainId(t) && PlainId(other) && other != t
    ensures Remembers(Settled(Act(trace, Leave(other), t)).state, t, keys)
  {
    LeaveForgetsOthers(Settled(trace).state, other, t, keys);
    if trace.acking.Some? {
      var key := trace.acking.value;
      if HasPrefix(t, key) && HasPrefix(other, key) {
        PrefixesExclude(t, other, key);
      }
    }
  }

  lemma ActRemembers(trace: Trace, action: Action, t: TaskId, keys: set<string>)
    requires Remembers(Settled(trace).state, t, keys) && Spares(action, t) && PlainId(t)
    ensures Remembers(Settled(Act(trace, action, t)).state, t, keys + Keys(PolledWith([], action)))
  {
    assert Keys([]) == {};
    match action
    case Handle(item) =>
      HandleRemembers(trace, item, t, keys);
      assert PolledWith([], action) == [item] && Keys([item]) == {item.key};
    case Leave(other) => LeaveRemembers(trace, other, t, keys);
    case _ =>
  }

  /** Of the keys that belong to `t` those polled in a run are remembered, whether or not `t` is registered. */
  lemma {:induction false} RunRemembers(begin: Trace, actions: seq<Action>, t: TaskId, seen: set<string>)
    requires Remembers(Settled(begin).state, t, seen) && Stays(actions, t)
    ensures Remembers(Settled(ActAll(begin, actions, t)).state, t, seen + Keys(Polled(actions)))
  {
    if actions == [] {
      assert seen + Keys([]) == seen;
    } else {
      var before, last := actions[..|actions| - 1], actions[|actions| - 1];
      RunRemembers(begin, before, t, seen);
      assert Spares(last, t);
      ActRemembers(ActAll(begin, before, t), last, t, seen + Keys(Polled(before)));
      KeysConcat(Polled(before), PolledWith([], last));
      assert Polled(actions) == Polled(before) + PolledWith([], last);
      assert seen + Keys(Polled(actions)) == seen + Keys(Polled(before)) + Keys(PolledWith([], last));
    }
  }

  /** The trace of a task that is registered after one run and then watched through another. */
  function JoinedBetween(begin: Trace, early: seq<Action>, late: seq<Action>, t: TaskId): Trace {
    ActAll(Act(ActAll(begin, early, t), Join(t), t).(popped := []), late, t)
  }

  /** A run of a task that has a clean slate and whose remembered keys are known. */
  lemma CleanRunFolds(begin: Trace, actions: seq<Action>, t: TaskId, seen: set<string>)
    requires Clean(begin, t) && Stays(actions, t) && Remembers(Settled(begin).state, t, seen)
    ensures var trace, kept := ActAll(begin, actions, t), Fresh(seen, Polled(actions), t);
            && ControlOf(trace.state, t) == SteerAll(Control(true, false, None), kept)
            && trace.popped + Queue(trace.state, t) == ContextsIn(kept)
  {
    RunFolds(begin, actions, t);
    PolledKeyed(actions, t);
    SameFresh(Settled(begin).state.processed, seen, Polled(actions), t);
    FoldsTells(Settled(begin).state, ActAll(begin, actions, t), Polled(actions), t);
  }

  /** Registered, running, and nothing queued or taken. */
  predicate Clean(trace: Trace, t: TaskId) {
    && Registers(trace.state, t) && ControlOf(trace.state, t) == Control(true, false, None)
    && Queue(trace.state, t) == [] && trace.popped == []
  }

  lemma JoinsClean(trace: Trace, t: TaskId, keys: set<string>)
    requires Remembers(Settled(trace).state, t, keys)
    ensures var joined := Act(trace, Join(t), t).(popped := []);
            Clean(joined, t) && Remembers(Settled(joined).state, t, keys)
  {
    assert Settled(Act(trace, Join(t), t)).state.processed == Settled(trace).state.processed;
  }

  /** A signal polled once a task is registered takes effect exactly if its key was not polled before: the state
      and the contexts are those of one pass over the later signals whose keys are new. */
  lemma EarlyKeysAreSpent(begin: Trace, early: seq<Action>, late: seq<Action>, t: TaskId, seen: set<string>)
    requires Stays(early, t) && Stays(late, t) && Remembers(Settled(begin).state, t, seen)
    ensures var trace := JoinedBetween(begin, early, late, t);
            var kept := Fresh(seen + Keys(Polled(early)), Polled(late), t);
            && ControlOf(trace.state, t) == SteerAll(Control(true, false, None), kept)
            && trace.popped + Queue(trace.state, t) == ContextsIn(kept)
  {
    var left := ActAll(begin, early, t);
    RunRemembers(begin, early, t, seen);
    JoinsClean(left, t, seen + Keys(Polled(early)));
    CleanRunFolds(Act(left, Join(t), t).(popped := []), late, t, seen + Keys(Polled(early)));
  }

  /** The key of a signal that is still being acknowledged. */
  function Pending(trace: Trace): set<string> {
    if trace.acking.Some? then {trace.acking.value} else {}
  }

  /** Unregistering a task makes its keys new again, all but that of a signal still being acknowledged: only what
      is polled between leaving and joining again is spent. */
  lemma LeavingRenewsKeys(trace: Trace, early: seq<Action>, late: seq<Action>, t: TaskId)
    requires Stays(early, t) && Stays(late, t)
    ensures var again := JoinedBetween(Act(trace, Leave(t), t), early, late, t);
            var kept := Fresh(Pending(trace) + Keys(Polled(early)), Polled(late), t);
            && ControlOf(again.state, t) == SteerAll(Control(true, false, None), kept)
            && again.popped + Queue(again.state, t) == ContextsIn(kept)
  {
    EarlyKeysAreSpent(Act(trace, Leave(t), t), early, late, t, Pending(trace));
  }

  // ---------------------------------------------------------------- lists that extend each other

  function Concat(lists: seq<seq<Item>>): seq<Item> {
    if lists == [] then [] else Concat(lists[..|lists| - 1]) + lists[|lists| - 1]
  }

  /** Each polled list extends the one before. */
  predicate Extending(lists: seq<seq<Item>>) {
    forall i | 0 < i < |lists| :: lists[i - 1] <= lists[i]
  }

  lemma {:induction false} FreshConcat(seen: set<string>, a: seq<Item>, b: seq<Item>, t: TaskId)
    ensures Fresh(seen, a + b, t) == Fresh(seen, a, t) + Fresh(seen + Keys(a), b, t)
  {
    if b == [] {
      assert a + b == a;
    } else {
      var before, last := b[..|b| - 1], b[|b| - 1];
      FreshConcat(seen, a, before, t);
      assert (a + b)[..|a + b| - 1] == a + before && (a + b)[|a + b| - 1] == last;
      assert Keys(a + before) == Keys(a) + Keys(before);
      assert seen + Keys(a) + Keys(before) == seen + Keys(a + before);
    }
  }

  /** Nothing of a list is new once all its keys were seen. */
  lemma {:induction false} SeenIsStale(seen: set<string>, items: seq<Item>, t: TaskId)
    requires Keys(items) <= seen
    ensures Fresh(seen, items, t) == []
  {
    if items != [] {
      assert Keys(items[..|items| - 1]) <= Keys(items);
      SeenIsStale(seen, items[..|items| - 1], t);
      assert items[|items| - 1].key in Keys(items);
    }
  }

  /** Polling lists that extend each other amounts to polling the last one once. */
  lemma {:induction false} ExtendingIsLast(seen: set<string>, lists: seq<seq<Item>>, t: TaskId)
    requires lists != [] && Extending(lists)
    ensures Fresh(seen, Concat(lists), t) == Fresh(seen, lists[|lists| - 1], t)
    ensures Keys(Concat(lists)) == Keys(lists[|lists| - 1])
  {
    var before, last := lists[..|lists| - 1], lists[|lists| - 1];
    if before == [] {
      assert Concat(lists) == last;
    } else {
      ExtendingIsLast(seen, before, t);
      ExtendOnce(seen, Concat(before), before[|before| - 1], last, t);
      ExtendKeys(Concat(before), before[|before| - 1], last);
    }
  }

  /** Polling a longer list after a shorter one adds only what is new in it. */
  lemma ExtendOnce(seen: set<string>, polled: seq<Item>, list: seq<Item>, longer: seq<Item>, t: TaskId)
    requires list <= longer && Keys(polled) == Keys(list) && Fresh(seen, polled, t) == Fresh(seen, list, t)
    ensures Fresh(seen, polled + longer, t) == Fresh(seen, longer, t)
  {
    assert longer == list + longer[|list|..];
    AddOnce(seen, polled, list, longer[|list|..], t);
  }

  lemma ExtendKeys(polled: seq<Item>, list: seq<Item>, longer: seq<Item>)
    requires list <= longer && Keys(polled) == Keys(list)
    ensures Keys(polled + longer) == Keys(longer)
  {
    KeysConcat(polled, longer);
    KeysConcat(list, longer[|list|..]);
    assert longer == list + longer[|list|..];
  }

  lemma AddOnce(seen: set<string>, polled: seq<Item>, list: seq<Item>, added: seq<Item>, t: TaskId)
    requires Keys(polled) == Keys(list) && Fresh(seen, polled, t) == Fresh(seen, list, t)
    ensures Fresh(seen, polled + (list + added), t) == Fresh(seen, list + added, t)
  {
    FreshConcat(seen, polled, list + added, t);
    SecondPass(seen, list, added, t);
    FreshConcat(seen, list, added, t);
  }

  /** A second pass over a list finds only what was appended to it. */
  lemma SecondPass(seen: set<string>, list: seq<Item>, added: seq<Item>, t: TaskId)
    ensures Fresh(seen + Keys(list), list + added, t) == Fresh(seen + Keys(list), added, t)
  {
    var all := seen + Keys(list);
    FreshConcat(all, list, added, t);
    SeenIsStale(all, list, t);
    assert all + Keys(list) == all;
  }

  lemma KeysConcat(a: seq<Item>, b: seq<Item>)
    ensures Keys(a + b) == Keys(a) + Keys(b)
  {
  }

  /** For a task registered throughout and never seen before, any interleaving that polls lists each extending
      the last gives the state, and the contexts, of one pass over the last list with repeats dropped. */
  lemma PollingIsOnePass(start: State, actions: seq<Action>, lists: seq<seq<Item>>, t: TaskId)
    requires Registers(start, t) && Stays(actions, t) && Remembers(start, t, {})
    requires lists != [] && Extending(lists) && Polled(actions) == Concat(lists)
    ensures var trace := ActAll(Trace(start, [], None), actions, t);
            var kept := Fresh({}, lists[|lists| - 1], t);
            && ControlOf(trace.state, t) == SteerAll(ControlOf(start, t), kept)
            && trace.popped + Queue(trace.state, t) == Queue(start, t) + ContextsIn(kept)
  {
    RunFolds(Trace(start, [], None), actions, t);
    FoldsTells(start, ActAll(Trace(start, [], None), actions, t), Polled(actions), t);
    PolledKeyed(actions, t);
    SameFresh(start.processed, {}, Polled(actions), t);
    ExtendingIsLast({}, lists, t);
  }

  /** The keys of the polled signals belong to the signals' tasks. */
  ghost predicate Keyed(items: seq<Item>, t: TaskId) {
    forall i | 0 <= i < |items| && items[i].signal.task == t :: HasPrefix(t, items[i].key)
  }

  lemma {:induction false} PolledKeyed(actions: seq<Action>, t: TaskId)
    requires Stays(actions, t)
    ensures Keyed(Polled(actions), t)
  {
    if actions != [] {
      var last := actions[|actions| - 1];
      PolledKeyed(actions[..|actions| - 1], t);
      if last.Handle? {
        assert Spares(last, t);
        PruneIsExact(t, last.item.signal);
      }
    }
  }

  /** Only the keys that belong to `t` matter for what is new to it. */
  lemma {:induction false} SameFresh(seen: set<string>, other: set<string>, items: seq<Item>, t: TaskId)
    requires Keyed(items, t) && forall key | HasPrefix(t, key) :: key in seen <==> key in other
    ensures Fresh(seen, items, t) == Fresh(other, items, t)
  {
    if items != [] {
      SameFresh(seen, other, items[..|items| - 1], t);
    }
  }
}
