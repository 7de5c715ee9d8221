/** The sidecar's event streamer: it numbers the events of one execution and posts each with retries. */
module Streamer {
  import opened Options
  import opened TaskStateMachine
  import opened TaskRecords
  import opened TaskDecisions
  import opened TaskInvariants
  import opened TaskHistory
  import opened Outcomes

  const MAX_RETRIES := 4

  /** What becomes of one POST: an HTTP status, no connection, or an error that nothing catches. */
  datatype Outcome = Answered(status: int) | NoConnection | OtherError

  predicate Transient(outcome: Outcome) {
    outcome.NoConnection? || (outcome.Answered? && outcome.status >= 500)
  }

  datatype Message = Message(kind: string, data: Option<Data>, sequence: int)

  /** The k-th event a `stream` call posts: its own `running` event, then those of the executor, from 1 on. */
  function Numbered(events: seq<Message>, k: nat): Message
    requires k <= |events|
  {
    if k == 0 then Message("status", Some(map["status" := Text("running")]), 1) else events[k - 1].(sequence := k + 1)
  }

  /** `n` tries of one event, the first being the `from`-th POST: again only after a transient failure, at most
      MAX_RETRIES times, and not given up earlier. */
  ghost predicate Tried(answers: nat -> Outcome, from: nat, n: nat) {
    && 1 <= n <= MAX_RETRIES + 1
    && (forall k: nat | from <= k < from + n - 1 :: Transient(answers(k)))
    && (n < MAX_RETRIES + 1 ==> !Transient(answers(from + n - 1)))
  }

  function Copies(message: Message, n: nat): seq<Message> {
    seq(n, _ => message)
  }

  /** How many POSTs that makes. */
  ghost function Total(tries: seq<nat>): nat {
    if tries == [] then 0 else Total(tries[..|tries| - 1]) + tries[|tries| - 1]
  }

  /** The POSTs of a stream that tried its k-th event `tries[k]` times. */
  ghost function Wire(events: seq<Message>, tries: seq<nat>): (wire: seq<Message>)
    requires |tries| <= |events| + 1
    ensures |wire| == Total(tries)
  {
    if tries == [] then []
    else
      var k := |tries| - 1;
      Wire(events, tries[..k]) + Copies(Numbered(events, k), tries[k])
  }

  /** One event after the other was tried by the retry rule; an uncaught error can only be the last outcome. */
  ghost predicate TriedInTurn(answers: nat -> Outcome, tries: seq<nat>, raised: bool) {
    if tries == [] then !raised
    else
      var k := |tries| - 1;
      && TriedInTurn(answers, tries[..k], false)
      && Tried(answers, Total(tries[..k]), tries[k])
      && (raised <==> answers(Total(tries[..k]) + tries[k] - 1).OtherError?)
  }

  /** A whole stream over a source that emits `events` and then ends, or raises if it is `broken`: unless an
      uncaught error of a POST ends it, every event has its turn, and then the source's error is raised. */
  ghost predicate Streamed(answers: nat -> Outcome, events: seq<Message>, broken: bool, tries: seq<nat>, raised: bool) {
    && |tries| <= |events| + 1
    && (TriedInTurn(answers, tries, true) || (TriedInTurn(answers, tries, false) && |tries| == |events| + 1))
    && (raised <==> broken || TriedInTurn(answers, tries, true))
  }

  // ---------------------------------------------------------------- the loops

  /** The HTTP client of one `stream` call; `answers(k)` is what becomes of its k-th POST. */
  class Client {
    const answers: nat -> Outcome
    var sent: seq<Message>

    constructor (answers: nat -> Outcome)
      ensures this.answers == answers && sent == []
    {
      this.answers, sent := answers, [];
    }

    method Post(message: Message) returns (outcome: Outcome)
      modifies this
      ensures sent == old(sent) + [message] && outcome == answers(|old(sent)|)
    {
      outcome := answers(|sent|);
      sent := sent + [message];
    }
  }

  /** `_post_event`. */
  method PostEvent(client: Client, message: Message) returns (raised: bool, ghost tries: nat)
    modifies client
    ensures client.sent == old(client.sent) + Copies(message, tries)
    ensures Tried(client.answers, |old(client.sent)|, tries)
    ensures raised <==> client.answers(|client.sent| - 1).OtherError?
  {
    raised, tries := false, 0;
    for attempt := 0 to MAX_RETRIES + 1
      invariant tries == attempt && !raised
      invariant client.sent == old(client.sent) + Copies(message, tries)
      invariant forall k: nat | |old(client.sent)| <= k < |client.sent| :: Transient(client.answers(k))
    {
      var outcome := client.Post(message);
      tries := tries + 1;
      match outcome {
        case Answered(status) =>
          if status < 500 {
            return;
          }
        case NoConnection =>
        case OtherError =>
          raised := true;
          return;
      }
    }
  }

  /** Posts the next event of a stream. */
  method PostNext(client: Client, message: Message, ghost events: seq<Message>, ghost tries: seq<nat>)
    returns (raised: bool, ghost more: seq<nat>)
    requires |tries| <= |events| && message == Numbered(events, |tries|)
    requires client.sent == Wire(events, tries) && TriedInTurn(client.answers, tries, false)
    modifies client
    ensures |more| == |tries| + 1 && TriedInTurn(client.answers, more, raised)
    ensures client.sent == Wire(events, more)
  {
    ghost var n: nat;
    raised, n := PostEvent(client, message);
    TakesTurn(client.answers, events, tries, n, raised);
    more := tries + [n];
  }

  /** `stream`. */
  method Stream(client: Client, events: seq<Message>, broken: bool) returns (raised: bool, ghost tries: seq<nat>)
    requires client.sent == []
    modifies client
    ensures Streamed(client.answers, events, broken, tries, raised)
    ensures client.sent == Wire(events, tries)
  {
    var sequence := 1;
    var running := Message("status", Some(map["status" := Text("running")]), sequence);
    raised, tries := PostNext(client, running, events, []);
    var next := 0;
    while next < |events| && !raised
      invariant next <= |events| && sequence == next + 1 == |tries|
      invariant client.sent == Wire(events, tries)
      invariant TriedInTurn(client.answers, tries, raised)
    {
      sequence := sequence + 1;
      raised, tries := PostNext(client, events[next].(sequence := sequence), events, tries);
      next := next + 1;
    }
    if !raised {
      raised := broken;
    }
  }

  /** The next event's tries come after all earlier ones. */
  lemma TakesTurn(answers: nat -> Outcome, events: seq<Message>, tries: seq<nat>, n: nat, raised: bool)
    requires |tries| <= |events| && TriedInTurn(answers, tries, false)
    requires Tried(answers, Total(tries), n) && (raised <==> answers(Total(tries) + n - 1).OtherError?)
    ensures TriedInTurn(answers, tries + [n], raised)
    ensures Wire(events, tries + [n]) == Wire(events, tries) + Copies(Numbered(events, |tries|), n)
  {
  }

  // ---------------------------------------------------------------- what is on the wire

  /** The retry rule, told by its outcomes: at most five POSTs, each but the last met no connection or an answer of 500
      or more, and the last met something else or was the fifth. */
  lemma TriedIff(answers: nat -> Outcome, from: nat, n: nat)
    ensures Tried(answers, from, n) <==>
            && 1 <= n <= 5
            && (forall k: nat | from <= k < from + n - 1 ::
                  answers(k) == NoConnection || (answers(k).Answered? && answers(k).status >= 500))
            && (n == 5 || answers(from + n - 1) == OtherError
                || (answers(from + n - 1).Answered? && answers(from + n - 1).status < 500))
  {
  }

  /** The outcomes leave no choice: of two ways to have tried events in turn, one continues the other. */
  lemma {:induction false} TurnsAreDetermined(answers: nat -> Outcome, tries: seq<nat>, raised: bool,
                                              others: seq<nat>, othersRaised: bool)
    requires TriedInTurn(answers, tries, raised) && TriedInTurn(answers, others, othersRaised)
    requires |tries| <= |others|
    ensures tries <= others
    ensures |tries| == |others| ==> raised == othersRaised
    ensures |tries| < |others| ==> !raised
    decreases |others|
  {
    if tries == [] {
    } else if |tries| < |others| {
      TurnsAreDetermined(answers, tries, raised, others[..|others| - 1], false);
    } else {
      var k := |tries| - 1;
      TurnsAreDetermined(answers, tries[..k], false, others[..k], false);
      assert tries[..k] == others[..k];
      SameTries(answers, Total(tries[..k]), tries[k], others[k]);
    }
  }

  lemma SameTries(answers: nat -> Outcome, from: nat, m: nat, n: nat)
    requires Tried(answers, from, m) && Tried(answers, from, n)
    ensures m == n
  {
  }

  /** A stream posts its events in order, each numbered by its place, and nothing else. */
  lemma {:induction false} WireIsOrdered(events: seq<Message>, tries: seq<nat>, p: nat, q: nat)
    requires |tries| <= |events| + 1 && p <= q < |Wire(events, tries)|
    ensures var wire := Wire(events, tries);
            && 1 <= wire[p].sequence <= wire[q].sequence <= |tries|
            && wire[p] == Numbered(events, wire[p].sequence - 1)
            && wire[q] == Numbered(events, wire[q].sequence - 1)
    decreases tries
  {
    var before := tries[..|tries| - 1];
    var length := |Wire(events, before)|;
    if q < length {
      WireIsOrdered(events, before, p, q);
    } else if p < length {
      WireIsOrdered(events, before, p, p);
    }
  }

  /** Each POST of a stream is its own `running` event under number 1, or an event of the executor as it was emitted,
      under the number after its place. */
  lemma WireCarriesEvents(events: seq<Message>, tries: seq<nat>, p: nat)
    requires |tries| <= |events| + 1 && p < |Wire(events, tries)|
    ensures var message := Wire(events, tries)[p];
            && 1 <= message.sequence <= |events| + 1
            && if message.sequence == 1 then
                 message.kind == "status" && message.data == Some(map["status" := Text("running")])
               else
                 var emitted := events[message.sequence - 2];
                 message.kind == emitted.kind && message.data == emitted.data
  {
    WireIsOrdered(events, tries, p, p);
  }

  /** The POSTs of one event are a block as long as its tries, right after those of the earlier events. */
  lemma {:induction false} WireHasBlocks(events: seq<Message>, tries: seq<nat>, k: nat, p: nat)
    requires |tries| <= |events| + 1 && k < |tries| && p < Total(tries)
    ensures Wire(events, tries)[p] == Numbered(events, k) <==> Total(tries[..k]) <= p < Total(tries[..k]) + tries[k]
  {
    var last := |tries| - 1;
    var before := tries[..last];
    assert Numbered(events, k).sequence == k + 1 && Numbered(events, last).sequence == last + 1;
    if p < Total(before) {
      if k < last {
        WireHasBlocks(events, before, k, p);
        assert before[..k] == tries[..k];
      } else {
        WireIsOrdered(events, before, p, p);
      }
    } else if k < last {
      TotalGrows(before, k);
      assert before[..k] == tries[..k];
    }
  }

  lemma {:induction false} TotalGrows(tries: seq<nat>, k: nat)
    requires k < |tries|
    ensures Total(tries[..k]) + tries[k] <= Total(tries)
  {
    var before := tries[..|tries| - 1];
    if k < |before| {
      TotalGrows(before, k);
      assert before[..k] == tries[..k];
    }
  }

  // ---------------------------------------------------------------- what the server records

  /** Some calls of a history are POSTs of one stream reaching the server: `arrivals` tells which POST each is.
      POSTs may be lost, late, repeated or out of order, and calls of any other origin may come between. */
  ghost predicate Arrived(history: seq<Request>, task: TaskId, sent: seq<Message>, arrivals: map<nat, nat>) {
    forall i | i in arrivals ::
      && i < |history| && arrivals[i] < |sent|
      && history[i].call.SidecarEvent? && history[i].call.task == task
      && history[i].call.kind == sent[arrivals[i]].kind
      && Some(history[i].call.data) == sent[arrivals[i]].data
      && history[i].call.sequence == sent[arrivals[i]].sequence
  }

  /** A log entry that holds the stream's event of its number. */
  ghost predicate Holds(entry: TaskEvent, events: seq<Message>) {
    && 1 <= entry.sequence <= |events| + 1
    && Message(entry.kind, Some(entry.data), entry.sequence) == Numbered(events, entry.sequence - 1)
  }

  /** A POST that arrived is one of the stream's events, under that event's number. */
  lemma ArrivalIsNumbered(history: seq<Request>, task: TaskId, events: seq<Message>, tries: seq<nat>,
                          arrivals: map<nat, nat>, i: nat)
    requires |tries| <= |events| + 1 && Arrived(history, task, Wire(events, tries), arrivals) && i in arrivals
    ensures i < |history| && history[i].call.SidecarEvent? && history[i].call.task == task
    ensures Holds(EntryOf(history[i]), events)
  {
    WireIsOrdered(events, tries, arrivals[i], arrivals[i]);
  }

  /** Two accepted POSTs to one task are in the log in the order they were accepted, with increasing numbers. */
  lemma AcceptedPostsKeepOrder(settings: Settings, history: seq<Request>, i: nat, j: nat)
    requires Timely(history) && i < j < |history|
    requires history[i].call.SidecarEvent? && history[j].call.SidecarEvent?
    requires history[i].call.task == history[j].call.task
    requires DecisionAt(settings, history, i).reply.Done? && DecisionAt(settings, history, j).reply.Done?
    ensures var task := history[i].call.task;
            var log := LogOf(StoreBefore(settings, history, |history|), task);
            var a, b := PlaceOf(settings, history, i, task), PlaceOf(settings, history, j, task);
            && a < b < |log| && log[a] == EntryOf(history[i]) && log[b] == EntryOf(history[j])
            && log[a].sequence < log[b].sequence
  {
    AcceptedPostsIncrease(settings, history, i, j);
    AcceptedPostStays(settings, history, i, j);
    AcceptedPostStays(settings, history, i, |history|);
    AcceptedPostStays(settings, history, j, |history|);
  }

  /** Whatever the channel does, the log holds each event of a stream at most once and in generation order: of
      two accepted POSTs the later is of a later event, and further on in the log. */
  lemma RecordedOnceInOrder(settings: Settings, history: seq<Request>, task: TaskId, events: seq<Message>,
                            tries: seq<nat>,
                            arrivals: map<nat, nat>, i: nat, j: nat)
    requires Timely(history) && |tries| <= |events| + 1 && Arrived(history, task, Wire(events, tries), arrivals)
    requires i in arrivals && j in arrivals && i < j
    requires DecisionAt(settings, history, i).reply.Done? && DecisionAt(settings, history, j).reply.Done?
    ensures var log := LogOf(StoreBefore(settings, history, |history|), task);
            var a, b := PlaceOf(settings, history, i, task), PlaceOf(settings, history, j, task);
            && a < b < |log|
            && Holds(log[a], events) && Holds(log[b], events) && log[a].sequence < log[b].sequence
  {
    ArrivalIsNumbered(history, task, events, tries, arrivals, i);
    ArrivalIsNumbered(history, task, events, tries, arrivals, j);
    AcceptedPostsKeepOrder(settings, history, i, j);
  }

  /** A post numbered no higher than the log is refused. */
  lemma StalePostIsRefused(settings: Settings, store: Store, request: Request)
    requires request.call.SidecarEvent? && request.call.sequence <= MaxSequence(LogOf(store, request.call.task))
    ensures Decide(settings, store, request).reply.Raised?
  {
  }

  /** The streamer's own `running` event is never recorded: `created` holds number 1 already. */
  lemma FirstPostIsRefused(settings: Settings, history: seq<Request>, i: nat)
    requires Timely(history) && i < |history|
    requires history[i].call.SidecarEvent? && history[i].call.sequence <= 1
    ensures DecisionAt(settings, history, i).reply.Raised?
  {
    var store, id := StoreBefore(settings, history, i), history[i].call.task;
    CallLawful(settings, history, i);
    if id in store.tasks {
      LegalMax(LogOf(store, id));
      StalePostIsRefused(settings, store, history[i]);
    }
  }

  lemma CallersStartNothing(settings: Settings, store: Store, request: Request)
    requires !request.call.SidecarEvent?
    ensures var effect := Decide(settings, store, request).effect;
            && (effect.Insert? ==> effect.task.startedAt.None?)
            && (effect.Update? || effect.Fork? ==>
                  effect.id in store.tasks && effect.task.startedAt == store.tasks[effect.id].startedAt)
            && (effect.Fork? ==> effect.child.startedAt.None?)
  {
  }

  /** The only call that starts a task is an accepted post of a `running` status. */
  lemma OnlyRunningStarts(settings: Settings, store: Store, request: Request, id: TaskId)
    requires id in Serve(settings, store, request).tasks && Serve(settings, store, request).tasks[id].startedAt.Some?
    requires id in store.tasks ==> store.tasks[id].startedAt.None?
    ensures request.call.SidecarEvent? && request.call.task == id && request.call.kind == "status"
    ensures StatusIn(Get(request.call.data, "status")) == Some(Running)
    ensures Decide(settings, store, request).reply.Done?
  {
    if request.call.SidecarEvent? {
      assert Decide(settings, store, request) == DecideSidecar(store, request.call, request.at);
    } else {
      CallersStartNothing(settings, store, request);
    }
  }

  /** A task that has started was started by a `running` event that was given to a stream call: the one that
      each call posts of its own accord, numbered 1, never starts a task. */
  lemma {:induction false} GivenEventStarts(settings: Settings, history: seq<Request>, id: TaskId) returns (i: nat)
    requires Timely(history)
    requires id in StoreAfter(settings, history).tasks && StoreAfter(settings, history).tasks[id].startedAt.Some?
    ensures i < |history| && history[i].call.SidecarEvent? && history[i].call.task == id
    ensures history[i].call.kind == "status" && StatusIn(Get(history[i].call.data, "status")) == Some(Running)
    ensures history[i].call.sequence > 1 && DecisionAt(settings, history, i).reply.Done?
  {
    var n := |history| - 1;
    var before := history[..n];
    var store := StoreAfter(settings, before);
    if id in store.tasks && store.tasks[id].startedAt.Some? {
      i := GivenEventStarts(settings, before, id);
      assert history[..i] == before[..i];
    } else {
      i := n;
      OnlyRunningStarts(settings, store, history[n], id);
      if history[n].call.sequence <= 1 {
        FirstPostIsRefused(settings, history, n);
      }
    }
  }

  /** The i-th call is an accepted `running` post that a stream was given, not the one it makes of its own accord. */
  ghost predicate StartsAt(settings: Settings, history: seq<Request>, i: nat, id: TaskId) {
    && i < |history| && history[i].call.SidecarEvent? && history[i].call.task == id
    && history[i].call.kind == "status" && StatusIn(Get(history[i].call.data, "status")) == Some(Running)
    && history[i].call.sequence > 1 && DecisionAt(settings, history, i).reply.Done?
  }

  lemma RunningPostStarts(settings: Settings, store: Store, request: Request)
    requires request.call.SidecarEvent? && request.call.kind == "status"
    requires StatusIn(Get(request.call.data, "status")) == Some(Running)
    requires Decide(settings, store, request).reply.Done?
    ensures var id, after := request.call.task, Serve(settings, store, request);
            id in after.tasks && after.tasks[id].startedAt.Some?
  {
  }

  /** A task has started exactly if such a post was accepted. */
  lemma StartedIffGivenRunning(settings: Settings, history: seq<Request>, id: TaskId)
    requires Timely(history) && id in StoreAfter(settings, history).tasks
    ensures StoreAfter(settings, history).tasks[id].startedAt.Some?
            <==> exists i: nat :: StartsAt(settings, history, i, id)
  {
    if StoreAfter(settings, history).tasks[id].startedAt.Some? {
      var i := GivenEventStarts(settings, history, id);
      assert StartsAt(settings, history, i, id);
    }
    if i: nat :| StartsAt(settings, history, i, id) {
      StaysStarted(settings, history, i, id);
    }
  }

  lemma StaysStarted(settings: Settings, history: seq<Request>, i: nat, id: TaskId)
    requires Timely(history) && StartsAt(settings, history, i, id)
    ensures id in StoreAfter(settings, history).tasks && StoreAfter(settings, history).tasks[id].startedAt.Some?
  {
    CallLawful(settings, history, i);
    RunningPostStarts(settings, StoreBefore(settings, history, i), history[i]);
    HistoryEvolves(settings, history, i + 1, |history|);
    assert history[..|history|] == history;
  }

  /** So a task whose posts are all of streams given no status event never runs, pauses or completes. */
  lemma WithoutStatusNeverRuns(settings: Settings, history: seq<Request>, id: TaskId)
    requires Timely(history) && history != [] && id in StoreAfter(settings, history).tasks
    requires forall i | 0 <= i < |history| && history[i].call.SidecarEvent? && history[i].call.task == id ::
               history[i].call.kind == "status" ==> history[i].call.sequence == 1
    ensures StoreAfter(settings, history).tasks[id].startedAt.None?
    ensures StoreAfter(settings, history).tasks[id].status in {Accepted, Failed, Cancelled, Retasked}
  {
    if StoreAfter(settings, history).tasks[id].startedAt.Some? {
      var i := GivenEventStarts(settings, history, id);
    }
    ReachableValid(settings, history);
    UnstartedStatus(StoreAfter(settings, history).tasks[id], Now(history));
  }

  lemma UnstartedStatus(task: Task, now: Time)
    requires Timed(task, now) && task.startedAt.None?
    ensures task.status in {Accepted, Failed, Cancelled, Retasked}
  {
    assert !task.status.Running? && !task.status.Paused? && !task.status.Completed? && !task.status.Redirected?;
  }

  /** The acknowledgement of a control signal is a stream of one status event, so it is numbered 2. It is recorded
      exactly if the executor posts it while the log holds nothing but `created`, and the status can follow
      `accepted`: an acknowledged pause or redirect never is. */
  lemma AcknowledgementIsRecordedIff(settings: Settings, history: seq<Request>, i: nat)
    requires Timely(history) && i < |history|
    requires history[i].call.SidecarEvent? && history[i].call.kind == "status" && history[i].call.sequence == 2
    ensures var store, call := StoreBefore(settings, history, i), history[i].call;
            DecisionAt(settings, history, i).reply.Done? <==>
              && call.task in store.tasks && store.tasks[call.task].spec.executor == call.agent
              && |LogOf(store, call.task)| == 1
              && StatusIn(Get(call.data, "status")) in {Some(Running), Some(Cancelled), Some(Failed)}
  {
    CallLawful(settings, history, i);
    SecondPostIff(StoreBefore(settings, history, i), history[i].call, history[i].at);
  }

  lemma SecondPostIff(store: Store, call: Call, at: Moment)
    requires LogsTellStatus(store) && call.SidecarEvent? && call.kind == "status" && call.sequence == 2
    ensures DecideSidecar(store, call, at).reply.Done? <==>
              && call.task in store.tasks && store.tasks[call.task].spec.executor == call.agent
              && |LogOf(store, call.task)| == 1
              && StatusIn(Get(call.data, "status")) in {Some(Running), Some(Cancelled), Some(Failed)}
  {
    var id := call.task;
    PostOutcome(store, call, at);
    if id in store.tasks {
      OpeningLog(store.logs[id]);
      LegalMax(store.logs[id]);
      AllBelow(store.logs[id], 2);
      if |store.logs[id]| == 1 {
        OpeningTellsAccepted(store.logs[id]);
      }
      NamedState(Get(call.data, "status"));
    }
  }

  /** A legal log is numbered above 1 unless it is the opening one. */
  lemma OpeningLog(log: seq<TaskEvent>)
    requires Legal(log)
    ensures |log| == 1 <==> log[|log| - 1].sequence < 2
  {
    if |log| > 1 {
      LegalIncreases(log, 0, |log| - 1);
    }
  }

  lemma OpeningTellsAccepted(log: seq<TaskEvent>)
    requires Legal(log) && |log| == 1
    ensures Replay(log) == Some(Accepted)
  {
  }
}
