/** The numbering of context injections: exactly when it increases, and two runs in which it does not. */
module ContextOrder {
  import opened Options
  import opened TaskRecords
  import opened TaskDecisions
  import opened TaskInvariants
  import opened TaskHistory
  import Wire = EventWire

  /** The injections of a log were created one after the other, by `now`, under increasing numbers. */
  ghost predicate ContextsOrdered(log: seq<TaskEvent>, now: Time) {
    && (forall i: nat | IsContext(log, i) :: log[i].createdAt <= now && ContextNumber(log[i]).Some?)
    && forall i: nat, j: nat | i < j && IsContext(log, i) && IsContext(log, j) ::
         log[i].createdAt < log[j].createdAt && ContextNumber(log[i]).value < ContextNumber(log[j]).value
  }

  /** No two injections of a log were created at the same reading of the clock. */
  ghost predicate ContextsDistinct(log: seq<TaskEvent>) {
    forall i: nat, j: nat | i < j && IsContext(log, i) && IsContext(log, j) :: log[i].createdAt != log[j].createdAt
  }

  /** A number above those of all injections in a log. */
  ghost predicate AboveAll(log: seq<TaskEvent>, number: Option<int>) {
    && number.Some?
    && forall k: nat | IsContext(log, k) && ContextNumber(log[k]).Some? :: ContextNumber(log[k]).value < number.value
  }

  /** The i-th call is an injection that the executor posts and the server accepts. */
  ghost predicate ExecutorInjects(settings: Settings, history: seq<Request>, i: nat, id: TaskId) {
    && i < |history| && history[i].call.SidecarEvent? && history[i].call.task == id
    && history[i].call.kind == "context_injected" && DecisionAt(settings, history, i).reply.Done?
  }

  /** Whatever the executor injects carries a number above those of all earlier injections. */
  ghost predicate ExecutorNumbersAbove(settings: Settings, history: seq<Request>, id: TaskId) {
    forall i: nat | ExecutorInjects(settings, history, i, id) ::
      AboveAll(LogOf(StoreBefore(settings, history, i), id), ContextNumber(EntryOf(history[i])))
  }

  // ---------------------------------------------------------------- numbers as text

  lemma {:induction false} DigitsRead(n: nat)
    ensures Wire.Digits(n) != "" && ReadDigits(Wire.Digits(n)) == Some(n)
    ensures forall c | c in Wire.Digits(n) :: '0' <= c <= '9'
  {
    Wire.DigitsAreDigits(n);
    assert forall d | 0 <= d < 10 :: Wire.DIGITS[d] as int == '0' as int + d;
    if n >= 10 {
      DigitsRead(n / 10);
      var front := Wire.Digits(n / 10);
      assert (front + [Wire.DIGITS[n % 10]])[..|front|] == front;
      assert front[|front| - 1] in front;
    }
  }

  /** A number given as decimal text is that number. */
  lemma DecimalIsInt(n: int)
    ensures IntOf(Text(Wire.Decimal(n))) == Some(n)
  {
    var text := Wire.Decimal(n);
    DigitsRead(if n < 0 then -n else n);
    Wire.DecimalReadsBack(n);
    assert text[0] in text && text[|text| - 1] in text;
    if n < 0 {
      assert text[1..] == Wire.Digits(-n);
    }
  }

  // ---------------------------------------------------------------- the newest injection

  /** A log with injections has a newest one. */
  lemma {:induction false} NewestExists(log: seq<TaskEvent>, k: nat) returns (newest: nat)
    requires IsContext(log, k)
    ensures IsNewestContext(log, newest)
    decreases LatestAfter(log, k)
  {
    if j: nat :| j < |log| && IsContext(log, j) && log[j].createdAt > log[k].createdAt {
      LaterIsFewer(log, k, j);
      newest := NewestExists(log, j);
    } else {
      newest := k;
    }
  }

  /** How many events of a log were created after a given one. */
  ghost function LatestAfter(log: seq<TaskEvent>, k: nat): nat
    requires k < |log|
  {
    |set j: nat | j < |log| && log[j].createdAt > log[k].createdAt|
  }

  lemma LaterIsFewer(log: seq<TaskEvent>, k: nat, j: nat)
    requires k < |log| && j < |log| && log[j].createdAt > log[k].createdAt
    ensures LatestAfter(log, j) < LatestAfter(log, k)
  {
    var fewer := set i: nat | i < |log| && log[i].createdAt > log[j].createdAt;
    var more := set i: nat | i < |log| && log[i].createdAt > log[k].createdAt;
    assert fewer <= more && j in more && j !in fewer;
    assert fewer <= more - {j};
    SubsetIsSmaller(fewer, more - {j});
  }

  lemma {:induction false} SubsetIsSmaller(a: set<nat>, b: set<nat>)
    requires a <= b
    ensures |a| <= |b|
  {
    assert b == a + (b - a);
  }

  /** The last number is that of a newest injection, whichever the query picks. */
  lemma LastIsOfNewest(log: seq<TaskEvent>, pick: nat, k: nat) returns (newest: nat)
    requires IsContext(log, k)
    ensures IsNewestContext(log, newest) && LastContextNumber(log, pick) == ContextNumber(log[newest])
  {
    if IsNewestContext(log, pick) {
      newest := pick;
    } else {
      newest := NewestExists(log, k);
      newest := LastNewest(log, |log|, newest);
    }
  }

  lemma {:induction false} LastNewest(log: seq<TaskEvent>, upTo: nat, k: nat) returns (newest: nat)
    requires k < upTo <= |log| && IsNewestContext(log, k)
    ensures IsNewestContext(log, newest) && NewestContextNumber(log, upTo) == ContextNumber(log[newest])
  {
    if IsNewestContext(log, upTo - 1) {
      newest := upTo - 1;
    } else {
      newest := LastNewest(log, upTo - 1, k);
    }
  }

  /** While the numbering is in order, the number compared with is the highest. */
  lemma LastIsHighest(log: seq<TaskEvent>, now: Time, pick: nat, number: int)
    requires ContextsOrdered(log, now)
    requires LastContextNumber(log, pick).Some? && LastContextNumber(log, pick).value < number
    ensures AboveAll(log, Some(number))
  {
    forall k: nat | IsContext(log, k)
      ensures ContextNumber(log[k]).value < number
    {
      var newest := LastIsOfNewest(log, pick, k);
      assert log[k].createdAt <= log[newest].createdAt;
    }
  }

  // ---------------------------------------------------------------- one call

  /** The event an effect appends to a task's log. */
  function EventFor(effect: Effect, id: TaskId): Option<TaskEvent> {
    match effect
    case Nothing => None
    case Insert(x, _, event) => if x == id then Some(event) else None
    case Update(x, _, event) => if x == id then Some(event) else None
    case Fork(x, _, event, y, _, childEvent) =>
      if y == id then Some(childEvent) else if x == id then Some(event) else None
  }

  lemma CommitAppends(settings: Settings, store: Store, effect: Effect, id: TaskId, now: Time)
    requires Lawful(settings, store, effect, now)
    ensures LogOf(Commit(store, effect), id) ==
              if EventFor(effect, id).Some? then LogOf(store, id) + [EventFor(effect, id).value] else LogOf(store, id)
  {
  }

  /** An injection is appended by a caller's accepted `inject_context`, numbered above the last, or by the
      executor's accepted post. */
  lemma InjectionHasItsCall(settings: Settings, store: Store, request: Request, id: TaskId)
    requires var event := EventFor(Decide(settings, store, request).effect, id);
             event.Some? && event.value.kind == "context_injected"
    ensures var event := EventFor(Decide(settings, store, request).effect, id).value;
            var last := LastContextNumber(LogOf(store, id), request.at.pick);
            && Decide(settings, store, request).reply.Done?
            && event.createdAt == request.at.first
            && if request.call.InjectContext? then
                 && ContextNumber(event) == Some(request.call.contextSequence)
                 && last.Some? && last.value < request.call.contextSequence
               else
                 && request.call.SidecarEvent? && request.call.task == id && request.call.kind == "context_injected"
                 && event == EntryOf(request)
  {
  }

  /** Appending an event keeps the order, an injection if it is newer and numbered above all. */
  lemma AppendKeepsOrder(log: seq<TaskEvent>, event: TaskEvent, now: Time, until: Time)
    requires ContextsOrdered(log, now) && now <= until && ContextsDistinct(log + [event])
    requires event.kind == "context_injected" ==> now <= event.createdAt <= until && AboveAll(log, ContextNumber(event))
    ensures ContextsOrdered(log + [event], until)
  {
    var longer := log + [event];
    forall i: nat, j: nat | i < j && IsContext(longer, i) && IsContext(longer, j)
      ensures log[i].createdAt < longer[j].createdAt && ContextNumber(log[i]).Some?
      ensures ContextNumber(longer[j]).Some? && ContextNumber(log[i]).value < ContextNumber(longer[j]).value
    {
      assert IsContext(log, i);
      if j < |log| {
        assert IsContext(log, j);
      }
    }
    forall i: nat | IsContext(longer, i)
      ensures longer[i].createdAt <= until && ContextNumber(longer[i]).Some?
    {
      if i < |log| {
        assert IsContext(log, i);
      }
    }
  }

  lemma PrefixDistinct(log: seq<TaskEvent>, longer: seq<TaskEvent>)
    requires log <= longer && ContextsDistinct(longer)
    ensures ContextsDistinct(log)
  {
  }

  /** A call keeps the order if, when it is the executor's injection, its number is above all. */
  lemma CallKeepsOrder(settings: Settings, store: Store, request: Request, id: TaskId, now: Time)
    requires now <= request.at.first <= request.at.second
    requires Lawful(settings, store, Decide(settings, store, request).effect, request.at.second)
    requires ContextsOrdered(LogOf(store, id), now)
    requires ContextsDistinct(LogOf(Serve(settings, store, request), id))
    requires request.call.SidecarEvent? && request.call.task == id && request.call.kind == "context_injected"
             && Decide(settings, store, request).reply.Done? ==>
               AboveAll(LogOf(store, id), ContextNumber(EntryOf(request)))
    ensures ContextsOrdered(LogOf(Serve(settings, store, request), id), request.at.second)
  {
    var effect := Decide(settings, store, request).effect;
    CommitAppends(settings, store, effect, id, request.at.second);
    if EventFor(effect, id).Some? {
      var event := EventFor(effect, id).value;
      if event.kind == "context_injected" {
        InjectionHasItsCall(settings, store, request, id);
        if request.call.InjectContext? {
          LastIsHighest(LogOf(store, id), now, request.at.pick, request.call.contextSequence);
        }
      }
      AppendKeepsOrder(LogOf(store, id), event, now, request.at.second);
    }
  }

  // ---------------------------------------------------------------- whole runs

  lemma {:induction false} NumbersIncreaseIf(settings: Settings, history: seq<Request>, id: TaskId)
    requires Timely(history) && history != [] && ExecutorNumbersAbove(settings, history, id)
    requires ContextsDistinct(LogOf(StoreAfter(settings, history), id))
    ensures ContextsOrdered(LogOf(StoreAfter(settings, history), id), Now(history))
  {
    var n := |history| - 1;
    var before, last := history[..n], history[n];
    var store := StoreAfter(settings, before);
    var effect := Decide(settings, store, last).effect;
    CallLawful(settings, history, n);
    CommitAppends(settings, store, effect, id, last.at.second);
    PrefixDistinct(LogOf(store, id), LogOf(Serve(settings, store, last), id));
    var now := if before == [] then last.at.first else Now(before);
    if before != [] {
      PrefixNumbersAbove(settings, history, id);
      NumbersIncreaseIf(settings, before, id);
    }
    assert ExecutorInjects(settings, history, n, id) ==>
        AboveAll(LogOf(store, id), ContextNumber(EntryOf(last)));
    CallKeepsOrder(settings, store, last, id, now);
  }

  lemma PrefixNumbersAbove(settings: Settings, history: seq<Request>, id: TaskId)
    requires history != [] && ExecutorNumbersAbove(settings, history, id)
    ensures ExecutorNumbersAbove(settings, history[..|history| - 1], id)
  {
    var before := history[..|history| - 1];
    forall i: nat | ExecutorInjects(settings, before, i, id)
      ensures AboveAll(LogOf(StoreBefore(settings, before, i), id), ContextNumber(EntryOf(before[i])))
    {
      assert before[..i] == history[..i];
      assert ExecutorInjects(settings, history, i, id);
    }
  }

  /** An injection of the executor that is in an ordered log was numbered above all before it. */
  lemma OrderedNumbersAbove(settings: Settings, history: seq<Request>, id: TaskId, i: nat)
    requires Timely(history) && history != [] && ExecutorInjects(settings, history, i, id)
    requires ContextsOrdered(LogOf(StoreAfter(settings, history), id), Now(history))
    ensures AboveAll(LogOf(StoreBefore(settings, history, i), id), ContextNumber(EntryOf(history[i])))
  {
    AcceptedPostStays(settings, history, i, |history|);
    assert history[..|history|] == history;
    var log, early := LogOf(StoreAfter(settings, history), id), LogOf(StoreBefore(settings, history, i), id);
    EarlierLog(settings, history, i, id);
    assert IsContext(log, |early|);
    forall k: nat | IsContext(early, k)
      ensures ContextNumber(early[k]).value < ContextNumber(log[|early|]).value
    {
      assert early[k] == log[k] && IsContext(log, k);
    }
  }

  lemma EarlierLog(settings: Settings, history: seq<Request>, i: nat, id: TaskId)
    requires Timely(history) && i < |history| && history[i].call.SidecarEvent? && history[i].call.task == id
    requires DecisionAt(settings, history, i).reply.Done?
    ensures LogOf(StoreBefore(settings, history, i), id) <= LogOf(StoreAfter(settings, history), id)
  {
    assert history[..|history|] == history;
    AcceptedPostAppends(StoreBefore(settings, history, i), history[i].call, history[i].at);
    TaskPersists(settings, history, i, |history|, id);
  }

  /** The numbers of a task's injections strictly increase along its log exactly if whatever the executor injects
      is numbered above all earlier ones, given that no two were created at the same instant. */
  lemma ContextNumbersIncreaseIff(settings: Settings, history: seq<Request>, id: TaskId)
    requires Timely(history) && history != []
    requires ContextsDistinct(LogOf(StoreAfter(settings, history), id))
    ensures ContextsOrdered(LogOf(StoreAfter(settings, history), id), Now(history))
            <==> ExecutorNumbersAbove(settings, history, id)
  {
    if ExecutorNumbersAbove(settings, history, id) {
      NumbersIncreaseIf(settings, history, id);
    }
    if ContextsOrdered(LogOf(StoreAfter(settings, history), id), Now(history)) {
      forall i: nat | ExecutorInjects(settings, history, i, id)
        ensures AboveAll(LogOf(StoreBefore(settings, history, i), id), ContextNumber(EntryOf(history[i])))
      {
        OrderedNumbersAbove(settings, history, id, i);
      }
    }
  }
}
