/** The task poller: which of the polled tasks a round starts. */
module Dispatcher {
  import opened TaskRecords
  import opened Signals

  /** The ids a round starts: each new id in turn while there is room. */
  function Admitted(inFlight: set<TaskId>, ids: seq<TaskId>, limit: int): seq<TaskId>
    decreases |ids|
  {
    if ids == [] then []
    else if ids[0] in inFlight then Admitted(inFlight, ids[1..], limit)
    else if |inFlight| >= limit then []
    else [ids[0]] + Admitted(inFlight + {ids[0]}, ids[1..], limit)
  }

  function RegisteredAll(s: State, ids: seq<TaskId>): State
    decreases |ids|
  {
    if ids == [] then s else RegisteredAll(Registered(s, ids[0]), ids[1..])
  }

  /** The ids not in flight, in order, each once. */
  function NewIds(inFlight: set<TaskId>, ids: seq<TaskId>): seq<TaskId>
    decreases |ids|
  {
    if ids == [] then []
    else if ids[0] in inFlight then NewIds(inFlight, ids[1..])
    else [ids[0]] + NewIds(inFlight + {ids[0]}, ids[1..])
  }

  function Min(a: int, b: int): int {
    if a < b then a else b
  }

  /** How many more tasks fit. */
  function Room(inFlight: set<TaskId>, limit: int): nat {
    if |inFlight| < limit then limit - |inFlight| else 0
  }

  ghost function ToSet(ids: seq<TaskId>): set<TaskId> {
    set id | id in ids
  }

  /** A round starts exactly the first new ids, in the server's order, that fit. */
  lemma {:induction false} AdmitsFirstThatFit(inFlight: set<TaskId>, ids: seq<TaskId>, limit: int)
    ensures var unstarted := NewIds(inFlight, ids);
            Admitted(inFlight, ids, limit) == unstarted[..Min(|unstarted|, Room(inFlight, limit))]
    decreases |ids|
  {
    if ids != [] {
      if ids[0] in inFlight {
        AdmitsFirstThatFit(inFlight, ids[1..], limit);
      } else if |inFlight| < limit {
        AdmitsFirstThatFit(inFlight + {ids[0]}, ids[1..], limit);
        var rest := NewIds(inFlight + {ids[0]}, ids[1..]);
        var k := Min(|rest|, Room(inFlight + {ids[0]}, limit));
        assert ([ids[0]] + rest)[..k + 1] == [ids[0]] + rest[..k];
      }
    }
  }

  /** The new ids are those polled and not in flight, each once. */
  lemma {:induction false} NewIdsAreNew(inFlight: set<TaskId>, ids: seq<TaskId>)
    ensures forall id :: id in NewIds(inFlight, ids) <==> id in ids && id !in inFlight
    ensures forall i, j | 0 <= i < j < |NewIds(inFlight, ids)| :: NewIds(inFlight, ids)[i] != NewIds(inFlight, ids)[j]
    decreases |ids|
  {
    if ids != [] {
      assert forall id :: id in ids <==> id == ids[0] || id in ids[1..];
      NewIdsAreNew(inFlight, ids[1..]);
      NewIdsAreNew(inFlight + {ids[0]}, ids[1..]);
    }
  }

  /** They come in the order in which the server first lists them. */
  lemma {:induction false} NewIdsInOrder(inFlight: set<TaskId>, ids: seq<TaskId>, i: nat, j: nat) returns (p: nat)
    requires i < j < |NewIds(inFlight, ids)|
    ensures p < |ids| && ids[p] == NewIds(inFlight, ids)[i] && NewIds(inFlight, ids)[j] !in ids[..p + 1]
    decreases |ids|
  {
    if ids[0] in inFlight {
      p := NewIdsInOrder(inFlight, ids[1..], i, j);
      NewIdsAreNew(inFlight, ids[1..]);
      assert ids[..p + 2] == [ids[0]] + ids[1..][..p + 1];
      p := p + 1;
    } else {
      var more := inFlight + {ids[0]};
      NewIdsAreNew(more, ids[1..]);
      if i == 0 {
        p := 0;
      } else {
        p := NewIdsInOrder(more, ids[1..], i - 1, j - 1);
        assert ids[..p + 2] == [ids[0]] + ids[1..][..p + 1];
        p := p + 1;
      }
    }
  }

  lemma ToSetCons(id: TaskId, rest: seq<TaskId>)
    ensures ToSet([id] + rest) == {id} + ToSet(rest)
  {
  }

  /** What a round starts is new and was polled. */
  lemma {:induction false} RoundStartsNew(inFlight: set<TaskId>, ids: seq<TaskId>, limit: int)
    ensures forall id | id in Admitted(inFlight, ids, limit) :: id in ids && id !in inFlight
    decreases |ids|
  {
    if ids != [] {
      if ids[0] in inFlight {
        RoundStartsNew(inFlight, ids[1..], limit);
      } else if |inFlight| < limit {
        RoundStartsNew(inFlight + {ids[0]}, ids[1..], limit);
      }
    }
  }

  /** Nothing is started twice, and what is started fits. */
  lemma {:induction false} RoundFits(inFlight: set<TaskId>, ids: seq<TaskId>, limit: int)
    ensures var started := Admitted(inFlight, ids, limit);
            && |inFlight + ToSet(started)| == |inFlight| + |started|
            && (started == [] || |inFlight| + |started| <= limit)
    decreases |ids|
  {
    var started := Admitted(inFlight, ids, limit);
    if started == [] {
      assert inFlight + ToSet(started) == inFlight;
    } else if ids[0] in inFlight {
      RoundFits(inFlight, ids[1..], limit);
    } else {
      var more := inFlight + {ids[0]};
      var rest := Admitted(more, ids[1..], limit);
      RoundFits(more, ids[1..], limit);
      ToSetCons(ids[0], rest);
      assert inFlight + ToSet(started) == more + ToSet(rest);
    }
  }

  /** After a round either all slots are taken, or every polled task is in flight. */
  lemma {:induction false} RoundFills(inFlight: set<TaskId>, ids: seq<TaskId>, limit: int)
    ensures var after := inFlight + ToSet(Admitted(inFlight, ids, limit));
            |after| >= limit || forall id | id in ids :: id in after
    decreases |ids|
  {
    var started := Admitted(inFlight, ids, limit);
    if ids != [] {
      if ids[0] in inFlight {
        RoundFills(inFlight, ids[1..], limit);
      } else if |inFlight| >= limit {
        assert inFlight + ToSet(started) == inFlight;
      } else {
        var more := inFlight + {ids[0]};
        RoundFills(more, ids[1..], limit);
        ToSetCons(ids[0], Admitted(more, ids[1..], limit));
        assert inFlight + ToSet(started) == more + ToSet(Admitted(more, ids[1..], limit));
      }
    }
  }

  // ---------------------------------------------------------------- the poller

  class TaskPoller {
    const maxConcurrent: int
    const signals: SignalPoller
    var inFlight: set<TaskId>

    constructor (maxConcurrent: int, signals: SignalPoller)
      ensures inFlight == {} && this.maxConcurrent == maxConcurrent && this.signals == signals
    {
      this.maxConcurrent, this.signals := maxConcurrent, signals;
      inFlight := {};
    }

    /** Takes a slot and registers the task, before its dispatch is created. */
    method Claim(task: TaskId)
      modifies this`inFlight, signals
      ensures inFlight == old(inFlight) + {task}
      ensures signals.View() == Registered(old(signals.View()), task)
    {
      inFlight := inFlight + {task};
      signals.RegisterTask(task);
    }

    /** One polled list: starts new tasks in the server's order until the limit is reached. */
    method PollRound(tasks: seq<TaskId>) returns (started: seq<TaskId>)
      modifies this`inFlight, signals
      ensures started == Admitted(old(inFlight), tasks, maxConcurrent)
      ensures inFlight == old(inFlight) + ToSet(started)
      ensures signals.View() == RegisteredAll(old(signals.View()), started)
    {
      started := [];
      ghost var before, flying, all := signals.View(), inFlight, Admitted(inFlight, tasks, maxConcurrent);
      var i := 0;
      while i < |tasks|
        invariant 0 <= i <= |tasks|
        invariant all == started + Admitted(inFlight, tasks[i..], maxConcurrent)
        invariant inFlight == flying + ToSet(started)
        invariant signals.View() == RegisteredAll(before, started)
      {
        var id := tasks[i];
        AdmittedOne(inFlight, tasks, i, maxConcurrent, started);
        i := i + 1;
        if id in inFlight {
          continue;
        }
        if |inFlight| >= maxConcurrent {
          return;
        }
        Claim(id);
        RegisteredOneMore(before, started, id);
        ToSetSnoc(started, id);
        started := started + [id];
      }
      assert started + [] == started;
    }

    /** The end of a dispatch, however it ends. */
    method Release(task: TaskId)
      modifies this, signals
      ensures inFlight == old(inFlight) - {task}
      ensures signals.View() == Unregistered(old(signals.View()), task)
    {
      signals.UnregisterTask(task);
      inFlight := inFlight - {task};
    }
  }

  lemma ToSetSnoc(ids: seq<TaskId>, id: TaskId)
    ensures ToSet(ids + [id]) == ToSet(ids) + {id}
  {
  }

  /** What one polled task contributes to a round. */
  lemma AdmittedOne(inFlight: set<TaskId>, tasks: seq<TaskId>, i: nat, limit: int, started: seq<TaskId>)
    requires i < |tasks|
    ensures var id, left := tasks[i], started + Admitted(inFlight, tasks[i..], limit);
            if id in inFlight then left == started + Admitted(inFlight, tasks[i + 1..], limit)
            else if |inFlight| >= limit then left == started
            else left == (started + [id]) + Admitted(inFlight + {id}, tasks[i + 1..], limit)
  {
  }

  lemma {:induction false} RegisteredOneMore(s: State, ids: seq<TaskId>, id: TaskId)
    ensures RegisteredAll(s, ids + [id]) == Registered(RegisteredAll(s, ids), id)
    decreases |ids|
  {
    if ids != [] {
      RegisteredOneMore(Registered(s, ids[0]), ids[1..], id);
      assert (ids + [id])[1..] == ids[1..] + [id];
    }
  }
}
