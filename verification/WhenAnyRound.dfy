/**
 The loops of when_any as code over the shared fields. Producers run between any two atomic operations: they may finish
 any results and make one of them the winner. What is proved holds for all they may do.
 */
module WhenAnyRound {
  import Runs
  import opened Sequences
  import opened WhenAny

  /** m_status only ever moves towards a result, which it then keeps. */
  predicate Later(before: Status, after: Status) {
    after == before || before == Processing || (before == DoneProcessing && after.Completed?)
  }

  /** Some run of the step system leads here. */
  ghost predicate Reachable(s: State) {
    exists states, events :: Leads(states, events, s)
  }

  ghost predicate Leads(states: seq<State>, events: seq<Event>, s: State) {
    IsRun(states, events) && states[|events|] == s
  }

  lemma ReachableStep(s: State, e: Event, s': State)
    requires Reachable(s) && Step(s, e, s')
    ensures Reachable(s')
  {
    var states, events :| Leads(states, events, s);
    Runs.Extend(Init, Step, states, events, e, s');
    assert Leads(states + [s'], events + [e], s');
  }

  /** What a step of a producer leaves of a context and of another result. */
  lemma ProducerStep(s: State, q: nat, s': State, c: nat, r: nat)
    requires Step(s, Produce(q), s') && c < |s.ctxs| && r < |s.results|
    ensures |s'.ctxs| == |s.ctxs| && s'.ctxs[c].inputs == s.ctxs[c].inputs
    ensures Later(s.ctxs[c].status, s'.ctxs[c].status)
    ensures |s'.results| == |s.results| && (s'.results[r].pc == s.results[r].pc || s'.results[r].pc == ProducerDone)
    ensures q != r ==> s'.results[r].producer == s.results[r].producer
  {
  }

  lemma RoundStep(s: State, s': State, c: nat, r: nat)
    requires Step(s, Consume, s') && InRound(s.co) && c < |s.ctxs| && r < |s.results|
    ensures c < |s'.ctxs| && Later(s.ctxs[c].status, s'.ctxs[c].status)
    ensures |s'.results| == |s.results| && s'.results[r].producer == s.results[r].producer
  {
  }

  /** What any step leaves of a context and of a producer that does not take it. */
  lemma StepOfOthers(s: State, e: Event, s': State, c: nat, r: nat)
    requires Step(s, e, s') && c < |s.ctxs| && r < |s.results|
    ensures c < |s'.ctxs| && Later(s.ctxs[c].status, s'.ctxs[c].status)
    ensures |s'.results| == |s.results| && (e != Produce(r) ==> s'.results[r].producer == s.results[r].producer)
  {
    if e.Produce? {
      ProducerStep(s, e.r, s', c, r);
    } else if e == Consume && InRound(s.co) {
      RoundStep(s, s', c, r);
    }
  }

  /**
   A when_any context that producers complete. `state` is the whole system, in which the context is number `index`; every
   atomic operation on the context is an event of the producer that performs it.
   */
  class Context {
    const index: nat
    var status: Status
    var calls: nat // of m_coro_handle
    var state: State

    /** The fields are what some run of the system left in this context. */
    ghost predicate Valid()
      reads this
    {
      && Reachable(state) && index < |state.ctxs|
      && state.ctxs[index].status == status && state.ctxs[index].calls == calls
    }

    /** The producer of result r has come to this place. */
    ghost predicate At(r: nat, place: Producer)
      reads this
    {
      r < |state.results| && state.results[r].producer == place
    }

    /** A when_any that begins. */
    constructor (before: State, inputs: seq<nat>)
      requires Reachable(before) && Enabled(before, StartRound(inputs))
      ensures Valid() && status == Processing && calls == 0 && Step(before, StartRound(inputs), state)
    {
      status, calls, index := Processing, 0, |before.ctxs|;
      state := Apply(before, StartRound(inputs)).(now := before.now + 1);
      new;
      ReachableStep(before, StartRound(inputs), state);
    }

    /** The producer's operation in the record; the fields follow. */
    method Advance(r: nat)
      requires Valid() && ProduceEnabled(state, r)
      modifies this`state
      ensures Reachable(state) && Step(old(state), Produce(r), state)
    {
      ghost var before := state;
      state := Apply(state, Produce(r)).(now := state.now + 1);
      ReachableStep(before, Produce(r), state);
    }

    /** One step that the coroutine or another producer may make. */
    method Other(r: nat)
      requires Valid() && r < |state.results|
      modifies this
      ensures Valid() && Later(old(status), status)
      ensures r < |state.results| && state.results[r].producer == old(state.results[r].producer)
    {
      var e: Event := *;
      if e != Produce(r) && Enabled(state, e) {
        ghost var before := state;
        state := Apply(state, e).(now := state.now + 1);
        ReachableStep(before, e, state);
        StepOfOthers(before, e, state, index, r);
        status, calls := state.ctxs[index].status, state.ctxs[index].calls;
      }
    }

    /** Any number of such steps. */
    method Others(r: nat)
      requires Valid() && r < |state.results|
      modifies this
      ensures Valid() && Later(old(status), status)
      ensures r < |state.results| && state.results[r].producer == old(state.results[r].producer)
    {
      var steps: int := *;
      for n := 0 to if steps < 0 then 0 else steps
        invariant Valid() && Later(old(status), status)
        invariant r < |state.results| && state.results[r].producer == old(state.results[r].producer)
      {
        Other(r);
      }
    }

    method LoadStatus(r: nat, ghost round: nat) returns (seen: Status)
      requires Valid() && At(r, Producer.LoadStatus(index, round))
      modifies this
      ensures Valid() && status == old(status) && seen == status
      ensures At(r, match seen
                    case Processing => SwapProcessing(index, round)
                    case DoneProcessing => SwapDone(index, round)
                    case Completed(_) => Returned)
    {
      Advance(r);
      seen := status;
    }

    /** compare_exchange_strong from what was loaded to the completed result. */
    method CompareExchange(r: nat, expected: Status, ghost round: nat) returns (swapped: bool)
      requires Valid() && expected in {Processing, DoneProcessing}
      requires At(r, if expected == Processing then SwapProcessing(index, round) else SwapDone(index, round))
      modifies this
      ensures Valid() && swapped == (old(status) == expected)
      ensures status == if swapped then Completed(r) else old(status)
      ensures At(r, if expected == Processing then (if swapped then Returned else Producer.LoadStatus(index, round + 1))
                    else if swapped then CallHandle(index) else Returned)
    {
      Advance(r);
      swapped := status == expected;
      if swapped {
        status := Completed(r);
      }
    }

    /**
     try_resume of the producer of result r, up to the call of the handle that ends it. It makes the producer's steps and no
     others, within two rounds of its loop; some result has won afterwards; and it goes on to call the handle exactly if
     its swap found the coroutine suspended, which is where the step system expects the call.
     */
    method TryResume(r: nat) returns (calling: bool, ghost rounds: nat)
      requires Valid() && At(r, Producer.LoadStatus(index, 1))
      modifies this
      ensures Valid() && Later(old(status), status) && status.Completed?
      ensures At(r, if calling then CallHandle(index) else Returned)
      ensures calling ==> status == Completed(r)
      ensures 1 <= rounds <= 2
    {
      calling, rounds := false, 0;
      while true
        invariant Valid() && Later(old(status), status) && rounds <= 1
        invariant At(r, Producer.LoadStatus(index, rounds + 1))
        invariant rounds == 1 ==> status != Processing
        decreases 2 - rounds
      {
        rounds := rounds + 1;
        Others(r);
        var seen := LoadStatus(r, rounds);
        if seen != Processing && seen != DoneProcessing {
          return;
        }
        Others(r);
        if seen == DoneProcessing {
          var swapped := CompareExchange(r, DoneProcessing, rounds);
          if !swapped {
            return;
          }
          calling := true;
          return;
        }
        assert seen == Processing;
        var swapped := CompareExchange(r, Processing, rounds);
        if swapped {
          return;
        }
      }
    }

    /** The whole of it: the producer returns, and the handle was called if it was to be. */
    method Resume(r: nat) returns (called: bool)
      requires Valid() && At(r, Producer.LoadStatus(index, 1))
      modifies this
      ensures Valid() && At(r, Returned) && Later(old(status), status) && status.Completed?
      ensures called ==> status == Completed(r) && 1 <= calls && state.co == LoadCompleted
    {
      ghost var rounds;
      called, rounds := TryResume(r);
      if called {
        Others(r);
        Advance(r);
        calls := calls + 1;
      }
    }
  }

  class Round {
    var status: Status
    const pc: array<PcState>
    const consumer: array<Consumer>
    const inputs: seq<nat>
    const context: nat

    /** The winner, if there is one, is a finished input. */
    ghost predicate Valid()
      reads this, pc
    {
      && pc.Length == consumer.Length && Inputs(inputs, pc.Length)
      && (status.Completed? ==> status.result in inputs && status.result < pc.Length && pc[status.result] == ProducerDone)
    }

    /** The round's context is set, or the result is finished. */
    ghost predicate Registered(r: nat)
      requires r < pc.Length == consumer.Length
      reads pc, consumer
    {
      pc[r] == ProducerDone || (pc[r] == ConsumerSet && consumer[r] == WhenAnyContext(context))
    }

    /** Nobody consumes the result, or it is finished: what a when_any or an await expects to find. */
    ghost predicate Rewound(r: nat)
      requires r < pc.Length == consumer.Length
      reads pc, consumer
    {
      pc[r] == ProducerDone || (pc[r] == Idle && consumer[r] == NoConsumer)
    }

    constructor (pc: array<PcState>, consumer: array<Consumer>, inputs: seq<nat>, context: nat)
      requires pc.Length == consumer.Length && Inputs(inputs, pc.Length)
      ensures Valid() && status == Processing
      ensures this.pc == pc && this.consumer == consumer && this.inputs == inputs && this.context == context
    {
      status := Processing;
      this.pc, this.consumer, this.inputs, this.context := pc, consumer, inputs, context;
    }

    /** What producers may do: finish results, and make one that is finished the winner if there is none. */
    twostate predicate Produced()
      reads this, pc
    {
      && Valid()
      && (status == old(status) || (!old(status).Completed? && status.Completed?))
      && forall r :: 0 <= r < pc.Length ==> pc[r] == old(pc[r]) || pc[r] == ProducerDone
    }

    method Producers()
      requires Valid()
      modifies this, pc
      ensures Produced()
    {
      var i: int := *;
      if 0 <= i < |inputs| {
        var r := inputs[i];
        pc[r] := ProducerDone;
        var wins: bool := *;
        if wins && !status.Completed? {
          status := Completed(r);
        }
      }
    }

    /**
     await_suspend: no suspension without a reason to wait, none that leaves an input unregistered, and none over an input that
     was finished before.
     */
    method AwaitSuspend() returns (suspended: bool)
      requires Valid() && status == Processing
      requires forall i :: 0 <= i < |inputs| ==> Rewound(inputs[i])
      modifies this, pc, consumer
      ensures Valid() && (if suspended then status == DoneProcessing else status.Completed?)
      ensures forall i :: 0 <= i < |inputs| ==> Registered(inputs[i]) || (!suspended && Rewound(inputs[i]))
      ensures suspended ==> forall i :: 0 <= i < |inputs| ==> old(pc[inputs[i]]) != ProducerDone
    {
      for i := 0 to |inputs|
        invariant Valid() && status != DoneProcessing
        invariant forall k :: 0 <= k < i ==> Registered(inputs[k]) && old(pc[inputs[k]]) != ProducerDone
        invariant forall k :: i <= k < |inputs| ==> Rewound(inputs[k])
        invariant forall r :: 0 <= r < pc.Length && old(pc[r]) == ProducerDone ==> pc[r] == ProducerDone
      {
        Producers();
        if status != Processing {
          return false;
        }
        var done := Register(i);
        if done {
          ResumeInline(inputs[i]);
          return false;
        }
      }
      Producers();
      suspended := status == Processing;
      if suspended {
        status := DoneProcessing;
      }
    }

    /** result_state_base::when_any: reports what it loaded first, not what its swap found. */
    method Register(i: nat) returns (done: bool)
      requires Valid() && status != DoneProcessing && i < |inputs|
      requires forall k :: 0 <= k < i ==> Registered(inputs[k])
      requires forall k :: i <= k < |inputs| ==> Rewound(inputs[k])
      modifies this, pc, consumer
      ensures Valid() && status != DoneProcessing
      ensures done ==> pc[inputs[i]] == ProducerDone
      ensures old(pc[inputs[i]]) == ProducerDone ==> done
      ensures forall r :: 0 <= r < pc.Length && old(pc[r]) == ProducerDone ==> pc[r] == ProducerDone
      ensures forall k :: 0 <= k <= i ==> Registered(inputs[k])
      ensures forall k :: i < k < |inputs| ==> Rewound(inputs[k])
    {
      var r := inputs[i];
      Producers();
      done := pc[r] == ProducerDone;
      if !done {
        consumer[r] := WhenAnyContext(context);
        Producers();
        if pc[r] == Idle {
          pc[r] := ConsumerSet;
        } else {
          assert pc[r] == ProducerDone;
        }
      }
    }

    method ResumeInline(r: nat)
      requires Valid() && status != DoneProcessing && r in inputs && r < pc.Length && pc[r] == ProducerDone
      modifies this, pc
      ensures Produced() && status.Completed?
    {
      Producers();
      if status == Processing {
        Producers();
        if status == Processing {
          status := Completed(r);
        }
      }
    }

    /** await_resume: the index of the winner, with every input free to be consumed again or finished. */
    method AwaitResume() returns (index: nat)
      requires Valid() && status.Completed?
      requires forall i :: 0 <= i < |inputs| ==> Registered(inputs[i]) || Rewound(inputs[i])
      modifies this, pc, consumer
      ensures Valid() && status == old(status)
      ensures index < |inputs| && inputs[index] == status.result && pc[inputs[index]] == ProducerDone
      ensures forall i :: 0 <= i < |inputs| ==> Rewound(inputs[i])
    {
      var winner := status;
      var completed := -1;
      for i := 0 to |inputs|
        invariant Valid() && status == winner == old(status)
        invariant -1 <= completed < i && (completed != -1 ==> inputs[completed] == winner.result)
        invariant completed == -1 ==> forall k :: 0 <= k < i ==> inputs[k] != winner.result
        invariant forall k :: 0 <= k < i ==> Rewound(inputs[k])
        invariant forall k :: i <= k < |inputs| ==> Registered(inputs[k]) || Rewound(inputs[k])
      {
        TryRewind(i);
        if winner == Completed(inputs[i]) {
          completed := i;
        }
      }
      assert completed != -1;
      index := completed;
    }

    /** try_rewind_consumer */
    method TryRewind(i: nat)
      requires Valid() && status.Completed? && i < |inputs|
      requires forall k :: 0 <= k < i ==> Rewound(inputs[k])
      requires forall k :: i <= k < |inputs| ==> Registered(inputs[k]) || Rewound(inputs[k])
      modifies this, pc, consumer
      ensures Valid() && status == old(status)
      ensures forall k :: 0 <= k <= i ==> Rewound(inputs[k])
      ensures forall k :: i < k < |inputs| ==> Registered(inputs[k]) || Rewound(inputs[k])
    {
      var r := inputs[i];
      Producers();
      if pc[r] != ConsumerSet {
        return;
      }
      Producers();
      if pc[r] != ConsumerSet {
        assert pc[r] == ProducerDone;
        return;
      }
      pc[r] := Idle;
      Producers();
      consumer[r] := NoConsumer;
    }
  }
}
