/**
 What every run of the when_any protocol satisfies.
 */
module WhenAnyTheorems {
  import Runs
  import opened WhenAny
  import opened WhenAnyInvariant
  import R = WhenAnyRound

  /**
   The coroutine handle of a context is called at most once, only after await_suspend returned true
   and only while the coroutine is suspended; no producer is ever about to call it otherwise.
   */
  lemma HandleCalledAtMostOnce(states: seq<State>, events: seq<Event>, n: nat)
    requires IsRun(states, events) && n < |states|
    ensures var s := states[n];
      && (forall c :: 0 <= c < |s.ctxs| ==>
            && s.ctxs[c].calls <= 1
            && (s.ctxs[c].suspend != ReturnedTrue ==> s.ctxs[c].calls == 0)
            && (s.ctxs[c].suspend == ReturnedTrue && s.ctxs[c].calls == 0 ==> c == |s.ctxs| - 1 && s.co == Suspended))
      && (forall r :: 0 <= r < |s.results| && s.results[r].producer.CallHandle? ==>
            && s.results[r].producer.ctx == |s.ctxs| - 1 && s.co == Suspended
            && Current(s).suspend == ReturnedTrue && Current(s).calls == 0 && Current(s).status == Completed(r))
  {
    RunInv(states, events, n);
    var s := states[n];
    forall c | 0 <= c < |s.ctxs|
      ensures s.ctxs[c].calls <= 1
      ensures s.ctxs[c].suspend != ReturnedTrue ==> s.ctxs[c].calls == 0
      ensures s.ctxs[c].suspend == ReturnedTrue && s.ctxs[c].calls == 0 ==> c == |s.ctxs| - 1 && s.co == Suspended
    {
      assert ContextOk(s, c);
    }
    forall r | 0 <= r < |s.results| && s.results[r].producer.CallHandle?
      ensures s.results[r].producer.ctx == |s.ctxs| - 1 && s.co == Suspended
      ensures Current(s).suspend == ReturnedTrue && Current(s).calls == 0 && Current(s).status == Completed(r)
    {
      assert ResultOk(s, r);
    }
  }

  lemma StepKeepsContext(s: State, e: Event, s': State, c: nat)
    requires Inv(s) && Step(s, e, s') && c < |s.ctxs|
    ensures c < |s'.ctxs|
    ensures s.ctxs[c].status.Completed? ==> s'.ctxs[c].status == s.ctxs[c].status
    ensures s.ctxs[c].suspend != Registering ==> s'.ctxs[c].suspend == s.ctxs[c].suspend
  {
    assert ContextOk(s, c);
    assert Base(s) by {
      assert ContextOk(s, |s.ctxs| - 1);
    }
  }

  /** A status never leaves a result pointer, and what await_suspend returned stands. */
  lemma {:induction false} ContextsSettle(states: seq<State>, events: seq<Event>, i: nat, j: nat, c: nat)
    requires IsRun(states, events) && i <= j < |states| && c < |states[i].ctxs|
    ensures c < |states[j].ctxs|
    ensures states[i].ctxs[c].status.Completed? ==> states[j].ctxs[c].status == states[i].ctxs[c].status
    ensures states[i].ctxs[c].suspend != Registering ==> states[j].ctxs[c].suspend == states[i].ctxs[c].suspend
    decreases j
  {
    if i < j {
      ContextsSettle(states, events, i, j - 1, c);
      RunInv(states, events, j - 1);
      assert Step(states[j - 1], events[j - 1], states[j]);
      StepKeepsContext(states[j - 1], events[j - 1], states[j], c);
    }
  }

  /** If await_suspend returned false, no thread ever calls the handle, at any later point of the run. */
  lemma NotSuspendedNeverCalled(states: seq<State>, events: seq<Event>, i: nat, j: nat, c: nat)
    requires IsRun(states, events) && i <= j < |states| && c < |states[i].ctxs|
    requires states[i].ctxs[c].suspend == ReturnedFalse
    ensures c < |states[j].ctxs| && states[j].ctxs[c].calls == 0
    ensures forall r :: 0 <= r < |states[j].results| ==> states[j].results[r].producer != CallHandle(c)
  {
    ContextsSettle(states, events, i, j, c);
    HandleCalledAtMostOnce(states, events, j);
  }

  /** try_resume goes around its loop at most twice, and its second round never swaps from k_processing. */
  lemma TryResumeTwoIterations(states: seq<State>, events: seq<Event>, n: nat, r: nat)
    requires IsRun(states, events) && n < |states| && r < |states[n].results|
    ensures var p := states[n].results[r].producer;
      && (p.LoadStatus? || p.SwapDone? ==> 1 <= p.iteration <= 2)
      && (p.SwapProcessing? ==> p.iteration == 1)
  {
    RunInv(states, events, n);
    assert ResultOk(states[n], r);
  }

  /**
   When await_resume returns an index, exactly that input is the completed one and it is done; every
   input is done or back to idle with an empty consumer slot, as the next registration requires.
   */
  lemma WinnerAndRewind(states: seq<State>, events: seq<Event>, n: nat)
    requires IsRun(states, events) && n < |states| && states[n].co.Finished?
    ensures var s := states[n];
      && s.ctxs != []
      && var inputs := Current(s).inputs;
      && 0 <= s.co.index < |inputs|
      && (forall k :: 0 <= k < |inputs| ==> (Current(s).status == Completed(inputs[k]) <==> k == s.co.index))
      && (forall k :: 0 <= k < |inputs| ==>
            && inputs[k] < |s.results|
            && (k == s.co.index ==> s.results[inputs[k]].pc == ProducerDone)
            && (s.results[inputs[k]].pc == ProducerDone
                || (s.results[inputs[k]].pc == Idle && s.results[inputs[k]].consumer == NoConsumer)))
  {
    RunInv(states, events, n);
    var s := states[n];
    assert ContextOk(s, |s.ctxs| - 1) && InputsOk(s, |s.ctxs| - 1);
    var inputs := Current(s).inputs;
    forall k | 0 <= k < |inputs|
      ensures s.results[inputs[k]].pc == ProducerDone
              || (s.results[inputs[k]].pc == Idle && s.results[inputs[k]].consumer == NoConsumer)
    {
      assert ResultOk(s, inputs[k]);
    }
  }

  /** The assertions of the source hold wherever they stand, and nobody races on a consumer slot. */
  lemma AssertionsHold(states: seq<State>, events: seq<Event>, n: nat, r: nat)
    requires IsRun(states, events) && n < |states| && r < |states[n].results|
    ensures var s := states[n];
      var x := s.results[r];
      && (RegisteringAt(s.co) ==> s.ctxs != [] && Current(s).status != DoneProcessing)
      && (OwnsSlot(s, r) && (s.co.SetContext? || s.co.AwaitSet?) ==> x.consumer == NoConsumer)
      && (OwnsSlot(s, r) && (s.co.SwapPc? || s.co.AwaitSwap?) && x.pc != Idle ==> x.pc == ProducerDone)
      && (Focus(s, r) && s.co.RewindSwap? && x.pc != ConsumerSet ==> x.pc == ProducerDone)
      && (x.producer == Producing ==> x.pc != ProducerDone)
      && (x.producer == ResumeConsumer ==> x.consumer != NoConsumer && !OwnsSlot(s, r))
      && (x.producer == CallAwait ==> s.co == AwaitSuspended(r))
  {
    RunInv(states, events, n);
    var s := states[n];
    assert ResultOk(s, r);
    if s.ctxs != [] {
      assert ContextOk(s, |s.ctxs| - 1);
    }
  }

  /**
   A step of a producer is no more than what the loops of WhenAnyRound allow for: it finishes results, and moves statuses
   only towards a finished input.
   */
  lemma ProducersInterfere(states: seq<State>, events: seq<Event>, n: nat, q: nat, c: nat)
    requires IsRun(states, events) && n < |events| && events[n].Produce?
    requires q < |states[n].results| && c < |states[n].ctxs|
    ensures var s, s' := states[n], states[n + 1];
      && |s'.results| == |s.results| && |s'.ctxs| == |s.ctxs|
      && (s'.results[q].pc == s.results[q].pc || s'.results[q].pc == ProducerDone)
      && R.Later(s.ctxs[c].status, s'.ctxs[c].status) && s'.ctxs[c].inputs == s.ctxs[c].inputs
      && (s'.ctxs[c].status.Completed? ==>
            var w := s'.ctxs[c].status.result;
            w in s'.ctxs[c].inputs && w < |s'.results| && s'.results[w].pc == ProducerDone)
  {
    RunInv(states, events, n + 1);
    R.ProducerStep(states[n], events[n].r, states[n + 1], c, q);
    assert ContextOk(states[n + 1], c) && InputsOk(states[n + 1], c);
  }

  // ---------- the coroutine's way through its rounds and awaits ----------

  ghost predicate Rewinding(co: Coroutine) {
    co.RewindLoad? || co.RewindSwap? || co.RewindClear?
  }

  ghost predicate Awaiting(co: Coroutine) {
    co.AwaitLoad? || co.AwaitSet? || co.AwaitSwap? || co.AwaitSuspended?
  }

  /** Where the coroutine may be after one step. */
  ghost predicate Follows(co: Coroutine, co': Coroutine) {
    || co' == co
    || ((co.Ready? || co.Finished?) && (co' == CheckFinished(0) || co'.AwaitLoad?))
    || (RegisteringAt(co) && (RegisteringAt(co') || co' == Suspended || co' == LoadCompleted))
    || (co == Suspended && co' == LoadCompleted)
    || (co == LoadCompleted && co'.RewindLoad? && co'.i == 0)
    || (Rewinding(co) && (co'.Finished? || (Rewinding(co') && co.i <= co'.i <= co.i + 1)))
    || (Awaiting(co) && (co' == Ready || (Awaiting(co') && co'.r == co.r)))
  }

  lemma ProducerLife(s: State, r: nat, s': State)
    requires Step(s, Produce(r), s') && CoroutineOk(s) && ResultOk(s, r)
    ensures s'.co == s.co || (s.results[r].producer.CallHandle? && s.co == Suspended && s'.co == LoadCompleted)
                          || (s.co == AwaitSuspended(r) && s'.co == Ready)
    ensures s.results[r].producer.CallHandle? ==>
      && s'.co == LoadCompleted && s.ctxs != []
      && s.results[r].producer.ctx == |s.ctxs| - 1 && Current(s).status == Completed(r)
    ensures s.co == AwaitSuspended(r) && s'.co == Ready ==> r < |s'.results| && s'.results[r].pc == ProducerDone
  {
  }

  lemma RoundLife(s: State, s': State)
    requires Step(s, Consume, s') && InRound(s.co) && Current(s).inputs != []
    ensures Follows(s.co, s'.co) && s.co != Suspended && s'.co != Ready
    ensures s.co.CheckFinished? ==> (s'.co == LoadPc(s.co.i) <==> Current(s).status == Processing)
    ensures s.co.LoadPc? && Current(s).inputs[s.co.i] < |s.results| ==>
      (s'.co == InlineLoad(s.co.i) <==> s.results[Current(s).inputs[s.co.i]].pc == ProducerDone)
  {
  }

  /**
   A round registers while there is no winner, suspends or not, and rewinds all inputs in order before it returns. A
   suspended coroutine moves when the winner's producer calls its handle, and by nothing else; an await ends when its
   result is done, and not before.
   */
  lemma CoroutineLife(states: seq<State>, events: seq<Event>, n: nat)
    requires IsRun(states, events) && n < |events|
    ensures var s, e, s' := states[n], events[n], states[n + 1];
      && Follows(s.co, s'.co)
      && (s.co == Suspended && s'.co != Suspended ==>
            && e.Produce? && s.ctxs != [] && e.r < |s.results| && s.results[e.r].producer == CallHandle(|s.ctxs| - 1)
            && Current(s).status == Completed(e.r))
      && (e.Produce? && e.r < |s.results| && s.results[e.r].producer.CallHandle? ==> s'.co == LoadCompleted)
      && (Awaiting(s.co) && s'.co == Ready ==>
            s.co.r < |s'.results| && s'.results[s.co.r].pc == ProducerDone)
      && (e == Consume && s.co.CheckFinished? ==>
            s.ctxs != [] && (s'.co == LoadPc(s.co.i) <==> Current(s).status == Processing))
  {
    RunInv(states, events, n);
    var s, e, s' := states[n], events[n], states[n + 1];
    if e.Produce? {
      assert ResultOk(s, e.r);
      ProducerLife(s, e.r, s');
    } else if e == Consume && InRound(s.co) {
      assert InputsOk(s, |s.ctxs| - 1);
      RoundLife(s, s');
    } else if Awaiting(s.co) {
      assert ResultOk(s, s.co.r);
    }
  }

  /** An await suspends only while its producer still has to resume it. */
  lemma AwaitIsResumed(states: seq<State>, events: seq<Event>, n: nat)
    requires IsRun(states, events) && n < |states| && states[n].co.AwaitSuspended?
    ensures var s := states[n];
      var r := s.co.r;
      && r < |s.results| && s.results[r].producer in {Producing, ResumeConsumer, CallAwait}
      && (s.results[r].producer == Producing ==> s.results[r].pc == ConsumerSet)
  {
    RunInv(states, events, n);
    assert ResultOk(states[n], states[n].co.r);
  }

  /** A round is over the inputs it was started with, from its first step to its last. */
  lemma {:induction false} RoundKeepsInputs(states: seq<State>, events: seq<Event>, n: nat, j: nat)
    requires IsRun(states, events) && n < j < |states| && events[n].StartRound?
    ensures var c := |states[n].ctxs|;
      && c < |states[j].ctxs| && states[j].ctxs[c].inputs == events[n].inputs
      && (j == n + 1 ==> |states[j].ctxs| == c + 1 && states[j].ctxs[c].status == Processing)
    decreases j
  {
    assert Step(states[j - 1], events[j - 1], states[j]);
    if n + 1 < j {
      RoundKeepsInputs(states, events, n, j - 1);
    }
  }

  // ---------- when does a completed input wake the coroutine? ----------

  /**
   While the coroutine is suspended with no winner, an input that is done either has its producer still
   inside try_resume of this context, or completed between the load and the swap of its registration.
   */
  lemma SuspensionExact(states: seq<State>, events: seq<Event>, n: nat, k: nat)
    requires IsRun(states, events) && n < |states|
    requires states[n].co == Suspended && states[n].ctxs != [] && Current(states[n]).status == DoneProcessing
    requires k < |Current(states[n]).inputs|
    ensures var s := states[n];
      var r := Current(s).inputs[k];
      && r < |s.results|
      && (s.results[r].pc == ProducerDone ==>
            && (Inside(s, r, |s.ctxs| - 1) <==> !Missed(s, r))
            && (Missed(s, r) ==> s.results[r].producer == Returned && !s.observed))
  {
    RunInv(states, events, n);
    var s := states[n];
    assert InputsOk(s, |s.ctxs| - 1);
    var r := Current(s).inputs[k];
    assert ResultOk(s, r);
    assert Covered(s, r);
  }

  /** Had when_any reported the state its swap observed, no completion would be missed. */
  lemma ObservedVariantMissesNothing(states: seq<State>, events: seq<Event>, n: nat, k: nat)
    requires IsRun(states, events) && n < |states| && states[n].observed
    requires states[n].co == Suspended && states[n].ctxs != []
    requires k < |Current(states[n]).inputs|
    ensures var s := states[n];
      var r := Current(s).inputs[k];
      && r < |s.results|
      && (s.results[r].pc == ProducerDone && s.results[r].producer == Returned ==>
            exists w :: 0 <= w < |s.results| && s.results[w].producer == CallHandle(|s.ctxs| - 1))
  {
    RunInv(states, events, n);
    var s := states[n];
    assert InputsOk(s, |s.ctxs| - 1) && ContextOk(s, |s.ctxs| - 1);
    if Current(s).status == DoneProcessing {
      SuspensionExact(states, events, n, k);
    }
  }

  ghost predicate AllReturned(s: State) {
    && s.ctxs != []
    && forall k :: 0 <= k < |Current(s).inputs| ==>
         Current(s).inputs[k] < |s.results| && s.results[Current(s).inputs[k]].producer == Returned
  }

  ghost predicate AllMissed(s: State) {
    && s.ctxs != []
    && forall k :: 0 <= k < |Current(s).inputs| ==>
         Current(s).inputs[k] < |s.results| && Missed(s, Current(s).inputs[k])
  }

  /**
   In the code as written, once every producer of the round has returned, the coroutine is still
   suspended if and only if every single completion fell into the window of its registration.
   */
  lemma StuckIffAllMissed(states: seq<State>, events: seq<Event>, n: nat)
    requires IsRun(states, events) && n < |states| && !states[n].observed
    requires AllReturned(states[n]) && Current(states[n]).suspend != Registering && InRound(states[n].co)
    ensures states[n].co == Suspended <==> AllMissed(states[n])
  {
    RunInv(states, events, n);
    var s := states[n];
    assert InputsOk(s, |s.ctxs| - 1) && ContextOk(s, |s.ctxs| - 1);
    if s.co == Suspended {
      forall k | 0 <= k < |Current(s).inputs| ensures Missed(s, Current(s).inputs[k]) {
        assert ResultOk(s, Current(s).inputs[k]);
        SuspensionExact(states, events, n, k);
      }
    } else {
      var inputs := Current(s).inputs;
      var k :| 0 <= k < |inputs| && inputs[k] == Current(s).status.result;
      assert !Missed(s, inputs[k]);
    }
  }

  lemma StuckStep(s: State, e: Event, s': State)
    requires Inv(s) && Step(s, e, s') && AllReturned(s) && AllMissed(s) && s.co == Suspended
    ensures AllReturned(s') && AllMissed(s') && s'.co == Suspended
  {
    assert e.Produce?;
    var p := e.r;
    assert ResultOk(s, p) && MemberOk(s, p);
    ProduceMoves(s, p, s');
    assert Current(s').inputs == Current(s).inputs;
  }

  /** A coroutine suspended in that way is never resumed, however the run goes on. */
  lemma {:induction false} StuckForever(states: seq<State>, events: seq<Event>, i: nat, j: nat)
    requires IsRun(states, events) && i <= j < |states|
    requires AllReturned(states[i]) && AllMissed(states[i]) && states[i].co == Suspended
    ensures AllReturned(states[j]) && AllMissed(states[j]) && states[j].co == Suspended
    decreases j
  {
    if i < j {
      StuckForever(states, events, i, j - 1);
      RunInv(states, events, j - 1);
      assert Step(states[j - 1], events[j - 1], states[j]);
      StuckStep(states[j - 1], events[j - 1], states[j]);
    }
  }

  lemma GoOn(states: seq<State>, events: seq<Event>, e: Event, s: State) returns (states': seq<State>, events': seq<Event>)
    requires IsRun(states, events) && Step(states[|events|], e, s)
    ensures IsRun(states', events') && states'[|events'|] == s
  {
    Runs.Extend(Init, Step, states, events, e, s);
    states', events' := states + [s], events + [e];
  }

  /** A result whose producer completes after the load of its registration and before the swap. */
  function RacingResult(): Result {
    Result(ProducerDone, NoConsumer, Returned, 3, 0, 4)
  }

  function OneInput(): Context {
    Context(Processing, [0], Registering, 0)
  }

  lemma LoadsTooEarly() returns (states: seq<State>, events: seq<Event>)
    ensures IsRun(states, events)
    ensures states[|events|] ==
      State([Result(Idle, NoConsumer, Producing, 3, 0, 0)], [OneInput()], SetContext(0), 4, false)
  {
    var idle := Result(Idle, NoConsumer, Producing, 0, 0, 0);
    var s0 := State([idle], [], Ready, 1, false);
    var s1 := State([idle], [OneInput()], CheckFinished(0), 2, false);
    states, events := [s0], [];
    states, events := GoOn(states, events, StartRound([0]), s1);
    states, events := GoOn(states, events, Consume, s1.(co := LoadPc(0), now := 3));
    states, events := GoOn(states, events, Consume,
                           State([idle.(loadedAt := 3)], [OneInput()], SetContext(0), 4, false));
  }

  lemma ProducerSlipsIn() returns (states: seq<State>, events: seq<Event>)
    ensures IsRun(states, events)
    ensures states[|events|] == State([RacingResult()], [OneInput()], SetContext(0), 5, false)
  {
    states, events := LoadsTooEarly();
    states, events := GoOn(states, events, Produce(0), State([RacingResult()], [OneInput()], SetContext(0), 5, false));
  }

  /** Such a run exists: one input, completed between the load and the swap of its registration. */
  lemma LostWakeUpExists() returns (states: seq<State>, events: seq<Event>)
    ensures IsRun(states, events) && !states[|events|].observed
    ensures states[|events|].co == Suspended && AllReturned(states[|events|]) && AllMissed(states[|events|])
  {
    states, events := SwapsTooLate();
    var done := OneInput().(status := DoneProcessing, suspend := ReturnedTrue);
    states, events := GoOn(states, events, Consume, State([MissedResult()], [done], Suspended, 8, false));
  }

  function MissedResult(): Result {
    RacingResult().(consumer := WhenAnyContext(0), swappedAt := 6)
  }

  lemma SwapsTooLate() returns (states: seq<State>, events: seq<Event>)
    ensures IsRun(states, events)
    ensures states[|events|] == State([MissedResult()], [OneInput()], FinishProcessing, 7, false)
  {
    states, events := ProducerSlipsIn();
    var stored := RacingResult().(consumer := WhenAnyContext(0));
    states, events := GoOn(states, events, Consume, State([stored], [OneInput()], SwapPc(0), 6, false));
    states, events := GoOn(states, events, Consume, State([MissedResult()], [OneInput()], FinishProcessing, 7, false));
  }
}
