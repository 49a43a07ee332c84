/**
 The inductive invariant of the when_any protocol and the proof that every step keeps it.
 */
module WhenAnyInvariant {
  import opened Sequences
  import opened WhenAny
  import Runs

  ghost predicate RegisteringAt(co: Coroutine) {
    co.CheckFinished? || co.LoadPc? || co.SetContext? || co.SwapPc? || co.InlineLoad? || co.InlineSwap?
    || co.FinishProcessing?
  }

  /** The inputs of the current round at positions Low .. High are registered and not yet rewound. */
  ghost function Low(s: State): int {
    match s.co
    case RewindLoad(i, _, _) => i
    case RewindSwap(i, _, _) => i
    case RewindClear(i, _, _) => i + 1
    case _ => 0
  }

  ghost function High(s: State): int {
    if !InRound(s.co) || s.ctxs == [] then 0
    else if RegisteringAt(s.co) && !s.co.FinishProcessing? then s.co.i
    else |Current(s).inputs|
  }

  ghost predicate InRange(q: seq<nat>, low: int, high: int, r: nat) {
    exists k :: low <= k < high && 0 <= k < |q| && q[k] == r
  }

  ghost predicate Held(s: State, r: nat) {
    s.ctxs != [] && InRange(Current(s).inputs, Low(s), High(s), r)
  }

  /** The coroutine is between its load of r's state and its swap, or clearing r's slot. */
  ghost predicate OwnsSlot(s: State, r: nat) {
    || (s.co.AwaitSet? && s.co.r == r)
    || (s.co.AwaitSwap? && s.co.r == r)
    || ((s.co.SetContext? || s.co.SwapPc? || s.co.RewindClear?)
        && s.ctxs != [] && s.co.i < |Current(s).inputs| && Current(s).inputs[s.co.i] == r)
  }

  ghost predicate Reached(s: State, r: nat) {
    RegisteringAt(s.co) ==>
      s.ctxs != [] && InRange(Current(s).inputs, 0, High(s), r)
  }

  /** The producer of r is inside try_resume of context c, or about to enter it. */
  ghost predicate Inside(s: State, r: nat, c: nat)
    requires r < |s.results|
  {
    var x := s.results[r];
    || (x.producer == ResumeConsumer && x.consumer == WhenAnyContext(c))
    || (InContext(x.producer) && x.producer.ctx == c)
  }

  /** r's producer completed between the load and the swap of r's latest registration. */
  ghost predicate Missed(s: State, r: nat)
    requires r < |s.results|
  {
    var x := s.results[r];
    x.pc == ProducerDone && x.loadedAt < x.doneAt < x.swappedAt
  }

  /** The producer-consumer state and the consumer slot of r agree with where the coroutine is. */
  ghost predicate SlotOk(s: State, r: nat)
    requires r < |s.results|
  {
    var x := s.results[r];
    && (x.pc == Idle || x.pc == ConsumerSet || x.pc == ProducerDone)
    && (x.pc == ConsumerSet ==>
          || (x.consumer.WhenAnyContext? && x.consumer.ctx == |s.ctxs| - 1 && Held(s, r))
          || (x.consumer == AwaitHandle && s.co == AwaitSuspended(r)))
    && (x.pc == Idle && x.consumer != NoConsumer ==> OwnsSlot(s, r) && !s.co.SetContext? && !s.co.AwaitSet?)
    && (OwnsSlot(s, r) ==> x.pc != ConsumerSet && (x.producer == Producing || x.producer == Returned))
    && (OwnsSlot(s, r) && (s.co.SetContext? || s.co.AwaitSet?) ==> x.consumer == NoConsumer)
  }

  ghost predicate TimesOk(s: State, r: nat)
    requires r < |s.results|
  {
    var x := s.results[r];
    && x.loadedAt < s.now && x.swappedAt < s.now && x.doneAt < s.now
    && (OwnsSlot(s, r) && !s.co.RewindClear? && InRound(s.co) && x.pc == ProducerDone ==> x.loadedAt < x.doneAt)
    && (x.producer == ResumeConsumer || InContext(x.producer) || x.producer == CallAwait ==> !Missed(s, r))
  }

  ghost predicate ProducerOk(s: State, r: nat)
    requires r < |s.results|
  {
    var x := s.results[r];
    && (x.producer == Producing <==> x.pc != ProducerDone)
    && (x.producer == ResumeConsumer ==>
          || (x.consumer == AwaitHandle && s.co == AwaitSuspended(r))
          || (x.consumer.WhenAnyContext? && x.consumer.ctx < |s.ctxs|))
    && (x.producer == CallAwait ==> s.co == AwaitSuspended(r))
    && (InContext(x.producer) ==> x.producer.ctx < |s.ctxs|)
    && (x.producer.LoadStatus? || x.producer.SwapDone? ==>
          1 <= x.producer.iteration <= 2)
    && (x.producer.LoadStatus? && x.producer.iteration == 2 ==> s.ctxs[x.producer.ctx].status != Processing)
    && (x.producer.SwapDone? ==> s.ctxs[x.producer.ctx].status != Processing)
    && (x.producer.SwapProcessing? ==> x.producer.iteration == 1)
    && (x.producer.CallHandle? ==>
          && x.producer.ctx == |s.ctxs| - 1 && s.co == Suspended
          && Current(s).status == Completed(r) && Current(s).calls == 0)
    && (s.ctxs != [] && Inside(s, r, |s.ctxs| - 1) ==> Reached(s, r))
  }

  ghost predicate ResultOk(s: State, r: nat)
    requires r < |s.results|
  {
    SlotOk(s, r) && TimesOk(s, r) && ProducerOk(s, r)
  }

  /** A producer only works on contexts its result was an input of. */
  ghost predicate MemberOk(s: State, r: nat)
    requires r < |s.results|
  {
    var x := s.results[r];
    && (x.producer == ResumeConsumer && x.consumer.WhenAnyContext? && x.consumer.ctx < |s.ctxs| ==>
          r in s.ctxs[x.consumer.ctx].inputs)
    && (InContext(x.producer) && x.producer.ctx < |s.ctxs| ==> r in s.ctxs[x.producer.ctx].inputs)
  }

  ghost predicate InputsOk(s: State, c: nat)
    requires c < |s.ctxs|
  {
    var x := s.ctxs[c];
    && ValidInputs(s, x.inputs)
    && (x.status.Completed? ==> x.status.result in x.inputs)
  }

  ghost predicate ContextOk(s: State, c: nat)
    requires c < |s.ctxs|
  {
    var x := s.ctxs[c];
    && (x.status.Completed? ==> x.status.result < |s.results| && s.results[x.status.result].pc == ProducerDone)
    && (x.suspend == Registering ==> c == |s.ctxs| - 1 && RegisteringAt(s.co) && x.calls == 0 && x.status != DoneProcessing)
    && (x.suspend == ReturnedFalse ==> x.calls == 0 && x.status.Completed?)
    && (x.suspend == ReturnedTrue ==>
          || (c == |s.ctxs| - 1 && s.co == Suspended && x.calls == 0 && x.status != Processing)
          || (x.calls == 1 && x.status.Completed?))
  }

  ghost predicate CoroutineOk(s: State) {
    && (InRound(s.co) ==> s.ctxs != [])
    && (HasInput(s.co) ==> s.co.i < |Current(s).inputs|)
    && (RegisteringAt(s.co) ==> Current(s).suspend == Registering)
    && (InRound(s.co) && !RegisteringAt(s.co) ==> Current(s).suspend != Registering)
    && ((s.co.InlineLoad? || s.co.InlineSwap?) && Current(s).inputs[s.co.i] < |s.results| ==>
          && s.results[Current(s).inputs[s.co.i]].pc == ProducerDone
          && (!s.observed ==> !Missed(s, Current(s).inputs[s.co.i])))
    && (s.co.RewindSwap? && Current(s).inputs[s.co.i] < |s.results| ==>
          s.results[Current(s).inputs[s.co.i]].pc != Idle)
    && (s.co.SwapPc? && Current(s).inputs[s.co.i] < |s.results| ==>
          s.results[Current(s).inputs[s.co.i]].consumer == WhenAnyContext(|s.ctxs| - 1))
    && (s.co == Suspended ==>
          && Current(s).suspend == ReturnedTrue && Current(s).calls == 0
          && (Current(s).status != DoneProcessing ==>
                && Current(s).status.Completed? && Current(s).status.result < |s.results|
                && s.results[Current(s).status.result].producer == CallHandle(|s.ctxs| - 1)))
    && ((s.co.LoadCompleted? || s.co.RewindLoad? || s.co.RewindSwap? || s.co.RewindClear?) ==>
          Current(s).status.Completed?)
    && ((s.co.RewindLoad? || s.co.RewindSwap? || s.co.RewindClear?) ==>
          s.co.winner == Current(s).status && IndexOk(s, s.co.i, s.co.index))
    && (s.co.Finished? ==>
          s.ctxs != [] && 0 <= s.co.index < |Current(s).inputs|
          && Current(s).status == Completed(Current(s).inputs[s.co.index]))
    && (s.co.AwaitLoad? || s.co.AwaitSet? || s.co.AwaitSwap? || s.co.AwaitSuspended? ==> s.co.r < |s.results|)
    && (s.co.AwaitSwap? ==> s.results[s.co.r].consumer == AwaitHandle)
    && (s.co.AwaitSuspended? ==>
          var x := s.results[s.co.r];
          x.consumer == AwaitHandle && (x.pc == ConsumerSet || x.producer == ResumeConsumer || x.producer == CallAwait))
  }

  /** await_resume's search, having looked at the first i inputs. */
  ghost predicate IndexOk(s: State, i: nat, index: int)
    requires s.ctxs != [] && Current(s).status.Completed?
  {
    var ctx := Current(s);
    && i <= |ctx.inputs|
    && if index == -1 then forall k :: 0 <= k < i ==> ctx.inputs[k] != ctx.status.result
       else 0 <= index < |ctx.inputs| && ctx.inputs[index] == ctx.status.result
  }

  /** A registered input still reaches the coroutine, unless its completion fell into the window. */
  ghost predicate Covered(s: State, r: nat)
    requires r < |s.results| && s.ctxs != []
  {
    || s.results[r].pc == ConsumerSet
    || Inside(s, r, |s.ctxs| - 1)
    || Current(s).status.Completed?
    || (!s.observed && Missed(s, r) && s.results[r].producer == Returned)
  }

  ghost predicate CoverOk(s: State) {
    (RegisteringAt(s.co) || s.co == Suspended) && s.ctxs != [] ==>
      forall k :: 0 <= k < High(s) && k < |Current(s).inputs| && Current(s).inputs[k] < |s.results| ==>
        Covered(s, Current(s).inputs[k])
  }

  /** In the code as written, a result that won was not missed by its registration. */
  ghost predicate WinnerOk(s: State) {
    !s.observed && s.ctxs != [] && Current(s).status.Completed? && Current(s).status.result < |s.results| ==>
      !Missed(s, Current(s).status.result) && Reached(s, Current(s).status.result)
  }

  ghost predicate Inv(s: State) {
    && (forall r: nat :: r < |s.results| ==> ResultOk(s, r) && MemberOk(s, r))
    && (forall c: nat :: c < |s.ctxs| ==> ContextOk(s, c) && InputsOk(s, c))
    && CoroutineOk(s)
    && CoverOk(s)
    && WinnerOk(s)
  }

  lemma InitInv(s: State)
    requires Init(s)
    ensures Inv(s)
  {
  }

  // The pieces below avoid the quantifiers of Inv: they speak of one result, one context and the coroutine.

  ghost predicate Base(s: State) {
    CoroutineOk(s) && (s.ctxs != [] ==> ContextOk(s, |s.ctxs| - 1))
  }

  // -- a step of the coroutine --

  ghost predicate BeforeSwap(co: Coroutine) {
    co.CheckFinished? || co.LoadPc? || co.SetContext?
  }

  /** The input the coroutine is at, or the result it awaits. */
  ghost predicate Focus(s: State, r: nat) {
    || (InRound(s.co) && HasInput(s.co) && s.ctxs != [] && s.co.i < |Current(s).inputs| && Current(s).inputs[s.co.i] == r)
    || ((s.co.AwaitLoad? || s.co.AwaitSet? || s.co.AwaitSwap?) && s.co.r == r)
  }

  /** What a registration step leaves alone. */
  ghost predicate RegisterFrame(s: State, s': State) {
    && |s.results| == |s'.results| && 0 < |s.ctxs| == |s'.ctxs|
    && (forall r :: 0 <= r < |s.results| && !Focus(s, r) ==> s'.results[r] == s.results[r])
    && (forall c :: 0 <= c < |s.ctxs| ==>
          && s'.ctxs[c].inputs == s.ctxs[c].inputs
          && (s'.ctxs[c].status == s.ctxs[c].status || s'.ctxs[c].status != Processing))
    && InRound(s'.co) && Low(s') == 0 && 0 <= High(s) <= High(s')
    && (forall r: nat :: OwnsSlot(s', r) ==> Focus(s, r))
    && s'.now == s.now + 1 && s'.observed == s.observed
  }

  lemma RegisterFramesFirst(s: State, s': State)
    requires Base(s) && Step(s, Consume, s') && BeforeSwap(s.co)
    ensures RegisterFrame(s, s')
  {
  }

  lemma RegisterFramesThen(s: State, s': State)
    requires Base(s) && Step(s, Consume, s') && RegisteringAt(s.co) && !BeforeSwap(s.co)
    ensures RegisterFrame(s, s')
  {
  }

  lemma RegisterFrames(s: State, s': State)
    requires Base(s) && Step(s, Consume, s') && RegisteringAt(s.co)
    ensures RegisterFrame(s, s')
  {
    if BeforeSwap(s.co) {
      RegisterFramesFirst(s, s');
    } else {
      RegisterFramesThen(s, s');
    }
  }

  lemma RegisterSlotFirst(s: State, s': State, r: nat)
    requires Base(s) && Step(s, Consume, s') && BeforeSwap(s.co) && Focus(s, r)
    requires r < |s.results| && SlotOk(s, r) && ProducerOk(s, r)
    requires Distinct(Current(s).inputs)
    ensures SlotOk(s', r)
  {
  }

  lemma RegisterSlotThen(s: State, s': State, r: nat)
    requires Base(s) && Step(s, Consume, s') && RegisteringAt(s.co) && !BeforeSwap(s.co) && Focus(s, r)
    requires r < |s.results| && SlotOk(s, r) && ProducerOk(s, r)
    requires Distinct(Current(s).inputs)
    ensures SlotOk(s', r)
  {
  }

  lemma RegisterSlot(s: State, s': State, r: nat)
    requires Base(s) && Step(s, Consume, s') && RegisteringAt(s.co) && Focus(s, r)
    requires r < |s.results| && SlotOk(s, r) && ProducerOk(s, r)
    requires Distinct(Current(s).inputs)
    ensures SlotOk(s', r)
  {
    if BeforeSwap(s.co) {
      RegisterSlotFirst(s, s', r);
    } else {
      RegisterSlotThen(s, s', r);
    }
  }

  lemma RegisterOtherSlot(s: State, s': State, r: nat)
    requires RegisterFrame(s, s') && RegisteringAt(s.co) && !Focus(s, r)
    requires r < |s.results| && SlotOk(s, r)
    ensures SlotOk(s', r)
  {
  }

  /** What a step of await_resume does, place by place. */
  ghost predicate RewindMove(s: State, s': State) {
    && s.ctxs != [] && s'.ctxs == s.ctxs && s'.now == s.now + 1 && s'.observed == s.observed
    && (HasInput(s.co) ==> s.co.i < |Current(s).inputs| && Current(s).inputs[s.co.i] < |s.results|)
    && match s.co
       case LoadCompleted =>
         && s'.results == s.results
         && s'.co == (if Current(s).inputs == [] then Finished(-1) else RewindLoad(0, Current(s).status, -1))
       case RewindLoad(i, winner, index) =>
         && s'.results == s.results
         && s'.co == (if s.results[Current(s).inputs[i]].pc == ConsumerSet then RewindSwap(i, winner, index)
                      else NextRewind(s, i, winner, index))
       case RewindSwap(i, winner, index) =>
         var r := Current(s).inputs[i];
         if s.results[r].pc == ConsumerSet
         then s'.results == s.results[r := s.results[r].(pc := Idle)] && s'.co == RewindClear(i, winner, index)
         else s'.results == s.results && s'.co == NextRewind(s, i, winner, index)
       case RewindClear(i, winner, index) =>
         var r := Current(s).inputs[i];
         s'.results == s.results[r := s.results[r].(consumer := NoConsumer)] && s'.co == NextRewind(s, i, winner, index)
       case _ => false
  }

  ghost predicate Rewinding(co: Coroutine) {
    co.LoadCompleted? || co.RewindLoad? || co.RewindSwap? || co.RewindClear?
  }

  lemma RewindMoves(s: State, s': State)
    requires Step(s, Consume, s') && Rewinding(s.co)
    ensures RewindMove(s, s')
  {
  }

  lemma RewindFocusSlot(s: State, s': State, r: nat)
    requires RewindMove(s, s') && Rewinding(s.co) && Focus(s, r) && CoroutineOk(s) && Distinct(Current(s).inputs)
    requires r < |s.results| && SlotOk(s, r) && ProducerOk(s, r)
    ensures SlotOk(s', r)
  {
  }

  lemma RewindOtherSlot(s: State, s': State, r: nat)
    requires RewindMove(s, s') && Rewinding(s.co) && !Focus(s, r)
    requires r < |s.results| && SlotOk(s, r)
    ensures SlotOk(s', r)
  {
  }

  lemma RewindSlot(s: State, s': State, r: nat)
    requires Base(s) && Step(s, Consume, s') && !RegisteringAt(s.co) && InRound(s.co) && Distinct(Current(s).inputs)
    requires r < |s.results| && SlotOk(s, r) && ProducerOk(s, r)
    ensures SlotOk(s', r)
  {
    RewindMoves(s, s');
    if Focus(s, r) {
      RewindFocusSlot(s, s', r);
    } else {
      RewindOtherSlot(s, s', r);
    }
  }

  lemma AwaitSlot(s: State, s': State, r: nat)
    requires Base(s) && Step(s, Consume, s') && !InRound(s.co)
    requires r < |s.results| && SlotOk(s, r) && ProducerOk(s, r)
    ensures SlotOk(s', r)
  {
  }

  lemma RegisterTimesFirst(s: State, s': State, r: nat)
    requires Base(s) && Step(s, Consume, s') && BeforeSwap(s.co) && r < |s.results| && TimesOk(s, r) && SlotOk(s, r)
    ensures TimesOk(s', r)
  {
  }

  lemma RegisterTimesThen(s: State, s': State, r: nat)
    requires Base(s) && Step(s, Consume, s') && RegisteringAt(s.co) && !BeforeSwap(s.co)
    requires r < |s.results| && TimesOk(s, r) && SlotOk(s, r)
    ensures TimesOk(s', r)
  {
  }

  lemma RegisterTimes(s: State, s': State, r: nat)
    requires Base(s) && Step(s, Consume, s') && RegisteringAt(s.co) && r < |s.results| && TimesOk(s, r) && SlotOk(s, r)
    ensures TimesOk(s', r)
  {
    if BeforeSwap(s.co) {
      RegisterTimesFirst(s, s', r);
    } else {
      RegisterTimesThen(s, s', r);
    }
  }

  lemma RewindRoundTimes(s: State, s': State, r: nat)
    requires RewindMove(s, s') && Rewinding(s.co) && r < |s.results| && TimesOk(s, r) && SlotOk(s, r)
    ensures TimesOk(s', r)
  {
  }

  lemma AwaitTimes(s: State, s': State, r: nat)
    requires Base(s) && Step(s, Consume, s') && !InRound(s.co) && r < |s.results| && TimesOk(s, r) && SlotOk(s, r)
    ensures TimesOk(s', r)
  {
  }

  lemma RewindTimes(s: State, s': State, r: nat)
    requires Base(s) && Step(s, Consume, s') && !RegisteringAt(s.co) && r < |s.results| && TimesOk(s, r) && SlotOk(s, r)
    ensures TimesOk(s', r)
  {
    if InRound(s.co) {
      RewindMoves(s, s');
      RewindRoundTimes(s, s', r);
    } else {
      AwaitTimes(s, s', r);
    }
  }

  lemma RegisterProducerFirst(s: State, s': State, r: nat)
    requires Base(s) && Step(s, Consume, s') && BeforeSwap(s.co) && Focus(s, r)
    requires r < |s.results| && ProducerOk(s, r) && SlotOk(s, r)
    ensures ProducerOk(s', r)
  {
  }

  lemma RegisterProducerThen(s: State, s': State, r: nat)
    requires Base(s) && Step(s, Consume, s') && RegisteringAt(s.co) && !BeforeSwap(s.co) && Focus(s, r)
    requires r < |s.results| && ProducerOk(s, r) && SlotOk(s, r)
    ensures ProducerOk(s', r)
  {
  }

  lemma RegisterProducer(s: State, s': State, r: nat)
    requires Base(s) && Step(s, Consume, s') && RegisteringAt(s.co) && Focus(s, r)
    requires r < |s.results| && ProducerOk(s, r) && SlotOk(s, r)
    ensures ProducerOk(s', r)
  {
    if BeforeSwap(s.co) {
      RegisterProducerFirst(s, s', r);
    } else {
      RegisterProducerThen(s, s', r);
    }
  }

  lemma RegisterOtherProducer(s: State, s': State, r: nat)
    requires RegisterFrame(s, s') && RegisteringAt(s.co) && !Focus(s, r)
    requires r < |s.results| && ProducerOk(s, r) && SlotOk(s, r)
    ensures ProducerOk(s', r)
  {
  }

  lemma RewindRoundProducer(s: State, s': State, r: nat)
    requires RewindMove(s, s') && Rewinding(s.co) && r < |s.results| && ProducerOk(s, r) && SlotOk(s, r)
    ensures ProducerOk(s', r)
  {
  }

  lemma AwaitProducer(s: State, s': State, r: nat)
    requires Base(s) && Step(s, Consume, s') && !InRound(s.co) && r < |s.results| && ProducerOk(s, r) && SlotOk(s, r)
    ensures ProducerOk(s', r)
  {
  }

  lemma RewindProducer(s: State, s': State, r: nat)
    requires Base(s) && Step(s, Consume, s') && !RegisteringAt(s.co) && r < |s.results| && ProducerOk(s, r) && SlotOk(s, r)
    ensures ProducerOk(s', r)
  {
    if InRound(s.co) {
      RewindMoves(s, s');
      RewindRoundProducer(s, s', r);
    } else {
      AwaitProducer(s, s', r);
    }
  }

  lemma RegisterContext(s: State, s': State, c: nat)
    requires Base(s) && Step(s, Consume, s') && RegisteringAt(s.co) && c < |s.ctxs| && ContextOk(s, c)
    ensures ContextOk(s', c)
  {
  }

  lemma RewindContext(s: State, s': State, c: nat)
    requires Base(s) && Step(s, Consume, s') && !RegisteringAt(s.co) && c < |s.ctxs| && ContextOk(s, c)
    ensures ContextOk(s', c)
  {
  }

  lemma ConsumeContext(s: State, s': State, c: nat)
    requires Base(s) && Step(s, Consume, s') && c < |s.ctxs| && ContextOk(s, c)
    ensures ContextOk(s', c)
  {
    if RegisteringAt(s.co) {
      RegisterContext(s, s', c);
    } else {
      RewindContext(s, s', c);
    }
  }

  lemma RegisterCoroutineFirst(s: State, s': State)
    requires Base(s) && Step(s, Consume, s') && BeforeSwap(s.co)
    requires HasInput(s.co) ==> ResultOk(s, Current(s).inputs[s.co.i])
    ensures CoroutineOk(s')
  {
  }

  lemma RegisterCoroutineThen(s: State, s': State)
    requires Base(s) && Step(s, Consume, s') && RegisteringAt(s.co) && !BeforeSwap(s.co)
    requires HasInput(s.co) ==> ResultOk(s, Current(s).inputs[s.co.i])
    ensures CoroutineOk(s')
  {
  }

  lemma RegisterCoroutine(s: State, s': State)
    requires Base(s) && Step(s, Consume, s') && RegisteringAt(s.co)
    requires HasInput(s.co) ==> ResultOk(s, Current(s).inputs[s.co.i])
    ensures CoroutineOk(s')
  {
    if BeforeSwap(s.co) {
      RegisterCoroutineFirst(s, s');
    } else {
      RegisterCoroutineThen(s, s');
    }
  }

  /** One more input looked at in await_resume's search. */
  lemma SearchStep(s: State, i: nat, winner: Status, index: int)
    requires s.ctxs != [] && InputsOk(s, |s.ctxs| - 1) && winner == Current(s).status && winner.Completed?
    requires i < |Current(s).inputs| && IndexOk(s, i, index)
    ensures var co := NextRewind(s, i, winner, index);
      && (co.RewindLoad? ==> co.winner == winner && co.i == i + 1 < |Current(s).inputs| && IndexOk(s, co.i, co.index))
      && (co.Finished? ==> 0 <= co.index < |Current(s).inputs| && winner == Completed(Current(s).inputs[co.index]))
  {
  }

  lemma RewindCoroutine(s: State, s': State)
    requires Base(s) && Step(s, Consume, s') && (s.co.RewindLoad? || s.co.RewindSwap? || s.co.RewindClear?)
    requires InputsOk(s, |s.ctxs| - 1)
    ensures CoroutineOk(s')
  {
    SearchStep(s, s.co.i, s.co.winner, s.co.index);
    RewindMoves(s, s');
    RewindCoroutineMoved(s, s');
  }

  lemma RewindCoroutineMoved(s: State, s': State)
    requires CoroutineOk(s) && RewindMove(s, s') && (s.co.RewindLoad? || s.co.RewindSwap? || s.co.RewindClear?)
    requires InputsOk(s, |s.ctxs| - 1)
    requires var co := NextRewind(s, s.co.i, s.co.winner, s.co.index);
      && Current(s).status.Completed? && s.co.winner == Current(s).status
      && (co.RewindLoad? ==> co.winner == s.co.winner && co.i < |Current(s).inputs| && IndexOk(s, co.i, co.index))
      && (co.Finished? ==> 0 <= co.index < |Current(s).inputs| && s.co.winner == Completed(Current(s).inputs[co.index]))
    ensures CoroutineOk(s')
  {
    assert Current(s') == Current(s);
  }

  lemma CompletedCoroutine(s: State, s': State)
    requires Base(s) && Step(s, Consume, s') && s.co.LoadCompleted?
    requires InputsOk(s, |s.ctxs| - 1)
    ensures CoroutineOk(s')
  {
  }

  lemma AwaitCoroutine(s: State, s': State)
    requires Base(s) && Step(s, Consume, s') && !InRound(s.co)
    requires s.co.AwaitSwap? ==> ResultOk(s, s.co.r)
    ensures CoroutineOk(s')
  {
  }

  lemma ConsumeCover(s: State, s': State, k: nat)
    requires Base(s) && Step(s, Consume, s')
    requires HasInput(s.co) ==> ResultOk(s, Current(s).inputs[s.co.i])
    requires RegisteringAt(s.co) && InputsOk(s, |s.ctxs| - 1)
    requires k < |Current(s).inputs|
    requires k < High(s) ==> Covered(s, Current(s).inputs[k])
    requires k < High(s') && (RegisteringAt(s'.co) || s'.co == Suspended)
    ensures Covered(s', Current(s).inputs[k])
  {
  }

  lemma RegisterWinner(s: State, s': State)
    requires Base(s) && WinnerOk(s) && Step(s, Consume, s')
    requires HasInput(s.co) ==> ResultOk(s, Current(s).inputs[s.co.i])
    requires InRound(s.co) ==> Distinct(Current(s).inputs)
    requires RegisteringAt(s.co)
    ensures WinnerOk(s')
  {
  }

  lemma RewindWinner(s: State, s': State)
    requires Base(s) && WinnerOk(s) && Step(s, Consume, s')
    requires HasInput(s.co) ==> ResultOk(s, Current(s).inputs[s.co.i])
    requires InRound(s.co) ==> Distinct(Current(s).inputs)
    requires !RegisteringAt(s.co)
    ensures WinnerOk(s')
  {
  }

  lemma ConsumeWinner(s: State, s': State)
    requires Base(s) && WinnerOk(s) && Step(s, Consume, s')
    requires HasInput(s.co) ==> ResultOk(s, Current(s).inputs[s.co.i])
    requires InRound(s.co) ==> Distinct(Current(s).inputs)
    ensures WinnerOk(s')
  {
    if RegisteringAt(s.co) {
      RegisterWinner(s, s');
    } else {
      RewindWinner(s, s');
    }
  }

  // -- a step of a producer --

  /** What a step of producer p leaves alone; statuses only move forward. */
  ghost predicate ProduceFrame(s: State, p: nat, s': State) {
    && p < |s.results| == |s'.results| && |s.ctxs| == |s'.ctxs|
    && s.results[p].producer != Returned
    && (forall r :: 0 <= r < |s.results| && r != p ==> s'.results[r] == s.results[r])
    && (forall c :: 0 <= c < |s.ctxs| ==>
          && s'.ctxs[c].inputs == s.ctxs[c].inputs && s'.ctxs[c].suspend == s.ctxs[c].suspend
          && (s'.ctxs[c].status == s.ctxs[c].status || (!s.ctxs[c].status.Completed? && s'.ctxs[c].status == Completed(p)))
          && (s'.ctxs[c].calls == s.ctxs[c].calls || s.results[p].producer == CallHandle(c)))
    && (s'.co == s.co || (s.results[p].producer.CallHandle? && s'.co == LoadCompleted)
                      || (s.results[p].producer.CallAwait? && s'.co == Ready))
    && s'.now == s.now + 1 && s'.observed == s.observed
  }

  /** What a producer's step may rely on. */
  ghost predicate ProduceBase(s: State, p: nat) {
    && Base(s) && p < |s.results| && ResultOk(s, p)
    && (InContext(s.results[p].producer) ==> ContextOk(s, s.results[p].producer.ctx))
  }

  lemma ProduceOwnSlot(s: State, p: nat, s': State)
    requires Base(s) && ProduceFrame(s, p, s') && ProduceMove(s, p, s') && ResultOk(s, p)
    ensures SlotOk(s', p)
  {
  }

  lemma OutsideTimes(s: State, p: nat, s': State)
    requires ProduceBase(s, p) && Step(s, Produce(p), s') && !InContext(s.results[p].producer)
    ensures TimesOk(s', p)
  {
  }

  lemma InsideTimes(s: State, p: nat, s': State)
    requires ProduceBase(s, p) && Step(s, Produce(p), s') && InContext(s.results[p].producer)
    ensures TimesOk(s', p)
  {
  }

  lemma ProduceOwnTimes(s: State, p: nat, s': State)
    requires ProduceBase(s, p) && Step(s, Produce(p), s')
    ensures TimesOk(s', p)
  {
    if InContext(s.results[p].producer) {
      InsideTimes(s, p, s');
    } else {
      OutsideTimes(s, p, s');
    }
  }

  lemma OutsideProducer(s: State, p: nat, s': State)
    requires ProduceBase(s, p) && Step(s, Produce(p), s') && !InContext(s.results[p].producer)
    ensures ProducerOk(s', p)
  {
  }

  lemma LoadingProducer(s: State, p: nat, s': State)
    requires ProduceBase(s, p) && Step(s, Produce(p), s') && InContext(s.results[p].producer)
    requires s.results[p].producer.LoadStatus?
    ensures ProducerOk(s', p)
  {
  }

  lemma SwappingProducer(s: State, p: nat, s': State)
    requires ProduceBase(s, p) && Step(s, Produce(p), s') && InContext(s.results[p].producer)
    requires !s.results[p].producer.LoadStatus?
    ensures ProducerOk(s', p)
  {
  }

  lemma InsideProducer(s: State, p: nat, s': State)
    requires ProduceBase(s, p) && Step(s, Produce(p), s') && InContext(s.results[p].producer)
    ensures ProducerOk(s', p)
  {
    if s.results[p].producer.LoadStatus? {
      LoadingProducer(s, p, s');
    } else {
      SwappingProducer(s, p, s');
    }
  }

  lemma ProduceOwnProducer(s: State, p: nat, s': State)
    requires ProduceBase(s, p) && Step(s, Produce(p), s')
    ensures ProducerOk(s', p)
  {
    if InContext(s.results[p].producer) {
      InsideProducer(s, p, s');
    } else {
      OutsideProducer(s, p, s');
    }
  }

  lemma ProduceOther(s: State, p: nat, s': State, r: nat)
    requires Base(s) && ProduceFrame(s, p, s') && ProducerOk(s, p)
    requires p != r < |s.results| && SlotOk(s, r) && TimesOk(s, r)
    ensures SlotOk(s', r) && TimesOk(s', r)
  {
  }

  lemma KeptOtherProducer(s: State, p: nat, s': State, r: nat)
    requires Base(s) && ProduceFrame(s, p, s') && ProducerOk(s, p)
    requires p != r < |s.results| && ProducerOk(s, r)
    requires s'.co == s.co
    ensures ProducerOk(s', r)
  {
  }

  lemma ResumedOtherProducer(s: State, p: nat, s': State, r: nat)
    requires Base(s) && ProduceFrame(s, p, s') && ProducerOk(s, p)
    requires p != r < |s.results| && ProducerOk(s, r)
    requires s'.co != s.co
    ensures ProducerOk(s', r)
  {
  }

  lemma ProduceOtherProducer(s: State, p: nat, s': State, r: nat)
    requires Base(s) && ProduceFrame(s, p, s') && ProducerOk(s, p)
    requires p != r < |s.results| && ProducerOk(s, r)
    ensures ProducerOk(s', r)
  {
    if s'.co == s.co {
      KeptOtherProducer(s, p, s', r);
    } else {
      ResumedOtherProducer(s, p, s', r);
    }
  }

  lemma InsideContext(s: State, p: nat, s': State, c: nat)
    requires ProduceBase(s, p) && Step(s, Produce(p), s')
    requires c < |s.ctxs| && ContextOk(s, c)
    requires InContext(s.results[p].producer)
    ensures ContextOk(s', c)
  {
  }

  lemma OutsideContext(s: State, p: nat, s': State, c: nat)
    requires ProduceBase(s, p) && Step(s, Produce(p), s')
    requires c < |s.ctxs| && ContextOk(s, c)
    requires !InContext(s.results[p].producer)
    ensures ContextOk(s', c)
  {
  }

  lemma ProduceContext(s: State, p: nat, s': State, c: nat)
    requires ProduceBase(s, p) && Step(s, Produce(p), s')
    requires c < |s.ctxs| && ContextOk(s, c)
    ensures ContextOk(s', c)
  {
    if InContext(s.results[p].producer) {
      InsideContext(s, p, s', c);
    } else {
      OutsideContext(s, p, s', c);
    }
  }

  /** What p's own entry, and a status or the coroutine with it, goes through. */
  ghost predicate ProduceMove(s: State, p: nat, s': State)
    requires p < |s.results| == |s'.results| && |s.ctxs| == |s'.ctxs|
  {
    var x := s.results[p];
    var x' := s'.results[p];
    && x'.consumer == x.consumer && x'.loadedAt == x.loadedAt
    && (x.producer == Producing ==> x'.pc == ProducerDone && x'.producer == (if x.pc == ConsumerSet then ResumeConsumer else Returned))
    && (x.producer != Producing ==> x'.pc == x.pc && x'.doneAt == x.doneAt && x'.swappedAt == x.swappedAt)
    && (x.producer == ResumeConsumer && x.consumer == AwaitHandle ==> x'.producer == CallAwait)
    && (x'.producer == ResumeConsumer ==> x.producer == Producing)
    && (InContext(x'.producer) ==>
          || (x.producer == ResumeConsumer && x.consumer == WhenAnyContext(x'.producer.ctx))
          || (InContext(x.producer) && x.producer.ctx == x'.producer.ctx))
    && (forall c :: 0 <= c < |s.ctxs| && s'.ctxs[c].status != s.ctxs[c].status ==>
          s'.ctxs[c].status == Completed(p) && (s.ctxs[c].status == DoneProcessing ==> x'.producer == CallHandle(c)))
    && (x.producer.CallHandle? ==> s'.co == LoadCompleted)
    && (x.producer == CallAwait ==> s'.co == Ready)
  }

  lemma ProduceFrames(s: State, p: nat, s': State)
    requires Step(s, Produce(p), s')
    ensures ProduceFrame(s, p, s')
  {
  }

  lemma ProduceMoves(s: State, p: nat, s': State)
    requires Step(s, Produce(p), s')
    ensures ProduceFrame(s, p, s') && ProduceMove(s, p, s')
  {
    ProduceFrames(s, p, s');
  }

  lemma ProduceKeepsCoroutine(s: State, p: nat, s': State)
    requires Base(s) && ProduceFrame(s, p, s') && ProduceMove(s, p, s') && ResultOk(s, p)
    requires s'.co == s.co
    ensures CoroutineOk(s')
  {
  }

  lemma ProduceResumesCoroutine(s: State, p: nat, s': State)
    requires Base(s) && ProduceFrame(s, p, s') && ProduceMove(s, p, s') && ResultOk(s, p)
    requires s'.co != s.co
    ensures CoroutineOk(s')
  {
  }

  lemma ProduceCoroutine(s: State, p: nat, s': State)
    requires Base(s) && ProduceFrame(s, p, s') && ProduceMove(s, p, s') && ResultOk(s, p)
    ensures CoroutineOk(s')
  {
    if s'.co == s.co {
      ProduceKeepsCoroutine(s, p, s');
    } else {
      ProduceResumesCoroutine(s, p, s');
    }
  }

  lemma ProduceWinner(s: State, p: nat, s': State)
    requires ProduceBase(s, p) && Step(s, Produce(p), s') && WinnerOk(s)
    ensures WinnerOk(s')
  {
  }

  lemma InsideCover(s: State, p: nat, s': State)
    requires ProduceBase(s, p) && Step(s, Produce(p), s')
    requires s.ctxs != [] && Covered(s, p) && !s.co.AwaitSuspended?
    requires InContext(s.results[p].producer)
    ensures Covered(s', p)
  {
  }

  lemma OutsideCover(s: State, p: nat, s': State)
    requires ProduceBase(s, p) && Step(s, Produce(p), s')
    requires s.ctxs != [] && Covered(s, p) && !s.co.AwaitSuspended?
    requires !InContext(s.results[p].producer)
    ensures Covered(s', p)
  {
  }

  lemma ProduceCover(s: State, p: nat, s': State)
    requires ProduceBase(s, p) && Step(s, Produce(p), s')
    requires s.ctxs != [] && Covered(s, p) && !s.co.AwaitSuspended?
    ensures Covered(s', p)
  {
    if InContext(s.results[p].producer) {
      InsideCover(s, p, s');
    } else {
      OutsideCover(s, p, s');
    }
  }

  lemma ProduceOtherCover(s: State, p: nat, s': State, r: nat)
    requires ProduceFrame(s, p, s') && p != r < |s.results|
    requires s.ctxs != [] && Covered(s, r)
    ensures Covered(s', r)
  {
  }

  // -- membership: inputs of a context never change --

  lemma RegisterMember(s: State, s': State, r: nat)
    requires Base(s) && Step(s, Consume, s') && r < |s.results| && ResultOk(s, r) && MemberOk(s, r) && RegisteringAt(s.co)
    ensures MemberOk(s', r)
  {
  }

  lemma RewindMember(s: State, s': State, r: nat)
    requires Base(s) && Step(s, Consume, s') && r < |s.results| && ResultOk(s, r) && MemberOk(s, r) && !RegisteringAt(s.co)
    ensures MemberOk(s', r)
  {
  }

  lemma ConsumeMember(s: State, s': State, r: nat)
    requires Base(s) && Step(s, Consume, s') && r < |s.results| && ResultOk(s, r) && MemberOk(s, r)
    ensures MemberOk(s', r)
  {
    if RegisteringAt(s.co) {
      RegisterMember(s, s', r);
    } else {
      RewindMember(s, s', r);
    }
  }

  lemma RegisterInputs(s: State, s': State, c: nat)
    requires Base(s) && Step(s, Consume, s') && c < |s.ctxs| && InputsOk(s, c)
    requires RegisteringAt(s.co)
    ensures InputsOk(s', c)
  {
  }

  lemma RewindInputs(s: State, s': State, c: nat)
    requires Base(s) && Step(s, Consume, s') && c < |s.ctxs| && InputsOk(s, c)
    requires !RegisteringAt(s.co)
    ensures InputsOk(s', c)
  {
  }

  lemma ConsumeInputs(s: State, s': State, c: nat)
    requires Base(s) && Step(s, Consume, s') && c < |s.ctxs| && InputsOk(s, c)
    ensures InputsOk(s', c)
  {
    if RegisteringAt(s.co) {
      RegisterInputs(s, s', c);
    } else {
      RewindInputs(s, s', c);
    }
  }

  lemma ProduceMember(s: State, p: nat, s': State, r: nat)
    requires ProduceFrame(s, p, s') && ProduceMove(s, p, s') && r < |s.results| && MemberOk(s, r)
    requires SlotOk(s, r) && ProducerOk(s, r)
    ensures MemberOk(s', r)
  {
  }

  lemma ProduceInputs(s: State, p: nat, s': State, c: nat)
    requires Step(s, Produce(p), s') && c < |s.ctxs| && InputsOk(s, c) && MemberOk(s, p)
    ensures InputsOk(s', c)
  {
  }

  // -- starting a round or an await --

  lemma StartResult(s: State, e: Event, s': State, r: nat)
    requires Base(s) && Step(s, e, s') && (e.StartRound? || e.StartAwait?)
    requires r < |s.results| && ResultOk(s, r) && MemberOk(s, r)
    ensures ResultOk(s', r) && MemberOk(s', r)
  {
  }

  lemma StartInv(s: State, e: Event, s': State)
    requires Inv(s) && Step(s, e, s') && (e.StartRound? || e.StartAwait?)
    ensures Inv(s')
  {
    forall r: nat | r < |s'.results| ensures ResultOk(s', r) && MemberOk(s', r) {
      assert ResultOk(s, r) && MemberOk(s, r);
      StartResult(s, e, s', r);
    }
    forall c: nat | c < |s'.ctxs| ensures ContextOk(s', c) && InputsOk(s', c) {
      assert c < |s.ctxs| ==> ContextOk(s, c) && InputsOk(s, c);
    }
  }

  // -- assembly --

  lemma ConsumeResult(s: State, s': State, r: nat)
    requires Inv(s) && Step(s, Consume, s') && r < |s.results|
    ensures ResultOk(s', r) && MemberOk(s', r)
  {
    assert ResultOk(s, r) && MemberOk(s, r);
    assert s.ctxs != [] ==> InputsOk(s, |s.ctxs| - 1);
    ConsumeMember(s, s', r);
    if RegisteringAt(s.co) {
      RegisterFrames(s, s');
      RegisterTimes(s, s', r);
      if Focus(s, r) {
        RegisterSlot(s, s', r);
        RegisterProducer(s, s', r);
      } else {
        RegisterOtherSlot(s, s', r);
        RegisterOtherProducer(s, s', r);
      }
    } else {
      RewindTimes(s, s', r);
      RewindProducer(s, s', r);
      if InRound(s.co) {
        RewindSlot(s, s', r);
      } else {
        AwaitSlot(s, s', r);
      }
    }
  }

  lemma RegisterCovers(s: State, s': State)
    requires Base(s) && CoverOk(s) && Step(s, Consume, s') && RegisteringAt(s.co) && InputsOk(s, |s.ctxs| - 1)
    requires HasInput(s.co) ==> ResultOk(s, Current(s).inputs[s.co.i])
    ensures CoverOk(s')
  {
    RegisterFrames(s, s');
    if RegisteringAt(s'.co) || s'.co == Suspended {
      var inputs := Current(s).inputs;
      forall k | 0 <= k < High(s') && k < |inputs| ensures Covered(s', inputs[k]) {
        ConsumeCover(s, s', k);
      }
    }
  }

  lemma RewindCovers(s: State, s': State)
    requires Step(s, Consume, s') && !RegisteringAt(s.co)
    ensures CoverOk(s')
  {
  }

  lemma ConsumeCovers(s: State, s': State)
    requires Inv(s) && Step(s, Consume, s')
    ensures CoverOk(s')
  {
    if RegisteringAt(s.co) {
      assert ContextOk(s, |s.ctxs| - 1) && InputsOk(s, |s.ctxs| - 1);
      assert HasInput(s.co) ==> ResultOk(s, Current(s).inputs[s.co.i]);
      RegisterCovers(s, s');
    } else {
      RewindCovers(s, s');
    }
  }

  lemma ConsumeInv(s: State, s': State)
    requires Inv(s) && Step(s, Consume, s')
    ensures Inv(s')
  {
    assert s.ctxs != [] ==> ContextOk(s, |s.ctxs| - 1) && InputsOk(s, |s.ctxs| - 1);
    assert HasInput(s.co) ==> ResultOk(s, Current(s).inputs[s.co.i]);
    assert s.co.AwaitSwap? ==> ResultOk(s, s.co.r);
    forall r: nat | r < |s'.results| ensures ResultOk(s', r) && MemberOk(s', r) {
      ConsumeResult(s, s', r);
    }
    forall c: nat | c < |s'.ctxs| ensures ContextOk(s', c) && InputsOk(s', c) {
      assert ContextOk(s, c) && InputsOk(s, c);
      ConsumeContext(s, s', c);
      ConsumeInputs(s, s', c);
    }
    ConsumeCovers(s, s');
    ConsumeWinner(s, s');
    if RegisteringAt(s.co) {
      RegisterCoroutine(s, s');
    } else if s.co.LoadCompleted? {
      CompletedCoroutine(s, s');
    } else if InRound(s.co) {
      RewindCoroutine(s, s');
    } else {
      AwaitCoroutine(s, s');
    }
  }

  lemma ProduceResult(s: State, p: nat, s': State, r: nat)
    requires Inv(s) && Step(s, Produce(p), s') && ProduceBase(s, p) && r < |s.results|
    ensures ResultOk(s', r) && MemberOk(s', r)
  {
    assert ResultOk(s, r) && MemberOk(s, r);
    assert s.ctxs != [] ==> InputsOk(s, |s.ctxs| - 1);
    ProduceMoves(s, p, s');
    ProduceMember(s, p, s', r);
    if r == p {
      ProduceOwnSlot(s, p, s');
      ProduceOwnTimes(s, p, s');
      ProduceOwnProducer(s, p, s');
    } else {
      ProduceOther(s, p, s', r);
      ProduceOtherProducer(s, p, s', r);
    }
  }

  lemma ProduceCovers(s: State, p: nat, s': State)
    requires Inv(s) && Step(s, Produce(p), s') && ProduceBase(s, p)
    ensures CoverOk(s')
  {
    ProduceMoves(s, p, s');
    if (RegisteringAt(s'.co) || s'.co == Suspended) && s'.ctxs != [] {
      var inputs := Current(s).inputs;
      forall k | 0 <= k < High(s') && k < |inputs| && inputs[k] < |s'.results| ensures Covered(s', inputs[k]) {
        if inputs[k] == p {
          ProduceCover(s, p, s');
        } else {
          ProduceOtherCover(s, p, s', inputs[k]);
        }
      }
    }
  }

  lemma ProduceInv(s: State, p: nat, s': State)
    requires Inv(s) && Step(s, Produce(p), s')
    ensures Inv(s')
  {
    assert ResultOk(s, p) && MemberOk(s, p);
    assert s.ctxs != [] ==> ContextOk(s, |s.ctxs| - 1);
    assert ProduceBase(s, p);
    forall r: nat | r < |s'.results| ensures ResultOk(s', r) && MemberOk(s', r) {
      ProduceResult(s, p, s', r);
    }
    forall c: nat | c < |s'.ctxs| ensures ContextOk(s', c) && InputsOk(s', c) {
      assert ContextOk(s, c) && InputsOk(s, c);
      ProduceContext(s, p, s', c);
      ProduceInputs(s, p, s', c);
    }
    ProduceMoves(s, p, s');
    ProduceCoroutine(s, p, s');
    ProduceCovers(s, p, s');
    ProduceWinner(s, p, s');
  }

  lemma StepInv(s: State, e: Event, s': State)
    requires Inv(s) && Step(s, e, s')
    ensures Inv(s')
  {
    match e
    case StartRound(_) => StartInv(s, e, s');
    case StartAwait(_) => StartInv(s, e, s');
    case Consume => ConsumeInv(s, s');
    case Produce(r) => ProduceInv(s, r, s');
  }

  /** Every state of every run satisfies the invariant. */
  lemma RunInv(states: seq<State>, events: seq<Event>, n: nat)
    requires IsRun(states, events) && n < |states|
    ensures Inv(states[n])
  {
    forall s | Init(s) ensures Inv(s) {
      InitInv(s);
    }
    forall s, e, s' | Inv(s) && Step(s, e, s') ensures Inv(s') {
      StepInv(s, e, s');
    }
    Runs.InvariantHolds(Init, Step, Inv, states, events, n);
  }
}
