/**
 when_any over result states: one consuming coroutine registers a context with any number
 of results, while the producers of those results complete concurrently.
 One event is one atomic load, exchange or compare-and-swap (or one access to the
 unsynchronised consumer slot); producers and coroutine interleave freely, and the
 coroutine may go through any number of when_any rounds and awaits over the same results.
 */
module WhenAny {
  import Runs
  import opened Sequences

  datatype PcState = Idle | ConsumerSet | ConsumerWaiting | ConsumerDone | ProducerDone

  /** The consumer slot of a result state (m_consumer). */
  datatype Consumer = NoConsumer | AwaitHandle | WhenAnyContext(ctx: nat)

  /** m_status of a when_any context: a result pointer once some result won. */
  datatype Status = Processing | DoneProcessing | Completed(result: nat)

  /** What await_suspend returned for a context, if it returned yet. */
  datatype Suspend = Registering | ReturnedFalse | ReturnedTrue

  /** A when_any context; `calls` counts the calls of its coroutine handle. */
  datatype Context = Context(status: Status, inputs: seq<nat>, suspend: Suspend, calls: nat)

  /** Where the producer of a result is in complete_producer. */
  datatype Producer =
    | Producing
    | ResumeConsumer
    | LoadStatus(ctx: nat, iteration: nat)
    | SwapDone(ctx: nat, iteration: nat)
    | SwapProcessing(ctx: nat, iteration: nat)
    | CallHandle(ctx: nat)
    | CallAwait
    | Returned

  /**
   A result state. The three times are the event numbers of the latest registration's
   load of m_pc_state, of its compare-and-swap, and of the producer's exchange.
   */
  datatype Result = Result(pc: PcState, consumer: Consumer, producer: Producer,
                           loadedAt: nat, swappedAt: nat, doneAt: nat)

  /** Where the consuming coroutine is; `i` is the index of the input being handled. */
  datatype Coroutine =
    | Ready
    | CheckFinished(i: nat)
    | LoadPc(i: nat)
    | SetContext(i: nat)
    | SwapPc(i: nat)
    | InlineLoad(i: nat)
    | InlineSwap(i: nat)
    | FinishProcessing
    | Suspended
    | LoadCompleted
    | RewindLoad(i: nat, winner: Status, index: int)
    | RewindSwap(i: nat, winner: Status, index: int)
    | RewindClear(i: nat, winner: Status, index: int)
    | Finished(index: int)
    | AwaitLoad(r: nat)
    | AwaitSet(r: nat)
    | AwaitSwap(r: nat)
    | AwaitSuspended(r: nat)

  /** `observed` selects the variant in which when_any reports the state its swap observed. */
  datatype State = State(results: seq<Result>, ctxs: seq<Context>, co: Coroutine, now: nat, observed: bool)

  datatype Event = StartRound(inputs: seq<nat>) | StartAwait(r: nat) | Consume | Produce(r: nat)

  /** A round is over distinct results of which there are `results`. */
  predicate Inputs(inputs: seq<nat>, results: nat) {
    inputs != [] && Distinct(inputs) && forall i :: 0 <= i < |inputs| ==> inputs[i] < results
  }

  predicate ValidInputs(s: State, inputs: seq<nat>) {
    Inputs(inputs, |s.results|)
  }

  // The current round is the one of the youngest context.

  function Current(s: State): Context
    requires s.ctxs != []
  {
    s.ctxs[|s.ctxs| - 1]
  }

  function SetCurrent(s: State, c: Context): State
    requires s.ctxs != []
  {
    s.(ctxs := s.ctxs[|s.ctxs| - 1 := c])
  }

  function SetResult(s: State, r: nat, x: Result): State
    requires r < |s.results|
  {
    s.(results := s.results[r := x])
  }

  // ---------- the coroutine ----------

  predicate InRound(co: Coroutine) {
    !co.Ready? && !co.Finished? && !co.AwaitLoad? && !co.AwaitSet? && !co.AwaitSwap? && !co.AwaitSuspended?
  }

  predicate HasInput(co: Coroutine) {
    co.CheckFinished? || co.LoadPc? || co.SetContext? || co.SwapPc? || co.InlineLoad? || co.InlineSwap?
    || co.RewindLoad? || co.RewindSwap? || co.RewindClear?
  }

  predicate AtInput(s: State, co: Coroutine) {
    InRound(co) ==>
      && s.ctxs != []
      && (HasInput(co) ==> co.i < |Current(s).inputs| && Current(s).inputs[co.i] < |s.results|)
  }

  predicate AtAwait(s: State, co: Coroutine) {
    co.AwaitLoad? || co.AwaitSet? || co.AwaitSwap? ==> co.r < |s.results|
  }

  predicate ConsumeEnabled(s: State) {
    && !s.co.Ready? && !s.co.Finished? && !s.co.Suspended? && !s.co.AwaitSuspended?
    && AtInput(s, s.co) && AtAwait(s, s.co)
  }

  /** The position after input i is registered: the next input, or finish_processing. */
  function NextInput(s: State, i: nat): Coroutine
    requires s.ctxs != []
  {
    if i + 1 < |Current(s).inputs| then CheckFinished(i + 1) else FinishProcessing
  }

  /** await_resume's loop: the next input to rewind, or the returned index. */
  function NextRewind(s: State, i: nat, winner: Status, index: int): Coroutine
    requires s.ctxs != [] && i < |Current(s).inputs|
  {
    var found := if winner == Completed(Current(s).inputs[i]) then i else index;
    if i + 1 < |Current(s).inputs| then RewindLoad(i + 1, winner, found) else Finished(found)
  }

  /** One atomic operation of the coroutine inside result_state_base::await. */
  function ApplyAwait(s: State): State
    requires ConsumeEnabled(s)
  {
    match s.co
    case AwaitLoad(r) => s.(co := if s.results[r].pc == ProducerDone then Ready else AwaitSet(r))
    case AwaitSet(r) => SetResult(s, r, s.results[r].(consumer := AwaitHandle)).(co := AwaitSwap(r))
    case AwaitSwap(r) =>
      if s.results[r].pc == Idle then
        SetResult(s, r, s.results[r].(pc := ConsumerSet)).(co := AwaitSuspended(r))
      else s.(co := Ready)
    case _ => s
  }

  /** One atomic operation of the coroutine inside await_suspend or await_resume. */
  function ApplyRound(s: State): State
    requires ConsumeEnabled(s) && InRound(s.co)
  {
    var ctx := Current(s);
    match s.co
    case CheckFinished(i) =>
      if ctx.status == Processing then s.(co := LoadPc(i))
      else SetCurrent(s, ctx.(suspend := ReturnedFalse)).(co := LoadCompleted)
    case LoadPc(i) =>
      var r := ctx.inputs[i];
      SetResult(s, r, s.results[r].(loadedAt := s.now))
        .(co := if s.results[r].pc == ProducerDone then InlineLoad(i) else SetContext(i))
    case SetContext(i) =>
      var r := ctx.inputs[i];
      SetResult(s, r, s.results[r].(consumer := WhenAnyContext(|s.ctxs| - 1))).(co := SwapPc(i))
    case SwapPc(i) =>
      var r := ctx.inputs[i];
      var x := s.results[r];
      if x.pc == Idle then
        SetResult(s, r, x.(pc := ConsumerSet, swappedAt := s.now)).(co := NextInput(s, i))
      else
        SetResult(s, r, x.(swappedAt := s.now)).(co := if s.observed then InlineLoad(i) else NextInput(s, i))
    case InlineLoad(i) =>
      if ctx.status == Processing then s.(co := InlineSwap(i))
      else SetCurrent(s, ctx.(suspend := ReturnedFalse)).(co := LoadCompleted)
    case InlineSwap(i) =>
      var status := if ctx.status == Processing then Completed(ctx.inputs[i]) else ctx.status;
      SetCurrent(s, ctx.(status := status, suspend := ReturnedFalse)).(co := LoadCompleted)
    case FinishProcessing =>
      if ctx.status == Processing then
        SetCurrent(s, ctx.(status := DoneProcessing, suspend := ReturnedTrue)).(co := Suspended)
      else SetCurrent(s, ctx.(suspend := ReturnedFalse)).(co := LoadCompleted)
    case LoadCompleted =>
      s.(co := if ctx.inputs == [] then Finished(-1) else RewindLoad(0, ctx.status, -1))
    case RewindLoad(i, winner, index) =>
      if s.results[ctx.inputs[i]].pc != ConsumerSet then s.(co := NextRewind(s, i, winner, index))
      else s.(co := RewindSwap(i, winner, index))
    case RewindSwap(i, winner, index) =>
      var r := ctx.inputs[i];
      if s.results[r].pc == ConsumerSet then
        SetResult(s, r, s.results[r].(pc := Idle)).(co := RewindClear(i, winner, index))
      else s.(co := NextRewind(s, i, winner, index))
    case RewindClear(i, winner, index) =>
      var r := ctx.inputs[i];
      SetResult(s, r, s.results[r].(consumer := NoConsumer)).(co := NextRewind(s, i, winner, index))
    case _ => s
  }

  // ---------- a producer ----------

  predicate InContext(p: Producer) {
    p.LoadStatus? || p.SwapDone? || p.SwapProcessing? || p.CallHandle?
  }

  predicate ProduceEnabled(s: State, r: nat) {
    && r < |s.results|
    && !s.results[r].producer.Returned?
    && (InContext(s.results[r].producer) ==> s.results[r].producer.ctx < |s.ctxs|)
  }

  function SetStatus(s: State, c: nat, status: Status): State
    requires c < |s.ctxs|
  {
    s.(ctxs := s.ctxs[c := s.ctxs[c].(status := status)])
  }

  function SetProducer(s: State, r: nat, p: Producer): State
    requires r < |s.results|
  {
    SetResult(s, r, s.results[r].(producer := p))
  }

  /** One atomic operation of complete_producer, resume_consumer or try_resume. */
  function ApplyProduce(s: State, r: nat): State
    requires ProduceEnabled(s, r)
  {
    var x := s.results[r];
    match x.producer
    case Producing =>
      SetResult(s, r, x.(pc := ProducerDone, doneAt := s.now,
                         producer := if x.pc == ConsumerSet then ResumeConsumer else Returned))
    case ResumeConsumer =>
      SetProducer(s, r, match x.consumer
                        case NoConsumer => Returned
                        case AwaitHandle => CallAwait
                        case WhenAnyContext(c) => LoadStatus(c, 1))
    case LoadStatus(c, k) =>
      SetProducer(s, r, match s.ctxs[c].status
                        case Completed(_) => Returned
                        case DoneProcessing => SwapDone(c, k)
                        case Processing => SwapProcessing(c, k))
    case SwapDone(c, k) =>
      if s.ctxs[c].status == DoneProcessing then SetStatus(SetProducer(s, r, CallHandle(c)), c, Completed(r))
      else SetProducer(s, r, Returned)
    case SwapProcessing(c, k) =>
      if s.ctxs[c].status == Processing then SetStatus(SetProducer(s, r, Returned), c, Completed(r))
      else SetProducer(s, r, LoadStatus(c, k + 1))
    case CallHandle(c) =>
      SetProducer(s, r, Returned).(ctxs := s.ctxs[c := s.ctxs[c].(calls := s.ctxs[c].calls + 1)], co := LoadCompleted)
    case CallAwait =>
      SetProducer(s, r, Returned).(co := Ready)
    case Returned => s
  }

  // ---------- the step system ----------

  predicate Enabled(s: State, e: Event) {
    match e
    case StartRound(inputs) => (s.co.Ready? || s.co.Finished?) && ValidInputs(s, inputs)
    case StartAwait(r) => (s.co.Ready? || s.co.Finished?) && r < |s.results|
    case Consume => ConsumeEnabled(s)
    case Produce(r) => ProduceEnabled(s, r)
  }

  function Apply(s: State, e: Event): State
    requires Enabled(s, e)
  {
    match e
    case StartRound(inputs) =>
      s.(ctxs := s.ctxs + [Context(Processing, inputs, Registering, 0)], co := CheckFinished(0))
    case StartAwait(r) => s.(co := AwaitLoad(r))
    case Consume => if InRound(s.co) then ApplyRound(s) else ApplyAwait(s)
    case Produce(r) => ApplyProduce(s, r)
  }

  ghost predicate Step(s: State, e: Event, s': State) {
    Enabled(s, e) && s' == Apply(s, e).(now := s.now + 1)
  }

  ghost predicate Init(s: State) {
    && s.ctxs == [] && s.co == Ready && s.now == 1
    && forall r :: 0 <= r < |s.results| ==> s.results[r] == Result(Idle, NoConsumer, Producing, 0, 0, 0)
  }

  ghost predicate IsRun(states: seq<State>, events: seq<Event>) {
    Runs.IsRun(Init, Step, states, events)
  }
}
