/**
 The functor queue of the event loop and its wakeup through an eventfd.

 The loop thread and any number of other threads interleave. What a thread does under the mutex
 is one step; a push and the write to the eventfd that follows it are two.
*/
module EventLoopModel {
  type Functor = nat

  /** Where the loop thread is: `Top` is the test of `while (!quit_)`. */
  datatype Pc = NotStarted | Top | Polling | Handling(wakeReported: bool) | Running | Exited

  /**
   `inFlight` counts the other threads that have pushed (or set quit_) and not yet written;
   `owes` is the same for the loop thread. `early` says that the loop thread queued a functor
   while it was not in loop(), and that the queue has not been swapped since.
   `pushed` and `executed` are history variables.
  */
  datatype State = State(
    pc: Pc,
    pending: seq<Functor>,
    calling: bool,
    quit: bool,
    counter: nat,
    batch: seq<Functor>,
    inFlight: nat,
    owes: bool,
    early: bool,
    pushed: seq<Functor>,
    executed: seq<Functor>)

  datatype Op =
    | OtherPush(f: Functor)
    | OtherQuit
    | OtherWakeup
    | Start
    | Check
    | PollReturns(wake: bool)
    | HandleWakeup
    | LoopPush(f: Functor)
    | LoopQuit
    | LoopWakeup
    | Swap
    | RunFunctor
    | EndRunning

  /** The greatest value of an eventfd: a write beyond it fails and changes nothing. */
  const MAX_COUNTER: nat := 0xFFFF_FFFF_FFFF_FFFE

  function Init(): State {
    State(NotStarted, [], false, false, 0, [], 0, false, false, [], [])
  }

  function Written(counter: nat): nat {
    if counter < MAX_COUNTER then counter + 1 else counter
  }

  /** The loop thread is not in loop(): it has not been called yet, or has returned. */
  predicate Outside(s: State) {
    s.pc.NotStarted? || s.pc.Exited?
  }

  /** User code runs on the loop thread: outside loop(), in an event handler, or in a functor. */
  predicate UserCode(s: State) {
    !s.owes && (Outside(s) || s.pc.Handling? || s.pc.Running?)
  }

  predicate Enabled(s: State, op: Op) {
    match op
    case OtherPush(_) => true
    case OtherQuit => true
    case OtherWakeup => s.inFlight > 0
    case Start => Outside(s) && !s.owes
    case Check => s.pc.Top?
    case PollReturns(wake) => s.pc.Polling? && (wake ==> s.counter > 0)
    case HandleWakeup => s.pc == Handling(true)
    case LoopPush(_) => UserCode(s)
    case LoopQuit => UserCode(s)
    case LoopWakeup => s.owes
    case Swap => s.pc == Handling(false) && !s.owes
    case RunFunctor => s.pc.Running? && !s.owes && s.batch != []
    case EndRunning => s.pc.Running? && !s.owes && s.batch == []
  }

  function Apply(s: State, op: Op): State
    requires Enabled(s, op)
  {
    match op
    case OtherPush(f) =>
      s.(pending := s.pending + [f], pushed := s.pushed + [f], inFlight := s.inFlight + 1)
    case OtherQuit => s.(quit := true, inFlight := s.inFlight + 1)
    case OtherWakeup => s.(inFlight := s.inFlight - 1, counter := Written(s.counter))
    case Start => s.(pc := Top, quit := false)
    case Check => s.(pc := if s.quit then Exited else Polling)
    case PollReturns(wake) => s.(pc := Handling(wake))
    case HandleWakeup => s.(pc := Handling(false), counter := 0)
    case LoopPush(f) =>
      s.(pending := s.pending + [f], pushed := s.pushed + [f], owes := s.calling,
         early := s.early || Outside(s))
    case LoopQuit => s.(quit := true)
    case LoopWakeup => s.(owes := false, counter := Written(s.counter))
    case Swap => s.(pc := Running, calling := true, batch := s.pending, pending := [], early := false)
    case RunFunctor => s.(batch := s.batch[1..], executed := s.executed + [s.batch[0]])
    case EndRunning => s.(pc := Top, calling := false)
  }

  function Step(s: State, op: Op): State {
    if Enabled(s, op) then Apply(s, op) else s
  }

  function Execute(s: State, ops: seq<Op>): State
    decreases |ops|
  {
    if ops == [] then s else Execute(Step(s, ops[0]), ops[1..])
  }

  lemma {:induction false} ExecuteConcat(s: State, a: seq<Op>, b: seq<Op>)
    ensures Execute(s, a + b) == Execute(Execute(s, a), b)
    decreases |a|
  {
    if a == [] {
      assert a + b == b;
    } else {
      assert (a + b)[0] == a[0] && (a + b)[1..] == a[1..] + b;
      ExecuteConcat(Step(s, a[0]), a[1..], b);
    }
  }

  lemma ExecuteOne(s: State, op: Op)
    ensures Execute(s, [op]) == Step(s, op)
  {
    assert [op][1..] == [];
    assert Execute(Step(s, op), []) == Step(s, op);
  }

  lemma ExecuteSnoc(s: State, a: seq<Op>, op: Op)
    ensures Execute(s, a + [op]) == Step(Execute(s, a), op)
  {
    ExecuteConcat(s, a, [op]);
    ExecuteOne(Execute(s, a), op);
  }

  // ---------- the invariant ----------

  ghost predicate Inv(s: State) {
    && s.executed + s.batch + s.pending == s.pushed
    && (s.calling <==> s.pc.Running?)
    && (s.batch != [] ==> s.pc.Running?)
    && (s.owes ==> s.pc.Running?)
    && s.counter <= MAX_COUNTER
    && (s.pc.Running? ==> !s.early)
    && (!s.pc.Handling? && s.pending != [] ==>
          s.counter > 0 || s.inFlight > 0 || s.owes || s.early)
    && (s.pc.Polling? && s.quit ==> s.counter > 0 || s.inFlight > 0)
  }

  lemma StepInv(s: State, op: Op)
    requires Inv(s)
    ensures Inv(Step(s, op))
  {
    StepFifo(s, op);
    StepWakes(s, op);
  }

  lemma StepFifo(s: State, op: Op)
    requires s.executed + s.batch + s.pending == s.pushed && (s.batch != [] ==> s.pc.Running?)
    ensures var r := Step(s, op); r.executed + r.batch + r.pending == r.pushed
  {
    if Enabled(s, op) && op.RunFunctor? {
      assert s.executed + s.batch == Step(s, op).executed + Step(s, op).batch;
    }
  }

  lemma StepWakes(s: State, op: Op)
    requires Inv(s)
    ensures var r := Step(s, op); r.executed + r.batch + r.pending == r.pushed ==> Inv(r)
  {
    hide Written;
    WrittenIs(s.counter);
  }

  lemma WrittenIs(n: nat)
    requires n <= MAX_COUNTER
    ensures 0 < Written(n) <= MAX_COUNTER
  {
  }

  lemma {:induction false} ExecuteInv(s: State, ops: seq<Op>)
    requires Inv(s)
    ensures Inv(Execute(s, ops))
    decreases |ops|
  {
    if ops != [] {
      StepInv(s, ops[0]);
      ExecuteInv(Step(s, ops[0]), ops[1..]);
    }
  }

  // ---------- what every run guarantees ----------

  /** The functors that the operations of a run push, in lock order. */
  function Pushes(s: State, ops: seq<Op>): seq<Functor>
    decreases |ops|
  {
    if ops == [] then [] else
      (if Enabled(s, ops[0]) && (ops[0].OtherPush? || ops[0].LoopPush?) then [ops[0].f] else [])
      + Pushes(Step(s, ops[0]), ops[1..])
  }

  lemma StepPushes(s: State, op: Op)
    ensures Step(s, op).pushed == s.pushed + (if Enabled(s, op) && (op.OtherPush? || op.LoopPush?) then [op.f] else [])
  {
  }

  lemma {:induction false} ExecutePushes(s: State, ops: seq<Op>)
    ensures Execute(s, ops).pushed == s.pushed + Pushes(s, ops)
    decreases |ops|
  {
    if ops == [] {
      assert s.pushed + [] == s.pushed;
    } else {
      hide Step, Enabled;
      StepPushes(s, ops[0]);
      ExecutePushes(Step(s, ops[0]), ops[1..]);
    }
  }

  /**
   Exactly once and in lock order: what has been executed, the rest of the batch, and the queue are
   together exactly the functors that the queueInLoop calls of the run have pushed.
  */
  lemma ExactlyOnceFifo(ops: seq<Op>)
    ensures var s := Execute(Init(), ops);
            s.executed + s.batch + s.pending == Pushes(Init(), ops) && (s.pc.Polling? ==> s.batch == [])
  {
    ExecuteInv(Init(), ops);
    ExecutePushes(Init(), ops);
    assert Init().pushed + Pushes(Init(), ops) == Pushes(Init(), ops);
  }

  /** quit stays in force until loop() is called again. */
  lemma {:induction false} QuitStays(s: State, ops: seq<Op>)
    requires s.quit && forall i :: 0 <= i < |ops| ==> ops[i] != Start
    ensures Execute(s, ops).quit
    decreases |ops|
  {
    if ops != [] {
      assert Step(s, ops[0]).quit;
      hide Step;
      QuitStays(Step(s, ops[0]), ops[1..]);
    }
  }

  /** A quit, from any thread, ends the loop at its next test, whatever happens before that. */
  lemma QuitEndsLoop(before: seq<Op>, op: Op, after: seq<Op>)
    requires (op == LoopQuit || op == OtherQuit) && forall i :: 0 <= i < |after| ==> after[i] != Start
    ensures var s := Execute(Init(), before);
            Enabled(s, op) ==>
              var r := Execute(Step(s, op), after);
              Enabled(r, Check) ==> Step(r, Check).pc.Exited?
  {
    var s := Execute(Init(), before);
    if Enabled(s, op) {
      QuitStays(Step(s, op), after);
    }
  }

  /** Outside loop() the loop thread itself queues nothing. */
  predicate Quiet(s: State, ops: seq<Op>)
    decreases |ops|
  {
    ops == [] || (!(ops[0].LoopPush? && Outside(s)) && Quiet(Step(s, ops[0]), ops[1..]))
  }

  lemma {:induction false} QuietIsNotEarly(s: State, ops: seq<Op>)
    requires Inv(s) && !s.early && Quiet(s, ops)
    ensures !Execute(s, ops).early
    decreases |ops|
  {
    if ops != [] {
      StepInv(s, ops[0]);
      QuietIsNotEarly(Step(s, ops[0]), ops[1..]);
    }
  }

  /**
   No lost wakeup: when the loop is at poll and the queue is not empty, the eventfd is readable or
   another thread is about to write it; the same when quit_ is set. The one exception is a functor
   that the loop thread itself queued outside loop() (EarlyPushSleeps), and it ends with the next swap.
   loop() may be called again after it has returned.
  */
  lemma NoLostWakeup(ops: seq<Op>)
    ensures var s := Execute(Init(), ops);
            && (s.pc.Polling? && s.pending != [] ==> s.counter > 0 || s.inFlight > 0 || s.early)
            && (s.pc.Polling? && s.quit ==> s.counter > 0 || s.inFlight > 0)
            && (Quiet(Init(), ops) ==> !s.early)
  {
    ExecuteInv(Init(), ops);
    if Quiet(Init(), ops) {
      QuietIsNotEarly(Init(), ops);
    }
  }

  /** The exception is real: the loop thread queues a functor, loop() starts, and it sleeps in poll. */
  lemma EarlyPushSleeps(f: Functor)
    ensures var s := Execute(Init(), [LoopPush(f), Start, Check]);
            s.pc.Polling? && s.pending == [f] && s.counter == 0 && s.inFlight == 0
  {
    var ops := [LoopPush(f), Start, Check];
    var s1 := Step(Init(), ops[0]);
    var s2 := Step(s1, ops[1]);
    var s3 := Step(s2, ops[2]);
    assert ops[1..] == [Start, Check] && ops[1..][1..] == [Check] && ops[1..][1..][1..] == [];
    assert Execute(s2, [Check]) == Execute(s3, []);
  }

  // ---------- progress ----------

  /** What has been pushed by now is executed or in the batch. */
  ghost predicate Taken(s: State, p: seq<Functor>) {
    p <= s.executed + s.batch
  }

  lemma TakenStep(s: State, op: Op, p: seq<Functor>)
    requires Inv(s) && Taken(s, p)
    ensures Taken(Step(s, op), p)
  {
    if Enabled(s, op) {
      if op.RunFunctor? {
        assert s.executed + s.batch == Step(s, op).executed + Step(s, op).batch;
      } else if op.Swap? {
        assert s.batch == [] && s.executed + s.batch == s.executed;
      }
    }
  }

  lemma {:induction false} TakenExecute(s: State, ops: seq<Op>, p: seq<Functor>)
    requires Inv(s) && Taken(s, p)
    ensures Taken(Execute(s, ops), p)
    decreases |ops|
  {
    if ops != [] {
      TakenStep(s, ops[0], p);
      StepInv(s, ops[0]);
      TakenExecute(Step(s, ops[0]), ops[1..], p);
    }
  }

  /**
   Whatever the other threads and the functors themselves do after it, everything that was pushed
   before a swap has been executed when the loop thread next leaves doPendingFunctors.
  */
  lemma PushedBeforeSwapIsExecuted(before: seq<Op>, after: seq<Op>)
    ensures var s := Execute(Init(), before);
            Enabled(s, Swap) ==>
              var r := Execute(Apply(s, Swap), after);
              !r.pc.Running? ==> s.pushed <= r.executed
  {
    ExecuteInv(Init(), before);
    var s := Execute(Init(), before);
    if Enabled(s, Swap) {
      var s1 := Apply(s, Swap);
      StepInv(s, Swap);
      assert s1.executed + s1.batch == s.pushed;
      TakenExecute(s1, after, s.pushed);
      ExecuteInv(s1, after);
    }
  }

  /** From poll, a readable eventfd brings the loop to its swap; nothing else is needed. */
  lemma WakeupReachesSwap(s: State)
    requires Inv(s) && s.pc.Polling? && s.counter > 0
    ensures var r := Execute(s, [PollReturns(true), HandleWakeup, Swap]);
            r.pc.Running? && r.batch == s.pending && r.pending == [] && r.counter == 0
  {
    var ops := [PollReturns(true), HandleWakeup, Swap];
    var s1 := Step(s, ops[0]);
    var s2 := Step(s1, ops[1]);
    var s3 := Step(s2, ops[2]);
    assert ops[1..] == [HandleWakeup, Swap] && ops[1..][1..] == [Swap] && ops[1..][1..][1..] == [];
    assert Execute(s2, [Swap]) == Execute(s3, []);
  }

  /** If nobody interferes, the batch is then executed in order and the loop is back at its test. */
  lemma {:induction false} BatchDrains(s: State)
    requires Inv(s) && s.pc.Running? && !s.owes
    ensures var r := Execute(s, seq(|s.batch|, _ => RunFunctor) + [EndRunning]);
            r == s.(pc := Top, calling := false, batch := [], executed := s.executed + s.batch)
    decreases |s.batch|
  {
    var ops := seq(|s.batch|, _ => RunFunctor) + [EndRunning];
    if s.batch == [] {
      assert ops == [EndRunning] && ops[1..] == [];
      assert Execute(Step(s, EndRunning), []) == Step(s, EndRunning);
      assert s.executed + s.batch == s.executed;
    } else {
      var s1 := Step(s, RunFunctor);
      StepInv(s, RunFunctor);
      assert ops[0] == RunFunctor && ops[1..] == seq(|s1.batch|, _ => RunFunctor) + [EndRunning];
      BatchDrains(s1);
      assert s1.executed + s1.batch == s.executed + s.batch;
    }
  }
}

/** The EventLoop class: its fields, updated in place by the loop thread and by the others. */
module EventLoopClass {
  import opened EventLoopModel

  /** What another thread may do at any moment. */
  type OtherOp = op: Op | op.OtherPush? || op.OtherQuit? || op.OtherWakeup? witness OtherQuit

  /** What user code on the loop thread does; other threads may run between a push and its wakeup. */
  datatype Act = Queue(f: Functor, between: seq<OtherOp>) | Quit | Others(ops: seq<OtherOp>)

  function ActOps(a: Act): seq<Op> {
    match a
    case Queue(f, between) => [LoopPush(f)] + between + [LoopWakeup]
    case Quit => [LoopQuit]
    case Others(ops) => ops
  }

  function ActsOps(acts: seq<Act>): seq<Op> {
    if acts == [] then [] else ActsOps(acts[..|acts| - 1]) + ActOps(acts[|acts| - 1])
  }

  /** A batch of `n` functors and what each of them does. */
  function BatchOps(n: nat, script: nat -> seq<Act>): seq<Op> {
    if n == 0 then [] else BatchOps(n - 1, script) + ([RunFunctor] + ActsOps(script(n - 1)))
  }

  /** One round of the loop: what happens while it polls, in the handlers before and after that of the eventfd, and in each functor. */
  datatype Round = Round(
    polling: seq<OtherOp>, wake: bool, before: seq<Act>, handlers: seq<Act>, functors: nat -> seq<Act>)

  lemma CallingMeansRunning(s: State)
    requires Inv(s)
    ensures s.calling <==> s.pc.Running?
    ensures s.pc.Running? ==> !s.early
  {
  }

  lemma TopInv(s: State)
    requires Inv(s) && s.pc.Top?
    ensures !s.owes
  {
  }

  lemma QueueRun(s: State, f: Functor, between: seq<OtherOp>)
    ensures Execute(s, ActOps(Queue(f, between))) ==
            Step(Execute(Step(s, LoopPush(f)), between), LoopWakeup)
  {
    ExecuteSnoc(s, [LoopPush(f)] + between, LoopWakeup);
    ExecuteConcat(s, [LoopPush(f)], between);
    ExecuteOne(s, LoopPush(f));
  }

  /** One more functor and what it does. */
  lemma BatchRun(s: State, n: nat, script: nat -> seq<Act>)
    ensures Execute(s, [Swap] + BatchOps(n + 1, script)) ==
            Execute(Step(Execute(s, [Swap] + BatchOps(n, script)), RunFunctor), ActsOps(script(n)))
  {
    hide Execute;
    var ops := [Swap] + BatchOps(n, script);
    assert [Swap] + BatchOps(n + 1, script) == ops + ([RunFunctor] + ActsOps(script(n)));
    ExecuteConcat(s, ops, [RunFunctor] + ActsOps(script(n)));
    ExecuteConcat(Execute(s, ops), [RunFunctor], ActsOps(script(n)));
    ExecuteOne(Execute(s, ops), RunFunctor);
  }

  class EventLoop {
    var pendingFunctos: seq<Functor>
    var callingPendingFunctos: bool
    var quitFlag: bool
    var wakeupCount: nat
    var inFlight: nat

    ghost var pc: Pc
    ghost var batch: seq<Functor>
    ghost var owes: bool
    ghost var early: bool
    ghost var pushed: seq<Functor>
    ghost var executed: seq<Functor>

    ghost function Abs(): State
      reads this
    {
      State(pc, pendingFunctos, callingPendingFunctos, quitFlag, wakeupCount, batch, inFlight, owes, early,
            pushed, executed)
    }

    constructor ()
      ensures Abs() == Init()
    {
      pendingFunctos, callingPendingFunctos, quitFlag, wakeupCount := [], false, false, 0;
      pc, batch, inFlight, owes, early, pushed, executed := NotStarted, [], 0, false, false, [], [];
    }

    method Wakeup()
      modifies this`wakeupCount
      ensures wakeupCount == Written(old(wakeupCount))
    {
      if wakeupCount < MAX_COUNTER {
        wakeupCount := wakeupCount + 1;
      }
    }

    method HandleRead()
      requires pc == Handling(true)
      modifies this
      ensures Abs() == Apply(old(Abs()), HandleWakeup)
    {
      wakeupCount := 0;
      pc := Handling(false);
    }

    /** One step of another thread: the locked part of its queueInLoop, its quit, or its write. */
    method OtherThread(op: OtherOp)
      modifies this
      ensures Abs() == Step(old(Abs()), op)
      ensures pushed == old(pushed) + (if op.OtherPush? then [op.f] else [])
    {
      match op
      case OtherPush(f) =>
        pendingFunctos := pendingFunctos + [f];
        pushed, inFlight := pushed + [f], inFlight + 1;
      case OtherQuit =>
        quitFlag := true;
        inFlight := inFlight + 1;
      case OtherWakeup =>
        if inFlight > 0 {
          inFlight := inFlight - 1;
          Wakeup();
        }
    }

    method OtherThreads(ops: seq<OtherOp>)
      modifies this
      ensures Abs() == Execute(old(Abs()), ops)
      ensures pc == old(pc) && callingPendingFunctos == old(callingPendingFunctos) && owes == old(owes)
      ensures batch == old(batch) && executed == old(executed) && old(pushed) <= pushed
    {
      ghost var s0 := Abs();
      for i := 0 to |ops|
        invariant Execute(Abs(), ops[i..]) == Execute(s0, ops)
        invariant pc == old(pc) && callingPendingFunctos == old(callingPendingFunctos) && owes == old(owes)
        invariant batch == old(batch) && executed == old(executed) && old(pushed) <= pushed
      {
        assert ops[i..][0] == ops[i] && ops[i..][1..] == ops[i + 1..];
        OtherThread(ops[i]);
      }
      assert ops[|ops|..] == [];
    }

    /** queueInLoop on the loop thread. It writes the eventfd only while functors are being run. */
    method QueueInLoop(f: Functor, between: seq<OtherOp>)
      requires Inv(Abs()) && UserCode(Abs())
      modifies this
      ensures Inv(Abs()) && UserCode(Abs()) && pc == old(pc) && batch == old(batch) && executed == old(executed)
      ensures Abs() == Execute(old(Abs()), ActOps(Queue(f, between)))
      ensures old(pushed) + [f] <= pushed
    {
      hide Execute, Inv;
      ghost var s0 := Abs();
      ExecuteInv(s0, ActOps(Queue(f, between)));
      QueueRun(s0, f, between);
      CallingMeansRunning(s0);
      pendingFunctos := pendingFunctos + [f];
      pushed := pushed + [f];
      owes := callingPendingFunctos;
      early := early || pc.NotStarted? || pc.Exited?;
      OtherThreads(between);
      if callingPendingFunctos {
        Wakeup();
        owes := false;
      }
    }

    method QuitInLoop()
      requires UserCode(Abs())
      modifies this
      ensures Abs() == Apply(old(Abs()), LoopQuit)
    {
      quitFlag := true;
    }

    /** What a handler or a functor does. */
    method RunActs(acts: seq<Act>)
      requires Inv(Abs()) && UserCode(Abs())
      modifies this
      ensures Inv(Abs()) && UserCode(Abs()) && pc == old(pc) && batch == old(batch) && executed == old(executed)
      ensures Abs() == Execute(old(Abs()), ActsOps(acts))
    {
      ghost var s0 := Abs();
      for i := 0 to |acts|
        invariant Inv(Abs()) && UserCode(Abs()) && pc == old(pc) && batch == old(batch) && executed == old(executed)
        invariant Abs() == Execute(s0, ActsOps(acts[..i]))
      {
        assert acts[..i + 1][..i] == acts[..i];
        ExecuteConcat(s0, ActsOps(acts[..i]), ActOps(acts[i]));
        ExecuteInv(Abs(), ActOps(acts[i]));
        match acts[i] {
          case Queue(f, between) => QueueInLoop(f, between);
          case Quit => ExecuteOne(Abs(), LoopQuit); QuitInLoop();
          case Others(ops) => OtherThreads(ops);
        }
      }
      assert acts[..|acts|] == acts;
    }

    /**
     doPendingFunctors, whatever the functors and the other threads do meanwhile: it runs exactly
     the functors that were queued when it swapped, in order.
    */
    method DoPendingFunctors(script: nat -> seq<Act>)
      requires Inv(Abs()) && pc == Handling(false) && !owes
      modifies this
      ensures Inv(Abs()) && pc.Top?
      ensures Abs() == Execute(old(Abs()), [Swap] + BatchOps(|old(pendingFunctos)|, script) + [EndRunning])
      ensures old(executed) + old(pendingFunctos) == executed
    {
      hide Execute, Inv;
      ghost var s0 := Abs();
      var functors := SwapFunctors();
      assert [Swap] + BatchOps(0, script) == [Swap];
      ExecuteOne(s0, Swap);
      for i := 0 to |functors|
        invariant Inv(Abs()) && pc.Running? && !owes && batch == functors[i..]
        invariant Abs() == Execute(s0, [Swap] + BatchOps(i, script))
        invariant executed + batch == old(executed) + functors
      {
        BatchRun(s0, i, script);
        RunOneFunctor(functors[i], script(i));
      }
      StepInv(Abs(), EndRunning);
      ExecuteSnoc(s0, [Swap] + BatchOps(|functors|, script), EndRunning);
      callingPendingFunctos := false;
      pc := Top;
    }

    method SwapFunctors() returns (functors: seq<Functor>)
      requires Inv(Abs()) && pc == Handling(false) && !owes
      modifies this
      ensures Inv(Abs()) && Abs() == Step(old(Abs()), Swap) && pc.Running?
      ensures functors == old(pendingFunctos) == batch && executed == old(executed)
    {
      StepInv(Abs(), Swap);
      hide Inv;
      callingPendingFunctos := true;
      functors := pendingFunctos;
      pendingFunctos := [];
      pc, batch, early := Running, functors, false;
    }

    /** `functor()` */
    method RunOneFunctor(functor: Functor, acts: seq<Act>)
      requires Inv(Abs()) && pc.Running? && !owes && batch != [] && batch[0] == functor
      modifies this
      ensures Inv(Abs()) && pc.Running? && !owes && batch == old(batch)[1..]
      ensures Abs() == Execute(Step(old(Abs()), RunFunctor), ActsOps(acts))
      ensures executed + batch == old(executed) + old(batch)
    {
      hide Execute, Inv;
      StepInv(Abs(), RunFunctor);
      batch, executed := batch[1..], executed + [functor];
      RunActs(acts);
    }

    /**
     loop(), for any number of rounds (`limit`) of any environment: a run of the state machine, which
     ends because quit_ was seen, or is cut off at the top of its loop.
    */
    method Loop(rounds: nat -> Round, limit: nat) returns (ghost run: seq<Op>)
      requires Inv(Abs()) && Outside(Abs()) && !owes
      modifies this
      ensures Inv(Abs()) && Abs() == Execute(old(Abs()), run)
      ensures pc.Exited? || pc.Top?
    {
      ghost var s0 := Abs();
      StepInv(s0, Start);
      ExecuteOne(s0, Start);
      quitFlag := false;
      pc := Top;
      run := [Start];
      var n := 0;
      while !quitFlag && n < limit
        invariant Inv(Abs()) && pc.Top? && Abs() == Execute(s0, run)
        decreases limit - n
      {
        ghost var more := OneRound(rounds(n));
        ExecuteConcat(s0, run, more);
        run := run + more;
        n := n + 1;
      }
      if quitFlag {
        StepInv(Abs(), Check);
        ExecuteSnoc(s0, run, Check);
        run := run + [Check];
        pc := Exited;
      }
    }

    /** poll(); whether it reports the wakeup channel. */
    method Poll(round: Round) returns (wake: bool, ghost run: seq<Op>)
      requires Inv(Abs()) && pc.Top? && !quitFlag
      modifies this
      ensures Inv(Abs()) && pc == Handling(wake) && !owes && Abs() == Execute(old(Abs()), run)
    {
      hide Execute, Inv;
      ghost var s0 := Abs();
      TopInv(s0);
      StepInv(s0, Check);
      ExecuteOne(s0, Check);
      pc := Polling;
      ExecuteInv(Abs(), round.polling);
      ExecuteConcat(s0, [Check], round.polling);
      OtherThreads(round.polling);
      run := [Check] + round.polling;
      wake := round.wake && wakeupCount > 0;
      StepInv(Abs(), PollReturns(wake));
      ExecuteSnoc(s0, run, PollReturns(wake));
      run := run + [PollReturns(wake)];
      pc := Handling(wake);
    }

    /** The handlers of the active channels; that of the eventfd is one of them if it is reported. */
    method HandleEvents(round: Round, wake: bool) returns (ghost run: seq<Op>)
      requires Inv(Abs()) && pc == Handling(wake) && !owes
      modifies this
      ensures Inv(Abs()) && pc == Handling(false) && !owes && Abs() == Execute(old(Abs()), run)
    {
      hide Execute, Inv;
      ghost var s0 := Abs();
      run := ActsOps(round.before);
      RunActs(round.before);
      if wake {
        StepInv(Abs(), HandleWakeup);
        ExecuteSnoc(s0, run, HandleWakeup);
        run := run + [HandleWakeup];
        HandleRead();
      }
      ExecuteConcat(s0, run, ActsOps(round.handlers));
      run := run + ActsOps(round.handlers);
      RunActs(round.handlers);
    }

    /** The body of the loop: poll, handle events, run the functors. */
    method OneRound(round: Round) returns (ghost run: seq<Op>)
      requires Inv(Abs()) && pc.Top? && !quitFlag
      modifies this
      ensures Inv(Abs()) && pc.Top? && Abs() == Execute(old(Abs()), run)
    {
      hide Execute, Inv;
      ghost var s0 := Abs();
      var wake;
      wake, run := Poll(round);
      ghost var more := HandleEvents(round, wake);
      ExecuteConcat(s0, run, more);
      run := run + more;
      ghost var last := [Swap] + BatchOps(|pendingFunctos|, round.functors) + [EndRunning];
      ExecuteConcat(s0, run, last);
      run := run + last;
      DoPendingFunctors(round.functors);
    }
  }
}
