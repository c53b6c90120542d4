/**
 A connector: it opens a socket, waits until it is writable, and hands it over; after a failure it
 closes the socket and tries again later. Sockets are numbered in the order of their creation.
*/
module ConnectorModel {
  import opened Common

  type Sock = nat

  datatype State = Disconnected | Connecting | Connected

  const INIT_RETRY_DELAY_MS: nat := 500
  const MAX_RETRY_DELAY_MS: nat := 30000

  /** What connect(2) answers: done or under way, an error worth a retry, or any other error. */
  datatype Outcome = InProgress | Retryable | Fatal

  datatype Functor = RunStart | RunStop | RunReset

  datatype Handler = OnError | OnWrite

  /** What a poll reports for the channel. */
  datatype Report = Report(error: bool, write: bool)

  /**
   `functors` are the queued functors, `timers` the pending retry timers, `report` what the last poll
   reported and is not yet dispatched, and `todo` the callbacks that a dispatch has still to make.
   `registered` tells whether the poller watches the channel.
   The fields after it are history: `waits` the delays since construction or restart, `gaveUp` that
   the last attempt ended with a fatal error, `fault` that an assert failed.
  */
  datatype Conn = Conn(
    connect: bool,
    state: State,
    channel: Option<Sock>,
    retryDelay: nat,
    functors: seq<Functor>,
    timers: nat,
    report: Option<Report>,
    todo: seq<Handler>,
    registered: bool,
    created: nat,
    closed: multiset<Sock>,
    handed: multiset<Sock>,
    waits: seq<nat>,
    gaveUp: bool,
    fault: bool)

  function Init(): Conn {
    Conn(false, Disconnected, None, INIT_RETRY_DELAY_MS, [], 0, None, [], false, 0, multiset{}, multiset{}, [], false, false)
  }

  // ---------- the functions of the connector ----------

  function Min(a: nat, b: nat): nat { if a <= b then a else b }

  /** retry: close, and wait for the next attempt if one is wanted. */
  function Retry(c: Conn, s: Sock): Conn {
    var c1 := c.(closed := c.closed + multiset{s}, state := Disconnected);
    if !c.connect then c1 else
      c1.(timers := c.timers + 1, waits := c.waits + [c.retryDelay],
          retryDelay := Min(2 * c.retryDelay, MAX_RETRY_DELAY_MS))
  }

  /** connecting. */
  function Await(c: Conn, s: Sock): Conn {
    c.(state := Connecting, channel := Some(s), registered := true, fault := c.fault || c.channel.Some?)
  }

  /** connect, with a new socket. */
  function Connect(c: Conn, out: Outcome): Conn {
    var s := c.created;
    var c1 := c.(created := s + 1, gaveUp := out.Fatal?);
    match out
    case InProgress => Await(c1, s)
    case Retryable => Retry(c1, s)
    case Fatal => c1.(closed := c1.closed + multiset{s})
  }

  function StartInLoop(c: Conn, out: Outcome): Conn {
    var c1 := c.(fault := c.fault || c.state != Disconnected);
    if c1.connect then Connect(c1, out) else c1
  }

  /** removeAndResetChannel; the channel object stays until the queued functor has run. */
  function RemoveChannel(c: Conn): Conn {
    c.(registered := false, functors := c.functors + [RunReset], fault := c.fault || c.channel.None?)
  }

  function SockOf(c: Conn): Sock {
    if c.channel.Some? then c.channel.value else 0
  }

  function StopInLoop(c: Conn): Conn {
    if c.state == Connecting then Retry(RemoveChannel(c.(state := Disconnected)), SockOf(c)) else c
  }

  function ResetChannel(c: Conn): Conn {
    c.(channel := None)
  }

  /** handleWrite; `failed` tells that SO_ERROR is set or that the socket is connected to itself. */
  function HandleWrite(c: Conn, failed: bool): Conn {
    if c.state == Connecting then
      var s, c1 := SockOf(c), RemoveChannel(c);
      if failed then Retry(c1, s)
      else if c.connect then c1.(state := Connected, handed := c.handed + multiset{s})
      else c1.(state := Connected, closed := c.closed + multiset{s})
    else c.(fault := c.fault || c.state != Disconnected)
  }

  function HandleError(c: Conn): Conn {
    if c.state == Connecting then Retry(RemoveChannel(c), SockOf(c)) else c
  }

  function Restart(c: Conn, out: Outcome): Conn {
    StartInLoop(c.(state := Disconnected, retryDelay := INIT_RETRY_DELAY_MS, connect := true, waits := []), out)
  }

  // ---------- runs ----------

  datatype Op =
    | DoStart                           // from another thread
    | DoStartHere(out: Outcome)         // from the loop thread
    | DoStop
    | DoRestart(out: Outcome)
    | DoFunctor(out: Outcome)
    | DoTimer(out: Outcome)
    | DoPoll(report: Report)
    | DoDispatch
    | DoHandle(failed: bool)

  /**
   start and stop can come at any time; in the loop thread, start, restart and a retry timer also
   between a poll that reports an event and its dispatch. Functors run when all events are dispatched.
   A retry timer can be due before the functor that was queued just before it was set has run: the
   callbacks of other channels may take longer than its delay.
  */
  predicate Enabled(c: Conn, op: Op) {
    match op
    case DoStart => true
    case DoStop => true
    case DoStartHere(_) => c.todo == []
    case DoRestart(_) => c.todo == []
    case DoFunctor(_) => c.report.None? && c.todo == [] && c.functors != []
    case DoTimer(_) => c.todo == [] && c.timers > 0
    case DoPoll(_) => c.registered && c.report.None? && c.todo == []
    case DoDispatch => c.report.Some? && c.todo == []
    case DoHandle(_) => c.todo != []
  }

  function Apply(c: Conn, op: Op): Conn
    requires Enabled(c, op)
  {
    match op
    case DoStart => c.(connect := true, functors := c.functors + [RunStart])
    case DoStartHere(out) => StartInLoop(c.(connect := true), out)
    case DoStop => c.(connect := false, functors := c.functors + [RunStop])
    case DoRestart(out) => Restart(c, out)
    case DoFunctor(out) =>
      var c1 := c.(functors := c.functors[1..]);
      (match c.functors[0]
       case RunStart => StartInLoop(c1, out)
       case RunStop => StopInLoop(c1)
       case RunReset => ResetChannel(c1))
    case DoTimer(out) => StartInLoop(c.(timers := c.timers - 1), out)
    case DoPoll(report) => c.(report := Some(report))
    case DoDispatch => c.(report := None, todo := Dispatch(c.report.value))
    case DoHandle(failed) =>
      var c1 := c.(todo := c.todo[1..]);
      if c.todo[0].OnError? then HandleError(c1) else HandleWrite(c1, failed)
  }

  /** handleEventWithGuard: the error callback comes first. */
  function Dispatch(report: Report): seq<Handler> {
    (if report.error then [OnError] else []) + (if report.write then [OnWrite] else [])
  }

  function Step(c: Conn, op: Op): Conn {
    if Enabled(c, op) then Apply(c, op) else c
  }

  function Execute(c: Conn, ops: seq<Op>): Conn
    decreases |ops|
  {
    if ops == [] then c else Execute(Step(c, ops[0]), ops[1..])
  }

  lemma {:induction false} ExecuteConcat(c: Conn, a: seq<Op>, b: seq<Op>)
    ensures Execute(c, a + b) == Execute(Execute(c, a), b)
    decreases |a|
  {
    if a == [] {
      assert a + b == b;
    } else {
      hide Step;
      assert (a + b)[0] == a[0] && (a + b)[1..] == a[1..] + b;
      ExecuteConcat(Step(c, a[0]), a[1..], b);
    }
  }

  lemma ExecuteOne(c: Conn, op: Op)
    ensures Execute(c, [op]) == Step(c, op)
  {
    hide Step;
    assert [op][1..] == [];
  }

  // ---------- back-off ----------

  function Pow2(k: nat): nat {
    if k == 0 then 1 else 2 * Pow2(k - 1)
  }

  function Backoff(k: nat): nat {
    Min(INIT_RETRY_DELAY_MS * Pow2(k), MAX_RETRY_DELAY_MS)
  }

  ghost predicate BackedOff(c: Conn) {
    c.retryDelay == Backoff(|c.waits|) && forall k :: 0 <= k < |c.waits| ==> c.waits[k] == Backoff(k)
  }

  lemma BackoffNext(k: nat)
    ensures Backoff(k + 1) == Min(2 * Backoff(k), MAX_RETRY_DELAY_MS)
  {
  }

  /** The ways in which a step changes the delay: not at all, back to the start, or on to the next one. */
  predicate BacksOff(c: Conn, r: Conn) {
    || (r.retryDelay == c.retryDelay && r.waits == c.waits)
    || (r.retryDelay == INIT_RETRY_DELAY_MS && r.waits == [])
    || (r.retryDelay == Min(2 * c.retryDelay, MAX_RETRY_DELAY_MS) && r.waits == c.waits + [c.retryDelay])
    || (r.retryDelay == Min(2 * INIT_RETRY_DELAY_MS, MAX_RETRY_DELAY_MS) && r.waits == [INIT_RETRY_DELAY_MS])
  }

  lemma StepChangesDelay(c: Conn, op: Op)
    ensures BacksOff(c, Step(c, op))
  {
    hide Dispatch, Min, StartInLoop, Retry;
    if Enabled(c, op) {
      match op
      case DoStartHere(out) => StartDelays(c.(connect := true), out);
      case DoRestart(out) =>
        var c1 := c.(state := Disconnected, retryDelay := INIT_RETRY_DELAY_MS, connect := true, waits := []);
        StartDelays(c1, out);
      case DoTimer(out) => StartDelays(c.(timers := c.timers - 1), out);
      case DoFunctor(out) =>
        FunctorDelays(c, out);
      case DoHandle(_) =>
        var c1 := c.(todo := c.todo[1..]);
        RetryDelays(RemoveChannel(c1), SockOf(c1));
      case _ =>
    }
  }

  lemma FunctorDelays(c: Conn, out: Outcome)
    requires Enabled(c, DoFunctor(out))
    ensures BacksOff(c, Step(c, DoFunctor(out)))
  {
    hide Min, StartInLoop, Retry;
    var c1 := c.(functors := c.functors[1..]);
    StartDelays(c1, out);
    RetryDelays(RemoveChannel(c1.(state := Disconnected)), SockOf(c1));
  }

  lemma RetryDelays(c: Conn, s: Sock)
    ensures var r := Retry(c, s);
            || (r.retryDelay == c.retryDelay && r.waits == c.waits)
            || (r.retryDelay == Min(2 * c.retryDelay, MAX_RETRY_DELAY_MS) && r.waits == c.waits + [c.retryDelay])
  {
  }

  lemma StartDelays(c: Conn, out: Outcome)
    ensures var r := StartInLoop(c, out);
            || (r.retryDelay == c.retryDelay && r.waits == c.waits)
            || (r.retryDelay == Min(2 * c.retryDelay, MAX_RETRY_DELAY_MS) && r.waits == c.waits + [c.retryDelay])
  {
  }

  lemma StepBacksOff(c: Conn, op: Op)
    requires BackedOff(c)
    ensures BackedOff(Step(c, op))
  {
    hide Step;
    StepChangesDelay(c, op);
    StaysBackedOff(c, Step(c, op));
  }

  lemma StaysBackedOff(c: Conn, r: Conn)
    requires BackedOff(c) && BacksOff(c, r)
    ensures BackedOff(r)
  {
    BackoffNext(|c.waits|);
    BackoffNext(0);
    assert Backoff(0) == INIT_RETRY_DELAY_MS;
    hide Backoff, Min;
  }

  lemma {:induction false} ExecuteBacksOff(c: Conn, ops: seq<Op>)
    requires BackedOff(c)
    ensures BackedOff(Execute(c, ops))
    decreases |ops|
  {
    if ops != [] {
      hide BackedOff, Step;
      StepBacksOff(c, ops[0]);
      ExecuteBacksOff(Step(c, ops[0]), ops[1..]);
    }
  }

  /** In every run, the k-th retry since construction or restart waits min(500 * 2^k, 30000) ms; start does not reset k. */
  lemma RetriesBackOff(ops: seq<Op>, k: nat)
    ensures var c := Execute(Init(), ops);
            && (k < |c.waits| ==> c.waits[k] == Min(500 * Pow2(k), 30000))
            && c.retryDelay == Min(500 * Pow2(|c.waits|), 30000)
  {
    ExecuteBacksOff(Init(), ops);
  }

  // ---------- ownership of sockets, and pending starts ----------

  function Count(fs: seq<Functor>, f: Functor): nat {
    multiset(fs)[f]
  }

  /** The startInLoop calls that are still to come. */
  function PendingStarts(c: Conn): nat {
    Count(c.functors, RunStart) + c.timers
  }

  predicate Held(c: Conn, s: Sock) {
    c.state == Connecting && c.channel == Some(s)
  }

  /** In how many ways socket `s` is accounted for. */
  function Owners(c: Conn, s: Sock): nat {
    c.closed[s] + c.handed[s] + (if Held(c, s) then 1 else 0)
  }

  ghost predicate Owned(c: Conn) {
    forall s: Sock :: Owners(c, s) == if s < c.created then 1 else 0
  }

  /** The channel object exists while it is in use, and until a queued reset. */
  ghost predicate ChannelInv(c: Conn) {
    && (c.registered <==> c.state == Connecting)
    && (c.channel.Some? <==> c.registered || RunReset in c.functors)
    && (c.registered ==> RunReset !in c.functors)
    && Count(c.functors, RunReset) <= 1
    && (c.report.Some? ==> c.registered && c.todo == [])
    && (c.todo != [] ==> c.registered || (c.todo == [OnWrite] && c.state == Disconnected))
    && (c.todo == [] || c.todo == [OnError] || c.todo == [OnWrite] || c.todo == [OnError, OnWrite])
  }

  /** At most one start is pending, only while disconnected, and only after every queued reset. */
  ghost predicate StartInv(c: Conn) {
    && PendingStarts(c) <= 1 && (PendingStarts(c) == 1 ==> c.state == Disconnected)
    && forall i, j :: 0 <= i < j < |c.functors| && c.functors[i] == RunStart ==> c.functors[j] != RunReset
  }

  /** As long as a connection is wanted, one is there, under way, or going to be tried. */
  ghost predicate WantInv(c: Conn) {
    && (c.connect && !c.gaveUp ==> c.state != Disconnected || PendingStarts(c) == 1)
    && (!c.connect && RunStop !in c.functors ==> c.state != Connecting)
  }

  ghost predicate Regular(c: Conn) {
    ChannelInv(c) && StartInv(c) && WantInv(c) && !c.fault
  }

  ghost predicate Inv(c: Conn) {
    Owned(c) && Regular(c)
  }

  /**
   The steps that the connector does not tolerate: with this answer of connect(2), a start or restart
   of one that is not idle, and a retry timer that is due while the old channel is still there.
  */
  predicate Spoils(c: Conn, op: Op) {
    match op
    case DoStart => c.state != Disconnected || PendingStarts(c) != 0
    case DoStartHere(out) =>
      c.state != Disconnected || (c.channel.Some? && out.InProgress?) || (PendingStarts(c) != 0 && !out.Fatal?)
    case DoRestart(out) =>
      c.state == Connecting || (c.channel.Some? && out.InProgress?) || (PendingStarts(c) != 0 && !out.Fatal?)
    case DoTimer(out) => c.connect && c.channel.Some? && out.InProgress?
    case _ => false
  }

  /** What can be checked before the step, when the answer is not yet known. */
  predicate Safe(c: Conn, op: Op) {
    match op
    case DoStart => c.state == Disconnected && PendingStarts(c) == 0
    case DoStartHere(_) => c.state == Disconnected && PendingStarts(c) == 0 && c.channel.None?
    case DoRestart(_) => c.state != Connecting && PendingStarts(c) == 0 && c.channel.None?
    case DoTimer(_) => !c.connect || c.channel.None?
    case _ => true
  }

  lemma CountIn(fs: seq<Functor>, f: Functor)
    ensures Count(fs, f) > 0 <==> f in fs
  {
  }

  lemma CountSnoc(fs: seq<Functor>, f: Functor, g: Functor)
    ensures Count(fs + [g], f) == Count(fs, f) + (if f == g then 1 else 0)
  {
  }

  lemma CountTail(fs: seq<Functor>, f: Functor)
    requires fs != []
    ensures Count(fs, f) == (if f == fs[0] then 1 else 0) + Count(fs[1..], f)
  {
    assert fs == [fs[0]] + fs[1..];
  }

  /** How the queue changes: what the invariant needs to know of it. */
  lemma QueueFacts(fs: seq<Functor>, f: Functor)
    ensures Count(fs, f) > 0 <==> f in fs
    ensures forall g :: Count(fs + [g], f) == Count(fs, f) + (if f == g then 1 else 0)
    ensures fs != [] ==> Count(fs, f) == (if f == fs[0] then 1 else 0) + Count(fs[1..], f)
    ensures fs != [] ==> (Count(fs[1..], f) > 0 <==> f in fs[1..])
  {
    CountIn(fs, f);
    forall g ensures Count(fs + [g], f) == Count(fs, f) + (if f == g then 1 else 0) {
      CountSnoc(fs, f, g);
    }
    if fs != [] {
      CountTail(fs, f);
      CountIn(fs[1..], f);
    }
  }

  lemma QueueRegular(c: Conn, op: Op)
    requires Regular(c) && !Spoils(c, op) && (op.DoStart? || op.DoStop? || op.DoPoll? || op.DoDispatch?)
    ensures Regular(Step(c, op))
  {
    hide Count;
    QueueFacts(c.functors, RunStart);
    QueueFacts(c.functors, RunReset);
    QueueFacts(c.functors, RunStop);
  }

  lemma StartHereRegular(c: Conn, op: Op)
    requires Regular(c) && !Spoils(c, op) && op.DoStartHere?
    ensures Regular(Step(c, op))
  {
    hide Count, Dispatch;
    QueueFacts(c.functors, RunStart);
    QueueFacts(c.functors, RunReset);
  }

  lemma RestartRegular(c: Conn, op: Op)
    requires Regular(c) && !Spoils(c, op) && op.DoRestart?
    ensures Regular(Step(c, op))
  {
    hide Count, Dispatch;
    QueueFacts(c.functors, RunStart);
    QueueFacts(c.functors, RunReset);
  }

  lemma TimerRegular(c: Conn, op: Op)
    requires Regular(c) && !Spoils(c, op) && op.DoTimer?
    ensures Regular(Step(c, op))
  {
    hide Count, Dispatch;
    QueueFacts(c.functors, RunStart);
    QueueFacts(c.functors, RunReset);
  }

  lemma RunStartRegular(c: Conn, op: Op)
    requires Regular(c) && op.DoFunctor? && Enabled(c, op) && c.functors[0] == RunStart
    ensures Regular(Step(c, op))
  {
    hide Count, Dispatch;
    QueueFacts(c.functors, RunStart);
    QueueFacts(c.functors, RunReset);
    QueueFacts(c.functors, RunStop);
  }

  lemma RunStopRegular(c: Conn, op: Op)
    requires Regular(c) && op.DoFunctor? && Enabled(c, op) && c.functors[0] == RunStop
    ensures Regular(Step(c, op))
  {
    hide Count, Dispatch;
    QueueFacts(c.functors, RunStart);
    QueueFacts(c.functors, RunReset);
    QueueFacts(c.functors, RunStop);
    QueueFacts(c.functors[1..], RunStart);
    QueueFacts(c.functors[1..], RunReset);
    QueueFacts(c.functors[1..], RunStop);
  }

  lemma RunResetRegular(c: Conn, op: Op)
    requires Regular(c) && op.DoFunctor? && Enabled(c, op) && c.functors[0] == RunReset
    ensures Regular(Step(c, op))
  {
    hide Count, Dispatch;
    QueueFacts(c.functors, RunStart);
    QueueFacts(c.functors, RunReset);
    QueueFacts(c.functors, RunStop);
  }

  lemma FunctorRegular(c: Conn, op: Op)
    requires Regular(c) && op.DoFunctor? && Enabled(c, op)
    ensures Regular(Step(c, op))
  {
    hide Regular, Step;
    match c.functors[0]
    case RunStart => RunStartRegular(c, op);
    case RunStop => RunStopRegular(c, op);
    case RunReset => RunResetRegular(c, op);
  }

  lemma ErrorRegular(c: Conn, op: Op)
    requires Regular(c) && op.DoHandle? && Enabled(c, op) && c.todo[0] == OnError
    ensures Regular(Step(c, op))
  {
    hide Count, Dispatch;
    QueueFacts(c.functors, RunStart);
    QueueFacts(c.functors, RunReset);
    QueueFacts(c.functors, RunStop);
  }

  lemma WriteRegular(c: Conn, op: Op)
    requires Regular(c) && op.DoHandle? && Enabled(c, op) && c.todo[0] == OnWrite
    ensures Regular(Step(c, op))
  {
    hide Count, Dispatch;
    QueueFacts(c.functors, RunStart);
    QueueFacts(c.functors, RunReset);
    QueueFacts(c.functors, RunStop);
  }

  lemma HandleRegular(c: Conn, op: Op)
    requires Regular(c) && op.DoHandle?
    ensures Regular(Step(c, op))
  {
    hide Regular, Step;
    if !Enabled(c, op) {
      StepNothing(c, op);
    } else if c.todo[0].OnError? {
      ErrorRegular(c, op);
    } else {
      WriteRegular(c, op);
    }
  }

  lemma StepRegular(c: Conn, op: Op)
    requires Regular(c) && !Spoils(c, op)
    ensures Regular(Step(c, op))
  {
    hide Regular, Spoils, Step;
    match op
    case DoStart => QueueRegular(c, op);
    case DoStop => QueueRegular(c, op);
    case DoPoll(_) => QueueRegular(c, op);
    case DoDispatch => QueueRegular(c, op);
    case DoStartHere(_) => StartHereRegular(c, op);
    case DoRestart(_) => RestartRegular(c, op);
    case DoTimer(_) => TimerRegular(c, op);
    case DoFunctor(_) =>
      if Enabled(c, op) {
        FunctorRegular(c, op);
      } else {
        StepNothing(c, op);
      }
    case DoHandle(_) => HandleRegular(c, op);
  }

  lemma StepNothing(c: Conn, op: Op)
    requires !Enabled(c, op)
    ensures Step(c, op) == c
  {
  }

  /** The ways in which a step moves sockets: none, one more held, one more closed, or the held one closed or handed over. */
  predicate Moves(c: Conn, r: Conn) {
    || (r.created == c.created && r.closed == c.closed && r.handed == c.handed &&
        (r.state == Connecting <==> c.state == Connecting) && (c.state == Connecting ==> r.channel == c.channel))
    || (r.created == c.created + 1 && r.closed == c.closed && r.handed == c.handed &&
        c.state != Connecting && r.state == Connecting && r.channel == Some(c.created))
    || (r.created == c.created + 1 && r.closed == c.closed + multiset{c.created} && r.handed == c.handed &&
        c.state != Connecting && r.state != Connecting)
    || (r.created == c.created && c.state == Connecting && c.channel.Some? && r.state != Connecting &&
        ((r.closed == c.closed + multiset{c.channel.value} && r.handed == c.handed) ||
         (r.closed == c.closed && r.handed == c.handed + multiset{c.channel.value})))
  }

  lemma MovesOwned(c: Conn, r: Conn)
    requires Owned(c) && Moves(c, r)
    ensures Owned(r)
  {
    forall s: Sock ensures Owners(r, s) == if s < r.created then 1 else 0 {
      assert Owners(c, s) == if s < c.created then 1 else 0;
    }
  }

  lemma StartMoves(c: Conn, out: Outcome)
    requires c.state != Connecting
    ensures Moves(c, StartInLoop(c, out))
  {
  }

  lemma StopMoves(c: Conn)
    requires c.state == Connecting ==> c.channel.Some?
    ensures Moves(c, StopInLoop(c))
  {
  }

  lemma WriteMoves(c: Conn, failed: bool)
    requires c.state == Connecting ==> c.channel.Some?
    ensures Moves(c, HandleWrite(c, failed))
  {
  }

  lemma ErrorMoves(c: Conn)
    requires c.state == Connecting ==> c.channel.Some?
    ensures Moves(c, HandleError(c))
  {
  }

  /** Only the fields that concern sockets matter. */
  lemma MovesFrom(c: Conn, c1: Conn, r: Conn)
    requires c1.created == c.created && c1.closed == c.closed && c1.handed == c.handed && c1.channel == c.channel
    requires (c1.state == Connecting <==> c.state == Connecting) && Moves(c1, r)
    ensures Moves(c, r)
  {
  }

  lemma StepMoves(c: Conn, op: Op)
    requires Regular(c) && !Spoils(c, op)
    ensures Moves(c, Step(c, op))
  {
    ConnectingHolds(c, op);
    hide Regular, Moves, StartInLoop, StopInLoop, HandleWrite, HandleError, Dispatch, Spoils;
    if !Enabled(c, op) {
      SameMoves(c, c);
    } else {
      match op
      case DoStartHere(out) =>
        StartMoves(c.(connect := true), out);
        MovesFrom(c, c.(connect := true), Step(c, op));
      case DoRestart(out) =>
        var c1 := c.(state := Disconnected, retryDelay := INIT_RETRY_DELAY_MS, connect := true, waits := []);
        StartMoves(c1, out);
        MovesFrom(c, c1, Step(c, op));
      case DoTimer(out) =>
        var c1 := c.(timers := c.timers - 1);
        StartMoves(c1, out);
        MovesFrom(c, c1, Step(c, op));
      case DoFunctor(out) => FunctorMoves(c, out);
      case DoHandle(failed) =>
        var c1 := c.(todo := c.todo[1..]);
        WriteMoves(c1, failed);
        ErrorMoves(c1);
        MovesFrom(c, c1, Step(c, op));
      case _ => SameMoves(c, Step(c, op));
    }
  }

  lemma FunctorMoves(c: Conn, out: Outcome)
    requires Enabled(c, DoFunctor(out)) && (c.state == Connecting ==> c.channel.Some?)
    requires c.functors[0] != RunStop ==> c.state != Connecting
    ensures Moves(c, Step(c, DoFunctor(out)))
  {
    hide Moves, StartInLoop, StopInLoop;
    var c1 := c.(functors := c.functors[1..]);
    match c.functors[0]
    case RunStart =>
      StartMoves(c1, out);
      MovesFrom(c, c1, Step(c, DoFunctor(out)));
    case RunStop =>
      StopMoves(c1);
      MovesFrom(c, c1, Step(c, DoFunctor(out)));
    case RunReset => SameMoves(c, Step(c, DoFunctor(out)));
  }

  lemma SameMoves(c: Conn, r: Conn)
    requires r.created == c.created && r.closed == c.closed && r.handed == c.handed && r.state == c.state
    requires c.state == Connecting ==> r.channel == c.channel
    ensures Moves(c, r)
  {
  }

  /** What the steps need to know of the state that they start from. */
  lemma ConnectingHolds(c: Conn, op: Op)
    requires Regular(c) && !Spoils(c, op)
    ensures c.state == Connecting ==> c.channel.Some?
    ensures (op.DoStartHere? || op.DoRestart?) ==> c.state != Connecting
    ensures Enabled(c, op) && op.DoTimer? ==> c.state != Connecting
    ensures Enabled(c, op) && op.DoFunctor? && c.functors[0] == RunStart ==> c.state != Connecting
    ensures Enabled(c, op) && op.DoFunctor? && c.functors[0] == RunReset ==> c.state != Connecting
  {
    hide Count;
    QueueFacts(c.functors, RunStart);
    QueueFacts(c.functors, RunReset);
  }

  lemma StepInv(c: Conn, op: Op)
    requires Inv(c) && !Spoils(c, op)
    ensures Inv(Step(c, op))
  {
    hide Owned, Regular, Step, Spoils, Moves;
    StepRegular(c, op);
    StepMoves(c, op);
    MovesOwned(c, Step(c, op));
  }

  // ---------- what careful runs guarantee ----------

  /** No step of the run is one that the connector does not tolerate. */
  predicate Careful(c: Conn, ops: seq<Op>)
    decreases |ops|
  {
    ops == [] || (!(Enabled(c, ops[0]) && Spoils(c, ops[0])) && Careful(Step(c, ops[0]), ops[1..]))
  }

  lemma {:induction false} ExecuteInv(c: Conn, ops: seq<Op>)
    requires Inv(c) && Careful(c, ops)
    ensures Inv(Execute(c, ops))
    decreases |ops|
  {
    if ops != [] {
      hide Inv, Step, Enabled, Spoils;
      if Enabled(c, ops[0]) {
        StepInv(c, ops[0]);
      } else {
        StepNothing(c, ops[0]);
      }
      ExecuteInv(Step(c, ops[0]), ops[1..]);
    }
  }

  lemma InitInv()
    ensures Inv(Init())
  {
  }

  lemma RunInv(ops: seq<Op>)
    requires Careful(Init(), ops)
    ensures Inv(Execute(Init(), ops))
  {
    InitInv();
    hide Inv;
    ExecuteInv(Init(), ops);
  }

  /** Every socket created so far is exactly one of: held while connecting, closed once, handed over once. */
  lemma SocketOwnership(ops: seq<Op>, s: Sock)
    requires Careful(Init(), ops)
    ensures var c := Execute(Init(), ops);
            c.closed[s] + c.handed[s] + (if c.state == Connecting && c.channel == Some(s) then 1 else 0)
              == if s < c.created then 1 else 0
  {
    RunInv(ops);
    assert Owners(Execute(Init(), ops), s) == if s < Execute(Init(), ops).created then 1 else 0;
  }

  /**
   At most one retry timer is pending, only while disconnected; no assert fails; and as long as a
   connection is wanted and the last attempt had no fatal error, one is there, under way, or coming.
  */
  lemma RetryPending(ops: seq<Op>)
    requires Careful(Init(), ops)
    ensures var c := Execute(Init(), ops);
            && PendingStarts(c) <= 1 && (c.timers > 0 ==> c.state == Disconnected) && !c.fault
            && (c.connect && !c.gaveUp && c.state == Disconnected ==> PendingStarts(c) == 1)
  {
    RunInv(ops);
    hide Inv;
    OnePending(Execute(Init(), ops));
  }

  lemma OnePending(c: Conn)
    requires Inv(c)
    ensures PendingStarts(c) <= 1 && (c.timers > 0 ==> c.state == Disconnected) && !c.fault
    ensures c.connect && !c.gaveUp && c.state == Disconnected ==> PendingStarts(c) == 1
  {
    hide Owned, ChannelInv;
  }

  /** The channel object is there exactly while it is in use or waits for its reset, as its destructor needs. */
  lemma ChannelLives(ops: seq<Op>)
    requires Careful(Init(), ops)
    ensures var c := Execute(Init(), ops);
            && (c.channel.Some? <==> c.state == Connecting || RunReset in c.functors)
            && (c.registered <==> c.state == Connecting)
  {
    RunInv(ops);
  }

  /** Neither start nor restart. */
  predicate NoStart(ops: seq<Op>) {
    forall i :: 0 <= i < |ops| ==> !ops[i].DoStart? && !ops[i].DoStartHere? && !ops[i].DoRestart?
  }

  /** A step that opens no socket, hands none over, and sets no timer. */
  predicate Calm(c: Conn, r: Conn) {
    !r.connect && r.handed == c.handed && r.created == c.created && r.waits == c.waits && r.timers <= c.timers
  }

  lemma StoppedStep(c: Conn, op: Op)
    requires !c.connect && !op.DoStart? && !op.DoStartHere? && !op.DoRestart?
    ensures Calm(c, Step(c, op))
  {
    hide Dispatch, Retry;
    if Enabled(c, op) {
      match op
      case DoFunctor(_) => StoppedRetry(RemoveChannel(c.(state := Disconnected, functors := c.functors[1..])), SockOf(c));
      case DoHandle(_) => StoppedRetry(RemoveChannel(c.(todo := c.todo[1..])), SockOf(c));
      case _ =>
    }
  }

  lemma StoppedRetry(c: Conn, s: Sock)
    requires !c.connect
    ensures Calm(c, Retry(c, s))
  {
  }

  lemma {:induction false} StoppedExecute(c: Conn, ops: seq<Op>)
    requires !c.connect && NoStart(ops)
    ensures Calm(c, Execute(c, ops))
    decreases |ops|
  {
    if ops != [] {
      hide Step;
      StoppedStep(c, ops[0]);
      StoppedExecute(Step(c, ops[0]), ops[1..]);
    }
  }

  lemma StopStep(c: Conn)
    ensures Calm(c, Step(c, DoStop)) && RunStop in Step(c, DoStop).functors
  {
  }

  /**
   What stop does, in every run without a spoiling step. After it, and until the next start or restart,
   no socket is opened or handed over and no retry timer is set; once the functors of all stops have run
   the connector is not connecting.
  */
  lemma StopTakesEffect(before: seq<Op>, later: seq<Op>)
    requires Careful(Init(), before + [DoStop] + later) && NoStart(later)
    ensures var c, r := Execute(Init(), before), Execute(Init(), before + [DoStop] + later);
            && RunStop in Execute(Init(), before + [DoStop]).functors
            && r.handed == c.handed && r.created == c.created && r.waits == c.waits && r.timers <= c.timers
            && (RunStop !in r.functors ==> r.state != Connecting)
  {
    RunInv(before + [DoStop] + later);
    hide Inv, Step, Careful;
    var c := Execute(Init(), before);
    ExecuteConcat(Init(), before, [DoStop]);
    ExecuteConcat(Init(), before + [DoStop], later);
    ExecuteOne(c, DoStop);
    StopStep(c);
    StoppedExecute(Step(c, DoStop), later);
    WantMeans(Execute(Init(), before + [DoStop] + later));
  }

  lemma WantMeans(c: Conn)
    requires Inv(c)
    ensures !c.connect && RunStop !in c.functors ==> c.state != Connecting
  {
  }

  // ---------- what each call does ----------

  /** How an attempt ends, by what connect(2) answers. */
  predicate AttemptEnds(c: Conn, r: Conn, out: Outcome) {
    && r.created == c.created + 1 && r.handed == c.handed
    && match out
       case InProgress =>
         r.state == Connecting && r.channel == Some(c.created) && r.registered && r.closed == c.closed && r.timers == c.timers
       case Retryable =>
         r.state == Disconnected && c.created in r.closed && r.timers == c.timers + 1 && r.waits == c.waits + [c.retryDelay]
       case Fatal =>
         r.state == Disconnected && c.created in r.closed && r.timers == c.timers
  }

  lemma StartAttempts(c: Conn, out: Outcome)
    requires c.connect && c.state == Disconnected
    ensures AttemptEnds(c, StartInLoop(c, out), out)
  {
  }

  /**
   A start of a disconnected connector, from the loop thread, by its queued functor or by a retry timer,
   opens one socket, and goes on as connect(2) answers.
  */
  lemma AttemptIsExact(c: Conn, out: Outcome)
    requires c.state == Disconnected
    ensures c.todo == [] ==> AttemptEnds(c.(connect := true), Step(c, DoStartHere(out)), out)
    ensures c.connect && Enabled(c, DoTimer(out)) ==> AttemptEnds(c.(timers := c.timers - 1), Step(c, DoTimer(out)), out)
    ensures c.connect && Enabled(c, DoFunctor(out)) && c.functors[0] == RunStart ==> AttemptEnds(c, Step(c, DoFunctor(out)), out)
    ensures Step(c, DoStart).connect && Step(c, DoStart).functors == c.functors + [RunStart]
  {
    hide Dispatch, StartInLoop, AttemptEnds;
    StartAttempts(c.(connect := true), out);
    if c.connect && c.timers > 0 {
      StartAttempts(c.(timers := c.timers - 1), out);
    }
    if c.connect && c.functors != [] {
      StartAttempts(c.(functors := c.functors[1..]), out);
      SameAttempt(c, StartInLoop(c.(functors := c.functors[1..]), out), out);
    }
  }

  lemma SameAttempt(c: Conn, r: Conn, out: Outcome)
    requires c.functors != []
    ensures AttemptEnds(c.(functors := c.functors[1..]), r, out) ==> AttemptEnds(c, r, out)
  {
  }

  /** A restart does the same, and counts the retries anew. */
  lemma RestartStartsOver(c: Conn, out: Outcome)
    requires c.todo == []
    ensures var anew := c.(connect := true, state := Disconnected, waits := [], retryDelay := 500);
            AttemptEnds(anew, Step(c, DoRestart(out)), out) && Step(c, DoRestart(out)).waits == if out.Retryable? then [500] else []
  {
    hide Dispatch;
  }

  /** What a dispatch for a connecting socket leads to. */
  lemma ConnectingIsExact(c: Conn, failed: bool)
    requires c.state == Connecting && c.channel.Some? && c.todo != []
    ensures var r, s := Step(c, DoHandle(failed)), c.channel.value;
            && !r.registered && r.functors == c.functors + [RunReset]
            && if c.todo[0] == OnWrite && !failed && c.connect then
                 r.state == Connected && r.handed == c.handed + multiset{s} && r.closed == c.closed && r.timers == c.timers
               else
                 && r.handed == c.handed && r.closed == c.closed + multiset{s}
                 && (r.state == Connected <==> c.todo[0] == OnWrite && !failed)
                 && (r.state == Disconnected <==> !(c.todo[0] == OnWrite && !failed))
                 && r.timers == c.timers + (if c.connect && r.state == Disconnected then 1 else 0)
  {
  }

  /** The error callback comes first, and each is made exactly if it is due. */
  lemma DispatchIsExact(report: Report)
    ensures Dispatch(report) ==
              (if report.error && report.write then [OnError, OnWrite]
               else if report.error then [OnError] else if report.write then [OnWrite] else [])
  {
  }

  /**
   What can go wrong: an assert has failed, or a second start is pending, or one that will find the
   connector busy (both fail an assert when they run, BusyStartFaults), or a socket has been lost.
  */
  ghost predicate Broken(c: Conn) {
    || c.fault || PendingStarts(c) > 1 || (PendingStarts(c) == 1 && c.state != Disconnected)
    || exists s: Sock :: s < c.created && Owners(c, s) == 0
  }

  lemma SpoilsBreaks(c: Conn, op: Op)
    requires Inv(c) && Enabled(c, op) && Spoils(c, op)
    ensures Broken(Step(c, op))
  {
    hide Count, Dispatch;
    QueueFacts(c.functors, RunStart);
    if op.DoRestart? && c.state == Connecting {
      var s, r := SockOf(c), Step(c, op);
      assert Owners(c, s) == 1;
      assert !r.fault ==> s < r.created && Owners(r, s) == 0;
    }
  }

  predicate Attempts(op: Op) {
    op.DoStartHere? || op.DoRestart? || op.DoTimer?
  }

  lemma OthersKeep(c: Conn, op: Op)
    requires Inv(c) && Enabled(c, op) && !Spoils(c, op) && (op.DoStart? || Attempts(op))
    ensures !Broken(Step(c, op))
  {
    StepInv(c, op);
    InvNotBroken(Step(c, op));
  }

  lemma InvNotBroken(c: Conn)
    requires Inv(c)
    ensures !Broken(c)
  {
    NoneLost(c);
    hide Owned, ChannelInv, WantInv;
  }

  lemma NoneLost(c: Conn)
    requires Owned(c)
    ensures forall s: Sock :: s < c.created ==> Owners(c, s) != 0
  {
  }

  function WithAnswer(op: Op, out: Outcome): Op {
    match op
    case DoStartHere(_) => DoStartHere(out)
    case DoRestart(_) => DoRestart(out)
    case DoTimer(_) => DoTimer(out)
    case _ => op
  }

  /**
   Exactly what start, restart and a retry timer need. With a given answer of connect(2) the step
   breaks the connector (a failed assert, a second pending start, a pending start that will find it
   busy, a lost socket) if and only if Spoils holds. No answer does so if and only if the step is Safe:
   for start and restart, the connector is idle; for a retry timer, the old channel is gone.
  */
  lemma StartNeedsIdle(ops: seq<Op>, op: Op)
    requires Careful(Init(), ops) && (op.DoStart? || Attempts(op))
    ensures var c := Execute(Init(), ops);
            Enabled(c, op) ==>
              && (Broken(Step(c, op)) <==> Spoils(c, op))
              && (Safe(c, op) <==> forall out :: !Spoils(c, WithAnswer(op, out)))
  {
    RunInv(ops);
    var c := Execute(Init(), ops);
    if Enabled(c, op) {
      SafeIff(c, op);
      hide Inv, Broken, Spoils, Safe, Step, Enabled;
      if Spoils(c, op) {
        SpoilsBreaks(c, op);
      } else {
        OthersKeep(c, op);
      }
    }
  }

  lemma SafeIff(c: Conn, op: Op)
    ensures Safe(c, op) <==> forall out :: !Spoils(c, WithAnswer(op, out))
  {
    assert Safe(c, op) <==> !Spoils(c, WithAnswer(op, InProgress));
    assert forall out :: Spoils(c, WithAnswer(op, out)) ==> Spoils(c, WithAnswer(op, InProgress));
  }

  /**
   A retry timer that is due too early: the connector's channel reports an error, and before the queued
   reset has run, in the same round of the loop, the callback of another channel takes so long that the
   retry timer fires. The assert on the channel fails; without it the reset then destroys the new channel,
   and the socket that it was for is lost although the poller still watches it.
  */
  lemma EarlyTimer(out: Outcome)
    ensures var ops := [DoStartHere(InProgress), DoPoll(Report(true, false)), DoDispatch, DoHandle(false)];
            var c := Execute(Init(), ops);
            var c1 := Step(c, DoTimer(InProgress));
            var r := Step(c1, DoFunctor(out));
            && Careful(Init(), ops) && !c.fault && Enabled(c, DoTimer(InProgress)) && c1.fault
            && Enabled(c1, DoFunctor(out)) && r.registered && r.channel == None && 1 < r.created && Owners(r, 1) == 0
  {
    var ops := [DoStartHere(InProgress), DoPoll(Report(true, false)), DoDispatch, DoHandle(false)];
    hide Execute, Careful, Step, Enabled, TimerSet, Owners;
    EarlyRun();
    EarlyFires();
    EarlyReset(Step(TimerSet(), DoTimer(InProgress)), out);
  }

  lemma EarlyFires()
    ensures var c := TimerSet();
            var c1 := Step(c, DoTimer(InProgress));
            && !c.fault && Enabled(c, DoTimer(InProgress)) && c1.fault && c1.functors == [RunReset]
            && c1.report.None? && c1.todo == [] && c1.registered && c1.created == 2
            && 1 !in c1.closed && 1 !in c1.handed
  {
  }

  /** The reset takes the channel of the new socket. */
  lemma EarlyReset(c: Conn, out: Outcome)
    requires c.functors == [RunReset] && c.report.None? && c.todo == [] && 1 !in c.closed && 1 !in c.handed
    ensures var r := Step(c, DoFunctor(out));
            && Enabled(c, DoFunctor(out)) && r.registered == c.registered && r.channel == None
            && r.created == c.created && Owners(r, 1) == 0
  {
  }

  /** The first attempt is under way. */
  function FirstAttempt(): Conn {
    Await(Init().(connect := true, created := 1), 0)
  }

  /** It has failed. */
  function TimerSet(): Conn {
    HandleError(FirstAttempt())
  }

  lemma EarlySteps()
    ensures var c := FirstAttempt();
            && Step(Init(), DoStartHere(InProgress)) == c && !Spoils(Init(), DoStartHere(InProgress))
            && Step(c, DoPoll(Report(true, false))) == c.(report := Some(Report(true, false)))
            && Step(c.(report := Some(Report(true, false))), DoDispatch) == c.(todo := [OnError])
            && Step(c.(todo := [OnError]), DoHandle(false)) == TimerSet()
  {
    CountIn([], RunStart);
  }

  lemma EarlyRun()
    ensures var ops := [DoStartHere(InProgress), DoPoll(Report(true, false)), DoDispatch, DoHandle(false)];
            Careful(Init(), ops) && Execute(Init(), ops) == TimerSet()
  {
    hide Step, Spoils, TimerSet, FirstAttempt;
    EarlySteps();
    var ops := [DoStartHere(InProgress), DoPoll(Report(true, false)), DoDispatch, DoHandle(false)];
    var c1 := FirstAttempt();
    var c2 := c1.(report := Some(Report(true, false)));
    var c3 := c1.(todo := [OnError]);
    OnlyStarts(c1, ops[1]);
    OnlyStarts(c2, ops[2]);
    OnlyStarts(c3, ops[3]);
    RunOne(c3, ops[3], []);
    RunOne(c2, ops[2], [ops[3]]);
    RunOne(c1, ops[1], [ops[2], ops[3]]);
    RunOne(Init(), ops[0], [ops[1], ops[2], ops[3]]);
    hide Careful, Execute;
    assert [ops[3]] + [] == [ops[3]] && [ops[2]] + [ops[3]] == [ops[2], ops[3]];
    assert [ops[1]] + [ops[2], ops[3]] == [ops[1], ops[2], ops[3]] && [ops[0]] + [ops[1], ops[2], ops[3]] == ops;
  }

  lemma OnlyStarts(c: Conn, op: Op)
    ensures op.DoPoll? || op.DoDispatch? || op.DoHandle? ==> !Spoils(c, op)
  {
  }

  lemma RunOne(c: Conn, op: Op, ops: seq<Op>)
    ensures Execute(c, [op] + ops) == Execute(Step(c, op), ops)
    ensures !Spoils(c, op) && Careful(Step(c, op), ops) ==> Careful(c, [op] + ops)
  {
    hide Step, Spoils;
    assert ([op] + ops)[0] == op && ([op] + ops)[1..] == ops;
  }

  /** A pending start that finds the connector busy fails the assert of startInLoop. */
  lemma BusyStartFaults(c: Conn, op: Op)
    requires Enabled(c, op) && (op.DoTimer? || (op.DoFunctor? && c.functors[0] == RunStart))
    requires c.state != Disconnected
    ensures Step(c, op).fault
  {
    hide StartInLoop;
    StartFaults(if op.DoTimer? then c.(timers := c.timers - 1) else c.(functors := c.functors[1..]), op.out);
  }

  /** Of two pending starts the first keeps the connector busy for the second. */
  lemma TwoStartsFault(c: Conn, out: Outcome)
    requires c.timers >= 2 && c.connect && c.state == Disconnected && c.todo == []
    ensures Step(Step(c, DoTimer(InProgress)), DoTimer(out)).fault
  {
    var c1 := Step(c, DoTimer(InProgress));
    assert c1.state == Connecting && c1.timers > 0 && c1.todo == [];
    BusyStartFaults(c1, DoTimer(out));
  }

  /** A start while the connector is connected or connecting makes an assert fail as soon as its functor runs ... */
  lemma StartWhileBusyFaults(c: Conn, out: Outcome)
    requires c.state != Disconnected && c.functors == [] && c.report.None? && c.todo == []
    ensures Step(Step(c, DoStart), DoFunctor(out)).fault
  {
    BusyStartFaults(Step(c, DoStart), DoFunctor(out));
  }

  lemma StartFaults(c: Conn, out: Outcome)
    requires c.state != Disconnected || c.fault
    ensures StartInLoop(c, out).fault
  {
  }

  /** ... and so does a start after a stop that has not yet run: the old channel is still there when the new one is made. */
  lemma StartAfterStopFaults(ops: seq<Op>)
    requires Careful(Init(), ops)
    ensures var c := Execute(Init(), ops);
            c.state == Connecting && c.functors == [] && c.report.None? && c.todo == [] ==>
              Step(Step(Step(Step(c, DoStop), DoStart), DoFunctor(InProgress)), DoFunctor(InProgress)).fault
  {
    RunInv(ops);
    var c := Execute(Init(), ops);
    if c.state == Connecting && c.functors == [] && c.report.None? && c.todo == [] {
      StopStart(c);
    }
  }

  lemma StopStart(c: Conn)
    requires c.state == Connecting && c.functors == [] && c.report.None? && c.todo == []
    ensures Step(Step(Step(Step(c, DoStop), DoStart), DoFunctor(InProgress)), DoFunctor(InProgress)).fault
  {
    var c2 := c.(connect := true, functors := [RunStop, RunStart]);
    assert Step(Step(c, DoStop), DoStart) == c2;
    StopLeaves(c2);
    hide Step;
    StartOverChannel(Step(c2, DoFunctor(InProgress)));
  }

  lemma StopLeaves(c: Conn)
    requires c.state == Connecting && c.functors == [RunStop, RunStart] && c.report.None? && c.todo == [] && c.connect
    ensures var r := Step(c, DoFunctor(InProgress));
            r.connect && r.functors == [RunStart, RunReset] && r.report.None? && r.todo == [] && (r.channel.Some? || r.fault)
  {
  }

  lemma StartOverChannel(c: Conn)
    requires c.connect && c.functors != [] && c.functors[0] == RunStart && c.report.None? && c.todo == []
    requires c.channel.Some? || c.fault
    ensures Step(c, DoFunctor(InProgress)).fault
  {
  }
}

/** The Connector class; each method does what ConnectorModel says. */
module ConnectorClass {
  import opened Common
  import opened ConnectorModel

  class Connector {
    var connect: bool
    var state: State
    var channel: Option<Sock>
    var retryDelayMs: nat

    // what the event loop and the poller hold for this connector
    var functors: seq<Functor>
    var timers: nat
    var report: Option<Report>
    var todo: seq<Handler>
    var registered: bool
    var created: nat

    // history
    ghost var closed: multiset<Sock>
    ghost var handed: multiset<Sock>
    ghost var waits: seq<nat>
    ghost var gaveUp: bool
    ghost var fault: bool

    ghost function Abs(): Conn
      reads this
    {
      Conn(connect, state, channel, retryDelayMs, functors, timers, report, todo, registered, created, closed,
           handed, waits, gaveUp, fault)
    }

    constructor ()
      ensures Abs() == Init() && Inv(Abs())
    {
      connect, state, channel, retryDelayMs := false, Disconnected, None, INIT_RETRY_DELAY_MS;
      functors, timers, report, todo, registered, created := [], 0, None, [], false, 0;
      closed, handed, waits, gaveUp, fault := multiset{}, multiset{}, [], false, false;
      new;
      InitInv();
    }

    /** The fields, as parts of the abstract value. */
    lemma View()
      ensures var c := Abs();
              && c.connect == connect && c.state == state && c.channel == channel && c.created == created
              && c.retryDelay == retryDelayMs && c.functors == functors && c.todo == todo && c.report == report
    {
    }

    // ---------- one change at a time ----------

    method SetState(s: State)
      modifies this`state
      ensures Abs() == old(Abs()).(state := s)
    {
      state := s;
    }

    method SetConnect(on: bool)
      modifies this`connect
      ensures Abs() == old(Abs()).(connect := on)
    {
      connect := on;
    }

    method Close(sockfd: Sock)
      modifies this`closed
      ensures Abs() == old(Abs()).(closed := old(Abs()).closed + multiset{sockfd})
    {
      closed := closed + multiset{sockfd};
    }

    method NewConnection(sockfd: Sock)
      modifies this`handed
      ensures Abs() == old(Abs()).(handed := old(Abs()).handed + multiset{sockfd})
    {
      handed := handed + multiset{sockfd};
    }

    method CreateSocket() returns (sockfd: Sock)
      modifies this`created
      ensures sockfd == old(Abs()).created && Abs() == old(Abs()).(created := sockfd + 1)
    {
      sockfd := created;
      created := created + 1;
    }

    /** queueInLoop. */
    method QueueFunctor(functor: Functor)
      modifies this`functors
      ensures Abs() == old(Abs()).(functors := old(Abs()).functors + [functor])
    {
      functors := functors + [functor];
    }

    /** runAfter with the current delay, which is then doubled up to its limit. */
    method RunAfterDelay()
      modifies this`timers, this`waits, this`retryDelayMs
      ensures var c := old(Abs());
              Abs() == c.(timers := c.timers + 1, waits := c.waits + [c.retryDelay],
                          retryDelay := Min(2 * c.retryDelay, MAX_RETRY_DELAY_MS))
    {
      timers, waits := timers + 1, waits + [retryDelayMs];
      retryDelayMs := Min(retryDelayMs * 2, MAX_RETRY_DELAY_MS);
    }

    method ResetDelay()
      modifies this`retryDelayMs, this`waits
      ensures Abs() == old(Abs()).(retryDelay := INIT_RETRY_DELAY_MS, waits := [])
    {
      retryDelayMs, waits := INIT_RETRY_DELAY_MS, [];
    }

    /** An assert of the source. */
    ghost method Check(condition: bool)
      modifies this`fault
      ensures Abs() == old(Abs()).(fault := old(Abs()).fault || !condition)
    {
      fault := fault || !condition;
    }

    /** A channel for the socket, enabled for writing. */
    method WatchSocket(sockfd: Sock)
      modifies this`channel, this`registered
      ensures Abs() == old(Abs()).(channel := Some(sockfd), registered := true)
    {
      channel, registered := Some(sockfd), true;
    }

    /** disableAll and remove. */
    method Unwatch()
      modifies this`registered
      ensures Abs() == old(Abs()).(registered := false)
    {
      registered := false;
    }

    ghost method Attempted(out: Outcome)
      modifies this`gaveUp
      ensures Abs() == old(Abs()).(gaveUp := out.Fatal?)
    {
      gaveUp := out.Fatal?;
    }

    // ---------- the functions of the connector ----------

    method Retry(sockfd: Sock)
      modifies this
      ensures Abs() == ConnectorModel.Retry(old(Abs()), sockfd)
    {
      hide Abs;
      Close(sockfd);
      SetState(Disconnected);
      View();
      if connect {
        RunAfterDelay();
      }
    }

    /** Its assert fails exactly if there is a channel. */
    method Connecting(sockfd: Sock)
      modifies this
      ensures Abs() == Await(old(Abs()), sockfd)
      ensures fault <==> old(fault) || old(channel).Some?
    {
      hide Abs;
      Faults();
      View();
      SetState(ConnectorModel.Connecting);
      View();
      Check(channel == None);
      WatchSocket(sockfd);
      Faults();
    }

    lemma Faults()
      ensures Abs().fault == fault
    {
    }

    /** connect: a new socket, and what the kernel answers for it; the assert of connecting fails exactly as said. */
    method Connect(out: Outcome)
      modifies this
      ensures Abs() == ConnectorModel.Connect(old(Abs()), out)
      ensures fault <==> old(fault) || (out == InProgress && old(channel).Some?)
      ensures created == old(created) + 1
    {
      hide Abs, ConnectorModel.Retry, Await;
      Faults();
      View();
      ghost var was := Abs();
      var sockfd := CreateSocket();
      Attempted(out);
      RetryKeeps(Abs(), sockfd);
      match out {
        case InProgress => Connecting(sockfd);
        case Retryable => Retry(sockfd);
        case Fatal => Close(sockfd);
      }
      AwaitKeeps(was.(created := sockfd + 1, gaveUp := out.Fatal?), sockfd);
      Faults();
      View();
    }

    lemma RetryKeeps(c: Conn, s: Sock)
      ensures var r := ConnectorModel.Retry(c, s);
              r.fault == c.fault && r.created == c.created && r.functors == c.functors && r.registered == c.registered
    {
    }

    lemma AwaitKeeps(c: Conn, s: Sock)
      ensures Await(c, s).created == c.created && (Await(c, s).fault <==> c.fault || c.channel.Some?)
    {
    }

    /** Its assert, or the one of connecting, fails exactly as said. */
    method StartInLoop(out: Outcome)
      modifies this
      ensures Abs() == ConnectorModel.StartInLoop(old(Abs()), out)
      ensures fault <==> old(fault) || old(state) != Disconnected || (old(connect) && out == InProgress && old(channel).Some?)
    {
      hide Abs, ConnectorModel.Connect;
      Faults();
      View();
      Check(state == Disconnected);
      View();
      Faults();
      if connect {
        Connect(out);
      }
    }

    /** start: the functor runs at once in the loop thread, and is queued from another one. */
    method Start(inLoopThread: bool, out: Outcome)
      requires inLoopThread ==> todo == []
      modifies this
      ensures var op := if inLoopThread then DoStartHere(out) else DoStart;
              Abs() == Step(old(Abs()), op) && (old(Inv(Abs()) && !Spoils(Abs(), op)) ==> Inv(Abs()))
    {
      hide Abs, Inv, Spoils, ConnectorModel.StartInLoop;
      View();
      Keeps(if inLoopThread then DoStartHere(out) else DoStart);
      SetConnect(true);
      if inLoopThread {
        StartInLoop(out);
      } else {
        QueueFunctor(RunStart);
      }
    }

    /** StepInv for the present state. */
    lemma Keeps(op: Op)
      ensures Inv(Abs()) && !Spoils(Abs(), op) ==> Inv(Step(Abs(), op))
    {
      hide Inv, Spoils, Step;
      if Inv(Abs()) && !Spoils(Abs(), op) {
        StepInv(Abs(), op);
      }
    }

    method Stop()
      modifies this
      ensures Abs() == Step(old(Abs()), DoStop) && (old(Inv(Abs())) ==> Inv(Abs()))
    {
      hide Abs, Inv;
      Keeps(DoStop);
      SetConnect(false);
      QueueFunctor(RunStop);
    }

    method RemoveAndResetChannel() returns (sockfd: Sock)
      requires channel.Some?
      modifies this`registered, this`functors
      ensures Abs() == RemoveChannel(old(Abs())) && sockfd == SockOf(old(Abs()))
    {
      hide Abs;
      View();
      Unwatch();
      sockfd := channel.value;
      QueueFunctor(RunReset);
    }

    /** A connecting socket is closed; nothing else is, and no assert is involved. */
    method StopInLoop()
      requires state == ConnectorModel.Connecting ==> channel.Some?
      modifies this
      ensures Abs() == ConnectorModel.StopInLoop(old(Abs())) && state != ConnectorModel.Connecting && fault == old(fault)
    {
      hide Abs;
      View();
      Faults();
      if state == ConnectorModel.Connecting {
        SetState(Disconnected);
        var sockfd := RemoveAndResetChannel();
        Retry(sockfd);
        View();
        Faults();
      }
    }

    method Restart(out: Outcome)
      requires todo == []
      modifies this
      ensures Abs() == Step(old(Abs()), DoRestart(out))
      ensures old(Inv(Abs()) && !Spoils(Abs(), DoRestart(out))) ==> Inv(Abs())
    {
      hide Abs, Inv, Spoils, ConnectorModel.StartInLoop;
      View();
      Keeps(DoRestart(out));
      SetState(Disconnected);
      ResetDelay();
      SetConnect(true);
      StartInLoop(out);
    }

    method ResetChannel()
      modifies this`channel
      ensures Abs() == ConnectorModel.ResetChannel(old(Abs()))
    {
      channel := None;
    }

    /** A socket that can be written turns out to be connected. */
    method Established(sockfd: Sock)
      modifies this
      ensures var c := old(Abs()).(state := Connected);
              Abs() == if c.connect then c.(handed := c.handed + multiset{sockfd}) else c.(closed := c.closed + multiset{sockfd})
    {
      hide Abs;
      SetState(Connected);
      View();
      if connect {
        NewConnection(sockfd);
      } else {
        Close(sockfd);
      }
    }

    /** `soError` and `selfConnect` are what the kernel says about the socket. */
    method HandleWrite(soError: bool, selfConnect: bool)
      requires state == ConnectorModel.Connecting ==> channel.Some?
      modifies this
      ensures Abs() == ConnectorModel.HandleWrite(old(Abs()), soError || selfConnect)
    {
      hide Abs, ConnectorModel.Retry;
      View();
      if state == ConnectorModel.Connecting {
        var sockfd := RemoveAndResetChannel();
        if soError {
          Retry(sockfd);
        } else if selfConnect {
          Retry(sockfd);
        } else {
          Established(sockfd);
        }
      } else {
        Check(state == Disconnected);
      }
    }

    method HandleError()
      requires state == ConnectorModel.Connecting ==> channel.Some?
      modifies this
      ensures Abs() == ConnectorModel.HandleError(old(Abs()))
    {
      hide Abs, ConnectorModel.Retry;
      View();
      if state == ConnectorModel.Connecting {
        var sockfd := RemoveAndResetChannel();
        Retry(sockfd);
      }
    }

    // ---------- what the loop does ----------

    /** The next functor in the queue of the loop. */
    method RunFunctor(out: Outcome)
      requires Enabled(Abs(), DoFunctor(out)) && (state == ConnectorModel.Connecting ==> channel.Some?)
      modifies this
      ensures Abs() == Step(old(Abs()), DoFunctor(out)) && (old(Inv(Abs())) ==> Inv(Abs()))
    {
      hide Abs, Inv, Count, ConnectorModel.StartInLoop, ConnectorModel.StopInLoop;
      View();
      Keeps(DoFunctor(out));
      var functor := TakeFunctor();
      View();
      match functor
      case RunStart => StartInLoop(out);
      case RunStop => StopInLoop();
      case RunReset => ResetChannel();
    }

    method TakeFunctor() returns (functor: Functor)
      requires functors != []
      modifies this`functors
      ensures functor == old(functors)[0] && Abs() == old(Abs()).(functors := old(Abs()).functors[1..])
    {
      functor := functors[0];
      functors := functors[1..];
    }

    /** A retry timer is due. */
    method RunTimer(out: Outcome)
      requires Enabled(Abs(), DoTimer(out))
      modifies this
      ensures Abs() == Step(old(Abs()), DoTimer(out))
      ensures old(Inv(Abs()) && !Spoils(Abs(), DoTimer(out))) ==> Inv(Abs())
    {
      hide Abs, Inv, ConnectorModel.StartInLoop;
      View();
      Keeps(DoTimer(out));
      TakeTimer();
      StartInLoop(out);
    }

    method TakeTimer()
      requires Abs().timers > 0
      modifies this`timers
      ensures Abs() == old(Abs()).(timers := old(Abs()).timers - 1)
    {
      timers := timers - 1;
    }

    /** One callback of a dispatch. */
    method Callback(h: Handler, soError: bool, selfConnect: bool)
      requires Inv(Abs()) && todo != [] && todo[0] == h
      modifies this
      ensures Inv(Abs()) && Abs() == Step(old(Abs()), DoHandle(soError || selfConnect)) && todo == old(todo[1..])
    {
      hide Abs, Inv, ConnectorModel.HandleWrite, ConnectorModel.HandleError;
      View();
      ChannelOfConnecting(Abs());
      StepInv(Abs(), DoHandle(soError || selfConnect));
      HandlePops(Abs(), DoHandle(soError || selfConnect));
      TakeCallback();
      View();
      if h == OnError {
        HandleError();
      } else {
        HandleWrite(soError, selfConnect);
      }
      View();
    }

    method TakeCallback()
      requires todo != []
      modifies this`todo
      ensures Abs() == old(Abs()).(todo := old(Abs()).todo[1..])
    {
      todo := todo[1..];
    }

    lemma ChannelOfConnecting(c: Conn)
      requires Inv(c)
      ensures c.state == ConnectorModel.Connecting ==> c.channel.Some?
    {
    }

    lemma HandlePops(c: Conn, op: Op)
      requires Enabled(c, op) && op.DoHandle?
      ensures Step(c, op).todo == c.todo[1..]
    {
    }

    /** A poll reports events for the channel. */
    method Poll(r: Report)
      requires Enabled(Abs(), DoPoll(r))
      modifies this`report
      ensures Abs() == Step(old(Abs()), DoPoll(r)) && (old(Inv(Abs())) ==> Inv(Abs()))
    {
      hide Inv;
      Keeps(DoPoll(r));
      report := Some(r);
    }

    method BeginDispatch()
      requires Enabled(Abs(), DoDispatch)
      modifies this`report, this`todo
      ensures Abs() == Step(old(Abs()), DoDispatch) && (old(Inv(Abs())) ==> Inv(Abs()))
    {
      hide Inv, Dispatch;
      Keeps(DoDispatch);
      todo := Dispatch(report.value);
      report := None;
    }

    /** handleEventWithGuard for what was reported. */
    method HandleEvent(soError: bool, selfConnect: bool)
      requires Enabled(Abs(), DoDispatch) && Inv(Abs())
      modifies this
      ensures Inv(Abs()) && todo == []
      ensures var handle, r := DoHandle(soError || selfConnect), old(report).value;
              var c1 := Step(old(Abs()), DoDispatch);
              var c2 := if r.error then Step(c1, handle) else c1;
              Abs() == if r.write then Step(c2, handle) else c2
    {
      hide Abs, Inv;
      View();
      var r := report.value;
      BeginDispatch();
      View();
      if r.error {
        Callback(OnError, soError, selfConnect);
      }
      if r.write {
        Callback(OnWrite, soError, selfConnect);
      }
    }
  }
}
