/**
 The bounded blocking queue as a Mesa monitor. A thread that holds the mutex does one pass of the
 loop of put or take: it finishes, or it goes to sleep on a condition variable. A sleeper wakes by a
 signal, which another thread can overtake before it has the mutex again, or for no reason at all.
*/
module BoundedBlockingQueueModel {
  type Tid = nat

  datatype Call<T> = Putting(x: T) | Taking

  /**
   `asleepTake` are the threads waiting on notEmpty_, `signalledTake` those signalled there that do not
   have the mutex yet; likewise for notFull_. Every other thread of `calls` is about to take the mutex.
   `puts` and `takes` are history variables.
  */
  datatype Monitor<T> = Monitor(
    queue: seq<T>,
    capacity: nat,
    calls: map<Tid, Call<T>>,
    asleepTake: set<Tid>,
    signalledTake: set<Tid>,
    asleepPut: set<Tid>,
    signalledPut: set<Tid>,
    puts: seq<T>,
    takes: seq<T>)

  /** `woken` is whom the kernel wakes if this pass signals: at least one sleeper, if there is one. */
  datatype Op<T> =
    | Enter(t: Tid, call: Call<T>)
    | Pass(t: Tid, woken: set<Tid>)
    | Spurious(t: Tid)

  function Init<T>(capacity: nat): Monitor<T> {
    Monitor([], capacity, map[], {}, {}, {}, {}, [], [])
  }

  predicate Asleep<T>(m: Monitor<T>, t: Tid) {
    t in m.asleepTake || t in m.asleepPut
  }

  predicate MaySignal(woken: set<Tid>, asleep: set<Tid>) {
    woken <= asleep && (asleep != {} ==> woken != {})
  }

  predicate Enabled<T>(m: Monitor<T>, op: Op<T>) {
    match op
    case Enter(t, _) => t !in m.calls
    case Pass(t, woken) =>
      && t in m.calls && !Asleep(m, t)
      && (m.calls[t].Putting? && |m.queue| != m.capacity ==> MaySignal(woken, m.asleepTake))
      && (m.calls[t].Taking? && m.queue != [] ==> MaySignal(woken, m.asleepPut))
    case Spurious(t) => Asleep(m, t)
  }

  /** One pass of the loop of put by `t`. */
  function PutPass<T>(m: Monitor<T>, t: Tid, x: T, woken: set<Tid>): Monitor<T> {
    if |m.queue| == m.capacity then
      m.(asleepPut := m.asleepPut + {t}, signalledPut := m.signalledPut - {t})
    else
      m.(queue := m.queue + [x], puts := m.puts + [x],
         calls := m.calls - {t}, signalledPut := m.signalledPut - {t},
         asleepTake := m.asleepTake - woken, signalledTake := m.signalledTake + woken)
  }

  /** One pass of the loop of take by `t`. */
  function TakePass<T>(m: Monitor<T>, t: Tid, woken: set<Tid>): Monitor<T> {
    if m.queue == [] then
      m.(asleepTake := m.asleepTake + {t}, signalledTake := m.signalledTake - {t})
    else
      m.(queue := m.queue[1..], takes := m.takes + [m.queue[0]],
         calls := m.calls - {t}, signalledTake := m.signalledTake - {t},
         asleepPut := m.asleepPut - woken, signalledPut := m.signalledPut + woken)
  }

  function Step<T>(m: Monitor<T>, op: Op<T>): Monitor<T> {
    if !Enabled(m, op) then m else
      match op
      case Enter(t, call) => m.(calls := m.calls[t := call])
      case Pass(t, woken) =>
        if m.calls[t].Putting? then PutPass(m, t, m.calls[t].x, woken) else TakePass(m, t, woken)
      case Spurious(t) => m.(asleepTake := m.asleepTake - {t}, asleepPut := m.asleepPut - {t})
  }

  function Execute<T>(m: Monitor<T>, ops: seq<Op<T>>): Monitor<T>
    decreases |ops|
  {
    if ops == [] then m else Execute(Step(m, ops[0]), ops[1..])
  }

  lemma {:induction false} ExecuteConcat<T>(m: Monitor<T>, a: seq<Op<T>>, b: seq<Op<T>>)
    ensures Execute(m, a + b) == Execute(Execute(m, a), b)
    decreases |a|
  {
    if a == [] {
      assert a + b == b;
    } else {
      assert (a + b)[0] == a[0] && (a + b)[1..] == a[1..] + b;
      ExecuteConcat(Step(m, a[0]), a[1..], b);
    }
  }

  lemma ExecuteOne<T>(m: Monitor<T>, op: Op<T>)
    ensures Execute(m, [op]) == Step(m, op)
  {
    assert [op][1..] == [];
    assert Execute(Step(m, op), []) == Step(m, op);
  }

  lemma ExecuteSnoc<T>(m: Monitor<T>, a: seq<Op<T>>, op: Op<T>)
    ensures Execute(m, a + [op]) == Step(Execute(m, a), op)
  {
    ExecuteConcat(m, a, [op]);
    ExecuteOne(Execute(m, a), op);
  }

  // ---------- the invariant ----------

  ghost predicate InCalls<T>(m: Monitor<T>) {
    && (forall t :: t in m.asleepTake || t in m.signalledTake ==> t in m.calls && m.calls[t].Taking?)
    && (forall t :: t in m.asleepPut || t in m.signalledPut ==> t in m.calls && m.calls[t].Putting?)
    && m.asleepTake !! m.signalledTake && m.asleepPut !! m.signalledPut
  }

  /** While somebody sleeps unsignalled, as many have been signalled as there are items (or free slots). */
  ghost predicate NobodyStranded<T>(m: Monitor<T>) {
    && (m.asleepTake != {} ==> |m.queue| <= |m.signalledTake|)
    && (m.asleepPut != {} ==> m.capacity - |m.queue| <= |m.signalledPut|)
  }

  ghost predicate Inv<T>(m: Monitor<T>) {
    && InCalls(m) && NobodyStranded(m)
    && |m.queue| <= m.capacity
    && m.takes + m.queue == m.puts
  }

  lemma Leave(s: set<Tid>, t: Tid)
    ensures |s - {t}| >= |s| - 1
    ensures t !in s ==> s - {t} == s
  {
    if t in s {
      assert s == (s - {t}) + {t};
    } else {
      assert s - {t} == s;
    }
  }

  lemma Join(s: set<Tid>, w: set<Tid>)
    requires s !! w
    ensures |s + w| == |s| + |w|
  {
  }

  lemma PutPassInv<T>(m: Monitor<T>, t: Tid, x: T, woken: set<Tid>)
    requires Inv(m) && t in m.calls && m.calls[t] == Putting(x) && !Asleep(m, t)
    requires |m.queue| != m.capacity ==> MaySignal(woken, m.asleepTake)
    ensures Inv(PutPass(m, t, x, woken))
  {
    Leave(m.signalledPut, t);
    if |m.queue| != m.capacity {
      Join(m.signalledTake, woken);
      assert m.takes + (m.queue + [x]) == m.puts + [x];
    }
  }

  lemma TakePassInv<T>(m: Monitor<T>, t: Tid, woken: set<Tid>)
    requires Inv(m) && t in m.calls && m.calls[t].Taking? && !Asleep(m, t)
    requires m.queue != [] ==> MaySignal(woken, m.asleepPut)
    ensures Inv(TakePass(m, t, woken))
  {
    Leave(m.signalledTake, t);
    if m.queue != [] {
      Join(m.signalledPut, woken);
      assert (m.takes + [m.queue[0]]) + m.queue[1..] == m.puts;
    }
  }

  lemma StepInv<T>(m: Monitor<T>, op: Op<T>)
    requires Inv(m)
    ensures Inv(Step(m, op))
  {
    if Enabled(m, op) && op.Pass? {
      if m.calls[op.t].Putting? {
        PutPassInv(m, op.t, m.calls[op.t].x, op.woken);
      } else {
        TakePassInv(m, op.t, op.woken);
      }
    }
  }

  lemma {:induction false} ExecuteInv<T>(m: Monitor<T>, ops: seq<Op<T>>)
    requires Inv(m)
    ensures Inv(Execute(m, ops))
    decreases |ops|
  {
    if ops != [] {
      StepInv(m, ops[0]);
      ExecuteInv(Step(m, ops[0]), ops[1..]);
    }
  }

  // ---------- what every run guarantees ----------

  /** The item of a put that this step completes. */
  function Completes<T>(m: Monitor<T>, op: Op<T>): seq<T> {
    if op.Pass? && Enabled(m, op) && m.calls[op.t].Putting? && op.t !in Step(m, op).calls then [m.calls[op.t].x] else []
  }

  /** The step completes a take. */
  predicate CompletesTake<T>(m: Monitor<T>, op: Op<T>) {
    op.Pass? && Enabled(m, op) && m.calls[op.t].Taking? && op.t !in Step(m, op).calls
  }

  /** The items of the puts that a run completes, in that order. */
  function Completed<T>(m: Monitor<T>, ops: seq<Op<T>>): seq<T>
    decreases |ops|
  {
    if ops == [] then [] else Completes(m, ops[0]) + Completed(Step(m, ops[0]), ops[1..])
  }

  function CompletedTakes<T>(m: Monitor<T>, ops: seq<Op<T>>): nat
    decreases |ops|
  {
    if ops == [] then 0 else (if CompletesTake(m, ops[0]) then 1 else 0) + CompletedTakes(Step(m, ops[0]), ops[1..])
  }

  lemma StepCompletes<T>(m: Monitor<T>, op: Op<T>)
    requires Inv(m)
    ensures Step(m, op).puts == m.puts + Completes(m, op)
    ensures |Step(m, op).takes| == |m.takes| + (if CompletesTake(m, op) then 1 else 0)
  {
    assert m.puts + [] == m.puts;
  }

  lemma {:induction false} ExecuteCompletes<T>(m: Monitor<T>, ops: seq<Op<T>>)
    requires Inv(m)
    ensures Execute(m, ops).puts == m.puts + Completed(m, ops)
    ensures |Execute(m, ops).takes| == |m.takes| + CompletedTakes(m, ops)
    decreases |ops|
  {
    if ops == [] {
      assert m.puts + [] == m.puts;
    } else {
      hide Inv, Step, Completes, CompletesTake;
      StepCompletes(m, ops[0]);
      StepInv(m, ops[0]);
      ExecuteCompletes(Step(m, ops[0]), ops[1..]);
      assert m.puts + Completes(m, ops[0]) + Completed(Step(m, ops[0]), ops[1..])
          == m.puts + (Completes(m, ops[0]) + Completed(Step(m, ops[0]), ops[1..]));
    }
  }

  /**
   The queue of every run: it holds the items of the completed puts, in order, without as many of the
   first as takes have completed, each of which has returned the next one. It never exceeds its capacity.
  */
  lemma FifoAndBounded<T>(capacity: nat, ops: seq<Op<T>>)
    ensures var m, puts, n := Execute(Init(capacity), ops), Completed(Init(capacity), ops), CompletedTakes(Init(capacity), ops);
            && n <= |puts| && m.takes == puts[..n] && m.queue == puts[n..]
            && |m.queue| <= capacity
  {
    ExecuteInv(Init<T>(capacity), ops);
    ExecuteCompletes(Init<T>(capacity), ops);
    CapacityStays(Init<T>(capacity), ops);
    var m, puts := Execute(Init(capacity), ops), Completed<T>(Init(capacity), ops);
    assert [] + puts == puts;
    assert m.takes == (m.takes + m.queue)[..|m.takes|] && m.queue == (m.takes + m.queue)[|m.takes|..];
  }

  /**
   When a thread that has the mutex completes its call: a put exactly if there is room, a take exactly if
   there is an item; else it goes to sleep on its condition. Entering a call only records it.
  */
  lemma PassIsExact<T>(m: Monitor<T>, t: Tid, woken: set<Tid>)
    requires Inv(m) && Enabled(m, Pass(t, woken))
    ensures var r := Step(m, Pass(t, woken));
            if m.calls[t].Putting? then
              if |m.queue| < m.capacity then t !in r.calls && r.queue == m.queue + [m.calls[t].x]
              else t in r.calls && r.calls == m.calls && r.queue == m.queue && t in r.asleepPut
            else
              if m.queue != [] then t !in r.calls && r.queue == m.queue[1..]
              else t in r.calls && r.calls == m.calls && r.queue == m.queue && t in r.asleepTake
  {
  }

  lemma EnterIsExact<T>(m: Monitor<T>, t: Tid, call: Call<T>)
    requires t !in m.calls
    ensures Step(m, Enter(t, call)) == m.(calls := m.calls[t := call])
  {
  }

  lemma {:induction false} CapacityStays<T>(m: Monitor<T>, ops: seq<Op<T>>)
    ensures Execute(m, ops).capacity == m.capacity
    decreases |ops|
  {
    if ops != [] {
      CapacityStays(Step(m, ops[0]), ops[1..]);
    }
  }

  /**
   Nobody is stranded: if a thread sleeps in take although there is an item, some thread has been
   signalled there and its next pass will take one; likewise a thread asleep in put while there is room.
  */
  lemma SleeperHasAHelper<T>(capacity: nat, ops: seq<Op<T>>)
    ensures var m := Execute(Init(capacity), ops);
            && (m.asleepTake != {} && m.queue != [] ==>
                  exists t :: t in m.signalledTake && t in m.calls && m.calls[t].Taking? && !Asleep(m, t))
            && (m.asleepPut != {} && |m.queue| < m.capacity ==>
                  exists t :: t in m.signalledPut && t in m.calls && m.calls[t].Putting? && !Asleep(m, t))
  {
    ExecuteInv(Init(capacity), ops);
    var m := Execute(Init(capacity), ops);
    if m.asleepTake != {} && m.queue != [] {
      assert m.signalledTake != {};
      var t :| t in m.signalledTake;
      assert t !in m.asleepPut;
    }
    if m.asleepPut != {} && |m.queue| < m.capacity {
      assert m.signalledPut != {};
      var t :| t in m.signalledPut;
      assert t !in m.asleepTake;
    }
  }

  /**
   If there are threads in a call and all of them are asleep, then all are consumers of an empty
   queue or all are producers of a full one: producers and consumers never all wait for each other.
  */
  lemma NoDeadlock<T>(capacity: nat, ops: seq<Op<T>>)
    requires capacity >= 1
    ensures var m := Execute(Init(capacity), ops);
            m.calls.Keys != {} && (forall t :: t in m.calls ==> Asleep(m, t)) ==>
              || ((forall t :: t in m.calls ==> m.calls[t].Taking?) && m.queue == [])
              || ((forall t :: t in m.calls ==> m.calls[t].Putting?) && |m.queue| == capacity)
  {
    ExecuteInv(Init(capacity), ops);
    CapacityStays(Init<T>(capacity), ops);
    var m := Execute(Init(capacity), ops);
    if m.calls.Keys != {} && forall t :: t in m.calls ==> Asleep(m, t) {
      var s :| s in m.calls;
      assert Asleep(m, s);
      forall t ensures t !in m.signalledTake && t !in m.signalledPut {
        assert t in m.signalledTake || t in m.signalledPut ==> t in m.calls;
      }
      assert m.signalledTake == {} && m.signalledPut == {};
      if m.asleepTake != {} {
        assert m.asleepPut == {};
      }
    }
  }

  /** A signalled consumer that is not overtaken takes the front item, and wakes a producer if one sleeps. */
  lemma ConsumerSucceeds<T>(m: Monitor<T>, t: Tid, woken: set<Tid>)
    requires Inv(m) && t in m.signalledTake && m.queue != [] && MaySignal(woken, m.asleepPut)
    ensures var r := Step(m, Pass(t, woken));
            && t !in r.calls && r.takes == m.takes + [m.queue[0]] && r.queue == m.queue[1..] && r.puts == m.puts
            && (m.asleepPut != {} ==> |r.asleepPut| < |m.asleepPut| && |m.signalledPut| < |r.signalledPut|)
  {
    assert t !in m.asleepPut;
    Fewer(m.asleepPut, m.signalledPut, woken);
  }

  /** A signalled producer that is not overtaken appends its item, and wakes a consumer if one sleeps. */
  lemma ProducerSucceeds<T>(m: Monitor<T>, t: Tid, woken: set<Tid>)
    requires Inv(m) && t in m.signalledPut && |m.queue| < m.capacity && MaySignal(woken, m.asleepTake)
    ensures var r := Step(m, Pass(t, woken));
            && t !in r.calls && r.puts == m.puts + [m.calls[t].x] && r.queue == m.queue + [m.calls[t].x] && r.takes == m.takes
            && (m.asleepTake != {} ==> |r.asleepTake| < |m.asleepTake| && |m.signalledTake| < |r.signalledTake|)
  {
    assert t !in m.asleepTake;
    Fewer(m.asleepTake, m.signalledTake, woken);
  }

  /** A signal moves at least one sleeper, if there is one, to those signalled. */
  lemma Fewer(asleep: set<Tid>, signalled: set<Tid>, woken: set<Tid>)
    requires MaySignal(woken, asleep) && asleep !! signalled
    ensures asleep != {} ==> |asleep - woken| < |asleep| && |signalled| < |signalled + woken|
  {
    if asleep != {} {
      var w :| w in woken;
      assert asleep - woken <= asleep - {w};
      Leave(asleep, w);
      assert asleep == (asleep - {w}) + {w};
      Subset(asleep - woken, asleep - {w});
      Join(signalled, woken);
    }
  }

  lemma Subset(a: set<Tid>, b: set<Tid>)
    requires a <= b
    ensures |a| <= |b|
  {
    assert b == a + (b - a);
  }
}

/** The class itself. The wait sets of its two condition variables are fields too. */
module BoundedBlockingQueueClass {
  import opened BoundedBlockingQueueModel

  /** Steps of threads other than `t`. */
  ghost predicate NotBy<T>(ops: seq<Op<T>>, t: Tid) {
    forall i :: 0 <= i < |ops| ==> ops[i].t != t
  }

  /** Other threads neither finish the call of `t` nor put it to sleep. */
  lemma {:induction false} OthersLeave<T>(m: Monitor<T>, ops: seq<Op<T>>, t: Tid)
    requires NotBy(ops, t) && t in m.calls
    ensures var r := Execute(m, ops);
            && t in r.calls && r.calls[t] == m.calls[t] && (Asleep(r, t) ==> Asleep(m, t))
            && m.takes <= r.takes && m.puts <= r.puts
    decreases |ops|
  {
    if ops != [] {
      OthersLeave(Step(m, ops[0]), ops[1..], t);
    }
  }

  class BoundedBlockingQueue<T> {
    var queue: seq<T>
    const capacity: nat
    var calls: map<Tid, Call<T>>
    var asleepTake: set<Tid>
    var signalledTake: set<Tid>
    var asleepPut: set<Tid>
    var signalledPut: set<Tid>
    ghost var puts: seq<T>
    ghost var takes: seq<T>

    ghost function Abs(): Monitor<T>
      reads this
    {
      Monitor(queue, capacity, calls, asleepTake, signalledTake, asleepPut, signalledPut, puts, takes)
    }

    constructor (maxSize: nat)
      ensures Abs() == Init(maxSize)
    {
      queue, capacity := [], maxSize;
      calls, asleepTake, signalledTake, asleepPut, signalledPut := map[], {}, {}, {}, {};
      puts, takes := [], [];
    }

    /** pthread_cond_signal on notEmpty_. */
    method NotifyNotEmpty(woken: set<Tid>)
      requires MaySignal(woken, asleepTake)
      modifies this`asleepTake, this`signalledTake
      ensures asleepTake == old(asleepTake) - woken && signalledTake == old(signalledTake) + woken
    {
      asleepTake := asleepTake - woken;
      signalledTake := signalledTake + woken;
    }

    method NotifyNotFull(woken: set<Tid>)
      requires MaySignal(woken, asleepPut)
      modifies this`asleepPut, this`signalledPut
      ensures asleepPut == old(asleepPut) - woken && signalledPut == old(signalledPut) + woken
    {
      asleepPut := asleepPut - woken;
      signalledPut := signalledPut + woken;
    }

    /** One pass of put with the mutex held: `done` unless the thread now waits on notFull_. */
    method PutUnderLock(t: Tid, x: T, woken: set<Tid>) returns (done: bool)
      requires Inv(Abs()) && t in calls && calls[t] == Putting(x) && Enabled(Abs(), Pass(t, woken))
      modifies this
      ensures Inv(Abs()) && Abs() == Step(old(Abs()), Pass(t, woken))
      ensures done == (t !in calls) && done == (|old(queue)| < capacity)
      ensures done ==> puts == old(puts) + [x]
    {
      hide Inv;
      PutPassInv(Abs(), t, x, woken);
      Bounded(Abs());
      signalledPut := signalledPut - {t};
      if |queue| == capacity {
        asleepPut := asleepPut + {t};
        done := false;
      } else {
        assert |queue| < capacity;
        queue := queue + [x];
        puts := puts + [x];
        NotifyNotEmpty(woken);
        calls := calls - {t};
        done := true;
      }
    }

    lemma Bounded(m: Monitor<T>)
      requires Inv(m)
      ensures |m.queue| <= m.capacity
    {
    }

    /** One pass of take with the mutex held. */
    method TakeUnderLock(t: Tid, woken: set<Tid>) returns (front: seq<T>)
      requires Inv(Abs()) && t in calls && calls[t].Taking? && Enabled(Abs(), Pass(t, woken))
      modifies this
      ensures Inv(Abs()) && Abs() == Step(old(Abs()), Pass(t, woken))
      ensures front == if old(queue) == [] then [] else [old(queue)[0]]
      ensures (front != []) == (t !in calls) && takes == old(takes) + front
    {
      hide Inv;
      TakePassInv(Abs(), t, woken);
      signalledTake := signalledTake - {t};
      if queue == [] {
        asleepTake := asleepTake + {t};
        front := [];
      } else {
        front := [queue[0]];
        queue := queue[1..];
        takes := takes + front;
        NotifyNotFull(woken);
        calls := calls - {t};
      }
    }

    /** One step of any thread. */
    method Perform(op: Op<T>)
      requires Inv(Abs())
      modifies this
      ensures Inv(Abs()) && Abs() == Step(old(Abs()), op)
    {
      hide Inv;
      StepInv(Abs(), op);
      match op
      case Enter(t, call) =>
        if t !in calls {
          calls := calls[t := call];
        }
      case Pass(t, woken) =>
        if Enabled(Monitor(queue, capacity, calls, asleepTake, signalledTake, asleepPut, signalledPut, [], []), op) {
          if calls[t].Putting? {
            var _ := PutUnderLock(t, calls[t].x, woken);
          } else {
            var _ := TakeUnderLock(t, woken);
          }
        }
      case Spurious(t) =>
        if t in asleepTake || t in asleepPut {
          asleepTake, asleepPut := asleepTake - {t}, asleepPut - {t};
        }
    }

    method OtherThreads(ops: seq<Op<T>>, ghost t: Tid)
      requires Inv(Abs()) && NotBy(ops, t) && t in calls
      modifies this
      ensures Inv(Abs()) && Abs() == Execute(old(Abs()), ops)
      ensures t in calls && calls[t] == old(calls)[t] && (Asleep(Abs(), t) ==> old(Asleep(Abs(), t)))
    {
      hide Inv;
      ghost var m0 := Abs();
      OthersLeave(m0, ops, t);
      for i := 0 to |ops|
        invariant Inv(Abs()) && Execute(Abs(), ops[i..]) == Execute(m0, ops)
      {
        assert ops[i..][0] == ops[i] && ops[i..][1..] == ops[i + 1..];
        Perform(ops[i]);
      }
      assert ops[|ops|..] == [];
    }

    /** Waiting for the mutex or on a condition: other threads run, then the thread is awake, signalled or not. */
    method Wait(t: Tid, meanwhile: seq<Op<T>>) returns (ghost run: seq<Op<T>>)
      requires Inv(Abs()) && NotBy(meanwhile, t) && t in calls
      modifies this
      ensures Inv(Abs()) && Abs() == Execute(old(Abs()), run)
      ensures t in calls && calls[t] == old(calls)[t] && !Asleep(Abs(), t)
    {
      hide Inv;
      ghost var m0 := Abs();
      OtherThreads(meanwhile, t);
      ExecuteSnoc(m0, meanwhile, Spurious(t));
      run := meanwhile + [Spurious(t)];
      Perform(Spurious(t));
    }

    /**
     put, with the loop of the source: `meanwhile(n)` is what other threads do before the n-th time
     the thread has the mutex, and `limit` cuts off a call that has not finished yet.
    */
    method Put(t: Tid, x: T, meanwhile: nat -> seq<Op<T>>, wakes: nat -> set<Tid>, limit: nat)
      returns (done: bool, ghost run: seq<Op<T>>)
      requires Inv(Abs()) && t !in calls && forall n :: NotBy(meanwhile(n), t)
      modifies this
      ensures Inv(Abs()) && Abs() == Execute(old(Abs()), run)
      ensures done == (t !in calls)
      ensures done ==> puts != [] && puts[|puts| - 1] == x
    {
      hide Inv;
      ghost var m0 := Abs();
      ExecuteOne(m0, Enter(t, Putting(x)));
      Perform(Enter(t, Putting(x)));
      run := [Enter(t, Putting(x))];
      done := false;
      var n := 0;
      while !done && n < limit
        invariant Inv(Abs()) && Abs() == Execute(m0, run)
        invariant if done then t !in calls && puts != [] && puts[|puts| - 1] == x
                  else t in calls && calls[t] == Putting(x)
        decreases limit - n
      {
        ghost var waited := Wait(t, meanwhile(n));
        ExecuteConcat(m0, run, waited);
        var woken := if MaySignal(wakes(n), asleepTake) then wakes(n) else asleepTake;
        ExecuteSnoc(m0, run + waited, Pass(t, woken));
        run := run + waited + [Pass(t, woken)];
        done := PutUnderLock(t, x, woken);
        n := n + 1;
      }
    }

    /** take, likewise; `front` is the item taken, if the call has finished. */
    method Take(t: Tid, meanwhile: nat -> seq<Op<T>>, wakes: nat -> set<Tid>, limit: nat)
      returns (front: seq<T>, ghost run: seq<Op<T>>)
      requires Inv(Abs()) && t !in calls && forall n :: NotBy(meanwhile(n), t)
      modifies this
      ensures Inv(Abs()) && Abs() == Execute(old(Abs()), run)
      ensures (front != []) == (t !in calls)
      ensures front != [] ==> takes != [] && front == [takes[|takes| - 1]]
    {
      hide Inv;
      ghost var m0 := Abs();
      ExecuteOne(m0, Enter(t, Taking));
      Perform(Enter(t, Taking));
      run := [Enter(t, Taking)];
      front := [];
      var n := 0;
      while front == [] && n < limit
        invariant Inv(Abs()) && Abs() == Execute(m0, run)
        invariant if front != [] then t !in calls && takes != [] && front == [takes[|takes| - 1]]
                  else t in calls && calls[t] == Taking
        decreases limit - n
      {
        ghost var waited := Wait(t, meanwhile(n));
        ExecuteConcat(m0, run, waited);
        var woken := if MaySignal(wakes(n), asleepPut) then wakes(n) else asleepPut;
        ExecuteSnoc(m0, run + waited, Pass(t, woken));
        run := run + waited + [Pass(t, woken)];
        front := TakeUnderLock(t, woken);
        n := n + 1;
      }
    }
  }
}
