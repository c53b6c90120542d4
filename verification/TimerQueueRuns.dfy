/** What one call of handleRead does to the history, and what the timers are that it finds. */
module TimerQueueRuns {
  import opened TimerQueueModel
  import opened TimerQueueTheorems

  /** What the callbacks of a batch of `n` timers do, one list of operations per callback. */
  function CallbackOps(n: nat, script: nat -> seq<OutsideOp>): seq<Op> {
    if n == 0 then [] else CallbackOps(n - 1, script) + [DoRun] + script(n - 1)
  }

  function HandleReadOps(n: nat, script: nat -> seq<OutsideOp>, elapsed: nat): seq<Op> {
    [DoBegin] + CallbackOps(n, script) + [DoTick(elapsed), DoFinish]
  }

  lemma ExecuteCallback(q: Queue, n: nat, script: nat -> seq<OutsideOp>)
    requires Inv(q)
    ensures var q1 := Execute(q, [DoBegin] + CallbackOps(n, script));
            Execute(q, [DoBegin] + CallbackOps(n + 1, script)) == Execute(Step(q1, DoRun), script(n))
  {
    hide Inv, Step, Execute;
    var ops := [DoBegin] + CallbackOps(n, script);
    assert [DoBegin] + CallbackOps(n + 1, script) == ops + ([DoRun] + script(n));
    ExecuteConcat(q, ops, [DoRun] + script(n));
    ExecuteConcat(Execute(q, ops), [DoRun], script(n));
    ExecuteOne(Execute(q, ops), DoRun);
  }

  lemma ExecuteEnd(q: Queue, n: nat, script: nat -> seq<OutsideOp>, elapsed: nat)
    requires Inv(q)
    ensures var q1 := Execute(q, [DoBegin] + CallbackOps(n, script));
            Execute(q, HandleReadOps(n, script, elapsed)) == Step(Step(q1, DoTick(elapsed)), DoFinish)
  {
    hide Inv, Step, Execute;
    var ops := [DoBegin] + CallbackOps(n, script);
    assert HandleReadOps(n, script, elapsed) == ops + ([DoTick(elapsed)] + [DoFinish]);
    ExecuteConcat(q, ops, [DoTick(elapsed)] + [DoFinish]);
    ExecuteConcat(Execute(q, ops), [DoTick(elapsed)], [DoFinish]);
    ExecuteOne(Execute(q, ops), DoTick(elapsed));
    ExecuteOne(Step(Execute(q, ops), DoTick(elapsed)), DoFinish);
  }

  lemma TickStep(q: Queue, d: nat)
    requires Inv(q)
    ensures Step(q, DoTick(d)) == Tick(q, d)
  {
  }

  lemma IdleIndexed(q: Queue)
    requires Inv(q) && q.phase.Idle?
    ensures Indexed(q, [])
  {
  }

  // ---------- handleRead runs the due timers ----------

  /** The sequence numbers of the timers whose callbacks a history records, in order. */
  function RanIn(log: seq<Event>): seq<nat> {
    if log == [] then [] else
      RanIn(log[..|log| - 1]) + (if log[|log| - 1].Ran? then [log[|log| - 1].sequence] else [])
  }

  lemma RanSnoc(log: seq<Event>, ev: Event)
    ensures RanIn(log + [ev]) == RanIn(log) + (if ev.Ran? then [ev.sequence] else [])
  {
    assert (log + [ev])[..|log|] == log;
  }

  lemma {:induction false} RanConcat(a: seq<Event>, b: seq<Event>)
    ensures RanIn(a + b) == RanIn(a) + RanIn(b)
    decreases |b|
  {
    if b == [] {
      assert a + b == a;
    } else {
      var pre := b[..|b| - 1];
      assert a + b == (a + pre) + [b[|b| - 1]] && b == pre + [b[|b| - 1]];
      RanConcat(a, pre);
      RanSnoc(a + pre, b[|b| - 1]);
      RanSnoc(pre, b[|b| - 1]);
    }
  }

  /** The timers that are due, in order of expiry. */
  function DueTimers(q: Queue): seq<Entry> {
    q.timers[..DueCount(q.timers, q.clock)]
  }

  function Sequences(heap: map<nat, Timer>, b: seq<Entry>): seq<nat>
    requires forall i :: 0 <= i < |b| ==> b[i].addr in heap
  {
    seq(|b|, i requires 0 <= i < |b| => heap[b[i].addr].sequence)
  }

  ghost function DueSequences(q: Queue): seq<nat>
    requires Inv(q)
  {
    DueReady(q);
    Sequences(q.heap, DueTimers(q))
  }

  lemma DueReady(q: Queue)
    requires Inv(q)
    ensures forall i :: 0 <= i < |DueTimers(q)| ==> DueTimers(q)[i].addr in q.heap
  {
    forall i | 0 <= i < |DueTimers(q)| ensures DueTimers(q)[i].addr in q.heap {
      assert DueTimers(q)[i] in q.timers;
    }
  }

  /** What holds during the batch `b`: its next callback is the `n`-th, its timers are those of `heap`, and `ran` have run. */
  ghost predicate Midway(q: Queue, heap: map<nat, Timer>, b: seq<Entry>, n: nat, ran: seq<nat>) {
    && n <= |b| && q.phase.Calling? && q.phase.batch == b && q.phase.next == n && RanIn(q.log) == ran
    && forall i :: 0 <= i < |b| ==> b[i].addr in heap && b[i].addr in q.heap && q.heap[b[i].addr] == heap[b[i].addr]
  }

  lemma MidwayStays(q: Queue, r: Queue, heap: map<nat, Timer>, b: seq<Entry>, n: nat, ran: seq<nat>)
    requires Midway(q, heap, b, n, ran) && Bystander(q, r)
    ensures Midway(r, heap, b, n, ran)
  {
    forall i | 0 <= i < |b| ensures b[i].addr in r.heap && r.heap[b[i].addr] == heap[b[i].addr] {
      assert b[i] in Batch(q);
    }
  }

  /** A step that runs nothing and keeps the timers of the running batch. */
  ghost predicate Bystander(q: Queue, r: Queue) {
    && r.phase == q.phase && RanIn(r.log) == RanIn(q.log)
    && forall e :: e in Batch(q) && e.addr in q.heap ==> e.addr in r.heap && r.heap[e.addr] == q.heap[e.addr]
  }

  lemma CreateBystander(q: Queue, addr: nat, when: int, delta: nat, repeat: bool)
    requires addr !in q.heap
    ensures Bystander(q, Create(q, addr, when, delta, repeat))
  {
    RanSnoc(q.log, Created(TimerId(addr, q.created + 1), repeat));
  }

  lemma CancelBystander(q: Queue, id: TimerId)
    requires Inv(q)
    ensures Sorted(q.timers) && (id in q.active ==> id.addr in q.heap) && Bystander(q, Cancel(q, id))
  {
    if id in q.active {
      CancelSparesBatch(q, id);
      RanSnoc(q.log, Deleted(q.heap[id.addr].sequence));
    }
    assert Sorted(q.timers);
    hide Indexed, Told, AlarmOk, Sorted, RanIn;
  }

  lemma OutsideEffect(q: Queue, op: OutsideOp)
    requires Inv(q)
    ensures Bystander(q, Step(q, op))
  {
    hide Indexed, Told, AlarmOk, Bystander, Sorted;
    if Enabled(q, op) {
      match op
      case DoCreate(addr, when, delta, repeat) => CreateBystander(q, addr, when, delta, repeat);
      case DoCancel(id) => CancelBystander(q, id);
      case DoAdd(addr) => QuietBystander(q, Step(q, op));
      case DoTick(d) => QuietBystander(q, Step(q, op));
    } else {
      QuietBystander(q, q);
    }
  }

  lemma QuietBystander(q: Queue, r: Queue)
    requires r.phase == q.phase && r.log == q.log && r.heap == q.heap
    ensures Bystander(q, r)
  {
  }

  lemma CancelSparesBatch(q: Queue, id: TimerId)
    requires Inv(q) && id in q.active
    ensures id.addr in q.heap && forall e :: e in Batch(q) ==> e.addr != id.addr
  {
  }

  lemma {:induction false} OutsideExecute(q: Queue, ops: seq<OutsideOp>, heap: map<nat, Timer>, b: seq<Entry>, n: nat, ran: seq<nat>)
    requires Inv(q) && Midway(q, heap, b, n, ran)
    ensures Midway(Execute(q, ops), heap, b, n, ran)
    decreases |ops|
  {
    if ops != [] {
      hide Inv, Step;
      OutsideEffect(q, ops[0]);
      MidwayStays(q, Step(q, ops[0]), heap, b, n, ran);
      hide Midway;
      OutsideExecute(Step(q, ops[0]), ops[1..], heap, b, n, ran);
    }
  }

  lemma StepRun(q: Queue)
    requires Inv(q) && q.phase.Calling? && q.phase.next < |q.phase.batch|
    ensures var a := q.phase.batch[q.phase.next].addr;
            && a in q.heap && Step(q, DoRun).heap == q.heap
            && Step(q, DoRun).phase == q.phase.(next := q.phase.next + 1)
            && Step(q, DoRun).log == q.log + [Ran(q.heap[a].sequence)]
  {
    hide Indexed, Told, AlarmOk;
    RunInv(q);
  }

  lemma RunMidway(q: Queue, heap: map<nat, Timer>, b: seq<Entry>, n: nat, ran: seq<nat>)
    requires Inv(q) && Midway(q, heap, b, n, ran) && n < |b| && b[n].addr in heap
    ensures Midway(Step(q, DoRun), heap, b, n + 1, ran + [heap[b[n].addr].sequence])
  {
    hide Inv, Step, RanIn;
    StepRun(q);
    RanSnoc(q.log, Ran(heap[b[n].addr].sequence));
  }

  lemma BeginMidway(q: Queue)
    requires Inv(q) && q.phase.Idle?
    ensures Midway(Step(q, DoBegin), q.heap, DueTimers(q), 0, RanIn(q.log))
  {
    DueReady(q);
    hide Indexed, Told, AlarmOk, RanIn;
  }

  lemma {:induction false} CallbacksRun(q: Queue, n: nat, script: nat -> seq<OutsideOp>)
    requires Inv(q) && q.phase.Idle? && n <= |DueTimers(q)|
    ensures |DueSequences(q)| == |DueTimers(q)|
    ensures Midway(Execute(q, [DoBegin] + CallbackOps(n, script)), q.heap, DueTimers(q), n, RanIn(q.log) + DueSequences(q)[..n])
  {
    hide Inv, Midway, Step, Execute, RanIn;
    DueReady(q);
    var before, s := RanIn(q.log), DueSequences(q);
    if n == 0 {
      assert [DoBegin] + CallbackOps(0, script) == [DoBegin];
      ExecuteOne(q, DoBegin);
      BeginMidway(q);
      assert before + s[..0] == before;
    } else {
      CallbacksRun(q, n - 1, script);
      ExecuteCallback(q, n - 1, script);
      var q1, ran := Execute(q, [DoBegin] + CallbackOps(n - 1, script)), before + s[..n - 1];
      RunMidway(q1, q.heap, DueTimers(q), n - 1, ran);
      assert before + s[..n] == ran + [s[n - 1]];
      OutsideExecute(Step(q1, DoRun), script(n - 1), q.heap, DueTimers(q), n, before + s[..n]);
    }
  }

  lemma {:induction false} ResetAllRuns(q: Queue, b: seq<Entry>, now: int)
    requires Resetting(q, b, now)
    ensures RanIn(ResetAll(q, b, now).log) == RanIn(q.log)
    decreases |b|
  {
    if b != [] {
      ResetOneKeeps(q, b, now);
      ResetOneRuns(q, b[0], now);
      hide Resetting, ResetOne;
      ResetAllRuns(ResetOne(q, b[0], now), b[1..], now);
    }
  }

  lemma ResetOneRuns(q: Queue, e: Entry, now: int)
    requires e.addr in q.heap && Sorted(q.timers) && forall x :: x in q.timers ==> x.addr != e.addr
    ensures RanIn(ResetOne(q, e, now).log) == RanIn(q.log)
  {
    RanSnoc(q.log, Deleted(q.heap[e.addr].sequence));
    hide RanIn, Sorted;
  }

  lemma FinishReadRuns(q: Queue)
    requires Inv(q) && q.phase.Calling? && q.phase.next == |q.phase.batch|
    ensures RanIn(FinishRead(q).log) == RanIn(q.log)
  {
    FinishReady(q);
    hide Inv, Resetting, ResetAll, RanIn;
    ResetAllRuns(q, q.phase.batch, q.phase.now);
  }

  lemma FinishRuns(q: Queue, elapsed: nat)
    requires Inv(q) && q.phase.Calling? && q.phase.next == |q.phase.batch|
    ensures RanIn(Step(Step(q, DoTick(elapsed)), DoFinish).log) == RanIn(q.log)
  {
    TickInv(q, elapsed);
    TickStep(q, elapsed);
    hide Inv, FinishRead, RanIn;
    FinishReadRuns(Tick(q, elapsed));
  }

  /**
   handleRead, whatever its callbacks do and however long they take, runs exactly the timers that are
   due when it starts: each once, in order of expiry.
  */
  lemma HandleReadRuns(q: Queue, script: nat -> seq<OutsideOp>, elapsed: nat)
    requires Inv(q) && q.phase.Idle?
    ensures var due := DueTimers(q);
            && (forall e :: e in due <==> e in q.timers && e.when <= q.clock)
            && (forall i, j :: 0 <= i < j < |due| ==> due[i].when <= due[j].when && due[i] != due[j])
    ensures var r := Execute(q, HandleReadOps(|DueTimers(q)|, script, elapsed));
            q.log <= r.log && RanIn(r.log[|q.log|..]) == DueSequences(q)
  {
    DueInOrder(q);
    hide Inv, DueTimers, DueSequences, HandleReadOps, Execute, RanIn;
    ReadLog(q, script, elapsed);
    ExecuteLog(q, HandleReadOps(|DueTimers(q)|, script, elapsed));
    RanSuffix(q.log, Execute(q, HandleReadOps(|DueTimers(q)|, script, elapsed)).log, DueSequences(q));
  }

  lemma ReadLog(q: Queue, script: nat -> seq<OutsideOp>, elapsed: nat)
    requires Inv(q) && q.phase.Idle?
    ensures RanIn(Execute(q, HandleReadOps(|DueTimers(q)|, script, elapsed)).log) == RanIn(q.log) + DueSequences(q)
  {
    hide Inv, Step, Execute, DueTimers, DueSequences, HandleReadOps, CallbackOps, RanIn, Midway;
    var n, q1 := |DueTimers(q)|, Execute(q, [DoBegin] + CallbackOps(|DueTimers(q)|, script));
    CallbacksRun(q, n, script);
    ExecuteEnd(q, n, script, elapsed);
    MidwayMeans(q1, q.heap, DueTimers(q), n, RanIn(q.log) + DueSequences(q)[..n]);
    FinishRuns(q1, elapsed);
    assert DueSequences(q)[..n] == DueSequences(q);
  }

  lemma RanSuffix(a: seq<Event>, b: seq<Event>, s: seq<nat>)
    requires a <= b && RanIn(b) == RanIn(a) + s
    ensures RanIn(b[|a|..]) == s
  {
    hide RanIn;
    assert b == a + b[|a|..];
    RanConcat(a, b[|a|..]);
    SameTail(RanIn(a), RanIn(b[|a|..]), s);
  }

  lemma SameTail(a: seq<nat>, b: seq<nat>, c: seq<nat>)
    requires a + b == a + c
    ensures b == c
  {
    assert b == (a + b)[|a|..] && c == (a + c)[|a|..];
  }

  lemma MidwayMeans(q: Queue, heap: map<nat, Timer>, b: seq<Entry>, n: nat, ran: seq<nat>)
    requires Midway(q, heap, b, n, ran) && n == |b|
    ensures q.phase.Calling? && q.phase.next == |q.phase.batch| && RanIn(q.log) == ran
  {
  }

  lemma DueInOrder(q: Queue)
    requires Inv(q)
    ensures var due := DueTimers(q);
            && (forall e :: e in due <==> e in q.timers && e.when <= q.clock)
            && (forall i, j :: 0 <= i < j < |due| ==> due[i].when <= due[j].when && due[i] != due[j])
  {
    hide Told;
    DueSplit(q.timers, q.clock);
  }

  // ---------- what one step does to the timers ----------

  /** A timer of the batch that is restarted. */
  ghost predicate Restarted(q: Queue, e: Entry)
    requires e.addr in q.heap
  {
    q.phase.Calling? && e in q.phase.batch && q.heap[e.addr].repeat && IdOf(q.heap, e.addr) !in q.canceling
  }

  lemma FinishTimers(q: Queue)
    requires Inv(q) && q.phase.Calling? && q.phase.next == |q.phase.batch|
    ensures var r := FinishRead(q);
            && r.created == q.created
            && (forall a :: a in r.heap ==> a in q.heap)
            && (forall a :: a in r.heap ==>
                  if EntryOf(q.heap, a) in q.phase.batch then
                    Restarted(q, EntryOf(q.heap, a)) && r.heap[a] == q.heap[a].(expiration := q.phase.now + q.heap[a].delta)
                  else r.heap[a] == q.heap[a])
  {
    FinishIsExact(q);
    FinishFacts(q, FinishRead(q));
  }

  lemma FinishFacts(q: Queue, r: Queue)
    requires q.phase.Calling? && Frame(q, r, q.phase.batch)
    requires forall e :: e in q.phase.batch ==> e.addr in q.heap && Settled(q, r, e, q.phase.now)
    ensures r.created == q.created && forall a :: a in r.heap ==> a in q.heap
    ensures forall a :: a in r.heap ==>
              if EntryOf(q.heap, a) in q.phase.batch then
                Restarted(q, EntryOf(q.heap, a)) && r.heap[a] == q.heap[a].(expiration := q.phase.now + q.heap[a].delta)
              else r.heap[a] == q.heap[a]
  {
    hide LifeOf;
    forall a | a in r.heap
      ensures a in q.heap &&
        if EntryOf(q.heap, a) in q.phase.batch then
          Restarted(q, EntryOf(q.heap, a)) && r.heap[a] == q.heap[a].(expiration := q.phase.now + q.heap[a].delta)
        else r.heap[a] == q.heap[a] {
      if EntryOf(q.heap, a) in q.phase.batch {
        assert Settled(q, r, EntryOf(q.heap, a), q.phase.now);
      }
    }
  }

  /** A timer changes only when it is created and when its batch restarts it. */
  lemma StepTimers(q: Queue, op: Op)
    requires Inv(q)
    ensures var r, creates := Step(q, op), op.DoCreate? && Enabled(q, op);
            && r.created == q.created + (if creates then 1 else 0)
            && forall a :: a in r.heap ==>
                 || (a in q.heap && r.heap[a] == q.heap[a])
                 || (creates && a == op.addr && r.heap[a] == Timer(op.when, op.delta, op.repeat, r.created))
                 || (a in q.heap && op.DoFinish? && Enabled(q, op) && Restarted(q, EntryOf(q.heap, a)) &&
                     r.heap[a] == q.heap[a].(expiration := q.phase.now + q.heap[a].delta))
  {
    hide Indexed, Told, AlarmOk, Restarted, FinishRead;
    if Enabled(q, op) && op.DoFinish? {
      FinishTimers(q);
    }
  }

  // ---------- timers are as given to addTimer ----------

  /** The creations of a run, in order. */
  ghost function Creations(q: Queue, ops: seq<Op>): seq<Op>
    requires Inv(q)
    decreases |ops|
  {
    if ops == [] then [] else
      (if ops[0].DoCreate? && Enabled(q, ops[0]) then [ops[0]] else []) + Creations(Step(q, ops[0]), ops[1..])
  }

  predicate HasRun(q: Queue, n: nat) {
    LifeOf(q.log, n).Live? && LifeOf(q.log, n).ran
  }

  /** The timer with sequence number n is the n-th created; it is due when it was to be, unless it repeats and has run. */
  ghost predicate AsGiven(q: Queue, cs: seq<Op>, a: nat)
    requires a in q.heap
  {
    var t := q.heap[a];
    && 0 < t.sequence <= |cs| && cs[t.sequence - 1].DoCreate?
    && var c := cs[t.sequence - 1];
       && c.addr == a && t.delta == c.delta && t.repeat == c.repeat
       && (t.expiration == c.when || (c.repeat && HasRun(q, t.sequence)))
  }

  /** All timers are as given, and in a batch those whose turn has been have run. */
  ghost predicate Given(q: Queue, cs: seq<Op>) {
    && |cs| == q.created
    && (forall a :: a in q.heap ==> AsGiven(q, cs, a))
    && (q.phase.Calling? && q.phase.next <= |q.phase.batch| ==>
          forall i :: 0 <= i < q.phase.next ==>
            q.phase.batch[i].addr in q.heap && HasRun(q, q.heap[q.phase.batch[i].addr].sequence))
  }

  /** A timer that has run and is alive has run ever after. */
  lemma {:induction false} RanStays(log: seq<Event>, n: nat, k: nat)
    requires k <= |log| && LifeOf(log, n) != Bad
    requires LifeOf(log[..k], n).Live? && LifeOf(log[..k], n).ran
    ensures LifeOf(log, n).Dead? || (LifeOf(log, n).Live? && LifeOf(log, n).ran)
  {
    if k < |log| {
      var pre := log[..|log| - 1];
      assert log[..k] == pre[..k];
      PrefixNotBad(log, n, |log| - 1);
      RanStays(pre, n, k);
    } else {
      assert log[..k] == log;
    }
  }

  lemma HasRunStays(q: Queue, op: Op, a: nat)
    requires Inv(q) && a in q.heap && a in Step(q, op).heap && Step(q, op).heap[a].sequence == q.heap[a].sequence
    requires HasRun(q, q.heap[a].sequence)
    ensures HasRun(Step(q, op), q.heap[a].sequence)
  {
    var r, n := Step(q, op), q.heap[a].sequence;
    ToldMeans(r, n);
    hide Inv, Step;
    StepLog(q, op);
    assert r.log[..|q.log|] == q.log;
    RanStays(r.log, n, |q.log|);
  }

  /** A batch only moves on by DoRun, and leaves its timers where they are. */
  lemma StepPhase(q: Queue, op: Op)
    requires Inv(q)
    ensures var r := Step(q, op);
            r.phase.Calling? ==>
              || (q.phase.Calling? && r.phase == q.phase)
              || r.phase.next == 0
              || (q.phase.Calling? && op.DoRun? && r.phase.next == q.phase.next + 1 && r.phase == q.phase.(next := r.phase.next))
  {
    hide Indexed, Told, AlarmOk;
  }

  lemma BatchAlive(q: Queue, i: nat)
    requires Inv(q) && q.phase.Calling? && i < |q.phase.batch|
    ensures q.phase.batch[i].addr in q.heap && q.phase.batch[i] == EntryOf(q.heap, q.phase.batch[i].addr)
  {
    assert q.phase.batch[i] in q.phase.batch;
  }

  lemma SequenceKept(q: Queue, op: Op, a: nat)
    requires Inv(q) && a in q.heap && a in Step(q, op).heap
    ensures Step(q, op).heap[a].sequence == q.heap[a].sequence
  {
    StepTimers(q, op);
    hide Inv, Step;
  }

  lemma BatchStep(q: Queue, cs: seq<Op>, op: Op, i: nat)
    requires Inv(q) && Given(q, cs) && Step(q, op).phase.Calling? && i < Step(q, op).phase.next <= |Step(q, op).phase.batch|
    ensures var r := Step(q, op);
            r.phase.batch[i].addr in r.heap && HasRun(r, r.heap[r.phase.batch[i].addr].sequence)
  {
    hide Inv, Step, HasRun;
    var r := Step(q, op);
    StepPhase(q, op);
    BatchAlive(r, i);
    BatchAlive(q, i);
    var a := r.phase.batch[i].addr;
    SequenceKept(q, op, a);
    if i < q.phase.next {
      HasRunStays(q, op, a);
    } else {
      RunHasRun(q);
    }
  }

  lemma RunHasRun(q: Queue)
    requires Inv(q) && q.phase.Calling? && q.phase.next < |q.phase.batch| && q.phase.batch[q.phase.next].addr in q.heap
    ensures HasRun(Step(q, DoRun), q.heap[q.phase.batch[q.phase.next].addr].sequence)
  {
    var n := q.heap[q.phase.batch[q.phase.next].addr].sequence;
    StepRun(q);
    LifeSnoc(q.log, Ran(n), n);
    ToldMeans(Step(q, DoRun), n);
    HeapAlive(q, q.phase.batch[q.phase.next].addr);
    hide Inv, Step, LifeOf;
  }

  lemma HeapAlive(q: Queue, a: nat)
    requires Inv(q) && a in q.heap
    ensures LifeOf(q.log, q.heap[a].sequence).Live?
  {
  }

  lemma RestartedHasRun(q: Queue, cs: seq<Op>, op: Op, a: nat)
    requires Given(q, cs) && op.DoFinish? && Enabled(q, op) && a in q.heap && Restarted(q, EntryOf(q.heap, a))
    ensures HasRun(q, q.heap[a].sequence)
  {
    hide HasRun, AsGiven;
    var i :| 0 <= i < |q.phase.batch| && q.phase.batch[i] == EntryOf(q.heap, a);
  }

  lemma TimerStep(q: Queue, cs: seq<Op>, op: Op, a: nat)
    requires Inv(q) && Given(q, cs) && a in Step(q, op).heap
    ensures AsGiven(Step(q, op), cs + (if op.DoCreate? && Enabled(q, op) then [op] else []), a)
  {
    hide Inv, Step, HasRun;
    StepTimers(q, op);
    if a in q.heap {
      assert AsGiven(q, cs, a);
      SequenceKept(q, op, a);
      if Enabled(q, op) && op.DoFinish? && Restarted(q, EntryOf(q.heap, a)) {
        RestartedHasRun(q, cs, op, a);
      }
      if HasRun(q, q.heap[a].sequence) {
        HasRunStays(q, op, a);
      }
    }
  }

  lemma GivenStep(q: Queue, cs: seq<Op>, op: Op)
    requires Inv(q) && Given(q, cs)
    ensures Given(Step(q, op), cs + (if op.DoCreate? && Enabled(q, op) then [op] else []))
  {
    hide Inv, Step, Enabled, AsGiven, HasRun;
    var r, more := Step(q, op), if op.DoCreate? && Enabled(q, op) then [op] else [];
    CreatedStep(q, op);
    forall a | a in r.heap ensures AsGiven(r, cs + more, a) {
      TimerStep(q, cs, op, a);
    }
    if r.phase.Calling? && r.phase.next <= |r.phase.batch| {
      forall i | 0 <= i < r.phase.next
        ensures r.phase.batch[i].addr in r.heap && HasRun(r, r.heap[r.phase.batch[i].addr].sequence) {
        BatchStep(q, cs, op, i);
      }
    }
  }

  lemma CreatedStep(q: Queue, op: Op)
    requires Inv(q)
    ensures Step(q, op).created == q.created + (if op.DoCreate? && Enabled(q, op) then 1 else 0)
  {
    hide Inv, Step, Enabled, Restarted;
    StepTimers(q, op);
  }

  lemma {:induction false} GivenExecute(q: Queue, cs: seq<Op>, ops: seq<Op>)
    requires Inv(q) && Given(q, cs)
    ensures Given(Execute(q, ops), cs + Creations(q, ops))
    decreases |ops|
  {
    hide Inv, Given, Step, Enabled;
    if ops == [] {
      assert cs + [] == cs;
    } else {
      var more, rest := if ops[0].DoCreate? && Enabled(q, ops[0]) then [ops[0]] else [], Creations(Step(q, ops[0]), ops[1..]);
      GivenStep(q, cs, ops[0]);
      GivenExecute(Step(q, ops[0]), cs + more, ops[1..]);
      Associate(cs, more, rest);
    }
  }

  lemma Associate(a: seq<Op>, b: seq<Op>, c: seq<Op>)
    ensures (a + b) + c == a + (b + c)
  {
  }

  /**
   In every run the live timer with sequence number n is the one of the n-th addTimer, at the address
   that it was given, with its interval, and due when it was to be; only if it repeats and has run is it
   due at another time (which FinishIsExact says).
  */
  lemma TimersAreAsGiven(clock: int, ops: seq<Op>, a: nat)
    requires clock > 0
    ensures Inv(Init(clock))
    ensures var q, cs := Execute(Init(clock), ops), Creations(Init(clock), ops);
            && |cs| == q.created
            && (a in q.heap ==>
                  var t := q.heap[a];
                  && 0 < t.sequence <= |cs| && cs[t.sequence - 1].DoCreate?
                  && var c := cs[t.sequence - 1];
                     && c.addr == a && t.delta == c.delta && t.repeat == c.repeat
                     && (t.expiration == c.when || (c.repeat && LifeOf(q.log, t.sequence) == Live(a, true, true))))
  {
    InitInv(clock);
    GivenExecute(Init(clock), [], ops);
    assert [] + Creations(Init(clock), ops) == Creations(Init(clock), ops);
    var q := Execute(Init(clock), ops);
    if a in q.heap {
      assert AsGiven(q, Creations(Init(clock), ops), a);
      LifeIs(q, a);
    }
  }

  lemma LifeIs(q: Queue, a: nat)
    requires Inv(q) && a in q.heap
    ensures var l := LifeOf(q.log, q.heap[a].sequence); l.Live? && l.addr == a && l.repeat == q.heap[a].repeat
  {
  }

  // ---------- add, cancel, and the alarm ----------

  /** addTimerInLoop puts the timer into both indexes, and sets the alarm for it exactly if it is the earliest. */
  lemma AddIsExact(q: Queue, addr: nat)
    requires Inv(q) && addr in q.pending
    ensures addr in q.heap
    ensures var r, t := Step(q, DoAdd(addr)), q.heap[addr];
            && (forall e :: e in r.timers <==> e in q.timers || e == Entry(t.expiration, addr))
            && r.active == q.active + {TimerId(addr, t.sequence)} && r.pending == q.pending - {addr}
            && r.heap == q.heap && r.log == q.log && r.phase == q.phase && r.canceling == q.canceling
            && r.alarm == if forall e :: e in q.timers ==> t.expiration < e.when
                          then Armed(Later(t.expiration, q.clock + 100), q.clock) else q.alarm
  {
    AddReady(q, addr);
    EarliestIff(q, q.heap[addr].expiration);
    StepAdd(q, addr);
    hide Inv, Step, EarliestChanged, Sorted;
  }

  lemma StepAdd(q: Queue, addr: nat)
    requires Inv(q) && addr in q.pending
    ensures addr in q.heap && Sorted(q.timers) && EntryOf(q.heap, addr) !in q.timers
    ensures Step(q, DoAdd(addr)) == AddInLoop(q, addr)
  {
    AddReady(q, addr);
    hide Indexed, Told, AlarmOk, Sorted;
  }

  function Later(a: int, b: int): int { if a < b then b else a }

  lemma EarliestIff(q: Queue, when: int)
    requires Sorted(q.timers)
    ensures EarliestChanged(q, when) <==> forall e :: e in q.timers ==> when < e.when
  {
    if q.timers != [] {
      assert q.timers[0] in q.timers;
      assert forall i :: 0 < i < |q.timers| ==> Less(q.timers[0], q.timers[i]);
    }
  }

  /** cancelInLoop deletes the timer if it is in the queue, and touches no other timer and no alarm. */
  lemma CancelIsExact(q: Queue, id: TimerId)
    requires Inv(q)
    ensures var r := Step(q, DoCancel(id));
            && r.pending == q.pending && r.alarm == q.alarm && r.clock == q.clock && r.phase == q.phase
            && r.canceling == q.canceling + (if id !in q.active && q.phase.Calling? then {id} else {})
            && (if id in q.active then
                  && r.heap == q.heap - {id.addr} && r.log == q.log + [Deleted(id.sequence)]
                  && r.active == q.active - {id} && forall e :: e in r.timers <==> e in q.timers && e.addr != id.addr
                else r.heap == q.heap && r.log == q.log && r.active == q.active && r.timers == q.timers)
  {
    hide Inv, Step, Sorted, Indexed;
    CancelStep(q, id);
    if id in q.active {
      CancelFound(q, id);
    }
  }

  lemma CancelFound(q: Queue, id: TimerId)
    requires Inv(q) && id in q.active
    ensures Sorted(q.timers) && id.addr in q.heap && id == IdOf(q.heap, id.addr)
    ensures var r := Cancel(q, id);
            && r.pending == q.pending && r.alarm == q.alarm && r.clock == q.clock && r.phase == q.phase
            && r.canceling == q.canceling && r.heap == q.heap - {id.addr} && r.log == q.log + [Deleted(id.sequence)]
            && r.active == q.active - {id} && forall e :: e in r.timers <==> e in q.timers && e.addr != id.addr
  {
    CancelStep(q, id);
    OneEntry(q, id);
    CancelParts(q, id, Batch(q));
    hide Inv, Sorted, Indexed;
  }

  lemma CancelStep(q: Queue, id: TimerId)
    requires Inv(q)
    ensures Sorted(q.timers) && (id in q.active ==> id.addr in q.heap && id == IdOf(q.heap, id.addr))
    ensures Step(q, DoCancel(id)) == Cancel(q, id)
  {
    assert Sorted(q.timers);
    hide Told, AlarmOk, Sorted;
  }

  lemma OneEntry(q: Queue, id: TimerId)
    requires Inv(q) && id in q.active
    ensures id.addr in q.heap && forall e :: e in q.timers && e.addr == id.addr ==> e == EntryOf(q.heap, id.addr)
  {
    hide Told, AlarmOk;
  }

  /** After a batch the alarm is set for the earliest timer, if its time is valid, and no earlier than need be. */
  lemma FinishArms(q: Queue)
    requires Inv(q) && q.phase.Calling? && q.phase.next == |q.phase.batch|
    ensures var r := Step(q, DoFinish);
            && r.phase.Idle?
            && r.alarm == if r.timers != [] && r.timers[0].when > 0
                          then Armed(Later(r.timers[0].when, q.clock + 100), q.clock) else q.alarm
  {
    hide Inv, Resetting, ResetAll;
    FinishReady(q);
    ResetAllAlarm(q, q.phase.batch, q.phase.now);
    FinishIs(q);
  }

  lemma FinishIs(q: Queue)
    requires Inv(q) && q.phase.Calling? && q.phase.next == |q.phase.batch|
    ensures Resetting(q, q.phase.batch, q.phase.now)
    ensures Step(q, DoFinish) == Rearm(ResetAll(q, q.phase.batch, q.phase.now)).(phase := Idle)
  {
    hide Inv, Resetting, ResetAll, Rearm;
    FinishReady(q);
  }

  lemma {:induction false} ResetAllAlarm(q: Queue, b: seq<Entry>, now: int)
    requires Resetting(q, b, now)
    ensures ResetAll(q, b, now).alarm == q.alarm && ResetAll(q, b, now).clock == q.clock
    decreases |b|
  {
    if b != [] {
      ResetOneKeeps(q, b, now);
      hide Resetting;
      ResetAllAlarm(ResetOne(q, b[0], now), b[1..], now);
    }
  }
}
