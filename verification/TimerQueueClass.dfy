/**
 The TimerQueue class itself: the fields of the source, updated in place. Every method is proved
 to take the state to the one that the state machine's step gives, and handleRead to be a run of it.
*/
module TimerQueueClass {
  import opened TimerQueueModel
  import opened TimerQueueTheorems
  import opened TimerQueueRuns

  lemma InsertReady(q: Queue, addr: nat)
    requires Inv(q) && addr in q.pending
    ensures addr in q.heap && Sorted(q.timers) && EntryOf(q.heap, addr) !in q.timers
    ensures IdOf(q.heap, addr) !in q.active && |q.timers| == |q.active|
  {
  }

  lemma BeginReady(q: Queue)
    requires Indexed(q, [])
    ensures var r := BeginRead(q);
            && |r.timers| == |r.active| && r.timers == q.timers[|r.phase.batch|..]
            && r.phase.batch == q.timers[..DueCount(q.timers, q.clock)]
            && (forall id :: id in q.active ==> id.addr in q.heap && id == IdOf(q.heap, id.addr))
            && (forall e :: e in r.phase.batch ==> e.addr in q.heap && e == EntryOf(q.heap, e.addr) && IdOf(q.heap, e.addr) in q.active)
            && (forall i, j :: 0 <= i < j < |r.phase.batch| ==> r.phase.batch[i].addr != r.phase.batch[j].addr)
  {
    BeginIndexed(q);
    DueSplit(q.timers, q.clock);
  }

  lemma ResetReady(q: Queue, b: seq<Entry>, now: int)
    requires Resetting(q, b, now) && b != []
    ensures b[0].addr in q.heap && Sorted(q.timers) && forall x :: x in q.timers ==> x.addr != b[0].addr
    ensures IdOf(q.heap, b[0].addr) !in q.active && |q.timers| == |q.active|
  {
    assert b[0] in b;
  }

  lemma CancelReady(q: Queue, id: TimerId)
    requires Inv(q)
    ensures Sorted(q.timers) && |q.timers| == |q.active|
    ensures id in q.active ==> id.addr in q.heap && id == IdOf(q.heap, id.addr) && EntryOf(q.heap, id.addr) in q.timers
  {
  }

  class TimerQueue {
    var timers: seq<Entry>
    var activeTimers: set<TimerId>
    var callingExpiredTimers: bool
    var cancelingTimers: set<TimerId>

    // the allocator, the timerfd and the clock
    var heap: map<nat, Timer>
    var alarm: Alarm
    var clock: int
    var numCreated: nat

    var pending: set<nat>
    ghost var phase: Phase
    ghost var log: seq<Event>

    ghost function State(): Queue
      reads this
    {
      Queue(heap, pending, timers, activeTimers, cancelingTimers, alarm, clock, numCreated, phase, log)
    }

    ghost predicate Valid()
      reads this
    {
      Inv(State()) && callingExpiredTimers == phase.Calling?
    }

    constructor (now: int)
      requires now > 0
      ensures Valid() && State() == Init(now)
    {
      timers, activeTimers, callingExpiredTimers, cancelingTimers := [], {}, false, {};
      heap, alarm, clock, numCreated := map[], Disarmed, now, 0;
      pending, phase, log := {}, Idle, [];
    }

    /** The `new Timer` of addTimer. */
    method NewTimer(addr: nat, when: int, delta: nat, repeat: bool) returns (id: TimerId)
      requires Valid() && addr !in heap
      modifies this
      ensures Valid() && State() == Create(old(State()), addr, when, delta, repeat)
      ensures id == TimerId(addr, old(numCreated) + 1)
    {
      hide Inv;
      CreateInv(State(), addr, when, delta, repeat);
      numCreated := numCreated + 1;
      id := TimerId(addr, numCreated);
      heap := heap[addr := Timer(when, delta, repeat, numCreated)];
      pending := pending + {addr};
      log := log + [Created(id, repeat)];
    }

    method ResetTimerfd(expiration: int)
      modifies this`alarm
      ensures alarm == Arm(clock, expiration)
    {
      var microseconds := expiration - clock;
      if microseconds < MIN_DELAY {
        microseconds := MIN_DELAY;
      }
      alarm := Armed(clock + microseconds, clock);
    }

    method InsertTimer(addr: nat) returns (earliestChanged: bool)
      requires addr in heap && Sorted(timers) && EntryOf(heap, addr) !in timers
      requires IdOf(heap, addr) !in activeTimers && |timers| == |activeTimers|
      modifies this`timers, this`activeTimers
      ensures State() == Insert(old(State()), addr) && |timers| == |activeTimers|
      ensures earliestChanged == EarliestChanged(old(State()), heap[addr].expiration)
    {
      var when := heap[addr].expiration;
      earliestChanged := false;
      if timers == [] || when < timers[0].when {
        earliestChanged := true;
      }
      timers := InsertEntry(timers, Entry(when, addr));
      activeTimers := activeTimers + {TimerId(addr, heap[addr].sequence)};
    }

    method AddTimerInLoop(addr: nat)
      requires Valid() && addr in pending
      modifies this
      ensures Valid() && State() == AddInLoop(old(State()), addr)
    {
      hide Inv, Sorted;
      AddInv(State(), addr);
      InsertReady(State(), addr);
      pending := pending - {addr};
      var earliestChanged := InsertTimer(addr);
      if earliestChanged {
        ResetTimerfd(heap[addr].expiration);
      }
    }

    /** cancelInLoop: the sizes agree before and after, and what the active set names is erased. */
    method CancelInLoop(id: TimerId)
      requires Valid()
      modifies this
      ensures Valid() && State() == Cancel(old(State()), id)
    {
      hide Inv, Sorted;
      CancelReady(State(), id);
      CancelInv(State(), id);
      assert |timers| == |activeTimers|;
      if id in activeTimers {
        timers := RemoveEntry(timers, Entry(heap[id.addr].expiration, id.addr));
        log := log + [Deleted(heap[id.addr].sequence)];
        heap := heap - {id.addr};
        activeTimers := activeTimers - {id};
      } else if callingExpiredTimers {
        cancelingTimers := cancelingTimers + {id};
      }
      CancelReady(State(), id);
      assert |timers| == |activeTimers|;
    }

    method Elapse(d: nat)
      requires Valid()
      modifies this
      ensures Valid() && State() == Tick(old(State()), d)
    {
      hide Inv;
      TickInv(State(), d);
      clock := clock + d;
      if alarm.Armed? && alarm.deadline <= clock {
        alarm := Fired;
      }
    }

    /** lower_bound of (now, UINTPTR_MAX): no entry before `end` is later than now, the one at `end` is. */
    method LowerBound(now: int) returns (end: nat)
      ensures end == DueCount(timers, now)
    {
      end := 0;
      while end < |timers| && timers[end].when <= now
        invariant end <= DueCount(timers, now)
      {
        end := end + 1;
      }
    }

    /** The loop of getExpired that takes the expired timers out of the active set, each found there. */
    method EraseActive(expired: seq<Entry>)
      requires forall id :: id in activeTimers ==> id.addr in heap && id == IdOf(heap, id.addr)
      requires forall e :: e in expired ==> e.addr in heap && e == EntryOf(heap, e.addr) && IdOf(heap, e.addr) in activeTimers
      requires forall i, j :: 0 <= i < j < |expired| ==> expired[i].addr != expired[j].addr
      modifies this`activeTimers
      ensures activeTimers == RemoveIds(old(activeTimers), heap, expired)
    {
      for i := 0 to |expired|
        invariant activeTimers <= old(activeTimers)
        invariant forall j :: i <= j < |expired| ==> IdOf(heap, expired[j].addr) in activeTimers
        invariant RemoveIds(activeTimers, heap, expired[i..]) == RemoveIds(old(activeTimers), heap, expired)
      {
        var timer := TimerId(expired[i].addr, heap[expired[i].addr].sequence);
        assert timer in activeTimers;
        assert expired[i..][1..] == expired[i + 1..];
        activeTimers := activeTimers - {timer};
      }
      assert expired[|expired|..] == [];
    }

    method GetExpired(now: int) returns (expired: seq<Entry>)
      requires Indexed(State(), []) && now == clock
      modifies this`timers, this`activeTimers
      ensures var r := BeginRead(old(State()));
              expired == r.phase.batch && timers == r.timers && activeTimers == r.active
      ensures |timers| == |activeTimers|
    {
      hide Indexed, Sorted;
      BeginReady(State());
      var end := LowerBound(now);
      expired := timers[..end];
      timers := timers[end..];
      EraseActive(expired);
    }

    /** One round of reset. */
    method ResetTimer(it: Entry, now: int)
      requires it.addr in heap && Sorted(timers) && forall x :: x in timers ==> x.addr != it.addr
      requires IdOf(heap, it.addr) !in activeTimers && |timers| == |activeTimers|
      modifies this
      ensures State() == ResetOne(old(State()), it, now)
      ensures callingExpiredTimers == old(callingExpiredTimers)
    {
      var timer := TimerId(it.addr, heap[it.addr].sequence);
      if heap[it.addr].repeat && timer !in cancelingTimers {
        heap := heap[it.addr := heap[it.addr].(expiration := now + heap[it.addr].delta)];
        var _ := InsertTimer(it.addr);
      } else {
        log := log + [Deleted(heap[it.addr].sequence)];
        heap := heap - {it.addr};
      }
    }

    method Reset(expired: seq<Entry>, now: int)
      requires Resetting(State(), expired, now)
      modifies this
      ensures State() == Rearm(ResetAll(old(State()), expired, now))
      ensures callingExpiredTimers == old(callingExpiredTimers)
    {
      hide Resetting, Sorted;
      ghost var q0 := State();
      for i := 0 to |expired|
        invariant Resetting(State(), expired[i..], now)
        invariant ResetAll(State(), expired[i..], now) == ResetAll(q0, expired, now)
        invariant callingExpiredTimers == old(callingExpiredTimers)
      {
        assert expired[i..][0] == expired[i] && expired[i..][1..] == expired[i + 1..];
        ResetOneKeeps(State(), expired[i..], now);
        ResetReady(State(), expired[i..], now);
        ResetTimer(expired[i], now);
      }
      assert expired[|expired|..] == [];
      var nextExpired := 0;
      if timers != [] {
        nextExpired := timers[0].when;
      }
      if nextExpired > 0 {
        ResetTimerfd(nextExpired);
      }
    }

    /** What happens outside handleRead's own steps: in a callback, on another thread, or time passing. */
    method RunCallback(ops: seq<OutsideOp>)
      requires Valid()
      modifies this
      ensures Valid() && State() == Execute(old(State()), ops)
      ensures phase == old(phase)
    {
      hide Inv;
      ghost var q0 := State();
      for i := 0 to |ops|
        invariant Valid() && phase == old(phase)
        invariant Execute(State(), ops[i..]) == Execute(q0, ops)
      {
        assert ops[i..][0] == ops[i] && ops[i..][1..] == ops[i + 1..];
        Perform(ops[i]);
      }
      assert ops[|ops|..] == [];
    }

    method Perform(op: OutsideOp)
      requires Valid()
      modifies this
      ensures Valid() && State() == Step(old(State()), op) && phase == old(phase)
    {
      hide Inv, Sorted;
      match op
      case DoCreate(addr, when, delta, repeat) =>
        if addr !in heap {
          var _ := NewTimer(addr, when, delta, repeat);
        }
      case DoAdd(addr) =>
        if addr in pending {
          AddTimerInLoop(addr);
        }
      case DoCancel(id) =>
        CancelReady(State(), id);
        CancelInLoop(id);
      case DoTick(d) =>
        Elapse(d);
    }

    /** The part of handleRead before the callbacks. */
    method BeginHandleRead() returns (expired: seq<Entry>)
      requires Valid() && phase.Idle?
      modifies this
      ensures Valid() && State() == Step(old(State()), DoBegin)
      ensures phase == Calling(old(clock), expired, 0)
      ensures |expired| == DueCount(old(timers), old(clock))
    {
      hide Inv, Indexed, Sorted;
      ghost var q0 := State();
      IdleIndexed(q0);
      BeginInv(q0);
      var now := clock;
      if alarm.Fired? {
        alarm := Disarmed;
      }
      IndexedSame(q0, State(), []);
      expired := GetExpired(now);
      callingExpiredTimers := true;
      cancelingTimers := {};
      phase := Calling(now, expired, 0);
      assert State() == BeginRead(q0);
    }

    /** `it.second->run()` and what the callback does. */
    method RunTimer(it: Entry, callback: seq<OutsideOp>)
      requires Valid() && phase.Calling? && phase.next < |phase.batch| && phase.batch[phase.next] == it
      modifies this
      ensures Valid() && State() == Execute(Step(old(State()), DoRun), callback)
      ensures phase == old(phase).(next := old(phase).next + 1)
    {
      hide Inv;
      RunInv(State());
      log := log + [Ran(heap[it.addr].sequence)];
      phase := phase.(next := phase.next + 1);
      RunCallback(callback);
    }

    /** The part of handleRead after the callbacks. */
    method FinishHandleRead(expired: seq<Entry>, now: int)
      requires Valid() && phase == Calling(now, expired, |expired|)
      modifies this
      ensures Valid() && phase.Idle? && State() == Step(old(State()), DoFinish)
    {
      hide Inv, Resetting;
      FinishReady(State());
      FinishInv(State());
      callingExpiredTimers := false;
      Reset(expired, now);
      phase := Idle;
    }

    /**
     handleRead, whatever its callbacks do (`script`) and however long they take: it is a run of
     the state machine that begins one batch, runs every timer of it once in order, and resets.
    */
    method HandleRead(script: nat -> seq<OutsideOp>, elapsed: nat)
      requires Valid() && phase.Idle?
      modifies this
      ensures Valid() && phase.Idle?
      ensures State() == Execute(old(State()), HandleReadOps(DueCount(old(timers), old(clock)), script, elapsed))
      ensures old(log) <= log && RanIn(log[|old(log)|..]) == DueSequences(old(State()))
    {
      hide Inv, Step, Execute, DueSequences;
      ghost var q0 := State();
      HandleReadRuns(q0, script, elapsed);
      var now := clock;
      var expired := BeginHandleRead();
      assert [DoBegin] + CallbackOps(0, script) == [DoBegin];
      ExecuteOne(q0, DoBegin);
      for i := 0 to |expired|
        invariant Valid() && phase == Calling(now, expired, i)
        invariant State() == Execute(q0, [DoBegin] + CallbackOps(i, script))
      {
        ExecuteCallback(q0, i, script);
        RunTimer(expired[i], script(i));
      }
      ExecuteEnd(q0, |expired|, script, elapsed);
      TickStep(State(), elapsed);
      Elapse(elapsed);
      FinishHandleRead(expired, now);
    }
  }
}