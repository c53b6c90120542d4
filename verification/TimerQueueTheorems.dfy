/** What the steps of the timer queue guarantee over whole runs. */
module TimerQueueTheorems {
  import opened TimerQueueModel

  // ---------- runs ----------

  lemma ExecuteConcat(q: Queue, a: seq<Op>, b: seq<Op>)
    requires Inv(q)
    ensures Execute(q, a + b) == Execute(Execute(q, a), b)
    decreases |a|
  {
    hide Inv;
    if a == [] {
      assert a + b == b;
    } else {
      assert (a + b)[0] == a[0] && (a + b)[1..] == a[1..] + b;
      ExecuteConcat(Step(q, a[0]), a[1..], b);
    }
  }

  lemma ExecuteOne(q: Queue, op: Op)
    requires Inv(q)
    ensures Execute(q, [op]) == Step(q, op)
  {
    hide Inv, Step;
    assert [op][1..] == [];
    assert Execute(Step(q, op), []) == Step(q, op);
  }

  lemma {:induction false} ResetAllLog(q: Queue, b: seq<Entry>, now: int)
    requires Resetting(q, b, now)
    ensures q.log <= ResetAll(q, b, now).log
    decreases |b|
  {
    if b != [] {
      ResetOneKeeps(q, b, now);
      hide Resetting;
      ResetAllLog(ResetOne(q, b[0], now), b[1..], now);
    }
  }

  lemma StepLog(q: Queue, op: Op)
    requires Inv(q)
    ensures q.log <= Step(q, op).log
  {
    hide Indexed, Told, AlarmOk, Resetting;
    if Enabled(q, op) && op.DoFinish? {
      FinishReady(q);
      ResetAllLog(q, q.phase.batch, q.phase.now);
    }
  }

  lemma {:induction false} ExecuteLog(q: Queue, ops: seq<Op>)
    requires Inv(q)
    ensures q.log <= Execute(q, ops).log
    decreases |ops|
  {
    hide Inv;
    if ops != [] {
      StepLog(q, ops[0]);
      ExecuteLog(Step(q, ops[0]), ops[1..]);
    }
  }

  // ---------- the two indexes ----------

  /** At every point of every run the two indexes describe the same timers and agree on their number. */
  lemma IndexesAgree(clock: int, ops: seq<Op>)
    requires clock > 0
    ensures Inv(Init(clock))
    ensures var q := Execute(Init(clock), ops);
            && |q.timers| == |q.active|
            && (forall a :: a in q.heap ==> (EntryOf(q.heap, a) in q.timers <==> IdOf(q.heap, a) in q.active))
            && (forall e :: e in q.timers ==> e.addr in q.heap && e == EntryOf(q.heap, e.addr))
            && (forall id :: id in q.active ==> id.addr in q.heap && id == IdOf(q.heap, id.addr))
  {
    InitInv(clock);
  }

  // ---------- the alarm ----------

  /**
   Between two calls of handleRead the alarm covers the earliest timer: it has fired, or its
   deadline is no later than that timer's time or 100 us after it was armed.
   It has fired by the time both have passed.
  */
  lemma AlarmCoversEarliest(clock: int, ops: seq<Op>)
    requires clock > 0
    ensures Inv(Init(clock))
    ensures var q := Execute(Init(clock), ops);
            q.phase.Idle? && q.timers != [] ==>
              && (forall e :: e in q.timers ==> q.timers[0].when <= e.when)
              && (q.alarm.Fired? ||
                  (q.alarm.Armed? && q.clock < q.alarm.deadline &&
                   (q.alarm.deadline <= q.timers[0].when || q.alarm.deadline <= q.alarm.armedAt + MIN_DELAY)))
  {
    InitInv(clock);
    hide Inv;
    if Execute(Init(clock), ops).phase.Idle? && Execute(Init(clock), ops).timers != [] {
      AlarmCovers(Execute(Init(clock), ops));
    }
  }

  lemma AlarmCovers(q: Queue)
    requires Inv(q) && q.phase.Idle? && q.timers != []
    ensures forall e :: e in q.timers ==> q.timers[0].when <= e.when
    ensures q.alarm.Fired? ||
            (q.alarm.Armed? && q.clock < q.alarm.deadline &&
             (q.alarm.deadline <= q.timers[0].when || q.alarm.deadline <= q.alarm.armedAt + MIN_DELAY))
  {
    hide Told;
    assert q.timers[0] in q.timers;
    assert forall i :: 0 < i < |q.timers| ==> Less(q.timers[0], q.timers[i]);
  }

  /** A timer that is due is never forgotten: at most 100 us after its alarm was armed the alarm has fired. */
  lemma DueTimerHasFired(q: Queue, e: Entry)
    requires Inv(q) && q.phase.Idle? && e in q.timers && e.when <= q.clock
    ensures q.alarm.Fired? || q.clock < q.alarm.armedAt + MIN_DELAY
    ensures Tick(q, MIN_DELAY).alarm.Fired?
  {
    assert Covers(q.alarm, e.when);
  }

  // ---------- exact firing ----------

  /** The batch is all and only the timers that are due, in order of time. */
  lemma BatchIsExact(q: Queue)
    requires Inv(q) && q.phase.Idle?
    ensures var r := BeginRead(q);
            && (forall e :: e in r.phase.batch <==> e in q.timers && e.when <= q.clock)
            && (forall e :: e in r.timers <==> e in q.timers && e.when > q.clock)
            && (forall i, j :: 0 <= i < j < |r.phase.batch| ==> r.phase.batch[i].when <= r.phase.batch[j].when)
            && r.heap == q.heap && r.log == q.log && r.canceling == {} && r.pending == q.pending
            && r.phase.now == q.clock && r.phase.next == 0
  {
    DueSplit(q.timers, q.clock);
  }

  /** What becomes of one timer of the batch: restarted at now + interval, or deleted. */
  ghost predicate Settled(q: Queue, r: Queue, e: Entry, now: int)
    requires e.addr in q.heap
  {
    var t := q.heap[e.addr];
    if t.repeat && IdOf(q.heap, e.addr) !in q.canceling then
      && e.addr in r.heap && r.heap[e.addr] == t.(expiration := now + t.delta)
      && Entry(now + t.delta, e.addr) in r.timers && IdOf(q.heap, e.addr) in r.active
    else
      e.addr !in r.heap && LifeOf(r.log, t.sequence) == Dead
  }

  /** Going from `q` to `r`, only the timers of `b` are touched. */
  ghost predicate Frame(q: Queue, r: Queue, b: seq<Entry>) {
    && (forall a :: a in q.heap && EntryOf(q.heap, a) !in b ==> a in r.heap && r.heap[a] == q.heap[a])
    && (forall a :: a !in q.heap ==> a !in r.heap)
    && (forall x :: x in q.timers ==> x in r.timers) && q.active <= r.active
    && (forall n: nat :: LifeOf(q.log, n) == Dead ==> LifeOf(r.log, n) == Dead)
    && r.canceling == q.canceling && r.pending == q.pending && r.clock == q.clock && r.created == q.created
  }

  lemma ResetOneFrame(q: Queue, e: Entry, now: int)
    requires e.addr in q.heap && Sorted(q.timers) && forall x :: x in q.timers ==> x.addr != e.addr
    requires LifeOf(q.log, q.heap[e.addr].sequence).Live? && e == EntryOf(q.heap, e.addr)
    ensures Settled(q, ResetOne(q, e, now), e, now) && Frame(q, ResetOne(q, e, now), [e])
  {
    LifeSnocAll(q.log, Deleted(q.heap[e.addr].sequence));
  }

  lemma ResetOneSettles(q: Queue, b: seq<Entry>, now: int)
    requires Resetting(q, b, now) && b != []
    ensures b[0].addr in q.heap && b[0] == EntryOf(q.heap, b[0].addr) && b[0] !in b[1..]
    ensures Sorted(q.timers) && forall x :: x in q.timers ==> x.addr != b[0].addr
    ensures var r := ResetOne(q, b[0], now);
            Resetting(r, b[1..], now) && Settled(q, r, b[0], now) && Frame(q, r, [b[0]])
  {
    assert b[0] in b && b[0] == EntryOf(q.heap, b[0].addr) && b[0] !in b[1..];
    assert LifeOf(q.log, q.heap[b[0].addr].sequence).Live?;
    hide Resetting, Settled, Frame, ResetOne;
    ResetOneKeeps(q, b, now);
    ResetOneFrame(q, b[0], now);
  }

  lemma FrameTrans(q: Queue, q1: Queue, r: Queue, b: seq<Entry>)
    requires b != [] && Frame(q, q1, [b[0]]) && Frame(q1, r, b[1..])
    requires b[0].addr in q.heap && b[0] == EntryOf(q.heap, b[0].addr)
    ensures Frame(q, r, b)
  {
    assert b == [b[0]] + b[1..];
  }

  /** Nothing that reset does for the batch touches a timer outside it. */
  lemma {:induction false} ResetAllFrame(q: Queue, b: seq<Entry>, now: int)
    requires Resetting(q, b, now)
    ensures Frame(q, ResetAll(q, b, now), b)
    decreases |b|
  {
    if b != [] {
      hide Resetting, Frame, Settled;
      ResetOneSettles(q, b, now);
      var q1 := ResetOne(q, b[0], now);
      ResetAllFrame(q1, b[1..], now);
      FrameTrans(q, q1, ResetAll(q, b, now), b);
    }
  }

  /** A timer that is settled stays settled, and one that is not yet touched is settled as at the start. */
  lemma SettledFrame(q: Queue, q1: Queue, r: Queue, b: seq<Entry>, i: nat, now: int)
    requires 0 < i < |b| && b[0].addr in q.heap && b[i].addr in q1.heap
    requires Frame(q, q1, [b[0]]) && Settled(q1, r, b[i], now)
    requires b[i].addr in q.heap && EntryOf(q.heap, b[i].addr) == b[i] != b[0]
    ensures Settled(q, r, b[i], now)
  {
    assert q1.heap[b[i].addr] == q.heap[b[i].addr];
  }

  lemma InsertedNotInRest(q: Queue, b: seq<Entry>, now: int, e: Entry)
    requires Resetting(q, b, now) && e in q.timers
    ensures e.addr in q.heap && e == EntryOf(q.heap, e.addr) && e !in b
  {
    hide Sorted, Told;
  }

  /** A timer that is settled stays settled while others are. */
  lemma SettledStays(q: Queue, q1: Queue, r: Queue, e: Entry, b: seq<Entry>, now: int)
    requires e.addr in q.heap && Settled(q, q1, e, now) && Frame(q1, r, b)
    requires e.addr in q1.heap ==> EntryOf(q1.heap, e.addr) !in b
    ensures Settled(q, r, e, now)
  {
  }

  lemma SettledFirst(q: Queue, b: seq<Entry>, now: int, r: Queue)
    requires Resetting(q, b, now) && b != []
    requires b[0].addr in q.heap && Sorted(q.timers) && forall x :: x in q.timers ==> x.addr != b[0].addr
    requires Frame(ResetOne(q, b[0], now), r, b[1..])
    ensures Settled(q, r, b[0], now)
  {
    hide Resetting, ResetOne, Frame, Sorted;
    ResetOneSettles(q, b, now);
    var q1, t := ResetOne(q, b[0], now), q.heap[b[0].addr];
    if t.repeat && IdOf(q.heap, b[0].addr) !in q.canceling {
      InsertedNotInRest(q1, b[1..], now, Entry(now + t.delta, b[0].addr));
    }
    SettledStays(q, q1, r, b[0], b[1..], now);
  }

  lemma InBatch(q: Queue, b: seq<Entry>, now: int, i: nat)
    requires Resetting(q, b, now) && i < |b|
    ensures b[i].addr in q.heap && EntryOf(q.heap, b[i].addr) == b[i]
    ensures 0 < i ==> b[i] != b[0]
  {
    assert b[i] in b;
  }

  lemma {:induction false} ResetAllSettles(q: Queue, b: seq<Entry>, now: int, i: nat)
    requires Resetting(q, b, now) && i < |b|
    ensures b[i].addr in q.heap && Settled(q, ResetAll(q, b, now), b[i], now)
    decreases i
  {
    hide Resetting, ResetOne, Settled, Frame;
    InBatch(q, b, now, i);
    ResetOneSettles(q, b, now);
    var q1 := ResetOne(q, b[0], now);
    var r := ResetAll(q1, b[1..], now);
    assert ResetAll(q, b, now) == r;
    if i == 0 {
      ResetAllFrame(q1, b[1..], now);
      SettledFirst(q, b, now, r);
    } else {
      ResetAllSettles(q1, b[1..], now, i - 1);
      assert b[1..][i - 1] == b[i];
      SettledFrame(q, q1, r, b, i, now);
    }
  }

  lemma SettledSame(q: Queue, r: Queue, r': Queue, e: Entry, now: int)
    requires e.addr in q.heap && Settled(q, r, e, now)
    requires r'.heap == r.heap && r'.timers == r.timers && r'.active == r.active && r'.log == r.log
    ensures Settled(q, r', e, now)
  {
  }

  lemma FrameSame(q: Queue, r: Queue, r': Queue, b: seq<Entry>)
    requires Frame(q, r, b)
    requires r'.heap == r.heap && r'.timers == r.timers && r'.active == r.active && r'.log == r.log
    requires r'.canceling == r.canceling && r'.pending == r.pending && r'.clock == r.clock && r'.created == r.created
    ensures Frame(q, r', b)
  {
  }

  /** handleRead restarts every repeating timer that was not cancelled, deletes the others, and keeps the rest. */
  lemma FinishIsExact(q: Queue)
    requires Inv(q) && q.phase.Calling? && q.phase.next == |q.phase.batch|
    ensures Frame(q, FinishRead(q), q.phase.batch)
    ensures forall e :: e in q.phase.batch ==> e.addr in q.heap && Settled(q, FinishRead(q), e, q.phase.now)
  {
    hide Inv, Resetting, ResetAll, Settled, Frame;
    FinishReady(q);
    var b := q.phase.batch;
    var r := ResetAll(q, b, q.phase.now);
    ResetAllFrame(q, b, q.phase.now);
    FrameSame(q, r, FinishRead(q), b);
    forall e | e in b ensures e.addr in q.heap && Settled(q, FinishRead(q), e, q.phase.now) {
      var i :| 0 <= i < |b| && b[i] == e;
      ResetAllSettles(q, b, q.phase.now, i);
      SettledSame(q, r, FinishRead(q), e, q.phase.now);
    }
  }

  // ---------- the life of one timer ----------

  predicate Concerns(ev: Event, n: nat) {
    match ev
    case Created(id, _) => id.sequence == n
    case Ran(m) => m == n
    case Deleted(m) => m == n
  }

  /** `Bad` is absorbing: a history that is not bad has no bad prefix. */
  lemma {:induction false} PrefixNotBad(log: seq<Event>, n: nat, k: nat)
    requires k <= |log| && LifeOf(log, n) != Bad
    ensures LifeOf(log[..k], n) != Bad
  {
    if k < |log| {
      var pre := log[..|log| - 1];
      assert log == pre + [log[|log| - 1]] && log[..k] == pre[..k];
      PrefixNotBad(pre, n, k);
    } else {
      assert log[..k] == log;
    }
  }

  /** How a history moves between two of its points. */
  lemma {:induction false} DeadStaysDead(log: seq<Event>, n: nat, k: nat)
    requires k <= |log| && LifeOf(log, n) != Bad && LifeOf(log[..k], n) == Dead
    ensures LifeOf(log, n) == Dead
    ensures forall i :: k <= i < |log| ==> !Concerns(log[i], n)
  {
    if k < |log| {
      var pre := log[..|log| - 1];
      assert log[..k] == pre[..k];
      PrefixNotBad(log, n, |log| - 1);
      DeadStaysDead(pre, n, k);
      forall i | k <= i < |log| ensures !Concerns(log[i], n) {
        assert i < |pre| ==> pre[i] == log[i];
      }
    } else {
      assert log[..k] == log;
    }
  }

  /** Once a one-shot timer has run it stays so until it is deleted. */
  lemma {:induction false} RanOnceStays(log: seq<Event>, n: nat, k: nat)
    requires k <= |log| && LifeOf(log, n) != Bad
    requires LifeOf(log[..k], n).Live? && !LifeOf(log[..k], n).repeat && LifeOf(log[..k], n).ran
    ensures LifeOf(log, n).Dead? || (LifeOf(log, n) == LifeOf(log[..k], n))
    ensures forall i :: k <= i < |log| ==> log[i] != Ran(n)
  {
    if k < |log| {
      var pre := log[..|log| - 1];
      assert log[..k] == pre[..k];
      PrefixNotBad(log, n, |log| - 1);
      RanOnceStays(pre, n, k);
      forall i | k <= i < |log| ensures log[i] != Ran(n) {
        assert i < |pre| ==> pre[i] == log[i];
      }
    } else {
      assert log[..k] == log;
    }
  }

  lemma LifeAfter(log: seq<Event>, n: nat, i: nat)
    requires i < |log| && LifeOf(log, n) != Bad
    ensures LifeOf(log[..i], n) != Bad && LifeOf(log[..i + 1], n) == Next(LifeOf(log[..i], n), log[i], n) != Bad
  {
    PrefixNotBad(log, n, i);
    PrefixNotBad(log, n, i + 1);
    assert log[..i + 1] == log[..i] + [log[i]];
    LifeSnoc(log[..i], log[i], n);
  }

  lemma OneLife(log: seq<Event>, n: nat)
    requires LifeOf(log, n) != Bad
    ensures forall i, j :: 0 <= i < j < |log| && log[i] == Deleted(n) ==> !Concerns(log[j], n)
    ensures forall i :: 0 <= i < |log| && log[i] == Ran(n) ==> LifeOf(log[..i], n).Live?
  {
    forall i, j | 0 <= i < j < |log| && log[i] == Deleted(n) ensures !Concerns(log[j], n) {
      LifeAfter(log, n, i);
      DeadStaysDead(log, n, i + 1);
    }
    forall i | 0 <= i < |log| && log[i] == Ran(n) ensures LifeOf(log[..i], n).Live? {
      LifeAfter(log, n, i);
    }
  }

  /**
   Ownership over whole runs. For every sequence number: after its timer is deleted there is no
   further event of it, so it is deleted at most once and never runs after that; a timer runs only
   while it is alive; and the timers alive are exactly those of the heap.
  */
  lemma EveryTimerHasOneLife(clock: int, ops: seq<Op>, n: nat)
    requires clock > 0
    ensures Inv(Init(clock))
    ensures var q := Execute(Init(clock), ops);
            && (forall i, j :: 0 <= i < j < |q.log| && q.log[i] == Deleted(n) ==> !Concerns(q.log[j], n))
            && (forall i :: 0 <= i < |q.log| && q.log[i] == Ran(n) ==> LifeOf(q.log[..i], n).Live?)
            && (LifeOf(q.log, n).Live? <==> exists a :: a in q.heap && q.heap[a].sequence == n)
  {
    InitInv(clock);
    var q := Execute(Init(clock), ops);
    ToldMeans(q, n);
    hide Inv;
    OneLife(q.log, n);
  }

  lemma ToldMeans(q: Queue, n: nat)
    requires Inv(q)
    ensures LifeOf(q.log, n) != Bad
    ensures LifeOf(q.log, n).Live? <==> exists a :: a in q.heap && q.heap[a].sequence == n
  {
    if LifeOf(q.log, n).Live? {
      assert q.heap[LifeOf(q.log, n).addr].sequence == n;
    }
  }

  /** Every live timer is in exactly one place: waiting for its add, in the queue, or in the running batch. */
  lemma EveryTimerHasOnePlace(clock: int, ops: seq<Op>, a: nat)
    requires clock > 0
    ensures Inv(Init(clock))
    ensures var q := Execute(Init(clock), ops);
            a in q.heap ==>
              var e := EntryOf(q.heap, a);
              ExactlyOne(a in q.pending, e in q.timers, e in Batch(q))
  {
    InitInv(clock);
    assert PhaseOk(Execute(Init(clock), ops));
    hide LifeOf, Told, AlarmOk;
  }

  predicate ExactlyOne(x: bool, y: bool, z: bool) {
    (x && !y && !z) || (!x && y && !z) || (!x && !y && z)
  }

  /** A one-shot timer runs at most once, and after its creation, over the whole run. */
  lemma OneShotRunsAtMostOnce(clock: int, ops: seq<Op>, id: TimerId, c: nat, i: nat, j: nat)
    requires clock > 0
    ensures Inv(Init(clock))
    ensures var log := Execute(Init(clock), ops).log;
            (&& c < |log| && log[c] == Created(id, false)
             && i < |log| && log[i] == Ran(id.sequence)
             && j < |log| && log[j] == Ran(id.sequence)) ==> c < i && i == j
  {
    InitInv(clock);
    var q := Execute(Init(clock), ops);
    ToldMeans(q, id.sequence);
    hide Inv;
    if c < |q.log| && q.log[c] == Created(id, false) && i < |q.log| && q.log[i] == Ran(id.sequence) &&
       j < |q.log| && q.log[j] == Ran(id.sequence) {
      OneShotLog(q.log, id, c, i, j);
      OneShotLog(q.log, id, c, j, i);
    }
  }

  lemma OneShotLog(log: seq<Event>, id: TimerId, c: nat, i: nat, j: nat)
    requires LifeOf(log, id.sequence) != Bad
    requires c < |log| && log[c] == Created(id, false)
    requires i < |log| && log[i] == Ran(id.sequence)
    requires j < |log| && log[j] == Ran(id.sequence)
    ensures c < i && i >= j
  {
    var n := id.sequence;
    CreatedBefore(log, n, c, i);
    LifeAfter(log, n, c);
    LifeAfter(log, n, i);
    OneShotStays(log, n, c + 1, i + 1);
    if i < j {
      RanOnceStays(log, n, i + 1);
    }
  }

  lemma CreatedBefore(log: seq<Event>, n: nat, c: nat, i: nat)
    requires c < |log| && log[c].Created? && log[c].id.sequence == n
    requires i < |log| && log[i] == Ran(n) && LifeOf(log, n) != Bad
    ensures c < i
  {
    LifeAfter(log, n, c);
    if i < c {
      LifeAfter(log, n, i);
      PrefixNotBad(log, n, c);
      assert log[..c][..i + 1] == log[..i + 1];
      BornStaysBorn(log[..c], n, i + 1);
    }
  }

  lemma {:induction false} BornStaysBorn(log: seq<Event>, n: nat, k: nat)
    requires k <= |log| && LifeOf(log[..k], n) != Unborn
    ensures LifeOf(log, n) != Unborn
  {
    if k < |log| {
      assert log[..k] == log[..|log| - 1][..k];
      BornStaysBorn(log[..|log| - 1], n, k);
    } else {
      assert log[..k] == log;
    }
  }

  lemma {:induction false} OneShotStays(log: seq<Event>, n: nat, c: nat, k: nat)
    requires c <= k <= |log| && LifeOf(log, n) != Bad
    requires LifeOf(log[..c], n).Live? && !LifeOf(log[..c], n).repeat
    ensures LifeOf(log[..k], n).Dead? || (LifeOf(log[..k], n).Live? && !LifeOf(log[..k], n).repeat)
    decreases k
  {
    if c < k {
      OneShotStays(log, n, c, k - 1);
      LifeAfter(log, n, k - 1);
    }
  }

  // ---------- cancelling ----------

  predicate Alive(q: Queue, id: TimerId) {
    id.addr in q.heap && IdOf(q.heap, id.addr) == id
  }

  /** The timer is deleted, or it is in the running batch and marked so that reset will delete it. */
  predicate Doomed(q: Queue, id: TimerId) {
    LifeOf(q.log, id.sequence) == Dead ||
    (q.phase.Calling? && id in q.canceling && Alive(q, id) && EntryOf(q.heap, id.addr) in q.phase.batch)
  }

  /**
   Exactly when a cancel takes effect: for a live timer, if and only if its addTimerInLoop has run.
   (A cancel on the loop thread can overtake an add that another thread has only queued.)
  */
  lemma CancelDooms(q: Queue, id: TimerId)
    requires Inv(q) && Alive(q, id)
    ensures Doomed(Cancel(q, id), id) <==> id.addr !in q.pending
  {
    assert LifeOf(q.log, id.sequence).Live?;
    if id in q.active {
      LifeSnoc(q.log, Deleted(id.sequence), id.sequence);
    }
  }

  lemma DoomedFinish(q: Queue, id: TimerId)
    requires Inv(q) && Doomed(q, id) && q.phase.Calling? && q.phase.next == |q.phase.batch|
    ensures LifeOf(FinishRead(q).log, id.sequence) == Dead
  {
    FinishIsExact(q);
    if LifeOf(q.log, id.sequence) != Dead {
      var e := EntryOf(q.heap, id.addr);
      assert Settled(q, FinishRead(q), e, q.phase.now);
    }
  }

  lemma DeadStep(q: Queue, op: Op, n: nat)
    requires Inv(q) && LifeOf(q.log, n) == Dead
    ensures LifeOf(Step(q, op).log, n) == Dead
  {
    hide Inv, Step;
    var r := Step(q, op);
    ToldMeans(r, n);
    StepLog(q, op);
    assert r.log[..|q.log|] == q.log;
    DeadStaysDead(r.log, n, |q.log|);
  }

  lemma DoomedStep(q: Queue, op: Op, id: TimerId)
    requires Inv(q) && Doomed(q, id)
    ensures Doomed(Step(q, op), id)
  {
    if LifeOf(q.log, id.sequence) == Dead {
      DeadStep(q, op, id.sequence);
    } else if Enabled(q, op) {
      if op.DoFinish? {
        DoomedFinish(q, id);
      } else {
        DoomedInBatchStep(q, op, id);
      }
    }
  }

  lemma DoomedInBatchStep(q: Queue, op: Op, id: TimerId)
    requires Inv(q) && Doomed(q, id) && LifeOf(q.log, id.sequence) != Dead
    requires Enabled(q, op) && !op.DoFinish?
    ensures Doomed(Step(q, op), id)
  {
    if op.DoCancel? && op.id in q.active {
      assert op.id.addr != id.addr;
    }
  }

  lemma {:induction false} DoomedExecute(q: Queue, ops: seq<Op>, id: TimerId)
    requires Inv(q) && Doomed(q, id)
    ensures Doomed(Execute(q, ops), id)
    decreases |ops|
  {
    hide Inv, Doomed;
    if ops != [] {
      DoomedStep(q, ops[0], id);
      DoomedExecute(Step(q, ops[0]), ops[1..], id);
    }
  }

  /**
   A timer that is cancelled once it is in the queue or in the running batch never runs in a
   later batch: by the next time the loop is idle it is deleted, and after that it never runs.
  */
  lemma CancelledNeverRunsLater(q: Queue, id: TimerId, soon: seq<Op>, later: seq<Op>)
    requires Inv(q) && Alive(q, id) && id.addr !in q.pending
    ensures Inv(Cancel(q, id))
    ensures var q1 := Execute(Cancel(q, id), soon);
            q1.phase.Idle? ==>
              var q2 := Execute(q1, later);
              && LifeOf(q1.log, id.sequence) == Dead && q1.log <= q2.log
              && forall i :: |q1.log| <= i < |q2.log| ==> q2.log[i] != Ran(id.sequence)
  {
    CancelInv(q, id);
    CancelDooms(q, id);
    hide Inv, Cancel;
    DoomedExecute(Cancel(q, id), soon, id);
    var q1 := Execute(Cancel(q, id), soon);
    if q1.phase.Idle? {
      DeadRunsNoMore(q1, id.sequence, later);
    }
  }

  lemma DeadRunsNoMore(q: Queue, n: nat, ops: seq<Op>)
    requires Inv(q) && LifeOf(q.log, n) == Dead
    ensures q.log <= Execute(q, ops).log
    ensures forall i :: |q.log| <= i < |Execute(q, ops).log| ==> !Concerns(Execute(q, ops).log[i], n)
  {
    var r := Execute(q, ops);
    ToldMeans(r, n);
    hide Inv;
    ExecuteLog(q, ops);
    assert r.log[..|q.log|] == q.log;
    DeadStaysDead(r.log, n, |q.log|);
  }

  /**
   The excluded case is real: a cancel that comes before the add of its timer is lost, for every
   such timer. The add still puts it into both indexes, so that it will run.
  */
  lemma CancelBeforeAddIsLost(q: Queue, id: TimerId)
    requires Inv(q) && Alive(q, id) && id.addr in q.pending
    ensures Inv(Cancel(q, id)) && id.addr in Cancel(q, id).pending && Inv(AddInLoop(Cancel(q, id), id.addr))
    ensures var r := AddInLoop(Cancel(q, id), id.addr);
            id in r.active && EntryOf(r.heap, id.addr) in r.timers && LifeOf(r.log, id.sequence).Live?
  {
    CancelInv(q, id);
    assert id !in q.active;
    var q1 := Cancel(q, id);
    assert q1.heap == q.heap && q1.pending == q.pending && q1.log == q.log;
    AddInv(q1, id.addr);
  }

  // ---------- stale ids ----------

  /** An id whose timer has been deleted; its address may belong to a newer timer. */
  predicate Stale(q: Queue, id: TimerId) {
    id.sequence <= q.created && !Alive(q, id)
  }

  /** The two queues differ at most in whether the stale id is in `cancelingTimers_`. */
  ghost predicate SameButFor(q: Queue, r: Queue, id: TimerId) {
    q == r.(canceling := q.canceling) && forall x :: x != id ==> (x in q.canceling <==> x in r.canceling)
  }

  lemma ResetOneCommutes(q: Queue, c: set<TimerId>, e: Entry, now: int)
    requires e.addr in q.heap && Sorted(q.timers) && forall x :: x in q.timers ==> x.addr != e.addr
    requires IdOf(q.heap, e.addr) in c <==> IdOf(q.heap, e.addr) in q.canceling
    ensures ResetOne(q.(canceling := c), e, now) == ResetOne(q, e, now).(canceling := c)
  {
  }

  lemma ResetOneStale(q: Queue, e: Entry, now: int, id: TimerId)
    requires e.addr in q.heap && Sorted(q.timers) && forall x :: x in q.timers ==> x.addr != e.addr
    requires Stale(q, id)
    ensures Stale(ResetOne(q, e, now), id) && ResetOne(q, e, now).canceling == q.canceling
  {
  }

  lemma ResetOneSame(q: Queue, r: Queue, b: seq<Entry>, now: int, id: TimerId)
    requires Resetting(q, b, now) && Resetting(r, b, now) && SameButFor(q, r, id) && Stale(q, id) && b != []
    ensures b[0].addr in q.heap && Sorted(q.timers) && forall x :: x in q.timers ==> x.addr != b[0].addr
    ensures SameButFor(ResetOne(q, b[0], now), ResetOne(r, b[0], now), id)
    ensures Stale(ResetOne(q, b[0], now), id)
  {
    hide Resetting, Sorted, ResetOne;
    ResetOneReady(q, b, now);
    ResetOneReady(r, b, now);
    assert IdOf(q.heap, b[0].addr) != id;
    ResetOneCommutes(r, q.canceling, b[0], now);
    ResetOneStale(q, b[0], now, id);
    ResetOneStale(r, b[0], now, id);
  }

  lemma {:induction false} ResetAllSame(q: Queue, r: Queue, b: seq<Entry>, now: int, id: TimerId)
    requires Resetting(q, b, now) && Resetting(r, b, now) && SameButFor(q, r, id) && Stale(q, id)
    ensures SameButFor(ResetAll(q, b, now), ResetAll(r, b, now), id)
    ensures Stale(ResetAll(q, b, now), id)
    decreases |b|
  {
    if b != [] {
      hide Resetting, Sorted, SameButFor, Stale, ResetOne;
      ResetOneKeeps(q, b, now);
      ResetOneKeeps(r, b, now);
      ResetOneSame(q, r, b, now, id);
      ResetAllSame(ResetOne(q, b[0], now), ResetOne(r, b[0], now), b[1..], now, id);
    }
  }

  lemma FinishSame(q: Queue, r: Queue, id: TimerId)
    requires Inv(q) && Inv(r) && SameButFor(q, r, id) && Stale(q, id)
    requires q.phase.Calling? && q.phase.next == |q.phase.batch|
    ensures SameButFor(FinishRead(q), FinishRead(r), id) && Stale(FinishRead(q), id)
  {
    hide Inv, Resetting, ResetAll;
    FinishReady(q);
    FinishReady(r);
    ResetAllSame(q, r, q.phase.batch, q.phase.now, id);
  }

  lemma SameCancel(q: Queue, r: Queue, c: TimerId, id: TimerId)
    requires Inv(q) && Inv(r) && SameButFor(q, r, id) && Stale(q, id)
    ensures SameButFor(Cancel(q, c), Cancel(r, c), id) && Stale(Cancel(q, c), id)
  {
    assert id !in q.active;
  }

  lemma SameStep(q: Queue, r: Queue, op: Op, id: TimerId)
    requires Inv(q) && Inv(r) && SameButFor(q, r, id) && Stale(q, id)
    ensures SameButFor(Step(q, op), Step(r, op), id) && Stale(Step(q, op), id)
  {
    hide Indexed, Told, AlarmOk, FinishRead;
    if op.DoFinish? && Enabled(q, op) {
      FinishSame(q, r, id);
    } else if op.DoCancel? {
      SameCancel(q, r, op.id, id);
    }
  }

  lemma {:induction false} SameExecute(q: Queue, r: Queue, ops: seq<Op>, id: TimerId)
    requires Inv(q) && Inv(r) && SameButFor(q, r, id) && Stale(q, id)
    ensures SameButFor(Execute(q, ops), Execute(r, ops), id)
    decreases |ops|
  {
    hide Inv, SameButFor, Stale;
    if ops != [] {
      SameStep(q, r, ops[0], id);
      SameExecute(Step(q, ops[0]), Step(r, ops[0]), ops[1..], id);
    }
  }

  /**
   Cancelling a stale id can never be noticed, even if a newer timer now lives at its address:
   whatever happens next, with and without that cancel the queue has the same timers, alarm and history.
  */
  lemma StaleCancelIsHarmless(q: Queue, id: TimerId, ops: seq<Op>)
    requires Inv(q) && Stale(q, id)
    ensures Inv(Cancel(q, id))
    ensures var r := Execute(Cancel(q, id), ops);
            Execute(q, ops) == r.(canceling := Execute(q, ops).canceling)
  {
    CancelInv(q, id);
    SameExecute(q, Cancel(q, id), ops, id);
  }
}
