/**
 The timer queue: two indexes over one set of timers, a batch of expired timers whose
 callbacks may call back into the queue, and one alarm (a timerfd).

 The first module is the state machine: one value `Queue` and one function per step.
 Timers live in an explicit heap, so that an address can be reused after a delete.
*/
module TimerQueueModel {

  /** A Timer object. `delta` is its interval in microseconds (Timer.h, addTime). */
  datatype Timer = Timer(expiration: int, delta: nat, repeat: bool, sequence: nat)

  /** An element of `timers_`, ordered by time and then by address. */
  datatype Entry = Entry(when: int, addr: nat)

  /** An element of `activeTimers_` and of `cancelingTimers_`; also what a client holds. */
  datatype TimerId = TimerId(addr: nat, sequence: nat)

  /** The timerfd. It is `Fired` while a read would succeed. */
  datatype Alarm = Disarmed | Armed(deadline: int, armedAt: int) | Fired

  /** Whether handleRead is running; then the expired batch and how many callbacks have begun. */
  datatype Phase = Idle | Calling(now: int, batch: seq<Entry>, next: nat)

  datatype Event = Created(id: TimerId, repeat: bool) | Ran(sequence: nat) | Deleted(sequence: nat)

  /**
   `pending` holds the timers that a thread has allocated but whose addTimerInLoop has not run.
   `log` is a history variable.
  */
  datatype Queue = Queue(
    heap: map<nat, Timer>,
    pending: set<nat>,
    timers: seq<Entry>,
    active: set<TimerId>,
    canceling: set<TimerId>,
    alarm: Alarm,
    clock: int,
    created: nat,
    phase: Phase,
    log: seq<Event>)

  const MIN_DELAY := 100

  // ---------- the ordered set of entries ----------

  predicate Less(a: Entry, b: Entry) {
    a.when < b.when || (a.when == b.when && a.addr < b.addr)
  }

  ghost predicate Sorted(s: seq<Entry>) {
    forall i, j :: 0 <= i < j < |s| ==> Less(s[i], s[j])
  }

  lemma SortedCons(e: Entry, s: seq<Entry>)
    requires Sorted(s) && forall x :: x in s ==> Less(e, x)
    ensures Sorted([e] + s)
  {
    forall i, j | 0 <= i < j < |[e] + s| ensures Less(([e] + s)[i], ([e] + s)[j]) {
      assert ([e] + s)[j] == s[j - 1] && s[j - 1] in s;
    }
  }

  function InsertEntry(s: seq<Entry>, e: Entry): (r: seq<Entry>)
    requires Sorted(s) && e !in s
    ensures Sorted(r) && |r| == |s| + 1
    ensures forall x :: x in r <==> x in s || x == e
  {
    if s == [] || Less(e, s[0]) then
      SortedCons(e, s);
      [e] + s
    else
      assert s == [s[0]] + s[1..];
      var r := InsertEntry(s[1..], e);
      SortedCons(s[0], r);
      [s[0]] + r
  }

  function RemoveEntry(s: seq<Entry>, e: Entry): (r: seq<Entry>)
    requires Sorted(s)
    ensures Sorted(r) && |r| == |s| - (if e in s then 1 else 0)
    ensures forall x :: x in r <==> x in s && x != e
  {
    if s == [] then [] else
      assert s == [s[0]] + s[1..];
      if s[0] == e then s[1..] else
        var r := RemoveEntry(s[1..], e);
        SortedCons(s[0], r);
        [s[0]] + r
  }

  /** lower_bound of (now, greatest address): the number of entries that are due. */
  function DueCount(s: seq<Entry>, now: int): (k: nat)
    ensures k <= |s|
    ensures forall i :: 0 <= i < k ==> s[i].when <= now
    ensures k < |s| ==> s[k].when > now
  {
    if s == [] || s[0].when > now then 0 else 1 + DueCount(s[1..], now)
  }

  lemma DueLater(s: seq<Entry>, now: int)
    requires Sorted(s)
    ensures forall i :: DueCount(s, now) <= i < |s| ==> s[i].when > now
  {
    var k := DueCount(s, now);
    forall i | k <= i < |s| ensures s[i].when > now {
      assert i > k ==> Less(s[k], s[i]);
    }
  }

  lemma DueFirst(s: seq<Entry>, now: int)
    requires Sorted(s)
    ensures forall e :: e in s[..DueCount(s, now)] <==> e in s && e.when <= now
  {
    var k := DueCount(s, now);
    DueLater(s, now);
    hide Sorted, DueCount;
    forall e | e in s && e.when <= now ensures e in s[..k] {
      var i :| 0 <= i < |s| && s[i] == e;
      assert s[..k][i] == e;
    }
  }

  lemma DueRest(s: seq<Entry>, now: int)
    requires Sorted(s)
    ensures forall e :: e in s[DueCount(s, now)..] <==> e in s && e.when > now
  {
    var k := DueCount(s, now);
    DueLater(s, now);
    hide Sorted, DueCount;
    forall e | e in s && e.when > now ensures e in s[k..] {
      var i :| 0 <= i < |s| && s[i] == e;
      assert s[k..][i - k] == e;
    }
  }

  lemma DueSplit(s: seq<Entry>, now: int)
    requires Sorted(s)
    ensures var k := DueCount(s, now);
            && Sorted(s[..k]) && Sorted(s[k..])
            && (forall e :: e in s[..k] <==> e in s && e.when <= now)
            && (forall e :: e in s[k..] <==> e in s && e.when > now)
  {
    DueFirst(s, now);
    DueRest(s, now);
    SortedParts(s, DueCount(s, now));
    hide Sorted, DueCount;
  }

  lemma SortedParts(s: seq<Entry>, k: nat)
    requires Sorted(s) && k <= |s|
    ensures Sorted(s[..k]) && Sorted(s[k..])
  {
  }

  // ---------- the alarm ----------

  /** howMuchTimeFromNow and timerfd_settime: a relative, one-shot deadline of at least 100 us. */
  function Arm(clock: int, when: int): Alarm {
    Armed(clock + (if when - clock < MIN_DELAY then MIN_DELAY else when - clock), clock)
  }

  predicate Covers(alarm: Alarm, when: int) {
    alarm.Fired? ||
    (alarm.Armed? && (alarm.deadline <= when || alarm.deadline <= alarm.armedAt + MIN_DELAY))
  }

  // ---------- the steps ----------

  function IdOf(heap: map<nat, Timer>, a: nat): TimerId
    requires a in heap
  {
    TimerId(a, heap[a].sequence)
  }

  function EntryOf(heap: map<nat, Timer>, a: nat): Entry
    requires a in heap
  {
    Entry(heap[a].expiration, a)
  }

  function Init(clock: int): Queue {
    Queue(map[], {}, [], {}, {}, Disarmed, clock, 0, Idle, [])
  }

  /** `new Timer` on any thread; the allocator may return any free address. */
  function Create(q: Queue, addr: nat, when: int, delta: nat, repeat: bool): Queue
    requires addr !in q.heap
  {
    var n := q.created + 1;
    q.(heap := q.heap[addr := Timer(when, delta, repeat, n)],
       pending := q.pending + {addr},
       created := n,
       log := q.log + [Created(TimerId(addr, n), repeat)])
  }

  function Insert(q: Queue, addr: nat): Queue
    requires addr in q.heap && Sorted(q.timers) && EntryOf(q.heap, addr) !in q.timers
  {
    q.(timers := InsertEntry(q.timers, EntryOf(q.heap, addr)),
       active := q.active + {IdOf(q.heap, addr)})
  }

  predicate EarliestChanged(q: Queue, when: int) {
    q.timers == [] || when < q.timers[0].when
  }

  function AddInLoop(q: Queue, addr: nat): Queue
    requires addr in q.heap && Sorted(q.timers) && EntryOf(q.heap, addr) !in q.timers
  {
    var q1 := Insert(q.(pending := q.pending - {addr}), addr);
    var when := q.heap[addr].expiration;
    if EarliestChanged(q, when) then q1.(alarm := Arm(q.clock, when)) else q1
  }

  function Delete(q: Queue, addr: nat): Queue
    requires addr in q.heap
  {
    q.(heap := q.heap - {addr}, log := q.log + [Deleted(q.heap[addr].sequence)])
  }

  function Cancel(q: Queue, id: TimerId): Queue
    requires Sorted(q.timers) && (id in q.active ==> id.addr in q.heap)
  {
    if id in q.active then
      Delete(q.(timers := RemoveEntry(q.timers, EntryOf(q.heap, id.addr)), active := q.active - {id}), id.addr)
    else if q.phase.Calling? then
      q.(canceling := q.canceling + {id})
    else q
  }

  /** Time passes; the kernel fires an alarm whose deadline has come. */
  function Tick(q: Queue, d: nat): Queue {
    var now := q.clock + d;
    q.(clock := now, alarm := if q.alarm.Armed? && q.alarm.deadline <= now then Fired else q.alarm)
  }

  /** The loop of getExpired over `activeTimers_`. */
  function RemoveIds(active: set<TimerId>, heap: map<nat, Timer>, b: seq<Entry>): (r: set<TimerId>)
    requires forall id :: id in active ==> id.addr in heap && id == IdOf(heap, id.addr)
    requires forall e :: e in b ==> e.addr in heap && e == EntryOf(heap, e.addr)
    ensures forall id :: id in r <==> id in active && EntryOf(heap, id.addr) !in b
    decreases |b|
  {
    if b == [] then active else
      assert b == [b[0]] + b[1..];
      RemoveIds(active - {IdOf(heap, b[0].addr)}, heap, b[1..])
  }

  /** First part of handleRead: read the timerfd, take the due timers out of both indexes. */
  function BeginRead(q: Queue): Queue
    requires Indexed(q, [])
  {
    var k := DueCount(q.timers, q.clock);
    var batch := q.timers[..k];
    DueSplit(q.timers, q.clock);
    q.(alarm := if q.alarm.Fired? then Disarmed else q.alarm,
       timers := q.timers[k..],
       active := RemoveIds(q.active, q.heap, batch),
       canceling := {},
       phase := Calling(q.clock, batch, 0))
  }

  /** The next callback of the batch begins. */
  function RunNext(q: Queue): Queue
    requires q.phase.Calling? && q.phase.next < |q.phase.batch|
    requires q.phase.batch[q.phase.next].addr in q.heap
  {
    q.(log := q.log + [Ran(q.heap[q.phase.batch[q.phase.next].addr].sequence)],
       phase := q.phase.(next := q.phase.next + 1))
  }

  /** One round of the loop of reset: restart a repeating timer that was not cancelled, else delete. */
  function ResetOne(q: Queue, e: Entry, now: int): Queue
    requires e.addr in q.heap && Sorted(q.timers) && forall x :: x in q.timers ==> x.addr != e.addr
  {
    var t := q.heap[e.addr];
    if t.repeat && IdOf(q.heap, e.addr) !in q.canceling then
      Insert(q.(heap := q.heap[e.addr := t.(expiration := now + t.delta)]), e.addr)
    else Delete(q, e.addr)
  }

  /** Re-arm for the earliest timer, if its time is valid (positive). */
  function Rearm(q: Queue): Queue {
    if q.timers != [] && q.timers[0].when > 0 then q.(alarm := Arm(q.clock, q.timers[0].when)) else q
  }

  // ---------- the invariant ----------

  /**
   Ownership: every live timer is in exactly one of `pending`, `timers_` and the batch `b`,
   and the two indexes describe the same timers.
  */
  ghost predicate Indexed(q: Queue, b: seq<Entry>) {
    && Sorted(q.timers) && Sorted(b)
    && (forall e :: e in q.timers || e in b ==> e.addr in q.heap && e == EntryOf(q.heap, e.addr))
    && (forall a :: a in q.pending ==> a in q.heap)
    && (forall a :: a in q.heap ==>
          var e := EntryOf(q.heap, a);
          && (a in q.pending || e in q.timers || e in b)
          && !(a in q.pending && e in q.timers)
          && !(a in q.pending && e in b)
          && !(e in q.timers && e in b))
    && (forall id :: id in q.active <==>
          id.addr in q.heap && id == IdOf(q.heap, id.addr) && EntryOf(q.heap, id.addr) in q.timers)
    && |q.timers| == |q.active|
  }

  /** The life of the timer with one sequence number. `Bad` is an event that must not happen. */
  datatype Life = Unborn | Live(addr: nat, repeat: bool, ran: bool) | Dead | Bad

  function Next(l: Life, ev: Event, n: nat): Life {
    match ev
    case Created(id, repeat) =>
      if id.sequence != n then l else if l.Unborn? then Live(id.addr, repeat, false) else Bad
    case Ran(m) =>
      if m != n then l else if l.Live? && (l.repeat || !l.ran) then l.(ran := true) else Bad
    case Deleted(m) =>
      if m != n then l else if l.Live? then Dead else Bad
  }

  function LifeOf(log: seq<Event>, n: nat): Life {
    if log == [] then Unborn else Next(LifeOf(log[..|log| - 1], n), log[|log| - 1], n)
  }

  /** The history agrees with the heap; a one-shot timer that has run is among `done`. */
  ghost predicate Told(q: Queue, done: seq<Entry>) {
    && (forall n: nat :: var l := LifeOf(q.log, n);
          match l
          case Unborn => n == 0 || n > q.created
          case Live(a, repeat, ran) =>
            && 0 < n <= q.created && a in q.heap && q.heap[a].sequence == n && q.heap[a].repeat == repeat
            && (ran && !repeat ==> EntryOf(q.heap, a) in done)
          case Dead => 0 < n <= q.created
          case Bad => false)
    && (forall a :: a in q.heap ==>
          LifeOf(q.log, q.heap[a].sequence).Live? && LifeOf(q.log, q.heap[a].sequence).addr == a)
  }

  /** While a batch runs only a timer with an invalid time needs the alarm: reset will arm it for the others. */
  ghost predicate AlarmOk(q: Queue) {
    && q.clock > 0
    && (q.alarm.Armed? ==> q.alarm.armedAt <= q.clock < q.alarm.deadline)
    && (forall e :: e in q.timers && (q.phase.Idle? || e.when <= 0) ==> Covers(q.alarm, e.when))
  }

  ghost predicate PhaseOk(q: Queue) {
    q.phase.Calling? ==> q.phase.next <= |q.phase.batch| && q.phase.now <= q.clock && q.phase.now > 0
  }

  function Batch(q: Queue): seq<Entry> {
    if q.phase.Calling? then q.phase.batch else []
  }

  function Done(q: Queue): seq<Entry>
    requires PhaseOk(q)
  {
    if q.phase.Calling? then q.phase.batch[..q.phase.next] else []
  }

  ghost predicate Inv(q: Queue) {
    PhaseOk(q) && Indexed(q, Batch(q)) && Told(q, Done(q)) && AlarmOk(q)
  }

  // ---------- the history ----------

  lemma LifeSnoc(log: seq<Event>, ev: Event, n: nat)
    ensures LifeOf(log + [ev], n) == Next(LifeOf(log, n), ev, n)
  {
    assert (log + [ev])[..|log|] == log;
  }

  lemma LifeSnocAll(log: seq<Event>, ev: Event)
    ensures forall n: nat :: LifeOf(log + [ev], n) == Next(LifeOf(log, n), ev, n)
  {
    forall n: nat ensures LifeOf(log + [ev], n) == Next(LifeOf(log, n), ev, n) {
      LifeSnoc(log, ev, n);
    }
  }

  // ---------- every step keeps the invariant ----------

  lemma InitInv(clock: int)
    requires clock > 0
    ensures Inv(Init(clock))
  {
  }

  lemma CreateIndexed(q: Queue, addr: nat, when: int, delta: nat, repeat: bool, b: seq<Entry>)
    requires Indexed(q, b) && addr !in q.heap
    ensures Indexed(Create(q, addr, when, delta, repeat), b)
  {
    var q' := Create(q, addr, when, delta, repeat);
    assert forall a :: a in q.heap ==> EntryOf(q'.heap, a) == EntryOf(q.heap, a) && IdOf(q'.heap, a) == IdOf(q.heap, a);
  }

  lemma CreateTold(q: Queue, addr: nat, when: int, delta: nat, repeat: bool, done: seq<Entry>)
    requires Told(q, done) && addr !in q.heap
    ensures Told(Create(q, addr, when, delta, repeat), done)
  {
    LifeSnocAll(q.log, Created(TimerId(addr, q.created + 1), repeat));
  }

  lemma CreateInv(q: Queue, addr: nat, when: int, delta: nat, repeat: bool)
    requires Inv(q) && addr !in q.heap
    ensures Inv(Create(q, addr, when, delta, repeat))
  {
    CreateIndexed(q, addr, when, delta, repeat, Batch(q));
    CreateTold(q, addr, when, delta, repeat, Done(q));
  }

  /** Inserting a timer that is nowhere else; `b` is what remains of the batch. */
  lemma InsertIndexed(q: Queue, addr: nat, b: seq<Entry>)
    requires addr in q.heap && addr in q.pending && Indexed(q, b)
    ensures Indexed(Insert(q.(pending := q.pending - {addr}), addr), b)
  {
    assert IdOf(q.heap, addr) !in q.active;
  }

  lemma AddAlarm(q: Queue, addr: nat)
    requires AlarmOk(q) && addr in q.heap && Sorted(q.timers) && EntryOf(q.heap, addr) !in q.timers
    ensures AlarmOk(AddInLoop(q, addr))
  {
    var when := q.heap[addr].expiration;
    assert forall e :: e in q.timers ==> q.timers[0].when <= e.when;
    if !EarliestChanged(q, when) {
      assert q.timers[0] in q.timers;
    }
  }

  lemma ToldSame(q: Queue, q': Queue, done: seq<Entry>)
    requires Told(q, done) && q'.heap == q.heap && q'.log == q.log && q'.created == q.created
    ensures Told(q', done)
  {
  }

  lemma IndexedSame(q: Queue, q': Queue, b: seq<Entry>)
    requires Indexed(q, b) && q'.heap == q.heap && q'.pending == q.pending
    requires q'.timers == q.timers && q'.active == q.active
    ensures Indexed(q', b)
  {
  }

  lemma AddReady(q: Queue, addr: nat)
    requires Indexed(q, Batch(q)) && addr in q.pending
    ensures addr in q.heap && Sorted(q.timers) && EntryOf(q.heap, addr) !in q.timers
  {
  }

  lemma AddInv(q: Queue, addr: nat)
    requires Inv(q) && addr in q.pending
    ensures Inv(AddInLoop(q, addr))
  {
    hide Indexed, Told, AlarmOk, Sorted;
    AddReady(q, addr);
    InsertIndexed(q, addr, Batch(q));
    AddAlarm(q, addr);
    ToldSame(q, AddInLoop(q, addr), Done(q));
    IndexedSame(Insert(q.(pending := q.pending - {addr}), addr), AddInLoop(q, addr), Batch(q));
  }

  lemma CancelParts(q: Queue, id: TimerId, b: seq<Entry>)
    requires Indexed(q, b) && id in q.active
    ensures var r, e := Cancel(q, id), EntryOf(q.heap, id.addr);
            && e in q.timers && e !in b && id.addr !in q.pending && id == IdOf(q.heap, id.addr)
            && r.heap == q.heap - {id.addr} && r.pending == q.pending && r.active == q.active - {id}
            && Sorted(r.timers) && (forall x :: x in r.timers <==> x in q.timers && x != e)
            && |r.timers| == |r.active|
  {
  }

  lemma CancelIndexed(q: Queue, id: TimerId, b: seq<Entry>)
    requires Indexed(q, b) && id in q.active
    ensures Indexed(Cancel(q, id), b)
  {
    CancelParts(q, id, b);
    hide Sorted, Cancel;
    var r := Cancel(q, id);
    forall e | e in r.timers || e in b ensures e.addr in r.heap && e == EntryOf(r.heap, e.addr) {
      assert e in q.timers || e in b;
      assert e.addr != id.addr;
    }
    forall a | a in r.heap ensures EntryOf(r.heap, a) in r.timers <==> EntryOf(q.heap, a) in q.timers {
      assert a in q.heap && a != id.addr;
    }
    forall x ensures x in r.active <==>
      x.addr in r.heap && x == IdOf(r.heap, x.addr) && EntryOf(r.heap, x.addr) in r.timers {
      assert x in q.active <==> x.addr in q.heap && x == IdOf(q.heap, x.addr) && EntryOf(q.heap, x.addr) in q.timers;
    }
  }

  /** Deleting a timer that is not in `done`. */
  lemma DeleteTold(q: Queue, addr: nat, done: seq<Entry>, q': Queue, done': seq<Entry>)
    requires Told(q, done) && addr in q.heap
    requires q'.heap == q.heap - {addr} && q'.created == q.created
    requires q'.log == q.log + [Deleted(q.heap[addr].sequence)]
    requires forall a :: a in q'.heap && EntryOf(q.heap, a) in done ==> EntryOf(q.heap, a) in done'
    ensures Told(q', done')
  {
    LifeSnocAll(q.log, Deleted(q.heap[addr].sequence));
  }

  lemma CancelInv(q: Queue, id: TimerId)
    requires Inv(q)
    ensures Inv(Cancel(q, id))
  {
    if id in q.active {
      CancelIndexed(q, id, Batch(q));
      DeleteTold(q, id.addr, Done(q), Cancel(q, id), Done(q));
    }
  }

  lemma TickInv(q: Queue, d: nat)
    requires Inv(q)
    ensures Inv(Tick(q, d))
  {
  }

  lemma RemoveIdsSize(active: set<TimerId>, heap: map<nat, Timer>, b: seq<Entry>)
    requires forall id :: id in active ==> id.addr in heap && id == IdOf(heap, id.addr)
    requires forall e :: e in b ==> e.addr in heap && e == EntryOf(heap, e.addr) && IdOf(heap, e.addr) in active
    requires Sorted(b)
    ensures |RemoveIds(active, heap, b)| == |active| - |b|
    decreases |b|
  {
    if b != [] {
      var id := IdOf(heap, b[0].addr);
      assert b[0] in b;
      forall e | e in b[1..] ensures e in b && IdOf(heap, e.addr) in active - {id} {
        assert e != b[0];
      }
      RemoveIdsSize(active - {id}, heap, b[1..]);
    }
  }

  lemma BeginIndexed(q: Queue)
    requires Indexed(q, [])
    ensures Indexed(BeginRead(q), BeginRead(q).phase.batch)
  {
    var k := DueCount(q.timers, q.clock);
    DueSplit(q.timers, q.clock);
    RemoveIdsSize(q.active, q.heap, q.timers[..k]);
  }

  lemma BeginAlarm(q: Queue)
    requires Indexed(q, []) && AlarmOk(q)
    ensures AlarmOk(BeginRead(q))
  {
    DueSplit(q.timers, q.clock);
  }

  lemma BeginInv(q: Queue)
    requires Inv(q) && q.phase.Idle?
    ensures Inv(BeginRead(q))
  {
    hide Indexed, Told;
    BeginIndexed(q);
    ToldSame(q, BeginRead(q), []);
    BeginAlarm(q);
  }

  lemma RunReady(q: Queue)
    requires Indexed(q, Batch(q)) && PhaseOk(q) && q.phase.Calling? && q.phase.next < |q.phase.batch|
    ensures var p := q.phase; var e := p.batch[p.next];
            e.addr in q.heap && e == EntryOf(q.heap, e.addr) && e !in p.batch[..p.next]
  {
    var p := q.phase;
    assert p.batch[p.next] in p.batch;
  }

  lemma RunTold(q: Queue)
    requires PhaseOk(q) && Told(q, Done(q)) && q.phase.Calling? && q.phase.next < |q.phase.batch|
    requires var p := q.phase; var e := p.batch[p.next];
             e.addr in q.heap && e == EntryOf(q.heap, e.addr) && e !in p.batch[..p.next]
    ensures Told(RunNext(q), Done(RunNext(q)))
  {
    var p := q.phase;
    var n := q.heap[p.batch[p.next].addr].sequence;
    assert p.batch[..p.next + 1] == p.batch[..p.next] + [p.batch[p.next]];
    LifeSnocAll(q.log, Ran(n));
    hide LifeOf;
  }

  lemma RunInv(q: Queue)
    requires Inv(q) && q.phase.Calling? && q.phase.next < |q.phase.batch|
    ensures q.phase.batch[q.phase.next].addr in q.heap
    ensures Inv(RunNext(q))
  {
    hide Indexed, Told, AlarmOk;
    RunReady(q);
    RunTold(q);
    IndexedSame(q, RunNext(q), q.phase.batch);
    RunAlarm(q);
  }

  lemma RunAlarm(q: Queue)
    requires AlarmOk(q) && q.phase.Calling? && q.phase.next < |q.phase.batch| && q.phase.batch[q.phase.next].addr in q.heap
    ensures AlarmOk(RunNext(q))
  {
  }

  // ---------- reset ----------

  /** What holds while reset works through the batch: `b` is the part still to do. */
  ghost predicate Resetting(q: Queue, b: seq<Entry>, now: int) {
    && Indexed(q, b) && Told(q, b) && now > 0 && q.clock >= now
    && (q.alarm.Armed? ==> q.alarm.armedAt <= q.clock < q.alarm.deadline)
    && (forall e :: e in q.timers && e.when <= 0 ==> Covers(q.alarm, e.when))
  }

  /** Taking the first timer out of the batch, as if it had not been inserted yet. */
  lemma ReleaseIndexed(q: Queue, b: seq<Entry>, expiration: int)
    requires Indexed(q, b) && b != []
    requires b[0].addr in q.heap
    ensures var a := b[0].addr;
            Indexed(q.(heap := q.heap[a := q.heap[a].(expiration := expiration)], pending := q.pending + {a}), b[1..])
  {
    var a := b[0].addr;
    var q1 := q.(heap := q.heap[a := q.heap[a].(expiration := expiration)], pending := q.pending + {a});
    assert b[0] in b && b[0] !in b[1..];
    assert forall x :: x in q.heap ==> IdOf(q1.heap, x) == IdOf(q.heap, x);
    assert forall x :: x in q.heap && x != a ==> EntryOf(q1.heap, x) == EntryOf(q.heap, x);
    assert forall e :: e in b <==> e == b[0] || e in b[1..];
    assert EntryOf(q1.heap, a) !in q1.timers && EntryOf(q1.heap, a) !in b[1..];
  }

  lemma RestartIndexed(q: Queue, b: seq<Entry>, expiration: int)
    requires Indexed(q, b) && b != []
    requires b[0].addr in q.heap && b[0].addr !in q.pending
    ensures var a := b[0].addr;
            var q1 := q.(heap := q.heap[a := q.heap[a].(expiration := expiration)]);
            EntryOf(q1.heap, a) !in q1.timers && Indexed(Insert(q1, a), b[1..])
  {
    var a := b[0].addr;
    var q2 := q.(heap := q.heap[a := q.heap[a].(expiration := expiration)], pending := q.pending + {a});
    ReleaseIndexed(q, b, expiration);
    InsertIndexed(q2, a, b[1..]);
    assert q2.pending - {a} == q.pending;
  }

  lemma DropIndexed(q: Queue, b: seq<Entry>)
    requires Indexed(q, b) && b != []
    requires b[0].addr in q.heap
    ensures Indexed(Delete(q, b[0].addr), b[1..])
  {
    assert b[0] in b && b[0] !in b[1..];
    assert forall e :: e in b <==> e == b[0] || e in b[1..];
  }

  lemma RestartTold(q: Queue, b: seq<Entry>, q': Queue)
    requires Told(q, b) && b != [] && b[0].addr in q.heap && q.heap[b[0].addr].repeat
    requires exists x :: q'.heap == q.heap[b[0].addr := q.heap[b[0].addr].(expiration := x)]
    requires q'.log == q.log && q'.created == q.created
    ensures Told(q', b[1..])
  {
    assert forall e :: e in b <==> e == b[0] || e in b[1..];
  }

  lemma ResetOneReady(q: Queue, b: seq<Entry>, now: int)
    requires Resetting(q, b, now) && b != []
    ensures b[0].addr in q.heap && b[0].addr !in q.pending && Sorted(q.timers)
    ensures forall x :: x in q.timers ==> x.addr != b[0].addr
  {
    assert b[0] in b;
  }

  lemma RestartKeeps(q: Queue, b: seq<Entry>, now: int)
    requires Resetting(q, b, now) && b != []
    requires b[0].addr in q.heap && b[0].addr !in q.pending && q.heap[b[0].addr].repeat
    ensures var a := b[0].addr;
            var q1 := q.(heap := q.heap[a := q.heap[a].(expiration := now + q.heap[a].delta)]);
            EntryOf(q1.heap, a) !in q1.timers && Resetting(Insert(q1, a), b[1..], now)
  {
    hide Told;
    var a := b[0].addr;
    var x := now + q.heap[a].delta;
    var q1 := q.(heap := q.heap[a := q.heap[a].(expiration := x)]);
    RestartIndexed(q, b, x);
    RestartTold(q, b, Insert(q1, a));
  }

  lemma DropKeeps(q: Queue, b: seq<Entry>, now: int)
    requires Resetting(q, b, now) && b != [] && b[0].addr in q.heap
    ensures Resetting(Delete(q, b[0].addr), b[1..], now)
  {
    DropIndexed(q, b);
    assert b == [b[0]] + b[1..];
    DeleteTold(q, b[0].addr, b, Delete(q, b[0].addr), b[1..]) by {
      assert b[0] in b && b[0] == EntryOf(q.heap, b[0].addr);
    }
  }

  lemma ResetOneKeeps(q: Queue, b: seq<Entry>, now: int)
    requires Resetting(q, b, now) && b != []
    ensures b[0].addr in q.heap && Sorted(q.timers) && forall x :: x in q.timers ==> x.addr != b[0].addr
    ensures Resetting(ResetOne(q, b[0], now), b[1..], now)
  {
    hide Resetting, Sorted;
    ResetOneReady(q, b, now);
    if q.heap[b[0].addr].repeat && IdOf(q.heap, b[0].addr) !in q.canceling {
      RestartKeeps(q, b, now);
    } else {
      DropKeeps(q, b, now);
    }
  }

  /** The loop of reset. */
  function ResetAll(q: Queue, b: seq<Entry>, now: int): (r: Queue)
    requires Resetting(q, b, now)
    ensures Resetting(r, [], now)
    decreases |b|
  {
    if b == [] then q else
      ResetOneKeeps(q, b, now);
      ResetAll(ResetOne(q, b[0], now), b[1..], now)
  }

  lemma FinishReady(q: Queue)
    requires Inv(q) && q.phase.Calling? && q.phase.next == |q.phase.batch|
    ensures Resetting(q, q.phase.batch, q.phase.now)
  {
    assert q.phase.batch[..q.phase.next] == q.phase.batch;
  }

  /** Last part of handleRead: reset. */
  function FinishRead(q: Queue): Queue
    requires Inv(q) && q.phase.Calling? && q.phase.next == |q.phase.batch|
  {
    FinishReady(q);
    Rearm(ResetAll(q, q.phase.batch, q.phase.now)).(phase := Idle)
  }

  lemma RearmCovers(q: Queue, now: int)
    requires Resetting(q, [], now)
    ensures Inv(Rearm(q).(phase := Idle))
  {
    if q.timers != [] {
      assert q.timers[0] in q.timers;
      assert forall e :: e in q.timers ==> q.timers[0].when <= e.when;
      if q.timers[0].when <= 0 {
        assert Covers(q.alarm, q.timers[0].when);
      }
    }
  }

  lemma FinishInv(q: Queue)
    requires Inv(q) && q.phase.Calling? && q.phase.next == |q.phase.batch|
    ensures Inv(FinishRead(q))
  {
    FinishReady(q);
    RearmCovers(ResetAll(q, q.phase.batch, q.phase.now), q.phase.now);
  }

  // ---------- runs ----------

  datatype Op =
    | DoCreate(addr: nat, when: int, delta: nat, repeat: bool)
    | DoAdd(addr: nat)
    | DoCancel(id: TimerId)
    | DoTick(d: nat)
    | DoBegin
    | DoRun
    | DoFinish

  /** A callback, a queued functor, another thread or the clock; handleRead itself does the rest. */
  type OutsideOp = op: Op | !op.DoBegin? && !op.DoRun? && !op.DoFinish? witness DoTick(0)

  predicate Enabled(q: Queue, op: Op) {
    match op
    case DoCreate(addr, _, _, _) => addr !in q.heap
    case DoAdd(addr) => addr in q.pending
    case DoCancel(_) => true
    case DoTick(_) => true
    case DoBegin => q.phase.Idle?
    case DoRun => q.phase.Calling? && q.phase.next < |q.phase.batch|
    case DoFinish => q.phase.Calling? && q.phase.next == |q.phase.batch|
  }

  /** An operation that is not possible in this state does nothing. */
  function Step(q: Queue, op: Op): (r: Queue)
    requires Inv(q)
    ensures Inv(r)
  {
    if !Enabled(q, op) then q else
      match op
      case DoCreate(addr, when, delta, repeat) =>
        CreateInv(q, addr, when, delta, repeat); Create(q, addr, when, delta, repeat)
      case DoAdd(addr) => AddInv(q, addr); AddInLoop(q, addr)
      case DoCancel(id) => CancelInv(q, id); Cancel(q, id)
      case DoTick(d) => TickInv(q, d); Tick(q, d)
      case DoBegin => BeginInv(q); BeginRead(q)
      case DoRun => RunInv(q); RunNext(q)
      case DoFinish => FinishInv(q); FinishRead(q)
  }

  function Execute(q: Queue, ops: seq<Op>): (r: Queue)
    requires Inv(q)
    ensures Inv(r)
    decreases |ops|
  {
    hide Inv;
    if ops == [] then q else Execute(Step(q, ops[0]), ops[1..])
  }
}
