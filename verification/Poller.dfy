/**
 The epoll poller and its channels: a channel's index, the poller's map and the kernel's interest
 set, kept in step. `C` is the type of channel identities.
*/
module PollerModel {
  type Fd = nat

  /** kNew, kAdded and kDeleted. */
  datatype Index = New | Added | Deleted

  const NONE_EVENT: bv16 := 0
  const READ_EVENT: bv16 := 0x3    // POLLIN | POLLPRI
  const WRITE_EVENT: bv16 := 0x4   // POLLOUT

  datatype ChannelState = ChannelState(fd: Fd, events: bv16, index: Index)

  /** What epoll_ctl registered: the user pointer and the mask. */
  datatype Registration<C> = Registration(channel: C, mask: bv16)

  datatype Poller<C(==)> = Poller(
    live: map<C, ChannelState>,
    channels: map<Fd, C>,
    kernel: map<Fd, Registration<C>>)

  datatype Ctl = CtlAdd | CtlMod | CtlDel

  /** epoll_ctl succeeds: ADD needs an unregistered descriptor, MOD and DEL a registered one. */
  predicate CtlOk<C>(kernel: map<Fd, Registration<C>>, op: Ctl, fd: Fd) {
    if op == CtlAdd then fd !in kernel else fd in kernel
  }

  function Control<C>(kernel: map<Fd, Registration<C>>, op: Ctl, fd: Fd, c: C, mask: bv16): map<Fd, Registration<C>> {
    if !CtlOk(kernel, op, fd) then kernel
    else if op == CtlDel then kernel - {fd}
    else kernel[fd := Registration(c, mask)]
  }

  /** Which epoll_ctl updateChannel makes, and the index it leaves. */
  function UpdateCtl(index: Index, events: bv16): Ctl {
    if index.New? || index.Deleted? then CtlAdd else if events == NONE_EVENT then CtlDel else CtlMod
  }

  function IndexAfter(index: Index, events: bv16): (r: Index)
    ensures !r.New?
  {
    if index.Added? && events == NONE_EVENT then Deleted else Added
  }

  /** A change of a channel's interest followed by updateChannel. */
  function SetEvents<C>(p: Poller<C>, c: C, events: bv16): Poller<C>
    requires c in p.live
  {
    var s := p.live[c];
    Poller(p.live[c := ChannelState(s.fd, events, IndexAfter(s.index, events))],
           if s.index.New? then p.channels[s.fd := c] else p.channels,
           Control(p.kernel, UpdateCtl(s.index, events), s.fd, c, events))
  }

  /** removeChannel. */
  function RemoveChannel<C>(p: Poller<C>, c: C): Poller<C>
    requires c in p.live
  {
    var s := p.live[c];
    Poller(p.live[c := s.(index := New)],
           p.channels - {s.fd},
           if s.index.Added? then Control(p.kernel, CtlDel, s.fd, c, s.events) else p.kernel)
  }

  datatype Op<C> =
    | OpCreate(c: C, fd: Fd)
    | OpEnableReading(c: C) | OpDisableReading(c: C) | OpEnableWriting(c: C) | OpDisableWriting(c: C) | OpDisableAll(c: C)
    | OpRemove(c: C)
    | OpDestroy(c: C)

  /** The new value of events_ after a channel operation. */
  function EventsAfter<C>(op: Op<C>, events: bv16): bv16 {
    match op
    case OpEnableReading(_) => events | READ_EVENT
    case OpDisableReading(_) => events & !READ_EVENT
    case OpEnableWriting(_) => events | WRITE_EVENT
    case OpDisableWriting(_) => events & !WRITE_EVENT
    case _ => NONE_EVENT
  }

  predicate MayUpdate<C>(p: Poller<C>, c: C)
    requires c in p.live
  {
    p.live[c].index.New? ==> p.live[c].fd !in p.channels
  }

  /**
   What callers owe, by the asserts of the source: a channel that is not in the map gets interest only
   while no other channel of its descriptor is there, removal is only of a channel that is known and has
   no interest, destruction only after removal. Several channels may exist for one descriptor.
  */
  predicate Enabled<C>(p: Poller<C>, op: Op<C>) {
    match op
    case OpCreate(c, fd) => c !in p.live
    case OpRemove(c) => c in p.live && !p.live[c].index.New? && p.live[c].events == NONE_EVENT
    case OpDestroy(c) => c in p.live && p.live[c].index.New?
    case _ => op.c in p.live && MayUpdate(p, op.c)
  }

  function Step<C>(p: Poller<C>, op: Op<C>): Poller<C> {
    if !Enabled(p, op) then p else
      match op
      case OpCreate(c, fd) => p.(live := p.live[c := ChannelState(fd, NONE_EVENT, New)])
      case OpRemove(c) => RemoveChannel(p, c)
      case OpDestroy(c) => p.(live := p.live - {c})
      case _ => SetEvents(p, op.c, EventsAfter(op, p.live[op.c].events))
  }

  function Execute<C>(p: Poller<C>, ops: seq<Op<C>>): Poller<C>
    decreases |ops|
  {
    if ops == [] then p else Execute(Step(p, ops[0]), ops[1..])
  }

  function Init<C>(): Poller<C> { Poller(map[], map[], map[]) }

  // ---------- three-way agreement ----------

  predicate InMap<C(==)>(p: Poller<C>, c: C)
    requires c in p.live
  {
    p.live[c].fd in p.channels && p.channels[p.live[c].fd] == c
  }

  predicate InKernel<C(==)>(p: Poller<C>, c: C)
    requires c in p.live
  {
    p.live[c].fd in p.kernel && p.kernel[p.live[c].fd].channel == c
  }

  /** Index, map and kernel set tell the same about one channel, whatever other channels its descriptor has. */
  predicate ChannelAgrees<C(==)>(p: Poller<C>, c: C)
    requires c in p.live
  {
    var s := p.live[c];
    match s.index
    case New => !InMap(p, c) && !InKernel(p, c)
    case Added => InMap(p, c) && InKernel(p, c) && p.kernel[s.fd].mask == s.events
    case Deleted => InMap(p, c) && s.fd !in p.kernel && s.events == NONE_EVENT
  }

  ghost predicate Agree<C>(p: Poller<C>) {
    && (forall c :: c in p.live ==> ChannelAgrees(p, c))
    && (forall fd :: fd in p.channels ==> p.channels[fd] in p.live && p.live[p.channels[fd]].fd == fd)
    && (forall fd :: fd in p.kernel ==> fd in p.channels && p.channels[fd] == p.kernel[fd].channel)
  }

  lemma SetEventsAgrees<C>(p: Poller<C>, c: C, events: bv16)
    requires Agree(p) && c in p.live && MayUpdate(p, c)
    ensures CtlOk(p.kernel, UpdateCtl(p.live[c].index, events), p.live[c].fd)
    ensures Agree(SetEvents(p, c, events))
  {
    assert ChannelAgrees(p, c);
    var r := SetEvents(p, c, events);
    forall d | d in r.live ensures ChannelAgrees(r, d) {
      assert ChannelAgrees(p, d);
    }
  }

  lemma RemoveAgrees<C>(p: Poller<C>, c: C)
    requires Agree(p) && Enabled(p, OpRemove(c))
    ensures p.live[c].index.Added? ==> CtlOk(p.kernel, CtlDel, p.live[c].fd)
    ensures Agree(RemoveChannel(p, c))
  {
    assert ChannelAgrees(p, c);
    var r := RemoveChannel(p, c);
    forall d | d in r.live ensures ChannelAgrees(r, d) {
      assert ChannelAgrees(p, d);
    }
  }

  lemma StepAgrees<C>(p: Poller<C>, op: Op<C>)
    requires Agree(p)
    ensures Agree(Step(p, op))
  {
    if Enabled(p, op) {
      match op
      case OpCreate(c, fd) =>
        var r := Step(p, op);
        forall d | d in r.live ensures ChannelAgrees(r, d) {
          assert d in p.live ==> ChannelAgrees(p, d);
        }
      case OpRemove(c) => RemoveAgrees(p, c);
      case OpDestroy(c) =>
        assert ChannelAgrees(p, c);
        var r := Step(p, op);
        forall d | d in r.live ensures ChannelAgrees(r, d) {
          assert ChannelAgrees(p, d);
        }
      case _ => SetEventsAgrees(p, op.c, EventsAfter(op, p.live[op.c].events));
    }
  }

  lemma {:induction false} ExecuteAgrees<C>(p: Poller<C>, ops: seq<Op<C>>)
    requires Agree(p)
    ensures Agree(Execute(p, ops))
    decreases |ops|
  {
    if ops != [] {
      hide Agree, Step;
      StepAgrees(p, ops[0]);
      ExecuteAgrees(Step(p, ops[0]), ops[1..]);
    }
  }

  /**
   Three-way agreement over every run: kAdded exactly if the kernel holds this channel, with its
   interest as mask; kDeleted exactly if it is in the map only; kNew exactly if it is in neither.
   So the next epoll_ctl that updateChannel makes succeeds exactly if the kernel does not hold another
   channel of the descriptor, and the one that removeChannel makes always does.
  */
  lemma ThreeWayAgreement<C>(ops: seq<Op<C>>, c: C, events: bv16)
    ensures var p := Execute(Init(), ops);
            c in p.live ==>
              var s := p.live[c];
              && (s.index.Added? <==> s.fd in p.kernel && p.kernel[s.fd].channel == c)
              && (s.index.Added? ==> p.kernel[s.fd] == Registration(c, s.events))
              && (s.index.Deleted? <==> s.fd in p.channels && p.channels[s.fd] == c && s.fd !in p.kernel)
              && (s.index.Deleted? ==> s.events == NONE_EVENT)
              && (s.index.New? <==> !(s.fd in p.channels && p.channels[s.fd] == c))
              && (CtlOk(p.kernel, UpdateCtl(s.index, events), s.fd) <==>
                    !(s.index.New? && s.fd in p.kernel))
              && (Enabled(p, OpRemove(c)) && s.index.Added? ==> CtlOk(p.kernel, CtlDel, s.fd))
  {
    ExecuteAgrees(Init<C>(), ops);
    var p := Execute(Init(), ops);
    if c in p.live {
      assert ChannelAgrees(p, c);
    }
  }

  /** Every channel that epoll_wait can report is the one in the map (the asserts of fillActiveChannels). */
  lemma ReportedIsKnown<C>(ops: seq<Op<C>>, fd: Fd)
    ensures var p := Execute(Init(), ops);
            fd in p.kernel ==>
              var c := p.kernel[fd].channel;
              c in p.live && p.live[c].fd == fd && fd in p.channels && p.channels[fd] == c && p.live[c].index.Added?
  {
    ExecuteAgrees(Init<C>(), ops);
    var p := Execute(Init(), ops);
    if fd in p.kernel {
      assert ChannelAgrees(p, p.kernel[fd].channel);
    }
  }

  /**
   Giving up all interest takes a channel out of the kernel exactly if it was there. A channel that
   had already lost its interest (kDeleted) is put back, with an empty mask, and the kernel can still
   report errors and hang-ups for it.
  */
  lemma DisableAllReAdds<C>(ops: seq<Op<C>>, c: C)
    ensures var p := Execute(Init(), ops);
            Enabled(p, OpDisableAll(c)) ==>
              var r := Step(p, OpDisableAll(c));
              (r.live[c].fd in r.kernel <==> !p.live[c].index.Added?) && (InKernel(r, c) <==> !InKernel(p, c))
  {
    ExecuteAgrees(Init<C>(), ops);
    var p := Execute(Init(), ops);
    if Enabled(p, OpDisableAll(c)) {
      DisableAllFlips(p, c);
    }
  }

  lemma DisableAllFlips<C>(p: Poller<C>, c: C)
    requires Agree(p) && Enabled(p, OpDisableAll(c))
    ensures var r := Step(p, OpDisableAll(c));
            (r.live[c].fd in r.kernel <==> !p.live[c].index.Added?) && (InKernel(r, c) <==> !InKernel(p, c))
  {
    assert ChannelAgrees(p, c);
  }

  /**
   A descriptor changes hands: the channel that watched it while it was connecting is removed but not
   yet destroyed when a second channel for the same descriptor is made and registered. Every step is
   possible, and the descriptor then belongs to the second one.
  */
  lemma HandOver<C>(ops: seq<Op<C>>, c: C, d: C)
    ensures var p := Execute(Init(), ops);
            c in p.live && p.live[c].index.Added? && d !in p.live ==>
              var fd := p.live[c].fd;
              var p1 := Step(p, OpDisableAll(c));
              var p2 := Step(p1, OpRemove(c));
              var p3 := Step(p2, OpCreate(d, fd));
              var r := Step(p3, OpEnableReading(d));
              && Enabled(p, OpDisableAll(c)) && Enabled(p1, OpRemove(c))
              && Enabled(p2, OpCreate(d, fd)) && Enabled(p3, OpEnableReading(d)) && Enabled(r, OpDestroy(c))
              && r.live == p.live[c := ChannelState(fd, NONE_EVENT, New)][d := ChannelState(fd, READ_EVENT, Added)]
              && r.channels == p.channels[fd := d] && r.kernel == p.kernel[fd := Registration(d, READ_EVENT)]
  {
    ExecuteAgrees(Init<C>(), ops);
    hide Step, Enabled, Execute, Agree;
    var p := Execute(Init(), ops);
    if c in p.live && p.live[c].index.Added? && d !in p.live {
      Releases(p, c);
      Takes(Step(Step(p, OpDisableAll(c)), OpRemove(c)), c, d);
    }
  }

  lemma Releases<C>(p: Poller<C>, c: C)
    requires Agree(p) && c in p.live && p.live[c].index.Added?
    ensures var fd := p.live[c].fd;
            var p1 := Step(p, OpDisableAll(c));
            && Enabled(p, OpDisableAll(c)) && Enabled(p1, OpRemove(c))
            && Step(p1, OpRemove(c)) ==
               Poller(p.live[c := ChannelState(fd, NONE_EVENT, New)], p.channels - {fd}, p.kernel - {fd})
  {
    assert ChannelAgrees(p, c);
    var p1 := Step(p, OpDisableAll(c));
    assert p1.live == p.live[c := ChannelState(p.live[c].fd, NONE_EVENT, Deleted)];
  }

  lemma Takes<C>(p: Poller<C>, c: C, d: C)
    requires c in p.live && p.live[c].index.New? && d !in p.live
    requires p.live[c].fd !in p.channels && p.live[c].fd !in p.kernel
    ensures var fd := p.live[c].fd;
            var p1 := Step(p, OpCreate(d, fd));
            var r := Step(p1, OpEnableReading(d));
            && Enabled(p, OpCreate(d, fd)) && Enabled(p1, OpEnableReading(d)) && Enabled(r, OpDestroy(c))
            && r == Poller(p.live[d := ChannelState(fd, READ_EVENT, Added)],
                           p.channels[fd := d], p.kernel[fd := Registration(d, READ_EVENT)])
  {
    assert NONE_EVENT | READ_EVENT == READ_EVENT;
    var p1 := Step(p, OpCreate(d, p.live[c].fd));
    assert p1.live == p.live[d := ChannelState(p.live[c].fd, NONE_EVENT, New)];
  }

  /** Everything but channel `c`, of descriptor `fd`, is as before. */
  ghost predicate OnlyConcerns<C>(p: Poller<C>, r: Poller<C>, c: C, fd: Fd) {
    && r.live.Keys == p.live.Keys && (forall d :: d in p.live && d != c ==> r.live[d] == p.live[d])
    && (forall x :: x != fd ==> (x in r.channels <==> x in p.channels) && (x in r.kernel <==> x in p.kernel))
    && (forall x :: x != fd && x in p.channels ==> r.channels[x] == p.channels[x])
    && (forall x :: x != fd && x in p.kernel ==> r.kernel[x] == p.kernel[x])
  }

  lemma SetEventsConcerns<C>(p: Poller<C>, c: C, events: bv16)
    requires c in p.live
    ensures OnlyConcerns(p, SetEvents(p, c, events), c, p.live[c].fd)
  {
  }

  lemma RemoveConcerns<C>(p: Poller<C>, c: C)
    requires Agree(p) && c in p.live && p.live[c].events == NONE_EVENT && !p.live[c].index.New?
    ensures var r, fd := RemoveChannel(p, c), p.live[c].fd;
            && OnlyConcerns(p, r, c, fd) && fd !in r.channels && fd !in r.kernel
            && r.live[c] == ChannelState(fd, NONE_EVENT, New)
  {
    assert ChannelAgrees(p, c);
  }

  /** A change of interest concerns this channel alone, and removal takes it out of the map and the kernel. */
  lemma EachIsExact<C>(ops: seq<Op<C>>, op: Op<C>)
    ensures var p := Execute(Init(), ops);
            Enabled(p, op) && !op.OpCreate? && !op.OpDestroy? ==>
              var r, fd := Step(p, op), p.live[op.c].fd;
              && OnlyConcerns(p, r, op.c, fd) && r.live[op.c].fd == fd
              && if op.OpRemove? then r.live[op.c].index.New? && fd !in r.channels && fd !in r.kernel
                 else r.live[op.c].events == NewInterest(op, p.live[op.c].events)
  {
    ExecuteAgrees(Init<C>(), ops);
    var p := Execute(Init(), ops);
    hide Agree, OnlyConcerns, Control, IndexAfter, UpdateCtl, EventsAfter, NewInterest, Execute;
    if Enabled(p, op) && !op.OpCreate? && !op.OpDestroy? {
      if op.OpRemove? {
        RemoveConcerns(p, op.c);
      } else {
        SetEventsConcerns(p, op.c, EventsAfter(op, p.live[op.c].events));
        SameInterest(op, p.live[op.c].events);
      }
    }
  }

  /** Interest by the bits of poll(2): reading is POLLIN and POLLPRI, writing POLLOUT. */
  function NewInterest<C>(op: Op<C>, events: bv16): bv16 {
    match op
    case OpEnableReading(_) => events | 0x3
    case OpDisableReading(_) => events & 0xFFFC
    case OpEnableWriting(_) => events | 0x4
    case OpDisableWriting(_) => events & 0xFFFB
    case _ => 0
  }

  lemma ReadBits(events: bv16)
    ensures events | 0x3 == events | READ_EVENT
    ensures events & 0xFFFC == events & !READ_EVENT
  {
  }

  lemma WriteBits(events: bv16)
    ensures events | 0x4 == events | WRITE_EVENT
    ensures events & 0xFFFB == events & !WRITE_EVENT
  {
  }

  lemma SameReadOn<C>(op: Op<C>, events: bv16)
    requires op.OpEnableReading?
    ensures NewInterest(op, events) == EventsAfter(op, events)
  {
    ReadBits(events);
  }

  lemma SameReadOff<C>(op: Op<C>, events: bv16)
    requires op.OpDisableReading?
    ensures NewInterest(op, events) == EventsAfter(op, events)
  {
    ReadBits(events);
  }

  lemma SameWriteOn<C>(op: Op<C>, events: bv16)
    requires op.OpEnableWriting?
    ensures NewInterest(op, events) == EventsAfter(op, events)
  {
    WriteBits(events);
  }

  lemma SameWriteOff<C>(op: Op<C>, events: bv16)
    requires op.OpDisableWriting?
    ensures NewInterest(op, events) == EventsAfter(op, events)
  {
    WriteBits(events);
  }

  lemma SameInterest<C>(op: Op<C>, events: bv16)
    ensures NewInterest(op, events) == EventsAfter(op, events)
  {
    if op.OpEnableReading? || op.OpDisableReading? || op.OpEnableWriting? || op.OpDisableWriting? {
      hide NewInterest, EventsAfter;
      match op
      case OpEnableReading(_) => SameReadOn(op, events);
      case OpDisableReading(_) => SameReadOff(op, events);
      case OpEnableWriting(_) => SameWriteOn(op, events);
      case OpDisableWriting(_) => SameWriteOff(op, events);
    }
  }

  /** enable and disable change one kind of interest and keep the other. */
  lemma InterestBits(events: bv16)
    requires events & !(READ_EVENT | WRITE_EVENT) == 0
    ensures (events | READ_EVENT) & WRITE_EVENT == events & WRITE_EVENT
    ensures (events & !READ_EVENT) & WRITE_EVENT == events & WRITE_EVENT && (events & !READ_EVENT) & READ_EVENT == 0
    ensures (events | WRITE_EVENT) & READ_EVENT == events & READ_EVENT
    ensures (events & !WRITE_EVENT) & READ_EVENT == events & READ_EVENT && (events & !WRITE_EVENT) & WRITE_EVENT == 0
  {
  }
}

/** Channel and EpollPoller as classes. */
module PollerClass {
  import opened PollerModel

  class Channel {
    const fd: Fd
    var events: bv16
    var revents: bv16
    var index: Index
    var addedToLoop: bool

    constructor (fd: Fd)
      ensures this.fd == fd && events == NONE_EVENT && index == New && !addedToLoop
    {
      this.fd := fd;
      events, revents, index, addedToLoop := NONE_EVENT, 0, New, false;
    }

    predicate IsNoneEvent()
      reads this
    {
      events == NONE_EVENT
    }

    ghost function State(): ChannelState
      reads this
    {
      ChannelState(fd, events, index)
    }

    /** The body that enableReading, disableReading, enableWriting, disbaleWriting and disableAll share. */
    method SetInterest(poller: EpollPoller, interest: bv16)
      requires poller.Valid() && this in poller.live && (index == New ==> fd !in poller.channels)
      modifies this`events, this`index, this`addedToLoop, poller`channels, poller`kernel
      ensures poller.Valid() && poller.Abs() == SetEvents(old(poller.Abs()), this, interest) && addedToLoop
      ensures events == interest && index == IndexAfter(old(index), interest)
    {
      hide Agree;
      ghost var was := poller.Abs();
      events := interest;
      addedToLoop := true;
      SetEventsAgrees(was, this, interest);
      poller.UpdateChannel(this, was);
      assert poller.Abs().live == SetEvents(was, this, interest).live;
    }

    method EnableReading(poller: EpollPoller)
      requires poller.Valid() && this in poller.live && (index == New ==> fd !in poller.channels)
      modifies this`events, this`index, this`addedToLoop, poller`channels, poller`kernel
      ensures poller.Valid() && poller.Abs() == Step(old(poller.Abs()), OpEnableReading(this))
      ensures events == old(events) | READ_EVENT && index == IndexAfter(old(index), events)
    {
      hide Agree, SetEvents;
      SetInterest(poller, events | READ_EVENT);
    }

    method DisableReading(poller: EpollPoller)
      requires poller.Valid() && this in poller.live && (index == New ==> fd !in poller.channels)
      modifies this`events, this`index, this`addedToLoop, poller`channels, poller`kernel
      ensures poller.Valid() && poller.Abs() == Step(old(poller.Abs()), OpDisableReading(this))
      ensures events == old(events) & !READ_EVENT && index == IndexAfter(old(index), events)
    {
      hide Agree, SetEvents;
      SetInterest(poller, events & !READ_EVENT);
    }

    method EnableWriting(poller: EpollPoller)
      requires poller.Valid() && this in poller.live && (index == New ==> fd !in poller.channels)
      modifies this`events, this`index, this`addedToLoop, poller`channels, poller`kernel
      ensures poller.Valid() && poller.Abs() == Step(old(poller.Abs()), OpEnableWriting(this))
      ensures events == old(events) | WRITE_EVENT && index == IndexAfter(old(index), events)
    {
      hide Agree, SetEvents;
      SetInterest(poller, events | WRITE_EVENT);
    }

    method DisableWriting(poller: EpollPoller)
      requires poller.Valid() && this in poller.live && (index == New ==> fd !in poller.channels)
      modifies this`events, this`index, this`addedToLoop, poller`channels, poller`kernel
      ensures poller.Valid() && poller.Abs() == Step(old(poller.Abs()), OpDisableWriting(this))
      ensures events == old(events) & !WRITE_EVENT && index == IndexAfter(old(index), events)
    {
      hide Agree, SetEvents;
      SetInterest(poller, events & !WRITE_EVENT);
    }

    method DisableAll(poller: EpollPoller)
      requires poller.Valid() && this in poller.live && (index == New ==> fd !in poller.channels)
      modifies this`events, this`index, this`addedToLoop, poller`channels, poller`kernel
      ensures poller.Valid() && poller.Abs() == Step(old(poller.Abs()), OpDisableAll(this))
      ensures events == NONE_EVENT && index == IndexAfter(old(index), events)
    {
      hide Agree, SetEvents;
      SetInterest(poller, NONE_EVENT);
    }

    /** Channel::remove; its assert is that the channel has no interest. */
    method Remove(poller: EpollPoller)
      requires poller.Valid() && this in poller.live && index != New && IsNoneEvent()
      modifies this`index, this`addedToLoop, poller`channels, poller`kernel
      ensures poller.Valid() && poller.Abs() == Step(old(poller.Abs()), OpRemove(this)) && !addedToLoop
      ensures events == old(events) && index == New && fd !in poller.channels
    {
      hide Agree;
      assert IsNoneEvent();
      ghost var was := poller.Abs();
      addedToLoop := false;
      assert poller.Abs().live == was.live;
      poller.RemoveKnown(this);
    }
  }

  class EpollPoller {
    var channels: map<Fd, Channel>
    var kernel: map<Fd, Registration<Channel>>
    ghost var live: set<Channel>

    ghost function Abs(): Poller<Channel>
      reads this, live
    {
      Poller(map c | c in live :: c.State(), channels, kernel)
    }

    ghost predicate Valid()
      reads this, live
    {
      Agree(Abs())
    }

    constructor ()
      ensures Valid() && Abs() == Init()
    {
      channels, kernel, live := map[], map[], {};
    }

    /** A channel has been made for this poller. */
    method Adopt(channel: Channel)
      requires Valid() && channel !in live && channel.State() == ChannelState(channel.fd, NONE_EVENT, New)
      modifies this`live
      ensures Valid() && Abs() == Step(old(Abs()), OpCreate(channel, channel.fd)) && live == old(live) + {channel}
    {
      StepAgrees(Abs(), OpCreate(channel, channel.fd));
      live := live + {channel};
      assert Abs().live == Step(old(Abs()), OpCreate(channel, channel.fd)).live;
    }

    /** epoll_ctl; the precondition is that it does not fail. */
    method EpollCtl(op: Ctl, channel: Channel)
      requires CtlOk(kernel, op, channel.fd)
      modifies this`kernel
      ensures kernel == Control(old(kernel), op, channel.fd, channel, channel.events)
    {
      match op
      case CtlAdd => kernel := kernel[channel.fd := Registration(channel, channel.events)];
      case CtlMod => kernel := kernel[channel.fd := Registration(channel, channel.events)];
      case CtlDel => kernel := kernel - {channel.fd};
    }

    /**
     updateChannel, called when the channel's interest has just changed from what it was in `was`,
     a state in which all agreed. The asserts of the source hold and its epoll_ctl succeeds.
    */
    method UpdateChannel(channel: Channel, ghost was: Poller<Channel>)
      requires channel in live && channel in was.live && Agree(was)
      requires was.channels == channels && was.kernel == kernel
      requires was.live[channel] == channel.State().(events := was.live[channel].events) && MayUpdate(was, channel)
      modifies this`channels, this`kernel, channel`index
      ensures var r := SetEvents(was, channel, channel.events);
              channels == r.channels && kernel == r.kernel && channel.State() == r.live[channel]
    {
      SetEventsAgrees(was, channel, channel.events);
      hide Agree;
      KnownFacts(was, channel);
      var fd := channel.fd;
      if channel.index == New || channel.index == Deleted {
        if channel.index == New {
          assert fd !in channels;
          channels := channels[fd := channel];
        } else {
          assert fd in channels && channels[fd] == channel;
        }
        channel.index := Added;
        EpollCtl(CtlAdd, channel);
      } else {
        assert fd in channels && channels[fd] == channel;
        if channel.IsNoneEvent() {
          EpollCtl(CtlDel, channel);
          channel.index := Deleted;
        } else {
          EpollCtl(CtlMod, channel);
        }
      }
    }

    lemma KnownFacts(p: Poller<Channel>, c: Channel)
      requires Agree(p) && c in p.live
      ensures !p.live[c].index.New? ==> p.live[c].fd in p.channels && p.channels[p.live[c].fd] == c
    {
      assert ChannelAgrees(p, c);
    }

    /** removeChannel, for a channel that is known and has no interest. */
    method RemoveKnown(channel: Channel)
      requires Valid() && channel in live && Enabled(Abs(), OpRemove(channel))
      modifies this`channels, this`kernel, channel`index
      ensures Valid() && Abs() == Step(old(Abs()), OpRemove(channel))
      ensures channel.index == New && channel.fd !in channels
    {
      hide Agree;
      RemoveAgrees(Abs(), channel);
      KnownFacts(Abs(), channel);
      ghost var was := Abs();
      var fd := channel.fd;
      assert fd in channels && channels[fd] == channel && channel.IsNoneEvent();
      channels := channels - {fd};
      if channel.index == Added {
        EpollCtl(CtlDel, channel);
      }
      channel.index := New;
      assert Abs().live == RemoveChannel(was, channel).live;
    }

    /** fillActiveChannels: every event of the kernel goes to the channel that the map has for its descriptor. */
    method FillActiveChannels(events: seq<(Fd, bv16)>) returns (active: seq<Channel>)
      requires Valid()
      requires forall i :: 0 <= i < |events| ==> events[i].0 in kernel
      requires forall i, j :: 0 <= i < j < |events| ==> events[i].0 != events[j].0
      modifies live`revents
      ensures |active| == |events|
      ensures forall i :: 0 <= i < |events| ==>
                && active[i] in live && active[i].fd == events[i].0 && active[i].revents == events[i].1
                && events[i].0 in channels && channels[events[i].0] == active[i]
      ensures Abs() == old(Abs())
    {
      active := [];
      for i := 0 to |events|
        invariant |active| == i
        invariant Abs() == old(Abs())
        invariant forall j :: 0 <= j < i ==>
                    && active[j] in live && active[j].fd == events[j].0 && active[j].revents == events[j].1
                    && events[j].0 in channels && channels[events[j].0] == active[j]
      {
        var fd := events[i].0;
        var channel := kernel[fd].channel;
        assert fd in channels && channels[fd] == channel && channel.fd == fd;
        channel.revents := events[i].1;
        active := active + [channel];
      }
    }
  }
}
