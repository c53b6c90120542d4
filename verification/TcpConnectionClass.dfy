/**
 TcpConnection as a class over a Channel, an EpollPoller and two Buffers. Each method does one step of
 TcpConnectionModel, so a run of the class is a run of the model.
*/
module TcpConnectionClass {
  import opened Common
  import opened NetworkOrder
  import opened PollerModel
  import opened PollerClass
  import opened BufferClass
  import opened TcpConnectionModel

  /** The interest that a mask stands for. */
  function Bits(events: bv16): Interest {
    Interest(events & READ_EVENT != 0, events & WRITE_EVENT != 0)
  }

  lemma BitsOfMask(i: Interest)
    ensures Bits(Mask(i)) == i
  {
  }

  lemma MaskChanges(i: Interest)
    ensures Mask(i) | READ_EVENT == Mask(i.(read := true))
    ensures Mask(i) & !READ_EVENT == Mask(i.(read := false))
    ensures Mask(i) | WRITE_EVENT == Mask(i.(write := true))
    ensures Mask(i) & !WRITE_EVENT == Mask(i.(write := false))
    ensures NONE_EVENT == Mask(NO_INTEREST)
  {
  }

  // ---------- what user code does in a callback ----------

  /** A call that user code makes on the connection from the loop thread. */
  datatype Call =
    | CallSend(msg: seq<Byte>, ans: Answer)
    | CallShutdown
    | CallForceClose
    | CallForceCloseWithDelay
    | CallStartRead
    | CallStopRead
    | CallRetrieve(n: nat)

  function Least(a: nat, b: nat): nat { if a < b then a else b }

  predicate CallOk(call: Call) {
    call.CallSend? ==> AnswerOk(call.ans, |call.msg|)
  }

  /** The steps of one call: in the loop thread, runInLoop calls the functor at once. */
  function CallSteps(c: Conn, call: Call): seq<TcpConnectionModel.Op> {
    match call
    case CallSend(msg, ans) => if c.state == Connected then [DoSend(msg, ans)] else []
    case CallShutdown => if c.state == Connected then [DoShutdown, DoShutdownInLoop] else []
    case CallForceClose => [DoForceClose]
    case CallForceCloseWithDelay => [DoForceCloseWithDelay]
    case CallStartRead => [DoStartRead]
    case CallStopRead => [DoStopRead]
    case CallRetrieve(n) => [DoRetrieve(Least(n, |c.input|))]
  }

  function UserSteps(c: Conn, calls: seq<Call>): seq<TcpConnectionModel.Op>
    decreases |calls|
  {
    if calls == [] then [] else
      var ops := CallSteps(c, calls[0]);
      ops + UserSteps(TcpConnectionModel.Execute(c, ops), calls[1..])
  }

  /** The kernel takes at most what it is offered. */
  function Clamp(room: Answer, len: nat): (ans: Answer)
    ensures AnswerOk(ans, len)
  {
    if room.Wrote? && len < room.n then Wrote(len) else room
  }

  function InputOf(answer: ReadAnswer): Input {
    match answer
    case ReadError(_) => ReadFailed
    case ReadBytes(bytes) => Got(bytes)
  }

  /** User code runs in the close callback, and in the read callback unless reading failed. */
  predicate CallsBack(h: Handler, input: Input) {
    h.OnClose? || (h.OnRead? && input.Got?)
  }

  /** The steps of one dispatch, with what user code does in its callback. */
  function EventSteps(c: Conn, handlers: seq<Handler>, input: Input, room: Answer, calls: seq<Call>): seq<TcpConnectionModel.Op>
    decreases |handlers|
  {
    if handlers == [] then [] else
      var handle := [DoHandle(input, Clamp(room, |c.output|))];
      var c1 := TcpConnectionModel.Execute(c, handle);
      var user := if CallsBack(handlers[0], input) then UserSteps(c1, calls) else [];
      handle + user + EventSteps(TcpConnectionModel.Execute(c1, user), handlers[1..], input, room, calls)
  }

  lemma {:induction false} EventStepsSnoc(c: Conn, a: seq<Handler>, h: Handler, input: Input, room: Answer, calls: seq<Call>)
    ensures var first := EventSteps(c, a, input, room, calls);
            EventSteps(c, a + [h], input, room, calls) ==
              first + EventSteps(TcpConnectionModel.Execute(c, first), [h], input, room, calls)
    decreases |a|
  {
    hide Clamp, TcpConnectionModel.Execute, UserSteps, CallsBack;
    if a == [] {
      assert a + [h] == [h];
      ExecuteNone(c);
    } else {
      assert (a + [h])[0] == a[0] && (a + [h])[1..] == a[1..] + [h];
      var handle := [DoHandle(input, Clamp(room, |c.output|))];
      var c1 := TcpConnectionModel.Execute(c, handle);
      var user := if CallsBack(a[0], input) then UserSteps(c1, calls) else [];
      var c2 := TcpConnectionModel.Execute(c1, user);
      EventStepsSnoc(c2, a[1..], h, input, room, calls);
      var later := EventSteps(c2, a[1..], input, room, calls);
      ExecuteConcat(c, handle, user);
      ExecuteConcat(c, handle + user, later);
    }
  }

  /** A send reaches sendInLoop exactly if the connection is connected. */
  lemma SendReaches(c: Conn, msg: seq<Byte>, ans: Answer)
    requires NoCloser(c.todo) && AnswerOk(ans, |msg|)
    ensures Sent(c, CallSteps(c, CallSend(msg, ans))) == if c.state == Connected then Worth(c, msg, ans) else []
  {
    hide TcpConnectionModel.Step, Worth;
    if c.state == Connected {
      assert [DoSend(msg, ans)][1..] == [];
      assert Sent(TcpConnectionModel.Step(c, DoSend(msg, ans)), []) == [];
      assert Worth(c, msg, ans) + [] == Worth(c, msg, ans);
    }
  }

  /** The other calls, in the loop thread, do at once what they do; a shutdown includes its functor. */
  lemma CallsAreMade(c: Conn, call: Call, r: Conn)
    requires r == TcpConnectionModel.Execute(c, CallSteps(c, call))
    ensures call.CallForceClose? ==> r == TcpConnectionModel.Step(c, DoForceClose)
    ensures call.CallForceCloseWithDelay? ==> r == TcpConnectionModel.Step(c, DoForceCloseWithDelay)
    ensures call.CallStartRead? ==> r == TcpConnectionModel.Step(c, DoStartRead)
    ensures call.CallStopRead? ==> r == TcpConnectionModel.Step(c, DoStopRead)
    ensures call.CallRetrieve? && call.n <= |c.input| ==> r == TcpConnectionModel.Step(c, DoRetrieve(call.n))
    ensures call.CallShutdown? && c.state == Connected ==>
              r == TcpConnectionModel.Step(TcpConnectionModel.Step(c, DoShutdown), DoShutdownInLoop)
  {
    hide TcpConnectionModel.Step, TcpConnectionModel.Execute;
    if call.CallShutdown? {
      ExecuteTwo(c, DoShutdown, DoShutdownInLoop);
    } else if |CallSteps(c, call)| == 1 {
      ExecuteOne(c, CallSteps(c, call)[0]);
    }
  }

  /** User code is called for bytes, for the end of the file and for a hang-up, and for nothing else. */
  lemma UserIsCalled(c: Conn, h: Handler, input: Input, room: Answer, calls: seq<Call>)
    ensures var handle := DoHandle(input, Clamp(room, |c.output|));
            EventSteps(c, [h], input, room, calls) ==
              [handle] + (if h == OnClose || (h == OnRead && input != ReadFailed)
                          then UserSteps(TcpConnectionModel.Step(c, handle), calls) else [])
  {
    hide TcpConnectionModel.Step, TcpConnectionModel.Execute, UserSteps, Clamp;
    var handle := DoHandle(input, Clamp(room, |c.output|));
    ExecuteOne(c, handle);
    assert [h][1..] == [];
    var user := if CallsBack(h, input) then UserSteps(TcpConnectionModel.Step(c, handle), calls) else [];
    assert [handle] + user + [] == [handle] + user;
  }

  predicate IsUserStep(op: TcpConnectionModel.Op) {
    op.DoForceClose? || op.DoForceCloseWithDelay? || op.DoStartRead? || op.DoStopRead? ||
    op.DoRetrieve? || (op.DoSend? && AnswerOk(op.ans, |op.msg|))
  }

  lemma UserStep(c: Conn, op: TcpConnectionModel.Op)
    requires c.state != Connecting && NoCloser(c.todo) && IsUserStep(op) && (op.DoRetrieve? ==> op.n <= |c.input|)
    ensures var r := TcpConnectionModel.Step(c, op);
            r == TcpConnectionModel.Apply(c, op) && r.todo == c.todo && r.revents == c.revents && r.state != Connecting
  {
    hide Mask, IndexAfter, NoCloser, TcpConnectionModel.SendInLoop, Dispatch;
    if op.DoSend? {
      SendKeeps(c, op.msg, op.ans);
    }
  }

  lemma HandlePops(c: Conn, op: TcpConnectionModel.Op)
    requires TcpConnectionModel.Enabled(c, op) && op.DoHandle?
    ensures var r := TcpConnectionModel.Step(c, op);
            r.todo == c.todo[1..] && r.revents == c.revents && (c.state != Connecting ==> r.state != Connecting)
  {
    hide Mask, IndexAfter, TcpConnectionModel.Step, TcpConnectionModel.HandleWrite;
    StepHandle(c, op.input, op.ans);
    WriteKeeps(c.(todo := c.todo[1..]), op.ans);
  }

  lemma NotBoth(revents: bv16)
    requires !OddHangup(revents)
    ensures !(Has(revents, POLLHUP) && !Has(revents, POLLIN) && Has(revents, POLLIN | POLLPRI | POLLRDHUP))
  {
  }

  function IfDue(due: bool, h: Handler): seq<Handler> {
    if due then [h] else []
  }

  lemma DispatchParts(revents: bv16, close: seq<Handler>, error: seq<Handler>, read: seq<Handler>, write: seq<Handler>)
    requires close == IfDue(Has(revents, POLLHUP) && !Has(revents, POLLIN), OnClose)
    requires error == IfDue(Has(revents, POLLERR | POLLNVAL), OnError)
    requires read == IfDue(Has(revents, POLLIN | POLLPRI | POLLRDHUP), OnRead)
    requires write == IfDue(Has(revents, POLLOUT), OnWrite)
    ensures Dispatch(revents) == close + (error + read + write) == [] + close + error + read + write
    ensures error + read + write == error + (read + write) && write == write + []
  {
    hide Has;
    assert [] + close + error + read + write == close + error + read + write == close + (error + read + write);
  }

  lemma NoStepsYet(c: Conn, input: Input, room: Answer, calls: seq<Call>)
    ensures EventSteps(c, [], input, room, calls) == []
  {
  }

  lemma ShutdownTwo(c: Conn)
    requires c.state == Connected && NoCloser(c.todo)
    ensures var r := TcpConnectionModel.ShutdownInLoop(c.(state := Disconnecting));
            && TcpConnectionModel.Step(TcpConnectionModel.Step(c, DoShutdown), DoShutdownInLoop) == r
            && r.state == Disconnecting && r.todo == c.todo && r.revents == c.revents
  {
    hide NoCloser;
  }

  lemma UserStepsNext(c: Conn, calls: seq<Call>, i: nat)
    requires i < |calls|
    ensures var steps := CallSteps(c, calls[i]);
            UserSteps(c, calls[i..]) == steps + UserSteps(TcpConnectionModel.Execute(c, steps), calls[i + 1..])
  {
    assert calls[i..][1..] == calls[i + 1..];
  }

  lemma UserStepsDone(c: Conn, calls: seq<Call>)
    requires calls == []
    ensures UserSteps(c, calls) == []
  {
  }

  lemma EventStepsOne(c: Conn, h: Handler, input: Input, room: Answer, calls: seq<Call>)
    ensures var c1 := TcpConnectionModel.Step(c, DoHandle(input, Clamp(room, |c.output|)));
            TcpConnectionModel.Execute(c, EventSteps(c, [h], input, room, calls)) ==
              TcpConnectionModel.Execute(c1, if CallsBack(h, input) then UserSteps(c1, calls) else [])
  {
    hide TcpConnectionModel.Step, TcpConnectionModel.Execute, CallsBack, UserSteps, Clamp;
    var handle := [DoHandle(input, Clamp(room, |c.output|))];
    ExecuteOne(c, handle[0]);
    var c1 := TcpConnectionModel.Execute(c, handle);
    var user := if CallsBack(h, input) then UserSteps(c1, calls) else [];
    assert [h][1..] == [];
    assert EventSteps(TcpConnectionModel.Execute(c1, user), [], input, room, calls) == [];
    assert EventSteps(c, [h], input, room, calls) == handle + user;
    ExecuteConcat(c, handle, user);
  }

  class TcpConnection {
    const channel: Channel
    const poller: EpollPoller
    const inputBuffer: Buffer
    const outputBuffer: Buffer
    var state: ConnState
    var reading: bool

    // what the event loop holds for this connection
    var reported: bool
    var todo: seq<Handler>
    var shutQ: nat
    var forceQ: nat
    var destroyed: bool

    // history
    ghost var accepted: seq<Byte>
    ghost var shuts: seq<ShutEvent>
    ghost var ups: nat
    ghost var downs: nat
    ghost var closes: nat
    ghost var fault: bool

    /** No other channel of the descriptor is in the poller's map while this one is not. */
    ghost predicate Valid()
      reads this, channel, poller, poller.live, inputBuffer, outputBuffer
    {
      && inputBuffer.Valid() && outputBuffer.Valid() && inputBuffer != outputBuffer
      && inputBuffer.data != outputBuffer.data
      && poller.Valid() && channel in poller.live && Mask(Bits(channel.events)) == channel.events
      && (channel.index == New ==> channel.fd !in poller.channels)
    }

    ghost function Abs(): Conn
      requires Valid()
      reads this, channel, poller, poller.live, inputBuffer, inputBuffer.data, outputBuffer, outputBuffer.data
    {
      Conn(state, reading, Bits(channel.events), channel.index, inputBuffer.Contents(), outputBuffer.Contents(),
           if reported then Some(channel.revents) else None, todo, shutQ, forceQ,
           destroyed, accepted, shuts, ups, downs, closes, fault)
    }

    constructor (poller: EpollPoller, fd: Fd, reading: bool)
      requires poller.Valid()
      modifies poller`live
      ensures poller.Valid() && (Valid() <==> fd !in poller.channels)
      ensures Valid() ==> Abs() == TcpConnectionModel.Init(reading)
      ensures this.poller == poller && fresh(channel) && channel.fd == fd && poller.live == old(poller.live) + {channel}
      ensures fresh(inputBuffer) && fresh(inputBuffer.data) && fresh(outputBuffer) && fresh(outputBuffer.data)
    {
      hide Agree;
      this.poller := poller;
      channel := new Channel(fd);
      inputBuffer := new Buffer(1024);
      outputBuffer := new Buffer(1024);
      state, this.reading := Connecting, reading;
      reported, todo, shutQ, forceQ, destroyed := false, [], 0, 0, false;
      accepted, shuts, ups, downs, closes, fault := [], [], 0, 0, 0, false;
      new;
      BitsOfMask(NO_INTEREST);
      poller.Adopt(channel);
    }

    /** The fields, as parts of the abstract value. */
    lemma View()
      requires Valid()
      ensures var c := Abs();
              && c.state == state && c.reading == reading && c.index == channel.index && c.todo == todo
              && c.revents == (if reported then Some(channel.revents) else None)
      ensures inputBuffer != outputBuffer && inputBuffer.data != outputBuffer.data
    {
    }

    predicate IsWriting(): (r: bool)
      requires Valid()
      reads this, channel, poller, poller.live, inputBuffer, inputBuffer.data, outputBuffer, outputBuffer.data
      ensures r == Abs().interest.write
    {
      channel.events & WRITE_EVENT != 0
    }

    predicate IsReading(): (r: bool)
      requires Valid()
      reads this, channel, poller, poller.live, inputBuffer, inputBuffer.data, outputBuffer, outputBuffer.data
      ensures r == Abs().interest.read
    {
      channel.events & READ_EVENT != 0
    }

    function OutputBytes(): (n: nat)
      requires Valid()
      reads this, channel, poller, poller.live, inputBuffer, inputBuffer.data, outputBuffer, outputBuffer.data
      ensures n == |Abs().output|
    {
      outputBuffer.ReadableBytes()
    }

    function InputBytes(): (n: nat)
      requires Valid()
      reads this, channel, poller, poller.live, inputBuffer, inputBuffer.data, outputBuffer, outputBuffer.data
      ensures n == |Abs().input|
    {
      inputBuffer.ReadableBytes()
    }

    // ---------- one change at a time ----------

    method SetState(s: ConnState)
      requires Valid()
      modifies this`state
      ensures Valid() && Abs() == old(Abs()).(state := s)
    {
      hide Agree, Mask, Bits, EpollPoller.Valid, EpollPoller.Abs;
      state := s;
    }

    method SetReading(on: bool)
      requires Valid()
      modifies this`reading
      ensures Valid() && Abs() == old(Abs()).(reading := on)
    {
      hide Agree, Mask, Bits, EpollPoller.Valid, EpollPoller.Abs;
      reading := on;
    }

    /** The user's connection callback: UP while connected, else DOWN. */
    method ConnectionCallback()
      requires Valid()
      modifies this`ups, this`downs
      ensures Valid()
      ensures var c := old(Abs());
              Abs() == if c.state == Connected then c.(ups := c.ups + 1) else c.(downs := c.downs + 1)
    {
      hide Agree, Mask, Bits, EpollPoller.Valid, EpollPoller.Abs;
      if state == Connected {
        ups := ups + 1;
      } else {
        downs := downs + 1;
      }
    }

    method CloseCallback()
      requires Valid()
      modifies this`closes
      ensures Valid() && Abs() == old(Abs()).(closes := old(Abs()).closes + 1)
    {
      hide Agree, Mask, Bits, EpollPoller.Valid, EpollPoller.Abs;
      closes := closes + 1;
    }

    /** An assert of the source. */
    ghost method Check(condition: bool)
      requires Valid()
      modifies this`fault
      ensures Valid() && Abs() == old(Abs()).(fault := old(Abs()).fault || !condition)
    {
      hide Agree, Mask, Bits, EpollPoller.Valid, EpollPoller.Abs;
      fault := fault || !condition;
    }

    /** SHUT_WR on the socket. */
    method ShutdownWrite()
      requires Valid()
      modifies this`shuts
      ensures Valid() && Abs() == old(Abs()).(shuts := old(Abs()).shuts + [ShutEvent(old(Abs()).state, old(Abs()).output)])
    {
      hide Agree, Mask, Bits, EpollPoller.Valid, EpollPoller.Abs;
      shuts := shuts + [ShutEvent(state, outputBuffer.Contents())];
    }

    /** The kernel took these bytes. */
    ghost method Accepted(bytes: seq<Byte>)
      requires Valid()
      modifies this`accepted
      ensures Valid() && Abs() == old(Abs()).(accepted := old(Abs()).accepted + bytes)
    {
      hide Agree, Mask, Bits, EpollPoller.Valid, EpollPoller.Abs;
      accepted := accepted + bytes;
    }

    method QueueShutdownFunctor()
      requires Valid()
      modifies this`shutQ
      ensures Valid() && Abs() == old(Abs()).(shutQ := old(Abs()).shutQ + 1)
    {
      hide Agree, Mask, Bits, EpollPoller.Valid, EpollPoller.Abs;
      shutQ := shutQ + 1;
    }

    method QueueForceClose()
      requires Valid()
      modifies this`forceQ
      ensures Valid() && Abs() == old(Abs()).(forceQ := old(Abs()).forceQ + 1)
    {
      hide Agree, Mask, Bits, EpollPoller.Valid, EpollPoller.Abs;
      forceQ := forceQ + 1;
    }

    method PopCallback(ghost answer: ReadAnswer)
      requires Valid() && todo != []
      modifies this`todo
      ensures Valid() && Abs() == old(Abs()).(todo := old(Abs()).todo[1..])
      ensures MayGive(answer) == old(MayGive(answer))
    {
      hide Agree, Mask, Bits, EpollPoller.Valid, EpollPoller.Abs;
      todo := todo[1..];
    }

    /** The callbacks for the reported events are going to be made. */
    method BeginDispatch(ghost answer: ReadAnswer)
      requires Valid() && reported && todo == []
      modifies this`reported, this`todo
      ensures Valid() && Abs() == TcpConnectionModel.Step(old(Abs()), DoDispatch)
      ensures !reported && todo == Dispatch(channel.revents) && MayGive(answer) == old(MayGive(answer))
    {
      hide Agree, Mask, Bits, EpollPoller.Valid, EpollPoller.Abs, Dispatch;
      reported, todo := false, Dispatch(channel.revents);
    }

    /** What the kernel did not take is kept. */
    method AppendOutput(rest: seq<Byte>)
      requires Valid()
      modifies outputBuffer, outputBuffer.data
      ensures Valid() && Abs() == old(Abs()).(output := old(Abs()).output + rest)
      ensures outputBuffer.data == old(outputBuffer.data) || fresh(outputBuffer.data)
    {
      hide Agree, Mask, Bits, EpollPoller.Valid, EpollPoller.Abs;
      ghost var was := Abs();
      outputBuffer.Append(rest);
      assert outputBuffer.Contents() == was.output + rest && inputBuffer.Contents() == was.input;
      assert Bits(channel.events) == was.interest;
    }

    /** What the kernel took leaves the buffer. */
    method RetrieveOutput(n: nat)
      requires Valid() && n <= |Abs().output|
      modifies outputBuffer`readerIndex, outputBuffer`writerIndex
      ensures Valid() && Abs() == old(Abs()).(output := old(Abs()).output[n..])
    {
      hide Agree, Mask, Bits, EpollPoller.Valid, EpollPoller.Abs;
      ghost var was := Abs();
      outputBuffer.Retrieve(n);
      assert outputBuffer.Contents() == was.output[n..] && inputBuffer.Contents() == was.input;
      assert Bits(channel.events) == was.interest;
      assert poller.Valid() && inputBuffer.Valid() && outputBuffer.Valid();
    }

    /** What user code takes out of the input buffer. */
    method RetrieveInput(n: nat)
      requires Valid() && n <= |Abs().input|
      modifies inputBuffer`readerIndex, inputBuffer`writerIndex
      ensures Valid() && Abs() == old(Abs()).(input := old(Abs()).input[n..])
    {
      hide Agree, Mask, Bits, EpollPoller.Valid, EpollPoller.Abs;
      ghost var was := Abs();
      inputBuffer.Retrieve(n);
      assert inputBuffer.Contents() == was.input[n..] && outputBuffer.Contents() == was.output;
      assert Bits(channel.events) == was.interest;
      assert poller.Valid() && inputBuffer.Valid() && outputBuffer.Valid();
    }

    /** inputBuffer_.readFd. */
    method ReadInput(answer: ReadAnswer) returns (n: int)
      requires Valid() && MayGive(answer)
      modifies inputBuffer, inputBuffer.data
      ensures Valid()
      ensures var c, bytes := old(Abs()), if answer.ReadBytes? then answer.bytes else [];
              Abs() == c.(input := c.input + bytes)
      ensures n == if answer.ReadBytes? then |answer.bytes| else -1
      ensures inputBuffer.data == old(inputBuffer.data) || fresh(inputBuffer.data)
    {
      hide Agree, Mask, Bits, EpollPoller.Valid, EpollPoller.Abs;
      ghost var was, bytes := Abs(), if answer.ReadBytes? then answer.bytes else [];
      n := inputBuffer.ReadFd(answer);
      assert inputBuffer.Contents() == was.input + bytes && outputBuffer.Contents() == was.output;
      assert Bits(channel.events) == was.interest;
    }

    method EnableReading()
      requires Valid()
      modifies channel`events, channel`index, channel`addedToLoop, poller`channels, poller`kernel
      ensures Valid() && Abs() == Update(old(Abs()), old(Abs()).interest.(read := true))
    {
      hide Agree, Mask, Bits, IndexAfter, EpollPoller.Valid, EpollPoller.Abs, PollerModel.Step, PollerModel.Enabled;
      MaskChanges(Bits(channel.events));
      BitsOfMask(Bits(channel.events).(read := true));
      ghost var was := Abs();
      channel.EnableReading(poller);
      assert inputBuffer.Contents() == was.input && outputBuffer.Contents() == was.output;
      assert Bits(channel.events) == was.interest.(read := true) && channel.revents == old(channel.revents);
    }

    method DisableReading()
      requires Valid()
      modifies channel`events, channel`index, channel`addedToLoop, poller`channels, poller`kernel
      ensures Valid() && Abs() == Update(old(Abs()), old(Abs()).interest.(read := false))
    {
      hide Agree, Mask, Bits, IndexAfter, EpollPoller.Valid, EpollPoller.Abs, PollerModel.Step, PollerModel.Enabled;
      MaskChanges(Bits(channel.events));
      BitsOfMask(Bits(channel.events).(read := false));
      ghost var was := Abs();
      channel.DisableReading(poller);
      assert inputBuffer.Contents() == was.input && outputBuffer.Contents() == was.output;
      assert Bits(channel.events) == was.interest.(read := false) && channel.revents == old(channel.revents);
    }

    method EnableWriting()
      requires Valid()
      modifies channel`events, channel`index, channel`addedToLoop, poller`channels, poller`kernel
      ensures Valid() && Abs() == Update(old(Abs()), old(Abs()).interest.(write := true))
    {
      hide Agree, Mask, Bits, IndexAfter, EpollPoller.Valid, EpollPoller.Abs, PollerModel.Step, PollerModel.Enabled;
      MaskChanges(Bits(channel.events));
      BitsOfMask(Bits(channel.events).(write := true));
      ghost var was := Abs();
      channel.EnableWriting(poller);
      assert inputBuffer.Contents() == was.input && outputBuffer.Contents() == was.output;
      assert Bits(channel.events) == was.interest.(write := true) && channel.revents == old(channel.revents);
    }

    method DisableWriting()
      requires Valid()
      modifies channel`events, channel`index, channel`addedToLoop, poller`channels, poller`kernel
      ensures Valid() && Abs() == Update(old(Abs()), old(Abs()).interest.(write := false))
    {
      hide Agree, Mask, Bits, IndexAfter, EpollPoller.Valid, EpollPoller.Abs, PollerModel.Step, PollerModel.Enabled;
      MaskChanges(Bits(channel.events));
      BitsOfMask(Bits(channel.events).(write := false));
      ghost var was := Abs();
      channel.DisableWriting(poller);
      assert inputBuffer.Contents() == was.input && outputBuffer.Contents() == was.output;
      assert Bits(channel.events) == was.interest.(write := false) && channel.revents == old(channel.revents);
    }

    method DisableAll()
      requires Valid()
      modifies channel`events, channel`index, channel`addedToLoop, poller`channels, poller`kernel
      ensures Valid() && Abs() == Update(old(Abs()), NO_INTEREST)
    {
      hide Agree, Mask, Bits, IndexAfter, EpollPoller.Valid, EpollPoller.Abs, PollerModel.Step, PollerModel.Enabled;
      MaskChanges(Bits(channel.events));
      BitsOfMask(NO_INTEREST);
      ghost var was := Abs();
      channel.DisableAll(poller);
      assert inputBuffer.Contents() == was.input && outputBuffer.Contents() == was.output;
      assert Bits(channel.events) == NO_INTEREST && channel.revents == old(channel.revents);
    }

    method RemoveChannel()
      requires Valid() && channel.index != New && channel.IsNoneEvent()
      modifies this`destroyed, channel`index, channel`addedToLoop, poller`channels, poller`kernel
      ensures Valid() && Abs() == old(Abs()).(index := New, destroyed := true)
    {
      hide Agree, Mask, Bits, PollerModel.Step, PollerModel.Enabled;
      channel.Remove(poller);
      destroyed := true;
    }

    // ---------- the functions of the connection ----------

    method ConnectEstablished()
      requires Valid() && state == Connecting
      modifies this, channel, poller`channels, poller`kernel
      ensures Valid() && Abs() == Establish(old(Abs()))
    {
      hide Valid, Abs, IndexAfter, Mask;
      View();
      SetState(Connected);
      EnableReading();
      ConnectionCallback();
    }

    /** The part of sendInLoop that keeps what the kernel did not take. */
    method Enqueue(rest: seq<Byte>)
      requires Valid()
      modifies channel, poller`channels, poller`kernel, outputBuffer, outputBuffer.data
      ensures Valid() && Abs() == TcpConnectionModel.Enqueue(old(Abs()), rest)
      ensures outputBuffer.data == old(outputBuffer.data) || fresh(outputBuffer.data)
    {
      hide Valid, Abs, IndexAfter, Mask;
      AppendOutput(rest);
      if !IsWriting() {
        EnableWriting();
      }
    }

    /** The first part of sendInLoop. */
    method WriteDirectly(ans: Answer) returns (wrote: nat, faultError: bool)
      requires Valid()
      ensures wrote == WrittenDirectly(Abs(), ans) && faultError == Discards(Abs(), ans)
    {
      hide Valid, Abs;
      wrote, faultError := 0, false;
      if !IsWriting() && OutputBytes() == 0 {
        match ans
        case Wrote(n) => wrote := n;
        case Failed(errno) => faultError := errno == BrokenPipe || errno == ConnReset;
      }
    }

    method SendInLoop(data: seq<Byte>, ans: Answer)
      requires Valid() && AnswerOk(ans, |data|)
      modifies this, channel, poller`channels, poller`kernel, outputBuffer, outputBuffer.data
      ensures Valid() && Abs() == TcpConnectionModel.SendInLoop(old(Abs()), data, ans)
      ensures outputBuffer.data == old(outputBuffer.data) || fresh(outputBuffer.data)
    {
      hide Valid, Abs, TcpConnectionModel.Enqueue, WrittenDirectly, Discards;
      View();
      if state == Disconnected {
        return;
      }
      var wrote, faultError := WriteDirectly(ans);
      Accepted(data[..wrote]);
      var remaining := |data| - wrote;
      if !faultError && remaining > 0 {
        Enqueue(data[wrote..]);
      }
    }

    method ShutdownInLoop()
      requires Valid()
      modifies this, channel, poller`channels, poller`kernel
      ensures Valid() && Abs() == TcpConnectionModel.ShutdownInLoop(old(Abs()))
    {
      hide Valid, Abs;
      if !IsWriting() {
        ShutdownWrite();
      }
    }

    /** shutdown called from another thread. */
    method QueueShutdown()
      requires Valid()
      modifies this, channel, poller`channels, poller`kernel
      ensures Valid() && Abs() == TcpConnectionModel.Shutdown(old(Abs()))
    {
      hide Valid, Abs;
      View();
      if state == Connected {
        SetState(Disconnecting);
        QueueShutdownFunctor();
      }
    }

    /** shutdown called from the loop thread: the functor runs at once. */
    method Shutdown()
      requires Valid()
      requires NoCloser(todo)
      modifies this, channel, poller`channels, poller`kernel
      ensures Valid() && Abs() == TcpConnectionModel.Execute(old(Abs()), CallSteps(old(Abs()), CallShutdown))
      ensures todo == old(todo) && reported == old(reported) && (old(state) != Connecting ==> state != Connecting)
    {
      hide Valid, Abs, TcpConnectionModel.Step;
      ghost var was := Abs();
      View();
      if state == Connected {
        SetState(Disconnecting);
        ShutdownInLoop();
        ExecuteTwo(was, DoShutdown, DoShutdownInLoop);
        ShutdownTwo(was);
        View();
      }
    }

    method ForceClose()
      requires Valid()
      modifies this, channel, poller`channels, poller`kernel
      ensures Valid() && Abs() == TcpConnectionModel.ForceClose(old(Abs()))
    {
      hide Valid, Abs;
      View();
      if state == Connected || state == Disconnecting {
        SetState(Disconnecting);
        QueueForceClose();
      }
    }

    /** The timer calls ForceClose later. */
    method ForceCloseWithDelay()
      requires Valid()
      modifies this, channel, poller`channels, poller`kernel
      ensures Valid() && Abs() == TcpConnectionModel.Step(old(Abs()), DoForceCloseWithDelay)
    {
      hide Valid, Abs;
      View();
      if state == Connected || state == Disconnecting {
        SetState(Disconnecting);
      }
    }

    method HandleClose()
      requires Valid()
      modifies this, channel, poller`channels, poller`kernel
      ensures Valid() && Abs() == TcpConnectionModel.HandleClose(old(Abs()))
    {
      hide Valid, Abs, IndexAfter, Mask;
      View();
      Check(state == Connected || state == Disconnecting);
      SetState(Disconnected);
      DisableAll();
      ConnectionCallback();
      CloseCallback();
    }

    method ForceCloseInLoop()
      requires Valid()
      modifies this, channel, poller`channels, poller`kernel
      ensures Valid() && Abs() == TcpConnectionModel.ForceCloseInLoop(old(Abs()))
    {
      hide Valid, Abs, TcpConnectionModel.HandleClose;
      View();
      if state == Connected || state == Disconnecting {
        HandleClose();
      }
    }

    /** The kernel gives at most what readFd offers. */
    ghost predicate MayGive(answer: ReadAnswer)
      requires Valid()
      reads this, channel, poller, poller.live, inputBuffer, outputBuffer
    {
      answer.ReadBytes? ==> inputBuffer.Offered(|answer.bytes|)
    }

    /** readFd, and the close at the end of the file; user code follows (Callback). */
    method HandleRead(answer: ReadAnswer)
      requires Valid() && MayGive(answer)
      modifies this, channel, poller`channels, poller`kernel, inputBuffer, inputBuffer.data
      ensures Valid() && Abs() == TcpConnectionModel.HandleRead(old(Abs()), InputOf(answer))
      ensures inputBuffer.data == old(inputBuffer.data) || fresh(inputBuffer.data)
    {
      hide Valid, Abs, MayGive, TcpConnectionModel.HandleClose;
      ghost var was := Abs();
      var n := ReadInput(answer);
      assert was.input + [] == was.input;
      if n == 0 {
        HandleClose();
      }
    }

    method HandleWrite(ans: Answer)
      requires Valid() && AnswerOk(ans, |Abs().output|)
      modifies this, channel, poller`channels, poller`kernel, outputBuffer`readerIndex, outputBuffer`writerIndex
      ensures Valid() && Abs() == TcpConnectionModel.HandleWrite(old(Abs()), ans)
    {
      hide Valid, Abs, IndexAfter, Mask;
      View();
      if IsWriting() {
        if ans.Wrote? && ans.n > 0 {
          Accepted(Abs().output[..ans.n]);
          RetrieveOutput(ans.n);
          if OutputBytes() == 0 {
            DisableWriting();
            View();
            if state == Disconnecting {
              ShutdownInLoop();
            }
          }
        }
      }
    }

    method StartReadInLoop()
      requires Valid()
      modifies this, channel, poller`channels, poller`kernel
      ensures Valid() && Abs() == StartRead(old(Abs()))
    {
      hide Valid, Abs, IndexAfter, Mask;
      View();
      if !reading || !IsReading() {
        EnableReading();
        SetReading(true);
      }
    }

    method StopReadInLoop()
      requires Valid()
      modifies this, channel, poller`channels, poller`kernel
      ensures Valid() && Abs() == StopRead(old(Abs()))
    {
      hide Valid, Abs, IndexAfter, Mask;
      View();
      if reading || IsReading() {
        DisableReading();
        SetReading(false);
      }
    }

    /** The precondition is the asserts of Channel::remove and removeChannel. */
    method ConnectDestroyed()
      requires Valid() && channel.index != New && (state == Connected || channel.IsNoneEvent())
      modifies this, channel, poller`channels, poller`kernel
      ensures Valid() && Abs() == Destroy(old(Abs()))
    {
      hide Valid, Abs, IndexAfter, Mask, Bits;
      View();
      if state == Connected {
        SetState(Disconnected);
        DisableAll();
        ConnectionCallback();
        NoInterest();
      }
      RemoveChannel();
    }

    /** Without interest in the abstract value, the channel has none, and after an update it is known. */
    lemma NoInterest()
      requires Valid() && Abs().interest == NO_INTEREST && !Abs().index.New?
      ensures channel.IsNoneEvent() && channel.index != New
    {
    }

    // ---------- user code and dispatch ----------

    /** send, shutdown, forceClose, startRead, stopRead or a retrieve called from the loop thread. */
    method Perform(call: Call)
      requires Valid() && CallOk(call) && state != Connecting && NoCloser(todo)
      modifies this, channel, poller`channels, poller`kernel, inputBuffer, outputBuffer, outputBuffer.data
      ensures Valid() && Abs() == TcpConnectionModel.Execute(old(Abs()), CallSteps(old(Abs()), call))
      ensures state != Connecting && todo == old(todo) && reported == old(reported)
      ensures inputBuffer.data == old(inputBuffer.data)
      ensures outputBuffer.data == old(outputBuffer.data) || fresh(outputBuffer.data)
    {
      hide Valid, Abs, TcpConnectionModel.Execute, TcpConnectionModel.Step;
      hide TcpConnectionModel.SendInLoop, TcpConnectionModel.ForceClose, StartRead, StopRead;
      ghost var was := Abs();
      View();
      match call {
        case CallSend(msg, ans) =>
          if state == Connected {
            SendInLoop(msg, ans);
            ExecuteOne(was, DoSend(msg, ans));
            UserStep(was, DoSend(msg, ans));
          } else {
            ExecuteNone(was);
          }
        case CallShutdown =>
          Shutdown();
          View();
        case CallForceClose =>
          ForceClose();
          ExecuteOne(was, DoForceClose);
          UserStep(was, DoForceClose);
        case CallForceCloseWithDelay =>
          ForceCloseWithDelay();
          ExecuteOne(was, DoForceCloseWithDelay);
          UserStep(was, DoForceCloseWithDelay);
        case CallStartRead =>
          StartReadInLoop();
          ExecuteOne(was, DoStartRead);
          UserStep(was, DoStartRead);
        case CallStopRead =>
          StopReadInLoop();
          ExecuteOne(was, DoStopRead);
          UserStep(was, DoStopRead);
        case CallRetrieve(n) =>
          var k := Least(n, InputBytes());
          RetrieveInput(k);
          ExecuteOne(was, DoRetrieve(k));
          UserStep(was, DoRetrieve(k));
      }
      View();
    }

    method UserCode(calls: seq<Call>)
      requires Valid() && state != Connecting && NoCloser(todo)
      requires forall i :: 0 <= i < |calls| ==> CallOk(calls[i])
      modifies this, channel, poller`channels, poller`kernel, inputBuffer, outputBuffer, outputBuffer.data
      ensures Valid() && Abs() == TcpConnectionModel.Execute(old(Abs()), UserSteps(old(Abs()), calls))
      ensures state != Connecting && todo == old(todo) && reported == old(reported)
      ensures inputBuffer.data == old(inputBuffer.data)
      ensures outputBuffer.data == old(outputBuffer.data) || fresh(outputBuffer.data)
    {
      hide Valid, Abs, TcpConnectionModel.Execute, CallSteps;
      ghost var steps: seq<TcpConnectionModel.Op> := [];
      ExecuteNone(Abs());
      for i := 0 to |calls|
        invariant Valid() && state != Connecting && todo == old(todo) && reported == old(reported)
        invariant inputBuffer.data == old(inputBuffer.data)
        invariant outputBuffer.data == old(outputBuffer.data) || fresh(outputBuffer.data)
        invariant Abs() == TcpConnectionModel.Execute(old(Abs()), steps)
        invariant UserSteps(old(Abs()), calls) == steps + UserSteps(Abs(), calls[i..])
      {
        ghost var was := Abs();
        Perform(calls[i]);
        ghost var more := CallSteps(was, calls[i]);
        UserStepsNext(was, calls, i);
        ExecuteConcat(old(Abs()), steps, more);
        steps := steps + more;
      }
      UserStepsDone(Abs(), calls[|calls|..]);
      assert steps + [] == steps;
    }

    /** The next callback of a dispatch, without user code. */
    method Handle(h: Handler, answer: ReadAnswer, ans: Answer)
      requires Valid() && todo != [] && todo[0] == h && AnswerOk(ans, |Abs().output|)
      requires h == OnRead ==> MayGive(answer)
      modifies this, channel, poller`channels, poller`kernel
      modifies inputBuffer, inputBuffer.data, outputBuffer, outputBuffer.data
      ensures Valid() && Abs() == TcpConnectionModel.Step(old(Abs()), DoHandle(InputOf(answer), ans))
      ensures h == OnError ==> MayGive(answer) == old(MayGive(answer))
      ensures inputBuffer.data == old(inputBuffer.data) || fresh(inputBuffer.data)
      ensures outputBuffer.data == old(outputBuffer.data) || fresh(outputBuffer.data)
    {
      hide Valid, Abs, MayGive;
      hide TcpConnectionModel.HandleClose, TcpConnectionModel.HandleRead, TcpConnectionModel.HandleWrite;
      ghost var was := Abs();
      View();
      StepHandle(was, InputOf(answer), ans);
      PopCallback(answer);
      match h
      case OnClose => HandleClose();
      case OnError =>
      case OnRead => HandleRead(answer);
      case OnWrite => HandleWrite(ans);
    }

    /** The next callback of a dispatch, with the user code that it runs. */
    method Callback(h: Handler, answer: ReadAnswer, room: Answer, calls: seq<Call>)
      requires Valid() && todo != [] && todo[0] == h && OneCloser(todo) && state != Connecting
      requires h == OnRead ==> MayGive(answer)
      requires forall i :: 0 <= i < |calls| ==> CallOk(calls[i])
      modifies this, channel, poller`channels, poller`kernel
      modifies inputBuffer, inputBuffer.data, outputBuffer, outputBuffer.data
      ensures Valid()
      ensures Abs() == TcpConnectionModel.Execute(old(Abs()), EventSteps(old(Abs()), [h], InputOf(answer), room, calls))
      ensures state != Connecting && todo == old(todo[1..]) && reported == old(reported)
      ensures h == OnError ==> MayGive(answer) == old(MayGive(answer))
      ensures inputBuffer.data == old(inputBuffer.data) || fresh(inputBuffer.data)
      ensures outputBuffer.data == old(outputBuffer.data) || fresh(outputBuffer.data)
    {
      hide Valid, Abs, MayGive, TcpConnectionModel.Execute, UserSteps, TcpConnectionModel.Step;
      ghost var was, input := Abs(), InputOf(answer);
      View();
      TailCloser(todo);
      ghost var op := DoHandle(input, Clamp(room, |was.output|));
      HandlePops(was, op);
      Handle(h, answer, Clamp(room, OutputBytes()));
      ExecuteOne(was, op);
      ghost var c1 := Abs();
      View();
      if CallsBack(h, InputOf(answer)) {
        UserCode(calls);
      } else {
        ExecuteNone(c1);
      }
      EventStepsOne(was, h, input, room, calls);
    }

    /** What a dispatch has done after the callbacks `done`, of which `c0.todo` is the whole list. */
    ghost predicate Progress(c0: Conn, done: seq<Handler>, input: Input, room: Answer, calls: seq<Call>)
      requires Valid()
      reads this, channel, poller, poller.live, inputBuffer, inputBuffer.data, outputBuffer, outputBuffer.data
    {
      && c0.todo == done + todo && OneCloser(todo) && state != Connecting && !reported
      && Abs() == TcpConnectionModel.Execute(c0, EventSteps(c0, done, input, room, calls))
    }

    /** Makes the callback `h` if it is due; `rest` are the callbacks after it. */
    method CallIf(due: bool, h: Handler, answer: ReadAnswer, room: Answer, calls: seq<Call>,
                  ghost c0: Conn, ghost done: seq<Handler>, ghost rest: seq<Handler>)
      requires Valid() && Progress(c0, done, InputOf(answer), room, calls) && todo == IfDue(due, h) + rest
      requires due && h == OnRead ==> MayGive(answer)
      requires forall i :: 0 <= i < |calls| ==> CallOk(calls[i])
      modifies this, channel, poller`channels, poller`kernel
      modifies inputBuffer, inputBuffer.data, outputBuffer, outputBuffer.data
      ensures Valid() && Progress(c0, done + IfDue(due, h), InputOf(answer), room, calls) && todo == rest
      ensures !due || h == OnError ==> MayGive(answer) == old(MayGive(answer))
      ensures inputBuffer.data == old(inputBuffer.data) || fresh(inputBuffer.data)
      ensures outputBuffer.data == old(outputBuffer.data) || fresh(outputBuffer.data)
    {
      hide Valid, MayGive, TcpConnectionModel.Execute, EventSteps;
      if due {
        TailCloser(todo);
        ghost var first := EventSteps(c0, done, InputOf(answer), room, calls);
        EventStepsSnoc(c0, done, h, InputOf(answer), room, calls);
        ghost var more := EventSteps(Abs(), [h], InputOf(answer), room, calls);
        Callback(h, answer, room, calls);
        ExecuteConcat(c0, first, more);
      } else {
        assert done + [] == done && [] + rest == rest;
      }
    }

    /** The four kinds of callback, in the order of the source. */
    method RunCallbacks(revents: bv16, answer: ReadAnswer, room: Answer, calls: seq<Call>, ghost c0: Conn)
      requires Valid() && todo == Dispatch(revents) && Progress(c0, [], InputOf(answer), room, calls)
      requires !OddHangup(revents) && MayGive(answer)
      requires forall i :: 0 <= i < |calls| ==> CallOk(calls[i])
      modifies this, channel, poller`channels, poller`kernel
      modifies inputBuffer, inputBuffer.data, outputBuffer, outputBuffer.data
      ensures Valid() && Progress(c0, Dispatch(revents), InputOf(answer), room, calls) && todo == []
      ensures inputBuffer.data == old(inputBuffer.data) || fresh(inputBuffer.data)
      ensures outputBuffer.data == old(outputBuffer.data) || fresh(outputBuffer.data)
    {
      hide Valid, MayGive, Progress, Dispatch, IfDue;
      NotBoth(revents);
      hide Has, OddHangup;
      var close, error := Has(revents, POLLHUP) && !Has(revents, POLLIN), Has(revents, POLLERR | POLLNVAL);
      var read, write := Has(revents, POLLIN | POLLPRI | POLLRDHUP), Has(revents, POLLOUT);
      ghost var c, e, r, w := IfDue(close, OnClose), IfDue(error, OnError), IfDue(read, OnRead), IfDue(write, OnWrite);
      DispatchParts(revents, c, e, r, w);
      CallIf(close, OnClose, answer, room, calls, c0, [], e + r + w);
      CallIf(error, OnError, answer, room, calls, c0, [] + c, r + w);
      CallIf(read, OnRead, answer, room, calls, c0, [] + c + e, w);
      CallIf(write, OnWrite, answer, room, calls, c0, [] + c + e + r, []);
    }

    /** Poller::poll reports events for this channel. */
    method Report(revents: bv16)
      requires Valid() && channel.index.Added? && !reported && todo == [] && !OddHangup(revents)
      modifies channel`revents, this`reported
      ensures Valid() && Abs() == TcpConnectionModel.Step(old(Abs()), DoPoll(revents))
    {
      hide Agree, Mask, Bits, TcpConnectionModel.Step;
      StepPoll(Abs(), revents);
      channel.revents := revents;
      reported := true;
      assert poller.Abs() == old(poller.Abs());
    }

    /**
     handleEventWithGuard for the events that were reported, with the user code that its callbacks
     run. The channel may have lost its registration since the report.
    */
    method HandleEvent(answer: ReadAnswer, room: Answer, calls: seq<Call>)
      requires Valid() && reported && todo == [] && state != Connecting && !OddHangup(channel.revents) && MayGive(answer)
      requires forall i :: 0 <= i < |calls| ==> CallOk(calls[i])
      modifies this, channel, poller`channels, poller`kernel
      modifies inputBuffer, inputBuffer.data, outputBuffer, outputBuffer.data
      ensures Valid() && todo == [] && !reported
      ensures var c := TcpConnectionModel.Step(old(Abs()), DoDispatch);
              Abs() == TcpConnectionModel.Execute(c, EventSteps(c, Dispatch(old(channel.revents)), InputOf(answer), room, calls))
      ensures inputBuffer.data == old(inputBuffer.data) || fresh(inputBuffer.data)
      ensures outputBuffer.data == old(outputBuffer.data) || fresh(outputBuffer.data)
    {
      hide Valid, MayGive, TcpConnectionModel.Execute, EventSteps, OddHangup, OneCloser, TcpConnectionModel.Step, Dispatch;
      var revents := channel.revents;
      DispatchClosers(revents);
      View();
      StepDispatch(Abs());
      BeginDispatch(answer);
      ghost var c0 := Abs();
      View();
      ExecuteNone(c0);
      NoStepsYet(c0, InputOf(answer), room, calls);
      RunCallbacks(revents, answer, room, calls, c0);
    }
  }
}
