/**
 A TCP connection: its life cycle, its output path, and the registration of its channel. The steps
 are the handlers and in-loop functions. User code runs between them: in the connection's own
 callbacks, and in those of other channels between the poll that reports an event and its dispatch.
*/
module TcpConnectionModel {
  import opened Common
  import opened NetworkOrder
  import opened PollerModel

  datatype ConnState = Connecting | Connected | Disconnecting | Disconnected

  /** The two kinds of interest in events_. */
  datatype Interest = Interest(read: bool, write: bool)

  const NO_INTEREST := Interest(false, false)

  function Mask(i: Interest): bv16 {
    (if i.read then READ_EVENT else NONE_EVENT) | (if i.write then WRITE_EVENT else NONE_EVENT)
  }

  datatype Errno = WouldBlock | BrokenPipe | ConnReset | OtherError

  /** write(2): a number of bytes taken, or an error. */
  datatype Answer = Wrote(n: nat) | Failed(errno: Errno)

  /** readv: some bytes, none at the end of the file, or an error. */
  datatype Input = Got(bytes: seq<Byte>) | ReadFailed

  const EOF := Got([])

  datatype Handler = OnClose | OnError | OnRead | OnWrite

  /** One shutdownWrite: the state it was issued in, and the unsent bytes at that time. */
  datatype ShutEvent = ShutEvent(state: ConnState, unsent: seq<Byte>)

  /**
   `input` and `output` are the contents of the two buffers. `revents` are the events that the last
   poll reported and that are not yet dispatched; `todo` are the callbacks that handleEvent has still
   to make; `shutQ` and `forceQ` count queued functors. `accepted` is what the kernel took. The
   fields after it are history: `fault` records that an assert of handleClose failed.
  */
  datatype Conn = Conn(
    state: ConnState,
    reading: bool,
    interest: Interest,
    index: Index,
    input: seq<Byte>,
    output: seq<Byte>,
    revents: Option<bv16>,
    todo: seq<Handler>,
    shutQ: nat,
    forceQ: nat,
    destroyed: bool,
    accepted: seq<Byte>,
    shuts: seq<ShutEvent>,
    ups: nat,
    downs: nat,
    closes: nat,
    fault: bool)

  /** A new connection; `reading` is not initialised by the constructor. */
  function Init(reading: bool): Conn {
    Conn(Connecting, reading, NO_INTEREST, New, [], [], None, [], 0, 0, false, [], [], 0, 0, 0, false)
  }

  // ---------- the channel ----------

  /** Channel::update after a change of interest. */
  function Update(c: Conn, i: Interest): Conn {
    c.(interest := i, index := IndexAfter(c.index, Mask(i)))
  }

  function ShutdownWrite(c: Conn): Conn {
    c.(shuts := c.shuts + [ShutEvent(c.state, c.output)])
  }

  // ---------- the functions of the connection ----------

  function Establish(c: Conn): Conn {
    Update(c.(state := Connected), c.interest.(read := true)).(ups := c.ups + 1)
  }

  predicate AnswerOk(ans: Answer, len: nat) {
    ans.Wrote? ==> ans.n <= len
  }

  /** sendInLoop writes directly if nothing waits to be written. */
  predicate Direct(c: Conn) {
    !c.interest.write && c.output == []
  }

  function WrittenDirectly(c: Conn, ans: Answer): (n: nat)
    ensures n == 0 || (ans.Wrote? && n == ans.n)
  {
    if Direct(c) && ans.Wrote? then ans.n else 0
  }

  predicate Discards(c: Conn, ans: Answer) {
    Direct(c) && ans.Failed? && (ans.errno == BrokenPipe || ans.errno == ConnReset)
  }

  /** sendInLoop; `ans` is the kernel's answer if it writes directly. */
  function SendInLoop(c: Conn, msg: seq<Byte>, ans: Answer): Conn
    requires AnswerOk(ans, |msg|)
  {
    if c.state == Disconnected then c else
      var wrote, fault := WrittenDirectly(c, ans), Discards(c, ans);
      var c1 := c.(accepted := c.accepted + msg[..wrote]);
      if fault || wrote == |msg| then c1 else Enqueue(c1, msg[wrote..])
  }

  /** What the kernel did not take is kept, and writing becomes of interest. */
  function Enqueue(c: Conn, rest: seq<Byte>): Conn {
    var c1 := c.(output := c.output + rest);
    if c1.interest.write then c1 else Update(c1, c1.interest.(write := true))
  }

  function Shutdown(c: Conn): Conn {
    if c.state == Connected then c.(state := Disconnecting, shutQ := c.shutQ + 1) else c
  }

  function ShutdownInLoop(c: Conn): Conn {
    if !c.interest.write then ShutdownWrite(c) else c
  }

  predicate Open(c: Conn) {
    c.state == Connected || c.state == Disconnecting
  }

  function ForceClose(c: Conn): Conn {
    if Open(c) then c.(state := Disconnecting, forceQ := c.forceQ + 1) else c
  }

  /** handleClose; a failed assert is recorded, and what follows it happens all the same. */
  function HandleClose(c: Conn): Conn {
    Update(c.(state := Disconnected, fault := c.fault || !Open(c)), NO_INTEREST)
      .(downs := c.downs + 1, closes := c.closes + 1)
  }

  function ForceCloseInLoop(c: Conn): Conn {
    if Open(c) then HandleClose(c) else c
  }

  function HandleRead(c: Conn, input: Input): Conn {
    match input
    case Got(bytes) =>
      if bytes != [] then c.(input := c.input + bytes) else HandleClose(c)
    case ReadFailed => c
  }

  function HandleWrite(c: Conn, ans: Answer): Conn
    requires AnswerOk(ans, |c.output|)
  {
    if c.interest.write && ans.Wrote? && ans.n > 0 then
      var c1 := c.(accepted := c.accepted + c.output[..ans.n], output := c.output[ans.n..]);
      if c1.output == [] then
        var c2 := Update(c1, c1.interest.(write := false));
        if c2.state == Disconnecting then ShutdownInLoop(c2) else c2
      else c1
    else c
  }

  function StartRead(c: Conn): Conn {
    if !c.reading || !c.interest.read then Update(c, c.interest.(read := true)).(reading := true) else c
  }

  function StopRead(c: Conn): Conn {
    if c.reading || c.interest.read then Update(c, c.interest.(read := false)).(reading := false) else c
  }

  /** connectDestroyed; Channel::remove follows. */
  function Destroy(c: Conn): Conn {
    var c1 := if c.state == Connected then
                Update(c.(state := Disconnected), NO_INTEREST).(downs := c.downs + 1)
              else c;
    c1.(index := New, destroyed := true)
  }

  // ---------- dispatch ----------

  const POLLIN: bv16 := 0x1
  const POLLPRI: bv16 := 0x2
  const POLLOUT: bv16 := 0x4
  const POLLERR: bv16 := 0x8
  const POLLHUP: bv16 := 0x10
  const POLLNVAL: bv16 := 0x20
  const POLLRDHUP: bv16 := 0x2000

  predicate Has(revents: bv16, flags: bv16) {
    revents & flags != 0
  }

  /** handleEventWithGuard: which callbacks, in which order. */
  function Dispatch(revents: bv16): seq<Handler> {
    (if Has(revents, POLLHUP) && !Has(revents, POLLIN) then [OnClose] else []) +
    (if Has(revents, POLLERR | POLLNVAL) then [OnError] else []) +
    (if Has(revents, POLLIN | POLLPRI | POLLRDHUP) then [OnRead] else []) +
    (if Has(revents, POLLOUT) then [OnWrite] else [])
  }

  /** A hang-up without input, but with urgent data or a half-close. */
  predicate OddHangup(revents: bv16) {
    Has(revents, POLLHUP) && !Has(revents, POLLIN) && Has(revents, POLLPRI | POLLRDHUP)
  }

  // ---------- runs ----------

  predicate Closer(h: Handler) {
    h.OnClose? || h.OnRead?
  }

  /** No close or read callback is still to come in this dispatch. */
  predicate NoCloser(todo: seq<Handler>) {
    forall i :: 0 <= i < |todo| ==> !Closer(todo[i])
  }

  datatype Op =
    | DoEstablish
    | DoSend(msg: seq<Byte>, ans: Answer)
    | DoShutdown
    | DoShutdownInLoop
    | DoForceClose
    | DoForceCloseWithDelay
    | DoForceCloseInLoop
    | DoStartRead
    | DoStopRead
    | DoRetrieve(n: nat)
    | DoPoll(revents: bv16)
    | DoDispatch
    | DoHandle(input: Input, ans: Answer)
    | DoDestroy

  /**
   When each step can happen. The kernel reports events only for a registered channel, and no odd
   hang-up. They are dispatched whatever has become of the registration meanwhile. The functor of
   forceClose runs when all events of a poll have been dispatched. User code calls the other in-loop
   functions at any time, but during the connection's own dispatch only from its close or read callback.
   connectDestroyed comes once, not while the connection is Disconnecting, and by the assert of
   EventLoop::removeChannel not between a report and its dispatch.
  */
  predicate Enabled(c: Conn, op: Op) {
    match op
    case DoEstablish => c.state == Connecting
    case DoSend(msg, ans) => c.state != Connecting && NoCloser(c.todo) && AnswerOk(ans, |msg|)
    case DoShutdown => true
    case DoShutdownInLoop => c.shutQ > 0 && NoCloser(c.todo)
    case DoForceClose => true
    case DoForceCloseWithDelay => true
    case DoForceCloseInLoop => c.forceQ > 0 && c.revents.None? && c.todo == []
    case DoStartRead => c.state != Connecting && NoCloser(c.todo)
    case DoStopRead => c.state != Connecting && NoCloser(c.todo)
    case DoRetrieve(n) => c.state != Connecting && NoCloser(c.todo) && n <= |c.input|
    case DoPoll(revents) => c.index.Added? && c.revents.None? && c.todo == [] && !OddHangup(revents)
    case DoDispatch => c.revents.Some? && c.todo == []
    case DoHandle(_, ans) => c.todo != [] && AnswerOk(ans, |c.output|)
    case DoDestroy => c.revents.None? && NoCloser(c.todo) && !c.destroyed && (c.state == Connected || c.state == Disconnected)
  }

  function Handle(c: Conn, input: Input, ans: Answer): Conn
    requires c.todo != [] && AnswerOk(ans, |c.output|)
  {
    var c1 := c.(todo := c.todo[1..]);
    match c.todo[0]
    case OnClose => HandleClose(c1)
    case OnError => c1
    case OnRead => HandleRead(c1, input)
    case OnWrite => HandleWrite(c1, ans)
  }

  function Apply(c: Conn, op: Op): Conn
    requires Enabled(c, op)
  {
    match op
    case DoEstablish => Establish(c)
    case DoSend(msg, ans) => SendInLoop(c, msg, ans)
    case DoShutdown => Shutdown(c)
    case DoShutdownInLoop => ShutdownInLoop(c.(shutQ := c.shutQ - 1))
    case DoForceClose => ForceClose(c)
    case DoForceCloseWithDelay => if Open(c) then c.(state := Disconnecting) else c
    case DoForceCloseInLoop => ForceCloseInLoop(c.(forceQ := c.forceQ - 1))
    case DoStartRead => StartRead(c)
    case DoStopRead => StopRead(c)
    case DoRetrieve(n) => c.(input := c.input[n..])
    case DoPoll(revents) => c.(revents := Some(revents))
    case DoDispatch => c.(revents := None, todo := Dispatch(c.revents.value))
    case DoHandle(input, ans) => Handle(c, input, ans)
    case DoDestroy => Destroy(c)
  }

  function Step(c: Conn, op: Op): Conn {
    if Enabled(c, op) then Apply(c, op) else c
  }

  function Execute(c: Conn, ops: seq<Op>): Conn
    decreases |ops|
  {
    if ops == [] then c else Execute(Step(c, ops[0]), ops[1..])
  }

  lemma {:induction false} ExecuteConcat(c: Conn, a: seq<Op>, b: seq<Op>)
    ensures Execute(c, a + b) == Execute(Execute(c, a), b)
    decreases |a|
  {
    if a == [] {
      assert a + b == b;
    } else {
      hide Step;
      assert (a + b)[0] == a[0] && (a + b)[1..] == a[1..] + b;
      ExecuteConcat(Step(c, a[0]), a[1..], b);
    }
  }

  lemma ExecuteNone(c: Conn)
    ensures Execute(c, []) == c
  {
  }

  lemma ExecuteOne(c: Conn, op: Op)
    ensures Execute(c, [op]) == Step(c, op)
  {
    hide Step;
    assert [op][1..] == [];
  }

  lemma ExecuteTwo(c: Conn, a: Op, b: Op)
    ensures Execute(c, [a, b]) == Step(Step(c, a), b)
  {
    hide Step;
    assert [a, b] == [a] + [b];
    ExecuteConcat(c, [a], [b]);
    ExecuteOne(c, a);
    ExecuteOne(Step(c, a), b);
  }

  lemma ExecuteThree(c: Conn, a: Op, b: Op, d: Op)
    ensures Execute(c, [a, b, d]) == Step(Step(Step(c, a), b), d)
  {
    hide Step;
    assert [a, b, d] == [a, b] + [d];
    ExecuteConcat(c, [a, b], [d]);
    ExecuteTwo(c, a, b);
    ExecuteOne(Step(Step(c, a), b), d);
  }

  lemma StepPoll(c: Conn, revents: bv16)
    requires Enabled(c, DoPoll(revents))
    ensures Step(c, DoPoll(revents)) == c.(revents := Some(revents))
  {
  }

  lemma StepDispatch(c: Conn)
    requires Enabled(c, DoDispatch)
    ensures Step(c, DoDispatch) == c.(revents := None, todo := Dispatch(c.revents.value))
  {
  }

  lemma StepHandle(c: Conn, input: Input, ans: Answer)
    requires Enabled(c, DoHandle(input, ans))
    ensures Step(c, DoHandle(input, ans)) == Handle(c, input, ans)
  {
  }

  // ---------- output: conservation ----------

  /** While the connection is open, writing is of interest exactly if there is output. */
  ghost predicate WritingIffOutput(c: Conn) {
    && (Open(c) ==> (c.interest.write <==> c.output != []))
    && (c.state == Connecting ==> !c.interest.write && c.output == [])
    && (c.state == Disconnected ==> !c.interest.write)
  }

  ghost predicate CleanShuts(c: Conn) {
    forall i :: 0 <= i < |c.shuts| ==> c.shuts[i].unsent == [] || c.shuts[i].state == Disconnected
  }

  ghost predicate OutputInv(c: Conn) {
    WritingIffOutput(c) && CleanShuts(c)
  }

  lemma Regroup(accepted: seq<Byte>, output: seq<Byte>, head: seq<Byte>, tail: seq<Byte>)
    requires output == [] || head == []
    ensures (accepted + head) + (output + tail) == (accepted + output) + (head + tail)
  {
  }

  lemma SendParts(c: Conn, msg: seq<Byte>, ans: Answer)
    requires c.state != Disconnected && AnswerOk(ans, |msg|)
    ensures var r, wrote, fault := SendInLoop(c, msg, ans), WrittenDirectly(c, ans), Discards(c, ans);
            && (wrote > 0 ==> c.output == [] && !fault)
            && r.accepted == c.accepted + msg[..wrote]
            && r.output == (if fault || wrote == |msg| then c.output else c.output + msg[wrote..])
  {
    hide IndexAfter, Mask;
  }

  lemma Parts(accepted: seq<Byte>, output: seq<Byte>, msg: seq<Byte>, n: nat)
    requires n <= |msg| && (n > 0 ==> output == [])
    ensures (accepted + msg[..n]) + (if n == |msg| then output else output + msg[n..]) == (accepted + output) + msg
  {
    assert msg == msg[..n] + msg[n..];
    Regroup(accepted, output, msg[..n], msg[n..]);
    assert n == |msg| ==> output + msg[n..] == output;
  }

  lemma SendOutput(c: Conn, msg: seq<Byte>, ans: Answer)
    requires OutputInv(c) && c.state != Connecting && AnswerOk(ans, |msg|)
    ensures OutputInv(SendInLoop(c, msg, ans))
  {
    hide WritingIffOutput, CleanShuts, SendInLoop;
    SendWriting(c, msg, ans);
    SendShuts(c, msg, ans);
  }

  lemma SendWriting(c: Conn, msg: seq<Byte>, ans: Answer)
    requires WritingIffOutput(c) && c.state != Connecting && AnswerOk(ans, |msg|)
    ensures WritingIffOutput(SendInLoop(c, msg, ans))
  {
    hide IndexAfter, Mask, WrittenDirectly, Discards;
  }

  lemma SendShuts(c: Conn, msg: seq<Byte>, ans: Answer)
    requires CleanShuts(c) && AnswerOk(ans, |msg|)
    ensures CleanShuts(SendInLoop(c, msg, ans))
  {
    hide SendInLoop;
    SendKeeps(c, msg, ans);
  }

  lemma WriteOutput(c: Conn, ans: Answer)
    requires OutputInv(c) && AnswerOk(ans, |c.output|)
    ensures OutputInv(HandleWrite(c, ans))
  {
    hide IndexAfter, Mask;
  }

  lemma CloseOutput(c: Conn, todo: seq<Handler>)
    requires OutputInv(c)
    ensures OutputInv(c.(todo := todo)) && OutputInv(HandleClose(c.(todo := todo)))
  {
    hide IndexAfter, Mask;
  }

  lemma ReadOutput(c: Conn, input: Input)
    requires OutputInv(c)
    ensures OutputInv(HandleRead(c, input))
  {
    hide HandleClose;
    CloseOutput(c, c.todo);
  }

  lemma HandleOutput(c: Conn, input: Input, ans: Answer)
    requires OutputInv(c) && c.todo != [] && AnswerOk(ans, |c.output|)
    ensures OutputInv(Handle(c, input, ans))
  {
    hide OutputInv, HandleWrite, HandleRead, HandleClose;
    var c1 := c.(todo := c.todo[1..]);
    CloseOutput(c, c.todo[1..]);
    ReadOutput(c1, input);
    WriteOutput(c1, ans);
  }

  lemma StepOutput(c: Conn, op: Op)
    requires OutputInv(c)
    ensures OutputInv(Step(c, op))
  {
    hide IndexAfter, Mask, Dispatch;
    if Enabled(c, op) {
      match op
      case DoSend(msg, ans) => SendOutput(c, msg, ans);
      case DoHandle(input, ans) => HandleOutput(c, input, ans);
      case _ =>
    }
  }

  lemma {:induction false} ExecuteOutput(c: Conn, ops: seq<Op>)
    requires OutputInv(c)
    ensures OutputInv(Execute(c, ops))
    decreases |ops|
  {
    if ops != [] {
      hide OutputInv, Step;
      StepOutput(c, ops[0]);
      ExecuteOutput(Step(c, ops[0]), ops[1..]);
    }
  }

  /**
   What a message sent in state `c` is worth to the stream: nothing after the disconnection, and nothing
   if it was the first in line and write(2) failed with EPIPE or ECONNRESET; else all of it.
  */
  function Worth(c: Conn, msg: seq<Byte>, ans: Answer): seq<Byte> {
    if c.state == Disconnected || (c.output == [] && (ans == Failed(BrokenPipe) || ans == Failed(ConnReset))) then []
    else msg
  }

  /** The messages that the sends of a run hand over, one after the other. */
  function Sent(c: Conn, ops: seq<Op>): seq<Byte>
    decreases |ops|
  {
    if ops == [] then [] else
      (if ops[0].DoSend? && Enabled(c, ops[0]) then Worth(c, ops[0].msg, ops[0].ans) else []) +
      Sent(Step(c, ops[0]), ops[1..])
  }

  /** How many bytes write(2) takes in one step: of a message while nothing is in line, or of what is in line. */
  function Takes(c: Conn, op: Op): nat {
    match op
    case DoSend(_, Wrote(n)) => if Enabled(c, op) && c.state != Disconnected && c.output == [] then n else 0
    case DoHandle(_, Wrote(n)) => if Enabled(c, op) && c.todo[0] == OnWrite && Open(c) && c.output != [] then n else 0
    case _ => 0
  }

  function Taken(c: Conn, ops: seq<Op>): nat
    decreases |ops|
  {
    if ops == [] then 0 else Takes(c, ops[0]) + Taken(Step(c, ops[0]), ops[1..])
  }

  /** What a send adds to what is accepted or in line: its worth, of which the kernel takes what it answers. */
  lemma SendExact(c: Conn, msg: seq<Byte>, ans: Answer)
    requires WritingIffOutput(c) && c.state != Connecting && AnswerOk(ans, |msg|)
    ensures var r := SendInLoop(c, msg, ans);
            && r.accepted + r.output == (c.accepted + c.output) + Worth(c, msg, ans)
            && |r.accepted| == |c.accepted| + (if c.state != Disconnected && c.output == [] && ans.Wrote? then ans.n else 0)
  {
    if c.state != Disconnected {
      DirectIff(c);
      SendParts(c, msg, ans);
      hide SendInLoop, WritingIffOutput;
      var wrote, fault := WrittenDirectly(c, ans), Discards(c, ans);
      if !fault {
        Parts(c.accepted, c.output, msg, wrote);
      } else {
        assert msg[..wrote] == [] && c.accepted + [] == c.accepted && (c.accepted + c.output) + [] == c.accepted + c.output;
      }
    }
  }

  lemma DirectIff(c: Conn)
    requires WritingIffOutput(c) && Open(c)
    ensures Direct(c) <==> c.output == []
  {
  }

  /** handleWrite moves to the kernel as many bytes as it answers, from the front of what is in line. */
  lemma WriteExact(c: Conn, ans: Answer)
    requires WritingIffOutput(c) && AnswerOk(ans, |c.output|)
    ensures var r, n := HandleWrite(c, ans), if Open(c) && c.output != [] && ans.Wrote? then ans.n else 0;
            && n <= |c.output| && r.accepted == c.accepted + c.output[..n] && r.output == c.output[n..]
            && r.accepted + r.output == c.accepted + c.output
  {
    hide IndexAfter, Mask;
    var n := if Open(c) && c.output != [] && ans.Wrote? then ans.n else 0;
    assert c.output == c.output[..n] + c.output[n..];
    assert c.accepted + c.output[..n] + c.output[n..] == c.accepted + (c.output[..n] + c.output[n..]);
    assert c.accepted + c.output[..0] == c.accepted && c.output[0..] == c.output;
  }

  lemma OtherExact(c: Conn, op: Op)
    requires Enabled(c, op) ==> !op.DoSend? && !(op.DoHandle? && c.todo[0] == OnWrite)
    ensures Step(c, op).accepted == c.accepted && Step(c, op).output == c.output
  {
    hide IndexAfter, Mask, Dispatch, OddHangup, NoCloser, SendInLoop, Handle;
    if Enabled(c, op) && op.DoHandle? {
      HandleExact(c, op.input, op.ans);
    }
  }

  lemma HandleExact(c: Conn, input: Input, ans: Answer)
    requires c.todo != [] && c.todo[0] != OnWrite && AnswerOk(ans, |c.output|)
    ensures Handle(c, input, ans).accepted == c.accepted && Handle(c, input, ans).output == c.output
  {
    hide IndexAfter, Mask;
  }

  lemma StepExact(c: Conn, op: Op)
    requires OutputInv(c)
    ensures var r := Step(c, op);
            && r.accepted + r.output ==
               (c.accepted + c.output) + (if op.DoSend? && Enabled(c, op) then Worth(c, op.msg, op.ans) else [])
            && |r.accepted| == |c.accepted| + Takes(c, op)
  {
    if Enabled(c, op) && op.DoSend? {
      hide SendInLoop, Worth;
      SendExact(c, op.msg, op.ans);
    } else if Enabled(c, op) && op.DoHandle? && c.todo[0] == OnWrite {
      hide HandleWrite, Worth;
      WriteExact(c.(todo := c.todo[1..]), op.ans);
      assert (c.accepted + c.output) + [] == c.accepted + c.output;
    } else {
      OtherExact(c, op);
      hide Step, Worth;
      assert (c.accepted + c.output) + [] == c.accepted + c.output;
    }
  }

  lemma {:induction false} ExecuteExact(c: Conn, ops: seq<Op>)
    requires OutputInv(c)
    ensures var r := Execute(c, ops);
            && r.accepted + r.output == (c.accepted + c.output) + Sent(c, ops)
            && |r.accepted| == |c.accepted| + Taken(c, ops)
    decreases |ops|
  {
    if ops == [] {
      assert (c.accepted + c.output) + [] == c.accepted + c.output;
    } else {
      hide OutputInv, Step, Worth, Takes, Enabled;
      StepOutput(c, ops[0]);
      StepExact(c, ops[0]);
      ExecuteExact(Step(c, ops[0]), ops[1..]);
      Associate(c.accepted + c.output,
                if ops[0].DoSend? && Enabled(c, ops[0]) then Worth(c, ops[0].msg, ops[0].ans) else [],
                Sent(Step(c, ops[0]), ops[1..]));
    }
  }

  lemma Associate(a: seq<Byte>, b: seq<Byte>, c: seq<Byte>)
    ensures (a + b) + c == a + (b + c)
  {
  }

  /**
   Conservation of the output stream, over every run and any sequence of partial writes: the stream is
   the messages that reached sendInLoop before the disconnection, without those that were discarded
   whole by EPIPE or ECONNRESET. The kernel has taken as much of its front as its answers say, and the
   rest is in line. While the connection is open, writing is of interest exactly if there is a rest.
  */
  lemma OutputConserved(reading: bool, ops: seq<Op>)
    ensures var c, n := Execute(Init(reading), ops), Taken(Init(reading), ops);
            && n <= |Sent(Init(reading), ops)|
            && c.accepted == Sent(Init(reading), ops)[..n] && c.output == Sent(Init(reading), ops)[n..]
            && (Open(c) ==> (c.interest.write <==> c.output != []))
  {
    ExecuteOutput(Init(reading), ops);
    ExecuteExact(Init(reading), ops);
    var c, t := Execute(Init(reading), ops), Sent(Init(reading), ops);
    assert [] + [] + t == t;
    assert c.accepted == (c.accepted + c.output)[..|c.accepted|] && c.output == (c.accepted + c.output)[|c.accepted|..];
  }

  /**
   SHUT_WR cuts off no output while the connection is open. The source does not keep this after a
   disconnection: a queued shutdownInLoop then shuts down whatever is unsent (ShutsDownUnsentOutput).
  */
  lemma ShutdownOnlyWhenDrained(reading: bool, ops: seq<Op>)
    ensures var c := Execute(Init(reading), ops);
            && (forall i :: 0 <= i < |c.shuts| ==> c.shuts[i].unsent == [] || c.shuts[i].state == Disconnected)
            && (Enabled(c, DoShutdownInLoop) && c.state != Connecting && Open(c) ==>
                  (Apply(c, DoShutdownInLoop).shuts != c.shuts <==> c.output == []))
            && (Enabled(c, DoShutdownInLoop) && c.state == Disconnected && !c.interest.write ==>
                  Apply(c, DoShutdownInLoop).shuts == c.shuts + [ShutEvent(Disconnected, c.output)])
  {
    ExecuteOutput(Init(reading), ops);
  }

  /** Exactly when a queued shutdownInLoop cuts off nothing: the connection is not disconnected, or has nothing unsent. */
  lemma ShutdownIsCleanIff(reading: bool, ops: seq<Op>)
    requires Careful(Init(reading), ops)
    ensures var c := Execute(Init(reading), ops);
            Enabled(c, DoShutdownInLoop) ==>
              var r := Step(c, DoShutdownInLoop);
              (forall i :: |c.shuts| <= i < |r.shuts| ==> r.shuts[i].unsent == []) <==>
                (c.state != Disconnected || c.output == [])
  {
    InitHealthy(reading);
    hide Healthy;
    ExecuteHealthy(Init(reading), ops);
    if Enabled(Execute(Init(reading), ops), DoShutdownInLoop) {
      HealthyShutdown(Execute(Init(reading), ops));
    }
  }

  lemma HealthyShutdown(c: Conn)
    requires Healthy(c) && Enabled(c, DoShutdownInLoop)
    ensures var r := Step(c, DoShutdownInLoop);
            (forall i :: |c.shuts| <= i < |r.shuts| ==> r.shuts[i].unsent == []) <==>
              (c.state != Disconnected || c.output == [])
  {
    hide OneCloser, Mask;
    var r := Step(c, DoShutdownInLoop);
    if !c.interest.write {
      assert r.shuts[|c.shuts|].unsent == c.output;
    }
  }

  /**
   The exception is real: from any open connection with output unsent and a shutdownInLoop queued, an
   end of file that arrives first makes that functor shut down the socket with the output unsent.
  */
  lemma ShutsDownUnsentOutput(c: Conn, ans: Answer)
    requires Open(c) && c.index.Added? && c.revents.None? && c.todo == []
    requires c.shutQ > 0 && c.output != [] && AnswerOk(ans, |c.output|)
    ensures var r := Step(Execute(c, [DoPoll(POLLIN), DoDispatch, DoHandle(EOF, ans)]), DoShutdownInLoop);
            r.state == Disconnected && r.output == c.output &&
            r.shuts == c.shuts + [ShutEvent(Disconnected, c.output)]
  {
    hide Dispatch, OddHangup, Mask, IndexAfter, Execute, Step;
    DispatchInput();
    ExecuteThree(c, DoPoll(POLLIN), DoDispatch, DoHandle(EOF, ans));
    StepPoll(c, POLLIN);
    StepDispatch(c.(revents := Some(POLLIN)));
    StepHandle(c.(todo := [OnRead]), EOF, ans);
    ShutsDown(HandleClose(c.(todo := [])));
  }

  lemma ShutsDown(c: Conn)
    requires c.shutQ > 0 && c.todo == [] && !c.interest.write
    ensures Step(c, DoShutdownInLoop) == ShutdownWrite(c.(shutQ := c.shutQ - 1))
  {
  }

  lemma DispatchInput()
    ensures Dispatch(POLLIN) == [OnRead] && !OddHangup(POLLIN)
  {
  }

  // ---------- input ----------

  /** What the kernel gives in one step. */
  function Gives(c: Conn, op: Op): seq<Byte> {
    if op.DoHandle? && Enabled(c, op) && c.todo[0] == OnRead && op.input.Got? then op.input.bytes else []
  }

  /** What user code retrieves in one step. */
  function Retrieves(c: Conn, op: Op): seq<Byte> {
    if op.DoRetrieve? && Enabled(c, op) then c.input[..op.n] else []
  }

  function Given(c: Conn, ops: seq<Op>): seq<Byte>
    decreases |ops|
  {
    if ops == [] then [] else Gives(c, ops[0]) + Given(Step(c, ops[0]), ops[1..])
  }

  function Retrieved(c: Conn, ops: seq<Op>): seq<Byte>
    decreases |ops|
  {
    if ops == [] then [] else Retrieves(c, ops[0]) + Retrieved(Step(c, ops[0]), ops[1..])
  }

  lemma UpdateKeeps(c: Conn, i: Interest)
    ensures Update(c, i) == c.(interest := i, index := Update(c, i).index)
  {
  }

  lemma ReadExact(c: Conn, input: Input)
    ensures HandleRead(c, input).input == c.input + (if input.Got? then input.bytes else [])
  {
    hide Update;
    UpdateKeeps(c.(state := Disconnected, fault := c.fault || !Open(c)), NO_INTEREST);
  }

  lemma HandleGives(c: Conn, input: Input, ans: Answer)
    requires c.todo != [] && AnswerOk(ans, |c.output|)
    ensures Handle(c, input, ans).input == c.input + (if c.todo[0] == OnRead && input.Got? then input.bytes else [])
  {
    var c1 := c.(todo := c.todo[1..]);
    hide HandleWrite, HandleRead, HandleClose;
    ReadExact(c1, input);
    WriteKeeps(c1, ans);
    CloseKeeps(c1);
  }

  lemma CloseKeeps(c: Conn)
    ensures HandleClose(c).input == c.input
  {
  }

  lemma StepInput(c: Conn, op: Op)
    ensures Retrieves(c, op) + Step(c, op).input == c.input + Gives(c, op)
  {
    hide Step, Enabled;
    if Enabled(c, op) && op.DoHandle? {
      HandleReady(c, op);
      StepHandle(c, op.input, op.ans);
      HandleGives(c, op.input, op.ans);
    } else if Enabled(c, op) && op.DoRetrieve? {
      StepRetrieve(c, op.n);
      assert c.input == c.input[..op.n] + c.input[op.n..];
    } else {
      OtherInput(c, op);
    }
  }

  lemma HandleReady(c: Conn, op: Op)
    requires Enabled(c, op) && op.DoHandle?
    ensures c.todo != [] && AnswerOk(op.ans, |c.output|)
  {
  }

  lemma StepRetrieve(c: Conn, n: nat)
    requires Enabled(c, DoRetrieve(n))
    ensures n <= |c.input| && Step(c, DoRetrieve(n)) == c.(input := c.input[n..])
  {
  }

  lemma OtherInput(c: Conn, op: Op)
    requires Enabled(c, op) ==> !op.DoHandle? && !op.DoRetrieve?
    ensures Step(c, op).input == c.input
  {
    hide IndexAfter, Mask, Dispatch, OddHangup, NoCloser, SendInLoop;
    if Enabled(c, op) && op.DoSend? {
      SendKeeps(c, op.msg, op.ans);
    }
  }

  lemma {:induction false} ExecuteInput(c: Conn, ops: seq<Op>)
    ensures Retrieved(c, ops) + Execute(c, ops).input == c.input + Given(c, ops)
    decreases |ops|
  {
    if ops != [] {
      hide Step, Gives, Retrieves;
      var c1 := Step(c, ops[0]);
      StepInput(c, ops[0]);
      ExecuteInput(c1, ops[1..]);
      Chain(Retrieves(c, ops[0]), c1.input, Gives(c, ops[0]), c.input,
            Retrieved(c1, ops[1..]), Execute(c1, ops[1..]).input, Given(c1, ops[1..]));
    }
  }

  lemma Chain(r: seq<Byte>, mid: seq<Byte>, g: seq<Byte>, first: seq<Byte>, r1: seq<Byte>, last: seq<Byte>, g1: seq<Byte>)
    requires r + mid == first + g && r1 + last == mid + g1
    ensures (r + r1) + last == first + (g + g1)
  {
    assert (r + r1) + last == r + (r1 + last) == (r + mid) + g1 == (first + g) + g1;
  }

  /** Conservation of the input: in every run what user code has retrieved, then the input buffer, is all that the kernel gave. */
  lemma InputConserved(reading: bool, ops: seq<Op>)
    ensures Given(Init(reading), ops) == Retrieved(Init(reading), ops) + Execute(Init(reading), ops).input
  {
    ExecuteInput(Init(reading), ops);
    assert [] + Given(Init(reading), ops) == Given(Init(reading), ops);
  }

  // ---------- life cycle ----------

  function Rank(s: ConnState): nat {
    match s
    case Connecting => 0
    case Connected => 1
    case Disconnecting => 2
    case Disconnected => 3
  }

  lemma SendKeeps(c: Conn, msg: seq<Byte>, ans: Answer)
    requires AnswerOk(ans, |msg|)
    ensures var r := SendInLoop(c, msg, ans);
            r == c.(interest := r.interest, index := r.index, output := r.output, accepted := r.accepted)
  {
    hide IndexAfter, Mask;
  }

  lemma WriteKeeps(c: Conn, ans: Answer)
    requires AnswerOk(ans, |c.output|)
    ensures var r := HandleWrite(c, ans);
            r == c.(interest := r.interest, index := r.index, output := r.output, accepted := r.accepted, shuts := r.shuts)
  {
    hide IndexAfter, Mask;
  }

  lemma StepAdvances(c: Conn, op: Op)
    ensures Rank(c.state) <= Rank(Step(c, op).state)
  {
    hide IndexAfter, Mask, Dispatch, Rank, OddHangup, NoCloser, SendInLoop, Handle;
    RankBounds(c.state);
    RankOrder(c.state);
    if Enabled(c, op) {
      match op
      case DoSend(msg, ans) => SendKeeps(c, msg, ans);
      case DoHandle(input, ans) => HandleAdvances(c, input, ans);
      case _ =>
    }
  }

  lemma HandleAdvances(c: Conn, input: Input, ans: Answer)
    requires c.todo != [] && AnswerOk(ans, |c.output|)
    ensures var r := Handle(c, input, ans); r.state == c.state || r.state == Disconnected
  {
    hide IndexAfter, Mask, HandleWrite;
    WriteKeeps(c.(todo := c.todo[1..]), ans);
  }

  lemma RankBounds(s: ConnState)
    ensures Rank(Connecting) <= Rank(s) <= Rank(Disconnected)
  {
  }

  lemma RankOrder(s: ConnState)
    ensures s == Connecting ==> Rank(s) <= Rank(Connected)
    ensures s == Connected || s == Disconnecting ==> Rank(s) <= Rank(Disconnecting)
  {
  }

  /** States only advance, in every run. */
  lemma {:induction false} StatesOnlyAdvance(c: Conn, ops: seq<Op>)
    ensures Rank(c.state) <= Rank(Execute(c, ops).state)
    decreases |ops|
  {
    if ops != [] {
      hide Step, Rank;
      StepAdvances(c, ops[0]);
      StatesOnlyAdvance(Step(c, ops[0]), ops[1..]);
    }
  }

  /** At most one callback of a dispatch closes the connection, and only the error callback comes before it. */
  ghost predicate OneCloser(todo: seq<Handler>) {
    forall i, j :: 0 <= i < j < |todo| ==> (Closer(todo[j]) ==> todo[i].OnError?)
  }

  /** A dispatch can close the connection twice exactly if the hang-up is odd. */
  lemma DispatchClosers(revents: bv16)
    ensures OneCloser(Dispatch(revents)) <==> !OddHangup(revents)
  {
    var d := Dispatch(revents);
    var close := Has(revents, POLLHUP) && !Has(revents, POLLIN);
    var read := Has(revents, POLLIN | POLLPRI | POLLRDHUP);
    var error := Has(revents, POLLERR | POLLNVAL);
    assert close && read <==> OddHangup(revents);
    if close && read {
      assert Closer(d[0]) && Closer(d[if error then 2 else 1]);
    }
  }

  ghost predicate Registered(c: Conn) {
    c.index.Added? <==> c.interest != NO_INTEREST
  }

  /** What holds in every run. */
  ghost predicate LifeInv(c: Conn) {
    && OneCloser(c.todo) && (c.revents.Some? ==> c.todo == [] && !OddHangup(c.revents.value))
    && (c.state == Connecting ==>
          c.ups == 0 && c.downs == 0 && c.closes == 0 && !c.fault && !c.destroyed &&
          c.interest == NO_INTEREST && c.index.New? && c.todo == [] && c.revents.None?)
    && (Open(c) ==>
          c.ups == 1 && c.downs == 0 && c.closes == 0 && !c.fault && !c.destroyed &&
          !c.index.New? && Registered(c) && (c.reading ==> c.interest.read))
    && (c.state == Disconnected ==> c.ups == 1 && c.downs >= 1)
    && (c.state != Connecting && !c.destroyed ==> !c.index.New?)
  }

  /** A connection that has ended ended once, its channel is not in the kernel's interest set, and nothing is left to close it. */
  ghost predicate EndedOnce(c: Conn) {
    c.state == Disconnected ==>
      c.downs == 1 && (c.closes == 1 || (c.closes == 0 && c.destroyed)) && !c.fault && !c.index.Added? && c.interest == NO_INTEREST &&
      NoCloser(c.todo) && c.revents.None?
  }

  /** The callback closes the connection: a hang-up, or a read that finds the end of the file. */
  predicate Closes(h: Handler, input: Input) {
    h.OnClose? || (h.OnRead? && input == EOF)
  }

  /**
   The steps that leave the channel registered after the end: closing while nothing is of interest
   (reading stopped, nothing to write), by force or by an event that was reported before reading was
   stopped, and starting or stopping to read afterwards.
  */
  predicate Careless(c: Conn, op: Op) {
    match op
    case DoForceCloseInLoop => Open(c) && c.interest == NO_INTEREST
    case DoHandle(input, _) => c.todo != [] && Closes(c.todo[0], input) && c.interest == NO_INTEREST
    case DoStartRead => c.state == Disconnected
    case DoStopRead => c.state == Disconnected && (c.reading || c.interest.read)
    case _ => false
  }

  lemma MaskNone(i: Interest)
    ensures Mask(i) == NONE_EVENT <==> i == NO_INTEREST
  {
  }

  lemma TailCloser(todo: seq<Handler>)
    requires OneCloser(todo) && todo != []
    ensures OneCloser(todo[1..]) && (Closer(todo[0]) ==> NoCloser(todo[1..]))
    ensures NoCloser(todo) ==> NoCloser(todo[1..]) && !Closer(todo[0])
    ensures !NoCloser(todo[1..]) ==> todo[0].OnError?
    ensures Closer(todo[0]) ==> !NoCloser(todo)
  {
  }

  lemma CloseLife(c: Conn)
    requires LifeInv(c) && Open(c) && NoCloser(c.todo) && c.revents.None?
    ensures LifeInv(HandleClose(c)) && (EndedOnce(HandleClose(c)) <==> c.interest != NO_INTEREST)
  {
    MaskNone(NO_INTEREST);
    hide Mask, OneCloser, NoCloser, OddHangup;
  }

  lemma WriteLife(c: Conn, ans: Answer)
    requires LifeInv(c) && EndedOnce(c) && AnswerOk(ans, |c.output|)
    ensures LifeInv(HandleWrite(c, ans)) && EndedOnce(HandleWrite(c, ans))
  {
    MaskNone(c.interest.(write := false));
    hide Mask, OneCloser, NoCloser, OddHangup;
  }

  lemma HandleLife(c: Conn, input: Input, ans: Answer)
    requires LifeInv(c) && EndedOnce(c) && c.todo != [] && AnswerOk(ans, |c.output|)
    ensures LifeInv(Handle(c, input, ans))
    ensures EndedOnce(Handle(c, input, ans)) <==> !(Closes(c.todo[0], input) && c.interest == NO_INTEREST)
  {
    var c1 := c.(todo := c.todo[1..]);
    PopLife(c);
    hide LifeInv, EndedOnce, HandleWrite, HandleClose;
    match c.todo[0]
    case OnClose => CloseLife(c1);
    case OnError =>
    case OnRead =>
      if input == EOF {
        CloseLife(c1);
      } else {
        ReadLife(c1, input);
      }
    case OnWrite => WriteLife(c1, ans);
  }

  lemma ReadLife(c: Conn, input: Input)
    requires LifeInv(c) && EndedOnce(c) && input != EOF
    ensures LifeInv(HandleRead(c, input)) && EndedOnce(HandleRead(c, input))
  {
    hide Mask, OneCloser, NoCloser, OddHangup;
  }

  lemma PopLife(c: Conn)
    requires LifeInv(c) && EndedOnce(c) && c.todo != []
    ensures var c1 := c.(todo := c.todo[1..]);
            && LifeInv(c1) && EndedOnce(c1)
            && (Closer(c.todo[0]) ==> Open(c1) && NoCloser(c1.todo) && c1.revents.None?)
  {
    TailCloser(c.todo);
    hide OneCloser, NoCloser, OddHangup;
  }

  lemma StepLife(c: Conn, op: Op)
    requires LifeInv(c) && EndedOnce(c) && WritingIffOutput(c) && Enabled(c, op)
    ensures LifeInv(Step(c, op))
    ensures EndedOnce(Step(c, op)) <==> !Careless(c, op)
  {
    match op
    case DoHandle(input, ans) => HandleLife(c, input, ans);
    case DoDispatch =>
      DispatchClosers(c.revents.value);
      hide Mask, NoCloser, Dispatch;
    case DoForceCloseInLoop =>
      NoneToDo();
      if Open(c) {
        CloseLife(c.(forceQ := c.forceQ - 1));
      }
    case DoSend(msg, ans) => SendLife(c, msg, ans);
    case _ => UpdateLife(c, op);
  }

  lemma NoneToDo()
    ensures NoCloser([])
  {
  }

  lemma SendLife(c: Conn, msg: seq<Byte>, ans: Answer)
    requires LifeInv(c) && EndedOnce(c) && WritingIffOutput(c) && c.state != Connecting && AnswerOk(ans, |msg|)
    ensures LifeInv(SendInLoop(c, msg, ans)) && EndedOnce(SendInLoop(c, msg, ans))
  {
    MaskNone(c.interest.(write := true));
    hide Mask, OneCloser, NoCloser, OddHangup;
  }

  lemma UpdateLife(c: Conn, op: Op)
    requires LifeInv(c) && EndedOnce(c) && WritingIffOutput(c) && Enabled(c, op)
    requires !op.DoHandle? && !op.DoDispatch? && !op.DoForceCloseInLoop? && !op.DoSend?
    ensures LifeInv(Step(c, op)) && (EndedOnce(Step(c, op)) <==> !Careless(c, op))
  {
    MaskNone(c.interest);
    MaskNone(c.interest.(read := true));
    MaskNone(c.interest.(read := false));
    MaskNone(NO_INTEREST);
    hide Mask, OneCloser, NoCloser, Dispatch, OddHangup;
  }

  // ---------- what careful runs guarantee ----------

  /** No step of the run is careless. */
  predicate Careful(c: Conn, ops: seq<Op>)
    decreases |ops|
  {
    ops == [] || (!(Enabled(c, ops[0]) && Careless(c, ops[0])) && Careful(Step(c, ops[0]), ops[1..]))
  }

  ghost predicate Healthy(c: Conn) {
    OutputInv(c) && LifeInv(c) && EndedOnce(c)
  }

  lemma StepHealthy(c: Conn, op: Op)
    requires Healthy(c)
    ensures !(Enabled(c, op) && Careless(c, op)) ==> Healthy(Step(c, op))
  {
    hide Step, LifeInv, EndedOnce, Careless, Enabled;
    StepOutput(c, op);
    if Enabled(c, op) {
      StepLife(c, op);
    } else {
      StepNothing(c, op);
    }
  }

  lemma StepNothing(c: Conn, op: Op)
    requires !Enabled(c, op)
    ensures Step(c, op) == c
  {
  }

  lemma {:induction false} ExecuteHealthy(c: Conn, ops: seq<Op>)
    requires Healthy(c) && Careful(c, ops)
    ensures Healthy(Execute(c, ops))
    decreases |ops|
  {
    if ops != [] {
      hide Healthy, Step, Enabled, Careless;
      StepHealthy(c, ops[0]);
      ExecuteHealthy(Step(c, ops[0]), ops[1..]);
    }
  }

  lemma InitHealthy(reading: bool)
    ensures Healthy(Init(reading))
  {
  }

  /**
   Life cycle over every careful run: one UP comes before at most one DOWN, the close callback runs
   at most once however often forceClose, end of file and hang-up come, and no assert fails. A
   connection that has ended, but not by connectDestroyed, has made both calls.
  */
  lemma ClosesAtMostOnce(reading: bool, ops: seq<Op>)
    requires Careful(Init(reading), ops)
    ensures var c := Execute(Init(reading), ops);
            && c.ups <= 1 && c.downs <= c.ups && c.closes <= c.downs && !c.fault
            && (c.downs == 1 <==> c.state == Disconnected)
            && (c.ups == 0 <==> c.state == Connecting)
            && (c.state == Disconnected && !c.destroyed ==> c.closes == 1)
  {
    InitHealthy(reading);
    hide Healthy;
    ExecuteHealthy(Init(reading), ops);
    HealthyCloses(Execute(Init(reading), ops));
  }

  lemma HealthyCloses(c: Conn)
    requires Healthy(c)
    ensures c.ups <= 1 && c.downs <= c.ups && c.closes <= c.downs && !c.fault
    ensures c.downs == 1 <==> c.state == Disconnected
    ensures c.ups == 0 <==> c.state == Connecting
    ensures c.state == Disconnected && !c.destroyed ==> c.closes == 1
  {
    hide OutputInv, OneCloser, NoCloser, OddHangup;
    assert c.state == Connecting || Open(c) || c.state == Disconnected;
  }

  /**
   The condition is exact: a careless step, and no other, leaves a disconnected connection whose
   channel the kernel still watches.
  */
  lemma WatchedIffCareless(reading: bool, ops: seq<Op>, op: Op)
    requires Careful(Init(reading), ops)
    ensures var c := Execute(Init(reading), ops);
            Enabled(c, op) ==>
              (Careless(c, op) <==> (Step(c, op).state == Disconnected && Step(c, op).index.Added?))
  {
    ExecuteHealthy(Init(reading), ops);
    var c := Execute(Init(reading), ops);
    if Enabled(c, op) {
      StepLife(c, op);
      if Careless(c, op) {
        CarelessWatches(c, op);
      }
    }
  }

  lemma CarelessWatches(c: Conn, op: Op)
    requires LifeInv(c) && EndedOnce(c) && Enabled(c, op) && Careless(c, op)
    ensures Step(c, op).state == Disconnected && Step(c, op).index.Added?
  {
    MaskNone(NO_INTEREST);
    hide Mask;
  }

  /** An established connection whose end of file is reported, and whose reading is then stopped. */
  function Stopped(): Conn {
    Establish(Init(false)).(interest := NO_INTEREST, index := Deleted, revents := Some(POLLIN), reading := false)
  }

  lemma StoppedRun(reading: bool)
    ensures var ops := [DoEstablish, DoPoll(POLLIN), DoStopRead];
            Careful(Init(reading), ops) && Execute(Init(reading), ops) == Stopped()
  {
    hide Dispatch, OddHangup, Mask, Execute, Step;
    DispatchInput();
    MaskNone(NO_INTEREST);
    MaskNone(Interest(true, false));
    Establishes(reading);
    var ops := [DoEstablish, DoPoll(POLLIN), DoStopRead];
    var c1 := Establish(Init(reading));
    StepPoll(c1, POLLIN);
    var c2 := c1.(revents := Some(POLLIN));
    Stops(c2);
    assert StopRead(c2) == Stopped();
    ExecuteThree(Init(reading), ops[0], ops[1], ops[2]);
    hide Enabled, Stopped;
    assert ops[1..] == [ops[1], ops[2]] && ops[1..][1..] == [ops[2]] && ops[1..][1..][1..] == [];
    assert Careful(Stopped(), []) && Careful(c2, [ops[2]]) && Careful(c1, ops[1..]);
  }

  /**
   A run of this kind: reading is stopped between the poll that reports the end of the file and its
   dispatch, which happens when another channel of the same poll is dispatched first.
  */
  lemma StoppedBeforeDispatch(reading: bool, ans: Answer)
    requires AnswerOk(ans, 0)
    ensures var ops := [DoEstablish, DoPoll(POLLIN), DoStopRead];
            var c := Execute(Init(reading), ops);
            var r := Execute(c, [DoDispatch, DoHandle(EOF, ans)]);
            && Careful(Init(reading), ops) && Open(c) && !c.index.Added?
            && r.state == Disconnected && r.index.Added? && r.closes == 1 && !r.fault
            && r.revents.None? && r.todo == [] && r.output == []
  {
    StoppedRun(reading);
    hide Dispatch, Mask, Execute, Step, OddHangup, Careful;
    DispatchInput();
    var c := Stopped();
    StepDispatch(c);
    StepHandle(c.(revents := None, todo := [OnRead]), EOF, ans);
    ExecuteTwo(c, DoDispatch, DoHandle(EOF, ans));
  }

  lemma Establishes(reading: bool)
    ensures Step(Init(reading), DoEstablish) == Establish(Init(reading))
  {
  }

  lemma Stops(c: Conn)
    requires Enabled(c, DoStopRead)
    ensures Step(c, DoStopRead) == StopRead(c)
  {
  }

  /** After such a step the next hang-up runs the close callback again and trips the assert of handleClose. */
  lemma WatchedClosesAgain(c: Conn, input: Input, ans: Answer)
    requires c.state == Disconnected && c.index.Added? && c.revents.None? && c.todo == [] && AnswerOk(ans, |c.output|)
    ensures var r := Execute(c, [DoPoll(POLLHUP), DoDispatch, DoHandle(input, ans)]);
            r.fault && r.closes == c.closes + 1 && r.downs == c.downs + 1
  {
    hide Dispatch, OddHangup, Mask, IndexAfter, Execute, Step;
    DispatchHangup();
    ExecuteThree(c, DoPoll(POLLHUP), DoDispatch, DoHandle(input, ans));
    StepPoll(c, POLLHUP);
    StepDispatch(c.(revents := Some(POLLHUP)));
    StepHandle(c.(todo := [OnClose]), input, ans);
  }

  /** What an odd hang-up does to an open connection if the read then finds the end of file. */
  lemma OddHangupClosesTwice(c: Conn, revents: bv16, ans: Answer)
    requires Open(c) && c.todo == [] && AnswerOk(ans, |c.output|)
    requires OddHangup(revents) && !Has(revents, POLLERR | POLLNVAL | POLLOUT)
    ensures var r := Execute(c.(todo := Dispatch(revents)), [DoHandle(EOF, ans), DoHandle(EOF, ans)]);
            r.fault && r.closes == c.closes + 2 && r.downs == c.downs + 2 && r.todo == []
  {
    hide Dispatch, OddHangup, Has, Mask, IndexAfter, Step, Execute;
    var handle := DoHandle(EOF, ans);
    OddDispatch(revents);
    var c0 := c.(todo := Dispatch(revents));
    var c1 := HandleClose(c.(todo := [OnRead]));
    StepHandle(c0, EOF, ans);
    StepHandle(c1, EOF, ans);
    ExecuteTwo(c0, handle, handle);
  }

  lemma OddDispatch(revents: bv16)
    requires OddHangup(revents) && !Has(revents, POLLERR | POLLNVAL | POLLOUT)
    ensures Dispatch(revents) == [OnClose, OnRead]
  {
  }

  lemma DispatchHangup()
    ensures Dispatch(POLLHUP) == [OnClose] && !OddHangup(POLLHUP)
  {
  }

  /** Channel::remove in connectDestroyed finds a known channel without interest. */
  lemma DestroyAssertsHold(reading: bool, ops: seq<Op>)
    requires Careful(Init(reading), ops)
    ensures var c := Execute(Init(reading), ops);
            Enabled(c, DoDestroy) ==> !c.index.New? && (c.state == Connected || c.interest == NO_INTEREST)
  {
    InitHealthy(reading);
    hide Healthy;
    ExecuteHealthy(Init(reading), ops);
    if Enabled(Execute(Init(reading), ops), DoDestroy) {
      HealthyDestroy(Execute(Init(reading), ops));
    }
  }

  lemma HealthyDestroy(c: Conn)
    requires Healthy(c) && Enabled(c, DoDestroy)
    ensures !c.index.New? && (c.state == Connected || c.interest == NO_INTEREST)
  {
  }

  /**
   The asserts on the way of connectDestroyed: Channel::remove (known, without interest),
   EventLoop::removeChannel (no reported event that is still to be dispatched), and the destructor.
  */
  predicate DestroyAsserts(c: Conn) {
    && !c.index.New? && (c.state == Connected || c.interest == NO_INTEREST)
    && c.revents.None? && Destroy(c).state == Disconnected
  }

  /** Exactly when they hold: the connection is not Disconnecting, and no event is between report and dispatch. */
  lemma DestroyNeedsEnd(reading: bool, ops: seq<Op>)
    requires Careful(Init(reading), ops)
    ensures var c := Execute(Init(reading), ops);
            c.state != Connecting && !c.destroyed ==>
              (DestroyAsserts(c) <==> c.state != Disconnecting && c.revents.None?)
  {
    InitHealthy(reading);
    hide Healthy, DestroyAsserts;
    ExecuteHealthy(Init(reading), ops);
    HealthyDestroyed(Execute(Init(reading), ops));
  }

  lemma HealthyDestroyed(c: Conn)
    requires Healthy(c)
    ensures c.state != Connecting && !c.destroyed ==>
              (DestroyAsserts(c) <==> c.state != Disconnecting && c.revents.None?)
  {
    hide OutputInv, Mask, IndexAfter, OneCloser, NoCloser, OddHangup;
  }

  /** A run that fails them: a server is destroyed while a connection of it is being shut down. */
  lemma DestroyedTooEarly(reading: bool)
    ensures var c := Execute(Init(reading), [DoEstablish, DoShutdown]);
            Careful(Init(reading), [DoEstablish, DoShutdown]) && c.state == Disconnecting && !DestroyAsserts(c)
  {
    hide Execute, Step, Mask, IndexAfter;
    var ops := [DoEstablish, DoShutdown];
    var c := Establish(Init(reading));
    Establishes(reading);
    Shuts(c);
    ExecuteTwo(Init(reading), DoEstablish, DoShutdown);
    assert ops[1..] == [DoShutdown] && ops[1..][1..] == [];
    assert Careful(Shutdown(c), []) && Careful(c, ops[1..]);
  }

  lemma Shuts(c: Conn)
    ensures Step(c, DoShutdown) == Shutdown(c)
  {
  }

  // ---------- what each call does ----------

  /** connectEstablished makes the connection known to the kernel, with interest in reading, and tells the user once. */
  lemma EstablishedIsRead(reading: bool)
    ensures var c := Step(Init(reading), DoEstablish);
            c.state == Connected && c.index.Added? && c.interest == Interest(true, false) && c.ups == 1 && c.downs == 0
  {
  }

  /** startRead and stopRead set what they say, and leave writing alone. */
  lemma ReadingFollows(c: Conn)
    ensures Enabled(c, DoStartRead) ==>
              var r := Step(c, DoStartRead);
              r.reading && r.interest == Interest(true, c.interest.write) && r.output == c.output && r.state == c.state
    ensures Enabled(c, DoStopRead) ==>
              var r := Step(c, DoStopRead);
              !r.reading && r.interest == Interest(false, c.interest.write) && r.output == c.output && r.state == c.state
  {
    hide IndexAfter, Mask, NoCloser;
  }

  /** forceCloseWithDelay only marks an open connection; connectDestroyed takes the channel out of the poller. */
  lemma MarksAndRemoves(c: Conn)
    ensures Step(c, DoForceCloseWithDelay) == if Open(c) then c.(state := Disconnecting) else c
    ensures Enabled(c, DoDestroy) ==>
              var r := Step(c, DoDestroy);
              r.state == Disconnected && r.index.New? && r.destroyed && r.output == c.output && r.closes == c.closes
  {
    hide IndexAfter, Mask, NoCloser;
  }

  /** What is due for the events of one report, by the bits of poll(2). */
  predicate Due(h: Handler, revents: bv16) {
    match h
    case OnClose => revents & 0x10 != 0 && revents & 0x1 == 0
    case OnError => revents & 0x28 != 0
    case OnRead => revents & 0x2003 != 0
    case OnWrite => revents & 0x4 != 0
  }

  function Turn(h: Handler): nat {
    match h case OnClose => 0 case OnError => 1 case OnRead => 2 case OnWrite => 3
  }

  /** A dispatch makes exactly the callbacks that are due, each once, in the order close, error, read, write. */
  lemma DispatchIsExact(revents: bv16)
    ensures var d := Dispatch(revents);
            && (forall h :: h in d <==> Due(h, revents))
            && forall i, j :: 0 <= i < j < |d| ==> Turn(d[i]) < Turn(d[j])
  {
    assert (POLLERR | POLLNVAL) == 0x28 && (POLLIN | POLLPRI | POLLRDHUP) == 0x2003;
  }

  /** When the socket of an open connection is reported writable, and takes all that is in line, nothing is left. */
  lemma WritableDrains(c: Conn)
    requires OutputInv(c) && Open(c) && c.output != [] && c.index.Added? && c.revents.None? && c.todo == []
    ensures var r := Execute(c, [DoPoll(POLLOUT), DoDispatch, DoHandle(EOF, Wrote(|c.output|))]);
            r.output == [] && r.accepted == c.accepted + c.output && !r.interest.write
  {
    hide Dispatch, OddHangup, Mask, IndexAfter, Execute, Step;
    DispatchWritable();
    var ans := Wrote(|c.output|);
    ExecuteThree(c, DoPoll(POLLOUT), DoDispatch, DoHandle(EOF, ans));
    StepPoll(c, POLLOUT);
    StepDispatch(c.(revents := Some(POLLOUT)));
    StepHandle(c.(todo := [OnWrite]), EOF, ans);
    WriteExact(c.(todo := []), ans);
    WriteOutput(c.(todo := []), ans);
  }

  lemma DispatchWritable()
    ensures Dispatch(POLLOUT) == [OnWrite] && !OddHangup(POLLOUT)
  {
  }

  /**
   shutdown of a connected connection: it is Disconnecting, and the functor sends SHUT_WR at once if no
   output is in line. If some is, DrainedShutdown says when.
  */
  lemma ShutdownEnds(reading: bool, ops: seq<Op>)
    ensures var c := Execute(Init(reading), ops);
            var c1 := Step(c, DoShutdown);
            && (c.state == Connected ==> c1.state == Disconnecting && c1.shutQ == c.shutQ + 1)
            && (c.state == Connected && NoCloser(c.todo) ==>
                  Step(c1, DoShutdownInLoop).shuts == c.shuts + (if c.output == [] then [ShutEvent(Disconnecting, [])] else []))
  {
    ExecuteOutput(Init(reading), ops);
    hide IndexAfter, Mask, NoCloser, CleanShuts;
  }

  lemma {:induction false} ForceStays(c: Conn, ops: seq<Op>)
    requires forall i :: 0 <= i < |ops| ==> ops[i] != DoForceCloseInLoop
    ensures c.forceQ <= Execute(c, ops).forceQ
    decreases |ops|
  {
    if ops != [] {
      hide Step;
      ForceStep(c, ops[0]);
      ForceStays(Step(c, ops[0]), ops[1..]);
    }
  }

  lemma ForceStep(c: Conn, op: Op)
    requires op != DoForceCloseInLoop
    ensures c.forceQ <= Step(c, op).forceQ
  {
    hide IndexAfter, Mask, Dispatch, OddHangup, NoCloser, SendInLoop, Handle;
    if Enabled(c, op) {
      match op
      case DoSend(msg, ans) => SendKeeps(c, msg, ans);
      case DoHandle(input, ans) => HandleForce(c, input, ans);
      case _ =>
    }
  }

  lemma HandleForce(c: Conn, input: Input, ans: Answer)
    requires c.todo != [] && AnswerOk(ans, |c.output|)
    ensures Handle(c, input, ans).forceQ == c.forceQ
  {
    hide IndexAfter, Mask, HandleWrite;
    WriteKeeps(c.(todo := c.todo[1..]), ans);
  }

  /**
   forceClose of an open connection: whatever happens before its functor runs, the functor is still
   queued, and when it has run the connection is Disconnected.
  */
  lemma ForceCloseEnds(reading: bool, ops: seq<Op>, later: seq<Op>)
    requires forall i :: 0 <= i < |later| ==> later[i] != DoForceCloseInLoop
    ensures var c := Execute(Init(reading), ops);
            Open(c) ==>
              var r := Execute(Step(c, DoForceClose), later);
              && r.forceQ > 0
              && (r.revents.None? && r.todo == [] ==> Step(r, DoForceCloseInLoop).state == Disconnected)
  {
    var c := Execute(Init(reading), ops);
    if Open(c) {
      var c1 := Step(c, DoForceClose);
      assert c1.state == Disconnecting && c1.forceQ == c.forceQ + 1;
      ForceStays(c1, later);
      StatesOnlyAdvance(c1, later);
      ForceRuns(Execute(c1, later));
    }
  }

  lemma ForceRuns(c: Conn)
    requires Rank(Disconnecting) <= Rank(c.state) && c.forceQ > 0
    ensures c.revents.None? && c.todo == [] ==> Step(c, DoForceCloseInLoop).state == Disconnected
  {
    hide IndexAfter, Mask;
  }

  /** A shutdown with output pending is carried out when the output has drained. */
  lemma DrainedShutdown(c: Conn)
    requires c.state == Disconnecting && c.interest.write && c.output != []
    ensures var r := HandleWrite(c, Wrote(|c.output|));
            r.output == [] && r.accepted == c.accepted + c.output && !r.interest.write &&
            r.shuts == c.shuts + [ShutEvent(Disconnecting, [])]
  {
  }

  /** The connection's view of its channel is what the poller makes of the same operations. */
  lemma ChannelFollowsPoller<C>(p: Poller<C>, ch: C, fd: Fd, i: Interest, index: Index)
    requires ch in p.live && p.live[ch] == ChannelState(fd, Mask(i), index) && MayUpdate(p, ch)
    ensures ChannelAfter(p, OpEnableReading(ch), ch) == AfterUpdate(fd, i.(read := true), index)
    ensures ChannelAfter(p, OpDisableReading(ch), ch) == AfterUpdate(fd, i.(read := false), index)
    ensures ChannelAfter(p, OpEnableWriting(ch), ch) == AfterUpdate(fd, i.(write := true), index)
    ensures ChannelAfter(p, OpDisableWriting(ch), ch) == AfterUpdate(fd, i.(write := false), index)
    ensures ChannelAfter(p, OpDisableAll(ch), ch) == AfterUpdate(fd, NO_INTEREST, index)
  {
  }

  function AfterUpdate(fd: Fd, i: Interest, index: Index): ChannelState {
    ChannelState(fd, Mask(i), IndexAfter(index, Mask(i)))
  }

  function ChannelAfter<C>(p: Poller<C>, op: PollerModel.Op<C>, ch: C): ChannelState
    requires ch in p.live && op.c == ch && (op.OpEnableReading? || op.OpDisableReading? || op.OpEnableWriting? || op.OpDisableWriting? || op.OpDisableAll?)
  {
    PollerModel.Step(p, op).live[ch]
  }
}
