/**
 Asynchronous logging with double buffering: front ends append lines to the current buffer, and one
 back end swaps full buffers out under the mutex, writes them, and hands two of them back as spares.
*/
module AsyncLoggingModel {
  import opened Common

  type Line = string

  /** A heap buffer, owned through one unique_ptr; `id` is its address. It holds whole lines. */
  datatype Buf = Buf(id: nat, lines: seq<Line>)

  /** What the back end has given to its LogFile. */
  datatype Item = Text(lines: seq<Line>) | Notice(dropped: nat)

  /** Where the back end is in its loop; `Writing(k)` has written k buffers of this round. */
  datatype Phase = Top | Ready | Swapped | Writing(k: nat) | Done

  /**
   `accepted` (the lines stored by append, in lock order) and `rounds` (the contents of the buffers
   that each swap took) are history variables.
  */
  datatype State = State(
    running: bool,
    current: Buf,
    next: Option<Buf>,
    buffers: seq<Buf>,
    new1: Option<Buf>,
    new2: Option<Buf>,
    toWrite: seq<Buf>,
    phase: Phase,
    file: seq<Item>,
    nextId: nat,
    accepted: seq<Line>,
    rounds: seq<seq<seq<Line>>>)

  /** kLargeBuffer, and the number of buffers beyond which a round is cut down to two. */
  const LARGE_BUFFER: nat := 4000 * 1000
  const MAX_BUFFERS: nat := 25

  function Flatten<T>(s: seq<seq<T>>): seq<T> {
    if s == [] then [] else s[0] + Flatten(s[1..])
  }

  lemma {:induction false} FlattenConcat<T>(a: seq<seq<T>>, b: seq<seq<T>>)
    ensures Flatten(a + b) == Flatten(a) + Flatten(b)
  {
    if a == [] {
      assert a + b == b;
    } else {
      assert (a + b)[0] == a[0] && (a + b)[1..] == a[1..] + b;
      FlattenConcat(a[1..], b);
    }
  }

  lemma FlattenSnoc<T>(a: seq<seq<T>>, x: seq<T>)
    ensures Flatten(a + [x]) == Flatten(a) + x
  {
    FlattenConcat(a, [x]);
    assert Flatten([x]) == x + Flatten([x][1..]) == x;
  }

  function Avail(b: Buf): int {
    LARGE_BUFFER - |Flatten(b.lines)|
  }

  /** FixedBuffer::append: all of the line or nothing. */
  function Store(b: Buf, line: Line): Buf {
    if Avail(b) > |line| then b.(lines := b.lines + [line]) else b
  }

  function LinesOf(bs: seq<Buf>): seq<seq<Line>> {
    seq(|bs|, i requires 0 <= i < |bs| => bs[i].lines)
  }

  function Init(): State {
    State(true, Buf(0, []), Some(Buf(1, [])), [], Some(Buf(2, [])), Some(Buf(3, [])), [], Top, [], 4, [], [])
  }

  function Append(s: State, line: Line): State {
    if Avail(s.current) > |line| then
      s.(current := Store(s.current, line), accepted := s.accepted + [line])
    else
      var spare := if s.next.Some? then s.next.value else Buf(s.nextId, []);
      s.(buffers := s.buffers + [s.current],
         current := Store(spare, line),
         next := None,
         nextId := if s.next.Some? then s.nextId else s.nextId + 1,
         accepted := if Avail(spare) > |line| then s.accepted + [line] else s.accepted)
  }

  /** The part of the back end's loop that holds the mutex. */
  function Swap(s: State): State
    requires s.new1.Some?
  {
    var taken := s.buffers + [s.current];
    s.(toWrite := taken,
       buffers := [],
       current := s.new1.value,
       new1 := None,
       next := if s.next.None? then s.new2 else s.next,
       new2 := if s.next.None? then None else s.new2,
       phase := Swapped,
       rounds := s.rounds + [LinesOf(taken)])
  }

  function Drop(s: State): State {
    if |s.toWrite| > MAX_BUFFERS then
      s.(file := s.file + [Notice(|s.toWrite| - 2)], toWrite := s.toWrite[..2], phase := Writing(0))
    else
      s.(phase := Writing(0))
  }

  function WriteNext(s: State): State
    requires s.phase.Writing? && s.phase.k < |s.toWrite|
  {
    s.(file := s.file + [Text(s.toWrite[s.phase.k].lines)], phase := Writing(s.phase.k + 1))
  }

  /** Keep two buffers at most and hand them back, emptied, as the spares that were used up. */
  function Recycle(s: State): State
    requires s.new1.None? ==> s.toWrite != []
    requires s.new2.None? ==> s.toWrite != [] && (s.new1.None? ==> |s.toWrite| >= 2)
  {
    var kept := if |s.toWrite| > 2 then s.toWrite[..2] else s.toWrite;
    var n := |kept|;
    var left := if s.new1.None? then n - 1 else n;
    s.(new1 := if s.new1.None? then Some(Buf(kept[n - 1].id, [])) else s.new1,
       new2 := if s.new2.None? then Some(Buf(kept[left - 1].id, [])) else s.new2,
       toWrite := [],
       phase := Top)
  }

  datatype Op = DoAppend(line: Line) | DoStop | DoTest | DoSwap | DoDrop | DoWrite | DoRecycle

  predicate Enabled(s: State, op: Op) {
    match op
    case DoAppend(_) => true
    case DoStop => true
    case DoTest => s.phase.Top?
    case DoSwap => s.phase.Ready? && s.new1.Some?
    case DoDrop => s.phase.Swapped?
    case DoWrite => s.phase.Writing? && s.phase.k < |s.toWrite|
    case DoRecycle =>
      && s.phase.Writing? && s.phase.k == |s.toWrite|
      && (s.new1.None? ==> s.toWrite != [])
      && (s.new2.None? ==> s.toWrite != [] && (s.new1.None? ==> |s.toWrite| >= 2))
  }

  function Step(s: State, op: Op): State {
    if !Enabled(s, op) then s else
      match op
      case DoAppend(line) => Append(s, line)
      case DoStop => s.(running := false)
      case DoTest => s.(phase := if s.running then Ready else Done)
      case DoSwap => Swap(s)
      case DoDrop => Drop(s)
      case DoWrite => WriteNext(s)
      case DoRecycle => Recycle(s)
  }

  function Execute(s: State, ops: seq<Op>): State
    decreases |ops|
  {
    if ops == [] then s else Execute(Step(s, ops[0]), ops[1..])
  }

  lemma {:induction false} ExecuteConcat(s: State, a: seq<Op>, b: seq<Op>)
    ensures Execute(s, a + b) == Execute(Execute(s, a), b)
    decreases |a|
  {
    if a == [] {
      assert a + b == b;
    } else {
      assert (a + b)[0] == a[0] && (a + b)[1..] == a[1..] + b;
      ExecuteConcat(Step(s, a[0]), a[1..], b);
    }
  }

  lemma ExecuteSnoc(s: State, a: seq<Op>, op: Op)
    ensures Execute(s, a + [op]) == Step(Execute(s, a), op)
  {
    ExecuteConcat(s, a, [op]);
    assert [op][1..] == [];
    assert Execute(Execute(s, a), [op]) == Execute(Step(Execute(s, a), op), []);
  }

  // ---------- what is in the file and what is not ----------

  /** Of a round that is too long only the first two buffers are kept. */
  function Kept(round: seq<seq<Line>>): seq<seq<Line>> {
    if |round| > MAX_BUFFERS then round[..2] else round
  }

  function Lost(round: seq<seq<Line>>): seq<seq<Line>> {
    if |round| > MAX_BUFFERS then round[2..] else []
  }

  function KeptLines(rounds: seq<seq<seq<Line>>>): seq<Line> {
    if rounds == [] then [] else KeptLines(rounds[..|rounds| - 1]) + Flatten(Kept(rounds[|rounds| - 1]))
  }

  function RoundLines(rounds: seq<seq<seq<Line>>>): seq<Line> {
    if rounds == [] then [] else RoundLines(rounds[..|rounds| - 1]) + Flatten(rounds[|rounds| - 1])
  }

  function FileLines(file: seq<Item>): seq<Line> {
    if file == [] then [] else
      FileLines(file[..|file| - 1]) + (if file[|file| - 1].Text? then file[|file| - 1].lines else [])
  }

  // ---------- the invariant ----------

  /** Nothing is lost on the way: the lines accepted are those of all rounds, then those still in front. */
  ghost predicate Conserved(s: State) {
    s.accepted == RoundLines(s.rounds) + Flatten(LinesOf(s.buffers)) + s.current.lines
  }

  ghost predicate Filed(s: State) {
    match s.phase
    case Swapped =>
      && s.rounds != [] && LinesOf(s.toWrite) == s.rounds[|s.rounds| - 1]
      && FileLines(s.file) == KeptLines(s.rounds[..|s.rounds| - 1])
    case Writing(k) =>
      && s.rounds != [] && LinesOf(s.toWrite) == Kept(s.rounds[|s.rounds| - 1]) && k <= |s.toWrite|
      && FileLines(s.file) == KeptLines(s.rounds[..|s.rounds| - 1]) + Flatten(LinesOf(s.toWrite[..k]))
    case _ => FileLines(s.file) == KeptLines(s.rounds)
  }

  /** The spare buffers: what the asserts of the back end check, and why they hold. */
  ghost predicate Spares(s: State) {
    && (s.next.None? ==> s.buffers != [])
    && (s.next.Some? ==> s.next.value.lines == [])
    && (s.new1.Some? ==> s.new1.value.lines == [])
    && (s.new2.Some? ==> s.new2.value.lines == [])
    && (if s.phase.Swapped? || s.phase.Writing? then
          s.new1.None? && s.toWrite != [] && (s.new2.None? ==> |s.toWrite| >= 2)
        else
          s.new1.Some? && s.new2.Some? && s.toWrite == [])
  }

  function Ids(bs: seq<Buf>): multiset<nat> {
    if bs == [] then multiset{} else multiset{bs[0].id} + Ids(bs[1..])
  }

  function Id(b: Option<Buf>): multiset<nat> {
    if b.Some? then multiset{b.value.id} else multiset{}
  }

  /** The addresses of all buffers that some unique_ptr owns. */
  function Owned(s: State): multiset<nat> {
    multiset{s.current.id} + Id(s.next) + Ids(s.buffers) + Id(s.new1) + Id(s.new2) + Ids(s.toWrite)
  }

  ghost predicate NoRepeat(m: multiset<nat>, bound: nat) {
    forall x :: m[x] <= 1 && (x in m ==> x < bound)
  }

  ghost predicate Distinct(s: State) {
    NoRepeat(Owned(s), s.nextId)
  }

  /** No buffer is ever filled beyond its size. */
  ghost predicate Fits(s: State) {
    Avail(s.current) > 0 && forall i :: 0 <= i < |s.buffers| ==> Avail(s.buffers[i]) > 0
  }

  ghost predicate Inv(s: State) {
    Conserved(s) && Filed(s) && Spares(s) && Distinct(s) && Fits(s)
  }

  // ---------- every step keeps the invariant ----------

  lemma InitInv()
    ensures Inv(Init())
  {
  }

  lemma LinesOfConcat(a: seq<Buf>, b: seq<Buf>)
    ensures LinesOf(a + b) == LinesOf(a) + LinesOf(b)
  {
  }

  lemma FileSnoc(file: seq<Item>, item: Item)
    ensures FileLines(file + [item]) == FileLines(file) + (if item.Text? then item.lines else [])
  {
    assert (file + [item])[..|file|] == file;
  }

  lemma RoundSnoc(rounds: seq<seq<seq<Line>>>, r: seq<seq<Line>>)
    ensures RoundLines(rounds + [r]) == RoundLines(rounds) + Flatten(r)
    ensures KeptLines(rounds + [r]) == KeptLines(rounds) + Flatten(Kept(r))
    ensures (rounds + [r])[..|rounds|] == rounds
  {
  }

  lemma {:induction false} IdsConcat(a: seq<Buf>, b: seq<Buf>)
    ensures Ids(a + b) == Ids(a) + Ids(b)
  {
    if a == [] {
      assert a + b == b;
    } else {
      assert (a + b)[1..] == a[1..] + b;
      IdsConcat(a[1..], b);
    }
  }

  lemma IdsOne(b: Buf)
    ensures Ids([b]) == multiset{b.id}
  {
    assert [b][1..] == [];
  }

  lemma AppendConserves(s: State, line: Line)
    requires Inv(s)
    ensures Conserved(Append(s, line)) && Filed(Append(s, line)) && Spares(Append(s, line)) && Fits(Append(s, line))
  {
    hide Distinct, KeptLines, RoundLines, FileLines;
    FlattenSnoc(s.current.lines, line);
    if Avail(s.current) <= |line| {
      AppendRolls(s, line);
    }
  }

  /** The current buffer goes to the back end and the line starts a new one. */
  lemma AppendRolls(s: State, line: Line)
    requires Conserved(s) && Spares(s) && Fits(s) && Avail(s.current) <= |line|
    ensures Conserved(Append(s, line)) && Spares(Append(s, line)) && Fits(Append(s, line))
  {
    RollConserves(s, line);
    RollSpares(s, line);
  }

  lemma RollConserves(s: State, line: Line)
    requires Conserved(s) && Spares(s) && Avail(s.current) <= |line|
    ensures Conserved(Append(s, line))
  {
    hide KeptLines, RoundLines, FileLines, Flatten, LinesOf;
    var r, front := Append(s, line), Flatten(LinesOf(s.buffers));
    LinesOfConcat(s.buffers, [s.current]);
    LinesOfOne(s.current);
    FlattenSnoc(LinesOf(s.buffers), s.current.lines);
    assert Flatten(LinesOf(r.buffers)) == front + s.current.lines;
    assert r.accepted == s.accepted + r.current.lines;
  }

  lemma LinesOfOne(b: Buf)
    ensures LinesOf([b]) == [b.lines]
  {
  }

  lemma RollSpares(s: State, line: Line)
    requires Spares(s) && Fits(s) && Avail(s.current) <= |line|
    ensures Spares(Append(s, line)) && Fits(Append(s, line))
  {
    assert Flatten([line]) == line by {
      FlattenSnoc([], line);
      assert [] + [line] == [line];
    }
    hide Flatten, LinesOf;
    assert [] + [line] == [line];
  }

  lemma SwapConserves(s: State)
    requires Inv(s) && Enabled(s, DoSwap)
    ensures Conserved(Swap(s)) && Filed(Swap(s)) && Spares(Swap(s)) && Fits(Swap(s))
  {
    SwapTakes(s);
    SwapSpares(s);
  }

  lemma SwapTakes(s: State)
    requires Conserved(s) && Filed(s) && Spares(s) && Enabled(s, DoSwap)
    ensures Conserved(Swap(s)) && Filed(Swap(s))
  {
    hide KeptLines, FileLines, RoundLines;
    var taken := s.buffers + [s.current];
    LinesOfConcat(s.buffers, [s.current]);
    assert LinesOf([s.current]) == [s.current.lines];
    FlattenSnoc(LinesOf(s.buffers), s.current.lines);
    RoundSnoc(s.rounds, LinesOf(taken));
    assert LinesOf([]) == [];
  }

  lemma SwapSpares(s: State)
    requires Spares(s) && Fits(s) && Enabled(s, DoSwap)
    ensures Spares(Swap(s)) && Fits(Swap(s))
  {
    hide LinesOf;
  }

  lemma DropFiles(s: State)
    requires Inv(s) && Enabled(s, DoDrop)
    ensures Conserved(Drop(s)) && Filed(Drop(s)) && Spares(Drop(s)) && Fits(Drop(s))
  {
    hide Distinct, RoundLines, KeptLines;
    if |s.toWrite| > MAX_BUFFERS {
      FileSnoc(s.file, Notice(|s.toWrite| - 2));
      assert LinesOf(s.toWrite[..2]) == LinesOf(s.toWrite)[..2];
    }
    assert LinesOf(s.toWrite[..0]) == [];
  }

  lemma WriteFiles(s: State)
    requires Inv(s) && Enabled(s, DoWrite)
    ensures Conserved(WriteNext(s)) && Filed(WriteNext(s)) && Spares(WriteNext(s)) && Fits(WriteNext(s))
  {
    hide Distinct, RoundLines, KeptLines, Kept;
    var k := s.phase.k;
    FileSnoc(s.file, Text(s.toWrite[k].lines));
    assert s.toWrite[..k + 1] == s.toWrite[..k] + [s.toWrite[k]];
    LinesOfConcat(s.toWrite[..k], [s.toWrite[k]]);
    assert LinesOf([s.toWrite[k]]) == [s.toWrite[k].lines];
    FlattenSnoc(LinesOf(s.toWrite[..k]), s.toWrite[k].lines);
  }

  /** The asserts of the recycling part hold: there are as many buffers as spares to refill. */
  lemma RecycleSafe(s: State)
    requires Inv(s) && s.phase.Writing? && s.phase.k == |s.toWrite|
    ensures Enabled(s, DoRecycle)
    ensures Conserved(Recycle(s)) && Filed(Recycle(s)) && Spares(Recycle(s)) && Fits(Recycle(s))
  {
    hide Distinct;
    assert s.toWrite[..|s.toWrite|] == s.toWrite;
    assert s.rounds == s.rounds[..|s.rounds| - 1] + [s.rounds[|s.rounds| - 1]];
    RoundSnoc(s.rounds[..|s.rounds| - 1], s.rounds[|s.rounds| - 1]);
  }

  /** Every step moves buffers between owners, frees some, or allocates one new one. */
  ghost predicate Moves(s: State, r: State) {
    || (Owned(r) <= Owned(s) && r.nextId == s.nextId)
    || (Owned(r) == Owned(s) + multiset{s.nextId} && r.nextId == s.nextId + 1)
  }

  lemma AppendOwned(s: State, line: Line)
    ensures Moves(s, Append(s, line))
  {
    hide Flatten;
    if Avail(s.current) <= |line| {
      IdsConcat(s.buffers, [s.current]);
      IdsOne(s.current);
      var r := Append(s, line);
      assert Ids(r.buffers) == Ids(s.buffers) + multiset{s.current.id};
      hide Ids;
      if s.next.Some? {
        assert Owned(r) <= Owned(s);
      } else {
        assert Owned(r) == Owned(s) + multiset{s.nextId};
      }
    }
  }

  lemma SwapOwned(s: State)
    requires Enabled(s, DoSwap) && Spares(s)
    ensures Moves(s, Swap(s))
  {
    IdsConcat(s.buffers, [s.current]);
    IdsOne(s.current);
  }

  lemma DropOwned(s: State)
    ensures Moves(s, Drop(s))
  {
    if |s.toWrite| > MAX_BUFFERS {
      assert s.toWrite == s.toWrite[..2] + s.toWrite[2..];
      IdsConcat(s.toWrite[..2], s.toWrite[2..]);
    }
  }

  lemma {:induction false} IdsContains(bs: seq<Buf>, i: nat)
    requires i < |bs|
    ensures multiset{bs[i].id} <= Ids(bs)
  {
    if i > 0 {
      IdsContains(bs[1..], i - 1);
    }
  }

  lemma RecycleOwned(s: State)
    requires Spares(s) && Enabled(s, DoRecycle)
    ensures Moves(s, Recycle(s))
  {
    hide Flatten;
    var r := Recycle(s);
    if s.new2.None? {
      RecycleTwo(s);
    } else {
      IdsContains(s.toWrite, if |s.toWrite| > 2 then 1 else |s.toWrite| - 1);
      hide Ids;
      assert Id(r.new1) <= Ids(s.toWrite);
      Exchange(s, r, Id(r.new1), Ids(s.toWrite));
    }
  }

  lemma RecycleTwo(s: State)
    requires Spares(s) && Enabled(s, DoRecycle) && s.new2.None?
    ensures Moves(s, Recycle(s))
  {
    var r := Recycle(s);
    IdsContains(s.toWrite[1..], 0);
    assert Id(r.new1) == multiset{s.toWrite[1].id} && Id(r.new2) == multiset{s.toWrite[0].id};
    assert Ids(s.toWrite) == multiset{s.toWrite[0].id} + Ids(s.toWrite[1..]);
    hide Ids;
    Exchange(s, r, Id(r.new1) + Id(r.new2), Ids(s.toWrite));
  }

  /** The front is untouched and the back end's buffers shrink from `m` to `n`. */
  lemma Exchange(s: State, r: State, n: multiset<nat>, m: multiset<nat>)
    requires r.current == s.current && r.next == s.next && r.buffers == s.buffers && r.nextId == s.nextId
    requires r.toWrite == [] && s.new1.None? && m == Ids(s.toWrite) && n <= m
    requires if s.new2.None? then n == Id(r.new1) + Id(r.new2) else r.new2 == s.new2 && n == Id(r.new1)
    ensures Moves(s, r)
  {
    assert Ids(r.toWrite) == multiset{};
    NoId(s.new1);
    if s.new2.None? {
      NoId(s.new2);
    }
    hide Ids, Id;
    forall x ensures Owned(r)[x] <= Owned(s)[x] {
      assert n[x] <= m[x];
    }
  }

  lemma NoId(b: Option<Buf>)
    requires b.None?
    ensures Id(b) == multiset{}
  {
  }

  lemma OwnedStep(s: State, op: Op)
    requires Spares(s) && Enabled(s, op)
    ensures Moves(s, Step(s, op))
  {
    hide Moves;
    match op
    case DoAppend(line) => AppendOwned(s, line);
    case DoSwap => SwapOwned(s);
    case DoDrop => DropOwned(s);
    case DoRecycle => RecycleOwned(s);
    case _ => SameOwned(s, Step(s, op));
  }

  lemma SameOwned(s: State, r: State)
    requires r.current == s.current && r.next == s.next && r.buffers == s.buffers && r.new1 == s.new1
    requires r.new2 == s.new2 && r.toWrite == s.toWrite && r.nextId == s.nextId
    ensures Moves(s, r)
  {
  }

  lemma StepDistinct(s: State, op: Op)
    requires Spares(s) && Distinct(s) && Enabled(s, op)
    ensures Distinct(Step(s, op))
  {
    hide Owned, Spares, Step, Enabled;
    OwnedStep(s, op);
    var m, r := Owned(s), Step(s, op);
    if !(Owned(r) <= m && r.nextId == s.nextId) {
      assert s.nextId !in m;
    }
    assert forall x :: x in Owned(r) ==> x in m || x == s.nextId;
  }

  ghost predicate Sound(s: State) {
    Conserved(s) && Filed(s) && Spares(s) && Fits(s)
  }

  lemma StepSound(s: State, op: Op)
    requires Inv(s) && Enabled(s, op)
    ensures Sound(Step(s, op))
  {
    hide Conserved, Filed, Spares, Fits, Distinct;
    match op
    case DoAppend(line) => AppendConserves(s, line);
    case DoSwap => SwapConserves(s);
    case DoDrop => DropFiles(s);
    case DoWrite => WriteFiles(s);
    case DoRecycle => RecycleSafe(s);
    case DoStop => FlagsSound(s, s.(running := false));
    case DoTest => FlagsSound(s, Step(s, op));
  }

  lemma FlagsSound(s: State, r: State)
    requires Sound(s) && (r == s.(running := r.running) || (s.phase.Top? && r == s.(phase := r.phase)))
    requires r.phase != s.phase ==> r.phase.Ready? || r.phase.Done?
    ensures Sound(r)
  {
  }

  lemma StepInv(s: State, op: Op)
    requires Inv(s)
    ensures Inv(Step(s, op))
  {
    hide Conserved, Filed, Spares, Fits, Distinct, Enabled;
    if Enabled(s, op) {
      StepDistinct(s, op);
      StepSound(s, op);
    }
  }

  lemma {:induction false} ExecuteInv(s: State, ops: seq<Op>)
    requires Inv(s)
    ensures Inv(Execute(s, ops))
    decreases |ops|
  {
    if ops != [] {
      hide Inv, Step;
      StepInv(s, ops[0]);
      ExecuteInv(Step(s, ops[0]), ops[1..]);
    }
  }

  // ---------- what every run guarantees ----------

  /** What the back end has still to write of the round that it has taken. */
  function Unwritten(s: State): seq<Line> {
    match s.phase
    case Swapped => Flatten(Kept(LinesOf(s.toWrite)))
    case Writing(k) => if k <= |s.toWrite| then Flatten(LinesOf(s.toWrite[k..])) else []
    case _ => []
  }

  /** The lines that the append calls of a run store: those shorter than 4,000,000 bytes. */
  function Appended(ops: seq<Op>): seq<Line> {
    if ops == [] then [] else
      (if ops[0].DoAppend? && |ops[0].line| < 4_000_000 then [ops[0].line] else []) + Appended(ops[1..])
  }

  lemma StepAccepts(s: State, op: Op)
    requires Fits(s) && Spares(s)
    ensures Step(s, op).accepted == s.accepted + (if op.DoAppend? && |op.line| < 4_000_000 then [op.line] else [])
  {
    hide LinesOf, Swap, Drop, WriteNext, Recycle;
    if op.DoAppend? {
      assert Flatten<char>([]) == [];
    } else {
      OthersAccept(s, op);
      assert s.accepted + [] == s.accepted;
    }
  }

  lemma OthersAccept(s: State, op: Op)
    requires !op.DoAppend?
    ensures Step(s, op).accepted == s.accepted
  {
  }

  lemma StepStores(s: State, op: Op)
    requires Inv(s)
    ensures Step(s, op).accepted == s.accepted + (if op.DoAppend? && |op.line| < 4_000_000 then [op.line] else [])
  {
    hide Conserved, Filed, Distinct, Step;
    StepAccepts(s, op);
  }

  lemma {:induction false} ExecuteAccepts(s: State, ops: seq<Op>)
    requires Inv(s)
    ensures Execute(s, ops).accepted == s.accepted + Appended(ops)
    decreases |ops|
  {
    hide Inv, Step;
    if ops == [] {
      assert s.accepted + [] == s.accepted;
    } else {
      StepStores(s, ops[0]);
      StepInv(s, ops[0]);
      ExecuteAccepts(Step(s, ops[0]), ops[1..]);
    }
  }

  /**
   Conservation and order, at every point of every run: the lines of the append calls are those of the
   rounds swapped out, in order, then those still in front; the file, with what is still to be written of
   the current round, holds what is kept of the rounds. No buffer has two owners.
  */
  lemma LogConserved(ops: seq<Op>)
    ensures var s := Execute(Init(), ops);
            && s.accepted == Appended(ops)
            && Appended(ops) == RoundLines(s.rounds) + Flatten(LinesOf(s.buffers)) + s.current.lines
            && FileLines(s.file) + Unwritten(s) == KeptLines(s.rounds)
            && forall x :: Owned(s)[x] <= 1
  {
    InitInv();
    ExecuteInv(Init(), ops);
    ExecuteAccepts(Init(), ops);
    assert [] + Appended(ops) == Appended(ops);
    var s := Execute(Init(), ops);
    FiledMeans(s);
    hide Execute, Owned, KeptLines, RoundLines, FileLines, Flatten, Spares, Fits, Filed, Unwritten;
  }

  /** The numbers of dropped buffers that the file tells of, and those of the rounds. */
  function NoticesOf(file: seq<Item>): seq<nat> {
    if file == [] then [] else
      NoticesOf(file[..|file| - 1]) + (if file[|file| - 1].Notice? then [file[|file| - 1].dropped] else [])
  }

  function Cuts(rounds: seq<seq<seq<Line>>>): seq<nat> {
    if rounds == [] then [] else
      Cuts(rounds[..|rounds| - 1]) + (if |rounds[|rounds| - 1]| > 25 then [|rounds[|rounds| - 1]| - 2] else [])
  }

  ghost predicate Noticed(s: State) {
    if s.phase.Swapped? then s.rounds != [] && NoticesOf(s.file) == Cuts(s.rounds[..|s.rounds| - 1])
    else NoticesOf(s.file) == Cuts(s.rounds)
  }

  lemma NoticeSnoc(file: seq<Item>, item: Item)
    ensures NoticesOf(file + [item]) == NoticesOf(file) + (if item.Notice? then [item.dropped] else [])
  {
    assert (file + [item])[..|file|] == file;
  }

  lemma StepNotices(s: State, op: Op)
    requires Filed(s) && Spares(s) && Noticed(s)
    ensures Noticed(Step(s, op))
  {
    if Enabled(s, op) {
      match op
      case DoSwap => SwapNotices(s);
      case DoDrop => DropNotices(s);
      case DoWrite =>
        NoticeSnoc(s.file, Text(s.toWrite[s.phase.k].lines));
        hide NoticesOf, Cuts;
      case _ => hide NoticesOf, Cuts, Flatten;
    }
  }

  lemma SwapNotices(s: State)
    requires Noticed(s) && Enabled(s, DoSwap)
    ensures Noticed(Swap(s))
  {
    var r := Swap(s);
    assert r.rounds[..|r.rounds| - 1] == s.rounds;
  }

  lemma DropNotices(s: State)
    requires Filed(s) && Noticed(s) && s.phase.Swapped?
    ensures Noticed(Drop(s))
  {
    assert |s.toWrite| == |LinesOf(s.toWrite)|;
    if |s.toWrite| > 25 {
      NoticeSnoc(s.file, Notice(|s.toWrite| - 2));
    }
    hide NoticesOf;
  }

  lemma {:induction false} ExecuteNotices(s: State, ops: seq<Op>)
    requires Inv(s) && Noticed(s)
    ensures Noticed(Execute(s, ops))
    decreases |ops|
  {
    if ops != [] {
      StepNotices(s, ops[0]);
      hide Inv, Noticed, Step;
      StepInv(s, ops[0]);
      ExecuteNotices(Step(s, ops[0]), ops[1..]);
    }
  }

  /** The file tells, in order, of every round that was cut down, and by how many buffers. */
  lemma DropsAreTold(ops: seq<Op>)
    ensures var s := Execute(Init(), ops); !s.phase.Swapped? ==> NoticesOf(s.file) == Cuts(s.rounds)
  {
    InitInv();
    ExecuteNotices(Init(), ops);
  }

  /** A buffer is allocated only by an append that finds the current buffer full and no spare. */
  lemma AllocationIsRare(s: State, op: Op)
    ensures Step(s, op).nextId ==
            s.nextId + (if op.DoAppend? && Avail(s.current) <= |op.line| && s.next.None? then 1 else 0)
  {
    hide Flatten, LinesOf;
  }

  lemma {:induction false} StoppedStays(s: State, ops: seq<Op>)
    requires !s.running
    ensures !Execute(s, ops).running
    decreases |ops|
  {
    if ops != [] {
      assert !Step(s, ops[0]).running by {
        hide Flatten, LinesOf;
      }
      hide Step;
      StoppedStays(Step(s, ops[0]), ops[1..]);
    }
  }

  lemma {:induction false} RunningStays(s: State, ops: seq<Op>)
    requires s.running && !s.phase.Done? && forall i :: 0 <= i < |ops| ==> !ops[i].DoStop?
    ensures !Execute(s, ops).phase.Done?
    decreases |ops|
  {
    if ops != [] {
      RunningStep(s, ops[0]);
      hide Step;
      RunningStays(Step(s, ops[0]), ops[1..]);
    }
  }

  lemma RunningStep(s: State, op: Op)
    requires s.running && !s.phase.Done? && !op.DoStop?
    ensures Step(s, op).running && !Step(s, op).phase.Done?
  {
    hide Flatten, LinesOf;
  }

  /** The thread ends only after a stop, and then at its next test. */
  lemma StopEnds(before: seq<Op>, later: seq<Op>)
    ensures (forall i :: 0 <= i < |before| ==> !before[i].DoStop?) ==> !Execute(Init(), before).phase.Done?
    ensures var r := Execute(Step(Execute(Init(), before), DoStop), later);
            Enabled(r, DoTest) ==> Step(r, DoTest).phase.Done?
  {
    if forall i :: 0 <= i < |before| ==> !before[i].DoStop? {
      RunningStays(Init(), before);
    }
    StoppedStays(Step(Execute(Init(), before), DoStop), later);
  }

  lemma FiledMeans(s: State)
    requires Filed(s)
    ensures FileLines(s.file) + Unwritten(s) == KeptLines(s.rounds)
  {
    hide KeptLines, RoundLines, FileLines, Flatten, Kept;
    if s.phase.Swapped? || s.phase.Writing? {
      assert s.rounds == s.rounds[..|s.rounds| - 1] + [s.rounds[|s.rounds| - 1]];
      RoundSnoc(s.rounds[..|s.rounds| - 1], s.rounds[|s.rounds| - 1]);
      if s.phase.Writing? {
        var k := s.phase.k;
        assert s.toWrite == s.toWrite[..k] + s.toWrite[k..];
        LinesOfConcat(s.toWrite[..k], s.toWrite[k..]);
        FlattenConcat(LinesOf(s.toWrite[..k]), LinesOf(s.toWrite[k..]));
      }
    }
  }

  lemma {:induction false} NothingLost(rounds: seq<seq<seq<Line>>>)
    requires forall i :: 0 <= i < |rounds| ==> |rounds[i]| <= MAX_BUFFERS
    ensures KeptLines(rounds) == RoundLines(rounds)
  {
    if rounds != [] {
      NothingLost(rounds[..|rounds| - 1]);
    }
  }

  /**
   If no round exceeds 25 buffers, then at every point file, rest of the round being written, front
   buffers and current buffer are all that was accepted, in order.
  */
  lemma NoLossWithoutOverload(ops: seq<Op>)
    ensures var s := Execute(Init(), ops);
            (forall i :: 0 <= i < |s.rounds| ==> |s.rounds[i]| <= MAX_BUFFERS) ==>
              && s.accepted == FileLines(s.file) + Unwritten(s) + Flatten(LinesOf(s.buffers)) + s.current.lines
              && (s.phase.Swapped? ==> Unwritten(s) == Flatten(LinesOf(s.toWrite)))
  {
    LogConserved(ops);
    var s := Execute(Init(), ops);
    if forall i :: 0 <= i < |s.rounds| ==> |s.rounds[i]| <= MAX_BUFFERS {
      NothingLost(s.rounds);
      InitInv();
      ExecuteInv(Init(), ops);
      hide Execute, KeptLines, RoundLines, FileLines, Flatten, Spares, Fits;
    }
  }

  /** A round loses nothing, or one contiguous run of whole buffers, from the third to the last. */
  lemma RoundLosesOneRun(round: seq<seq<Line>>)
    ensures Flatten(round) == Flatten(Kept(round)) + Flatten(Lost(round))
    ensures Lost(round) == [] <==> |round| <= 25
    ensures Lost(round) != [] ==> |Kept(round)| == 2 && Kept(round) + Lost(round) == round
  {
    assert round == Kept(round) + Lost(round);
    FlattenConcat(Kept(round), Lost(round));
  }

  /** A line is stored, whole, exactly if it is shorter than a buffer. */
  lemma AcceptedIffShort(ops: seq<Op>, line: Line)
    ensures var s := Execute(Init(), ops);
            Append(s, line).accepted == s.accepted + (if |line| < 4_000_000 then [line] else [])
  {
    InitInv();
    ExecuteInv(Init(), ops);
  }

  /** How many lines had been accepted at the last swap of a run, or `n` if it has none. */
  function AcceptedAtLastSwap(s: State, ops: seq<Op>, n: nat): nat
    decreases |ops|
  {
    if ops == [] then n else
      AcceptedAtLastSwap(Step(s, ops[0]), ops[1..], if ops[0].DoSwap? && Enabled(s, DoSwap) then |s.accepted| else n)
  }

  /** The lines of the buffers that were dropped. */
  function LostLines(rounds: seq<seq<seq<Line>>>): seq<Line> {
    if rounds == [] then [] else LostLines(rounds[..|rounds| - 1]) + Flatten(Lost(rounds[|rounds| - 1]))
  }

  lemma {:induction false} RoundsSplit(rounds: seq<seq<seq<Line>>>)
    ensures multiset(RoundLines(rounds)) == multiset(KeptLines(rounds)) + multiset(LostLines(rounds))
  {
    if rounds != [] {
      RoundsSplit(rounds[..|rounds| - 1]);
      RoundLosesOneRun(rounds[|rounds| - 1]);
    }
  }

  ghost predicate TookFirst(s: State, n: nat) {
    n <= |s.accepted| && RoundLines(s.rounds) == s.accepted[..n]
  }

  lemma StepTakes(s: State, op: Op, n: nat)
    requires Inv(s) && TookFirst(s, n)
    ensures TookFirst(Step(s, op), if op.DoSwap? && Enabled(s, DoSwap) then |s.accepted| else n)
  {
    hide Inv, RoundLines, Step, Enabled;
    if op.DoSwap? && Enabled(s, DoSwap) {
      TakenBySwap(s);
      assert s.accepted[..|s.accepted|] == s.accepted;
    } else {
      RoundsStay(s, op);
    }
  }

  lemma RoundsStay(s: State, op: Op)
    requires op.DoSwap? ==> !Enabled(s, DoSwap)
    ensures Step(s, op).rounds == s.rounds && s.accepted <= Step(s, op).accepted
  {
    hide Flatten, LinesOf, Swap, Store, Avail;
  }

  lemma {:induction false} ExecuteTakes(s: State, ops: seq<Op>, n: nat)
    requires Inv(s) && TookFirst(s, n)
    ensures TookFirst(Execute(s, ops), AcceptedAtLastSwap(s, ops, n))
    decreases |ops|
  {
    if ops != [] {
      hide Inv, TookFirst, Step, Enabled;
      StepInv(s, ops[0]);
      StepTakes(s, ops[0], n);
      ExecuteTakes(Step(s, ops[0]), ops[1..], if ops[0].DoSwap? && Enabled(s, DoSwap) then |s.accepted| else n);
    }
  }

  /**
   What is missing. At every point the lines accepted before the last swap are those of the rounds, and
   the later ones are still in front. When the thread has ended, the accepted lines that are not in the
   file are those of the dropped buffers, and what was accepted after the last swap (everything, if
   there was none).
  */
  lemma MissingAtExit(ops: seq<Op>)
    ensures var s, n := Execute(Init(), ops), AcceptedAtLastSwap(Init(), ops, 0);
            && n <= |s.accepted| && s.accepted[..n] == RoundLines(s.rounds)
            && s.accepted[n..] == Flatten(LinesOf(s.buffers)) + s.current.lines
            && (s.phase.Done? ==>
                  && FileLines(s.file) == KeptLines(s.rounds)
                  && multiset(s.accepted) ==
                     multiset(FileLines(s.file)) + multiset(LostLines(s.rounds)) + multiset(s.accepted[n..]))
  {
    InitInv();
    ExecuteTakes(Init(), ops, 0);
    ExecuteInv(Init(), ops);
    var s, n := Execute(Init(), ops), AcceptedAtLastSwap(Init(), ops, 0);
    hide Execute, AcceptedAtLastSwap, Init;
    ExitFacts(s, n);
  }

  lemma ExitFacts(s: State, n: nat)
    requires Inv(s) && TookFirst(s, n)
    ensures s.accepted[n..] == Flatten(LinesOf(s.buffers)) + s.current.lines
    ensures s.phase.Done? ==>
              && FileLines(s.file) == KeptLines(s.rounds)
              && multiset(s.accepted) ==
                 multiset(FileLines(s.file)) + multiset(LostLines(s.rounds)) + multiset(s.accepted[n..])
  {
    InvConserved(s);
    RoundsSplit(s.rounds);
    assert s.accepted == s.accepted[..n] + s.accepted[n..];
    hide Spares, Fits, Distinct, RoundLines, KeptLines, LostLines, FileLines, Flatten, LinesOf;
  }

  lemma TakenBySwap(s: State)
    requires Inv(s) && Enabled(s, DoSwap)
    ensures var r := Step(s, DoSwap); r.accepted == s.accepted == RoundLines(r.rounds)
  {
    SwapTakes(s);
    hide RoundLines;
    assert LinesOf([]) == [];
  }

  lemma InvConserved(s: State)
    requires Inv(s)
    ensures s.accepted == RoundLines(s.rounds) + (Flatten(LinesOf(s.buffers)) + s.current.lines)
  {
  }

  /** In every round the asserts of the back end hold, and it always has a next step until it is done. */
  lemma BackEndAsserts(ops: seq<Op>)
    ensures var s := Execute(Init(), ops);
            && (s.phase.Top? || s.phase.Ready? ==>
                  && s.new1.Some? && s.new1.value.lines == [] && s.new2.Some? && s.new2.value.lines == []
                  && s.toWrite == [])
            && (s.phase.Swapped? ==> s.toWrite != [])
            && (s.phase.Writing? ==> Enabled(s, DoWrite) || Enabled(s, DoRecycle))
            && (s.phase.Ready? ==> Enabled(s, DoSwap))
  {
    InitInv();
    ExecuteInv(Init(), ops);
    var s := Execute(Init(), ops);
    if s.phase.Writing? && s.phase.k == |s.toWrite| {
      RecycleSafe(s);
    }
  }
}

/** The AsyncLogging class, its back-end thread included. */
module AsyncLoggingClass {
  import opened Common
  import opened AsyncLoggingModel

  /** What front-end threads do while the back end does not hold the mutex. */
  type FrontOp = op: Op | op.DoAppend? || op.DoStop? witness DoStop

  /** Front-end operations during one round: before its swap, before the n-th write, before its end. */
  datatype Round = Round(waiting: seq<FrontOp>, writing: nat -> seq<FrontOp>, recycling: seq<FrontOp>)

  /** Front-end operations leave the back end where it is. */
  lemma {:induction false} FrontLeaves(s: State, ops: seq<FrontOp>)
    ensures var r := Execute(s, ops);
            r.phase == s.phase && r.new1 == s.new1 && r.new2 == s.new2 && r.toWrite == s.toWrite && r.rounds == s.rounds
    decreases |ops|
  {
    if ops != [] {
      FrontLeaves(Step(s, ops[0]), ops[1..]);
    }
  }

  class AsyncLogging {
    var running: bool
    var currentBuffer: Buf
    var nextBuffer: Option<Buf>
    var buffers: seq<Buf>

    // the back end's locals
    var newBuffer1: Option<Buf>
    var newBuffer2: Option<Buf>
    var buffersToWrite: seq<Buf>

    // the log file and the allocator
    var output: seq<Item>
    var nextId: nat

    ghost var phase: Phase
    ghost var accepted: seq<Line>
    ghost var rounds: seq<seq<seq<Line>>>

    ghost function Abs(): State
      reads this
    {
      State(running, currentBuffer, nextBuffer, buffers, newBuffer1, newBuffer2, buffersToWrite, phase,
            output, nextId, accepted, rounds)
    }

    constructor ()
      ensures Abs() == Init() && Inv(Abs())
    {
      running := true;
      currentBuffer, nextBuffer, buffers := Buf(0, []), Some(Buf(1, [])), [];
      newBuffer1, newBuffer2, buffersToWrite := Some(Buf(2, [])), Some(Buf(3, [])), [];
      output, nextId := [], 4;
      phase, accepted, rounds := Top, [], [];
      new;
      InitInv();
    }

    /** append: the whole line into the current buffer, or into a new current buffer. */
    method AppendLine(logline: Line)
      requires Inv(Abs())
      modifies this
      ensures Inv(Abs()) && Abs() == Append(old(Abs()), logline)
    {
      hide Inv, Flatten;
      StepInv(Abs(), DoAppend(logline));
      if Avail(currentBuffer) > |logline| {
        currentBuffer := Store(currentBuffer, logline);
        accepted := accepted + [logline];
      } else {
        buffers := buffers + [currentBuffer];
        if nextBuffer.Some? {
          currentBuffer := nextBuffer.value;
          nextBuffer := None;
        } else {
          currentBuffer := Buf(nextId, []);
          nextId := nextId + 1;
        }
        accepted := if Avail(currentBuffer) > |logline| then accepted + [logline] else accepted;
        currentBuffer := Store(currentBuffer, logline);
      }
    }

    method Front(ops: seq<FrontOp>)
      requires Inv(Abs())
      modifies this
      ensures Inv(Abs()) && Abs() == Execute(old(Abs()), ops)
      ensures phase == old(phase) && newBuffer1 == old(newBuffer1) && newBuffer2 == old(newBuffer2)
      ensures buffersToWrite == old(buffersToWrite)
    {
      hide Inv;
      ghost var s0 := Abs();
      FrontLeaves(s0, ops);
      for i := 0 to |ops|
        invariant Inv(Abs()) && Execute(Abs(), ops[i..]) == Execute(s0, ops)
      {
        assert ops[i..][0] == ops[i] && ops[i..][1..] == ops[i + 1..];
        match ops[i] {
          case DoAppend(line) => AppendLine(line);
          case DoStop => StepInv(Abs(), DoStop); running := false;
        }
      }
      assert ops[|ops|..] == [];
    }

    /** The locked part of the loop of threadFunc. */
    method SwapBuffers()
      requires Inv(Abs()) && phase.Ready?
      modifies this
      ensures Inv(Abs()) && Abs() == Step(old(Abs()), DoSwap) && phase.Swapped?
    {
      hide Inv;
      SparesReady(Abs());
      StepInv(Abs(), DoSwap);
      rounds := rounds + [LinesOf(buffers + [currentBuffer])];
      buffers := buffers + [currentBuffer];
      currentBuffer := newBuffer1.value;
      newBuffer1 := None;
      buffersToWrite, buffers := buffers, [];
      if nextBuffer.None? {
        nextBuffer, newBuffer2 := newBuffer2, None;
      }
      phase := Swapped;
    }

    method DropExcess()
      requires Inv(Abs()) && phase.Swapped?
      modifies this
      ensures Inv(Abs()) && Abs() == Step(old(Abs()), DoDrop) && phase == Writing(0)
    {
      hide Inv;
      BatchReady(Abs());
      assert buffersToWrite != [];
      StepInv(Abs(), DoDrop);
      if |buffersToWrite| > 25 {
        output := output + [Notice(|buffersToWrite| - 2)];
        buffersToWrite := buffersToWrite[..2];
      }
      phase := Writing(0);
    }

    /** Writing the buffers of a round; front ends append meanwhile. */
    method WriteBuffers(front: nat -> seq<FrontOp>) returns (ghost run: seq<Op>)
      requires Inv(Abs()) && phase == Writing(0)
      modifies this
      ensures Inv(Abs()) && Abs() == Execute(old(Abs()), run)
      ensures phase == Writing(|buffersToWrite|) && buffersToWrite == old(buffersToWrite)
    {
      hide Inv, Execute;
      ghost var s0 := Abs();
      ExecuteNone(s0);
      run := [];
      for i := 0 to |buffersToWrite|
        invariant Inv(Abs()) && Abs() == Execute(s0, run)
        invariant phase == Writing(i) && buffersToWrite == old(buffersToWrite)
      {
        ExecuteConcat(s0, run, front(i));
        ExecuteSnoc(s0, run + front(i), DoWrite);
        run := run + front(i) + [DoWrite];
        Front(front(i));
        StepInv(Abs(), DoWrite);
        output := output + [Text(buffersToWrite[i].lines)];
        phase := Writing(i + 1);
      }
    }

    lemma ExecuteNone(s: State)
      ensures Execute(s, []) == s
    {
    }

    /** The end of a round, with the asserts of the source. */
    method RecycleBuffers()
      requires Inv(Abs()) && phase == Writing(|buffersToWrite|)
      modifies this
      ensures Inv(Abs()) && Abs() == Step(old(Abs()), DoRecycle) && phase.Top?
    {
      hide Inv;
      BatchReady(Abs());
      StepInv(Abs(), DoRecycle);
      if |buffersToWrite| > 2 {
        buffersToWrite := buffersToWrite[..2];
      }
      if newBuffer1.None? {
        assert buffersToWrite != [];
        newBuffer1 := Some(Buf(buffersToWrite[|buffersToWrite| - 1].id, []));
        buffersToWrite := buffersToWrite[..|buffersToWrite| - 1];
      }
      if newBuffer2.None? {
        assert buffersToWrite != [];
        newBuffer2 := Some(Buf(buffersToWrite[|buffersToWrite| - 1].id, []));
        buffersToWrite := buffersToWrite[..|buffersToWrite| - 1];
      }
      buffersToWrite := [];
      phase := Top;
    }

    /**
     threadFunc, for any number of rounds (`limit`) of any front-end activity: a run of the state
     machine in which every assert of the source holds.
    */
    method ThreadFunc(script: nat -> Round, limit: nat) returns (ghost run: seq<Op>)
      requires Inv(Abs()) && phase.Top?
      modifies this
      ensures Inv(Abs()) && Abs() == Execute(old(Abs()), run)
      ensures phase.Top? || (phase.Done? && !running)
    {
      hide Inv, Execute;
      ghost var s0 := Abs();
      ExecuteNone(s0);
      run := [];
      var n := 0;
      while running && n < limit
        invariant Inv(Abs()) && phase.Top? && Abs() == Execute(s0, run)
        decreases limit - n
      {
        ghost var more := OneRound(script(n));
        ExecuteConcat(s0, run, more);
        run := run + more;
        n := n + 1;
      }
      if !running {
        ExecuteSnoc(s0, run, DoTest);
        run := run + [DoTest];
        StepInv(Abs(), DoTest);
        phase := Done;
      }
    }

    method OneRound(script: Round) returns (ghost run: seq<Op>)
      requires Inv(Abs()) && phase.Top? && running
      modifies this
      ensures Inv(Abs()) && phase.Top? && Abs() == Execute(old(Abs()), run)
    {
      hide Inv, Execute;
      SparesReady(Abs());
      assert newBuffer1.Some? && newBuffer1.value.lines == [];
      assert newBuffer2.Some? && newBuffer2.value.lines == [];
      assert buffersToWrite == [];
      ghost var s0 := Abs();
      ExecuteNone(s0);
      ExecuteSnoc(s0, [], DoTest);
      ExecuteConcat(s0, [] + [DoTest], script.waiting);
      run := [] + [DoTest] + script.waiting;
      StepInv(Abs(), DoTest);
      phase := Ready;
      Front(script.waiting);
      ExecuteSnoc(s0, run, DoSwap);
      ExecuteSnoc(s0, run + [DoSwap], DoDrop);
      run := run + [DoSwap] + [DoDrop];
      SwapBuffers();
      DropExcess();
      ghost var writes := WriteBuffers(script.writing);
      ExecuteConcat(s0, run, writes);
      run := run + writes;
      ExecuteConcat(s0, run, script.recycling);
      ExecuteSnoc(s0, run + script.recycling, DoRecycle);
      run := run + script.recycling + [DoRecycle];
      Front(script.recycling);
      RecycleBuffers();
    }

    lemma SparesReady(s: State)
      requires Inv(s) && (s.phase.Top? || s.phase.Ready?)
      ensures s.new1.Some? && s.new1.value.lines == [] && s.new2.Some? && s.new2.value.lines == [] && s.toWrite == []
    {
    }

    lemma BatchReady(s: State)
      requires Inv(s) && (s.phase.Swapped? || s.phase.Writing?)
      ensures s.new1.None? && s.toWrite != [] && (s.new2.None? ==> |s.toWrite| >= 2)
    {
    }
  }
}
