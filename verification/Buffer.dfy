/** Integers in network byte order, and queues of them in a byte string. */
module NetworkOrder {
  type Byte = c: char | c as int < 256 witness '\0'

  function Pow256(w: nat): (p: nat)
    ensures p > 0
  {
    if w == 0 then 1 else 256 * Pow256(w - 1)
  }

  /** The signed integers of `w` bytes. */
  predicate Fits(w: nat, x: int) {
    -(Pow256(w) as int) <= 2 * x < Pow256(w)
  }

  function ToUnsigned(w: nat, x: int): nat
    requires Fits(w, x)
  {
    if x < 0 then x + Pow256(w) else x
  }

  function FromUnsigned(w: nat, n: nat): int {
    if 2 * n >= Pow256(w) then n - Pow256(w) else n
  }

  function EncodeUnsigned(w: nat, n: nat): (s: seq<Byte>)
    ensures |s| == w
  {
    if w == 0 then [] else EncodeUnsigned(w - 1, n / 256) + [(n % 256) as char]
  }

  function DecodeUnsigned(s: seq<Byte>): nat {
    if s == [] then 0 else 256 * DecodeUnsigned(s[..|s| - 1]) + s[|s| - 1] as nat
  }

  /** appendIntNN and prependIntNN store this; peekIntNN reads it. */
  function EncodeInt(w: nat, x: int): (s: seq<Byte>)
    requires Fits(w, x)
    ensures |s| == w
  {
    EncodeUnsigned(w, ToUnsigned(w, x))
  }

  function DecodeInt(s: seq<Byte>): int {
    FromUnsigned(|s|, DecodeUnsigned(s))
  }

  lemma {:induction false} UnsignedRoundTrip(w: nat, n: nat)
    requires n < Pow256(w)
    ensures DecodeUnsigned(EncodeUnsigned(w, n)) == n
  {
    if w > 0 {
      UnsignedRoundTrip(w - 1, n / 256);
      var s := EncodeUnsigned(w, n);
      assert s[..|s| - 1] == EncodeUnsigned(w - 1, n / 256);
    }
  }

  lemma DivDiv(n: nat, k: nat)
    requires k > 0
    ensures n / 256 / k == n / (256 * k)
  {
    var q, r := n / 256 / k, n / 256 % k;
    Division(n / 256, k);
    assert 256 * (k * q + r) == (256 * k) * q + 256 * r;
    Quotient(n, 256 * k, q, 256 * r + n % 256);
  }

  lemma Division(n: nat, d: nat)
    requires d > 0
    ensures n == d * (n / d) + n % d
  {
  }

  lemma AtLeast(d: nat, x: int)
    requires d > 0
    ensures x >= 1 ==> d * x >= d
    ensures x <= -1 ==> d * x <= -(d as int)
  {
  }

  lemma Quotient(n: nat, d: nat, q: nat, r: nat)
    requires n == d * q + r && r < d
    ensures n / d == q
  {
    var e := n / d;
    Division(n, d);
    assert d * (q - e) == d * q - d * e;
    AtLeast(d, q - e);
  }

  /** Network order: the most significant byte comes first. */
  lemma {:induction false} BigEndian(w: nat, n: nat, i: nat)
    requires i < w
    ensures EncodeUnsigned(w, n)[i] as nat == n / Pow256(w - 1 - i) % 256
  {
    if i < w - 1 {
      BigEndian(w - 1, n / 256, i);
      DivDiv(n, Pow256(w - 2 - i));
    }
  }

  lemma {:induction false} IntRoundTrip(w: nat, x: int)
    requires Fits(w, x)
    ensures DecodeInt(EncodeInt(w, x)) == x
  {
    UnsignedRoundTrip(w, ToUnsigned(w, x));
  }

  // ---------- a queue of integers of mixed widths ----------

  datatype Item = Item(width: nat, value: int)

  ghost predicate AllFit(items: seq<Item>) {
    forall i :: 0 <= i < |items| ==> Fits(items[i].width, items[i].value)
  }

  /** One call of appendIntNN or of prependIntNN. */
  datatype IntOp = AppendOp(item: Item) | PrependOp(item: Item)

  ghost predicate AllOpsFit(ops: seq<IntOp>) {
    forall i :: 0 <= i < |ops| ==> Fits(ops[i].item.width, ops[i].item.value)
  }

  /** The bytes after the calls `ops` on a buffer with contents `s`. */
  function Stored(s: seq<Byte>, ops: seq<IntOp>): seq<Byte>
    requires AllOpsFit(ops)
    decreases |ops|
  {
    if ops == [] then s else
      var b := EncodeInt(ops[0].item.width, ops[0].item.value);
      Stored(if ops[0].AppendOp? then s + b else b + s, ops[1..])
  }

  lemma {:induction false} StoredSnoc(s: seq<Byte>, ops: seq<IntOp>, op: IntOp)
    requires AllOpsFit(ops) && Fits(op.item.width, op.item.value)
    ensures AllOpsFit(ops + [op])
    ensures var b := EncodeInt(op.item.width, op.item.value);
            Stored(s, ops + [op]) == if op.AppendOp? then Stored(s, ops) + b else b + Stored(s, ops)
    decreases |ops|
  {
    if ops == [] {
      assert ([] + [op])[1..] == [];
    } else {
      assert (ops + [op])[0] == ops[0] && (ops + [op])[1..] == ops[1..] + [op];
      var b := EncodeInt(ops[0].item.width, ops[0].item.value);
      StoredSnoc(if ops[0].AppendOp? then s + b else b + s, ops[1..], op);
    }
  }

  /** The integers, front to back, after the calls `ops` on a queue holding `items`. */
  function Queued(items: seq<Item>, ops: seq<IntOp>): seq<Item>
    decreases |ops|
  {
    if ops == [] then items else
      Queued(if ops[0].AppendOp? then items + [ops[0].item] else [ops[0].item] + items, ops[1..])
  }

  function EncodeAll(items: seq<Item>): seq<Byte>
    requires AllFit(items)
  {
    if items == [] then [] else EncodeInt(items[0].width, items[0].value) + EncodeAll(items[1..])
  }

  /** Reading integers of the given widths off the front: the values, and the bytes that are left. */
  function ReadAll(s: seq<Byte>, widths: seq<nat>): (seq<int>, seq<Byte>)
    decreases |widths|
  {
    if widths == [] || |s| < widths[0] then ([], s) else
      var (values, left) := ReadAll(s[widths[0]..], widths[1..]);
      ([DecodeInt(s[..widths[0]])] + values, left)
  }

  function Widths(items: seq<Item>): seq<nat> { seq(|items|, i requires 0 <= i < |items| => items[i].width) }
  function Values(items: seq<Item>): seq<int> { seq(|items|, i requires 0 <= i < |items| => items[i].value) }

  lemma {:induction false} EncodeAllConcat(a: seq<Item>, b: seq<Item>)
    requires AllFit(a) && AllFit(b)
    ensures AllFit(a + b) && EncodeAll(a + b) == EncodeAll(a) + EncodeAll(b)
    decreases |a|
  {
    if a == [] {
      assert a + b == b;
    } else {
      assert (a + b)[0] == a[0] && (a + b)[1..] == a[1..] + b;
      EncodeAllConcat(a[1..], b);
    }
  }

  lemma EncodeAllOne(item: Item)
    requires Fits(item.width, item.value)
    ensures AllFit([item]) && EncodeAll([item]) == EncodeInt(item.width, item.value)
  {
    assert [item][1..] == [];
    assert EncodeAll([item]) == EncodeInt(item.width, item.value) + EncodeAll([]);
  }

  lemma {:induction false} StoredIsQueued(items: seq<Item>, ops: seq<IntOp>)
    requires AllFit(items) && AllOpsFit(ops)
    ensures AllFit(Queued(items, ops)) && Stored(EncodeAll(items), ops) == EncodeAll(Queued(items, ops))
    decreases |ops|
  {
    if ops != [] {
      var item := ops[0].item;
      EncodeAllOne(item);
      EncodeAllConcat(items, [item]);
      EncodeAllConcat([item], items);
      StoredIsQueued(if ops[0].AppendOp? then items + [item] else [item] + items, ops[1..]);
    }
  }

  lemma {:induction false} ReadBack(items: seq<Item>, rest: seq<Byte>)
    requires AllFit(items)
    ensures ReadAll(EncodeAll(items) + rest, Widths(items)) == (Values(items), rest)
    decreases |items|
  {
    if items == [] {
      assert EncodeAll(items) + rest == rest;
    } else {
      var w := items[0].width;
      var s := EncodeAll(items) + rest;
      assert s[..w] == EncodeInt(w, items[0].value) && s[w..] == EncodeAll(items[1..]) + rest;
      IntRoundTrip(w, items[0].value);
      assert Widths(items)[1..] == Widths(items[1..]);
      assert Values(items) == [items[0].value] + Values(items[1..]);
      ReadBack(items[1..], rest);
    }
  }

  /** Any mixed sequence of appended and prepended integers reads back unchanged, in the order of the queue. */
  lemma MixedIntegersReadBack(ops: seq<IntOp>)
    requires AllOpsFit(ops)
    ensures var items := Queued([], ops);
            ReadAll(Stored([], ops), Widths(items)) == (Values(items), [])
  {
    var items := Queued([], ops);
    StoredIsQueued([], ops);
    ReadBack(items, []);
    assert EncodeAll(items) + [] == EncodeAll(items);
  }
}

/** The Buffer class: a growable array with a read and a write index, refining a plain string of bytes. */
module BufferClass {
  import opened Common
  import opened NetworkOrder
  import opened TextSearch

  /** What readv answers: an error, or the bytes it took from the socket. */
  datatype ReadAnswer = ReadError(errno: int) | ReadBytes(bytes: seq<Byte>)

  const CHEAP_PREPEND: nat := 8
  const EXTRA_BUF: nat := 65535

  class Buffer {
    var data: array<Byte>
    var readerIndex: nat
    var writerIndex: nat

    ghost predicate Valid()
      reads this
    {
      readerIndex <= writerIndex <= data.Length && CHEAP_PREPEND <= data.Length
    }

    /** The readable bytes. */
    ghost function Contents(): seq<Byte>
      requires Valid()
      reads this, data
    {
      data[readerIndex..writerIndex]
    }

    function ReadableBytes(): (n: nat)
      requires Valid()
      reads this, data
      ensures n == |Contents()|
    {
      writerIndex - readerIndex
    }

    function WritableBytes(): nat
      requires Valid()
      reads this
    {
      data.Length - writerIndex
    }

    function PrependableBytes(): nat
      reads this
    {
      readerIndex
    }

    constructor (initialSize: nat)
      ensures Valid() && Contents() == [] && fresh(data)
      ensures WritableBytes() == initialSize && PrependableBytes() == CHEAP_PREPEND
    {
      data := new Byte[CHEAP_PREPEND + initialSize](_ => '\0');
      readerIndex, writerIndex := CHEAP_PREPEND, CHEAP_PREPEND;
    }

    method RetrieveAll()
      requires Valid()
      modifies this`readerIndex, this`writerIndex
      ensures Valid() && Contents() == []
    {
      readerIndex, writerIndex := CHEAP_PREPEND, CHEAP_PREPEND;
    }

    method Retrieve(len: nat)
      requires Valid() && len <= |Contents()|
      modifies this`readerIndex, this`writerIndex
      ensures Valid() && Contents() == old(Contents())[len..]
    {
      if len < ReadableBytes() {
        readerIndex := readerIndex + len;
      } else {
        RetrieveAll();
      }
    }

    method RetrieveAsString(len: nat) returns (result: seq<Byte>)
      requires Valid() && len <= |Contents()|
      modifies this`readerIndex, this`writerIndex
      ensures Valid() && old(Contents()) == result + Contents() && |result| == len
    {
      ghost var was := Contents();
      result := data[readerIndex..readerIndex + len];
      assert result == was[..len];
      Retrieve(len);
      assert was == was[..len] + was[len..];
    }

    method Unwrite(len: nat)
      requires Valid() && len <= |Contents()|
      modifies this`writerIndex
      ensures Valid() && Contents() == old(Contents())[..|old(Contents())| - len]
    {
      writerIndex := writerIndex - len;
    }

    /** vector::resize to a greater size. */
    method Resize(size: nat)
      requires Valid() && data.Length <= size
      modifies this`data
      ensures Valid() && fresh(data) && data.Length == size
      ensures Contents() == old(Contents()) && readerIndex == old(readerIndex)
    {
      var bigger := new Byte[size](_ => '\0');
      forall i | 0 <= i < data.Length {
        bigger[i] := data[i];
      }
      data := bigger;
    }

    /** std::copy of the readable bytes down to the front; source and target may overlap. */
    method Compact()
      requires Valid() && CHEAP_PREPEND < readerIndex
      modifies this`readerIndex, this`writerIndex, data
      ensures Valid() && Contents() == old(Contents()) && readerIndex == CHEAP_PREPEND
    {
      var readable := ReadableBytes();
      ghost var was := Contents();
      for i := 0 to readable
        invariant Valid() && readerIndex == old(readerIndex) && writerIndex == old(writerIndex)
        invariant forall k :: 0 <= k < i ==> was[k] == data[CHEAP_PREPEND + k]
        invariant forall k :: i <= k < readable ==> was[k] == data[readerIndex + k]
      {
        data[CHEAP_PREPEND + i] := data[readerIndex + i];
      }
      readerIndex := CHEAP_PREPEND;
      writerIndex := readerIndex + readable;
      assert readable == ReadableBytes();
    }

    /** Grow, or make the free bytes contiguous; the assert of the source holds because the caller found too little room. */
    method MakeSpace(len: nat)
      requires Valid() && WritableBytes() < len
      modifies this, data
      ensures Valid() && (fresh(data) || data == old(data))
      ensures Contents() == old(Contents()) && WritableBytes() >= len
      ensures PrependableBytes() == old(PrependableBytes()) || PrependableBytes() == CHEAP_PREPEND
    {
      if WritableBytes() + PrependableBytes() < len + CHEAP_PREPEND {
        Resize(writerIndex + len);
      } else {
        assert CHEAP_PREPEND < readerIndex;
        Compact();
      }
    }

    method EnsureWritableBytes(len: nat)
      requires Valid()
      modifies this, data
      ensures Valid() && (fresh(data) || data == old(data))
      ensures Contents() == old(Contents()) && WritableBytes() >= len
      ensures PrependableBytes() == old(PrependableBytes()) || PrependableBytes() == CHEAP_PREPEND
    {
      if WritableBytes() < len {
        MakeSpace(len);
      }
    }

    /** std::copy to beginWrite(), then hasWritten. */
    method WriteHere(bytes: seq<Byte>)
      requires Valid() && |bytes| <= WritableBytes()
      modifies this`writerIndex, data
      ensures Valid() && Contents() == old(Contents()) + bytes && readerIndex == old(readerIndex)
    {
      for i := 0 to |bytes|
        invariant Valid() && writerIndex == old(writerIndex) && readerIndex == old(readerIndex)
        invariant writerIndex + |bytes| <= data.Length
        invariant data[readerIndex..writerIndex] == old(data[readerIndex..writerIndex])
        invariant data[writerIndex..writerIndex + i] == bytes[..i]
      {
        data[writerIndex + i] := bytes[i];
      }
      assert bytes[..|bytes|] == bytes;
      ghost var from := writerIndex;
      assert data[from..from + |bytes|] == bytes;
      writerIndex := writerIndex + |bytes|;
      assert readerIndex <= from <= writerIndex <= data.Length;
      assert data[readerIndex..writerIndex] == data[readerIndex..from] + data[from..writerIndex];
    }

    method Append(bytes: seq<Byte>)
      requires Valid()
      modifies this, data
      ensures Valid() && (fresh(data) || data == old(data))
      ensures Contents() == old(Contents()) + bytes
      ensures PrependableBytes() == old(PrependableBytes()) || PrependableBytes() == CHEAP_PREPEND
    {
      EnsureWritableBytes(|bytes|);
      WriteHere(bytes);
    }

    method Prepend(bytes: seq<Byte>)
      requires Valid() && |bytes| <= PrependableBytes()
      modifies this`readerIndex, data
      ensures Valid() && Contents() == bytes + old(Contents())
      ensures PrependableBytes() == old(PrependableBytes()) - |bytes|
    {
      readerIndex := readerIndex - |bytes|;
      for i := 0 to |bytes|
        invariant Valid() && readerIndex == old(readerIndex) - |bytes|
        invariant writerIndex == old(writerIndex)
        invariant forall k :: 0 <= k < i ==> data[readerIndex + k] == bytes[k]
        invariant forall k :: old(readerIndex) <= k < writerIndex ==> data[k] == old(data[k])
      {
        data[readerIndex + i] := bytes[i];
      }
      assert data[readerIndex..readerIndex + |bytes|] == bytes;
      assert data[readerIndex + |bytes|..writerIndex] == old(Contents());
      assert data[readerIndex..writerIndex] ==
             data[readerIndex..readerIndex + |bytes|] + data[readerIndex + |bytes|..writerIndex];
    }

    /** shrink: a new buffer with just the readable bytes and room for `reserve`, swapped in. */
    method Shrink(reserve: nat)
      requires Valid()
      modifies this
      ensures Valid() && fresh(data)
      ensures Contents() == old(Contents()) && WritableBytes() >= reserve
    {
      var other := new Buffer(1024);
      var readable := data[readerIndex..writerIndex];
      other.EnsureWritableBytes(|readable| + reserve);
      other.WriteHere(readable);
      data, readerIndex, writerIndex := other.data, other.readerIndex, other.writerIndex;
    }

    /** The kernel gives at most what the iovec offers: the tail, and the stack block if the tail is short. */
    predicate Offered(n: nat)
      requires Valid()
      reads this
    {
      n <= WritableBytes() + (if WritableBytes() < EXTRA_BUF then EXTRA_BUF else 0)
    }

    /** readFd: what the kernel gave is appended, in order, whether it fits in the tail or spills over. */
    method ReadFd(answer: ReadAnswer) returns (n: int)
      requires Valid() && (answer.ReadBytes? ==> Offered(|answer.bytes|))
      modifies this, data
      ensures Valid() && (fresh(data) || data == old(data))
      ensures Contents() == old(Contents()) + (if answer.ReadBytes? then answer.bytes else [])
      ensures n == if answer.ReadBytes? then |answer.bytes| else -1
    {
      match answer
      case ReadError(_) => n := -1;
      case ReadBytes(bytes) =>
        n := |bytes|;
        var writable := WritableBytes();
        if n <= writable {
          WriteHere(bytes);
        } else {
          WriteHere(bytes[..writable]);
          assert writerIndex == data.Length;
          Append(bytes[writable..]);
          assert bytes == bytes[..writable] + bytes[writable..];
        }
    }

    /** findCRLF from `start`; both positions count from the first readable byte. */
    method FindCRLF(start: nat) returns (r: Option<nat>)
      requires Valid() && start <= |Contents()|
      ensures r == match FirstCrlf(Contents()[start..]) case Some(i) => Some(start + i) case None => None
    {
      var i := start;
      while readerIndex + i + 1 < writerIndex
        invariant start <= i <= |Contents()|
        invariant forall j :: 0 <= j < i - start ==> !CrlfAt(Contents()[start..], j)
      {
        if data[readerIndex + i] == '\r' && data[readerIndex + i + 1] == '\n' {
          FirstCrlfIs(Contents()[start..], i - start);
          return Some(i);
        }
        i := i + 1;
      }
      NoCrlf(Contents()[start..]);
      r := None;
    }

    /** findEOL: memchr of a line feed. */
    method FindEOL(start: nat) returns (r: Option<nat>)
      requires Valid() && start <= |Contents()|
      ensures r.Some? ==> start <= r.value < |Contents()| && Contents()[r.value] == '\n'
      ensures '\n' !in Contents()[start..if r.Some? then r.value else |Contents()|]
    {
      var i := start;
      while readerIndex + i < writerIndex
        invariant start <= i <= |Contents()|
        invariant '\n' !in Contents()[start..i]
      {
        if data[readerIndex + i] == '\n' {
          return Some(i);
        }
        i := i + 1;
      }
      r := None;
    }

    // ---------- integers ----------

    /** appendInt8, 16, 32 and 64 for w = 1, 2, 4 and 8. */
    method AppendInt(w: nat, x: int)
      requires Valid() && Fits(w, x)
      modifies this, data
      ensures Valid() && (fresh(data) || data == old(data))
      ensures Contents() == old(Contents()) + EncodeInt(w, x)
      ensures PrependableBytes() == old(PrependableBytes()) || PrependableBytes() == CHEAP_PREPEND
    {
      Append(EncodeInt(w, x));
    }

    method PrependInt(w: nat, x: int)
      requires Valid() && Fits(w, x) && w <= PrependableBytes()
      modifies this`readerIndex, data
      ensures Valid() && Contents() == EncodeInt(w, x) + old(Contents())
      ensures PrependableBytes() == old(PrependableBytes()) - w
    {
      Prepend(EncodeInt(w, x));
    }

    method PeekInt(w: nat) returns (x: int)
      requires Valid() && w <= |Contents()|
      ensures x == DecodeInt(Contents()[..w])
      ensures forall y | Fits(w, y) && EncodeInt(w, y) <= Contents() :: x == y
    {
      assert data[readerIndex..readerIndex + w] == Contents()[..w];
      x := DecodeInt(data[readerIndex..readerIndex + w]);
      forall y | Fits(w, y) && EncodeInt(w, y) <= Contents() ensures x == y {
        IntRoundTrip(w, y);
        assert Contents()[..w] == EncodeInt(w, y);
      }
    }

    method ReadInt(w: nat) returns (x: int)
      requires Valid() && w <= |Contents()|
      modifies this`readerIndex, this`writerIndex
      ensures Valid() && Contents() == old(Contents())[w..] && x == DecodeInt(old(Contents())[..w])
      ensures forall y | Fits(w, y) && EncodeInt(w, y) <= old(Contents()) :: x == y
    {
      x := PeekInt(w);
      Retrieve(w);
    }

    /** A sequence of appendInt and prependInt calls, up to the first prepend that does not fit in front. */
    method StoreAll(ops: seq<IntOp>) returns (done: nat)
      requires Valid() && AllOpsFit(ops)
      modifies this, data
      ensures Valid() && (fresh(data) || data == old(data))
      ensures done <= |ops| && Contents() == Stored(old(Contents()), ops[..done])
      ensures done < |ops| ==> ops[done].PrependOp? && ops[done].item.width > PrependableBytes()
      ensures PrependWidth(ops) <= CHEAP_PREPEND && PrependWidth(ops) <= old(PrependableBytes()) ==> done == |ops|
    {
      hide Stored, PrependWidth, EncodeInt, Fits;
      done := 0;
      ghost var s0, few := Contents(), PrependWidth(ops) <= CHEAP_PREPEND && PrependWidth(ops) <= PrependableBytes();
      assert ops[0..] == ops && ops[..0] == [];
      StoredNone(s0);
      while done < |ops| && (ops[done].AppendOp? || ops[done].item.width <= PrependableBytes())
        invariant Valid() && (fresh(data) || data == old(data))
        invariant done <= |ops| && Contents() == Stored(s0, ops[..done])
        invariant few ==> PrependWidth(ops[done..]) <= CHEAP_PREPEND && PrependWidth(ops[done..]) <= PrependableBytes()
      {
        StoredSnoc(s0, ops[..done], ops[done]);
        assert ops[..done + 1] == ops[..done] + [ops[done]];
        PrependWidthNext(ops, done);
        StoreOne(ops[done]);
        done := done + 1;
      }
      if done < |ops| {
        PrependWidthNext(ops, done);
      } else {
        assert ops[..done] == ops;
      }
    }

    method StoreOne(op: IntOp)
      requires Valid() && Fits(op.item.width, op.item.value) && (op.PrependOp? ==> op.item.width <= PrependableBytes())
      modifies this, data
      ensures Valid() && (fresh(data) || data == old(data))
      ensures var b := EncodeInt(op.item.width, op.item.value);
              Contents() == if op.AppendOp? then old(Contents()) + b else b + old(Contents())
      ensures op.PrependOp? ==> PrependableBytes() == old(PrependableBytes()) - op.item.width
      ensures op.AppendOp? ==> PrependableBytes() == old(PrependableBytes()) || PrependableBytes() == CHEAP_PREPEND
    {
      match op
      case AppendOp(item) => AppendInt(item.width, item.value);
      case PrependOp(item) => PrependInt(item.width, item.value);
    }

    /** readInt for each width in turn. */
    method ReadAllInts(widths: seq<nat>) returns (values: seq<int>)
      requires Valid()
      modifies this`readerIndex, this`writerIndex
      ensures Valid() && (values, Contents()) == ReadAll(old(Contents()), widths)
    {
      hide ReadAll, DecodeInt;
      values := [];
      var i := 0;
      ghost var s0 := Contents();
      assert widths[0..] == widths && [] + ReadAll(s0, widths).0 == ReadAll(s0, widths).0;
      while i < |widths| && widths[i] <= ReadableBytes()
        invariant Valid() && i <= |widths|
        invariant ReadAll(s0, widths) == (values + ReadAll(Contents(), widths[i..]).0, ReadAll(Contents(), widths[i..]).1)
      {
        ghost var s := Contents();
        var x := ReadInt(widths[i]);
        ReadAllStep(s0, widths, i, values, s);
        values := values + [x];
        i := i + 1;
      }
      ReadAllDone(Contents(), widths[i..]);
      assert values + [] == values;
    }

    lemma ReadAllStep(s0: seq<Byte>, widths: seq<nat>, i: nat, values: seq<int>, s: seq<Byte>)
      requires i < |widths| && widths[i] <= |s|
      requires ReadAll(s0, widths) == (values + ReadAll(s, widths[i..]).0, ReadAll(s, widths[i..]).1)
      ensures var later := ReadAll(s[widths[i]..], widths[i + 1..]);
              ReadAll(s0, widths) == (values + [DecodeInt(s[..widths[i]])] + later.0, later.1)
    {
      hide ReadAll, DecodeInt;
      var later := ReadAll(s[widths[i]..], widths[i + 1..]);
      assert widths[i..][1..] == widths[i + 1..];
      ReadAllNext(s, widths[i..]);
      var x := DecodeInt(s[..widths[i]]);
      assert values + ([x] + later.0) == values + [x] + later.0;
    }

    lemma ReadAllNext(s: seq<Byte>, widths: seq<nat>)
      requires widths != [] && widths[0] <= |s|
      ensures var later := ReadAll(s[widths[0]..], widths[1..]);
              ReadAll(s, widths) == ([DecodeInt(s[..widths[0]])] + later.0, later.1)
    {
    }

    lemma ReadAllDone(s: seq<Byte>, widths: seq<nat>)
      requires widths == [] || |s| < widths[0]
      ensures ReadAll(s, widths) == ([], s)
    {
    }
  }

  lemma PrependWidthNext(ops: seq<IntOp>, i: nat)
    requires i < |ops|
    ensures PrependWidth(ops[i..]) == (if ops[i].PrependOp? then ops[i].item.width else 0) + PrependWidth(ops[i + 1..])
  {
    assert ops[i..][0] == ops[i] && ops[i..][1..] == ops[i + 1..];
  }

  lemma StoredNone(s: seq<Byte>)
    ensures Stored(s, []) == s
  {
  }

  function PrependWidth(ops: seq<IntOp>): nat
    decreases |ops|
  {
    if ops == [] then 0 else (if ops[0].PrependOp? then ops[0].item.width else 0) + PrependWidth(ops[1..])
  }
}
