/** Integers as text: what `convert` and `convertHex` print, as a function and its properties. */
module IntegerText {
  /** The longest text plus terminator must fit in this (LogStream::kMaxNumericSize). */
  const MAX_NUMERIC_SIZE: nat := 32

  /** No integer that is printed has a greater magnitude (64 bits, signed or unsigned). */
  const MAGNITUDE: int := 0x1_0000_0000_0000_0000

  const DIGITS_HEX: string := "0123456789ABCDEF"

  predicate IsBase(base: nat) { base == 10 || base == 16 }

  /** The digits of n, most significant first. */
  function Digits(n: nat, base: nat): (s: string)
    requires IsBase(base)
    ensures |s| > 0
  {
    if n < base then [DIGITS_HEX[n]] else Digits(n / base, base) + [DIGITS_HEX[n % base]]
  }

  function Decimal(v: int): string {
    if v < 0 then "-" + Digits(-v, 10) else Digits(v, 10)
  }

  // ---------- reading it back ----------

  predicate IsDigit(c: char, base: nat)
    requires IsBase(base)
  {
    ('0' <= c <= '9') || (base == 16 && 'A' <= c <= 'F')
  }

  function DigitValue(c: char): int {
    if '0' <= c <= '9' then c as int - '0' as int else c as int - 'A' as int + 10
  }

  function ParseDigits(s: string, base: nat): int {
    if s == "" then 0 else base * ParseDigits(s[..|s| - 1], base) + DigitValue(s[|s| - 1])
  }

  function Parse(s: string): int {
    if s != "" && s[0] == '-' then -ParseDigits(s[1..], 10) else ParseDigits(s, 10)
  }

  lemma DigitChar(d: nat, base: nat)
    requires IsBase(base) && d < base
    ensures IsDigit(DIGITS_HEX[d], base) && DigitValue(DIGITS_HEX[d]) == d
    ensures DIGITS_HEX[d] == '0' <==> d == 0
  {
  }

  /** Printing and parsing are inverse; all characters are digits; there is no redundant leading zero. */
  lemma {:induction false} DigitsExact(n: nat, base: nat)
    requires IsBase(base)
    ensures ParseDigits(Digits(n, base), base) == n
    ensures forall i :: 0 <= i < |Digits(n, base)| ==> IsDigit(Digits(n, base)[i], base)
    ensures Digits(n, base)[0] == '0' <==> n == 0
    ensures n == 0 ==> Digits(n, base) == "0"
  {
    if n < base {
      DigitChar(n, base);
      var s := Digits(n, base);
      assert s[..|s| - 1] == "" && ParseDigits("", base) == 0;
    } else {
      DigitsExact(n / base, base);
      DigitChar(n % base, base);
      var s := Digits(n, base);
      assert s[..|s| - 1] == Digits(n / base, base);
    }
  }

  function Pow(base: nat, k: nat): nat {
    if k == 0 then 1 else base * Pow(base, k - 1)
  }

  lemma {:induction false} DigitsLength(n: nat, base: nat, k: nat)
    requires IsBase(base) && k > 0 && n < Pow(base, k)
    ensures |Digits(n, base)| <= k
  {
    if n >= base {
      assert k > 1 by {
        assert Pow(base, 1) == base * Pow(base, 0);
      }
      DigitsLength(n / base, base, k - 1);
    }
  }

  lemma SixtyFourBits()
    ensures MAGNITUDE <= Pow(10, 20) && MAGNITUDE == Pow(16, 16)
  {
    assert Pow(10, 4) == 10000 && Pow(16, 4) == 0x1_0000;
    assert Pow(10, 8) == 1_0000_0000 && Pow(16, 8) == 0x1_0000_0000;
    assert Pow(10, 12) == 1_0000_0000_0000 && Pow(16, 12) == 0x1_0000_0000_0000;
    assert Pow(10, 16) == 1_0000_0000_0000_0000;
  }

  /**
   Integer printing is exact: for every signed or unsigned 64-bit value, the minimum included, the
   text reads back as the value, has no redundant leading zero, and fits with its terminator.
  */
  lemma DecimalExact(v: int)
    requires -MAGNITUDE < v < MAGNITUDE
    ensures Parse(Decimal(v)) == v
    ensures |Decimal(v)| + 1 <= MAX_NUMERIC_SIZE
    ensures v != 0 ==> Decimal(v)[if v < 0 then 1 else 0] != '0'
    ensures v == 0 ==> Decimal(v) == "0"
  {
    var n := if v < 0 then -v else v;
    DigitsExact(n, 10);
    SixtyFourBits();
    DigitsLength(n, 10, 20);
    if v < 0 {
      assert Decimal(v)[1..] == Digits(n, 10);
    } else {
      assert Digits(n, 10)[0] != '-' by { assert IsDigit(Digits(n, 10)[0], 10); }
    }
  }

  /** Distinct values have distinct texts. */
  lemma DecimalInjective(v: int, w: int)
    requires -MAGNITUDE < v < MAGNITUDE && -MAGNITUDE < w < MAGNITUDE && Decimal(v) == Decimal(w)
    ensures v == w
  {
    DecimalExact(v);
    DecimalExact(w);
  }

  lemma HexExact(v: nat)
    requires v < MAGNITUDE
    ensures ParseDigits(Digits(v, 16), 16) == v
    ensures 2 + |Digits(v, 16)| + 1 <= MAX_NUMERIC_SIZE
    ensures v != 0 ==> Digits(v, 16)[0] != '0'
  {
    DigitsExact(v, 16);
    SixtyFourBits();
    DigitsLength(v, 16, 16);
  }

  // ---------- the arithmetic and the tables of the source ----------

  /** Division and remainder of C++: they truncate toward zero, so a remainder has the sign of the dividend. */
  function TruncDiv(a: int, b: int): int
    requires b > 0
  {
    if a >= 0 then a / b else -((-a) / b)
  }

  function TruncMod(a: int, b: int): int
    requires b > 0
  {
    a - TruncDiv(a, b) * b
  }

  const DIGITS: string := "9876543210123456789"
  const ZERO: nat := 9

  function Abs(v: int): nat { if v < 0 then -v else v }

  /** The mirrored table gives the same digit for a remainder and its opposite. */
  lemma MirroredDigit(i: int)
    ensures -10 < TruncMod(i, 10) < 10
    ensures DIGITS[ZERO + TruncMod(i, 10)] == DIGITS_HEX[Abs(i) % 10]
    ensures Abs(TruncDiv(i, 10)) == Abs(i) / 10
    ensures TruncDiv(i, 10) == 0 <==> Abs(i) < 10
  {
    var m := TruncMod(i, 10);
    assert Abs(m) == Abs(i) % 10;
    assert DIGITS[ZERO + m] == DIGITS_HEX[Abs(m)];
  }

  function Reversed(s: string): string {
    if s == "" then "" else Reversed(s[1..]) + [s[0]]
  }

  lemma {:induction false} ReversedAt(s: string, k: nat)
    requires k < |s|
    ensures |Reversed(s)| == |s| && Reversed(s)[k] == s[|s| - 1 - k]
  {
    if |s| > 1 {
      ReversedAt(s[1..], if k < |s| - 1 then k else 0);
    }
  }

  lemma {:induction false} ReversedSnoc(s: string, c: char)
    ensures Reversed(s + [c]) == [c] + Reversed(s)
  {
    if s == "" {
      assert s + [c] == [c] && [c][1..] == "";
    } else {
      assert (s + [c])[1..] == s[1..] + [c];
      ReversedSnoc(s[1..], c);
    }
  }

  lemma {:induction false} ReversedIs(s: string, t: string)
    requires |t| == |s| && forall k :: 0 <= k < |t| ==> t[k] == s[|s| - 1 - k]
    ensures t == Reversed(s)
  {
    ReversedLength(s);
    forall k | 0 <= k < |t| ensures t[k] == Reversed(s)[k] {
      ReversedAt(s, k);
    }
  }

  /** One round of a digit loop: `left` is still to be put, `out` has been put, last digit first. */
  lemma {:induction false} DigitStep(whole: string, left: string, rest: string, c: char, out: string)
    requires whole == left + Reversed(out) && left == rest + [c]
    ensures |out| < |whole| && whole == rest + Reversed(out + [c])
  {
    hide Reversed;
    ReversedLength(out);
    ReversedSnoc(out, c);
    assert (rest + [c]) + Reversed(out) == rest + ([c] + Reversed(out));
  }

  lemma DigitsUnfold(m: nat, base: nat)
    requires IsBase(base)
    ensures Digits(m, base) == (if m < base then "" else Digits(m / base, base)) + [DIGITS_HEX[m % base]]
  {
  }

  lemma {:induction false} ReversedLength(s: string)
    ensures |Reversed(s)| == |s|
  {
    if s != "" {
      ReversedAt(s, 0);
    }
  }
}

/** FixedBuffer and LogStream: a cursor over a fixed array, and the conversions that write at it. */
module LogStreamClass {
  import opened IntegerText

  class FixedBuffer {
    const data: array<char>
    var cur: nat

    ghost predicate Valid()
      reads this
    {
      cur <= data.Length
    }

    /** What has been appended. */
    ghost function Contents(): string
      requires Valid()
      reads this, data
    {
      data[..cur]
    }

    constructor (size: nat)
      ensures Valid() && Contents() == "" && data.Length == size && fresh(data)
    {
      data := new char[size](_ => '\0');
      cur := 0;
    }

    function Avail(): (n: nat)
      requires Valid()
      reads this
      ensures cur + n == data.Length
    {
      data.Length - cur
    }

    /** append: all of `buf`, or nothing if it would leave no byte free. */
    method Append(buf: string)
      requires Valid()
      modifies this`cur, data
      ensures Valid()
      ensures Contents() == old(Contents()) + (if old(Avail()) > |buf| then buf else "")
    {
      if Avail() > |buf| {
        for i := 0 to |buf|
          invariant cur == old(cur) && cur + |buf| < data.Length
          invariant data[..cur] == old(data[..cur])
          invariant data[cur..cur + i] == buf[..i]
        {
          data[cur + i] := buf[i];
        }
        cur := cur + |buf|;
        assert data[..cur] == old(data[..cur]) + buf;
      }
    }

    method Add(len: nat)
      requires Valid() && len <= Avail()
      modifies this`cur
      ensures Valid() && cur == old(cur) + len
    {
      cur := cur + len;
    }

    method Reset()
      modifies this`cur
      ensures Valid() && Contents() == ""
    {
      cur := 0;
    }
  }

  /** std::reverse on buf[from..to]. */
  method ReverseRange(buf: array<char>, from: nat, to: nat)
    requires from <= to <= buf.Length
    modifies buf
    ensures buf[from..to] == Reversed(old(buf[from..to]))
    ensures buf[..from] == old(buf[..from]) && buf[to..] == old(buf[to..])
  {
    var lo, hi := from, to;
    while lo + 1 < hi
      invariant from <= lo <= hi <= to && lo - from == to - hi
      invariant forall k :: from <= k < lo ==> buf[k] == old(buf[from + to - 1 - k])
      invariant forall k :: hi <= k < to ==> buf[k] == old(buf[from + to - 1 - k])
      invariant forall k :: lo <= k < hi ==> buf[k] == old(buf[k])
      invariant buf[..from] == old(buf[..from]) && buf[to..] == old(buf[to..])
    {
      hi := hi - 1;
      buf[lo], buf[hi] := buf[hi], buf[lo];
      lo := lo + 1;
    }
    forall k | 0 <= k < to - from ensures buf[from..to][k] == old(buf[from..to])[to - from - 1 - k] {
      assert buf[from + k] == old(buf[from + to - 1 - (from + k)]);
    }
    ReversedIs(old(buf[from..to]), buf[from..to]);
  }

  /** The digit loop of convert: least significant digit first, with truncating division of either sign. */
  method PutDigits(buf: array<char>, at: nat, value: int) returns (p: nat)
    requires at + MAX_NUMERIC_SIZE <= buf.Length && -MAGNITUDE < value < MAGNITUDE
    modifies buf
    ensures at < p && p - at <= 20
    ensures Reversed(buf[at..p]) == Digits(Abs(value), 10)
    ensures buf[..at] == old(buf[..at])
  {
    SixtyFourBits();
    DigitsLength(Abs(value), 10, 20);
    hide Digits, Reversed, TruncMod, TruncDiv;
    ghost var whole := Digits(Abs(value), 10);
    ghost var left, out := whole, "";
    NoDigitsYet(whole);
    var i := value;
    p := at;
    var more := true;
    while more
      invariant p == at + |out| && |out| <= 20 && buf[at..p] == out && buf[..at] == old(buf[..at])
      invariant whole == left + Reversed(out)
      invariant left == if more then Digits(Abs(i), 10) else ""
      invariant more || at < p
      decreases more, Abs(i)
    {
      MirroredDigit(i);
      DigitsUnfold(Abs(i), 10);
      ghost var rest := if Abs(i) < 10 then "" else Digits(Abs(i) / 10, 10);
      var c := DIGITS[ZERO + TruncMod(i, 10)];
      DigitStep(whole, left, rest, c, out);
      i := TruncDiv(i, 10);
      PutChar(buf, at, p, c);
      p := p + 1;
      left, out := rest, out + [c];
      more := i != 0;
    }
  }

  lemma {:induction false} NoDigitsYet(s: string)
    ensures s == s + Reversed("")
  {
  }

  /** `*p++ = c` */
  method PutChar(buf: array<char>, at: nat, p: nat, c: char)
    requires at <= p < buf.Length
    modifies buf
    ensures buf[at..p + 1] == old(buf[at..p]) + [c] && buf[..at] == old(buf[..at])
  {
    buf[p] := c;
  }

  /** convert: the decimal text of a signed or unsigned integer, with its terminator. */
  method Convert(buf: array<char>, at: nat, value: int) returns (len: nat)
    requires at + MAX_NUMERIC_SIZE <= buf.Length && -MAGNITUDE < value < MAGNITUDE
    modifies buf
    ensures len < MAX_NUMERIC_SIZE && buf[at..at + len] == Decimal(value) && buf[at + len] == '\0'
    ensures buf[..at] == old(buf[..at])
  {
    hide Digits, Reversed;
    var p := PutDigits(buf, at, value);
    if value < 0 {
      ReversedSnoc(buf[at..p], '-');
      PutChar(buf, at, p, '-');
      p := p + 1;
    }
    assert Reversed(buf[at..p]) == Decimal(value);
    len := p - at;
    Terminate(buf, at, p);
  }

  /** The end of both conversions: the terminator, then std::reverse. */
  method Terminate(buf: array<char>, at: nat, p: nat)
    requires at <= p < buf.Length
    modifies buf
    ensures buf[at..p] == Reversed(old(buf[at..p])) && buf[p] == '\0'
    ensures buf[..at] == old(buf[..at])
  {
    hide Reversed;
    buf[p] := '\0';
    assert buf[at..p] == old(buf[at..p]);
    assert buf[p..][0] == '\0';
    ReverseRange(buf, at, p);
    assert buf[p] == buf[p..][0];
  }

  /** convertHex, for a pointer value. */
  method ConvertHex(buf: array<char>, at: nat, value: nat) returns (len: nat)
    requires at + 18 <= buf.Length && value < MAGNITUDE
    modifies buf
    ensures len <= 16 && buf[at..at + len] == Digits(value, 16) && buf[at + len] == '\0'
    ensures buf[..at] == old(buf[..at])
  {
    hide Digits, Reversed;
    var p := PutHexDigits(buf, at, value);
    len := p - at;
    Terminate(buf, at, p);
  }

  method PutHexDigits(buf: array<char>, at: nat, value: nat) returns (p: nat)
    requires at + 18 <= buf.Length && value < MAGNITUDE
    modifies buf
    ensures at < p && p - at <= 16
    ensures Reversed(buf[at..p]) == Digits(value, 16)
    ensures buf[..at] == old(buf[..at])
  {
    SixtyFourBits();
    DigitsLength(value, 16, 16);
    hide Digits, Reversed;
    ghost var whole := Digits(value, 16);
    ghost var left, out := whole, "";
    NoDigitsYet(whole);
    var i := value;
    p := at;
    var more := true;
    while more
      invariant p == at + |out| && |out| <= 16 && buf[at..p] == out && buf[..at] == old(buf[..at])
      invariant whole == left + Reversed(out)
      invariant left == if more then Digits(i, 16) else ""
      invariant more || at < p
      decreases more, i
    {
      DigitsUnfold(i, 16);
      ghost var rest := if i < 16 then "" else Digits(i / 16, 16);
      var c := DIGITS_HEX[i % 16];
      DigitStep(whole, left, rest, c, out);
      i := i / 16;
      PutChar(buf, at, p, c);
      p := p + 1;
      left, out := rest, out + [c];
      more := i != 0;
    }
  }

  class LogStream {
    const buffer: FixedBuffer

    ghost predicate Valid()
      reads this, buffer
    {
      buffer.Valid()
    }

    constructor (size: nat)
      ensures Valid() && buffer.Contents() == "" && fresh(buffer) && fresh(buffer.data)
      ensures buffer.data.Length == size
    {
      buffer := new FixedBuffer(size);
    }

    /** operator<< of an integer: the exact decimal text if 32 bytes are free, else nothing. */
    method FormatInteger(v: int)
      requires Valid() && -MAGNITUDE < v < MAGNITUDE
      modifies buffer`cur, buffer.data
      ensures Valid()
      ensures buffer.Contents() ==
              old(buffer.Contents()) + (if old(buffer.Avail()) >= MAX_NUMERIC_SIZE then Decimal(v) else "")
    {
      hide Decimal;
      if buffer.Avail() >= MAX_NUMERIC_SIZE {
        var len := Convert(buffer.data, buffer.cur, v);
        ghost var at := buffer.cur;
        buffer.Add(len);
        assert buffer.data[..at + len] == buffer.data[..at] + buffer.data[at..at + len];
      }
    }

    /** operator<< of a pointer. */
    method FormatPointer(v: nat)
      requires Valid() && v < MAGNITUDE
      modifies buffer`cur, buffer.data
      ensures Valid()
      ensures buffer.Contents() ==
              old(buffer.Contents()) + (if old(buffer.Avail()) >= MAX_NUMERIC_SIZE then "0x" + Digits(v, 16) else "")
    {
      hide Digits;
      if buffer.Avail() >= MAX_NUMERIC_SIZE {
        var at := buffer.cur;
        buffer.data[at] := '0';
        buffer.data[at + 1] := 'x';
        var len := ConvertHex(buffer.data, at + 2, v);
        assert buffer.data[..at + 2] == old(buffer.data[..buffer.cur]) + "0x";
        buffer.Add(len + 2);
        assert buffer.data[..at + 2 + len] == buffer.data[..at + 2] + buffer.data[at + 2..at + 2 + len];
      }
    }
  }
}
