module Common {
  datatype Option<T> = None | Some(value: T)
}

/** Searching in a string: std::find and std::search for a line end. */
module TextSearch {
  import opened Common

  /** std::find: the first position of c, or the length. */
  function Find(s: string, c: char): (i: nat)
    ensures i <= |s| && (i < |s| ==> s[i] == c) && c !in s[..i]
  {
    if s == "" || s[0] == c then 0 else
      var i := Find(s[1..], c);
      assert s[..1 + i] == [s[0]] + s[1..][..i];
      1 + i
  }

  lemma FindIs(s: string, c: char, i: nat)
    requires i <= |s| && c !in s[..i] && (i < |s| ==> s[i] == c)
    ensures Find(s, c) == i
  {
    var j := Find(s, c);
    assert c !in s[..j] && c !in s[..i];
  }

  predicate CrlfAt(s: string, i: int) {
    0 <= i && i + 1 < |s| && s[i] == '\r' && s[i + 1] == '\n'
  }

  function FirstCrlf(s: string): (r: Option<nat>)
    ensures r.Some? ==> CrlfAt(s, r.value) && forall j :: 0 <= j < r.value ==> !CrlfAt(s, j)
    ensures r.None? ==> forall j :: 0 <= j < |s| ==> !CrlfAt(s, j)
  {
    if |s| < 2 then None
    else if CrlfAt(s, 0) then Some(0)
    else
      var r := FirstCrlf(s[1..]);
      assert forall j :: 1 <= j < |s| ==> CrlfAt(s, j) == CrlfAt(s[1..], j - 1);
      if r.None? then None else Some(r.value + 1)
  }

  lemma FirstCrlfIs(s: string, i: nat)
    requires CrlfAt(s, i) && forall j :: 0 <= j < i ==> !CrlfAt(s, j)
    ensures FirstCrlf(s) == Some(i)
  {
    assert FirstCrlf(s).Some? && CrlfAt(s, FirstCrlf(s).value);
  }

  /** A line end found in a prefix stays the first one when more bytes follow. */
  lemma CrlfStable(a: string, b: string)
    requires FirstCrlf(a).Some?
    ensures FirstCrlf(a + b) == FirstCrlf(a)
  {
    var i := FirstCrlf(a).value;
    assert CrlfAt(a + b, i);
    forall j | 0 <= j < i ensures !CrlfAt(a + b, j) {
      assert !CrlfAt(a, j);
    }
    FirstCrlfIs(a + b, i);
  }

  lemma CrlfAfter(line: string, rest: string)
    requires '\r' !in line
    ensures FirstCrlf(line + "\r\n" + rest) == Some(|line|)
    ensures (line + "\r\n" + rest)[..|line|] == line
    ensures (line + "\r\n" + rest)[|line| + 2..] == rest
  {
    var s := line + "\r\n" + rest;
    assert forall j :: 0 <= j < |line| ==> s[j] == line[j];
    FirstCrlfIs(s, |line|);
  }

  lemma NoCrlf(s: string)
    requires forall j :: 0 <= j < |s| ==> !CrlfAt(s, j)
    ensures FirstCrlf(s) == None
  {
    assert FirstCrlf(s).Some? ==> CrlfAt(s, FirstCrlf(s).value);
  }
}
