/** `trim_spaces`: removes leading and trailing spaces and tabs from a
    NUL-terminated character buffer, in place. */
module Trim {

  const Nul: char := '\0'

  predicate Blank(c: char) { c == ' ' || c == '\t' }

  /** `strlen`: the position of the first NUL. */
  function Strlen(a: seq<char>, from: nat := 0): (n: nat)
    requires from <= |a| && Nul in a[from..]
    ensures from <= n < |a| && a[n] == Nul
    ensures forall k | from <= k < n :: a[k] != Nul
    decreases |a| - from
  {
    if a[from] == Nul then from else Strlen(a, from + 1)
  }

  /** The C string held by a buffer: the characters before the first NUL. */
  function CString(a: seq<char>): seq<char>
    requires Nul in a
  {
    a[..Strlen(a)]
  }

  /** The first position at or after `i` that is not blank, or the end. */
  function SkipBlanks(t: seq<char>, i: nat): (k: nat)
    requires i <= |t|
    ensures i <= k <= |t|
    ensures forall m | i <= m < k :: Blank(t[m])
    ensures k < |t| ==> !Blank(t[k])
    decreases |t| - i
  {
    if i < |t| && Blank(t[i]) then SkipBlanks(t, i + 1) else i
  }

  /** The last position at or before `j`, and not before `i`, that is not
      blank; `i - 1` when there is none. */
  function BackBlanks(t: seq<char>, i: nat, j: int): (k: int)
    requires i <= |t| && i - 1 <= j < |t|
    ensures i - 1 <= k <= j
    ensures forall m | k < m <= j :: Blank(t[m])
    ensures k >= i ==> !Blank(t[k])
    decreases j - i
  {
    if j >= i && Blank(t[j]) then BackBlanks(t, i, j - 1) else j
  }

  /** The text with leading and trailing blanks removed. */
  function TrimText(t: seq<char>): seq<char> {
    var i := SkipBlanks(t, 0);
    var j := BackBlanks(t, i, |t| - 1);
    t[i..j + 1]
  }

  /** The trimmed text is the part of the text between a blank prefix and a
      blank suffix, and neither begins nor ends with a blank. */
  lemma TrimTextIsCore(t: seq<char>)
    ensures var r := TrimText(t);
      exists a, b | 0 <= a <= b <= |t| ::
        r == t[a..b] &&
        (forall m | 0 <= m < a :: Blank(t[m])) &&
        (forall m | b <= m < |t| :: Blank(t[m]))
    ensures var r := TrimText(t);
      r == [] || (!Blank(r[0]) && !Blank(r[|r| - 1]))
  {
    var i := SkipBlanks(t, 0);
    var j := BackBlanks(t, i, |t| - 1);
    assert forall m | j + 1 <= m < |t| :: Blank(t[m]);
    assert TrimText(t) == t[i..j + 1];
  }

  /** Trimming twice is trimming once. */
  lemma TrimTextIdempotent(t: seq<char>)
    ensures TrimText(TrimText(t)) == TrimText(t)
  {
    var r := TrimText(t);
    TrimTextIsCore(t);
    if r != [] {
      assert SkipBlanks(r, 0) == 0;
      assert BackBlanks(r, 0, |r| - 1) == |r| - 1;
    }
  }

  /** Trimming keeps NUL out of a text that has none. */
  lemma TrimTextNoNul(t: seq<char>)
    requires Nul !in t
    ensures Nul !in TrimText(t)
  {
    var i := SkipBlanks(t, 0);
    var j := BackBlanks(t, i, |t| - 1);
    assert forall c | c in t[i..j + 1] :: c in t;
  }

  /** The first NUL is the only NUL without one before it. */
  lemma StrlenAt(a: seq<char>, m: nat)
    requires m < |a| && a[m] == Nul && forall k | 0 <= k < m :: a[k] != Nul
    ensures Nul in a && Strlen(a) == m
  {
    assert a[m] in a;
  }

  /** The scan past the leading blanks; it also stops at the terminator. */
  method LeadingBlanks(s: array<char>, n: nat, ghost t: seq<char>) returns (i: nat)
    requires n < s.Length && s[n] == Nul && t == s[..n]
    ensures i == SkipBlanks(t, 0)
  {
    i := 0;
    while s[i] != Nul && Blank(s[i])
      invariant 0 <= i <= n
      invariant SkipBlanks(t, i) == SkipBlanks(t, 0)
      decreases n - i
    {
      i := i + 1;
    }
  }

  /** The scan back over the trailing blanks, not below `i`. */
  method TrailingBlanks(s: array<char>, n: nat, i: nat, ghost t: seq<char>) returns (j: int)
    requires n < s.Length && t == s[..n] && i <= n
    ensures j == BackBlanks(t, i, n - 1)
  {
    j := n - 1;
    while j >= i && Blank(s[j])
      invariant i - 1 <= j <= n - 1
      invariant BackBlanks(t, i, j) == BackBlanks(t, i, n - 1)
    {
      j := j - 1;
    }
  }

  /** `memmove(s, s + i, len)`: a forward copy of `len` characters from
      position `i` to the start of the buffer. */
  method MoveDown(s: array<char>, i: nat, len: nat)
    requires i + len <= s.Length
    modifies s
    ensures s[..len] == old(s[i..i + len])
    ensures s[len..] == old(s[len..])
  {
    var k := 0;
    while k < len
      invariant 0 <= k <= len
      invariant forall m | 0 <= m < k :: s[m] == old(s[i + m])
      invariant forall m | k <= m < s.Length :: s[m] == old(s[m])
    {
      s[k] := s[i + k];
      k := k + 1;
    }
  }

  /** Writes the terminator after a prefix that holds no NUL: the buffer then
      holds exactly that prefix as its C string. */
  method Terminate(s: array<char>, len: nat, ghost r: seq<char>)
    requires len < s.Length && s[..len] == r && Nul !in r
    modifies s
    ensures Nul in s[..] && CString(s[..]) == r
  {
    s[len] := Nul;
    forall m | 0 <= m < len
      ensures s[m] != Nul
    {
      assert s[m] == r[m] && r[m] in r;
    }
    StrlenAt(s[..], len);
    assert s[..len] == r;
  }

  /** `trim_spaces` on a buffer holding a NUL-terminated string. */
  method TrimSpaces(s: array<char>)
    requires Nul in s[..]
    modifies s
    ensures Nul in s[..]
    ensures CString(s[..]) == TrimText(old(CString(s[..])))
  {
    ghost var t := CString(s[..]);
    var n := Strlen(s[..]);
    var i := LeadingBlanks(s, n, t);
    var j := TrailingBlanks(s, n, i, t);
    ghost var r := TrimText(t);
    assert r == s[i..j + 1];
    if i > 0 {
      MoveDown(s, i, j - i + 1);
    }
    TrimTextNoNul(t);
    Terminate(s, j - i + 1, r);
  }
}
