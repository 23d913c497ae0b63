/** Text helpers standing in for the Python string operations the chatbot uses:
    `str.join`, repeated `+=`, `str.lower`, `str.upper` and `str.strip`
    (the last three restricted to ASCII). */
module Strings {

  /** `t` occurs in `s` starting at index `k`. */
  predicate InfixAt(t: string, s: string, k: nat) {
    k + |t| <= |s| && s[k..k + |t|] == t
  }

  /** An occurrence inside the middle piece of `a + b + c` is one of the whole. */
  lemma InfixInside(t: string, a: string, b: string, c: string, k: nat)
    requires InfixAt(t, b, k)
    ensures InfixAt(t, a + b + c, |a| + k)
  {
    var s := a + b + c;
    assert s[|a|..|a| + |b|] == b;
    assert s[|a| + k..|a| + k + |t|] == s[|a|..|a| + |b|][k..k + |t|];
  }

  /** An occurrence inside an occurrence is an occurrence. */
  lemma InfixTrans(t: string, m: string, s: string, i: nat, j: nat)
    requires InfixAt(t, m, i) && InfixAt(m, s, j)
    ensures InfixAt(t, s, j + i)
  {
    forall x | 0 <= x < |t|
      ensures s[j + i + x] == t[x]
    {
      assert t[x] == m[i + x];
      assert m[i + x] == s[j + i + x];
    }
    assert s[j + i..j + i + |t|] == t;
  }

  /** Python's `sep.join(parts)`: the parts with `sep` between neighbours. */
  function Join(parts: seq<string>, sep: string): string
    decreases |parts|
  {
    if |parts| == 0 then ""
    else if |parts| == 1 then parts[0]
    else parts[0] + sep + Join(parts[1..], sep)
  }

  /** Every part of a join occurs, unchanged, inside the joined text. */
  lemma {:induction false} JoinPartAt(parts: seq<string>, sep: string, i: nat) returns (k: nat)
    requires i < |parts|
    ensures InfixAt(parts[i], Join(parts, sep), k)
    decreases |parts|
  {
    if |parts| == 1 || i == 0 {
      k := 0;
      if |parts| > 1 {
        assert Join(parts, sep) == parts[0] + (sep + Join(parts[1..], sep));
      }
    } else {
      var rest := Join(parts[1..], sep);
      var k' := JoinPartAt(parts[1..], sep, i - 1);
      assert parts[1..][i - 1] == parts[i];
      InfixInside(parts[i], parts[0] + sep, rest, "", k');
      assert parts[0] + sep + rest + "" == Join(parts, sep);
      k := |parts[0] + sep| + k';
    }
  }

  /** A join of non-empty parts is empty exactly when there are no parts. */
  lemma JoinEmptyIff(parts: seq<string>, sep: string)
    requires forall i :: 0 <= i < |parts| ==> parts[i] != ""
    ensures Join(parts, sep) == "" <==> parts == []
  {
  }

  /** The text obtained by appending the fragments one after another. */
  function Concat(parts: seq<string>): string {
    if parts == [] then "" else Concat(parts[..|parts| - 1]) + parts[|parts| - 1]
  }

  lemma AppendAssoc(x: string, y: string, z: string)
    ensures (x + y) + z == x + (y + z)
  {
  }

  /** Concatenating two runs of fragments is concatenating their texts. */
  lemma {:induction false} ConcatAppend(a: seq<string>, b: seq<string>)
    ensures Concat(a + b) == Concat(a) + Concat(b)
    decreases |b|
  {
    if b == [] {
      assert a + b == a;
    } else {
      var b', last := b[..|b| - 1], b[|b| - 1];
      assert (a + b)[..|a + b| - 1] == a + b';
      assert (a + b)[|a + b| - 1] == last;
      ConcatAppend(a, b');
      AppendAssoc(Concat(a), Concat(b'), last);
    }
  }

  /** The fragments of `s` that are not empty, in their original order. */
  function NonEmpty(s: seq<string>): (r: seq<string>)
    ensures |r| <= |s|
    ensures forall i :: 0 <= i < |r| ==> r[i] != ""
  {
    if s == [] then []
    else NonEmpty(s[..|s| - 1]) + (if s[|s| - 1] != "" then [s[|s| - 1]] else [])
  }

  /** Dropping empty fragments does not change their concatenation. */
  lemma {:induction false} ConcatNonEmpty(s: seq<string>)
    ensures Concat(NonEmpty(s)) == Concat(s)
    decreases |s|
  {
    if s != [] {
      var init, last := s[..|s| - 1], s[|s| - 1];
      ConcatNonEmpty(init);
      var tail := if last != "" then [last] else [];
      ConcatAppend(NonEmpty(init), tail);
      assert Concat(tail) == last;
    }
  }

  /** Python's `str.isspace` on one ASCII character: tab to carriage
      return, the four separators 0x1C-0x1F, and the space. */
  predicate IsSpace(c: char) {
    (9 <= c as int <= 13) || (28 <= c as int <= 32)
  }

  function LowerChar(c: char): (d: char)
    ensures 'A' <= c <= 'Z' ==> d as int == c as int + 32
    ensures !('A' <= c <= 'Z') ==> d == c
  {
    if 'A' <= c <= 'Z' then (c as int + 32) as char else c
  }

  function UpperChar(c: char): (d: char)
    ensures 'a' <= c <= 'z' ==> d as int == c as int - 32
    ensures !('a' <= c <= 'z') ==> d == c
  {
    if 'a' <= c <= 'z' then (c as int - 32) as char else c
  }

  /** ASCII `str.lower`. */
  function Lower(s: string): (r: string)
    ensures |r| == |s|
  {
    seq(|s|, i requires 0 <= i < |s| => LowerChar(s[i]))
  }

  /** ASCII `str.upper`. */
  function Upper(s: string): (r: string)
    ensures |r| == |s|
  {
    seq(|s|, i requires 0 <= i < |s| => UpperChar(s[i]))
  }

  /** `str.lstrip()`: the longest suffix that does not start with whitespace. */
  function TrimLeft(s: string): (r: string)
    ensures |r| <= |s| && r == s[|s| - |r|..]
    ensures r == [] || !IsSpace(r[0])
    ensures forall i :: 0 <= i < |s| - |r| ==> IsSpace(s[i])
  {
    if s != [] && IsSpace(s[0]) then
      var r := TrimLeft(s[1..]);
      assert s[1..][|s| - 1 - |r|..] == s[|s| - |r|..];
      assert forall i :: 1 <= i < |s| - |r| ==> s[i] == s[1..][i - 1];
      r
    else s
  }

  /** `str.rstrip()`: the longest prefix that does not end with whitespace. */
  function TrimRight(s: string): (r: string)
    ensures |r| <= |s| && r == s[..|r|]
    ensures r == [] || !IsSpace(r[|r| - 1])
    ensures forall i :: |r| <= i < |s| ==> IsSpace(s[i])
  {
    if s != [] && IsSpace(s[|s| - 1]) then
      var r := TrimRight(s[..|s| - 1]);
      assert s[..|s| - 1][..|r|] == s[..|r|];
      assert forall i :: |r| <= i < |s| - 1 ==> s[i] == s[..|s| - 1][i];
      r
    else s
  }

  /** `str.lower` works character by character, so it distributes over `+`. */
  lemma LowerAppend(a: string, b: string)
    ensures Lower(a + b) == Lower(a) + Lower(b)
  {
  }

  /** `str.lower` leaves whitespace alone. */
  lemma LowerSpaces(s: string)
    requires forall i :: 0 <= i < |s| ==> IsSpace(s[i])
    ensures Lower(s) == s
  {
  }

  /** `lstrip` removes exactly a leading run of whitespace. */
  lemma {:induction false} TrimLeftSkips(ws: string, x: string)
    requires forall i :: 0 <= i < |ws| ==> IsSpace(ws[i])
    requires x == [] || !IsSpace(x[0])
    ensures TrimLeft(ws + x) == x
    decreases |ws|
  {
    if ws == [] {
      assert ws + x == x;
    } else {
      assert (ws + x)[1..] == ws[1..] + x;
      TrimLeftSkips(ws[1..], x);
    }
  }

  /** `rstrip` removes exactly a trailing run of whitespace. */
  lemma {:induction false} TrimRightSkips(x: string, ws: string)
    requires forall i :: 0 <= i < |ws| ==> IsSpace(ws[i])
    requires x == [] || !IsSpace(x[|x| - 1])
    ensures TrimRight(x + ws) == x
    decreases |ws|
  {
    if ws == [] {
      assert x + ws == x;
    } else {
      assert (x + ws)[..|x + ws| - 1] == x + ws[..|ws| - 1];
      TrimRightSkips(x, ws[..|ws| - 1]);
    }
  }

  /** `str.strip()`: whitespace removed from both ends. */
  function Trim(s: string): string {
    TrimRight(TrimLeft(s))
  }
}
