/** String operations with the meaning the JavaScript built-ins give them:
    String.prototype.trim, toLowerCase (ASCII letters only), includes,
    split on one character, Array.prototype.join, and the decimal rendering
    of a non-negative integer in a template literal. */
module Text {

  /** The code points that JavaScript's trim removes: WhiteSpace and LineTerminator. */
  const SpaceChars: set<char> := {
    ' ', '\t', '\n', '\r', '\U{000B}', '\U{000C}', '\U{00A0}', '\U{1680}',
    '\U{2000}', '\U{2001}', '\U{2002}', '\U{2003}', '\U{2004}', '\U{2005}',
    '\U{2006}', '\U{2007}', '\U{2008}', '\U{2009}', '\U{200A}',
    '\U{2028}', '\U{2029}', '\U{202F}', '\U{205F}', '\U{3000}', '\U{FEFF}'
  }

  predicate IsSpace(c: char) {
    c in SpaceChars
  }

  /** Nothing to trim at either end. */
  predicate Trimmed(s: string) {
    s == [] || (!IsSpace(s[0]) && !IsSpace(s[|s| - 1]))
  }

  /** Every character is white space (so `s.trim()` is the falsy empty string). */
  predicate Blank(s: string) {
    forall i :: 0 <= i < |s| ==> IsSpace(s[i])
  }

  /** How many white-space characters `s` starts with. */
  function Lead(s: string): (n: nat)
    ensures n <= |s|
    ensures forall k :: 0 <= k < n ==> IsSpace(s[k])
    ensures n < |s| ==> !IsSpace(s[n])
  {
    if |s| > 0 && IsSpace(s[0]) then
      var n := Lead(s[1..]);
      assert forall k :: 1 <= k < n + 1 ==> s[k] == s[1..][k - 1];
      n + 1
    else 0
  }

  /** How many white-space characters `s` ends with. */
  function Trail(s: string): (n: nat)
    ensures n <= |s|
    ensures forall k :: |s| - n <= k < |s| ==> IsSpace(s[k])
    ensures n < |s| ==> !IsSpace(s[|s| - 1 - n])
  {
    if |s| > 0 && IsSpace(s[|s| - 1]) then
      var n := Trail(s[..|s| - 1]);
      assert forall k :: |s| - 1 - n <= k < |s| - 1 ==> s[k] == s[..|s| - 1][k];
      n + 1
    else 0
  }

  lemma LeadAll(s: string)
    ensures Lead(s) == |s| <==> Blank(s)
  {
  }

  /** Past the leading white space of a non-blank string, the trailing white
      space begins after at least one more character. */
  lemma LeadTrail(s: string)
    requires Lead(s) < |s|
    ensures Lead(s) < |s| - Trail(s)
  {
  }

  /** `s.trim()`: `s` with the white space at both of its ends removed, that
      is the piece of `s` after its `Lead(s)` leading blanks that leaves only
      white space after it and has nothing left to trim. */
  function Trim(s: string): (r: string)
    ensures Trimmed(r)
    ensures |r| <= |s|
    ensures r == [] <==> Blank(s)
    ensures Trimmed(s) ==> r == s
    ensures Lead(s) + |r| <= |s| && r == s[Lead(s)..Lead(s) + |r|]
    ensures forall k :: 0 <= k < Lead(s) ==> IsSpace(s[k])
    ensures forall k :: Lead(s) + |r| <= k < |s| ==> IsSpace(s[k])
  {
    LeadAll(s);
    if Lead(s) == |s| then []
    else
      LeadTrail(s);
      s[Lead(s)..|s| - Trail(s)]
  }

  /** Any cut of `s` into a white-space head, a middle with nothing to trim
      and a white-space tail has `Trim(s)` as its middle: the contract of
      `Trim` fixes its value. */
  lemma TrimUnique(s: string, i: nat, m: string)
    requires i + |m| <= |s| && m == s[i..i + |m|] && Trimmed(m)
    requires forall k :: 0 <= k < i ==> IsSpace(s[k])
    requires forall k :: i + |m| <= k < |s| ==> IsSpace(s[k])
    ensures m == Trim(s)
  {
    var r := Trim(s);
    if m == [] {
      assert Blank(s);
    } else {
      assert s[i] == m[0];
      assert s[i + |m| - 1] == m[|m| - 1];
      assert r != [] && s[Lead(s)] == r[0] && s[Lead(s) + |r| - 1] == r[|r| - 1];
      assert i == Lead(s);
      assert |m| == |r|;
    }
  }

  /** `map(s => s.trim())`: each string trimmed, in order. */
  function TrimAll(ps: seq<string>): (r: seq<string>)
    ensures |r| == |ps|
    ensures forall i :: 0 <= i < |ps| ==> r[i] == Trim(ps[i])
  {
    if ps == [] then [] else [Trim(ps[0])] + TrimAll(ps[1..])
  }

  /** Trimming only removes characters. */
  lemma TrimKeepsChars(s: string, c: char)
    requires c in Trim(s)
    ensures c in s
  {
    var r := Trim(s);
    var j :| 0 <= j < |r| && r[j] == c;
    assert s[Lead(s) + j] == c;
  }

  lemma TrimLeadingSpace(c: char, s: string)
    requires IsSpace(c) && s != [] && Trimmed(s)
    ensures Trim([c] + s) == s
  {
    var t := [c] + s;
    assert t[1..1 + |s|] == s;
    TrimUnique(t, 1, s);
  }

  /** `c.toLowerCase()` for ASCII letters; every other character is kept. */
  function LowerChar(c: char): char {
    if 'A' <= c <= 'Z' then (c as int + 32) as char else c
  }

  function ToLower(s: string): (r: string)
    ensures |r| == |s|
    ensures forall i :: 0 <= i < |s| ==> r[i] == LowerChar(s[i])
  {
    if s == [] then [] else [LowerChar(s[0])] + ToLower(s[1..])
  }

  /** `s.includes(sub)`: `sub` occurs in `s` as a contiguous piece. */
  function Includes(s: string, sub: string): (b: bool)
    decreases |s|
  {
    sub <= s || (|s| > 0 && Includes(s[1..], sub))
  }

  lemma {:induction false} IncludesAt(s: string, sub: string, i: nat)
    requires i + |sub| <= |s| && s[i..i + |sub|] == sub
    ensures Includes(s, sub)
  {
    if i == 0 {
      assert sub <= s;
    } else {
      assert s[1..][i - 1..i - 1 + |sub|] == s[i..i + |sub|];
      IncludesAt(s[1..], sub, i - 1);
    }
  }

  lemma {:induction false} IncludesWitness(s: string, sub: string) returns (i: nat)
    requires Includes(s, sub)
    ensures i + |sub| <= |s| && s[i..i + |sub|] == sub
    decreases |s|
  {
    if sub <= s {
      i := 0;
    } else {
      var j := IncludesWitness(s[1..], sub);
      assert s[1..][j..j + |sub|] == s[j + 1..j + 1 + |sub|];
      i := j + 1;
    }
  }

  /** A piece occurs in any string built around it. */
  lemma IncludesInfix(a: string, sub: string, b: string)
    ensures Includes(a + sub + b, sub)
  {
    assert (a + sub + b)[|a|..|a| + |sub|] == sub;
    IncludesAt(a + sub + b, sub, |a|);
  }

  lemma IncludesTrans(x: string, y: string, z: string)
    requires Includes(x, y) && Includes(y, z)
    ensures Includes(x, z)
  {
    var i := IncludesWitness(x, y);
    var j := IncludesWitness(y, z);
    forall k | 0 <= k < |z| ensures x[i + j..i + j + |z|][k] == z[k] {
      assert x[i + j + k] == x[i..i + |y|][j + k];
      assert z[k] == y[j..j + |z|][k];
    }
    assert x[i + j..i + j + |z|] == z;
    IncludesAt(x, z, i + j);
  }

  lemma IncludesExtend(a: string, sub: string, t: string)
    requires Includes(a, sub)
    ensures Includes(a + t, sub) && Includes(t + a, sub)
  {
    var i := IncludesWitness(a, sub);
    assert (a + t)[i..i + |sub|] == a[i..i + |sub|];
    IncludesAt(a + t, sub, i);
    assert (t + a)[|t| + i..|t| + i + |sub|] == a[i..i + |sub|];
    IncludesAt(t + a, sub, |t| + i);
  }

  /** Only the empty string occurs in the empty string. */
  lemma IncludesInEmpty(sub: string)
    requires sub != ""
    ensures !Includes("", sub)
  {
  }

  /** Each part occurs in the joined string. */
  lemma {:induction false} JoinIncludes(parts: seq<string>, sep: string, i: nat)
    requires i < |parts|
    ensures Includes(Join(parts, sep), parts[i])
  {
    if |parts| == 1 {
      IncludesInfix("", parts[0], "");
      assert "" + parts[0] + "" == parts[0];
    } else if i == 0 {
      IncludesInfix("", parts[0], sep + Join(parts[1..], sep));
      assert "" + parts[0] + (sep + Join(parts[1..], sep)) == Join(parts, sep);
    } else {
      JoinIncludes(parts[1..], sep, i - 1);
      IncludesExtend(Join(parts[1..], sep), parts[i], parts[0] + sep);
    }
  }

  lemma {:induction false} JoinAppend(parts: seq<string>, x: string, sep: string)
    requires parts != []
    ensures Join(parts + [x], sep) == Join(parts, sep) + sep + x
  {
    if |parts| == 1 {
      assert (parts + [x])[1..] == [x];
    } else {
      assert (parts + [x])[1..] == parts[1..] + [x];
      JoinAppend(parts[1..], x, sep);
    }
  }

  /** `s.split(sep)` for a one-character separator: the pieces between the
      separators, so there is always one piece more than there are separators. */
  function Split(s: string, sep: char): (r: seq<string>)
    ensures |r| >= 1
    ensures forall i :: 0 <= i < |r| ==> sep !in r[i]
    decreases |s|
  {
    if s == [] then [""]
    else
      var rest := Split(s[1..], sep);
      if s[0] == sep then [""] + rest
      else [[s[0]] + rest[0]] + rest[1..]
  }

  lemma {:induction false} SplitNoSeparator(s: string, sep: char)
    requires sep !in s
    ensures Split(s, sep) == [s]
    decreases |s|
  {
    if s != [] {
      assert sep !in s[1..] by { assert forall k :: 0 <= k < |s[1..]| ==> s[1..][k] == s[k + 1]; }
      SplitNoSeparator(s[1..], sep);
      assert [s[0]] + s[1..] == s;
    }
  }

  lemma {:induction false} SplitAfterPiece(a: string, sep: char, b: string)
    requires sep !in a
    ensures Split(a + [sep] + b, sep) == [a] + Split(b, sep)
    decreases |a|
  {
    var s := a + [sep] + b;
    if a == [] {
      assert s[0] == sep && s[1..] == b;
    } else {
      assert s[1..] == a[1..] + [sep] + b;
      assert sep !in a[1..] by { assert forall k :: 0 <= k < |a[1..]| ==> a[1..][k] == a[k + 1]; }
      SplitAfterPiece(a[1..], sep, b);
      assert [a[0]] + a[1..] == a;
    }
  }

  /** `parts.join(sep)`. */
  function Join(parts: seq<string>, sep: string): string {
    if |parts| == 0 then ""
    else if |parts| == 1 then parts[0]
    else parts[0] + sep + Join(parts[1..], sep)
  }

  /** The character for a decimal digit. */
  function DigitChar(d: nat): char
    requires d < 10
  {
    "0123456789"[d]
  }

  predicate IsDigit(c: char) {
    '0' <= c <= '9'
  }

  function DigitValue(c: char): nat
    requires IsDigit(c)
  {
    c as int - '0' as int
  }

  /** `${n}` for a non-negative integer: its decimal digits, no leading zero. */
  function NatToString(n: nat): (s: string)
    ensures |s| >= 1
    ensures forall i :: 0 <= i < |s| ==> IsDigit(s[i])
    ensures s[0] == '0' ==> n == 0
    ensures n < 10 <==> |s| == 1
  {
    if n < 10 then [DigitChar(n)] else NatToString(n / 10) + [DigitChar(n % 10)]
  }

  /** The value of a non-empty string of decimal digits. */
  function ParseDigits(s: string): nat
    requires |s| >= 1 && forall i :: 0 <= i < |s| ==> IsDigit(s[i])
  {
    if |s| == 1 then DigitValue(s[0])
    else 10 * ParseDigits(s[..|s| - 1]) + DigitValue(s[|s| - 1])
  }

  lemma {:induction false} ParseNatToString(n: nat)
    ensures ParseDigits(NatToString(n)) == n
  {
    if n >= 10 {
      var s := NatToString(n);
      assert s[..|s| - 1] == NatToString(n / 10);
      ParseNatToString(n / 10);
    }
  }

  lemma {:induction false} NatToStringLength(n: nat, k: nat)
    requires n < Pow10(k) && k >= 1
    ensures |NatToString(n)| <= k
  {
    if n >= 10 {
      NatToStringLength(n / 10, k - 1);
    }
  }

  function Pow10(k: nat): nat {
    if k == 0 then 1 else 10 * Pow10(k - 1)
  }
}
