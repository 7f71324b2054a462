/** String helpers with JavaScript semantics, restricted to ASCII:
  * case mapping, substring search, `split`, `trim`, `join`, and
  * decimal rendering and reading of natural numbers. */
module Text {
  import opened Core

  predicate IsDigit(c: char) { '0' <= c <= '9' }
  predicate IsUpper(c: char) { 'A' <= c <= 'Z' }
  predicate IsLower(c: char) { 'a' <= c <= 'z' }

  /** A character of the regular-expression class `\w`. */
  predicate IsWordChar(c: char) { IsDigit(c) || IsUpper(c) || IsLower(c) || c == '_' }

  /** The ASCII members of the regular-expression class `\s`. */
  predicate IsSpace(c: char)
  {
    c == ' ' || c == '\t' || c == '\n' || c == '\r' || c == '\U{B}' || c == '\U{C}'
  }

  function LowerChar(c: char): (r: char)
    ensures !IsUpper(r)
    ensures IsUpper(c) ==> IsLower(r)
    ensures !IsUpper(c) ==> r == c
  {
    if IsUpper(c) then (c as int + 32) as char else c
  }

  function UpperChar(c: char): (r: char)
    ensures IsLower(c) ==> IsUpper(r) && LowerChar(r) == c
    ensures !IsLower(c) ==> r == c
  {
    if IsLower(c) then (c as int - 32) as char else c
  }

  /** `toLowerCase()` on ASCII text. */
  function Lower(s: string): (r: string)
    ensures |r| == |s|
    ensures forall i :: 0 <= i < |s| ==> r[i] == LowerChar(s[i])
  {
    if s == [] then [] else [LowerChar(s[0])] + Lower(s[1..])
  }

  lemma LowerIdempotent(s: string)
    ensures Lower(Lower(s)) == Lower(s)
  {
  }

  /** `w` occurs in `s` starting at index `i`. */
  predicate StartsAt(s: string, i: int, w: string)
  {
    0 <= i && i + |w| <= |s| && s[i..i + |w|] == w
  }

  /** `s.includes(w)`. */
  predicate Contains(s: string, w: string)
  {
    exists i :: 0 <= i <= |s| && StartsAt(s, i, w)
  }

  lemma ContainsEmpty(s: string)
    ensures Contains(s, "")
  {
    assert StartsAt(s, 0, "");
  }

  lemma ContainsSelf(s: string)
    ensures Contains(s, s)
  {
    assert StartsAt(s, 0, s);
  }

  /** Text containing `w` still contains it after more text is added on either side. */
  lemma ContainsExtend(a: string, w: string, pre: string, post: string)
    requires Contains(a, w)
    ensures Contains(pre + a + post, w)
  {
    var i :| 0 <= i <= |a| && StartsAt(a, i, w);
    assert i + |w| <= |a| && a[i..i + |w|] == w;
    assert (pre + a + post)[|pre| + i..|pre| + i + |w|] == a[i..i + |w|];
    assert StartsAt(pre + a + post, |pre| + i, w);
  }

  /** Containment is preserved by lower-casing when the pattern is already lower case. */
  lemma ContainsLower(s: string, w: string)
    requires Contains(s, w)
    ensures Contains(Lower(s), Lower(w))
  {
    var i :| 0 <= i <= |s| && StartsAt(s, i, w);
    assert i + |w| <= |s| && s[i..i + |w|] == w;
    assert Lower(s)[i..i + |w|] == Lower(w);
    assert StartsAt(Lower(s), i, Lower(w));
  }

  /** A string without the character `c` contains no pattern that has `c`. */
  lemma NotContainsChar(s: string, w: string, c: char)
    requires c !in s && c in w
    ensures !Contains(s, w)
  {
    var k :| 0 <= k < |w| && w[k] == c;
    forall i | 0 <= i <= |s|
      ensures !StartsAt(s, i, w)
    {
      if i + |w| <= |s| {
        assert s[i + k] in s;
        assert s[i..i + |w|][k] != w[k];
      }
    }
  }

  /** `s.startsWith(p)`. */
  predicate StartsWith(s: string, p: string) { p <= s }

  /** Removes leading and trailing whitespace (`trim()`). */
  function Trim(s: string): (r: string)
    ensures |r| <= |s|
    ensures r != [] ==> !IsSpace(r[0]) && !IsSpace(r[|r| - 1])
    ensures (forall i :: 0 <= i < |s| ==> IsSpace(s[i])) <==> r == []
  {
    TrimEnd(TrimStart(s))
  }

  function TrimStart(s: string): (r: string)
    ensures |r| <= |s| && r == s[|s| - |r|..]
    ensures r != [] ==> !IsSpace(r[0])
    ensures forall i :: 0 <= i < |s| - |r| ==> IsSpace(s[i])
  {
    if s != [] && IsSpace(s[0]) then TrimStart(s[1..]) else s
  }

  function TrimEnd(s: string): (r: string)
    ensures |r| <= |s| && r == s[..|r|]
    ensures r != [] ==> !IsSpace(r[|r| - 1])
    ensures forall i :: |r| <= i < |s| ==> IsSpace(s[i])
  {
    if s != [] && IsSpace(s[|s| - 1]) then TrimEnd(s[..|s| - 1]) else s
  }

  /** A text with a non-space character does not trim to nothing. */
  lemma TrimNonBlank(s: string, i: nat)
    requires i < |s| && !IsSpace(s[i])
    ensures Trim(s) != []
  {
  }

  /** True when the text is missing or only whitespace. */
  predicate Blank(s: string) { Trim(s) == [] }

  /** `s.split(sep)` for a one-character separator: every separator
    * splits, so adjacent separators give empty pieces. */
  function Split(s: string, sep: char): (r: seq<string>)
    ensures |r| >= 1
    ensures forall k :: 0 <= k < |r| ==> sep !in r[k]
  {
    if s == [] then [""]
    else
      var rest := Split(s[1..], sep);
      if s[0] == sep then [""] + rest else [[s[0]] + rest[0]] + rest[1..]
  }

  /** `parts.join(sep)`. */
  function Join(parts: seq<string>, sep: string): (r: string)
  {
    if parts == [] then ""
    else if |parts| == 1 then parts[0]
    else parts[0] + sep + Join(parts[1..], sep)
  }

  /** Joining the pieces of a split gives back the text. */
  lemma {:induction false} JoinSplit(s: string, sep: char)
    ensures Join(Split(s, sep), [sep]) == s
  {
    if s != [] {
      var rest := Split(s[1..], sep);
      JoinSplit(s[1..], sep);
      if s[0] == sep {
        assert Split(s, sep) == [""] + rest;
        assert ([""] + rest)[1..] == rest;
      } else {
        var parts := [[s[0]] + rest[0]] + rest[1..];
        assert Split(s, sep) == parts;
        if |rest| == 1 {
          assert rest == [rest[0]];
          assert Join(rest, [sep]) == rest[0];
        } else {
          assert parts[1..] == rest[1..];
          assert Join(rest, [sep]) == rest[0] + [sep] + Join(rest[1..], [sep]);
        }
      }
    }
  }

  /** `s.trim().split(/\s+/)`: whitespace runs separate words; text with
    * no words at all gives one empty piece. */
  function Words(s: string): (r: seq<string>)
    ensures |r| >= 1
  {
    var t := Trim(s);
    if t == [] then [""] else WordsOf(t)
  }

  /** Splits on whitespace runs; `s` must start with a non-space character. */
  function WordsOf(s: string): (r: seq<string>)
    requires s != [] ==> !IsSpace(s[0])
    ensures |r| >= 1
    ensures forall k :: 0 <= k < |r| ==> forall c :: c in r[k] ==> !IsSpace(c)
    decreases |s|
  {
    var n := WordEnd(s, 0);
    var first := s[..n];
    var after := TrimStart(s[n..]);
    if n == |s| || after == [] then [first] else [first] + WordsOf(after)
  }

  /** Index of the first whitespace character at or after `i`, or |s|. */
  function WordEnd(s: string, i: nat): (r: nat)
    requires i <= |s|
    ensures i <= r <= |s|
    ensures forall k :: i <= k < r ==> !IsSpace(s[k])
    ensures r < |s| ==> IsSpace(s[r])
    decreases |s| - i
  {
    if i == |s| || IsSpace(s[i]) then i else WordEnd(s, i + 1)
  }

  /** Index of the end of the run of digits that starts at `i`. */
  function DigitsEnd(s: string, i: nat): (r: nat)
    requires i <= |s|
    ensures i <= r <= |s|
    ensures forall k :: i <= k < r ==> IsDigit(s[k])
    ensures r < |s| ==> !IsDigit(s[r])
    decreases |s| - i
  {
    if i == |s| || !IsDigit(s[i]) then i else DigitsEnd(s, i + 1)
  }

  /** Index of the end of the run of whitespace that starts at `i`. */
  function SpacesEnd(s: string, i: nat): (r: nat)
    requires i <= |s|
    ensures i <= r <= |s|
    ensures forall k :: i <= k < r ==> IsSpace(s[k])
    ensures r < |s| ==> !IsSpace(s[r])
    decreases |s| - i
  {
    if i == |s| || !IsSpace(s[i]) then i else SpacesEnd(s, i + 1)
  }

  predicate AllDigits(s: string) { forall i :: 0 <= i < |s| ==> IsDigit(s[i]) }

  function DigitChar(d: nat): (c: char)
    requires d < 10
    ensures IsDigit(c)
  {
    ('0' as int + d) as char
  }

  function DigitOf(c: char): (d: nat)
    requires IsDigit(c)
    ensures d < 10 && DigitChar(d) == c
  {
    (c as int - '0' as int) as nat
  }

  /** The decimal value of a run of digits (what `parseInt` gives for it). */
  function DigitsValue(s: string): nat
    requires AllDigits(s)
  {
    if s == [] then 0 else DigitsValue(s[..|s| - 1]) * 10 + DigitOf(s[|s| - 1])
  }

  /** Decimal rendering of a natural number, without leading zeros. */
  function NatToString(n: nat): (r: string)
    ensures |r| >= 1 && AllDigits(r)
    ensures |r| > 1 ==> r[0] != '0'
  {
    if n < 10 then [DigitChar(n)] else NatToString(n / 10) + [DigitChar(n % 10)]
  }

  /** Decimal rendering of an integer (template-literal interpolation). */
  function IntToString(n: int): (r: string)
    ensures |r| >= 1
  {
    if n < 0 then "-" + NatToString(-n) else NatToString(n)
  }

  /** Reading back a rendered number gives the number. */
  lemma {:induction false} NatToStringValue(n: nat)
    ensures DigitsValue(NatToString(n)) == n
  {
    if n >= 10 {
      NatToStringValue(n / 10);
      var r := NatToString(n);
      assert r[..|r| - 1] == NatToString(n / 10);
    }
  }

  /** Different numbers render differently. */
  lemma NatToStringInjective(m: nat, n: nat)
    requires NatToString(m) == NatToString(n)
    ensures m == n
  {
    NatToStringValue(m);
    NatToStringValue(n);
  }

  /** The nearest whole number of tenths to `x`, a tie going up. */
  function Tenths(x: real): (n: int)
    ensures (n as real) - 0.5 <= 10.0 * x < (n as real) + 0.5
  {
    (10.0 * x + 0.5).Floor
  }

  /** `x.toFixed(1)` for a non-negative `x` below 10^21. */
  function UnsignedFixed1(x: real): (r: string)
    requires x >= 0.0
    ensures |r| >= 3 && r[|r| - 2] == '.' && AllDigits(r[..|r| - 2]) && IsDigit(r[|r| - 1])
  {
    var n := Tenths(x) as nat;
    NatToString(n / 10) + "." + [DigitChar(n % 10)]
  }

  /** `x.toFixed(1)`: a negative number is its magnitude's rendering after a minus sign. */
  function Fixed1(x: real): (r: string)
    ensures |r| >= 3
  {
    if x < 0.0 then "-" + UnsignedFixed1(-x) else UnsignedFixed1(x)
  }

  /** Reading the rendering back gives `x` to the nearest tenth: the whole
    * part and the one decimal make up `Tenths(x)`. */
  lemma Fixed1ReadsBack(x: real)
    requires x >= 0.0
    ensures var r := Fixed1(x);
      r[|r| - 2] == '.' && AllDigits(r[..|r| - 2]) && IsDigit(r[|r| - 1])
      && DigitsValue(r[..|r| - 2]) * 10 + DigitOf(r[|r| - 1]) == Tenths(x)
  {
    var n := Tenths(x) as nat;
    var w := NatToString(n / 10);
    var r := Fixed1(x);
    assert r == w + "." + [DigitChar(n % 10)];
    assert r[..|r| - 2] == w;
    NatToStringValue(n / 10);
  }
}
