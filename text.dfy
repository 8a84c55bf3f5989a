/** The string operations the application relies on, with JavaScript's meaning:
    `String.prototype.trim`, `includes` and `startsWith`, and the `length` of a string.
    A Dafny `string` is a sequence of Unicode scalar values; JavaScript counts UTF-16 code
    units, in which a scalar above U+FFFF takes two, so `length` is `Utf16Length`. */
module Text {

  /** The characters `trim` removes: ECMAScript WhiteSpace and LineTerminator. */
  predicate IsSpace(c: char)
  {
    c == ' ' || c == '\t' || c == '\n' || c == '\r' || c == '\U{000B}' || c == '\U{000C}'
    || c == '\U{00A0}' || c == '\U{1680}' || ('\U{2000}' <= c <= '\U{200A}')
    || c == '\U{2028}' || c == '\U{2029}' || c == '\U{202F}' || c == '\U{205F}'
    || c == '\U{3000}' || c == '\U{FEFF}'
  }

  predicate AllSpace(s: string)
  {
    forall i :: 0 <= i < |s| ==> IsSpace(s[i])
  }

  /** Number of leading whitespace characters. */
  function LeadingSpaces(s: string): (k: nat)
    ensures k <= |s|
    ensures AllSpace(s[..k])
    ensures k == |s| || !IsSpace(s[k])
  {
    if |s| > 0 && IsSpace(s[0]) then
      var k' := LeadingSpaces(s[1..]);
      assert s[1..][..k'] == s[1..k' + 1];
      1 + k'
    else 0
  }

  /** Number of trailing whitespace characters. */
  function TrailingSpaces(s: string): (k: nat)
    ensures k <= |s|
    ensures AllSpace(s[|s| - k..])
    ensures k == |s| || !IsSpace(s[|s| - k - 1])
  {
    if |s| > 0 && IsSpace(s[|s| - 1]) then
      var t := s[..|s| - 1];
      var k' := TrailingSpaces(t);
      assert s[|s| - (1 + k')..] == t[|t| - k'..] + [s[|s| - 1]];
      1 + k'
    else 0
  }

  /** `s.trim()`. */
  function Trim(s: string): string
  {
    var a := LeadingSpaces(s);
    var t := s[a..];
    t[..|t| - TrailingSpaces(t)]
  }

  /** What `trim` promises: the result is the middle of `s` with only whitespace cut
      from either end, and it neither starts nor ends with whitespace. */
  lemma TrimShape(s: string)
    ensures exists i, j :: 0 <= i <= j <= |s| && Trim(s) == s[i..j]
                           && AllSpace(s[..i]) && AllSpace(s[j..])
    ensures Trim(s) == [] || (!IsSpace(Trim(s)[0]) && !IsSpace(Trim(s)[|Trim(s)| - 1]))
  {
    var a := LeadingSpaces(s);
    var t := s[a..];
    var b := TrailingSpaces(t);
    var j := a + |t| - b;
    assert Trim(s) == s[a..j];
    assert s[j..] == t[|t| - b..];
    if Trim(s) != [] {
      assert Trim(s)[0] == s[a];
    }
  }

  /** A string trims to "" exactly when it is whitespace only. */
  lemma TrimEmptyIffAllSpace(s: string)
    ensures Trim(s) == [] <==> AllSpace(s)
  {
    var a := LeadingSpaces(s);
    var t := s[a..];
    var b := TrailingSpaces(t);
    if Trim(s) == [] {
      assert t[|t| - b..] == t;
      assert AllSpace(t);
      assert a == |s|;
      assert s[..a] == s;
    } else {
      assert !IsSpace(s[a]);
    }
  }

  lemma TrimIdempotent(s: string)
    ensures Trim(Trim(s)) == Trim(s)
  {
    var r := Trim(s);
    TrimShape(s);
    if r != [] {
      assert LeadingSpaces(r) == 0;
      assert TrailingSpaces(r) == 0;
      assert r[0..] == r;
    }
  }

  /** The UTF-16 code units of one scalar value: two for a scalar above U+FFFF. */
  function CodeUnits(c: char): (n: nat)
    ensures n == 1 || n == 2
    ensures n == 2 <==> c > '\U{FFFF}'
  {
    if c > '\U{FFFF}' then 2 else 1
  }

  /** A string of the Basic Multilingual Plane only. */
  predicate AllBmp(s: string)
  {
    forall i :: 0 <= i < |s| ==> s[i] <= '\U{FFFF}'
  }

  /** `s.length`: the number of UTF-16 code units. It is at least the number of scalars
      and at most twice it, and equal to it exactly for text of the Basic Multilingual
      Plane. */
  function Utf16Length(s: string): (n: nat)
    ensures |s| <= n <= 2 * |s|
    ensures n == |s| <==> AllBmp(s)
  {
    if |s| == 0 then 0
    else
      var n' := Utf16Length(s[1..]);
      assert AllBmp(s) <==> s[0] <= '\U{FFFF}' && AllBmp(s[1..]) by {
        assert forall i :: 0 < i < |s| ==> s[i] == s[1..][i - 1];
      }
      CodeUnits(s[0]) + n'
  }

  /** `length` adds up over concatenation. */
  lemma {:induction false} Utf16LengthAppend(a: string, b: string)
    ensures Utf16Length(a + b) == Utf16Length(a) + Utf16Length(b)
  {
    if |a| > 0 {
      assert (a + b)[1..] == a[1..] + b;
      Utf16LengthAppend(a[1..], b);
    } else {
      assert a + b == b;
    }
  }

  /** Two emoji are two scalars but four code units. */
  lemma AstralCountsTwice()
    ensures |"\U{1F600}\U{1F600}"| == 2 && Utf16Length("\U{1F600}\U{1F600}") == 4
  {
    assert "\U{1F600}\U{1F600}"[1..] == "\U{1F600}";
  }

  /** `s.startsWith(p)`. */
  predicate StartsWith(s: string, p: string)
  {
    |p| <= |s| && s[..|p|] == p
  }

  /** `sub` occurs in `s` starting at position `i`. */
  predicate OccursAt(s: string, sub: string, i: int)
  {
    0 <= i && i + |sub| <= |s| && s[i..i + |sub|] == sub
  }

  /** `s.includes(sub)`: `sub` occurs at some position of `s`. */
  function Contains(s: string, sub: string): (r: bool)
    ensures r <==> exists i :: OccursAt(s, sub, i)
  {
    if StartsWith(s, sub) then
      assert OccursAt(s, sub, 0);
      true
    else if |s| == 0 then
      assert forall i :: !OccursAt(s, sub, i);
      false
    else
      var r' := Contains(s[1..], sub);
      if r' then
        var i :| OccursAt(s[1..], sub, i);
        assert s[i + 1..i + 1 + |sub|] == s[1..][i..i + |sub|];
        assert OccursAt(s, sub, i + 1);
        true
      else
        assert forall i :: OccursAt(s, sub, i) ==> i == 0 || OccursAt(s[1..], sub, i - 1) by {
          forall i | OccursAt(s, sub, i) && i != 0
            ensures OccursAt(s[1..], sub, i - 1)
          {
            assert s[1..][i - 1..i - 1 + |sub|] == s[i..i + |sub|];
          }
        }
        false
  }

  /** A prefix occurrence is an occurrence, so every `startsWith` test that succeeds makes
      the corresponding `includes` test succeed. */
  lemma StartsWithContains(s: string, p: string)
    requires StartsWith(s, p)
    ensures Contains(s, p)
  {
    assert OccursAt(s, p, 0);
  }

  /** One mismatching position rules a prefix out. */
  lemma MismatchNotPrefix(s: string, p: string, i: nat)
    requires i < |s| && i < |p| && s[i] != p[i]
    ensures !StartsWith(s, p)
  {
    if |p| <= |s| {
      assert s[..|p|][i] != p[i];
    }
  }

  /** A string lacking some character of `sub` cannot contain `sub`. */
  lemma MissingCharNotContains(s: string, sub: string, c: char)
    requires c in sub && c !in s
    ensures !Contains(s, sub)
  {
    var k :| 0 <= k < |sub| && sub[k] == c;
    forall i | 0 <= i && i + |sub| <= |s|
      ensures !OccursAt(s, sub, i)
    {
      assert s[i..i + |sub|][k] == s[i + k];
    }
  }
}
