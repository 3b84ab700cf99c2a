/** String operations of the two runtimes the application is written for:
    JavaScript's `trim` and `split(/\s+/)`, and Python's `strip`, `split`,
    `replace`, `lower` and slicing, all over `seq<char>`. */
module Text {

  /** Which runtime's notion of white space applies. */
  datatype Runtime = Js | Py

  /** JavaScript `\s` (the characters `String.prototype.trim` removes). */
  const JsSpaces: set<char> := {' ', '\t', '\n', '\r', '\U{000B}', '\U{000C}', '\U{00A0}', '\U{1680}', '\U{2000}', '\U{2001}', '\U{2002}', '\U{2003}', '\U{2004}', '\U{2005}', '\U{2006}', '\U{2007}', '\U{2008}', '\U{2009}', '\U{200A}', '\U{2028}', '\U{2029}', '\U{202F}', '\U{205F}', '\U{3000}', '\U{FEFF}'}

  /** Python's white space (`str.isspace`, what `strip()` removes). */
  const PySpaces: set<char> := {' ', '\t', '\n', '\r', '\U{000B}', '\U{000C}', '\U{001C}', '\U{001D}', '\U{001E}', '\U{001F}', '\U{0085}', '\U{00A0}', '\U{1680}', '\U{2000}', '\U{2001}', '\U{2002}', '\U{2003}', '\U{2004}', '\U{2005}', '\U{2006}', '\U{2007}', '\U{2008}', '\U{2009}', '\U{200A}', '\U{2028}', '\U{2029}', '\U{202F}', '\U{205F}', '\U{3000}'}

  predicate IsJsSpace(c: char) { c in JsSpaces }

  predicate IsPySpace(c: char) { c in PySpaces }

  predicate IsSpace(rt: Runtime, c: char) {
    if rt == Js then IsJsSpace(c) else IsPySpace(c)
  }

  /** Every character of `s` is white space (JavaScript: `!s.trim()`). */
  predicate IsBlank(rt: Runtime, s: string) {
    forall i :: 0 <= i < |s| ==> IsSpace(rt, s[i])
  }

  /** JavaScript `s.trim()` / Python `s.strip()`: white space removed from
      both ends. */
  function Trim(rt: Runtime, s: string): (r: string)
    ensures r == [] || (!IsSpace(rt, r[0]) && !IsSpace(rt, r[|r| - 1]))
    ensures r == [] <==> IsBlank(rt, s)
    ensures |r| <= |s|
    decreases |s|
  {
    if s == [] then []
    else if IsSpace(rt, s[0]) then
      var r := Trim(rt, s[1..]);
      assert r == [] ==> IsBlank(rt, s) by {
        if r == [] {
          forall i | 0 < i < |s| ensures IsSpace(rt, s[i]) {
            assert s[i] == s[1..][i - 1];
          }
        }
      }
      r
    else if IsSpace(rt, s[|s| - 1]) then
      var r := Trim(rt, s[..|s| - 1]);
      r
    else s
  }

  /** Python slicing `s[:n]` for n >= 0. */
  function Take<T>(s: seq<T>, n: nat): (r: seq<T>)
    ensures |r| == if n < |s| then n else |s|
    ensures r == s[..|r|]
  {
    if n < |s| then s[..n] else s
  }

  predicate StartsWith<T(==)>(s: seq<T>, prefix: seq<T>) {
    |prefix| <= |s| && s[..|prefix|] == prefix
  }

  /** `pat` occurs somewhere in `s`. */
  predicate Contains<T(==)>(s: seq<T>, pat: seq<T>)
    decreases |s|
  {
    StartsWith(s, pat) || (s != [] && Contains(s[1..], pat))
  }

  /** A string contains whatever is spliced into it. */
  lemma {:induction false} ContainsInfix<T>(a: seq<T>, b: seq<T>, c: seq<T>)
    ensures Contains(a + b + c, b)
    decreases |a|
  {
    if a == [] {
      assert (a + b + c)[..|b|] == b;
    } else {
      ContainsInfix(a[1..], b, c);
      assert (a + b + c)[1..] == a[1..] + b + c;
    }
  }

  // ---------------------------------------------------------------------
  // Python str.split(sep) and its inverse, str.join

  /** Python `s.split(sep)` for a non-empty separator: the pieces between
      the non-overlapping occurrences of `sep`, found left to right. */
  function Split(s: string, sep: string): (r: seq<string>)
    requires sep != []
    ensures |r| >= 1
    decreases |s|
  {
    if |s| < |sep| then [s]
    else if s[..|sep|] == sep then [""] + Split(s[|sep|..], sep)
    else
      var rest := Split(s[1..], sep);
      [[s[0]] + rest[0]] + rest[1..]
  }

  /** Python `sep.join(parts)`. */
  function Join(parts: seq<string>, sep: string): string {
    if |parts| == 0 then ""
    else if |parts| == 1 then parts[0]
    else parts[0] + sep + Join(parts[1..], sep)
  }

  /** Splitting loses nothing: joining the pieces gives the string back. */
  lemma {:induction false} JoinSplit(s: string, sep: string)
    requires sep != []
    ensures Join(Split(s, sep), sep) == s
    decreases |s|
  {
    if |s| < |sep| {
    } else if s[..|sep|] == sep {
      var rest := Split(s[|sep|..], sep);
      JoinSplit(s[|sep|..], sep);
      assert Split(s, sep) == [""] + rest;
      assert ([""] + rest)[1..] == rest;
      assert s == sep + s[|sep|..];
    } else {
      var rest := Split(s[1..], sep);
      JoinSplit(s[1..], sep);
      var r := [[s[0]] + rest[0]] + rest[1..];
      assert Split(s, sep) == r;
      if |rest| == 1 {
        assert s == [s[0]] + s[1..];
      } else {
        assert r[1..] == rest[1..];
        assert Join(rest, sep) == rest[0] + sep + Join(rest[1..], sep);
        assert s == [s[0]] + s[1..];
      }
    }
  }

  // ---------------------------------------------------------------------
  // JavaScript s.split(/\s+/)

  /** Length of the longest prefix of `s` made of non-space characters. */
  function NonSpaceSpan(s: string): (n: nat)
    ensures n <= |s|
    ensures forall i :: 0 <= i < n ==> !IsJsSpace(s[i])
    ensures n < |s| ==> IsJsSpace(s[n])
  {
    if s == [] || IsJsSpace(s[0]) then 0 else 1 + NonSpaceSpan(s[1..])
  }

  /** Length of the longest prefix of `s` made of space characters. */
  function SpaceSpan(s: string): (n: nat)
    ensures n <= |s|
    ensures forall i :: 0 <= i < n ==> IsJsSpace(s[i])
    ensures n < |s| ==> !IsJsSpace(s[n])
  {
    if s == [] || !IsJsSpace(s[0]) then 0 else 1 + SpaceSpan(s[1..])
  }

  /** JavaScript `s.split(/\s+/)`: the pieces between maximal runs of
      white space (a leading or trailing run yields an empty piece). */
  function SplitWs(s: string): (r: seq<string>)
    ensures |r| >= 1
    decreases |s|
  {
    var i := NonSpaceSpan(s);
    if i == |s| then [s]
    else
      var j := i + SpaceSpan(s[i..]);
      [s[..i]] + SplitWs(s[j..])
  }

  /** A string with no white space at either end splits into non-empty
      pieces only, unless it is empty. */
  lemma {:induction false} SplitWsOfTrimmed(s: string)
    requires s != [] && !IsJsSpace(s[0]) && !IsJsSpace(s[|s| - 1])
    ensures forall k :: 0 <= k < |SplitWs(s)| ==> SplitWs(s)[k] != []
    decreases |s|
  {
    var i := NonSpaceSpan(s);
    if i < |s| {
      var j := i + SpaceSpan(s[i..]);
      assert j < |s|;
      assert s[j..][0] == s[j] && !IsJsSpace(s[j]);
      assert s[j..][|s[j..]| - 1] == s[|s| - 1];
      SplitWsOfTrimmed(s[j..]);
      assert SplitWs(s) == [s[..i]] + SplitWs(s[j..]);
    }
  }

  /** Number of non-empty strings in `parts` (JavaScript
      `parts.filter(p => p.length > 0).length`). */
  function CountNonEmpty(parts: seq<string>): (n: nat)
    ensures n <= |parts|
  {
    if parts == [] then 0
    else (if parts[0] != [] then 1 else 0) + CountNonEmpty(parts[1..])
  }

  lemma {:induction false} CountNonEmptyAll(parts: seq<string>)
    requires forall k :: 0 <= k < |parts| ==> parts[k] != []
    ensures CountNonEmpty(parts) == |parts|
  {
    if parts != [] {
      CountNonEmptyAll(parts[1..]);
    }
  }

  // ---------------------------------------------------------------------
  // Python str.replace and str.lower

  /** Python `s.replace(pat, rep)`: every non-overlapping occurrence of
      `pat`, found left to right, is replaced. */
  function ReplaceAll(s: string, pat: string, rep: string): string
    requires pat != []
    decreases |s|
  {
    if |s| < |pat| then s
    else if s[..|pat|] == pat then rep + ReplaceAll(s[|pat|..], pat, rep)
    else [s[0]] + ReplaceAll(s[1..], pat, rep)
  }

  /** Replacing is splitting on `pat` and joining with `rep`. */
  lemma {:induction false} ReplaceAllIsSplitJoin(s: string, pat: string, rep: string)
    requires pat != []
    ensures ReplaceAll(s, pat, rep) == Join(Split(s, pat), rep)
    decreases |s|
  {
    if |s| < |pat| {
    } else if s[..|pat|] == pat {
      ReplaceAllIsSplitJoin(s[|pat|..], pat, rep);
      var rest := Split(s[|pat|..], pat);
      assert ([""] + rest)[1..] == rest;
    } else {
      ReplaceAllIsSplitJoin(s[1..], pat, rep);
      var rest := Split(s[1..], pat);
      var r := [[s[0]] + rest[0]] + rest[1..];
      if |rest| > 1 {
        assert r[1..] == rest[1..];
      }
    }
  }

  /** A string without an occurrence of `pat` is left as it is. */
  lemma {:induction false} ReplaceAllAbsent(s: string, pat: string, rep: string)
    requires pat != [] && !Contains(s, pat)
    ensures ReplaceAll(s, pat, rep) == s
    decreases |s|
  {
    if |s| >= |pat| {
      ReplaceAllAbsent(s[1..], pat, rep);
      assert s == [s[0]] + s[1..];
    }
  }

  /** Python `c.lower()` on ASCII letters; other characters are kept. */
  function LowerChar(c: char): char {
    if 'A' <= c <= 'Z' then (c as int + 32) as char else c
  }

  function Lower(s: string): (r: string)
    ensures |r| == |s|
    ensures forall i :: 0 <= i < |s| ==> r[i] == LowerChar(s[i])
  {
    if s == [] then [] else [LowerChar(s[0])] + Lower(s[1..])
  }

  // ---------------------------------------------------------------------
  // Decimal numerals (JavaScript `${n}`, Python f"{n}")

  function DigitChar(d: nat): (c: char)
    requires d < 10
    ensures '0' <= c <= '9'
  {
    (48 + d) as char
  }

  function NatToString(n: nat): (r: string)
    ensures |r| >= 1
    ensures forall i :: 0 <= i < |r| ==> '0' <= r[i] <= '9'
    decreases n
  {
    if n < 10 then [DigitChar(n)] else NatToString(n / 10) + [DigitChar(n % 10)]
  }

  /** The value of a string of decimal digits. */
  function DigitsValue(s: string): nat
    requires forall i :: 0 <= i < |s| ==> '0' <= s[i] <= '9'
  {
    if s == [] then 0 else 10 * DigitsValue(s[..|s| - 1]) + (s[|s| - 1] as int - 48)
  }

  /** Reading the numeral back gives the number. */
  lemma {:induction false} NatToStringValue(n: nat)
    ensures DigitsValue(NatToString(n)) == n
    decreases n
  {
    var r := NatToString(n);
    if n >= 10 {
      NatToStringValue(n / 10);
      assert r[..|r| - 1] == NatToString(n / 10);
    }
  }

  /** Python `str(n)` for an int: a minus sign before negative numbers. */
  function IntToString(n: int): (r: string)
    ensures r != []
  {
    if n < 0 then "-" + NatToString(-n) else NatToString(n)
  }
}
