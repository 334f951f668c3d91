/**
 * The string primitives of Python and JavaScript that the modelled code is built from:
 * whitespace stripping (`str.strip`, `String.prototype.trim`, `str.lstrip(chars)`),
 * `startswith`, `split`, `join`, `replace(tag, '')`, decimal formatting of integers,
 * and the UTF-16 code units that JavaScript string lengths and `charAt` count in.
 */
module Text {
  import opened Wrappers

  /** One UTF-16 code unit; a JavaScript string is a sequence of these. */
  type CodeUnit = x: int | 0 <= x < 0x1_0000

  // ----- whitespace -----

  /** The characters for which Python's `str.isspace()` holds; `str.strip()` removes them. */
  predicate IsPySpace(c: char) {
    ('\t' <= c <= '\r') || ('\U{1C}' <= c <= ' ') || c == '\U{85}' || c == '\U{A0}'
    || c == '\U{1680}' || ('\U{2000}' <= c <= '\U{200A}') || c == '\U{2028}' || c == '\U{2029}'
    || c == '\U{202F}' || c == '\U{205F}' || c == '\U{3000}'
  }

  /** The characters JavaScript's `trim()` removes: WhiteSpace and LineTerminator. */
  predicate IsJsSpace(c: char) {
    ('\t' <= c <= '\r') || c == ' ' || c == '\U{A0}' || c == '\U{1680}'
    || ('\U{2000}' <= c <= '\U{200A}') || c == '\U{2028}' || c == '\U{2029}'
    || c == '\U{202F}' || c == '\U{205F}' || c == '\U{3000}' || c == '\U{FEFF}'
  }

  /** Removes the leading characters that satisfy `drop` (Python `lstrip(chars)`). */
  function LStrip(s: string, drop: char -> bool): (r: string)
    ensures |r| <= |s| && r == s[|s| - |r|..]
    ensures forall i :: 0 <= i < |s| - |r| ==> drop(s[i])
    ensures r != [] ==> !drop(r[0])
    decreases |s|
  {
    if s != [] && drop(s[0]) then LStrip(s[1..], drop) else s
  }

  /** Removes the trailing characters that satisfy `drop`. */
  function RStrip(s: string, drop: char -> bool): (r: string)
    ensures |r| <= |s| && r == s[..|r|]
    ensures forall i :: |r| <= i < |s| ==> drop(s[i])
    ensures r != [] ==> !drop(r[|r| - 1])
    decreases |s|
  {
    if s != [] && drop(s[|s| - 1]) then RStrip(s[..|s| - 1], drop) else s
  }

  /** Removes the characters that satisfy `drop` from both ends. */
  function Strip(s: string, drop: char -> bool): (r: string)
    ensures |r| <= |s|
    ensures r == [] <==> forall i :: 0 <= i < |s| ==> drop(s[i])
    ensures r != [] ==> !drop(r[0]) && !drop(r[|r| - 1])
  {
    var l := LStrip(s, drop);
    StripFacts(s, l, drop);
    RStrip(l, drop)
  }

  lemma StripFacts(s: string, l: string, drop: char -> bool)
    requires l == LStrip(s, drop)
    ensures RStrip(l, drop) != [] ==> RStrip(l, drop)[0] == l[0]
    ensures RStrip(l, drop) == [] <==> forall i :: 0 <= i < |s| ==> drop(s[i])
  {
    var r := RStrip(l, drop);
    var k := |s| - |l|;
    if r == [] {
      forall i | 0 <= i < |s| ensures drop(s[i]) {
        if i >= k {
          assert s[i] == l[i - k];
        }
      }
    } else {
      assert r[0] == l[0];
      assert l[0] == s[k];
    }
  }

  /** Python `str.strip()` with no argument. */
  function PyStrip(s: string): string {
    Strip(s, IsPySpace)
  }

  /** JavaScript `String.prototype.trim()`. */
  function JsTrim(s: string): string {
    Strip(s, IsJsSpace)
  }

  /** A string that stripping leaves as it is: empty, or neither end is droppable. */
  predicate IsStripped(s: string, drop: char -> bool) {
    s != [] ==> !drop(s[0]) && !drop(s[|s| - 1])
  }

  /** What stripping returns is stripped. */
  lemma StripIsStripped(s: string, drop: char -> bool)
    ensures IsStripped(Strip(s, drop), drop)
  {
  }

  /** Stripping a stripped string changes nothing, so stripping is idempotent. */
  lemma StripStripped(s: string, drop: char -> bool)
    requires IsStripped(s, drop)
    ensures Strip(s, drop) == s
  {
    assert LStrip(s, drop) == s;
  }

  /** A leading droppable character does not change the stripped result. */
  lemma StripDropsLeading(c: char, s: string, drop: char -> bool)
    requires drop(c)
    ensures Strip([c] + s, drop) == Strip(s, drop)
  {
    assert ([c] + s)[1..] == s;
  }

  /**
   * Right-stripping `a + b` keeps all of `a` when `b` holds a character that is not
   * dropped: only characters after it can go.
   */
  lemma {:induction false} RStripKeepsPrefix(a: string, b: string, j: nat, drop: char -> bool)
    requires j < |b| && !drop(b[j])
    ensures RStrip(a + b, drop) == a + RStrip(b, drop)
    decreases |b|
  {
    if drop(b[|b| - 1]) {
      assert (a + b)[..|a + b| - 1] == a + b[..|b| - 1];
      RStripKeepsPrefix(a, b[..|b| - 1], j, drop);
    }
  }

  /** Left-stripping leaves a string alone when its first character is not dropped. */
  lemma LStripKeeps(s: string, drop: char -> bool)
    requires s != [] && !drop(s[0])
    ensures LStrip(s, drop) == s
  {
  }

  // ----- searching -----

  /** Python `str.startswith` / JavaScript `startsWith`. */
  predicate StartsWith(s: string, prefix: string) {
    |prefix| <= |s| && s[..|prefix|] == prefix
  }

  /** `pat` occurs in `s` at index `i`. */
  predicate OccursAt(s: string, pat: string, i: int) {
    0 <= i && i + |pat| <= |s| && s[i..i + |pat|] == pat
  }

  /** Index of the first occurrence of `pat` in `s` (Python `str.find`), if any. */
  function Find(s: string, pat: string): (r: Option<nat>)
    requires pat != []
    ensures r.Some? ==> OccursAt(s, pat, r.value)
    ensures r.Some? ==> forall j :: 0 <= j < r.value ==> !OccursAt(s, pat, j)
    ensures r.None? ==> forall j :: 0 <= j ==> !OccursAt(s, pat, j)
    decreases |s|
  {
    if |s| < |pat| then None
    else if s[..|pat|] == pat then Some(0)
    else
      var rest := Find(s[1..], pat);
      assert forall j :: 0 <= j ==> (OccursAt(s, pat, j + 1) <==> OccursAt(s[1..], pat, j)) by {
        forall j | 0 <= j
          ensures OccursAt(s, pat, j + 1) <==> OccursAt(s[1..], pat, j)
        {
          OccursShift(s, pat, j);
        }
      }
      match rest
      case None =>
        assert forall j :: 0 <= j ==> !OccursAt(s, pat, j) by {
          forall j | 0 <= j ensures !OccursAt(s, pat, j) {
            if j >= 1 {
              assert !OccursAt(s[1..], pat, j - 1);
            }
          }
        }
        None
      case Some(i) =>
        assert forall j :: 0 <= j < i + 1 ==> !OccursAt(s, pat, j) by {
          forall j | 0 <= j < i + 1 ensures !OccursAt(s, pat, j) {
            if j >= 1 {
              assert !OccursAt(s[1..], pat, j - 1);
            }
          }
        }
        Some(i + 1)
  }

  /** An occurrence one position further into `s` is an occurrence in `s[1..]`. */
  lemma OccursShift(s: string, pat: string, j: nat)
    requires s != []
    ensures OccursAt(s, pat, j + 1) <==> OccursAt(s[1..], pat, j)
  {
    if j + 1 + |pat| <= |s| {
      var a, b := s[j + 1..j + 1 + |pat|], s[1..][j..j + |pat|];
      assert |a| == |b|;
      assert forall t :: 0 <= t < |a| ==> a[t] == s[j + 1 + t] == b[t];
      assert a == b;
    }
  }

  /** No occurrence of a one-character pattern in a string that lacks that character. */
  lemma FindAbsent(s: string, sep: char)
    requires sep !in s
    ensures Find(s, [sep]) == None
  {
    forall j | 0 <= j < |s| ensures !OccursAt(s, [sep], j) {
      assert s[j..j + 1] == [s[j]];
    }
  }

  /** Python `str.split(sep)` for a non-empty separator: pieces between non-overlapping occurrences. */
  function Split(s: string, sep: string): (parts: seq<string>)
    requires sep != []
    ensures |parts| >= 1
    ensures forall k, j :: 0 <= k < |parts| ==> !OccursAt(parts[k], sep, j)
    decreases |s|
  {
    match Find(s, sep)
    case None => [s]
    case Some(i) =>
      assert forall j :: !OccursAt(s[..i], sep, j) by {
        forall j | OccursAt(s[..i], sep, j) ensures false {
          assert s[..i][j..j + |sep|] == s[j..j + |sep|];
          assert OccursAt(s, sep, j);
        }
      }
      [s[..i]] + Split(s[i + |sep|..], sep)
  }

  /** Python `sep.join(parts)`. */
  function Join(parts: seq<string>, sep: string): string
    decreases |parts|
  {
    if |parts| == 0 then ""
    else if |parts| == 1 then parts[0]
    else parts[0] + sep + Join(parts[1..], sep)
  }

  /** Joining the pieces of a split with the same separator restores the string. */
  lemma {:induction false} JoinSplit(s: string, sep: string)
    requires sep != []
    ensures Join(Split(s, sep), sep) == s
    decreases |s|
  {
    var f := Find(s, sep);
    if f.Some? {
      var i := f.value;
      var rest := s[i + |sep|..];
      var tail := Split(rest, sep);
      assert Split(s, sep) == [s[..i]] + tail;
      JoinSplit(rest, sep);
      assert Join([s[..i]] + tail, sep) == s[..i] + sep + Join(tail, sep) by {
        assert ([s[..i]] + tail)[1..] == tail;
      }
      assert s[i..i + |sep|] == sep;
      assert s == s[..i] + s[i..i + |sep|] + rest;
    }
  }

  /**
   * Splitting a join on a one-character separator gives back the pieces, provided no
   * piece contains that character.
   */
  lemma {:induction false} SplitJoin(parts: seq<string>, sep: char)
    requires |parts| >= 1
    requires forall k :: 0 <= k < |parts| ==> sep !in parts[k]
    ensures Split(Join(parts, [sep]), [sep]) == parts
    decreases |parts|
  {
    if |parts| == 1 {
      FindAbsent(parts[0], sep);
    } else {
      var p := parts[0];
      var rest := Join(parts[1..], [sep]);
      var s := p + [sep] + rest;
      assert Join(parts, [sep]) == s;
      assert OccursAt(s, [sep], |p|) by { assert s[|p|..|p| + 1] == [sep]; }
      assert forall j :: 0 <= j < |p| ==> !OccursAt(s, [sep], j) by {
        forall j | 0 <= j < |p| ensures !OccursAt(s, [sep], j) {
          assert s[j] == p[j];
          assert s[j..j + 1] == [s[j]];
        }
      }
      var f := Find(s, [sep]);
      assert f == Some(|p|);
      assert s[..|p|] == p;
      assert s[|p| + 1..] == rest;
      SplitJoin(parts[1..], sep);
    }
  }

  /** Python `s.replace(pat, '')`: deletes the non-overlapping occurrences of `pat`, left to right. */
  function RemoveAll(s: string, pat: string): (r: string)
    requires pat != []
    ensures |r| <= |s|
    ensures (forall j :: !OccursAt(s, pat, j)) ==> r == s
    decreases |s|
  {
    if StartsWith(s, pat) then
      assert OccursAt(s, pat, 0);
      RemoveAll(s[|pat|..], pat)
    else if s == [] then []
    else
      assert forall j :: 0 <= j && OccursAt(s[1..], pat, j) ==> OccursAt(s, pat, j + 1) by {
        forall j | 0 <= j && OccursAt(s[1..], pat, j) ensures OccursAt(s, pat, j + 1) {
          assert s[1..][j..j + |pat|] == s[j + 1..j + 1 + |pat|];
        }
      }
      [s[0]] + RemoveAll(s[1..], pat)
  }

  // ----- numbers as text -----

  function DigitChar(d: int): (c: char)
    requires 0 <= d < 10
    ensures '0' <= c <= '9'
  {
    ('0' as int + d) as char
  }

  /** Decimal digits of a natural number, as Python's `str(n)` and JavaScript's `String(n)` print it. */
  function NatToString(n: nat): (r: string)
    ensures r != []
    ensures forall i :: 0 <= i < |r| ==> '0' <= r[i] <= '9'
    ensures r[0] == '0' ==> n == 0
  {
    if n < 10 then [DigitChar(n)] else NatToString(n / 10) + [DigitChar(n % 10)]
  }

  /** The value of a string of decimal digits. */
  function DecimalValue(s: string): nat
    requires forall i :: 0 <= i < |s| ==> '0' <= s[i] <= '9'
  {
    if s == [] then 0 else DecimalValue(s[..|s| - 1]) * 10 + (s[|s| - 1] as int - '0' as int)
  }

  /** Reading the printed digits back gives the number. */
  lemma {:induction false} NatToStringRoundTrip(n: nat)
    ensures DecimalValue(NatToString(n)) == n
  {
    if n >= 10 {
      NatToStringRoundTrip(n / 10);
      var r := NatToString(n);
      assert r[..|r| - 1] == NatToString(n / 10);
    }
  }

  /** Decimal form of an integer, with a leading `-` when negative. */
  function IntToString(i: int): (r: string)
    ensures r != []
    ensures (r[0] == '-') == (i < 0)
  {
    if i < 0 then "-" + NatToString(-i) else NatToString(i)
  }

  // ----- UTF-16 -----

  /** The UTF-16 code units of one character (a surrogate pair above U+FFFF). */
  function CharUnits(c: char): (r: seq<CodeUnit>)
    ensures |r| == (if c as int < 0x1_0000 then 1 else 2)
    ensures r[0] == c as int || 0xD800 <= r[0] < 0xDC00
  {
    var v := c as int;
    if v < 0x1_0000 then [v]
    else [0xD800 + (v - 0x1_0000) / 0x400, 0xDC00 + (v - 0x1_0000) % 0x400]
  }

  /** A string as JavaScript sees it: its UTF-16 code units. */
  function Utf16(s: string): (r: seq<CodeUnit>)
    ensures |s| <= |r| <= 2 * |s|
    decreases |s|
  {
    if s == [] then [] else CharUnits(s[0]) + Utf16(s[1..])
  }

  /** JavaScript's `length` of a string: its number of UTF-16 code units. */
  function JsLength(s: string): nat {
    |Utf16(s)|
  }

  /** Characters of the Basic Multilingual Plane take one code unit each. */
  predicate IsBmp(s: string) {
    forall i :: 0 <= i < |s| ==> s[i] as int < 0x1_0000
  }

  /** On Basic Multilingual Plane text JavaScript's length is the character count. */
  lemma {:induction false} JsLengthBmp(s: string)
    requires IsBmp(s)
    ensures JsLength(s) == |s|
    decreases |s|
  {
    if s != [] {
      JsLengthBmp(s[1..]);
    }
  }

  /** The code units of a concatenation are the concatenated code units. */
  lemma {:induction false} Utf16Append(a: string, b: string)
    ensures Utf16(a + b) == Utf16(a) + Utf16(b)
    decreases |a|
  {
    if a == [] {
      assert a + b == b;
    } else {
      assert (a + b)[0] == a[0];
      assert (a + b)[1..] == a[1..] + b;
      Utf16Append(a[1..], b);
      calc {
        Utf16(a + b);
        CharUnits(a[0]) + Utf16(a[1..] + b);
        CharUnits(a[0]) + (Utf16(a[1..]) + Utf16(b));
        (CharUnits(a[0]) + Utf16(a[1..])) + Utf16(b);
      }
    }
  }

  // ----- case mapping -----

  function LowerChar(c: char): char {
    if 'A' <= c <= 'Z' then (c as int + 32) as char else c
  }

  /** `toLowerCase()` restricted to ASCII letters; other characters are kept. */
  function AsciiLower(s: string): (r: string)
    ensures |r| == |s|
  {
    seq(|s|, i requires 0 <= i < |s| => LowerChar(s[i]))
  }
}
