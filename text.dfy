/** The pieces of Python's `str` behaviour that the campaign-pack pipeline relies on:
    whitespace, strip, split, join, single-character replace, find/rfind, and the
    conversions between integers and their decimal text (`str(n)` and `int(s)`). */
module Text {
  import opened Wrappers

  /** Python's `str.isspace()` for one character. The same set is used by `str.strip()`,
      `str.split()` with no separator, and the regular-expression class `\s` on str patterns. */
  predicate IsSpace(c: char) {
    c == ' ' || c == '\t' || c == '\n' || c == '\r' || c == '\U{B}' || c == '\U{C}'
    || ('\U{1C}' <= c <= '\U{1F}') || c == '\U{85}' || c == '\U{A0}' || c == '\U{1680}'
    || ('\U{2000}' <= c <= '\U{200A}') || c == '\U{2028}' || c == '\U{2029}'
    || c == '\U{202F}' || c == '\U{205F}' || c == '\U{3000}'
  }

  /** No character of `s` is whitespace. */
  predicate NoSpace(s: string) {
    forall i :: 0 <= i < |s| ==> !IsSpace(s[i])
  }

  /** `s` with its leading whitespace removed (Python's `s.lstrip()`). */
  function TrimStart(s: string): (r: string)
    ensures |r| <= |s|
    ensures r == [] || !IsSpace(r[0])
  {
    if s == [] || !IsSpace(s[0]) then s else TrimStart(s[1..])
  }

  /** What `TrimStart` removes is whitespace, and what it keeps is the rest of `s`. */
  lemma {:induction false} TrimStartSlice(s: string)
    ensures TrimStart(s) == s[|s| - |TrimStart(s)|..]
    ensures forall i :: 0 <= i < |s| - |TrimStart(s)| ==> IsSpace(s[i])
  {
    if s != [] && IsSpace(s[0]) {
      TrimStartSlice(s[1..]);
      assert s[1..][|s| - 1 - |TrimStart(s)|..] == s[|s| - |TrimStart(s)|..];
      forall i | 0 <= i < |s| - |TrimStart(s)| ensures IsSpace(s[i]) {
        if i > 0 {
          assert s[i] == s[1..][i - 1];
        }
      }
    }
  }

  /** `s` with its trailing whitespace removed (Python's `s.rstrip()`). */
  function TrimEnd(s: string): (r: string)
    ensures |r| <= |s|
    ensures r == [] || !IsSpace(r[|r| - 1])
  {
    if s == [] || !IsSpace(s[|s| - 1]) then s else TrimEnd(s[..|s| - 1])
  }

  /** What `TrimEnd` removes is whitespace, and what it keeps is the start of `s`. */
  lemma {:induction false} TrimEndSlice(s: string)
    ensures TrimEnd(s) == s[..|TrimEnd(s)|]
    ensures forall i :: |TrimEnd(s)| <= i < |s| ==> IsSpace(s[i])
  {
    if s != [] && IsSpace(s[|s| - 1]) {
      var init := s[..|s| - 1];
      TrimEndSlice(init);
      assert init[..|TrimEnd(s)|] == s[..|TrimEnd(s)|];
      forall i | |TrimEnd(s)| <= i < |s| ensures IsSpace(s[i]) {
        if i < |s| - 1 {
          assert s[i] == init[i];
        }
      }
    }
  }

  /** Python's `s.strip()`: neither end of the result is whitespace. */
  function Strip(s: string): (r: string)
  {
    TrimEnd(TrimStart(s))
  }

  lemma StripEnds(s: string)
    ensures Strip(s) == [] || (!IsSpace(Strip(s)[0]) && !IsSpace(Strip(s)[|Strip(s)| - 1]))
    ensures Strip(s) == [] <==> forall i :: 0 <= i < |s| ==> IsSpace(s[i])
  {
    var t := TrimStart(s);
    TrimStartSlice(s);
    TrimEndSlice(t);
    if t != [] {
      assert t[0] == s[|s| - |t|];
      assert Strip(s)[0] == t[0];
    }
  }

  /** Where `Strip(s)` starts inside `s`. */
  function StripOffset(s: string): nat
  {
    |s| - |TrimStart(s)|
  }

  /** `Strip(s)` is the contiguous slice of `s` that starts at `StripOffset(s)`. */
  lemma StripSlice(s: string)
    ensures StripOffset(s) + |Strip(s)| <= |s|
    ensures Strip(s) == s[StripOffset(s)..StripOffset(s) + |Strip(s)|]
  {
    var t := TrimStart(s);
    var k := |s| - |t|;
    var r := TrimEnd(t);
    TrimStartSlice(s);
    TrimEndSlice(t);
    assert t == s[k..];
    assert r == t[..|r|];
    assert s[k..][..|r|] == s[k..k + |r|];
  }

  /** Text without whitespace is left as it is by strip. */
  lemma StripNoSpace(s: string)
    requires NoSpace(s)
    ensures Strip(s) == s
  {
    if s != [] {
      assert !IsSpace(s[0]);
      assert !IsSpace(s[|s| - 1]);
    }
  }

  /** The longest prefix of `s` that holds no whitespace. */
  function Word(s: string): (w: string)
    ensures |w| <= |s| && w == s[..|w|] && NoSpace(w)
    ensures |w| == |s| || IsSpace(s[|w|])
  {
    if s == [] || IsSpace(s[0]) then [] else [s[0]] + Word(s[1..])
  }

  /** Python's `s.split()` with no separator: the maximal runs of non-whitespace
      characters of `s`, in order; no word is empty. */
  function Split(s: string): (words: seq<string>)
    ensures forall k :: 0 <= k < |words| ==> words[k] != [] && NoSpace(words[k])
    decreases |s|
  {
    var t := TrimStart(s);
    if t == [] then []
    else
      var w := Word(t);
      assert w != [] by { assert !IsSpace(t[0]); }
      [w] + Split(t[|w|..])
  }

  /** A non-empty text without whitespace splits into itself alone. */
  lemma SplitWord(s: string)
    requires s != [] && NoSpace(s)
    ensures Split(s) == [s]
  {
    assert !IsSpace(s[0]);
    assert TrimStart(s) == s;
    assert Word(s) == s;
    assert s[|s|..] == [];
  }

  /** Text whose first and last characters are not whitespace is its own strip. */
  lemma StripKeeps(s: string)
    requires s != [] && !IsSpace(s[0]) && !IsSpace(s[|s| - 1])
    ensures Strip(s) == s
  {
    assert TrimStart(s) == s;
  }

  /** The first word of a word followed by whitespace is that word. */
  lemma {:induction false} WordBeforeSpace(w: string, rest: string)
    requires NoSpace(w) && rest != [] && IsSpace(rest[0])
    ensures Word(w + rest) == w
  {
    if w != [] {
      assert (w + rest)[1..] == w[1..] + rest;
      WordBeforeSpace(w[1..], rest);
    } else {
      assert w + rest == rest;
    }
  }

  /** Leading whitespace does not change the split. */
  lemma SplitAfterSpace(c: char, b: string)
    requires IsSpace(c)
    ensures Split([c] + b) == Split(b)
  {
    assert ([c] + b)[1..] == b;
    assert TrimStart([c] + b) == TrimStart(b);
  }

  /** A word followed by whitespace is the first word of the split. */
  lemma SplitFirstWord(w: string, rest: string)
    requires w != [] && NoSpace(w) && rest != [] && IsSpace(rest[0])
    ensures Split(w + rest) == [w] + Split(rest)
  {
    var s := w + rest;
    assert s[0] == w[0];
    assert TrimStart(s) == s;
    WordBeforeSpace(w, rest);
    assert s[|w|..] == rest;
  }

  /** Two words with one space between them split into those two words. */
  lemma SplitTwoWords(a: string, b: string)
    requires a != [] && NoSpace(a) && b != [] && NoSpace(b)
    ensures Split(a + " " + b) == [a, b]
  {
    var rest := [' '] + b;
    assert a + " " + b == a + rest;
    SplitFirstWord(a, rest);
    SplitAfterSpace(' ', b);
    SplitWord(b);
  }

  /** The first `n` characters of `s`, or all of them (Python's `s[:n]` for `n >= 0`). */
  function Take(s: string, n: nat): (r: string)
    ensures |r| == (if |s| <= n then |s| else n)
    ensures r == s[..|r|]
  {
    if |s| <= n then s else s[..n]
  }

  /** Python's `sep.join(parts)`. */
  function Join(sep: string, parts: seq<string>): string
  {
    if |parts| == 0 then []
    else if |parts| == 1 then parts[0]
    else parts[0] + sep + Join(sep, parts[1..])
  }

  lemma JoinOne(sep: string, x: string)
    ensures Join(sep, [x]) == x
  {
  }

  lemma JoinTwo(sep: string, x: string, y: string)
    ensures Join(sep, [x, y]) == x + sep + y
  {
    assert [x, y][1..] == [y];
  }

  /** Joining whitespace-free parts with a whitespace-free separator gives whitespace-free text. */
  lemma {:induction false} JoinNoSpace(sep: string, parts: seq<string>)
    requires NoSpace(sep)
    requires forall k :: 0 <= k < |parts| ==> NoSpace(parts[k])
    ensures NoSpace(Join(sep, parts))
  {
    if |parts| > 1 {
      JoinNoSpace(sep, parts[1..]);
      var rest := Join(sep, parts[1..]);
      var r := parts[0] + sep + rest;
      forall i | 0 <= i < |r| ensures !IsSpace(r[i]) {
        if i < |parts[0]| {
          assert r[i] == parts[0][i];
        } else if i < |parts[0]| + |sep| {
          assert r[i] == sep[i - |parts[0]|];
        } else {
          assert r[i] == rest[i - |parts[0]| - |sep|];
        }
      }
    }
  }

  /** Python's `s.replace(c, rep)` for a one-character pattern `c`: every occurrence of
      `c` is replaced by `rep`, every other character is kept. */
  function Replace(s: string, c: char, rep: string): (r: string)
    ensures |rep| == 1 ==> |r| == |s|
    ensures c !in s ==> r == s
  {
    if s == [] then []
    else (if s[0] == c then rep else [s[0]]) + Replace(s[1..], c, rep)
  }

  /** After `s.replace(c, rep)` a character is in the result only if it is in `rep`, or it
      is in `s` and is not `c`: so `c` is gone when `rep` does not hold it. */
  lemma {:induction false} ReplaceChars(s: string, c: char, rep: string, x: char)
    ensures x in Replace(s, c, rep) ==> x in rep || (x != c && x in s)
  {
    if s != [] {
      ReplaceChars(s[1..], c, rep, x);
      assert x in s[1..] ==> x in s;
    }
  }

  /** The number of occurrences of `c` in `s`. */
  function Count(s: string, c: char): nat
  {
    if s == [] then 0 else (if s[0] == c then 1 else 0) + Count(s[1..], c)
  }

  lemma {:induction false} CountAppend(a: string, b: string, c: char)
    ensures Count(a + b, c) == Count(a, c) + Count(b, c)
  {
    if a != [] {
      assert (a + b)[1..] == a[1..] + b;
      CountAppend(a[1..], b, c);
    } else {
      assert a + b == b;
    }
  }

  lemma {:induction false} CountAbsent(s: string, c: char)
    requires c !in s
    ensures Count(s, c) == 0
  {
    if s != [] {
      assert c !in s[1..];
      CountAbsent(s[1..], c);
    }
  }

  /** `str.replace` acts on each part of a concatenation separately. */
  lemma {:induction false} ReplaceAppend(a: string, b: string, c: char, rep: string)
    ensures Replace(a + b, c, rep) == Replace(a, c, rep) + Replace(b, c, rep)
  {
    if a != [] {
      assert (a + b)[1..] == a[1..] + b;
      ReplaceAppend(a[1..], b, c, rep);
    } else {
      assert a + b == b;
    }
  }

  /** Joining a non-empty list of parts free of `c` with the separator `c` and ending
      with `c` (`c.join(parts) + c`) gives exactly one `c` per part. */
  lemma {:induction false} CountJoinLines(parts: seq<string>, c: char)
    requires |parts| >= 1
    requires forall k :: 0 <= k < |parts| ==> c !in parts[k]
    ensures Count(Join([c], parts) + [c], c) == |parts|
  {
    if |parts| == 1 {
      CountAppend(parts[0], [c], c);
      CountAbsent(parts[0], c);
    } else {
      var rest := Join([c], parts[1..]);
      CountJoinLines(parts[1..], c);
      assert Join([c], parts) + [c] == parts[0] + ([c] + (rest + [c]));
      CountAppend(parts[0], [c] + (rest + [c]), c);
      CountAppend([c], rest + [c], c);
      CountAbsent(parts[0], c);
    }
  }

  /** Python's `s.find(c)` for a one-character needle: the first index of `c`, or -1. */
  function Find(s: string, c: char): (r: int)
    ensures -1 <= r < |s|
    ensures r == -1 <==> c !in s
    ensures r >= 0 ==> s[r] == c && c !in s[..r]
  {
    if s == [] then -1
    else if s[0] == c then 0
    else
      var k := Find(s[1..], c);
      if k == -1 then -1
      else
        assert s[..k + 1] == [s[0]] + s[1..][..k];
        k + 1
  }

  /** Python's `s.rfind(c)` for a one-character needle: the last index of `c`, or -1. */
  function RFind(s: string, c: char): (r: int)
    ensures -1 <= r < |s|
    ensures r == -1 <==> c !in s
    ensures r >= 0 ==> s[r] == c && c !in s[r + 1..]
  {
    if s == [] then -1
    else if s[|s| - 1] == c then |s| - 1
    else
      var k := RFind(s[..|s| - 1], c);
      if k == -1 then
        assert s == s[..|s| - 1] + [s[|s| - 1]];
        -1
      else
        assert s[k + 1..] == s[..|s| - 1][k + 1..] + [s[|s| - 1]];
        k
  }

  predicate StartsWith(s: string, prefix: string) {
    |prefix| <= |s| && s[..|prefix|] == prefix
  }

  predicate EndsWith(s: string, suffix: string) {
    |suffix| <= |s| && s[|s| - |suffix|..] == suffix
  }

  predicate IsDigit(c: char) {
    '0' <= c <= '9'
  }

  predicate AllDigits(s: string) {
    forall i :: 0 <= i < |s| ==> IsDigit(s[i])
  }

  function DigitChar(d: nat): (c: char)
    requires d < 10
    ensures IsDigit(c)
  {
    ('0' as int + d) as char
  }

  /** The number a string of decimal digits denotes. */
  function DigitsValue(s: string): nat
    requires AllDigits(s)
  {
    if s == [] then 0
    else DigitsValue(s[..|s| - 1]) * 10 + ((s[|s| - 1] as int) - ('0' as int))
  }

  /** Python's `str(n)` for a natural number: its shortest decimal digits. */
  function NatToDecimal(n: nat): (r: string)
    ensures |r| >= 1 && AllDigits(r) && DigitsValue(r) == n
    ensures r[0] == '0' ==> r == "0"
  {
    if n < 10 then [DigitChar(n)]
    else
      var p := NatToDecimal(n / 10);
      var r := p + [DigitChar(n % 10)];
      assert r[..|r| - 1] == p;
      r
  }

  /** Python's `str(i)` for an integer. */
  function IntToString(i: int): (r: string)
  {
    if i < 0 then "-" + NatToDecimal(-i) else NatToDecimal(i)
  }

  /** Distinct numbers have distinct decimal texts. */
  lemma NatToDecimalInjective(m: nat, n: nat)
    requires NatToDecimal(m) == NatToDecimal(n)
    ensures m == n
  {
  }

  predicate InRun(c: int, zero: int) {
    zero <= c < zero + 10
  }

  /** The first code point of the run of ten decimal digits (general category Nd) that
      holds `c`, or -1. The runs are those of Unicode 15.0, the character database of
      Python 3.12; each holds the digits 0 to 9 in order, and `int` reads every one of
      them as its digit. */
  function DecimalRun(c: int): (z: int)
    ensures z == -1 || InRun(c, z)
  {
    if InRun(c, 0x30) then 0x30
    else if InRun(c, 0x660) then 0x660
    else if InRun(c, 0x6F0) then 0x6F0
    else if InRun(c, 0x7C0) then 0x7C0
    else if InRun(c, 0x966) then 0x966
    else if InRun(c, 0x9E6) then 0x9E6
    else if InRun(c, 0xA66) then 0xA66
    else if InRun(c, 0xAE6) then 0xAE6
    else if InRun(c, 0xB66) then 0xB66
    else if InRun(c, 0xBE6) then 0xBE6
    else if InRun(c, 0xC66) then 0xC66
    else if InRun(c, 0xCE6) then 0xCE6
    else if InRun(c, 0xD66) then 0xD66
    else if InRun(c, 0xDE6) then 0xDE6
    else if InRun(c, 0xE50) then 0xE50
    else if InRun(c, 0xED0) then 0xED0
    else if InRun(c, 0xF20) then 0xF20
    else if InRun(c, 0x1040) then 0x1040
    else if InRun(c, 0x1090) then 0x1090
    else if InRun(c, 0x17E0) then 0x17E0
    else if InRun(c, 0x1810) then 0x1810
    else if InRun(c, 0x1946) then 0x1946
    else if InRun(c, 0x19D0) then 0x19D0
    else if InRun(c, 0x1A80) then 0x1A80
    else if InRun(c, 0x1A90) then 0x1A90
    else if InRun(c, 0x1B50) then 0x1B50
    else if InRun(c, 0x1BB0) then 0x1BB0
    else if InRun(c, 0x1C40) then 0x1C40
    else if InRun(c, 0x1C50) then 0x1C50
    else if InRun(c, 0xA620) then 0xA620
    else if InRun(c, 0xA8D0) then 0xA8D0
    else if InRun(c, 0xA900) then 0xA900
    else if InRun(c, 0xA9D0) then 0xA9D0
    else if InRun(c, 0xA9F0) then 0xA9F0
    else if InRun(c, 0xAA50) then 0xAA50
    else if InRun(c, 0xABF0) then 0xABF0
    else if InRun(c, 0xFF10) then 0xFF10
    else if InRun(c, 0x104A0) then 0x104A0
    else if InRun(c, 0x10D30) then 0x10D30
    else if InRun(c, 0x11066) then 0x11066
    else if InRun(c, 0x110F0) then 0x110F0
    else if InRun(c, 0x11136) then 0x11136
    else if InRun(c, 0x111D0) then 0x111D0
    else if InRun(c, 0x112F0) then 0x112F0
    else if InRun(c, 0x11450) then 0x11450
    else if InRun(c, 0x114D0) then 0x114D0
    else if InRun(c, 0x11650) then 0x11650
    else if InRun(c, 0x116C0) then 0x116C0
    else if InRun(c, 0x11730) then 0x11730
    else if InRun(c, 0x118E0) then 0x118E0
    else if InRun(c, 0x11950) then 0x11950
    else if InRun(c, 0x11C50) then 0x11C50
    else if InRun(c, 0x11D50) then 0x11D50
    else if InRun(c, 0x11DA0) then 0x11DA0
    else if InRun(c, 0x11F50) then 0x11F50
    else if InRun(c, 0x16A60) then 0x16A60
    else if InRun(c, 0x16AC0) then 0x16AC0
    else if InRun(c, 0x16B50) then 0x16B50
    else if InRun(c, 0x1D7CE) then 0x1D7CE
    else if InRun(c, 0x1D7D8) then 0x1D7D8
    else if InRun(c, 0x1D7E2) then 0x1D7E2
    else if InRun(c, 0x1D7EC) then 0x1D7EC
    else if InRun(c, 0x1D7F6) then 0x1D7F6
    else if InRun(c, 0x1E140) then 0x1E140
    else if InRun(c, 0x1E2F0) then 0x1E2F0
    else if InRun(c, 0x1E4F0) then 0x1E4F0
    else if InRun(c, 0x1E950) then 0x1E950
    else if InRun(c, 0x1FBF0) then 0x1FBF0
    else -1
  }

  /** The digit value `int` gives a character, None when it is not a decimal digit. */
  function DecimalValue(c: char): (r: Option<nat>)
    ensures r.Some? ==> r.value < 10
    ensures IsDigit(c) ==> r == Some(c as int - '0' as int)
  {
    var z := DecimalRun(c as int);
    if z < 0 then None else Some(c as int - z)
  }

  predicate IsDecimal(c: char) {
    DecimalValue(c).Some?
  }

  predicate AllDecimals(s: string) {
    forall i :: 0 <= i < |s| ==> IsDecimal(s[i])
  }

  /** The number a string of decimal digits of any script denotes. */
  function DecimalsValue(s: string): nat
    requires AllDecimals(s)
  {
    if s == [] then 0
    else DecimalsValue(s[..|s| - 1]) * 10 + DecimalValue(s[|s| - 1]).value
  }

  /** On ASCII digits the two readings agree. */
  lemma {:induction false} DecimalsOfDigits(s: string)
    requires AllDigits(s)
    ensures AllDecimals(s) && DecimalsValue(s) == DigitsValue(s)
  {
    if s != [] {
      DecimalsOfDigits(s[..|s| - 1]);
    }
  }

  /** The body of a Python base-10 integer literal: decimal digits, with single
      underscores allowed between two digits. */
  predicate DigitGroups(b: string) {
    && |b| > 0 && IsDecimal(b[0]) && IsDecimal(b[|b| - 1])
    && forall i :: 0 <= i < |b| ==> IsDecimal(b[i]) || (b[i] == '_' && i + 1 < |b| && IsDecimal(b[i + 1]))
  }

  /** Digit groups hold only digits and underscores. */
  lemma GroupsChars(b: string)
    requires DigitGroups(b)
    ensures forall i :: 0 <= i < |b| ==> IsDecimal(b[i]) || b[i] == '_'
  {
    forall i | 0 <= i < |b| ensures IsDecimal(b[i]) || b[i] == '_' {
      assert IsDecimal(b[i]) || (b[i] == '_' && i + 1 < |b| && IsDecimal(b[i + 1]));
    }
  }

  /** `s` without its underscores. */
  function DropUnderscores(s: string): (r: string)
    ensures (forall i :: 0 <= i < |s| ==> IsDecimal(s[i]) || s[i] == '_') ==> AllDecimals(r)
    ensures AllDigits(s) ==> r == s
  {
    if s == [] then []
    else (if s[0] == '_' then [] else [s[0]]) + DropUnderscores(s[1..])
  }

  /** The value of a Python integer-literal body, or None when `b` is not digit groups. */
  function GroupsValue(b: string): (r: Option<nat>)
    ensures |b| > 0 && AllDigits(b) ==> r == Some(DigitsValue(b))
  {
    assert |b| > 0 && AllDigits(b) ==> DigitGroups(b) by {
      if |b| > 0 && AllDigits(b) {
        forall i | 0 <= i < |b| ensures IsDecimal(b[i]) {
          assert IsDigit(b[i]);
        }
      }
    }
    if DigitGroups(b) then
      assert forall i :: 0 <= i < |b| ==> IsDecimal(b[i]) || b[i] == '_' by {
        GroupsChars(b);
      }
      assert AllDigits(b) ==> DecimalsValue(DropUnderscores(b)) == DigitsValue(b) by {
        if AllDigits(b) { DecimalsOfDigits(b); }
      }
      Some(DecimalsValue(DropUnderscores(b)))
    else None
  }

  /** The whitespace `int(s)` skips around its digits. Characters from U+007F up that
      are whitespace become a space before parsing; below that only the C `isspace` set
      (space, `\t`, `\n`, `\v`, `\f`, `\r`) is skipped, so the separators U+001C to
      U+001F, which `str.isspace` accepts, make `int` fail. */
  predicate IntSpace(c: char) {
    IsSpace(c) && !('\U{1C}' <= c <= '\U{1F}')
  }

  /** The text `int(s)` parses: `s` without its leading `IntSpace` characters. */
  function IntTrimStart(s: string): (r: string)
    ensures |r| <= |s|
    ensures r == [] || !IntSpace(r[0])
  {
    if s == [] || !IntSpace(s[0]) then s else IntTrimStart(s[1..])
  }

  /** `s` without its trailing `IntSpace` characters. */
  function IntTrimEnd(s: string): (r: string)
    ensures |r| <= |s|
    ensures r == [] || !IntSpace(r[|r| - 1])
  {
    if s == [] || !IntSpace(s[|s| - 1]) then s else IntTrimEnd(s[..|s| - 1])
  }

  /** The literal `int(s)` reads: `s` with the whitespace `int` skips removed at both ends. */
  function IntStrip(s: string): (r: string)
  {
    IntTrimEnd(IntTrimStart(s))
  }

  /** Text without whitespace is read by `int` as it is. */
  lemma IntStripNoSpace(s: string)
    requires NoSpace(s)
    ensures IntStrip(s) == s
  {
    if s != [] {
      assert !IntSpace(s[0]);
      assert !IntSpace(s[|s| - 1]);
    }
  }

  /** Python's `int(s)` on a str in base 10: the whitespace `IntSpace` allows is ignored
      at both ends, one `+` or `-` sign is allowed, and the rest must be digit groups, in
      any script's decimal digits. None stands for the `ValueError` Python raises. */
  function ParseInt(s: string): (r: Option<int>)
  {
    SignedValue(IntStrip(s))
  }

  /** The value of a stripped integer literal with an optional leading sign. */
  function SignedValue(t: string): (r: Option<int>)
  {
    if |t| > 0 && (t[0] == '-' || t[0] == '+') then
      match GroupsValue(t[1..])
      case Some(m) =>
        var v: int := if t[0] == '-' then -(m as int) else m;
        Some(v)
      case None => None
    else
      match GroupsValue(t)
      case Some(m) =>
        var v: int := m;
        Some(v)
      case None => None
  }

  /** Fullwidth digits read as their ASCII counterparts: `int("２０") == 20`. */
  lemma FullwidthDigits()
    ensures ParseInt("\U{FF12}\U{FF10}") == Some(20)
  {
    var s := "\U{FF12}\U{FF10}";
    assert !IsSpace(s[0]) && !IsSpace(s[1]);
    IntStripNoSpace(s);
    FullwidthGroups();
    assert s[0] != '-' && s[0] != '+';
  }

  /** The digit groups `２０` denote 20. */
  lemma FullwidthGroups()
    ensures GroupsValue("\U{FF12}\U{FF10}") == Some(20)
  {
    var s := "\U{FF12}\U{FF10}";
    assert DecimalRun(0xFF12) == 0xFF10;
    assert DecimalRun(0xFF10) == 0xFF10;
    assert DecimalValue(s[0]) == Some(2) && DecimalValue(s[1]) == Some(0);
    assert DigitGroups(s);
    assert DropUnderscores(s[1..]) == s[1..];
    assert DropUnderscores(s) == s;
    assert s[..1] == [s[0]];
    assert DecimalsValue(s[..1]) == 2;
    assert DecimalsValue(s) == 20;
  }


  /** `int` skips spaces, newlines and non-ASCII whitespace such as U+0085 around the
      digits. */
  lemma IntSkipsSpace()
    ensures ParseInt(" 5\n") == Some(5)
    ensures ParseInt("\U{85}5") == Some(5)
  {
    assert IntTrimStart(" 5\n") == "5\n";
    assert IntTrimEnd("5\n") == "5";
    assert IntTrimStart("\U{85}5") == "5";
    assert IntTrimEnd("5") == "5";
    assert DecimalValue('5') == Some(5);
    assert DropUnderscores("5") == "5";
    assert GroupsValue("5") == Some(5);
  }

  /** `int` does not skip the separators U+001C to U+001F, although `str.isspace`
      counts them as whitespace. */
  lemma IntKeepsSeparators()
    ensures ParseInt("\U{1C}5") == None
    ensures ParseInt("5\U{1F}") == None
  {
    assert IntStrip("\U{1C}5") == "\U{1C}5";
    assert IntStrip("5\U{1F}") == "5\U{1F}";
    assert DecimalRun(0x1C) == -1 && DecimalRun(0x1F) == -1;
    assert !DigitGroups("\U{1C}5") && !DigitGroups("5\U{1F}");
  }

  lemma DigitsNoSpace(d: string)
    requires AllDigits(d)
    ensures NoSpace(d)
  {
  }

  /** `int(str(i)) == i`: parsing the decimal text of an integer gives the integer back. */
  lemma ParseIntToString(i: int)
    ensures ParseInt(IntToString(i)) == Some(i)
  {
    var s := IntToString(i);
    if i < 0 {
      var d := NatToDecimal(-i);
      DigitsNoSpace(d);
      assert s == "-" + d;
      assert NoSpace(s) by {
        forall k | 0 <= k < |s| ensures !IsSpace(s[k]) {
          if k > 0 { assert s[k] == d[k - 1]; }
        }
      }
      IntStripNoSpace(s);
      assert s[1..] == d;
      assert SignedValue(s) == Some(i);
    } else {
      var d := NatToDecimal(i);
      DigitsNoSpace(d);
      IntStripNoSpace(d);
      assert SignedValue(d) == Some(i);
    }
  }

  ////////////////////////////////////////////////////////////////////////////
  // `repr` of a str, as the `ValueError` of `int` quotes its argument.

  function HexDigit(d: nat): (c: char)
    requires d < 16
    ensures '0' <= c <= '9' || 'a' <= c <= 'f'
  {
    if d < 10 then DigitChar(d) else ('a' as int + d - 10) as char
  }

  /** The value of a hexadecimal digit of either case. */
  function HexValue(c: char): (r: Option<nat>)
    ensures r.Some? ==> r.value < 16
  {
    if '0' <= c <= '9' then Some(c as int - '0' as int)
    else if 'a' <= c <= 'f' then Some(c as int - 'a' as int + 10)
    else if 'A' <= c <= 'F' then Some(c as int - 'A' as int + 10)
    else None
  }

  /** Whether `repr` shows `c` as it is: Python's `str.isprintable` on the characters up
      to U+00FF, where the controls, DEL, the C1 controls, the no-break space and the soft
      hyphen are not printable. */
  predicate Printable(c: char) {
    !(c < ' ' || ('\U{7F}' <= c <= '\U{A0}') || c == '\U{AD}')
  }

  /** The quote `repr` puts around `s`: a double quote when `s` holds a single quote and
      no double quote, else a single quote. */
  function ReprQuote(s: string): char {
    if '\'' in s && '"' !in s then '"' else '\''
  }

  /** How `repr` writes one character between quotes `q`. */
  function ReprChar(c: char, q: char): string {
    if c == '\\' || c == q then ['\\', c]
    else if c == '\t' then "\\t"
    else if c == '\n' then "\\n"
    else if c == '\r' then "\\r"
    else if !Printable(c) then ['\\', 'x', HexDigit(c as int / 16), HexDigit(c as int % 16)]
    else [c]
  }

  function ReprBody(s: string, q: char): string {
    if s == [] then [] else ReprChar(s[0], q) + ReprBody(s[1..], q)
  }

  /** `repr` writes every character as at least one character. */
  lemma {:induction false} ReprBodyLonger(s: string, q: char)
    ensures |ReprBody(s, q)| >= |s|
  {
    if s != [] {
      ReprBodyLonger(s[1..], q);
    }
  }

  /** Python's `repr(s)` for a str. */
  function Repr(s: string): (r: string)
    ensures |r| >= 2 && r[0] == ReprQuote(s) && r[|r| - 1] == ReprQuote(s)
  {
    [ReprQuote(s)] + ReprBody(s, ReprQuote(s)) + [ReprQuote(s)]
  }

  /** How Python reads back the inside of a one-line string literal delimited by `q`:
      the escapes `\\`, `\'`, `\"`, `\t`, `\n`, `\r` and `\xHH`. None when an escape is
      malformed, or a bare `q` or newline would end the literal early. */
  function ReadLiteral(e: string, q: char): Option<string> {
    if e == [] then Some([])
    else if e[0] == '\\' then
      if |e| >= 2 && (e[1] == '\\' || e[1] == '\'' || e[1] == '"') then Prepend(e[1], ReadLiteral(e[2..], q))
      else if |e| >= 2 && e[1] == 't' then Prepend('\t', ReadLiteral(e[2..], q))
      else if |e| >= 2 && e[1] == 'n' then Prepend('\n', ReadLiteral(e[2..], q))
      else if |e| >= 2 && e[1] == 'r' then Prepend('\r', ReadLiteral(e[2..], q))
      else if |e| >= 4 && e[1] == 'x' && HexValue(e[2]).Some? && HexValue(e[3]).Some? then
        Prepend((HexValue(e[2]).value * 16 + HexValue(e[3]).value) as char, ReadLiteral(e[4..], q))
      else None
    else if e[0] == q || e[0] == '\n' then None
    else Prepend(e[0], ReadLiteral(e[1..], q))
  }

  function Prepend(c: char, r: Option<string>): Option<string> {
    match r case Some(s) => Some([c] + s) case None => None
  }

  lemma HexRoundTrip(d: nat)
    requires d < 16
    ensures HexValue(HexDigit(d)) == Some(d)
  {
  }

  /** Reading `repr`'s writing of one character gives the character back. */
  lemma ReadReprChar(c: char, q: char, rest: string)
    requires q == '\'' || q == '"'
    ensures ReadLiteral(ReprChar(c, q) + rest, q) == Prepend(c, ReadLiteral(rest, q))
  {
    var e := ReprChar(c, q) + rest;
    if c == '\\' || c == q || c == '\t' || c == '\n' || c == '\r' {
      assert e[2..] == rest;
    } else if !Printable(c) {
      var h, l := c as int / 16, c as int % 16;
      HexRoundTrip(h);
      HexRoundTrip(l);
      assert e[1] == 'x' && e[2] == HexDigit(h) && e[3] == HexDigit(l) && e[4..] == rest;
      assert (h * 16 + l) as char == c;
    } else {
      assert e[0] == c && e[1..] == rest;
    }
  }

  /** `repr` can be read back: the literal it writes denotes the original text. */
  lemma {:induction false} ReprReadsBack(s: string, q: char)
    requires q == '\'' || q == '"'
    ensures ReadLiteral(ReprBody(s, q), q) == Some(s)
  {
    if s != [] {
      ReprReadsBack(s[1..], q);
      ReadReprChar(s[0], q, ReprBody(s[1..], q));
      assert [s[0]] + s[1..] == s;
    }
  }

  /** `repr` writes one line: a newline in the text is written as `\n`. */
  lemma {:induction false} ReprOneLine(s: string, q: char)
    requires q == '\'' || q == '"'
    ensures '\n' !in ReprBody(s, q)
  {
    if s != [] {
      ReprOneLine(s[1..], q);
      assert '\n' !in ReprChar(s[0], q);
    }
  }

  /** Text of printable characters without quotes or backslashes is written unchanged. */
  lemma {:induction false} ReprPlain(s: string)
    requires forall i :: 0 <= i < |s| ==> Printable(s[i]) && s[i] != '\\' && s[i] != '\'' && s[i] != '"'
    ensures ReprBody(s, '\'') == s
  {
    if s != [] {
      ReprPlain(s[1..]);
      assert [s[0]] + s[1..] == s;
    }
  }
}
