/** JavaScript string semantics the storefront relies on: whitespace, `trim`,
    `length`, case mapping, `includes`, number-to-string, `Number(...)` on
    decimal text, `split` and `join`. Strings are sequences of Unicode scalar
    values; `length` counts them as UTF-16 code units. */
module Common {

  datatype Option<T> = None | Some(value: T)

  /** `Math.max(a, b)` */
  function Max(a: int, b: int): int {
    if a >= b then a else b
  }

  /** `Math.min(a, b)` */
  function Min(a: int, b: int): int {
    if a <= b then a else b
  }

  /** `x || ""` on an optional text. */
  function OrEmpty(x: Option<string>): (r: string)
    ensures x.Some? ==> r == x.value
    ensures x.None? ==> r == ""
  {
    if x.Some? then x.value else ""
  }

  // ---------------------------------------------------------------------------
  // Whitespace and trim
  // ---------------------------------------------------------------------------

  /** ECMAScript WhiteSpace and LineTerminator code points: the set matched by
      `\s` in a regular expression and removed by `String.prototype.trim`. */
  predicate IsSpace(c: char) {
    || c == ' ' || c == '\t' || c == '\n' || c == '\U{B}' || c == '\U{C}' || c == '\r'
    || c == '\U{A0}' || c == '\U{1680}' || ('\U{2000}' <= c <= '\U{200A}')
    || c == '\U{2028}' || c == '\U{2029}' || c == '\U{202F}' || c == '\U{205F}'
    || c == '\U{3000}' || c == '\U{FEFF}'
  }

  predicate AllSpace(s: string) {
    forall i :: 0 <= i < |s| ==> IsSpace(s[i])
  }

  /** Drops leading whitespace. */
  function TrimStart(s: string): string {
    if s != [] && IsSpace(s[0]) then TrimStart(s[1..]) else s
  }

  /** What `TrimStart` leaves is a suffix of the text that does not start
      with whitespace, and what it drops is all whitespace. */
  lemma {:induction false} TrimStartShape(s: string)
    ensures var r := TrimStart(s);
      && |r| <= |s| && r == s[|s| - |r|..]
      && (r == [] || !IsSpace(r[0]))
      && AllSpace(s[..|s| - |r|])
  {
    if s != [] && IsSpace(s[0]) {
      TrimStartShape(s[1..]);
      var r := TrimStart(s[1..]);
      assert s[1..][|s| - 1 - |r|..] == s[|s| - |r|..];
      assert forall k :: 1 <= k < |s| - |r| ==> s[k] == s[1..][..|s| - 1 - |r|][k - 1];
    }
  }

  /** Drops trailing whitespace. */
  function TrimEnd(s: string): string {
    if s != [] && IsSpace(s[|s| - 1]) then TrimEnd(s[..|s| - 1]) else s
  }

  /** What `TrimEnd` leaves is a prefix of the text that does not end with
      whitespace, and what it drops is all whitespace. */
  lemma {:induction false} TrimEndShape(s: string)
    ensures var r := TrimEnd(s);
      && |r| <= |s| && r == s[..|r|]
      && (r == [] || !IsSpace(r[|r| - 1]))
      && AllSpace(s[|r|..])
  {
    if s != [] && IsSpace(s[|s| - 1]) {
      TrimEndShape(s[..|s| - 1]);
      var r := TrimEnd(s[..|s| - 1]);
      assert s[..|s| - 1][..|r|] == s[..|r|];
      assert forall k :: |r| <= k < |s| - 1 ==> s[k] == s[..|s| - 1][|r|..][k - |r|];
    }
  }

  /** `s.trim()` */
  function Trim(s: string): string {
    TrimEnd(TrimStart(s))
  }

  /** A string is blank after trimming exactly when it is all whitespace. */
  lemma TrimEmptyIffAllSpace(s: string)
    ensures Trim(s) == [] <==> AllSpace(s)
  {
    var t := TrimStart(s);
    TrimStartShape(s);
    TrimEndShape(t);
    if Trim(s) == [] {
      assert AllSpace(t[|t|..]);
      assert s == s[..|s| - |t|] + t;
    } else {
      var r := Trim(s);
      assert r[0] == t[0];
      assert t[0] == s[|s| - |t|];
    }
  }

  /** Trimming text that neither starts nor ends with whitespace leaves it as is. */
  lemma TrimNoOuterSpace(s: string)
    requires s != [] && !IsSpace(s[0]) && !IsSpace(s[|s| - 1])
    ensures Trim(s) == s
  {
  }

  /** A leading space makes no difference to `trim`. */
  lemma TrimLeadingSpace(s: string)
    ensures Trim([' '] + s) == Trim(s)
  {
    assert ([' '] + s)[1..] == s;
  }

  // ---------------------------------------------------------------------------
  // Length in UTF-16 code units
  // ---------------------------------------------------------------------------

  /** A character outside the Basic Multilingual Plane, which UTF-16 writes
      as a surrogate pair. */
  predicate Supplementary(c: char) {
    c as int >= 0x1_0000
  }

  /** `s.length`: the number of UTF-16 code units, so a supplementary
      character counts twice. */
  function JsLength(s: string): (n: nat)
    ensures |s| <= n <= 2 * |s|
    ensures n == |s| <==> forall i :: 0 <= i < |s| ==> !Supplementary(s[i])
  {
    if s == [] then 0
    else
      assert forall i :: 1 <= i < |s| ==> s[i] == s[1..][i - 1];
      (if Supplementary(s[0]) then 2 else 1) + JsLength(s[1..])
  }

  /** The length of a concatenation is the sum of the lengths. */
  lemma {:induction false} JsLengthAppend(a: string, b: string)
    ensures JsLength(a + b) == JsLength(a) + JsLength(b)
  {
    if a != [] {
      assert (a + b)[0] == a[0] && (a + b)[1..] == a[1..] + b;
      JsLengthAppend(a[1..], b);
      calc {
        JsLength(a + b);
        (if Supplementary(a[0]) then 2 else 1) + JsLength(a[1..] + b);
        (if Supplementary(a[0]) then 2 else 1) + JsLength(a[1..]) + JsLength(b);
        JsLength(a) + JsLength(b);
      }
    } else {
      assert a + b == b;
    }
  }

  // ---------------------------------------------------------------------------
  // Case mapping (Basic Latin and Latin-1 letters)
  // ---------------------------------------------------------------------------

  /** The capital letters that lower-case by adding 32. */
  predicate IsUpperLetter(c: char) {
    ('A' <= c <= 'Z') || ('\U{C0}' <= c <= '\U{DE}' && c != '\U{D7}')
  }

  /** The small letters that upper-case by subtracting 32. */
  predicate IsLowerLetter(c: char) {
    ('a' <= c <= 'z') || ('\U{E0}' <= c <= '\U{FE}' && c != '\U{F7}')
  }

  /** The three Latin-1 small letters whose capital lies elsewhere. */
  const SharpS: char := '\U{DF}'
  const MicroSign: char := '\U{B5}'
  const YDiaeresis: char := '\U{FF}'

  /** Lower case of one character. */
  function LowerChar(c: char): (r: char)
    ensures !IsUpperLetter(r)
    ensures IsUpperLetter(c) ==> IsLowerLetter(r)
    ensures !IsUpperLetter(c) ==> r == c
  {
    if IsUpperLetter(c) then (c as int + 32) as char else c
  }

  /** Upper case of one character other than ß: the capital 32 below, GREEK
      CAPITAL LETTER MU for the micro sign and LATIN CAPITAL LETTER Y WITH
      DIAERESIS for ÿ. */
  function UpperChar(c: char): (r: char)
    ensures c != SharpS ==> !IsLowerLetter(r) && r != MicroSign && r != YDiaeresis && r != SharpS
    ensures IsLowerLetter(c) ==> IsUpperLetter(r) && LowerChar(r) == c
    ensures c == MicroSign ==> r == '\U{39C}'
    ensures c == YDiaeresis ==> r == '\U{178}'
    ensures !IsLowerLetter(c) && c != MicroSign && c != YDiaeresis ==> r == c
  {
    if IsLowerLetter(c) then (c as int - 32) as char
    else if c == MicroSign then '\U{39C}'
    else if c == YDiaeresis then '\U{178}'
    else c
  }

  /** The upper case of one character as text: ß has no single capital and
      becomes "SS". */
  function UpperText(c: char): (r: string)
    ensures c == SharpS ==> r == "SS"
    ensures c != SharpS ==> r == [UpperChar(c)]
  {
    if c == SharpS then "SS" else [UpperChar(c)]
  }

  /** Already upper case: no character that `toUpperCase` would change. */
  predicate NoSmallLetter(s: string) {
    forall i :: 0 <= i < |s| ==> !IsLowerLetter(s[i]) && s[i] != SharpS && s[i] != MicroSign && s[i] != YDiaeresis
  }

  /** `s.toLowerCase()` */
  function ToLower(s: string): (r: string)
    ensures |r| == |s|
    ensures forall i :: 0 <= i < |s| ==> r[i] == LowerChar(s[i])
  {
    if s == [] then [] else [LowerChar(s[0])] + ToLower(s[1..])
  }

  /** `s.toUpperCase()`: one character per character, except that each ß
      becomes two, and no small letter is left. */
  function ToUpper(s: string): (r: string)
    ensures |r| == |s| + multiset(s)[SharpS]
    ensures NoSmallLetter(r)
  {
    if s == [] then []
    else
      assert s == [s[0]] + s[1..];
      UpperText(s[0]) + ToUpper(s[1..])
  }

  /** Without ß, upper-casing maps each character in place. */
  lemma {:induction false} ToUpperInPlace(s: string)
    requires SharpS !in s
    ensures |ToUpper(s)| == |s|
    ensures forall i :: 0 <= i < |s| ==> ToUpper(s)[i] == UpperChar(s[i])
  {
    if s != [] {
      assert SharpS !in s[1..];
      ToUpperInPlace(s[1..]);
      assert forall i :: 1 <= i < |s| ==> s[i] == s[1..][i - 1];
    }
  }

  /** Text that is already upper case is left as it is. */
  lemma {:induction false} ToUpperFixed(s: string)
    requires NoSmallLetter(s)
    ensures ToUpper(s) == s
  {
    if s != [] {
      assert NoSmallLetter(s[1..]);
      ToUpperFixed(s[1..]);
      assert s == [s[0]] + s[1..];
    }
  }

  /** Upper-casing twice is upper-casing once. */
  lemma ToUpperIdempotent(s: string)
    ensures ToUpper(ToUpper(s)) == ToUpper(s)
  {
    ToUpperFixed(ToUpper(s));
  }

  lemma ToUpperCons(c: char, s: string)
    ensures ToUpper([c] + s) == UpperText(c) + ToUpper(s)
  {
    assert ([c] + s)[1..] == s;
  }

  /** "aß" upper-cases to "ASS", one character longer. */
  lemma SharpSBecomesTwo()
    ensures ToUpper("a\U{DF}") == "ASS"
  {
    ToUpperCons(SharpS, "");
    assert ToUpper([SharpS]) == "SS";
    ToUpperCons('a', [SharpS]);
    assert "a\U{DF}" == ['a'] + [SharpS];
  }

  lemma LowerCharIdempotent(c: char)
    ensures LowerChar(LowerChar(c)) == LowerChar(c)
  {
  }

  /** Lower-casing twice is lower-casing once. */
  lemma ToLowerIdempotent(s: string)
    ensures ToLower(ToLower(s)) == ToLower(s)
  {
    var a, b := ToLower(ToLower(s)), ToLower(s);
    forall i | 0 <= i < |s| ensures a[i] == b[i] {
      LowerCharIdempotent(s[i]);
    }
  }

  // ---------------------------------------------------------------------------
  // Substring search
  // ---------------------------------------------------------------------------

  /** `s.includes(t)` */
  predicate Contains(s: string, t: string)
    decreases |s|
  {
    (|t| <= |s| && s[..|t|] == t) || (s != [] && Contains(s[1..], t))
  }

  /** `includes` finds `t` exactly when `t` occurs at some position of `s`. */
  lemma {:induction false} ContainsIffOccurs(s: string, t: string)
    ensures Contains(s, t) <==> exists i :: 0 <= i <= |s| - |t| && s[i..][..|t|] == t
  {
    if s != [] {
      ContainsIffOccurs(s[1..], t);
      if Contains(s[1..], t) {
        var i :| 0 <= i <= |s[1..]| - |t| && s[1..][i..][..|t|] == t;
        assert s[i + 1..] == s[1..][i..];
      }
      if i :| 0 < i <= |s| - |t| && s[i..][..|t|] == t {
        assert s[1..][i - 1..] == s[i..];
      }
    }
    if |t| <= |s| && s[..|t|] == t {
      assert s[0..] == s;
    }
  }

  lemma ContainsEmpty(s: string)
    ensures Contains(s, [])
  {
  }

  /** Case-insensitive `includes` as the views write it:
      `a.toLowerCase().includes(b.toLowerCase())`. */
  predicate ContainsIgnoreCase(s: string, t: string) {
    Contains(ToLower(s), ToLower(t))
  }

  // ---------------------------------------------------------------------------
  // Numbers as decimal text
  // ---------------------------------------------------------------------------

  predicate IsDigit(c: char) {
    '0' <= c <= '9'
  }

  predicate AllDigits(s: string) {
    forall i :: 0 <= i < |s| ==> IsDigit(s[i])
  }

  function DigitChar(d: nat): (c: char)
    requires d < 10
    ensures IsDigit(c) && c as int - '0' as int == d
  {
    ('0' as int + d) as char
  }

  /** `n.toString()` for a natural number. */
  function NatToString(n: nat): (r: string)
    ensures r != [] && AllDigits(r)
    decreases n
  {
    if n < 10 then [DigitChar(n)] else NatToString(n / 10) + [DigitChar(n % 10)]
  }

  /** `n.toString()` for an integer. */
  function IntToString(n: int): (r: string)
    ensures r != []
    ensures n >= 0 ==> AllDigits(r)
    ensures n < 0 ==> r[0] == '-'
  {
    if n >= 0 then NatToString(n) else "-" + NatToString(-n)
  }

  /** The value of a string of decimal digits (leading zeros allowed). */
  function DigitsValue(s: string): nat
    requires AllDigits(s)
  {
    if s == [] then 0
    else DigitsValue(s[..|s| - 1]) * 10 + (s[|s| - 1] as int - '0' as int)
  }

  lemma {:induction false} DigitsValueOfNatToString(n: nat)
    ensures DigitsValue(NatToString(n)) == n
    decreases n
  {
    var s := NatToString(n);
    if n >= 10 {
      DigitsValueOfNatToString(n / 10);
      assert s[..|s| - 1] == NatToString(n / 10);
    }
  }

  /** `Number(s)` on digit text: the empty string
      is 0, a run of decimal digits is its value, and anything else is NaN (None). */
  function ParseNumber(s: string): (r: Option<nat>)
    ensures r.Some? <==> AllDigits(s)
    ensures s == [] ==> r == Some(0)
  {
    if AllDigits(s) then Some(DigitsValue(s)) else None
  }

  /** Printing a number and reading it back gives the number. */
  lemma ParseNumberOfNatToString(n: nat)
    ensures ParseNumber(NatToString(n)) == Some(n)
  {
    DigitsValueOfNatToString(n);
  }

  // ---------------------------------------------------------------------------
  // split / join
  // ---------------------------------------------------------------------------

  /** `s.split(sep)` for a one-character separator: always at least one piece. */
  function Split(s: string, sep: char): (r: seq<string>)
    ensures |r| >= 1
  {
    if s == [] then [[]]
    else
      var rest := Split(s[1..], sep);
      if s[0] == sep then [[]] + rest else [[s[0]] + rest[0]] + rest[1..]
  }

  /** `parts.join(sep)` */
  function Join(parts: seq<string>, sep: string): string {
    if |parts| == 0 then []
    else if |parts| == 1 then parts[0]
    else parts[0] + sep + Join(parts[1..], sep)
  }

  /** A leading separator starts with an empty piece. */
  lemma SplitLeadingSep(b: string, sep: char)
    ensures Split([sep] + b, sep) == [[]] + Split(b, sep)
  {
    assert ([sep] + b)[1..] == b;
  }

  /** One step of `Join`. */
  lemma JoinPrepend(x: string, rest: seq<string>, sep: string)
    requires rest != []
    ensures Join([x] + rest, sep) == x + sep + Join(rest, sep)
  {
    assert ([x] + rest)[1..] == rest;
  }

  /** Joining the pieces with the separator gives the text back. */
  lemma {:induction false} JoinSplit(s: string, sep: char)
    ensures Join(Split(s, sep), [sep]) == s
  {
    if s != [] {
      var c, b := s[0], s[1..];
      assert s == [c] + b;
      JoinSplit(b, sep);
      var rest := Split(b, sep);
      if c == sep {
        SplitLeadingSep(b, sep);
        JoinPrepend([], rest, [sep]);
      } else {
        SplitLeadingChar(c, b, sep);
        var head, tail := rest[0], rest[1..];
        assert rest == [head] + tail;
        if tail == [] {
          assert Join([[c] + head], [sep]) == [c] + head;
        } else {
          JoinPrepend(head, tail, [sep]);
          JoinPrepend([c] + head, tail, [sep]);
        }
      }
    }
  }

  /** A string without the separator splits into itself. */
  lemma {:induction false} SplitNoSep(a: string, sep: char)
    requires forall k :: 0 <= k < |a| ==> a[k] != sep
    ensures Split(a, sep) == [a]
  {
    if a != [] {
      SplitNoSep(a[1..], sep);
      assert [a[0]] + a[1..] == a;
    }
  }

  /** A first character other than the separator joins the first piece. */
  lemma SplitLeadingChar(c: char, b: string, sep: char)
    requires c != sep
    ensures Split([c] + b, sep) == [[c] + Split(b, sep)[0]] + Split(b, sep)[1..]
  {
    assert ([c] + b)[1..] == b;
  }

  /** Splitting `a + sep + b`, with no separator inside `a`, yields `a` and then the pieces of `b`. */
  lemma {:induction false} SplitAtFirstSep(a: string, sep: char, b: string)
    requires forall k :: 0 <= k < |a| ==> a[k] != sep
    ensures Split(a + [sep] + b, sep) == [a] + Split(b, sep)
  {
    if a == [] {
      assert ([] + [sep] + b)[1..] == b;
    } else {
      SplitAtFirstSep(a[1..], sep, b);
      assert (a + [sep] + b)[1..] == a[1..] + [sep] + b;
      assert [a[0]] + a[1..] == a;
    }
  }
}
