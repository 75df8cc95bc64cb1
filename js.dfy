/** The slice of JavaScript value semantics that the storefront's handlers rely on:
    optional values, `||` on strings, `trim`, `toLowerCase`, `includes`, `Number(...)`,
    `parseInt`, the NaN test of `parseFloat`, `slice`, `split`/`join` and number-to-string.
    Numbers are integers here; NaN is the only other number kept. */
module Js {

  datatype Option<T> = None | Some(value: T)

  /** A JavaScript number, restricted to the integers plus NaN. */
  datatype Num = NaN | Int(n: int)

  /** A missing string and "" are the falsy strings. */
  predicate Truthy(v: Option<string>) {
    v.Some? && v.value != ""
  }

  /** `v || fallback` for a possibly missing string. */
  function OrElse(v: Option<string>, fallback: string): (r: string)
    ensures Truthy(v) ==> r == v.value
    ensures !Truthy(v) ==> r == fallback
  {
    if v.Some? && v.value != "" then v.value else fallback
  }

  /** The WhiteSpace and LineTerminator code points of ECMAScript: what `trim` removes
      and what the regular-expression class `\s` matches. */
  predicate IsSpace(c: char) {
    c == '\t' || c == '\n' || c == '\U{000B}' || c == '\U{000C}' || c == '\r' || c == ' '
    || c == '\U{00A0}' || c == '\U{1680}' || ('\U{2000}' <= c <= '\U{200A}')
    || c == '\U{2028}' || c == '\U{2029}' || c == '\U{202F}' || c == '\U{205F}'
    || c == '\U{3000}' || c == '\U{FEFF}'
  }

  /** Every character is white space (this includes the empty string). */
  predicate Blank(s: string) {
    forall i :: 0 <= i < |s| ==> IsSpace(s[i])
  }

  /** `s.trimStart()` */
  function TrimStart(s: string): (r: string)
    ensures |r| <= |s|
  {
    if s != [] && IsSpace(s[0]) then TrimStart(s[1..]) else s
  }

  /** `s.trimEnd()` */
  function TrimEnd(s: string): (r: string)
    ensures |r| <= |s|
  {
    if s != [] && IsSpace(s[|s| - 1]) then TrimEnd(s[..|s| - 1]) else s
  }

  /** `trimStart` removes a run of white space from the front and nothing else. */
  lemma {:induction false} TrimStartShape(s: string)
    ensures var r := TrimStart(s);
      r == s[|s| - |r|..] && (forall i :: 0 <= i < |s| - |r| ==> IsSpace(s[i]))
      && (r == [] || !IsSpace(r[0]))
  {
    if s != [] && IsSpace(s[0]) {
      TrimStartShape(s[1..]);
    }
  }

  /** `trimEnd` removes a run of white space from the back and nothing else. */
  lemma {:induction false} TrimEndShape(s: string)
    ensures var r := TrimEnd(s);
      r == s[..|r|] && (forall i :: |r| <= i < |s| ==> IsSpace(s[i]))
      && (r == [] || !IsSpace(r[|r| - 1]))
  {
    if s != [] && IsSpace(s[|s| - 1]) {
      TrimEndShape(s[..|s| - 1]);
    }
  }

  /** `s.trim()` */
  function Trim(s: string): string {
    TrimEnd(TrimStart(s))
  }

  /** `!s.trim()`: trimming leaves nothing exactly when the string is blank. */
  lemma TrimEmptyIffBlank(s: string)
    ensures Trim(s) == "" <==> Blank(s)
  {
    var t := TrimStart(s);
    TrimStartShape(s);
    TrimEndShape(t);
    if t != [] {
      assert t[0] == s[|s| - |t|];
    }
  }

  function LowerChar(c: char): char {
    if 'A' <= c <= 'Z' then (c as int + 32) as char else c
  }

  /** `s.toLowerCase()` on the ASCII letters. */
  function ToLower(s: string): (r: string)
    ensures |r| == |s|
    ensures forall i :: 0 <= i < |s| ==> r[i] == LowerChar(s[i])
  {
    if s == [] then [] else [LowerChar(s[0])] + ToLower(s[1..])
  }

  /** `s.includes(sub)` */
  predicate Contains(s: string, sub: string) {
    (|sub| <= |s| && s[..|sub|] == sub) || (s != [] && Contains(s[1..], sub))
  }

  /** `sub` occurs in `s` starting at index `i`. */
  predicate OccursAt(s: string, sub: string, i: int) {
    0 <= i <= |s| - |sub| && s[i..i + |sub|] == sub
  }

  /** `includes` holds exactly when the text occurs at some index. */
  lemma {:induction false} ContainsAt(s: string, sub: string)
    ensures Contains(s, sub) <==> exists i :: OccursAt(s, sub, i)
  {
    if |sub| <= |s| && s[..|sub|] == sub {
      assert OccursAt(s, sub, 0);
    } else if s != [] {
      ContainsAt(s[1..], sub);
      if exists i :: OccursAt(s, sub, i) {
        var i :| OccursAt(s, sub, i);
        assert i != 0;
        assert s[1..][i - 1..i - 1 + |sub|] == s[i..i + |sub|];
        assert OccursAt(s[1..], sub, i - 1);
      }
      if Contains(s[1..], sub) {
        var i :| OccursAt(s[1..], sub, i);
        assert s[i + 1..i + 1 + |sub|] == s[1..][i..i + |sub|];
        assert OccursAt(s, sub, i + 1);
      }
    } else {
      assert forall i :: !OccursAt(s, sub, i);
    }
  }

  /** Case-insensitive `includes`, as in `a.toLowerCase().includes(b.toLowerCase())`. */
  predicate ContainsIgnoreCase(s: string, sub: string) {
    Contains(ToLower(s), ToLower(sub))
  }

  // ---- string length -------------------------------------------------------------------

  /** The UTF-16 code units a character takes: two for one outside the Basic Multilingual
      Plane (a surrogate pair), one otherwise. */
  function CodeUnits(c: char): nat {
    if c as int >= 0x1_0000 then 2 else 1
  }

  /** `s.length`, which counts UTF-16 code units, not characters. */
  function Length(s: string): (r: nat)
    ensures |s| <= r <= 2 * |s|
    ensures r == |s| <==> forall i :: 0 <= i < |s| ==> s[i] as int < 0x1_0000
  {
    if s == [] then 0
    else
      var r := CodeUnits(s[0]) + Length(s[1..]);
      assert forall i :: 1 <= i < |s| ==> s[i] == s[1..][i - 1];
      r
  }

  /** Three emoji are six code units long. */
  lemma LengthOfEmoji()
    ensures |"\U{1F600}\U{1F600}\U{1F600}"| == 3
    ensures Length("\U{1F600}\U{1F600}\U{1F600}") == 6
  {
    var s := "\U{1F600}\U{1F600}\U{1F600}";
    assert s[1..] == "\U{1F600}\U{1F600}" && s[1..][1..] == "\U{1F600}";
  }

  // ---- decimal digits ------------------------------------------------------------------

  predicate IsDigit(c: char) {
    '0' <= c <= '9'
  }

  predicate AllDigits(s: string) {
    forall i :: 0 <= i < |s| ==> IsDigit(s[i])
  }

  function DigitValue(c: char): nat
    requires IsDigit(c)
  {
    c as int - '0' as int
  }

  function DigitChar(d: nat): (c: char)
    requires d < 10
    ensures IsDigit(c) && DigitValue(c) == d
  {
    ('0' as int + d) as char
  }

  /** The value of a string of decimal digits. */
  function DigitsValue(s: string): nat
    requires AllDigits(s)
  {
    if s == [] then 0 else DigitsValue(s[..|s| - 1]) * 10 + DigitValue(s[|s| - 1])
  }

  /** The decimal rendering of a natural number, without leading zeros. */
  function NatToString(n: nat): (r: string)
    ensures r != [] && AllDigits(r)
  {
    if n < 10 then [DigitChar(n)] else NatToString(n / 10) + [DigitChar(n % 10)]
  }

  /** ``${n}`` for an integer. */
  function IntToString(n: int): (r: string)
    ensures r != []
  {
    if n < 0 then "-" + NatToString(-n) else NatToString(n)
  }

  lemma {:induction false} NatToStringValue(n: nat)
    ensures DigitsValue(NatToString(n)) == n
  {
    var r := NatToString(n);
    if n >= 10 {
      NatToStringValue(n / 10);
      assert r[..|r| - 1] == NatToString(n / 10);
    }
  }

  /** The longest prefix made of decimal digits. */
  function DigitPrefix(s: string): (r: string)
    ensures |r| <= |s| && AllDigits(r) && r == s[..|r|]
    ensures |r| == |s| || !IsDigit(s[|r|])
  {
    if s != [] && IsDigit(s[0]) then [s[0]] + DigitPrefix(s[1..]) else []
  }

  lemma {:induction false} DigitPrefixOfDigits(s: string, t: string)
    requires AllDigits(s)
    requires t == [] || !IsDigit(t[0])
    ensures DigitPrefix(s + t) == s
  {
    if s != [] {
      assert (s + t)[1..] == s[1..] + t;
      DigitPrefixOfDigits(s[1..], t);
    } else {
      assert s + t == t;
    }
  }

  // ---- Number(...) and parseInt ------------------------------------------------------------

  /** `Number(s)` for a string: white space around a decimal integer literal with an
      optional sign is ignored, the blank string is 0, everything else is NaN. */
  function ToNumber(s: string): Num {
    var t := Trim(s);
    if t == "" then Int(0)
    else if (t[0] == '-' || t[0] == '+') && |t| > 1 && AllDigits(t[1..]) then
      (if t[0] == '-' then Int(-(DigitsValue(t[1..]) as int)) else Int(DigitsValue(t[1..])))
    else if AllDigits(t) then Int(DigitsValue(t))
    else NaN
  }

  /** `parseInt(s)` (radix 10): leading white space, an optional sign, then the longest run
      of digits; NaN when there is no digit. */
  function ParseInt(s: string): Num {
    var t := TrimStart(s);
    var neg := t != [] && t[0] == '-';
    var body := if t != [] && (t[0] == '-' || t[0] == '+') then t[1..] else t;
    var ds := DigitPrefix(body);
    if ds == [] then NaN else if neg then Int(-(DigitsValue(ds) as int)) else Int(DigitsValue(ds))
  }

  /** `isNaN(parseFloat(s))`: false exactly when, after leading white space and an optional
      sign, the text starts with a digit, with a point followed by a digit, or with
      "Infinity". */
  predicate ParseFloatIsNaN(s: string) {
    var t := TrimStart(s);
    var body := if t != [] && (t[0] == '-' || t[0] == '+') then t[1..] else t;
    !((body != [] && IsDigit(body[0]))
      || (|body| >= 2 && body[0] == '.' && IsDigit(body[1]))
      || "Infinity" <= body)
  }

  lemma ParseIntOfDigits(ds: string)
    requires ds != [] && AllDigits(ds)
    ensures ParseInt(ds) == Int(DigitsValue(ds))
  {
    assert !IsSpace(ds[0]);
    assert TrimStart(ds) == ds;
    assert ds[0] != '-' && ds[0] != '+';
    DigitPrefixOfDigits(ds, []);
    assert ds + [] == ds;
  }

  lemma ParseIntOfNegDigits(ds: string)
    requires ds != [] && AllDigits(ds)
    ensures ParseInt("-" + ds) == Int(-(DigitsValue(ds) as int))
  {
    var m := "-" + ds;
    assert !IsSpace(m[0]);
    assert TrimStart(m) == m;
    assert m[1..] == ds;
    DigitPrefixOfDigits(ds, []);
    assert ds + [] == ds;
  }

  /** parseInt undoes the rendering of an integer. */
  lemma ParseIntOfIntToString(n: int)
    ensures ParseInt(IntToString(n)) == Int(n)
  {
    var m: nat := if n < 0 then -n else n;
    var ds := NatToString(m);
    NatToStringValue(m);
    ParseIntOfDigits(ds);
    ParseIntOfNegDigits(ds);
  }

  /** A string that neither starts nor ends with white space is its own trim. */
  lemma TrimUnchanged(s: string)
    requires s != [] && !IsSpace(s[0]) && !IsSpace(s[|s| - 1])
    ensures Trim(s) == s
  {
    assert TrimStart(s) == s;
  }

  /** `Number` reads back the rendering of an integer. */
  lemma ToNumberOfIntToString(n: int)
    ensures ToNumber(IntToString(n)) == Int(n)
  {
    var r := IntToString(n);
    var m: nat := if n < 0 then -n else n;
    var ds := NatToString(m);
    NatToStringValue(m);
    TrimUnchanged(r);
    if n < 0 {
      assert r[1..] == ds;
    }
  }

  // ---- slice, split, join ------------------------------------------------------------------

  /** `s.slice(start, end)`: negative bounds count from the end, bounds are clamped to the
      sequence, and an end before the start gives the empty sequence. */
  function Slice<T>(s: seq<T>, start: int, end: int): (r: seq<T>)
    ensures |r| <= |s|
  {
    var from := if start < 0 then (if |s| + start < 0 then 0 else |s| + start)
                else if start > |s| then |s| else start;
    var to := if end < 0 then (if |s| + end < 0 then 0 else |s| + end)
              else if end > |s| then |s| else end;
    if from < to then s[from..to] else []
  }

  /** With bounds inside the sequence, `slice` is the plain subsequence. */
  lemma SliceWithin<T>(s: seq<T>, start: int, end: int)
    requires 0 <= start <= |s| && start <= end
    ensures Slice(s, start, end) == s[start..if end < |s| then end else |s|]
  {
  }

  /** The first index at which `sep` occurs in `s`, or -1. */
  function IndexOf(s: string, sep: string): (r: int)
    requires sep != []
    ensures r == -1 || OccursAt(s, sep, r)
    ensures forall i :: 0 <= i < r || (r == -1 && 0 <= i) ==> !OccursAt(s, sep, i)
  {
    if |s| < |sep| then -1
    else if s[..|sep|] == sep then 0
    else
      var k := IndexOf(s[1..], sep);
      assert !OccursAt(s, sep, 0);
      assert forall i :: 1 <= i ==> (OccursAt(s, sep, i) <==> OccursAt(s[1..], sep, i - 1));
      if k < 0 then -1 else k + 1
  }

  /** `s.split(sep)` for a non-empty separator. */
  function Split(s: string, sep: string): (r: seq<string>)
    requires sep != []
    ensures |r| >= 1
    decreases |s|
  {
    var i := IndexOf(s, sep);
    if i < 0 then [s] else [s[..i]] + Split(s[i + |sep|..], sep)
  }

  /** `parts.join(sep)` */
  function Join(parts: seq<string>, sep: string): string {
    if parts == [] then ""
    else if |parts| == 1 then parts[0]
    else parts[0] + sep + Join(parts[1..], sep)
  }

  lemma JoinCons(head: string, tail: seq<string>, sep: string)
    requires tail != []
    ensures Join([head] + tail, sep) == head + sep + Join(tail, sep)
  {
    assert ([head] + tail)[1..] == tail;
  }

  lemma SplitStep(s: string, sep: string, i: int)
    requires sep != [] && i == IndexOf(s, sep) && i >= 0
    ensures Split(s, sep) == [s[..i]] + Split(s[i + |sep|..], sep)
    ensures s == s[..i] + sep + s[i + |sep|..]
  {
    assert s[i..i + |sep|] == sep;
    assert s == s[..i] + s[i..i + |sep|] + s[i + |sep|..];
  }

  /** With a two-character separator whose characters differ, its first occurrence after a
      piece that does not contain it is the one right after that piece. */
  lemma IndexOfAfterPiece(p: string, sep: string, t: string)
    requires |sep| == 2 && sep[0] != sep[1] && !Contains(p, sep)
    ensures IndexOf(p + sep + t, sep) == |p|
  {
    var s := p + sep + t;
    ContainsAt(p, sep);
    assert s[|p|..|p| + 2] == sep;
    assert OccursAt(s, sep, |p|);
    forall i | 0 <= i < |p|
      ensures !OccursAt(s, sep, i)
    {
      if i + 2 <= |p| {
        assert s[i..i + 2] == p[i..i + 2];
        assert !OccursAt(p, sep, i);
      } else {
        assert s[i + 1] == sep[0];
      }
    }
  }

  /** Splitting pieces joined by such a separator gives the pieces back, when none of them
      contains it. */
  lemma {:induction false} SplitJoin(parts: seq<string>, sep: string)
    requires parts != [] && |sep| == 2 && sep[0] != sep[1]
    requires forall i :: 0 <= i < |parts| ==> !Contains(parts[i], sep)
    ensures Split(Join(parts, sep), sep) == parts
    decreases |parts|
  {
    if |parts| == 1 {
      ContainsAt(parts[0], sep);
      assert IndexOf(parts[0], sep) == -1;
    } else {
      var p := parts[0];
      var rest := Join(parts[1..], sep);
      var s := p + sep + rest;
      assert Join(parts, sep) == s;
      IndexOfAfterPiece(p, sep, rest);
      SplitStep(s, sep, |p|);
      assert s[..|p|] == p;
      assert s[|p| + 2..] == rest;
      SplitJoin(parts[1..], sep);
      assert parts == [p] + parts[1..];
    }
  }

  /** Joining the pieces of a split with the same separator gives the string back. */
  lemma {:induction false} JoinSplit(s: string, sep: string)
    requires sep != []
    ensures Join(Split(s, sep), sep) == s
    decreases |s|
  {
    var i := IndexOf(s, sep);
    if i >= 0 {
      var rest := s[i + |sep|..];
      SplitStep(s, sep, i);
      JoinSplit(rest, sep);
      JoinCons(s[..i], Split(rest, sep), sep);
    }
  }
}
