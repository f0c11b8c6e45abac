/**
 * Strings as Python's `str` methods and the specific regular expressions of the
 * benchmark drivers see them: substring tests, `lower()`, `strip()`, `split()`,
 * `join()`, decimal conversions and a leftmost search in the style of `re.search`.
 */
module Text {
  import opened Common

  /** `sub` occurs in `s` starting at index `i`. */
  predicate At(s: string, i: nat, sub: string) {
    i + |sub| <= |s| && s[i..i + |sub|] == sub
  }

  /** Python's `sub in s`. */
  predicate Contains(s: string, sub: string) {
    exists i | 0 <= i <= |s| :: At(s, i, sub)
  }

  /** A string lacking one of `sub`'s characters does not contain `sub`. */
  lemma MissingCharNotContained(s: string, sub: string, j: nat)
    requires j < |sub|
    requires forall k | 0 <= k < |s| :: s[k] != sub[j]
    ensures !Contains(s, sub)
  {
    forall i | 0 <= i <= |s|
      ensures !At(s, i, sub)
    {
      if i + |sub| <= |s| {
        assert s[i..i + |sub|][j] == s[i + j];
      }
    }
  }

  /** A string containing `sub` contains every piece of it. */
  lemma ContainsPiece(s: string, sub: string, j: nat, k: nat)
    requires j <= k <= |sub|
    requires Contains(s, sub)
    ensures Contains(s, sub[j..k])
  {
    var i :| 0 <= i <= |s| && At(s, i, sub);
    var w, p := s[i..i + |sub|], s[i + j..i + k];
    assert forall m | 0 <= m < k - j :: p[m] == w[j + m];
    assert p == sub[j..k];
    assert At(s, i + j, sub[j..k]);
  }

  /** Python's `s.startswith(prefix)`. */
  predicate StartsWith(s: string, prefix: string) {
    At(s, 0, prefix)
  }

  // ---------------------------------------------------------------- characters

  /** Python's `str.isspace()` and the `\s` class of `re` on `str` patterns. */
  predicate IsSpace(c: char) {
    c == ' ' || ('\t' <= c <= '\r') || (0x1c <= c as int <= 0x1f)
    || c as int == 0x85 || c as int == 0xa0 || c as int == 0x1680
    || (0x2000 <= c as int <= 0x200a) || c as int == 0x2028 || c as int == 0x2029
    || c as int == 0x202f || c as int == 0x205f || c as int == 0x3000
  }

  /** An ASCII decimal digit, `[0-9]`. */
  predicate IsDigit(c: char) {
    '0' <= c <= '9'
  }

  /** `[a-f0-9]` matched case-sensitively. */
  predicate IsLowerHex(c: char) {
    IsDigit(c) || ('a' <= c <= 'f')
  }

  /** `[a-f0-9]` matched under `re.IGNORECASE`. */
  predicate IsHex(c: char) {
    IsLowerHex(c) || ('A' <= c <= 'F')
  }

  /** `[\d.]`. */
  predicate IsDigitOrDot(c: char) {
    IsDigit(c) || c == '.'
  }

  /** `[:\s]`. */
  predicate IsColonOrSpace(c: char) {
    c == ':' || IsSpace(c)
  }

  function LowerChar(c: char): (d: char)
    ensures 'A' <= c <= 'Z' ==> d as int == c as int + 32
    ensures !('A' <= c <= 'Z') ==> d == c
  {
    if 'A' <= c <= 'Z' then (c as int + 32) as char else c
  }

  /** Python's `s.lower()` on ASCII letters. */
  function Lower(s: string): (r: string)
    ensures |r| == |s|
    ensures forall i | 0 <= i < |s| :: r[i] == LowerChar(s[i])
  {
    seq(|s|, i requires 0 <= i < |s| => LowerChar(s[i]))
  }

  /** Lower-casing commutes with slicing. */
  lemma LowerSlice(s: string, i: nat, j: nat)
    requires i <= j <= |s|
    ensures Lower(s)[i..j] == Lower(s[i..j])
  {
  }

  /** An occurrence survives lower-casing: `sub in s` implies `sub.lower() in s.lower()`. */
  lemma ContainsLower(s: string, sub: string)
    requires Contains(s, sub)
    ensures Contains(Lower(s), Lower(sub))
  {
    var i :| 0 <= i <= |s| && At(s, i, sub);
    LowerSlice(s, i, i + |sub|);
    assert At(Lower(s), i, Lower(sub));
  }

  /** An occurrence inside a part is an occurrence in the whole. */
  lemma ContainsConcat(a: string, b: string, sub: string)
    ensures Contains(a, sub) ==> Contains(a + b, sub)
    ensures Contains(b, sub) ==> Contains(a + b, sub)
  {
    if Contains(a, sub) {
      var i :| 0 <= i <= |a| && At(a, i, sub);
      assert (a + b)[i..i + |sub|] == a[i..i + |sub|];
      assert At(a + b, i, sub);
    }
    if Contains(b, sub) {
      var i :| 0 <= i <= |b| && At(b, i, sub);
      assert (a + b)[|a| + i..|a| + i + |sub|] == b[i..i + |sub|];
      assert At(a + b, |a| + i, sub);
    }
  }

  // ---------------------------------------------------------------- scanning

  /** The end of the longest run of characters satisfying `p` that starts at `i`. */
  function RunEnd(s: string, i: nat, p: char -> bool): (j: nat)
    requires i <= |s|
    ensures i <= j <= |s|
    ensures forall k | i <= k < j :: p(s[k])
    ensures j < |s| ==> !p(s[j])
    decreases |s| - i
  {
    if i < |s| && p(s[i]) then RunEnd(s, i + 1, p) else i
  }

  /** A run known to stop at `j` ends at `j`. */
  lemma {:induction false} RunEndOf(s: string, i: nat, j: nat, p: char -> bool)
    requires i <= j <= |s|
    requires forall k | i <= k < j :: p(s[k])
    requires j < |s| ==> !p(s[j])
    ensures RunEnd(s, i, p) == j
    decreases j - i
  {
    if i < j {
      RunEndOf(s, i + 1, j, p);
    }
  }

  /**
   * Python's `re.search`: the capture of the leftmost position, at or after `from`,
   * where the pattern `m` matches (`m(s, i)` is the capture of a match at `i`).
   */
  function SearchFrom<T>(s: string, from: nat, m: (string, nat) -> Option<T>): Option<T>
    decreases |s| + 1 - from
  {
    if from > |s| then None
    else if m(s, from).Some? then m(s, from)
    else SearchFrom(s, from + 1, m)
  }

  function Search<T>(s: string, m: (string, nat) -> Option<T>): Option<T> {
    SearchFrom(s, 0, m)
  }

  /** The search finds nothing exactly when no position matches, and otherwise the leftmost match. */
  lemma {:induction false} SearchFromFacts<T>(s: string, from: nat, m: (string, nat) -> Option<T>)
    ensures SearchFrom(s, from, m).None? <==> forall j | from <= j <= |s| :: m(s, j).None?
    ensures SearchFrom(s, from, m).Some? ==>
      exists j | from <= j <= |s| :: m(s, j) == SearchFrom(s, from, m) && forall k | from <= k < j :: m(s, k).None?
    decreases |s| + 1 - from
  {
    if from <= |s| && m(s, from).None? {
      SearchFromFacts(s, from + 1, m);
      if SearchFrom(s, from, m).Some? {
        var j :| from + 1 <= j <= |s| && m(s, j) == SearchFrom(s, from, m) && forall k | from + 1 <= k < j :: m(s, k).None?;
        assert forall k | from <= k < j :: m(s, k).None?;
      }
    }
  }

  lemma SearchFacts<T>(s: string, m: (string, nat) -> Option<T>)
    ensures Search(s, m).None? <==> forall j | 0 <= j <= |s| :: m(s, j).None?
    ensures Search(s, m).Some? ==>
      exists j | 0 <= j <= |s| :: m(s, j) == Search(s, m) && forall k | 0 <= k < j :: m(s, k).None?
  {
    SearchFromFacts(s, 0, m);
  }

  /** A match at the very start is the leftmost one. */
  lemma SearchFirst<T>(s: string, m: (string, nat) -> Option<T>)
    requires m(s, 0).Some?
    ensures Search(s, m) == m(s, 0)
  {
  }

  /** The result of the last element for which `f` answers (a loop that overwrites a variable). */
  function LastSome<T>(xs: seq<string>, f: string -> Option<T>): Option<T> {
    if xs == [] then None
    else if f(xs[|xs| - 1]).Some? then f(xs[|xs| - 1])
    else LastSome(xs[..|xs| - 1], f)
  }

  /** Nothing exactly when no element answers, and otherwise the answer of the last one that does. */
  lemma {:induction false} LastSomeFacts<T>(xs: seq<string>, f: string -> Option<T>)
    ensures LastSome(xs, f).None? <==> forall i | 0 <= i < |xs| :: f(xs[i]).None?
    ensures LastSome(xs, f).Some? ==>
      exists i | 0 <= i < |xs| :: f(xs[i]) == LastSome(xs, f) && forall j | i < j < |xs| :: f(xs[j]).None?
  {
    if xs != [] && f(xs[|xs| - 1]).None? {
      var init := xs[..|xs| - 1];
      LastSomeFacts(init, f);
      assert forall i | 0 <= i < |init| :: init[i] == xs[i];
      if LastSome(xs, f).Some? {
        var i :| 0 <= i < |init| && f(init[i]) == LastSome(init, f) && forall j | i < j < |init| :: f(init[j]).None?;
        assert f(xs[i]) == LastSome(xs, f);
      }
    }
  }

  // ---------------------------------------------------------------- strip, split, join

  function TrimStart(s: string): (r: string)
    ensures |r| <= |s| && r == s[|s| - |r|..]
    ensures r != [] ==> !IsSpace(r[0])
    ensures forall k | 0 <= k < |s| - |r| :: IsSpace(s[k])
  {
    if s != [] && IsSpace(s[0]) then TrimStart(s[1..]) else s
  }

  function TrimEnd(s: string): (r: string)
    ensures |r| <= |s| && r == s[..|r|]
    ensures r != [] ==> !IsSpace(r[|r| - 1])
    ensures forall k | |r| <= k < |s| :: IsSpace(s[k])
  {
    if s != [] && IsSpace(s[|s| - 1]) then TrimEnd(s[..|s| - 1]) else s
  }

  /** Python's `s.strip()`. */
  function Strip(s: string): string {
    TrimEnd(TrimStart(s))
  }

  /** The index of the first `c` in `s`. */
  function IndexOf(s: string, c: char): (i: nat)
    requires c in s
    ensures i < |s| && s[i] == c && c !in s[..i]
  {
    if s[0] == c then 0 else 1 + IndexOf(s[1..], c)
  }

  /** Python's `s.split(sep)` for a one-character separator. */
  function Split(s: string, sep: char): (parts: seq<string>)
    ensures |parts| >= 1
    ensures forall k | 0 <= k < |parts| :: sep !in parts[k]
    decreases |s|
  {
    if sep !in s then [s]
    else
      var i := IndexOf(s, sep);
      [s[..i]] + Split(s[i + 1..], sep)
  }

  /** Python's `sep.join(parts)`. */
  function Join(parts: seq<string>, sep: char): string {
    if |parts| == 0 then ""
    else if |parts| == 1 then parts[0]
    else parts[0] + [sep] + Join(parts[1..], sep)
  }

  /** Splitting undoes joining when no part contains the separator. */
  lemma {:induction false} SplitJoin(parts: seq<string>, sep: char)
    requires |parts| >= 1
    requires forall k | 0 <= k < |parts| :: sep !in parts[k]
    ensures Split(Join(parts, sep), sep) == parts
  {
    if |parts| > 1 {
      var s := Join(parts, sep);
      var rest := Join(parts[1..], sep);
      assert s == parts[0] + [sep] + rest;
      assert s[|parts[0]|] == sep;
      assert s[..|parts[0]|] == parts[0];
      assert IndexOf(s, sep) == |parts[0]|;
      assert s[|parts[0]| + 1..] == rest;
      SplitJoin(parts[1..], sep);
    }
  }

  /** The longest whitespace-free prefix. */
  function Word(s: string): (w: string)
    ensures |w| <= |s| && w == s[..|w|]
    ensures forall k | 0 <= k < |w| :: !IsSpace(w[k])
    ensures |w| < |s| ==> IsSpace(s[|w|])
  {
    if s == [] || IsSpace(s[0]) then "" else [s[0]] + Word(s[1..])
  }

  /** A non-empty run of non-whitespace. */
  predicate IsWord(w: string) {
    w != "" && forall j | 0 <= j < |w| :: !IsSpace(w[j])
  }

  /** Python's `s.split()` with no argument: the maximal runs of non-whitespace. */
  function Words(s: string): (ws: seq<string>)
    ensures forall k | 0 <= k < |ws| :: IsWord(ws[k])
    decreases |s|
  {
    var t := TrimStart(s);
    if t == "" then []
    else
      var w := Word(t);
      assert IsWord(w);
      [w] + Words(t[|w|..])
  }

  // ---------------------------------------------------------------- numbers

  /** A non-empty run of ASCII digits. */
  predicate AllDigits(s: string) {
    s != [] && forall k | 0 <= k < |s| :: IsDigit(s[k])
  }

  /** The decimal value of a string of digits. */
  function DigitsValue(s: string): (n: nat)
    requires forall k | 0 <= k < |s| :: IsDigit(s[k])
  {
    if s == [] then 0
    else
      assert IsDigit(s[|s| - 1]);
      10 * DigitsValue(s[..|s| - 1]) + (s[|s| - 1] as int - '0' as int)
  }

  function DigitChar(d: nat): (c: char)
    requires d < 10
    ensures IsDigit(c) && c as int - '0' as int == d
  {
    ('0' as int + d) as char
  }

  /** Python's `str(n)` for a natural number. */
  function NatToString(n: nat): (s: string)
    ensures AllDigits(s)
  {
    if n < 10 then [DigitChar(n)] else NatToString(n / 10) + [DigitChar(n % 10)]
  }

  /** Reading back what `str` wrote gives the number: `int(str(n)) == n`. */
  lemma {:induction false} NatToStringValue(n: nat)
    ensures DigitsValue(NatToString(n)) == n
  {
    if n >= 10 {
      var s := NatToString(n);
      assert s[..|s| - 1] == NatToString(n / 10);
      NatToStringValue(n / 10);
    }
  }

  /** `[0-9](_?[0-9])*`: the literal that Python's `int()` accepts after the sign. */
  predicate IntBody(s: string) {
    && s != []
    && IsDigit(s[0]) && IsDigit(s[|s| - 1])
    && (forall k | 0 <= k < |s| :: IsDigit(s[k]) || s[k] == '_')
    && (forall k | 0 <= k < |s| - 1 :: !(s[k] == '_' && s[k + 1] == '_'))
  }

  /** The digits of a literal with its underscores removed. */
  function DropUnderscores(s: string): (r: string)
    ensures forall k | 0 <= k < |r| :: r[k] != '_'
    ensures (forall k | 0 <= k < |s| :: IsDigit(s[k]) || s[k] == '_') ==> forall k | 0 <= k < |r| :: IsDigit(r[k])
  {
    if s == [] then "" else (if s[0] == '_' then "" else [s[0]]) + DropUnderscores(s[1..])
  }

  /** Python's `int(s)` on ASCII text: `None` is the `ValueError` it raises. */
  function PyInt(s: string): (r: Option<int>)
  {
    var t := Strip(s);
    if t == "" then None
    else
      var sign := if t[0] == '-' then -1 else 1;
      var body := if t[0] == '-' || t[0] == '+' then t[1..] else t;
      if IntBody(body) then Some(sign * DigitsValue(DropUnderscores(body))) else None
  }

  /** `int()` reads back any decimal literal, with surrounding whitespace. */
  lemma PyIntOfNat(n: nat, pad: string)
    requires forall k | 0 <= k < |pad| :: IsSpace(pad[k])
    ensures PyInt(pad + NatToString(n) + pad) == Some(n)
  {
    var d := NatToString(n);
    StripPadded(d, pad);
    assert IntBody(d);
    PyIntUnsigned(pad + d + pad);
    DropNoUnderscores(d);
    NatToStringValue(n);
  }

  /** `int()` of a plain run of digits is its decimal value. */
  lemma PyIntOfDigits(d: string)
    requires AllDigits(d)
    ensures PyInt(d) == Some(DigitsValue(d))
  {
    StripDigits(d);
    assert IntBody(d);
    PyIntUnsigned(d);
    DropNoUnderscores(d);
  }

  lemma StripDigits(d: string)
    requires AllDigits(d)
    ensures Strip(d) == d
  {
    StripPadded(d, "");
    assert "" + d + "" == d;
  }

  /** `int()` of text whose stripped form is an unsigned literal. */
  lemma PyIntUnsigned(s: string)
    requires Strip(s) != [] && IsDigit(Strip(s)[0]) && IntBody(Strip(s))
    ensures PyInt(s) == Some(DigitsValue(DropUnderscores(Strip(s))))
  {
  }

  lemma StripPadded(body: string, pad: string)
    requires forall k | 0 <= k < |pad| :: IsSpace(pad[k])
    requires body != [] && !IsSpace(body[0]) && !IsSpace(body[|body| - 1])
    ensures Strip(pad + body + pad) == body
  {
    assert pad + body + pad == pad + (body + pad);
    TrimStartPad(pad, body + pad);
    TrimEndPad(body, pad);
  }

  lemma {:induction false} TrimStartPad(pad: string, rest: string)
    requires forall k | 0 <= k < |pad| :: IsSpace(pad[k])
    requires rest != [] && !IsSpace(rest[0])
    ensures TrimStart(pad + rest) == rest
  {
    if pad != [] {
      assert (pad + rest)[1..] == pad[1..] + rest;
      TrimStartPad(pad[1..], rest);
    } else {
      assert pad + rest == rest;
    }
  }

  lemma {:induction false} TrimEndPad(body: string, pad: string)
    requires forall k | 0 <= k < |pad| :: IsSpace(pad[k])
    requires body != [] && !IsSpace(body[|body| - 1])
    ensures TrimEnd(body + pad) == body
  {
    if pad != [] {
      assert (body + pad)[..|body + pad| - 1] == body + pad[..|pad| - 1];
      TrimEndPad(body, pad[..|pad| - 1]);
    } else {
      assert body + pad == body;
    }
  }

  lemma {:induction false} DropNoUnderscores(s: string)
    requires forall k | 0 <= k < |s| :: IsDigit(s[k])
    ensures DropUnderscores(s) == s
  {
    if s != [] {
      DropNoUnderscores(s[1..]);
    }
  }
}
