/**
 * The handful of JavaScript string primitives the cropper's logic relies on:
 * decimal formatting of a non-negative integer (template literal `${n}`),
 * `Number(s)`, `parseInt(s)`, `s.split(c)`, `s.startsWith(p)` and the two
 * forms of `s.replace(...)` (global regular expression and first literal
 * occurrence). Each is modelled on the inputs the cropper gives it.
 */
module Text {

  datatype Option<+T> = None | Some(value: T)

  predicate IsDigit(c: char) { '0' <= c <= '9' }

  predicate AllDigits(s: string) {
    forall i :: 0 <= i < |s| ==> IsDigit(s[i])
  }

  function DigitValue(c: char): (d: nat)
    requires IsDigit(c)
    ensures d < 10
  {
    c as int - '0' as int
  }

  function DigitChar(d: nat): (c: char)
    requires d < 10
    ensures IsDigit(c) && DigitValue(c) == d
  {
    ('0' as int + d) as char
  }

  /** The value of a string of decimal digits, most significant first. */
  function DecimalValue(s: string): nat
    requires AllDigits(s)
    decreases |s|
  {
    if |s| == 0 then 0 else DecimalValue(s[..|s| - 1]) * 10 + DigitValue(s[|s| - 1])
  }

  /** `${n}` for a non-negative integer: its shortest decimal numeral. */
  function Decimal(n: nat): (s: string)
    ensures |s| > 0 && AllDigits(s)
    ensures DecimalValue(s) == n
    ensures s[0] == '0' ==> s == "0"
    decreases n
  {
    if n < 10 then [DigitChar(n)]
    else
      var prefix := Decimal(n / 10);
      var s := prefix + [DigitChar(n % 10)];
      assert s[..|s| - 1] == prefix;
      s
  }

  /**
   * `Number(s)`: a string of decimal digits denotes its value (the empty
   * string denotes 0); every other string is `NaN`, written None.
   */
  function ToNumber(s: string): (r: Option<nat>)
    ensures r.Some? <==> AllDigits(s)
    ensures s == "" ==> r == Some(0)
  {
    if AllDigits(s) then Some(DecimalValue(s)) else None
  }

  /** The longest prefix of `s` made of decimal digits. */
  function DigitPrefix(s: string): (p: string)
    ensures p <= s && AllDigits(p)
    ensures |p| < |s| ==> !IsDigit(s[|p|])
    ensures AllDigits(s) ==> p == s
    decreases |s|
  {
    if |s| == 0 || !IsDigit(s[0]) then "" else [s[0]] + DigitPrefix(s[1..])
  }

  /**
   * `parseInt(s)`: the value of the leading digits of `s`, or `NaN` (None)
   * when `s` does not start with a digit.
   */
  function ParseInt(s: string): (r: Option<nat>)
    ensures r.Some? <==> |s| > 0 && IsDigit(s[0])
    ensures AllDigits(s) && s != "" ==> r == Some(DecimalValue(s))
  {
    var p := DigitPrefix(s);
    if p == "" then None else Some(DecimalValue(p))
  }

  /** `s.startsWith(prefix)`. */
  predicate StartsWith(s: string, prefix: string) {
    |prefix| <= |s| && s[..|prefix|] == prefix
  }

  /** The parts joined back with the separator between them. */
  function Join(parts: seq<string>, sep: char): string
    requires |parts| > 0
    decreases |parts|
  {
    if |parts| == 1 then parts[0] else parts[0] + [sep] + Join(parts[1..], sep)
  }

  /**
   * `s.split(sep)` for a one-character separator: the maximal pieces of `s`
   * free of `sep`, in order; an empty string gives one empty piece.
   */
  function Split(s: string, sep: char): (parts: seq<string>)
    ensures |parts| > 0
    ensures forall i :: 0 <= i < |parts| ==> sep !in parts[i]
    ensures Join(parts, sep) == s
    decreases |s|
  {
    if |s| == 0 then [""]
    else if s[0] == sep then
      var rest := Split(s[1..], sep);
      assert s == [sep] + s[1..];
      [""] + rest
    else
      var rest := Split(s[1..], sep);
      var parts := [[s[0]] + rest[0]] + rest[1..];
      assert parts[1..] == rest[1..];
      assert s == [s[0]] + s[1..];
      parts
  }

  lemma {:induction false} SplitNoSeparator(a: string, sep: char)
    requires sep !in a
    ensures Split(a, sep) == [a]
    decreases |a|
  {
    if |a| > 0 {
      assert a[1..] + [] == a[1..];
      SplitNoSeparator(a[1..], sep);
      assert [a[0]] + a[1..] == a;
    }
  }

  lemma {:induction false} SplitFirstPiece(a: string, sep: char, rest: string)
    requires sep !in a
    ensures Split(a + [sep] + rest, sep) == [a] + Split(rest, sep)
    decreases |a|
  {
    var s := a + [sep] + rest;
    if |a| == 0 {
      assert s == [sep] + rest;
      assert s[1..] == rest;
    } else {
      assert s[0] == a[0];
      assert s[1..] == a[1..] + [sep] + rest;
      SplitFirstPiece(a[1..], sep, rest);
      assert [a[0]] + a[1..] == a;
    }
  }

  /** Splitting undoes joining pieces that are free of the separator. */
  lemma {:induction false} SplitJoin(parts: seq<string>, sep: char)
    requires |parts| > 0
    requires forall i :: 0 <= i < |parts| ==> sep !in parts[i]
    ensures Split(Join(parts, sep), sep) == parts
    decreases |parts|
  {
    if |parts| == 1 {
      SplitNoSeparator(parts[0], sep);
    } else {
      SplitJoin(parts[1..], sep);
      SplitFirstPiece(parts[0], sep, Join(parts[1..], sep));
      assert [parts[0]] + parts[1..] == parts;
    }
  }

  /** `pat` occurs in `s` starting at index `i`. */
  predicate OccursAt(s: string, pat: string, i: nat)
    requires i + |pat| <= |s|
  {
    s[i..i + |pat|] == pat
  }

  /** `pat` occurs nowhere in `s` before index `k`. */
  predicate NoneBefore(s: string, pat: string, k: nat) {
    forall j :: 0 <= j < k && j + |pat| <= |s| ==> !OccursAt(s, pat, j)
  }

  /**
   * `s.replace(/pat/g, rep)` for a literal pattern: scanning left to right,
   * every occurrence that does not overlap an earlier one is replaced.
   */
  function ReplaceAll(s: string, pat: string, rep: string): string
    requires |pat| > 0
    decreases |s|
  {
    if |s| < |pat| then s
    else if s[..|pat|] == pat then rep + ReplaceAll(s[|pat|..], pat, rep)
    else [s[0]] + ReplaceAll(s[1..], pat, rep)
  }

  /** `s.replace(pat, rep)` with a string pattern: only the first occurrence. */
  function ReplaceFirst(s: string, pat: string, rep: string): string
    requires |pat| > 0
    decreases |s|
  {
    if |s| < |pat| then s
    else if s[..|pat|] == pat then rep + s[|pat|..]
    else [s[0]] + ReplaceFirst(s[1..], pat, rep)
  }

  /** An occurrence in `s[1..]` is an occurrence in `s`, one place later. */
  lemma ShiftedOccurrences(s: string, pat: string)
    requires |s| > 0
    ensures forall i :: 0 <= i <= |s| - 1 - |pat| ==> OccursAt(s[1..], pat, i) == OccursAt(s, pat, i + 1)
  {
  }

  /** Past a position where `pat` does not occur, the first occurrence is one place later in the tail. */
  lemma NoneBeforeTail(s: string, pat: string, k: nat)
    requires |s| > 0 && k > 0 && NoneBefore(s, pat, k)
    ensures NoneBefore(s[1..], pat, k - 1)
  {
    ShiftedOccurrences(s, pat);
    forall j | 0 <= j < k - 1 && j + |pat| <= |s| - 1
      ensures !OccursAt(s[1..], pat, j)
    {
      assert !OccursAt(s, pat, j + 1);
    }
  }

  /** A match at `k > 0` with none before it is, in the tail, a match at `k - 1` with none before it. */
  lemma ShiftMatch(s: string, pat: string, k: nat)
    requires |pat| > 0 && 0 < k && k + |pat| <= |s|
    requires OccursAt(s, pat, k) && NoneBefore(s, pat, k)
    ensures s[..|pat|] != pat
    ensures OccursAt(s[1..], pat, k - 1) && NoneBefore(s[1..], pat, k - 1)
    ensures s[..k] == [s[0]] + s[1..][..k - 1]
    ensures s[1..][k - 1 + |pat|..] == s[k + |pat|..]
  {
    assert !OccursAt(s, pat, 0);
    ShiftedOccurrences(s, pat);
    NoneBeforeTail(s, pat, k);
  }

  /** Where `pat` does not start, both replacements keep the first character and go on with the rest. */
  lemma ReplaceStep(s: string, pat: string, rep: string)
    requires |pat| > 0 && |pat| <= |s| && s[..|pat|] != pat
    ensures ReplaceFirst(s, pat, rep) == [s[0]] + ReplaceFirst(s[1..], pat, rep)
    ensures ReplaceAll(s, pat, rep) == [s[0]] + ReplaceAll(s[1..], pat, rep)
  {
  }

  /**
   * Regrouping a concatenation, stated over plain variables so that callers
   * do not have the solver reason about the slices they pass in.
   */
  lemma Regroup(c: char, a: string, b: string, d: string)
    ensures [c] + (a + b + d) == ([c] + a) + b + d
  {
  }

  /** At the leftmost occurrence, at `k`, the first replacement keeps everything around the match. */
  lemma {:induction false} ReplaceFirstAtMatch(s: string, pat: string, rep: string, k: nat)
    requires |pat| > 0 && k + |pat| <= |s|
    requires OccursAt(s, pat, k) && NoneBefore(s, pat, k)
    ensures ReplaceFirst(s, pat, rep) == s[..k] + rep + s[k + |pat|..]
    decreases k
  {
    if k == 0 {
      assert s[..|pat|] == pat;
    } else {
      ShiftMatch(s, pat, k);
      var u, tail := s[1..], s[k + |pat|..];
      ReplaceFirstAtMatch(u, pat, rep, k - 1);
      var rest := ReplaceFirst(u, pat, rep);
      assert rest == u[..k - 1] + rep + tail;
      ReplaceStep(s, pat, rep);
      Regroup(s[0], u[..k - 1], rep, tail);
    }
  }

  /** A match at the very start is replaced and the scan resumes after it. */
  lemma ReplaceAllAtStart(s: string, pat: string, rep: string)
    requires |pat| > 0 && |pat| <= |s| && OccursAt(s, pat, 0)
    ensures ReplaceAll(s, pat, rep) == s[..0] + rep + ReplaceAll(s[0 + |pat|..], pat, rep)
  {
    assert s[..|pat|] == pat;
    assert s[..0] + rep == rep;
  }

  /** Carries the global replacement's shape from the tail `s[1..]` back to `s`. */
  lemma ReplaceAllShift(s: string, pat: string, rep: string, k: nat)
    requires |pat| > 0 && 0 < k && k + |pat| <= |s| && s[..|pat|] != pat
    requires ReplaceAll(s[1..], pat, rep) == s[1..][..k - 1] + rep + ReplaceAll(s[1..][k - 1 + |pat|..], pat, rep)
    ensures ReplaceAll(s, pat, rep) == s[..k] + rep + ReplaceAll(s[k + |pat|..], pat, rep)
  {
    var u, tail := s[1..], s[k + |pat|..];
    assert u[k - 1 + |pat|..] == tail;
    assert s[..k] == [s[0]] + u[..k - 1];
    ReplaceStep(s, pat, rep);
    Regroup(s[0], u[..k - 1], rep, ReplaceAll(tail, pat, rep));
  }

  /**
   * At the leftmost occurrence, at `k`, the global replacement keeps what
   * precedes it and resumes scanning only after the match, so matches never
   * overlap.
   */
  lemma {:induction false} ReplaceAllAtMatch(s: string, pat: string, rep: string, k: nat)
    requires |pat| > 0 && k + |pat| <= |s|
    requires OccursAt(s, pat, k) && NoneBefore(s, pat, k)
    ensures ReplaceAll(s, pat, rep) == s[..k] + rep + ReplaceAll(s[k + |pat|..], pat, rep)
    decreases k, 1
  {
    if k == 0 {
      ReplaceAllAtStart(s, pat, rep);
    } else {
      ReplaceAllPastStart(s, pat, rep, k);
    }
  }

  /** The step of `ReplaceAllAtMatch` for a match that is not at the start. */
  lemma {:induction false} ReplaceAllPastStart(s: string, pat: string, rep: string, k: nat)
    requires |pat| > 0 && 0 < k && k + |pat| <= |s|
    requires OccursAt(s, pat, k) && NoneBefore(s, pat, k)
    ensures ReplaceAll(s, pat, rep) == s[..k] + rep + ReplaceAll(s[k + |pat|..], pat, rep)
    decreases k, 0
  {
    ShiftMatch(s, pat, k);
    ReplaceAllAtMatch(s[1..], pat, rep, k - 1);
    ReplaceAllShift(s, pat, rep, k);
  }

  /** Without an occurrence both replacements leave the string as it is. */
  lemma {:induction false} ReplaceWithoutMatch(s: string, pat: string, rep: string)
    requires |pat| > 0 && NoneBefore(s, pat, |s|)
    ensures ReplaceFirst(s, pat, rep) == s
    ensures ReplaceAll(s, pat, rep) == s
    decreases |s|
  {
    if |s| >= |pat| {
      assert !OccursAt(s, pat, 0);
      var u := s[1..];
      NoneBeforeTail(s, pat, |s|);
      ReplaceWithoutMatch(u, pat, rep);
      assert [s[0]] + u == s;
    }
  }

  /** No occurrence can start inside a prefix lacking the pattern's first character. */
  lemma {:induction false} ReplaceAllSkips(a: string, t: string, pat: string, rep: string)
    requires |pat| > 0 && pat[0] !in a
    ensures ReplaceAll(a + t, pat, rep) == a + ReplaceAll(t, pat, rep)
    decreases |a|
  {
    if |a| > 0 {
      var s := a + t;
      assert s[0] == a[0] && s[1..] == a[1..] + t;
      ReplaceAllSkips(a[1..], t, pat, rep);
      if |s| < |pat| {
        assert |t| < |pat| && ReplaceAll(t, pat, rep) == t;
      } else {
        assert s[..|pat|][0] != pat[0];
        ReplaceStep(s, pat, rep);
        var rest := ReplaceAll(t, pat, rep);
        assert ReplaceAll(s[1..], pat, rep) == a[1..] + rest;
        assert [a[0]] + (a[1..] + rest) == a + rest;
      }
    } else {
      assert a + t == t;
    }
  }

  lemma {:induction false} ReplaceFirstSkips(a: string, t: string, pat: string, rep: string)
    requires |pat| > 0 && pat[0] !in a
    ensures ReplaceFirst(a + t, pat, rep) == a + ReplaceFirst(t, pat, rep)
    decreases |a|
  {
    if |a| > 0 {
      var s := a + t;
      assert s[0] == a[0] && s[1..] == a[1..] + t;
      ReplaceFirstSkips(a[1..], t, pat, rep);
      if |s| < |pat| {
        assert |t| < |pat| && ReplaceFirst(t, pat, rep) == t;
      } else {
        assert s[..|pat|][0] != pat[0];
        ReplaceStep(s, pat, rep);
        var rest := ReplaceFirst(t, pat, rep);
        assert ReplaceFirst(s[1..], pat, rep) == a[1..] + rest;
        assert [a[0]] + (a[1..] + rest) == a + rest;
      }
    } else {
      assert a + t == t;
    }
  }

  lemma DigitsLackChar(s: string, c: char)
    requires AllDigits(s) && !IsDigit(c)
    ensures c !in s
  {
    assert forall i :: 0 <= i < |s| ==> s[i] != c;
  }

  /** Formatting and `Number` are inverse on non-negative integers. */
  lemma NumberOfDecimal(n: nat)
    ensures ToNumber(Decimal(n)) == Some(n)
    ensures ParseInt(Decimal(n)) == Some(n)
  {
  }
}
