/**
 * The string operations of Python that the hardware analyser relies on:
 * the substring test `pat in s`, the first occurrence of a separator,
 * `s.split('\n')` and its inverse `'\n'.join(parts)`, `s.lower()`, and
 * the digit handling behind `re.search(r'\d+', s)` and `int(...)`.
 * Characters are compared exactly; `lower` and `\d` are modelled on ASCII.
 */
module Text {
  import opened Wrappers

  // ---------------------------------------------------------------------
  // Substrings
  // ---------------------------------------------------------------------

  /** `pat` occurs in `s` starting at index `i`. */
  ghost predicate OccursAt(s: string, pat: string, i: int) {
    0 <= i && i + |pat| <= |s| && s[i..i + |pat|] == pat
  }

  /** Reference meaning of Python's `pat in s`. */
  ghost predicate Occurs(s: string, pat: string) {
    exists i :: OccursAt(s, pat, i)
  }

  lemma OccursAtTail(s: string, pat: string)
    requires |s| > 0
    ensures forall k :: 0 <= k ==> (OccursAt(s[1..], pat, k) <==> OccursAt(s, pat, k + 1))
  {
    forall k | 0 <= k
      ensures OccursAt(s[1..], pat, k) <==> OccursAt(s, pat, k + 1)
    {
      if 0 <= k && k + |pat| <= |s| - 1 {
        assert s[1..][k..k + |pat|] == s[k + 1..k + 1 + |pat|];
      }
    }
  }

  /** Index of the first occurrence of `pat` in `s`, if there is one. */
  function Find(s: string, pat: string): (r: Option<nat>)
    ensures r.Some? ==> OccursAt(s, pat, r.value)
    ensures r.Some? ==> forall j :: 0 <= j < r.value ==> !OccursAt(s, pat, j)
    ensures r.None? <==> !Occurs(s, pat)
    decreases |s|
  {
    if |s| < |pat| then None
    else if s[..|pat|] == pat then
      assert OccursAt(s, pat, 0);
      Some(0)
    else
      OccursAtTail(s, pat);
      match Find(s[1..], pat)
      case None =>
        assert forall i :: !OccursAt(s, pat, i) by {
          forall i ensures !OccursAt(s, pat, i) {
            if i > 0 { assert !OccursAt(s[1..], pat, i - 1); }
          }
        }
        None
      case Some(k) =>
        assert forall j :: 0 <= j < k + 1 ==> !OccursAt(s, pat, j) by {
          forall j | 0 <= j < k + 1 ensures !OccursAt(s, pat, j) {
            if j > 0 { assert !OccursAt(s[1..], pat, j - 1); }
          }
        }
        Some(k + 1)
  }

  /** Python's `pat in s`. */
  function Contains(s: string, pat: string): (b: bool)
    ensures b <==> Occurs(s, pat)
  {
    Find(s, pat).Some?
  }

  // ---------------------------------------------------------------------
  // Splitting on a separator character and joining back
  // ---------------------------------------------------------------------

  /** Python's `s.split(sep)` for a one-character separator. */
  function Split(s: string, sep: char): (parts: seq<string>)
    ensures |parts| >= 1
    decreases |s|
  {
    if s == [] then [""]
    else
      var rest := Split(s[1..], sep);
      if s[0] == sep then [""] + rest
      else [[s[0]] + rest[0]] + rest[1..]
  }

  /** Python's `sep.join(parts)`. */
  function Join(parts: seq<string>, sep: char): string
    decreases |parts|
  {
    if |parts| == 0 then ""
    else if |parts| == 1 then parts[0]
    else parts[0] + [sep] + Join(parts[1..], sep)
  }

  /** Rejoining the pieces of a split gives back the original text. */
  lemma {:induction false} JoinSplit(s: string, sep: char)
    ensures Join(Split(s, sep), sep) == s
    decreases |s|
  {
    if s != [] {
      var rest := Split(s[1..], sep);
      JoinSplit(s[1..], sep);
      if s[0] == sep {
        assert ([""] + rest)[1..] == rest;
      } else if |rest| > 1 {
        var parts := [[s[0]] + rest[0]] + rest[1..];
        assert parts[1..] == rest[1..];
        assert Join(rest, sep) == rest[0] + [sep] + Join(rest[1..], sep);
      }
    }
  }

  /** No piece of a split contains the separator. */
  lemma {:induction false} SplitPiecesOmitSeparator(s: string, sep: char)
    ensures forall i :: 0 <= i < |Split(s, sep)| ==> sep !in Split(s, sep)[i]
    decreases |s|
  {
    if s != [] {
      SplitPiecesOmitSeparator(s[1..], sep);
      var rest := Split(s[1..], sep);
      if s[0] != sep {
        assert sep !in [s[0]] + rest[0];
      }
    }
  }

  lemma {:induction false} SplitWithoutSeparator(p: string, sep: char)
    requires sep !in p
    ensures Split(p, sep) == [p]
    decreases |p|
  {
    if p != [] {
      SplitWithoutSeparator(p[1..], sep);
      assert [p[0]] + p[1..] == p;
    }
  }

  lemma {:induction false} SplitAfterPiece(p: string, r: string, sep: char)
    requires sep !in p
    ensures Split(p + [sep] + r, sep) == [p] + Split(r, sep)
    decreases |p|
  {
    var s := p + [sep] + r;
    if p == [] {
      assert s[1..] == r;
    } else {
      assert s[1..] == p[1..] + [sep] + r;
      SplitAfterPiece(p[1..], r, sep);
      assert [p[0]] + p[1..] == p;
    }
  }

  /** Splitting a join of separator-free pieces gives back the pieces. */
  lemma {:induction false} SplitJoin(parts: seq<string>, sep: char)
    requires |parts| >= 1
    requires forall i :: 0 <= i < |parts| ==> sep !in parts[i]
    ensures Split(Join(parts, sep), sep) == parts
    decreases |parts|
  {
    if |parts| == 1 {
      SplitWithoutSeparator(parts[0], sep);
    } else {
      SplitJoin(parts[1..], sep);
      SplitAfterPiece(parts[0], Join(parts[1..], sep), sep);
      assert [parts[0]] + parts[1..] == parts;
    }
  }

  // ---------------------------------------------------------------------
  // Lower case
  // ---------------------------------------------------------------------

  function LowerChar(c: char): char {
    if 'A' <= c <= 'Z' then (c as int + 32) as char else c
  }

  /** Python's `s.lower()`, on ASCII letters. */
  function Lower(s: string): (r: string)
    ensures |r| == |s|
    ensures forall i :: 0 <= i < |s| ==> r[i] == LowerChar(s[i])
    decreases |s|
  {
    if s == [] then [] else [LowerChar(s[0])] + Lower(s[1..])
  }

  /** Lowering twice is lowering once. */
  lemma LowerIdempotent(s: string)
    ensures Lower(Lower(s)) == Lower(s)
  {
    assert forall i :: 0 <= i < |s| ==> Lower(Lower(s))[i] == Lower(s)[i];
  }

  // ---------------------------------------------------------------------
  // Decimal digits
  // ---------------------------------------------------------------------

  /** An ASCII decimal digit, what `\d` matches in this model. */
  predicate IsDigit(c: char) {
    '0' <= c <= '9'
  }

  predicate AllDigits(d: string) {
    forall i :: 0 <= i < |d| ==> IsDigit(d[i])
  }

  /** Index of the first digit in `s`: where `re.search(r'\d+', s)` starts. */
  function FirstDigit(s: string): (r: Option<nat>)
    ensures r.Some? ==> r.value < |s| && IsDigit(s[r.value])
    ensures r.Some? ==> forall j :: 0 <= j < r.value ==> !IsDigit(s[j])
    ensures r.None? ==> forall j :: 0 <= j < |s| ==> !IsDigit(s[j])
    decreases |s|
  {
    if s == [] then None
    else if IsDigit(s[0]) then Some(0)
    else match FirstDigit(s[1..])
      case None => None
      case Some(k) => Some(k + 1)
  }

  /** Length of the longest all-digit prefix of `s` (the greedy `\d+`). */
  function DigitRun(s: string): (n: nat)
    ensures n <= |s|
    ensures AllDigits(s[..n])
    ensures n < |s| ==> !IsDigit(s[n])
    decreases |s|
  {
    if s != [] && IsDigit(s[0]) then
      var k := DigitRun(s[1..]);
      assert s[..k + 1] == [s[0]] + s[1..][..k];
      1 + k
    else 0
  }

  /** Python's `int(d)` on a string of decimal digits. */
  function DecimalValue(d: string): nat
    requires AllDigits(d)
    decreases |d|
  {
    if d == [] then 0
    else DecimalValue(d[..|d| - 1]) * 10 + (d[|d| - 1] as int - '0' as int)
  }

  /** Python's `str(n)` for a natural number: its shortest decimal form. */
  function Decimal(n: nat): (d: string)
    ensures |d| >= 1 && AllDigits(d)
    ensures |d| > 1 ==> d[0] != '0'
    decreases n
  {
    if n < 10 then [('0' as int + n) as char]
    else Decimal(n / 10) + [('0' as int + n % 10) as char]
  }

  /** `int(str(n)) == n`. */
  lemma {:induction false} DecimalRoundTrip(n: nat)
    ensures DecimalValue(Decimal(n)) == n
    decreases n
  {
    var d := Decimal(n);
    if n >= 10 {
      DecimalRoundTrip(n / 10);
      assert d[..|d| - 1] == Decimal(n / 10);
    } else {
      assert d[..0] == [];
    }
  }
}
