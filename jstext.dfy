/** The JavaScript string built-ins the core relies on: `includes`,
    `indexOf`, `split` with a non-empty separator, and the decimal
    rendering of an integer by `Number.prototype.toString`. */
module JsText {
  import opened Wrappers

  /** `pat` occurs in `s` starting at index `i`. */
  predicate OccursAt(s: string, pat: string, i: nat)
  {
    i + |pat| <= |s| && s[i..i + |pat|] == pat
  }

  /** `s.includes(pat)`. */
  predicate Includes(s: string, pat: string)
  {
    exists i: nat | i <= |s| :: OccursAt(s, pat, i)
  }

  lemma OccursAtTail(s: string, pat: string, k: nat)
    requires |s| > 0
    ensures OccursAt(s[1..], pat, k) <==> OccursAt(s, pat, k + 1)
  {
  }

  /** The first index at which `pat` occurs, or `None` (as
      `String.prototype.indexOf`, with `None` for -1): the search that
      decides where `split` cuts. */
  function IndexOf(s: string, pat: string): (r: Option<nat>)
    ensures r.Some? ==> OccursAt(s, pat, r.value)
    ensures r.Some? ==> forall j: nat :: j < r.value ==> !OccursAt(s, pat, j)
    ensures r.None? <==> !Includes(s, pat)
    decreases |s|
  {
    if |pat| > |s| then None
    else if s[..|pat|] == pat then Some(0)
    else
      match IndexOf(s[1..], pat)
      case None =>
        assert !OccursAt(s, pat, 0);
        assert forall j: nat | j <= |s| :: !OccursAt(s, pat, j) by {
          forall j: nat | 0 < j <= |s| ensures !OccursAt(s, pat, j) {
            OccursAtTail(s, pat, j - 1);
          }
        }
        None
      case Some(k) =>
        OccursAtTail(s, pat, k);
        assert forall j: nat | 0 < j < k + 1 :: !OccursAt(s, pat, j) by {
          forall j: nat | 0 < j < k + 1 ensures !OccursAt(s, pat, j) {
            OccursAtTail(s, pat, j - 1);
          }
        }
        Some(k + 1)
  }

  /** Inverse of `Split`: the parts glued together with `sep` between
      consecutive parts (`Array.prototype.join`). */
  function Join(parts: seq<string>, sep: string): string
  {
    if |parts| == 0 then ""
    else if |parts| == 1 then parts[0]
    else parts[0] + sep + Join(parts[1..], sep)
  }

  lemma NoOccurrenceInPrefix(s: string, pat: string, i: nat)
    requires pat != "" && i <= |s|
    requires forall j: nat :: j < i ==> !OccursAt(s, pat, j)
    ensures !Includes(s[..i], pat)
  {
    forall j: nat | j <= i && OccursAt(s[..i], pat, j)
      ensures false
    {
      assert s[..i][j..j + |pat|] == s[j..j + |pat|];
      assert OccursAt(s, pat, j);
    }
  }

  /** `parts` is a correct splitting of `s` at `sep`. */
  predicate SplitsAt(s: string, sep: string, parts: seq<string>)
  {
    && |parts| >= 1
    && (|parts| == 1 <==> !Includes(s, sep))
    && (forall k | 0 <= k < |parts| :: !Includes(parts[k], sep))
    && Join(parts, sep) == s
    && parts[0] <= s
    && (|parts| > 1 ==> OccursAt(s, sep, |parts[0]|))
    && (|parts| > 1 ==> forall j: nat :: j < |parts[0]| ==> !OccursAt(s, sep, j))
  }

  /** Every cut of `parts` is at the first remaining occurrence of `sep`,
      scanning left to right, as `split` makes it. */
  predicate CutsAtFirst(s: string, sep: string, parts: seq<string>)
    decreases |parts|
  {
    && SplitsAt(s, sep, parts)
    && (|parts| > 1 ==> CutsAtFirst(s[|parts[0]| + |sep|..], sep, parts[1..]))
  }

  /** Cutting at first occurrences leaves no choice: the pieces are
      determined by the string and the separator. */
  lemma {:induction false} CutsAtFirstUnique(s: string, sep: string, p: seq<string>, q: seq<string>)
    requires sep != ""
    requires CutsAtFirst(s, sep, p) && CutsAtFirst(s, sep, q)
    ensures p == q
    decreases |p|
  {
    if |p| == 1 || |q| == 1 {
      assert |p| == 1 && |q| == 1;
      assert p[0] <= s && q[0] <= s;
    } else {
      assert |p[0]| == |q[0]|;
      assert p[0] == q[0];
      CutsAtFirstUnique(s[|p[0]| + |sep|..], sep, p[1..], q[1..]);
      assert p == [p[0]] + p[1..] && q == [q[0]] + q[1..];
    }
  }

  /** One step of `Split`: the piece before the first separator, then a
      correct splitting of what follows it. */
  lemma SplitStep(s: string, sep: string, i: nat, rest: seq<string>)
    requires sep != ""
    requires OccursAt(s, sep, i)
    requires forall j: nat :: j < i ==> !OccursAt(s, sep, j)
    requires SplitsAt(s[i + |sep|..], sep, rest)
    ensures SplitsAt(s, sep, [s[..i]] + rest)
  {
    var tail := s[i + |sep|..];
    var parts := [s[..i]] + rest;
    NoOccurrenceInPrefix(s, sep, i);
    assert parts[0] == s[..i] && parts[1..] == rest;
    assert Join(parts, sep) == s[..i] + sep + Join(rest, sep);
    assert s == s[..i] + sep + tail;
    assert forall k | 1 <= k < |parts| :: parts[k] == rest[k - 1];
    assert Includes(s, sep) by { assert OccursAt(s, sep, i); }
  }

  /** `s.split(sep)` for a non-empty separator: the pieces of `s` between
      successive occurrences of `sep`, scanning left to right. */
  function Split(s: string, sep: string): (parts: seq<string>)
    requires sep != ""
    ensures SplitsAt(s, sep, parts)
    ensures CutsAtFirst(s, sep, parts)
    decreases |s|
  {
    match IndexOf(s, sep)
    case None => [s]
    case Some(i) =>
      var rest := Split(s[i + |sep|..], sep);
      SplitStep(s, sep, i, rest);
      var parts := [s[..i]] + rest;
      assert parts[1..] == rest && |parts[0]| == i;
      parts
  }

  /** The character for a decimal digit. */
  function DigitChar(d: nat): (c: char)
    requires d < 10
    ensures '0' <= c <= '9'
  {
    (('0' as int) + d) as char
  }

  predicate IsDigits(s: string)
  {
    forall k | 0 <= k < |s| :: '0' <= s[k] <= '9'
  }

  /** `n.toString()` for a non-negative integer: its decimal digits, most
      significant first, with no leading zero. */
  function DecimalString(n: nat): (r: string)
    ensures |r| >= 1 && IsDigits(r)
    ensures |r| > 1 ==> r[0] != '0'
  {
    if n < 10 then [DigitChar(n)]
    else DecimalString(n / 10) + [DigitChar(n % 10)]
  }

  /** The value of a string of decimal digits (an independent reading of
      what `DecimalString` writes). */
  function ParseDecimal(s: string): nat
    requires IsDigits(s)
  {
    if s == [] then 0
    else ParseDecimal(s[..|s| - 1]) * 10 + ((s[|s| - 1] as int) - ('0' as int))
  }

  lemma {:induction false} DecimalRoundTrip(n: nat)
    ensures ParseDecimal(DecimalString(n)) == n
  {
    if n >= 10 {
      var r := DecimalString(n);
      assert r[..|r| - 1] == DecimalString(n / 10);
      DecimalRoundTrip(n / 10);
    }
  }

  /** Distinct clock readings give distinct decimal strings. */
  lemma DecimalInjective(a: nat, b: nat)
    ensures DecimalString(a) == DecimalString(b) ==> a == b
  {
    DecimalRoundTrip(a);
    DecimalRoundTrip(b);
  }
}
