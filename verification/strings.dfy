/** The string operations of Python's `str` that the gateway relies on, written out on
    `seq<char>`: ASCII case folding, prefix and substring tests, `split`/`join`/`replace`,
    `strip` over Python's whitespace set, and decimal digits. */
module Strings {
  import opened Wrappers

  // ---------------------------------------------------------------------------
  // Case folding (ASCII letters only)

  function LowerChar(c: char): char {
    if 'A' <= c <= 'Z' then (c as int + 32) as char else c
  }

  /** `str.lower()` restricted to ASCII letters. */
  function Lower(s: string): (r: string)
    ensures |r| == |s|
    ensures forall i :: 0 <= i < |s| ==> r[i] == LowerChar(s[i])
  {
    if s == [] then [] else [LowerChar(s[0])] + Lower(s[1..])
  }

  /** Python truthiness of an optional string: present and non-empty. */
  predicate Truthy(s: Option<string>) {
    s.Some? && s.value != ""
  }

  /** A string without upper-case ASCII letters is its own lower case. */
  lemma {:induction false} LowerFixed(s: string)
    requires forall i :: 0 <= i < |s| ==> !('A' <= s[i] <= 'Z')
    ensures Lower(s) == s
  {
    assert forall i :: 0 <= i < |s| ==> Lower(s)[i] == s[i];
  }

  /** Lower-casing twice is lower-casing once. */
  lemma {:induction false} LowerIdempotent(s: string)
    ensures Lower(Lower(s)) == Lower(s)
  {
    var l := Lower(s);
    assert forall i :: 0 <= i < |l| ==> Lower(l)[i] == l[i];
  }

  // ---------------------------------------------------------------------------
  // Prefixes and occurrences

  /** `s.startswith(p)`. */
  predicate StartsWith(s: string, p: string) {
    |p| <= |s| && s[..|p|] == p
  }

  /** `p` occurs in `s` starting at index `i`. */
  predicate OccursAt(s: string, p: string, i: nat) {
    i + |p| <= |s| && s[i..i + |p|] == p
  }

  lemma {:induction false} OccursAtTail(s: string, p: string, j: nat)
    requires |s| > 0
    ensures OccursAt(s, p, j + 1) <==> OccursAt(s[1..], p, j)
  {
    if j + 1 + |p| <= |s| {
      assert s[1..][j..j + |p|] == s[j + 1..j + 1 + |p|];
    }
  }

  /** The index of the leftmost occurrence of `p` in `s` (`s.find(p)` when not -1). */
  function IndexOf(s: string, p: string): (r: Option<nat>)
    ensures r.Some? ==> OccursAt(s, p, r.value)
    ensures r.Some? ==> forall j: nat :: j < r.value ==> !OccursAt(s, p, j)
    ensures r.None? ==> forall j: nat :: !OccursAt(s, p, j)
    decreases |s|
  {
    if |s| < |p| then None
    else if s[..|p|] == p then Some(0)
    else
      var rest := IndexOf(s[1..], p);
      assert forall j: nat :: OccursAt(s, p, j + 1) <==> OccursAt(s[1..], p, j) by {
        forall j: nat ensures OccursAt(s, p, j + 1) <==> OccursAt(s[1..], p, j) {
          OccursAtTail(s, p, j);
        }
      }
      match rest
      case None =>
        assert forall j: nat :: !OccursAt(s, p, j) by {
          forall j: nat ensures !OccursAt(s, p, j) {
            if j > 0 { assert !OccursAt(s[1..], p, j - 1); }
          }
        }
        None
      case Some(k) =>
        assert forall j: nat :: j < k + 1 ==> !OccursAt(s, p, j) by {
          forall j: nat | j < k + 1 ensures !OccursAt(s, p, j) {
            if j > 0 { assert !OccursAt(s[1..], p, j - 1); }
          }
        }
        Some(k + 1)
  }

  /** `p in s`. */
  predicate Contains(s: string, p: string) {
    IndexOf(s, p).Some?
  }

  lemma {:induction false} ContainsAt(s: string, p: string, i: nat)
    requires OccursAt(s, p, i)
    ensures Contains(s, p)
  {
  }

  lemma {:induction false} NotContains(s: string, p: string, i: nat)
    requires !Contains(s, p)
    ensures !OccursAt(s, p, i)
  {
  }

  // ---------------------------------------------------------------------------
  // split / join / replace

  /** `s.split(sep)` for a non-empty separator: the pieces between leftmost,
      non-overlapping occurrences of `sep`. */
  function Split(s: string, sep: string): (parts: seq<string>)
    requires |sep| > 0
    ensures |parts| >= 1
    decreases |s|
  {
    match IndexOf(s, sep)
    case None => [s]
    case Some(i) => [s[..i]] + Split(s[i + |sep|..], sep)
  }

  /** `sep.join(parts)`. */
  function Join(parts: seq<string>, sep: string): string {
    if |parts| == 0 then ""
    else if |parts| == 1 then parts[0]
    else parts[0] + sep + Join(parts[1..], sep)
  }

  lemma {:induction false} JoinCons(a: string, t: seq<string>, sep: string)
    requires |t| >= 1
    ensures Join([a] + t, sep) == a + sep + Join(t, sep)
  {
    assert ([a] + t)[1..] == t;
  }

  lemma {:induction false} JoinSnoc(t: seq<string>, a: string, sep: string)
    requires |t| >= 1
    ensures Join(t + [a], sep) == Join(t, sep) + sep + a
    decreases |t|
  {
    if |t| == 1 {
      assert (t + [a])[1..] == [a];
    } else {
      assert (t + [a])[1..] == t[1..] + [a];
      JoinSnoc(t[1..], a, sep);
    }
  }

  /** Splitting at a separator and joining with the same separator gives back the string. */
  lemma {:induction false} JoinSplit(s: string, sep: string)
    requires |sep| > 0
    ensures Join(Split(s, sep), sep) == s
    decreases |s|
  {
    var r := IndexOf(s, sep);
    if r.Some? {
      var i := r.value;
      var rest := s[i + |sep|..];
      assert Split(s, sep) == [s[..i]] + Split(rest, sep);
      JoinSplit(rest, sep);
      JoinCons(s[..i], Split(rest, sep), sep);
      assert s[i..i + |sep|] == sep;
      assert s == s[..i] + s[i..i + |sep|] + rest;
    }
  }

  /** No piece produced by `Split` contains the separator. */
  lemma {:induction false} SplitPiecesAvoidSep(s: string, sep: string, k: nat)
    requires |sep| > 0
    requires k < |Split(s, sep)|
    ensures !Contains(Split(s, sep)[k], sep)
    decreases |s|
  {
    match IndexOf(s, sep)
    case None =>
    case Some(i) =>
      var rest := s[i + |sep|..];
      if k == 0 {
        var piece := s[..i];
        assert Split(s, sep)[0] == piece;
        forall j: nat ensures !OccursAt(piece, sep, j) {
          if j + |sep| <= |piece| {
            assert piece[j..j + |sep|] == s[j..j + |sep|];
            assert j < IndexOf(s, sep).value;
            assert !OccursAt(s, sep, j);
            assert !OccursAt(piece, sep, j);
          }
        }
      } else {
        assert Split(s, sep)[k] == Split(rest, sep)[k - 1];
        SplitPiecesAvoidSep(rest, sep, k - 1);
      }
  }

  /** `s.replace(pat, rep)` for a non-empty `pat`; Python defines it as
      `rep.join(s.split(pat))`. */
  function ReplaceAll(s: string, pat: string, rep: string): string
    requires |pat| > 0
  {
    Join(Split(s, pat), rep)
  }

  /** Replacing something absent changes nothing. */
  lemma {:induction false} ReplaceAllAbsent(s: string, pat: string, rep: string)
    requires |pat| > 0
    requires !Contains(s, pat)
    ensures ReplaceAll(s, pat, rep) == s
  {
  }

  /** The last piece of `s.split(sep)` is what follows the last separator: `s` is an
      optional prefix ending in `sep`, then that piece. */
  lemma {:induction false} SplitLast(s: string, sep: string)
    requires |sep| > 0
    ensures var parts := Split(s, sep);
      var last := parts[|parts| - 1];
      && !Contains(last, sep)
      && (|parts| == 1 ==> last == s)
      && (|parts| > 1 ==> s == Join(parts[..|parts| - 1], sep) + sep + last)
  {
    var parts := Split(s, sep);
    SplitPiecesAvoidSep(s, sep, |parts| - 1);
    JoinSplit(s, sep);
    if |parts| > 1 {
      assert parts == parts[..|parts| - 1] + [parts[|parts| - 1]];
      JoinSnoc(parts[..|parts| - 1], parts[|parts| - 1], sep);
    }
  }

  /** `s.split(sep)` has more than one piece exactly when `sep` occurs in `s`. */
  lemma {:induction false} SplitMany(s: string, sep: string)
    requires |sep| > 0
    ensures |Split(s, sep)| > 1 <==> Contains(s, sep)
  {
  }

  /** `repr(xs)` for a list of strings that need no escaping: `['a', 'b']`. */
  function ListRepr(xs: seq<string>): string {
    "[" + Join(QuoteAll(xs), ", ") + "]"
  }

  function QuoteAll(xs: seq<string>): (r: seq<string>)
    ensures |r| == |xs|
    ensures forall i :: 0 <= i < |xs| ==> r[i] == "'" + xs[i] + "'"
  {
    if xs == [] then [] else ["'" + xs[0] + "'"] + QuoteAll(xs[1..])
  }

  // ---------------------------------------------------------------------------
  // Whitespace (the characters for which Python's `str.isspace()` holds)

  predicate IsSpace(c: char) {
    || ('\t' <= c <= '\r')
    || ('\U{1c}' <= c <= ' ')
    || c == '\U{85}' || c == '\U{a0}' || c == '\U{1680}'
    || ('\U{2000}' <= c <= '\U{200a}')
    || c == '\U{2028}' || c == '\U{2029}' || c == '\U{202f}' || c == '\U{205f}' || c == '\U{3000}'
  }

  function StripLeft(s: string): (r: string)
    ensures |r| <= |s| && r == s[|s| - |r|..]
    ensures r == [] || !IsSpace(r[0])
    ensures forall i :: 0 <= i < |s| - |r| ==> IsSpace(s[i])
  {
    if |s| > 0 && IsSpace(s[0]) then StripLeft(s[1..]) else s
  }

  function StripRight(s: string): (r: string)
    ensures |r| <= |s| && r == s[..|r|]
    ensures r == [] || !IsSpace(r[|r| - 1])
    ensures forall i :: |r| <= i < |s| ==> IsSpace(s[i])
  {
    if |s| > 0 && IsSpace(s[|s| - 1]) then StripRight(s[..|s| - 1]) else s
  }

  /** `s.strip()`: the longest slice without whitespace at either end. */
  function Strip(s: string): string {
    StripRight(StripLeft(s))
  }

  /** A string with no whitespace at either end is its own `strip()`. */
  lemma {:induction false} StripUnspaced(s: string)
    requires |s| > 0 && !IsSpace(s[0]) && !IsSpace(s[|s| - 1])
    ensures Strip(s) == s
  {
  }

  // ---------------------------------------------------------------------------
  // Decimal digits

  predicate IsDigit(c: char) {
    '0' <= c <= '9'
  }

  predicate AllDigits(s: string) {
    forall i :: 0 <= i < |s| ==> IsDigit(s[i])
  }

  /** The value of a run of decimal digits (`int(s)` for such a run). */
  function DigitsValue(s: string): nat
    requires AllDigits(s)
  {
    if s == [] then 0 else DigitsValue(s[..|s| - 1]) * 10 + (s[|s| - 1] as int - '0' as int)
  }

  function DigitChar(d: nat): (c: char)
    requires d < 10
    ensures IsDigit(c)
  {
    ('0' as int + d) as char
  }

  /** `str(n)` for a natural number. */
  function NatToString(n: nat): (r: string)
    ensures |r| > 0 && AllDigits(r)
    ensures DigitsValue(r) == n
  {
    if n < 10 then [DigitChar(n)]
    else
      var r := NatToString(n / 10) + [DigitChar(n % 10)];
      assert r[..|r| - 1] == NatToString(n / 10);
      r
  }

  /** `str(i)` for an integer. */
  function IntToString(i: int): string {
    if i < 0 then "-" + NatToString(-i) else NatToString(i)
  }
}
