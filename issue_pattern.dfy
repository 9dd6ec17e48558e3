/** The issue-reference pattern `[#](\d+)` that both plugin versions compile,
    as a left-to-right scanner: a match is a `#` immediately followed by a
    maximal run of ASCII digits, with no word-boundary check, and the next
    search resumes where the previous match ended. Group 1 (the digit run) is
    read with `Integer.parseInt`. */
module IssuePattern {
  import opened Java

  predicate IsDigit(c: char) { '0' <= c <= '9' }

  predicate AllDigits(d: string) { forall i | 0 <= i < |d| :: IsDigit(d[i]) }

  function DigitValue(c: char): nat
    requires IsDigit(c)
  {
    c as int - '0' as int
  }

  function DigitChar(v: nat): char
    requires v < 10
  {
    ('0' as int + v) as char
  }

  /** The decimal value of a digit run; leading zeros add nothing. */
  function Value(d: string): nat
    requires AllDigits(d)
  {
    if d == [] then 0 else 10 * Value(d[..|d| - 1]) + DigitValue(d[|d| - 1])
  }

  /** `Integer.toString` of a non-negative number: its canonical decimal form. */
  function DecimalString(n: nat): (s: string)
    ensures |s| > 0 && AllDigits(s)
    ensures Value(s) == n
    ensures |s| > 1 ==> s[0] != '0'
  {
    if n < 10 then [DigitChar(n)]
    else
      var p := DecimalString(n / 10);
      var s := p + [DigitChar(n % 10)];
      assert s[..|s| - 1] == p;
      s
  }

  /** A match of `[#](\d+)` occupies `s[i..e]`: a `#`, then a digit run that
      cannot be extended to the right. */
  predicate IsMatch(s: string, i: nat, e: nat)
  {
    i + 1 < e <= |s| && s[i] == '#' && AllDigits(s[i + 1..e]) && (e == |s| || !IsDigit(s[e]))
  }

  /** The end of the digit run that starts at `i`. */
  function RunEnd(s: string, i: nat): (e: nat)
    requires i <= |s|
    ensures i <= e <= |s|
    ensures AllDigits(s[i..e])
    ensures e == |s| || !IsDigit(s[e])
    decreases |s| - i
  {
    if i < |s| && IsDigit(s[i]) then
      var e := RunEnd(s, i + 1);
      assert s[i..e] == [s[i]] + s[i + 1..e];
      e
    else i
  }

  /** The issue numbers of the successive matches `matcher.find()` reports
      when started at position `p`, in order. */
  function RefsFrom(s: string, p: nat): seq<nat>
    requires p <= |s|
    decreases |s| - p
  {
    if p + 1 >= |s| then []
    else if s[p] == '#' && IsDigit(s[p + 1]) then
      var e := RunEnd(s, p + 1);
      [Value(s[p + 1..e])] + RefsFrom(s, e)
    else RefsFrom(s, p + 1)
  }

  /** The issue numbers referenced by one commit message, one per match. */
  function Refs(msg: string): seq<nat>
  {
    RefsFrom(msg, 0)
  }

  /** Every issue number a run of messages references fits in an `Integer`,
      so `Integer.parseInt` accepts every match. */
  predicate Fits(msgs: seq<string>)
  {
    forall j, k | 0 <= j < |msgs| && k in Refs(msgs[j]) :: k <= MaxInt
  }

  /** Some message of the run references issue `k`. */
  predicate Referenced(msgs: seq<string>, k: nat)
  {
    exists j | 0 <= j < |msgs| :: k in Refs(msgs[j])
  }

  /** A run references `k` iff its messages before the last do, or its
      last message does. */
  lemma ReferencedSnoc(msgs: seq<string>, k: nat)
    requires msgs != []
    ensures Referenced(msgs, k) <==> Referenced(msgs[..|msgs| - 1], k) || k in Refs(msgs[|msgs| - 1])
  {
    var n := |msgs| - 1;
    if Referenced(msgs, k) {
      var j :| 0 <= j < |msgs| && k in Refs(msgs[j]);
      if j < n {
        assert msgs[..n][j] == msgs[j];
      }
    }
    if Referenced(msgs[..n], k) {
      var j :| 0 <= j < n && k in Refs(msgs[..n][j]);
      assert msgs[j] == msgs[..n][j];
    }
  }

  // ---------------------------------------------------------------------
  // Properties of the digit reading

  /** A leading zero does not change the value, so `#007` and `#7` name the
      same issue. */
  lemma {:induction false} LeadingZero(d: string)
    requires AllDigits(d)
    ensures AllDigits("0" + d) && Value("0" + d) == Value(d)
  {
    if d != [] {
      var z := "0" + d;
      assert z[..|z| - 1] == "0" + d[..|d| - 1];
      LeadingZero(d[..|d| - 1]);
    }
  }

  /** Reading more digits never makes the value smaller. */
  lemma {:induction false} PrefixValue(d: string, n: nat)
    requires AllDigits(d) && n <= |d|
    ensures Value(d[..n]) <= Value(d)
    decreases |d|
  {
    if n < |d| {
      var p := d[..|d| - 1];
      assert d[..n] == p[..n];
      assert Value(d) == 10 * Value(p) + DigitValue(d[|d| - 1]);
      PrefixValue(p, n);
    } else {
      assert d[..n] == d;
    }
  }

  /** The canonical decimal form of a digit run's value is a suffix of that
      run: stripping leading zeros is all `Integer.toString(parseInt(d))`
      changes. */
  lemma {:induction false} CanonicalSuffix(d: string)
    requires |d| > 0 && AllDigits(d)
    ensures |DecimalString(Value(d))| <= |d|
    ensures d[|d| - |DecimalString(Value(d))|..] == DecimalString(Value(d))
  {
    var p, c := d[..|d| - 1], d[|d| - 1];
    assert d == p + [c];
    assert DigitChar(DigitValue(c)) == c;
    if Value(d) < 10 {
      assert DecimalString(Value(d)) == [c];
    } else {
      LastDigit(Value(p), DigitValue(c));
      CanonicalSuffix(p);
      var t := DecimalString(Value(p));
      assert DecimalString(Value(d)) == t + [c];
      SuffixSnoc(p, t, c);
    }
  }

  /** Appending a digit `r` to a number `v` is undone by `/ 10` and `% 10`. */
  lemma LastDigit(v: nat, r: nat)
    requires r < 10
    ensures (10 * v + r) / 10 == v && (10 * v + r) % 10 == r
  {
  }

  /** A suffix stays a suffix when the same character is appended to both. */
  lemma SuffixSnoc(p: string, t: string, c: char)
    requires |t| <= |p| && p[|p| - |t|..] == t
    ensures (p + [c])[|p| - |t|..] == t + [c]
  {
  }

  // ---------------------------------------------------------------------
  // Properties of the scanner

  /** A digit run that is followed by a non-digit (or the end) ends where
      `RunEnd` says it does. */
  lemma {:induction false} RunEndUnique(s: string, i: nat, e: nat)
    requires i <= e <= |s| && AllDigits(s[i..e]) && (e == |s| || !IsDigit(s[e]))
    ensures RunEnd(s, i) == e
    decreases e - i
  {
    if i < e {
      assert s[i] == s[i..e][0];
      assert s[i + 1..e] == s[i..e][1..];
      RunEndUnique(s, i + 1, e);
    }
  }

  /** Some match of the pattern at or after `p` has the value `x`. */
  ghost predicate MatchFrom(s: string, p: nat, x: nat)
  {
    exists i: nat, e: nat :: p <= i && IsMatch(s, i, e) && x == Value(s[i + 1..e])
  }

  /** No match starts inside the digit run after a `#`. */
  lemma SkipRun(s: string, p: nat, x: nat)
    requires p + 1 < |s| && s[p] == '#' && IsDigit(s[p + 1])
    ensures MatchFrom(s, p, x) <==> x == Value(s[p + 1..RunEnd(s, p + 1)]) || MatchFrom(s, RunEnd(s, p + 1), x)
  {
    var e0 := RunEnd(s, p + 1);
    if MatchFrom(s, p, x) {
      var i: nat, e: nat :| p <= i && IsMatch(s, i, e) && x == Value(s[i + 1..e]);
      if i == p {
        RunEndUnique(s, p + 1, e);
      } else {
        assert e0 <= i;
      }
    }
    if x == Value(s[p + 1..e0]) {
      assert IsMatch(s, p, e0);
    } else if MatchFrom(s, e0, x) {
      var i: nat, e: nat :| e0 <= i && IsMatch(s, i, e) && x == Value(s[i + 1..e]);
      assert p <= i;
    }
  }

  /** No match starts at a position that is not a `#` followed by a digit. */
  lemma SkipChar(s: string, p: nat, x: nat)
    requires p + 1 < |s| && !(s[p] == '#' && IsDigit(s[p + 1]))
    ensures MatchFrom(s, p, x) <==> MatchFrom(s, p + 1, x)
  {
    if MatchFrom(s, p, x) {
      var i: nat, e: nat :| p <= i && IsMatch(s, i, e) && x == Value(s[i + 1..e]);
      assert p < i;
    }
  }

  /** The scanner reports exactly the matches of the pattern at or after `p`:
      a number is reported iff some `#` at or after `p` is followed by a
      maximal digit run with that value. */
  lemma {:induction false} RefsFromMatches(s: string, p: nat, x: nat)
    requires p <= |s|
    ensures x in RefsFrom(s, p) <==> MatchFrom(s, p, x)
    decreases |s| - p
  {
    if p + 1 >= |s| {
      assert !MatchFrom(s, p, x);
    } else if s[p] == '#' && IsDigit(s[p + 1]) {
      RefsFromMatches(s, RunEnd(s, p + 1), x);
      SkipRun(s, p, x);
    } else {
      RefsFromMatches(s, p + 1, x);
      SkipChar(s, p, x);
    }
  }

  /** A message references an issue iff it contains a match for it. */
  lemma RefsMatches(msg: string, x: nat)
    ensures x in Refs(msg) <==> exists i: nat, e: nat :: IsMatch(msg, i, e) && x == Value(msg[i + 1..e])
  {
    RefsFromMatches(msg, 0, x);
  }

  /** The messages of two runs can be parsed iff each run's can. */
  lemma FitsAppend(a: seq<string>, b: seq<string>)
    ensures Fits(a + b) <==> Fits(a) && Fits(b)
  {
    var ab := a + b;
    if Fits(a) && Fits(b) {
      forall j, k | 0 <= j < |ab| && k in Refs(ab[j]) ensures k <= MaxInt {
        if j < |a| { assert ab[j] == a[j]; } else { assert ab[j] == b[j - |a|]; }
      }
    }
    if Fits(ab) {
      forall j, k | 0 <= j < |a| && k in Refs(a[j]) ensures k <= MaxInt {
        assert ab[j] == a[j];
      }
      forall j, k | 0 <= j < |b| && k in Refs(b[j]) ensures k <= MaxInt {
        assert ab[|a| + j] == b[j];
      }
    }
  }

  // ---------------------------------------------------------------------
  // The matcher and Integer.parseInt

  /** `matcher.find()` resumed at `from`: the bounds of group 1 of the next
      match, if there is one. */
  method Find(s: string, from: nat) returns (found: bool, start: nat, end: nat)
    requires from <= |s|
    ensures found ==> from < start < end <= |s| && s[start - 1] == '#' && AllDigits(s[start..end])
    ensures found ==> RefsFrom(s, from) == [Value(s[start..end])] + RefsFrom(s, end)
    ensures !found ==> RefsFrom(s, from) == []
  {
    var i := from;
    while i + 1 < |s| && !(s[i] == '#' && IsDigit(s[i + 1]))
      invariant from <= i <= |s|
      invariant RefsFrom(s, from) == RefsFrom(s, i)
    {
      i := i + 1;
    }
    if i + 1 >= |s| {
      return false, 0, 0;
    }
    var j := i + 1;
    while j < |s| && IsDigit(s[j])
      invariant i + 1 <= j <= |s|
      invariant RunEnd(s, i + 1) == RunEnd(s, j)
    {
      j := j + 1;
    }
    found, start, end := true, i + 1, j;
  }

  /** `Integer.parseInt` on a digit run: the value, or NumberFormatException
      when the value exceeds `Integer.MAX_VALUE`. */
  method ParseInt(d: string) returns (r: Result<nat>)
    requires AllDigits(d)
    ensures r.Ok? <==> Value(d) <= MaxInt
    ensures r.Ok? ==> r.value == Value(d)
    ensures r.Err? ==> r.error == NumberFormat
  {
    var v := 0;
    var i := 0;
    while i < |d|
      invariant 0 <= i <= |d|
      invariant v == Value(d[..i]) <= MaxInt
    {
      assert d[..i + 1][..i] == d[..i];
      v := 10 * v + DigitValue(d[i]);
      i := i + 1;
      if v > MaxInt {
        PrefixValue(d, i);
        return Err(NumberFormat);
      }
    }
    assert d[..i] == d;
    return Ok(v);
  }
}
