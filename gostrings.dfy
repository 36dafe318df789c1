/**
 * Sequence-level models of the three Go standard-library string helpers the
 * binding code relies on: strings.Contains, strings.ReplaceAll and
 * strconv.FormatInt(_, 10). A Go string is modelled as a seq<char> holding one
 * char per rune.
 */
module GoStrings {

  datatype Option<T> = None | Some(value: T)

  /** True when t occurs in s starting at position i. */
  ghost predicate OccursAt(s: string, t: string, i: int) {
    0 <= i && i + |t| <= |s| && s[i..i + |t|] == t
  }

  // ---------------------------------------------------------------------------
  // strings.Contains
  // ---------------------------------------------------------------------------

  /** strings.Contains(s, t): a left-to-right scan for t; the empty string occurs everywhere. */
  function Contains(s: string, t: string): bool
    decreases |s|
  {
    if t <= s then true
    else if s == [] then false
    else Contains(s[1..], t)
  }

  /** The scan finds t exactly when t occurs somewhere in s. */
  lemma {:induction false} ContainsIff(s: string, t: string)
    ensures Contains(s, t) <==> exists i :: OccursAt(s, t, i)
    decreases |s|
  {
    assert |t| > |s| || s[0..|t|] == s[..|t|];
    if t <= s {
      assert OccursAt(s, t, 0);
    } else if s == [] {
      assert |t| > 0;
    } else {
      ContainsIff(s[1..], t);
      forall i | 0 < i && i + |t| <= |s|
        ensures OccursAt(s, t, i) <==> OccursAt(s[1..], t, i - 1)
      {
        assert s[1..][i - 1..i - 1 + |t|] == s[i..i + |t|];
      }
      assert Contains(s[1..], t) ==> exists i :: OccursAt(s, t, i) by {
        if Contains(s[1..], t) {
          var j :| OccursAt(s[1..], t, j);
          assert OccursAt(s, t, j + 1);
        }
      }
    }
  }

  // ---------------------------------------------------------------------------
  // strings.ReplaceAll
  // ---------------------------------------------------------------------------

  /**
   * strings.ReplaceAll(s, pat, rep): every non-overlapping occurrence of pat,
   * found left to right, is replaced by rep. For an empty pat, Go inserts rep
   * before every rune and once at the end.
   */
  function ReplaceAll(s: string, pat: string, rep: string): string
    decreases |s|
  {
    if pat == [] then
      (if s == [] then rep else rep + [s[0]] + ReplaceAll(s[1..], pat, rep))
    else if pat <= s then
      rep + ReplaceAll(s[|pat|..], pat, rep)
    else if s == [] then
      []
    else
      [s[0]] + ReplaceAll(s[1..], pat, rep)
  }

  /** A string that does not contain pat is returned unchanged (Go's early return when Count is 0). */
  lemma {:induction false} ReplaceAbsent(s: string, pat: string, rep: string)
    requires !Contains(s, pat)
    ensures ReplaceAll(s, pat, rep) == s
    decreases |s|
  {
    if s != [] {
      assert !(pat <= s);
      ReplaceAbsent(s[1..], pat, rep);
      assert [s[0]] + s[1..] == s;
    }
  }

  /** Replacing a string by itself changes nothing (Go's early return when pat == rep). */
  lemma {:induction false} ReplaceWithSelf(s: string, t: string)
    ensures ReplaceAll(s, t, t) == s
    decreases |s|
  {
    if t == [] {
      if s != [] {
        ReplaceWithSelf(s[1..], t);
        assert [s[0]] + s[1..] == s;
      }
    } else if t <= s {
      ReplaceWithSelf(s[|t|..], t);
      assert s[..|t|] + s[|t|..] == s;
    } else if s != [] {
      ReplaceWithSelf(s[1..], t);
      assert [s[0]] + s[1..] == s;
    }
  }

  /**
   * Left-to-right, non-overlapping replacement: when the first occurrence of a
   * non-empty pat in s = a + pat + b starts right after a, the result is a,
   * then rep, then the replacement applied to the rest b only.
   */
  lemma {:induction false} ReplaceFirstOccurrence(a: string, pat: string, b: string, rep: string)
    requires pat != []
    requires forall i :: 0 <= i < |a| ==> !OccursAt(a + pat + b, pat, i)
    ensures ReplaceAll(a + pat + b, pat, rep) == a + rep + ReplaceAll(b, pat, rep)
    decreases |a|
  {
    var s := a + pat + b;
    if a == [] {
      assert s == pat + b;
      assert s[..|pat|] == pat;
      assert s[|pat|..] == b;
    } else {
      assert !OccursAt(s, pat, 0);
      assert s[0..|pat|] == s[..|pat|];
      assert !(pat <= s);
      var a' := a[1..];
      assert s[1..] == a' + pat + b;
      forall i | 0 <= i < |a'| ensures !OccursAt(a' + pat + b, pat, i) {
        assert !OccursAt(s, pat, i + 1);
        assert (a' + pat + b)[i..i + |pat|] == s[i + 1..i + 1 + |pat|];
      }
      ReplaceFirstOccurrence(a', pat, b, rep);
      calc {
        ReplaceAll(s, pat, rep);
        [s[0]] + ReplaceAll(s[1..], pat, rep);
        [s[0]] + (a' + rep + ReplaceAll(b, pat, rep));
        { assert [s[0]] + a' == a; }
        a + rep + ReplaceAll(b, pat, rep);
      }
    }
  }

  /** A string consisting of exactly pat becomes exactly rep. */
  lemma ReplaceWhole(pat: string, rep: string)
    requires pat != []
    ensures ReplaceAll(pat, pat, rep) == rep
  {
    ReplaceFirstOccurrence([], pat, [], rep);
    assert [] + pat + [] == pat;
  }

  // ---------------------------------------------------------------------------
  // strconv.FormatInt(n, 10), with a decimal parser as its inverse
  // ---------------------------------------------------------------------------

  const Digits: string := "0123456789"

  function DigitChar(d: int): (c: char)
    requires 0 <= d < 10
  {
    Digits[d]
  }

  /** The decimal digits of n, most significant first, with no leading zero. */
  function DecimalDigits(n: nat): string
    decreases n
  {
    if n < 10 then [DigitChar(n)] else DecimalDigits(n / 10) + [DigitChar(n % 10)]
  }

  /** strconv.FormatInt(n, 10): a leading '-' for negative numbers, then the digits of |n|. */
  function FormatInt(n: int): string {
    if n < 0 then "-" + DecimalDigits(-n) else DecimalDigits(n)
  }

  function DigitValue(c: char): Option<nat> {
    if '0' <= c <= '9' then Some((c as int - '0' as int) as nat) else None
  }

  /** The value of a non-empty string of decimal digits (leading zeros allowed), if it is one. */
  function ParseDigits(s: string): Option<nat>
    decreases |s|
  {
    if s == [] then None
    else
      var d := DigitValue(s[|s| - 1]);
      if d.None? then None
      else if |s| == 1 then Some(d.value)
      else
        var high := ParseDigits(s[..|s| - 1]);
        if high.None? then None else Some(high.value * 10 + d.value)
  }

  /** A decimal integer with an optional leading '-'. */
  function ParseInt(s: string): Option<int> {
    if |s| > 0 && s[0] == '-' then
      var m := ParseDigits(s[1..]);
      if m.None? then None else Some(-(m.value as int))
    else
      var m := ParseDigits(s);
      if m.None? then None else Some(m.value)
  }

  /** True when s is a canonical rendering: digits only, no leading zero unless s is "0". */
  ghost predicate IsCanonicalDigits(s: string) {
    && |s| > 0
    && (forall i :: 0 <= i < |s| ==> '0' <= s[i] <= '9')
    && (s[0] == '0' ==> |s| == 1)
  }

  lemma {:induction false} DecimalDigitsRoundTrip(n: nat)
    ensures ParseDigits(DecimalDigits(n)) == Some(n)
    ensures IsCanonicalDigits(DecimalDigits(n))
    ensures n > 0 ==> DecimalDigits(n)[0] != '0'
    decreases n
  {
    if n >= 10 {
      DecimalDigitsRoundTrip(n / 10);
      var s := DecimalDigits(n);
      assert s[..|s| - 1] == DecimalDigits(n / 10);
      assert s[0] == DecimalDigits(n / 10)[0];
    }
  }

  lemma ParseSigned(d: string, m: nat)
    requires ParseDigits(d) == Some(m)
    ensures ParseInt("-" + d) == Some(-(m as int))
  {
    var s := "-" + d;
    assert s[0] == '-' && s[1..] == d;
  }

  lemma ParseUnsigned(d: string, m: nat)
    requires ParseDigits(d) == Some(m) && IsCanonicalDigits(d)
    ensures ParseInt(d) == Some(m)
  {
    assert '0' <= d[0] <= '9';
  }

  /** FormatInt is canonical and ParseInt inverts it, so distinct numbers render differently. */
  lemma FormatIntRoundTrip(n: int)
    ensures ParseInt(FormatInt(n)) == Some(n)
    ensures n < 0 ==> FormatInt(n)[0] == '-' && IsCanonicalDigits(FormatInt(n)[1..])
    ensures n >= 0 ==> IsCanonicalDigits(FormatInt(n))
  {
    if n < 0 {
      var d := DecimalDigits(-n);
      DecimalDigitsRoundTrip(-n);
      ParseSigned(d, -n);
      assert FormatInt(n) == "-" + d;
      assert ("-" + d)[1..] == d;
    } else {
      DecimalDigitsRoundTrip(n);
      ParseUnsigned(DecimalDigits(n), n);
    }
  }

  lemma FormatIntInjective(m: int, n: int)
    requires FormatInt(m) == FormatInt(n)
    ensures m == n
  {
    FormatIntRoundTrip(m);
    FormatIntRoundTrip(n);
  }
}
