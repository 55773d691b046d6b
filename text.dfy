/** Decimal digits, zero padding and the string operations the three programs share. */
module Text {

  predicate IsDigit(c: char) {
    '0' <= c <= '9'
  }

  predicate AllDigits(s: string) {
    forall i :: 0 <= i < |s| ==> IsDigit(s[i])
  }

  function DigitChar(d: nat): (c: char)
    requires d < 10
    ensures IsDigit(c) && c as int - '0' as int == d
  {
    ('0' as int + d) as char
  }

  /** `String(n)` for a non-negative integer: its decimal digits, no leading zero. */
  function NatToString(n: nat): (s: string)
    ensures |s| >= 1 && AllDigits(s)
  {
    if n < 10 then [DigitChar(n)] else NatToString(n / 10) + [DigitChar(n % 10)]
  }

  /** `parseInt(s, 10)` on a string made only of decimal digits. */
  function DecimalValue(s: string): nat
    requires AllDigits(s)
  {
    if s == [] then 0 else DecimalValue(s[..|s| - 1]) * 10 + (s[|s| - 1] as int - '0' as int)
  }

  /** Parsing the decimal rendering of `n` gives `n` back. */
  lemma {:induction false} DecimalValueOfNatToString(n: nat)
    ensures DecimalValue(NatToString(n)) == n
  {
    if n >= 10 {
      var s := NatToString(n);
      assert s[..|s| - 1] == NatToString(n / 10);
      DecimalValueOfNatToString(n / 10);
    }
  }

  /** The rendering has one digit below 10 and at most two below 100. */
  lemma {:induction false} NatToStringLength(n: nat)
    ensures |NatToString(n)| == 1 <==> n < 10
    ensures |NatToString(n)| <= 2 <==> n < 100
  {
    if n >= 10 {
      NatToStringLength(n / 10);
    }
  }

  /** A leading zero does not change the value of a digit string. */
  lemma {:induction false} DecimalValueLeadingZero(s: string)
    requires AllDigits(s)
    ensures AllDigits("0" + s) && DecimalValue("0" + s) == DecimalValue(s)
  {
    if s != [] {
      var t := "0" + s;
      assert t[..|t| - 1] == "0" + s[..|s| - 1];
      DecimalValueLeadingZero(s[..|s| - 1]);
    }
  }

  /** `String(n).padStart(2, '0')`: two digits for n below 100, all of n's digits from 100 on. */
  function Pad2(n: nat): (s: string)
    ensures AllDigits(s) && DecimalValue(s) == n
    ensures |s| == 2 <==> n < 100
    ensures |s| >= 2
  {
    NatToStringLength(n);
    DecimalValueOfNatToString(n);
    if n < 10 then
      DecimalValueLeadingZero(NatToString(n));
      "0" + NatToString(n)
    else
      NatToString(n)
  }

  /** Two digits are worth less than 100. */
  lemma TwoDigitValue(s: string)
    requires |s| == 2 && AllDigits(s)
    ensures DecimalValue(s) < 100
  {
    var first := s[..1];
    assert first[..0] == [];
    assert DecimalValue(first) == first[0] as int - '0' as int;
    assert DecimalValue(s) == DecimalValue(first) * 10 + (s[1] as int - '0' as int);
  }

  predicate EndsWith(s: string, suffix: string) {
    |suffix| <= |s| && s[|s| - |suffix|..] == suffix
  }

  predicate OccursAt(s: string, pat: string, i: nat) {
    i + |pat| <= |s| && s[i..i + |pat|] == pat
  }

  /** `pat` occurs somewhere in `s`. */
  predicate Contains(s: string, pat: string) {
    exists i: nat :: i <= |s| && OccursAt(s, pat, i)
  }

  /** A suffix occurs in the string, and an occurrence survives anything appended after it. */
  lemma ContainsKept(s: string, pat: string, tail: string)
    ensures EndsWith(s, pat) ==> Contains(s, pat)
    ensures Contains(s, pat) ==> Contains(s + tail, pat)
  {
    if EndsWith(s, pat) {
      assert OccursAt(s, pat, |s| - |pat|);
    }
    if Contains(s, pat) {
      var i: nat :| i <= |s| && OccursAt(s, pat, i);
      assert (s + tail)[i..i + |pat|] == s[i..i + |pat|];
      assert OccursAt(s + tail, pat, i);
    }
  }

  /** Appending to a string keeps its prefixes and the places where a pattern occurs. */
  lemma OccursKept(s: string, pat: string, i: nat, tail: string)
    requires OccursAt(s, pat, i)
    ensures OccursAt(s + tail, pat, i)
    ensures (s + tail)[..i] == s[..i]
  {
    assert (s + tail)[i..i + |pat|] == s[i..i + |pat|];
  }

  /** What occurs in a slice occurs in the whole string, shifted by the slice's start. */
  lemma ContainsInSlice(s: string, lo: nat, hi: nat, pat: string)
    requires lo <= hi <= |s| && Contains(s[lo..hi], pat)
    ensures Contains(s, pat)
  {
    var i: nat :| i <= |s[lo..hi]| && OccursAt(s[lo..hi], pat, i);
    assert lo + i + |pat| <= hi;
    forall k | 0 <= k < |pat|
      ensures s[lo + i..lo + i + |pat|][k] == pat[k]
    {
      assert s[lo..hi][i..i + |pat|][k] == pat[k];
    }
    assert OccursAt(s, pat, lo + i);
  }

  /** A string occurs in anything that wraps it. */
  lemma ContainsWrapped(head: string, pat: string, tail: string)
    ensures Contains(head + pat + tail, pat)
  {
    var s := head + pat + tail;
    assert s[|head|..|head| + |pat|] == pat;
    assert OccursAt(s, pat, |head|);
  }

  /** The first index at which `pat` occurs in `s`, if any. */
  function FirstOccurrence(s: string, pat: string): (r: Option<nat>)
    ensures r.None? ==> forall i: nat :: !OccursAt(s, pat, i)
    ensures r.Some? ==> OccursAt(s, pat, r.value) && forall j: nat :: j < r.value ==> !OccursAt(s, pat, j)
  {
    if |s| < |pat| then
      None
    else if s[..|pat|] == pat then
      Some(0)
    else
      var rest := FirstOccurrence(s[1..], pat);
      assert forall i: nat :: 1 <= i ==> (OccursAt(s, pat, i) <==> OccursAt(s[1..], pat, i - 1)) by {
        forall i: nat | 1 <= i ensures OccursAt(s, pat, i) <==> OccursAt(s[1..], pat, i - 1) {
          if i + |pat| <= |s| {
            assert s[1..][i - 1..i - 1 + |pat|] == s[i..i + |pat|];
          }
        }
      }
      match rest
      case None => None
      case Some(k) => Some(k + 1)
  }

  /** `s.replace(pat, rep)` with a string pattern: only the first occurrence is replaced. */
  function ReplaceFirst(s: string, pat: string, rep: string): (r: string)
    ensures FirstOccurrence(s, pat).None? ==> r == s
    ensures FirstOccurrence(s, pat).Some? ==>
      var i := FirstOccurrence(s, pat).value;
      r == s[..i] + rep + s[i + |pat|..]
  {
    match FirstOccurrence(s, pat)
    case None => s
    case Some(i) => s[..i] + rep + s[i + |pat|..]
  }

  /**
   * `^\d{6}_\d{6}_chunk\d{2}\.webm$`: the chunk file name `YYMMDD_HHMMSS_chunkNN.webm`
   * that the recorder produces and the server parses.
   */
  predicate IsChunkFileName(s: string) {
    && |s| == 26
    && AllDigits(s[..6]) && s[6] == '_' && AllDigits(s[7..13])
    && s[13..19] == "_chunk" && AllDigits(s[19..21]) && s[21..] == ".webm"
  }

  datatype Option<+T> = None | Some(value: T)
}
