/**
 * The JavaScript string built-ins the converter relies on. A Dafny `char` is
 * a Unicode scalar value, so a `string` here matches a JavaScript string
 * code unit for code unit only when all its characters lie in the Basic
 * Multilingual Plane:
 *   - `String.prototype.replace` with a string pattern (first occurrence only),
 *   - the template literal `${n}` for a non-negative integer counter,
 *   - `String.prototype.slice(start)`.
 */
module JsString {
  import opened Wrappers

  /** `pat` occurs in `s` starting at index `k`. */
  predicate OccursAt(s: string, pat: string, k: nat) {
    k + |pat| <= |s| && s[k..k + |pat|] == pat
  }

  lemma ShiftOccurrence(s: string, pat: string, j: nat)
    requires |s| > 0
    ensures OccursAt(s[1..], pat, j) <==> OccursAt(s, pat, j + 1)
  {
    if j + 1 + |pat| <= |s| {
      assert s[1..][j..j + |pat|] == s[j + 1..j + 1 + |pat|];
    }
  }

  /** No occurrence in the tail and none at 0 means none at all. */
  lemma ShiftNone(s: string, pat: string)
    requires |s| > 0 && !OccursAt(s, pat, 0)
    requires forall j :: 0 <= j <= |s[1..]| ==> !OccursAt(s[1..], pat, j)
    ensures forall j :: 0 <= j <= |s| ==> !OccursAt(s, pat, j)
  {
    forall j | 0 < j <= |s| ensures !OccursAt(s, pat, j) {
      ShiftOccurrence(s, pat, j - 1);
    }
  }

  /** The first occurrence in the tail, one place further on, is the first in `s`. */
  lemma ShiftSome(s: string, pat: string, k: nat)
    requires |s| > 0 && !OccursAt(s, pat, 0)
    requires OccursAt(s[1..], pat, k) && forall j :: 0 <= j < k ==> !OccursAt(s[1..], pat, j)
    ensures OccursAt(s, pat, k + 1) && forall j :: 0 <= j < k + 1 ==> !OccursAt(s, pat, j)
  {
    ShiftOccurrence(s, pat, k);
    forall j | 0 < j < k + 1 ensures !OccursAt(s, pat, j) {
      ShiftOccurrence(s, pat, j - 1);
    }
  }

  /** `s.indexOf(pat)`: the first index where `pat` occurs, `None` for -1. */
  function IndexOf(s: string, pat: string): (r: Option<nat>)
    ensures r.Some? ==> OccursAt(s, pat, r.value)
    ensures r.Some? ==> forall j :: 0 <= j < r.value ==> !OccursAt(s, pat, j)
    ensures r.None? ==> forall j :: 0 <= j <= |s| ==> !OccursAt(s, pat, j)
    decreases |s|
  {
    if OccursAt(s, pat, 0) then Some(0)
    else if s == [] then None
    else
      match IndexOf(s[1..], pat)
      case None => ShiftNone(s, pat); None
      case Some(k) => ShiftSome(s, pat, k); Some(k + 1)
  }

  /**
   * `s.replace(pat, rep)` with a string pattern and a replacement string
   * without `$` (JavaScript expands `$&`, `$$`, `` $` `` and `$'` in it): only
   * the FIRST occurrence of `pat` is replaced; without one, `s` comes back
   * as it was.
   */
  function ReplaceFirst(s: string, pat: string, rep: string): (r: string)
    ensures (forall j :: 0 <= j <= |s| ==> !OccursAt(s, pat, j)) ==> r == s
    ensures forall k :: 0 <= k <= |s| && OccursAt(s, pat, k) && (forall j :: 0 <= j < k ==> !OccursAt(s, pat, j))
                        ==> r == s[..k] + rep + s[k + |pat|..]
  {
    match IndexOf(s, pat)
    case None => s
    case Some(k) => s[..k] + rep + s[k + |pat|..]
  }

  /** `size.replace('px', '')`, the first step of reading a font size. */
  function StripPx(size: string): (r: string)
    ensures HasNoPx(size) ==> r == size
    ensures |r| == if HasNoPx(size) then |size| else |size| - 2
  {
    ReplaceFirst(size, "px", "")
  }

  /** A size with no `px` in it at all, such as `"16"` or `"1.5em"`. */
  predicate HasNoPx(s: string) {
    forall j :: 0 <= j <= |s| ==> !OccursAt(s, "px", j)
  }

  /** One trailing `px` is removed from a size that has no other `px`. */
  lemma {:induction false} StripPxSuffix(s: string)
    requires HasNoPx(s)
    ensures StripPx(s + "px") == s
  {
    var t := s + "px";
    assert t[|s|..|s| + 2] == "px";
    assert OccursAt(t, "px", |s|);
    forall j | 0 <= j < |s| ensures !OccursAt(t, "px", j) {
      if j + 2 <= |s| {
        assert t[j..j + 2] == s[j..j + 2];
        assert !OccursAt(s, "px", j);
      } else {
        assert j == |s| - 1;
        assert t[j..j + 2][1] == t[|s|] == 'p';
        assert "px"[1] == 'x';
      }
    }
    assert t[..|s|] == s;
    assert t[|s| + 2..] == [];
  }

  /** A size without any `px` is returned unchanged. */
  lemma StripPxNoSuffix(s: string)
    requires HasNoPx(s)
    ensures StripPx(s) == s
  {
  }

  /** Only the first `px` goes: `"16pxpx"` becomes `"16px"`, not `"16"`. */
  lemma StripPxOnlyFirst()
    ensures StripPx("16pxpx") == "16px"
  {
    var s := "16pxpx";
    assert s[2..4] == "px";
    assert OccursAt(s, "px", 2);
    assert !OccursAt(s, "px", 0) && !OccursAt(s, "px", 1) by {
      assert s[0..2][0] == '1';
      assert s[1..3][0] == '6';
    }
    assert s[..2] + "" + s[4..] == "16px";
  }

  /** The default size `"16px"` is read as `"16"`. */
  lemma StripPxDefault()
    ensures StripPx("16px") == "16"
  {
    assert HasNoPx("16") by {
      forall j | 0 <= j <= 2 ensures !OccursAt("16", "px", j) {
        if j == 0 { assert "16"[0..2][0] == '1'; }
      }
    }
    StripPxSuffix("16");
  }

  /** The character for one decimal digit. */
  function DigitChar(d: nat): (c: char)
    requires d < 10
    ensures '0' <= c <= '9' && c as int - '0' as int == d
  {
    ('0' as int + d) as char
  }

  predicate IsDigits(s: string) {
    forall i :: 0 <= i < |s| ==> '0' <= s[i] <= '9'
  }

  /** The template literal `${n}`: the decimal digits of `n`, without leading zeros. */
  function NatToDecimal(n: nat): (r: string)
    ensures |r| >= 1 && IsDigits(r)
    ensures r[0] == '0' ==> n == 0
  {
    if n < 10 then [DigitChar(n)] else NatToDecimal(n / 10) + [DigitChar(n % 10)]
  }

  /** The value of a string of decimal digits (independent reading of `NatToDecimal`). */
  function DecimalValue(s: string): nat
    requires IsDigits(s)
  {
    if s == [] then 0 else 10 * DecimalValue(s[..|s| - 1]) + (s[|s| - 1] as int - '0' as int)
  }

  /** Reading back `${n}` gives `n`. */
  lemma {:induction false} DecimalRoundTrip(n: nat)
    ensures DecimalValue(NatToDecimal(n)) == n
  {
    var r := NatToDecimal(n);
    if n >= 10 {
      DecimalRoundTrip(n / 10);
      assert r[..|r| - 1] == NatToDecimal(n / 10);
    }
  }

  /** Different counters give different strings: `${m}` and `${n}` are equal exactly when m == n. */
  lemma DecimalInjective(m: nat, n: nat)
    ensures NatToDecimal(m) == NatToDecimal(n) <==> m == n
  {
    if NatToDecimal(m) == NatToDecimal(n) {
      DecimalRoundTrip(m);
      DecimalRoundTrip(n);
    }
  }

  /** `s.slice(start)` for a non-negative start: the suffix from `start`, or `""` past the end. */
  function SliceFrom(s: string, start: nat): (r: string)
    ensures |r| == if start <= |s| then |s| - start else 0
    ensures forall i :: 0 <= i < |r| ==> r[i] == s[start + i]
  {
    if start <= |s| then s[start..] else ""
  }
}
