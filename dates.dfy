/**
 * Calendar-date keys as the app derives them: the date part of an ISO-8601
 * UTC timestamp, and the order on such keys.
 */
module Dates {

  /**
   * One instant as the app reads it: its UTC ISO-8601 text (what
   * `toISOString()` prints) and its epoch milliseconds (what subtracting two
   * `Date` objects yields).
   */
  datatype Instant = Instant(iso: string, epochMs: int)

  /**
   * `s.split('T')[0]`: the text before the first 'T' of `s`, or all of `s`
   * when it contains no 'T'.
   */
  function DateKey(s: string): (r: string)
    ensures r <= s
    ensures 'T' !in r
    ensures |r| < |s| ==> s[|r|] == 'T'
  {
    if |s| == 0 || s[0] == 'T' then "" else [s[0]] + DateKey(s[1..])
  }

  /** The UTC calendar date of an instant, `new Date(t).toISOString().split('T')[0]`. */
  function DateOf(t: Instant): string
  {
    DateKey(t.iso)
  }

  /** The key of a timestamp `date + "T" + time` is its date part. */
  lemma {:induction false} DateKeyOfTimestamp(date: string, time: string)
    requires 'T' !in date
    ensures DateKey(date + "T" + time) == date
  {
    if |date| > 0 {
      assert date[0] in date;
      assert (date + "T" + time)[1..] == date[1..] + "T" + time;
      assert 'T' !in date[1..] by {
        forall k | 0 <= k < |date[1..]| ensures date[1..][k] != 'T' {
          assert date[1..][k] == date[k + 1];
        }
      }
      DateKeyOfTimestamp(date[1..], time);
    }
  }

  /** The key of a text whose first `T` is at position `n` is the text before it. */
  lemma {:induction false} DateKeyAtFirstT(s: string, n: nat)
    requires n < |s| && s[n] == 'T'
    requires forall k :: 0 <= k < n ==> s[k] != 'T'
    ensures DateKey(s) == s[..n]
  {
    if n > 0 {
      DateKeyAtFirstT(s[1..], n - 1);
      assert s[..n] == [s[0]] + s[1..][..n - 1];
    }
  }

  /**
   * Strict lexicographic order on text. On `YYYY-MM-DD` keys it is the
   * chronological order used by the sort comparator and the range filter.
   */
  predicate Earlier(a: string, b: string)
  {
    if |a| == 0 then |b| > 0
    else if |b| == 0 then false
    else if a[0] != b[0] then a[0] < b[0]
    else Earlier(a[1..], b[1..])
  }

  lemma {:induction false} EarlierIrreflexive(a: string)
    ensures !Earlier(a, a)
  {
    if |a| > 0 {
      EarlierIrreflexive(a[1..]);
    }
  }

  lemma {:induction false} EarlierTransitive(a: string, b: string, c: string)
    requires Earlier(a, b) && Earlier(b, c)
    ensures Earlier(a, c)
  {
    if |a| > 0 && |b| > 0 && |c| > 0 && a[0] == b[0] == c[0] {
      EarlierTransitive(a[1..], b[1..], c[1..]);
    }
  }

  /** Any two distinct keys are ordered one way or the other. */
  lemma {:induction false} EarlierTotal(a: string, b: string)
    requires a != b
    ensures Earlier(a, b) || Earlier(b, a)
  {
    if |a| > 0 && |b| > 0 && a[0] == b[0] {
      assert a == [a[0]] + a[1..] && b == [b[0]] + b[1..];
      EarlierTotal(a[1..], b[1..]);
    }
  }

  lemma {:induction false} EarlierAsymmetric(a: string, b: string)
    requires Earlier(a, b)
    ensures !Earlier(b, a)
  {
    if Earlier(b, a) {
      EarlierTransitive(a, b, a);
      EarlierIrreflexive(a);
    }
  }

  /** For ISO dates of one shape, the order is chronological: an earlier day of the same month. */
  lemma SameMonthEarlierDay()
    ensures Earlier("2024-01-01", "2024-01-02")
    ensures !Earlier("2024-01-02", "2024-01-01")
  {
  }
}
