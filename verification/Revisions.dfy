// Private revisions and mutation fences: canonical unsigned decimals of at most 128 digits,
// kept as strings, compared by length and then by code unit.
module Revisions {
  import opened Outcomes

  const MAX_DIGITS := 128

  predicate IsDigit(c: char) {
    '0' <= c <= '9'
  }

  ghost predicate AllDigits(s: string) {
    forall i :: 0 <= i < |s| ==> IsDigit(s[i])
  }

  /** The shape of a decimal printed by BigInt: no sign, no leading zero. */
  ghost predicate IsCanonical(s: string) {
    |s| > 0 && AllDigits(s) && (|s| == 1 || s[0] != '0')
  }

  ghost predicate IsRevision(s: string) {
    IsCanonical(s) && |s| <= MAX_DIGITS
  }

  type Revision = s: string | IsRevision(s) witness "0"

  function DigitValue(c: char): int {
    c as int - '0' as int
  }

  function DigitChar(d: nat): (c: char)
    requires d < 10
    ensures IsDigit(c) && DigitValue(c) == d
    ensures c == '0' <==> d == 0
  {
    ('0' as int + d) as char
  }

  /** The number a digit string denotes. */
  function Value(s: string): int {
    if |s| == 0 then 0 else 10 * Value(s[..|s| - 1]) + DigitValue(s[|s| - 1])
  }

  /** BigInt.prototype.toString for a non-negative number. */
  function Print(n: nat): (s: string)
    ensures IsCanonical(s)
    ensures s[0] == '0' ==> n == 0
  {
    if n < 10 then [DigitChar(n)] else Print(n / 10) + [DigitChar(n % 10)]
  }

  function Power10(k: nat): (p: nat)
    ensures p >= 1
  {
    if k == 0 then 1 else 10 * Power10(k - 1)
  }

  /** incrementPrivateRevision: one more, refused when the result no longer fits. */
  function Increment(s: Revision): Result<Revision, ()> {
    ValueIsNat(s);
    var next := Print(Value(s) + 1);
    if |next| <= MAX_DIGITS then Ok(next) else Err(())
  }

  /** `left >= right` on two strings of the same length: decided by the first differing unit. */
  predicate StringGeq(left: string, right: string)
    requires |left| == |right|
  {
    |left| == 0 || left[0] > right[0] || (left[0] == right[0] && StringGeq(left[1..], right[1..]))
  }

  /** maximumPrivateRevision: the longer string, then the larger one. */
  function Maximum(left: Revision, right: Revision): Revision {
    if |left| != |right| then (if |left| > |right| then left else right)
    else if StringGeq(left, right) then left else right
  }

  /** compareMutationFences(left, right) < 0. */
  predicate Precedes(left: Revision, right: Revision) {
    if |left| != |right| then |left| < |right| else !StringGeq(left, right)
  }

  lemma {:induction false} ValueIsNat(s: string)
    requires AllDigits(s)
    ensures 0 <= Value(s) < Power10(|s|)
  {
    if |s| > 0 {
      var front := s[..|s| - 1];
      assert forall i :: 0 <= i < |front| ==> front[i] == s[i];
      ValueIsNat(front);
      assert IsDigit(s[|s| - 1]);
    }
  }

  /** A canonical decimal with k digits is at least 10^(k-1). */
  lemma {:induction false} ValueHasItsLength(s: string)
    requires AllDigits(s) && |s| > 0 && s[0] != '0'
    ensures Value(s) >= Power10(|s| - 1)
  {
    assert IsDigit(s[|s| - 1]);
    if |s| > 1 {
      var front := s[..|s| - 1];
      assert forall i :: 0 <= i < |front| ==> front[i] == s[i];
      ValueHasItsLength(front);
    } else {
      assert Value(s) == 10 * Value(s[..0]) + DigitValue(s[0]);
    }
  }

  lemma {:induction false} Power10Monotone(a: nat, b: nat)
    requires a <= b
    ensures Power10(a) <= Power10(b)
    decreases b
  {
    if a < b {
      Power10Monotone(a, b - 1);
    }
  }

  /** Printing is a right inverse of reading ... */
  lemma {:induction false} ValueOfPrint(n: nat)
    ensures Value(Print(n)) == n
  {
    if n >= 10 {
      ValueOfPrint(n / 10);
      assert Print(n)[..|Print(n)| - 1] == Print(n / 10);
    } else {
      assert Print(n)[..0] == "";
    }
  }

  /** ... and a left inverse on canonical strings, so canonical strings and naturals correspond. */
  lemma {:induction false} PrintOfValue(s: string)
    requires IsCanonical(s)
    ensures Value(s) >= 0 && Print(Value(s)) == s
  {
    ValueIsNat(s);
    var last := s[|s| - 1];
    assert IsDigit(last);
    var front := s[..|s| - 1];
    assert s == front + [last];
    if |s| > 1 {
      assert forall i :: 0 <= i < |front| ==> front[i] == s[i];
      PrintOfValue(front);
      ValueHasItsLength(front);
      assert Power10(|front| - 1) >= 1;
      assert Value(s) / 10 == Value(front) && Value(s) % 10 == DigitValue(last);
    } else {
      assert front == "";
    }
  }

  /** Comparing equal-length digit strings from the front is comparing the numbers. */
  lemma {:induction false} StringOrderIsNumeric(left: string, right: string)
    requires |left| == |right| && AllDigits(left) && AllDigits(right)
    ensures StringGeq(left, right) <==> Value(left) >= Value(right)
  {
    if |left| > 0 {
      var leftRest, rightRest := left[1..], right[1..];
      assert AllDigits(leftRest) by { assert forall i :: 0 <= i < |leftRest| ==> leftRest[i] == left[i + 1]; }
      assert AllDigits(rightRest) by { assert forall i :: 0 <= i < |rightRest| ==> rightRest[i] == right[i + 1]; }
      StringOrderIsNumeric(leftRest, rightRest);
      ValueFromFront(left);
      ValueFromFront(right);
      ValueIsNat(leftRest);
      ValueIsNat(rightRest);
      LeadingDigitDecides(DigitValue(left[0]), DigitValue(right[0]), Power10(|leftRest|), Value(leftRest),
          Value(rightRest));
    }
  }

  lemma LeadingDigitDecides(a: int, b: int, p: int, x: int, y: int)
    requires 0 <= x < p && 0 <= y < p
    ensures a > b ==> a * p + x > b * p + y
    ensures a < b ==> a * p + x < b * p + y
  {
    if a > b {
      AtLeastOne(a - b, p);
      assert a * p == b * p + (a - b) * p;
    } else if a < b {
      AtLeastOne(b - a, p);
      assert b * p == a * p + (b - a) * p;
    }
  }

  lemma AtLeastOne(k: int, p: int)
    requires k >= 1 && p >= 0
    ensures k * p >= p
  {
    assert k * p == p + (k - 1) * p;
  }

  lemma {:induction false} ValueFromFront(s: string)
    requires |s| > 0
    ensures Value(s) == DigitValue(s[0]) * Power10(|s| - 1) + Value(s[1..])
  {
    if |s| == 1 {
      assert s[..0] == "" && s[1..] == "";
    } else {
      var front := s[..|s| - 1];
      ValueFromFront(front);
      assert front[1..] == s[1..][..|s| - 2];
      assert front[0] == s[0] && s[1..][|s| - 2] == s[|s| - 1];
    }
  }

  /** The length-then-lexicographic maximum is the numeric maximum. */
  lemma MaximumIsNumeric(left: Revision, right: Revision)
    ensures Maximum(left, right) == left || Maximum(left, right) == right
    ensures Value(Maximum(left, right)) == Max(Value(left), Value(right))
  {
    if |left| == |right| {
      StringOrderIsNumeric(left, right);
    } else if |left| > |right| {
      LongerIsLarger(left, right);
    } else {
      LongerIsLarger(right, left);
    }
  }

  /** Comparing fences by length and then by string is comparing the numbers. */
  lemma PrecedesIsNumeric(left: Revision, right: Revision)
    ensures Precedes(left, right) <==> Value(left) < Value(right)
  {
    if |left| == |right| {
      StringOrderIsNumeric(left, right);
    } else if |left| > |right| {
      LongerIsLarger(left, right);
    } else {
      LongerIsLarger(right, left);
    }
  }

  lemma LongerIsLarger(long: Revision, short: Revision)
    requires |long| > |short|
    ensures Value(long) > Value(short)
  {
    ValueHasItsLength(long);
    ValueIsNat(short);
    Power10Monotone(|short|, |long| - 1);
  }

  /** A canonical decimal fits k digits exactly when the number is below 10^k. */
  lemma FitsExactly(s: string, k: nat)
    requires IsCanonical(s) && k >= 1
    ensures |s| <= k <==> Value(s) < Power10(k)
  {
    ValueIsNat(s);
    if |s| <= k {
      Power10Monotone(|s|, k);
    } else {
      ValueHasItsLength(s);
      Power10Monotone(k, |s| - 1);
    }
  }

  /** Incrementing adds exactly one ... */
  lemma IncrementAddsOne(s: Revision)
    ensures Increment(s).Ok? ==> Value(Increment(s).value) == Value(s) + 1
  {
    ValueIsNat(s);
    ValueOfPrint(Value(s) + 1);
  }

  /** ... and is refused exactly when 128 digits no longer suffice. */
  lemma IncrementIsRefusedOnlyWhenFull(s: Revision)
    ensures Increment(s).Ok? <==> Value(s) + 1 < Power10(MAX_DIGITS)
  {
    ValueIsNat(s);
    ValueOfPrint(Value(s) + 1);
    FitsExactly(Print(Value(s) + 1), MAX_DIGITS);
  }
}
