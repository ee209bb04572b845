/** Failure counters kept as decimal text in the annotations of the resource. */
module FailureCount {
  import opened Wrappers
  import opened Throttle

  const PRIMARY_COUNT := "database.cpf-it.fr/primary-fail-count"
  const SECONDARY_COUNT := "database.cpf-it.fr/secondary-fail-count"

  type Annotations = map<string, string>

  function KeyOf(isPrimary: bool): string {
    if isPrimary then PRIMARY_COUNT else SECONDARY_COUNT
  }

  predicate IsDigit(c: char) { '0' <= c <= '9' }

  /** `strconv.Itoa` on a positive count. */
  function Itoa(n: nat): (s: string)
    ensures s != "" && forall i | 0 <= i < |s| :: IsDigit(s[i])
  {
    var digit := ['0' + (n % 10) as char];
    if n < 10 then digit else Itoa(n / 10) + digit
  }

  /** A non-empty run of decimal digits. */
  function Digits(s: string): Option<nat> {
    if s == "" || !IsDigit(s[|s| - 1]) then None
    else
      var d := (s[|s| - 1] - '0') as nat;
      if |s| == 1 then Some(d)
      else match Digits(s[..|s| - 1])
        case None => None
        case Some(n) => Some(10 * n + d)
  }

  /** `strconv.Atoi`: an optional sign, digits, and a value that fits 64 bits. */
  function Atoi(s: string): Option<int> {
    var negative := s != "" && s[0] == '-';
    var signed := negative || (s != "" && s[0] == '+');
    match Digits(if signed then s[1..] else s)
    case None => None
    case Some(n) =>
      var magnitude: int := n;
      var value := if negative then -magnitude else magnitude;
      if MIN_INT64 <= value <= MAX_INT64 then Some(value) else None
  }

  lemma {:induction false} DigitsRoundTrip(n: nat)
    ensures Digits(Itoa(n)) == Some(n)
  {
    if n >= 10 {
      DigitsRoundTrip(n / 10);
      assert Itoa(n)[..|Itoa(n)| - 1] == Itoa(n / 10);
    }
  }

  /** A saved count is read back as itself. */
  lemma {:induction false} AtoiRoundTrip(n: nat)
    requires n <= MAX_INT64
    ensures Atoi(Itoa(n)) == Some(n)
  {
    DigitsRoundTrip(n);
    assert IsDigit(Itoa(n)[0]);
  }

  /** Signs are read, and anything else but digits makes the text unreadable. */
  lemma AtoiReads(n: nat, s: string, i: nat)
    requires n <= MAX_INT64
    ensures Atoi("+" + Itoa(n)) == Some(n) && Atoi("-" + Itoa(n)) == Some(0 - n)
    ensures Atoi("") == None
    ensures i < |s| && !IsDigit(s[i]) && !(i == 0 && s[0] in {'+', '-'}) ==> Atoi(s) == None
  {
    DigitsRoundTrip(n);
    assert ("+" + Itoa(n))[1..] == Itoa(n) && ("-" + Itoa(n))[1..] == Itoa(n);
    if i < |s| && !IsDigit(s[i]) {
      if s[0] in {'+', '-'} {
        if i > 0 { NoDigitsNoNumber(s[1..], i - 1); }
      } else {
        NoDigitsNoNumber(s, i);
      }
    }
  }

  lemma {:induction false} NoDigitsNoNumber(s: string, i: nat)
    requires i < |s| && !IsDigit(s[i])
    ensures Digits(s) == None
  {
    if i < |s| - 1 { NoDigitsNoNumber(s[..|s| - 1], i); }
  }

  /** Absent and unreadable counters read as zero. */
  function GetFailureCount(annotations: Annotations, isPrimary: bool): int {
    var key := KeyOf(isPrimary);
    if key !in annotations then 0 else Atoi(annotations[key]).GetOr(0)
  }

  /** Each counter is read from its own annotation; zero where that is missing or unreadable. */
  lemma CountIsRead(annotations: Annotations, isPrimary: bool)
    ensures var key := if isPrimary then "database.cpf-it.fr/primary-fail-count" else "database.cpf-it.fr/secondary-fail-count";
      && (key !in annotations ==> GetFailureCount(annotations, isPrimary) == 0)
      && (key in annotations ==>
            GetFailureCount(annotations, isPrimary)
            == match Atoi(annotations[key]) case Some(n) => n case None => 0)
  {
  }

  function SaveFailureCount(annotations: Annotations, isPrimary: bool, count: int): Annotations {
    if count > 0 then annotations[KeyOf(isPrimary) := Itoa(count)] else annotations - {KeyOf(isPrimary)}
  }

  function ResetFailureCount(annotations: Annotations, isPrimary: bool): Annotations {
    annotations - {KeyOf(isPrimary)}
  }

  /** The count after one more check, `count++` being a 64-bit increment. */
  function NextCount(annotations: Annotations, isPrimary: bool, healthy: bool): int {
    if healthy then 0 else Wrap64(GetFailureCount(annotations, isPrimary) + 1)
  }

  /** Both counters at the end of a health check. */
  function CountCheck(annotations: Annotations, primaryHealthy: bool, secondaryHealthy: bool): Annotations {
    SaveFailureCount(
      SaveFailureCount(annotations, true, NextCount(annotations, true, primaryHealthy)),
      false, NextCount(annotations, false, secondaryHealthy))
  }

  lemma KeysDiffer()
    ensures PRIMARY_COUNT != SECONDARY_COUNT
  {
  }

  /** Saving one counter is read back, and leaves the other counter and every other annotation alone. */
  lemma SaveReadsBack(annotations: Annotations, isPrimary: bool, count: int)
    requires count <= MAX_INT64
    ensures var saved := SaveFailureCount(annotations, isPrimary, count);
      && GetFailureCount(saved, isPrimary) == (if count > 0 then count else 0)
      && (KeyOf(isPrimary) in saved <==> count > 0)
      && GetFailureCount(saved, !isPrimary) == GetFailureCount(annotations, !isPrimary)
      && saved - {KeyOf(isPrimary)} == annotations - {KeyOf(isPrimary)}
  {
    KeysDiffer();
    if count > 0 {
      AtoiRoundTrip(count);
    }
  }

  /** A reset counter reads zero; the other counter and every other annotation are left alone. */
  lemma ResetReadsZero(annotations: Annotations, isPrimary: bool)
    ensures var reset := ResetFailureCount(annotations, isPrimary);
      && GetFailureCount(reset, isPrimary) == 0
      && GetFailureCount(reset, !isPrimary) == GetFailureCount(annotations, !isPrimary)
      && (forall k | k != KeyOf(isPrimary) :: (k in reset <==> k in annotations) && (k in reset ==> reset[k] == annotations[k]))
  {
    KeysDiffer();
  }

  /** One check moves each counter on its own: back to zero, or one up. */
  lemma CheckMovesCounters(annotations: Annotations, primaryHealthy: bool, secondaryHealthy: bool)
    ensures var after := CountCheck(annotations, primaryHealthy, secondaryHealthy);
      && (forall isPrimary ::
            var next := NextCount(annotations, isPrimary, if isPrimary then primaryHealthy else secondaryHealthy);
            GetFailureCount(after, isPrimary) == if next > 0 then next else 0)
      && after - {PRIMARY_COUNT, SECONDARY_COUNT} == annotations - {PRIMARY_COUNT, SECONDARY_COUNT}
  {
    var p, s := NextCount(annotations, true, primaryHealthy), NextCount(annotations, false, secondaryHealthy);
    var middle := SaveFailureCount(annotations, true, p);
    SaveReadsBack(annotations, true, p);
    SaveReadsBack(middle, false, s);
    assert (annotations - {PRIMARY_COUNT}) - {SECONDARY_COUNT} == annotations - {PRIMARY_COUNT, SECONDARY_COUNT};
    assert (middle - {SECONDARY_COUNT}) - {PRIMARY_COUNT} == middle - {PRIMARY_COUNT, SECONDARY_COUNT};
  }
}
