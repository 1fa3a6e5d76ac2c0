/** Money arithmetic: half-even division, the fee table, the 63-bit amount bound and the
    decimal strings a transfer request may carry. */
module Money {
  import opened Wrappers

  const MAX_MINOR_UNITS: int := 9_223_372_036_854_775_807
  const MAX_PRINCIPAL: int := 10_000_000
  const MAX_AMOUNT_DIGITS: nat := 8
  const SEND_MONEY_FEE: int := 500
  const CASH_OUT_RATE: int := 185
  const CASH_OUT_SCALE: int := 10_000

  // ---------------------------------------------------------------- half-even division

  // JavaScript's bigint division and remainder truncate toward zero.
  function TruncDiv(n: int, d: int): int
    requires d > 0
  {
    if n >= 0 then n / d else -((-n) / d)
  }

  function TruncRem(n: int, d: int): int
    requires d > 0
  {
    n - TruncDiv(n, d) * d
  }

  function DivideRoundHalfEven(numerator: int, denominator: int): int
    requires denominator > 0
  {
    var division := TruncDiv(numerator, denominator);
    var doubleRemainder := TruncRem(numerator, denominator) * 2;
    if doubleRemainder < denominator then division
    else if doubleRemainder > denominator then division + 1
    else if division % 2 == 0 then division
    else division + 1
  }

  function Abs(x: int): nat {
    if x < 0 then -x else x
  }

  /** Reference definition: no integer is closer to n/d than q, and q is even when another one is as close. */
  ghost predicate NearestEven(n: int, d: int, q: int) {
    && (forall k: int :: Abs(n - q * d) <= Abs(n - k * d))
    && ((exists k: int :: k != q && Abs(n - k * d) == Abs(n - q * d)) ==> q % 2 == 0)
  }

  /** The same notion without quantifiers. */
  predicate WithinHalf(n: int, d: int, q: int) {
    && 2 * Abs(n - q * d) <= d
    && (2 * Abs(n - q * d) == d ==> q % 2 == 0)
  }

  lemma MulAtLeast(m: int, steps: int, d: int)
    requires d > 0 && m >= steps
    ensures m * d >= steps * d
  {
    assert (m - steps) * d >= 0;
  }

  lemma StepsAway(n: int, d: int, q: int, k: int, steps: nat)
    requires d > 0 && (k >= q + steps || q >= k + steps)
    ensures Abs(n - k * d) >= steps * d - Abs(n - q * d)
  {
    if k >= q + steps {
      MulAtLeast(k - q, steps, d);
      assert (k - q) * d == k * d - q * d;
    } else {
      MulAtLeast(q - k, steps, d);
      assert (q - k) * d == q * d - k * d;
    }
  }

  lemma WithinHalfIsMinimal(n: int, d: int, q: int)
    requires d > 0 && WithinHalf(n, d, q)
    ensures NearestEven(n, d, q)
  {
    forall k: int ensures Abs(n - q * d) <= Abs(n - k * d) {
      if k != q { StepsAway(n, d, q, k, 1); }
    }
    if k: int :| k != q && Abs(n - k * d) == Abs(n - q * d) {
      StepsAway(n, d, q, k, 1);
    }
  }

  // x is the distance to q, x - d and x + d those to its neighbours.
  lemma NoNeighbourIsCloser(x: int, d: int)
    requires d > 0 && Abs(x) <= Abs(x - d) && Abs(x) <= Abs(x + d)
    ensures 2 * Abs(x) <= d
    ensures 2 * Abs(x) == d ==> Abs(x - d) == Abs(x) || Abs(x + d) == Abs(x)
  {}

  lemma MinimalIsWithinHalf(n: int, d: int, q: int)
    requires d > 0 && NearestEven(n, d, q)
    ensures WithinHalf(n, d, q)
  {
    var x, up, down := n - q * d, q + 1, q - 1;
    Distribute(q, -1, d);
    Distribute(q, 1, d);
    assert n - up * d == x - d && n - down * d == x + d;
    NoNeighbourIsCloser(x, d);
  }

  lemma WithinHalfIsUnique(n: int, d: int, p: int, q: int)
    requires d > 0 && WithinHalf(n, d, p) && WithinHalf(n, d, q)
    ensures p == q
  {
    if p != q {
      StepsAway(n, d, q, p, 1);
      // Both are exactly half away, hence both even and two apart.
      StepsAway(n, d, q, p, 2);
    }
  }

  lemma DivisionIsExact(n: int, d: int)
    requires n >= 0 && d > 0
    ensures TruncRem(n, d) == n % d
  {
    assert n == (n / d) * d + n % d;
  }

  lemma HalfEvenIsWithinHalf(n: int, d: int)
    requires n >= 0 && d > 0
    ensures WithinHalf(n, d, DivideRoundHalfEven(n, d))
  {
    DivisionIsExact(n, d);
    var q := n / d;
    assert n - (q + 1) * d == n % d - d;
  }

  /** The division is the one nearest integer, ties to even. */
  lemma HalfEvenIsNearest(n: int, d: int)
    requires n >= 0 && d > 0
    ensures forall q: int :: NearestEven(n, d, q) <==> q == DivideRoundHalfEven(n, d)
  {
    var r := DivideRoundHalfEven(n, d);
    HalfEvenIsWithinHalf(n, d);
    WithinHalfIsMinimal(n, d, r);
    forall q: int ensures NearestEven(n, d, q) <==> q == r {
      if NearestEven(n, d, q) {
        MinimalIsWithinHalf(n, d, q);
        WithinHalfIsUnique(n, d, q, r);
      }
    }
  }

  /** Below zero the code truncates, so it rounds correctly exactly when truncation does:
      the dropped part is under a half, or is a half above an even quotient. */
  lemma HalfEvenBelowZero(n: int, d: int)
    requires n < 0 && d > 0
    ensures NearestEven(n, d, DivideRoundHalfEven(n, d)) <==>
            (2 * ((-n) % d) < d || (2 * ((-n) % d) == d && ((-n) / d) % 2 == 0))
  {
    DivisionIsExact(-n, d);
    var q := -((-n) / d);
    assert n - q * d == -((-n) % d);
    assert DivideRoundHalfEven(n, d) == q;
    if WithinHalf(n, d, q) {
      WithinHalfIsMinimal(n, d, q);
    } else if NearestEven(n, d, q) {
      MinimalIsWithinHalf(n, d, q);
    }
  }

  /** Minus three halves: the code answers -1, half-even rounding gives -2. */
  lemma HalfEvenFailsBelowZero()
    ensures DivideRoundHalfEven(-3, 2) == -1
    ensures !NearestEven(-3, 2, DivideRoundHalfEven(-3, 2)) && NearestEven(-3, 2, -2)
  {
    HalfEvenBelowZero(-3, 2);
    WithinHalfIsMinimal(-3, 2, -2);
  }

  lemma HalfEvenScales(n: int, d: int, k: int)
    requires n >= 0 && d > 0 && k > 0
    ensures n * k >= 0 && d * k > 0
    ensures DivideRoundHalfEven(n * k, d * k) == DivideRoundHalfEven(n, d)
  {
    MulPositive(d, k);
    MulNonNegative(n, k);
    var q := DivideRoundHalfEven(n, d);
    HalfEvenIsWithinHalf(n, d);
    HalfEvenIsWithinHalf(n * k, d * k);
    ScaledWithinHalf(n, d, k, q);
    WithinHalfIsUnique(n * k, d * k, q, DivideRoundHalfEven(n * k, d * k));
  }

  lemma MulPositive(a: int, b: int)
    requires a > 0 && b > 0
    ensures a * b > 0
  {}

  lemma MulNonNegative(a: int, b: int)
    requires a >= 0 && b >= 0
    ensures a * b >= 0
  {}

  lemma ScaledDistance(n: int, d: int, k: int, q: int)
    ensures n * k - q * (d * k) == (n - q * d) * k
  {
    assert q * (d * k) == (q * d) * k;
    Distribute(n, q * d, k);
  }

  lemma AbsTimes(x: int, k: int)
    requires k > 0
    ensures Abs(x * k) == Abs(x) * k
  {
    if x >= 0 { MulNonNegative(x, k); } else { MulPositive(-x, k); assert x * k == -((-x) * k); }
  }

  // `a` is at most half of d; so are their multiples.
  lemma ScaledHalf(a: nat, d: int, k: int)
    requires k > 0 && 2 * a <= d
    ensures 2 * (a * k) <= d * k && (2 * (a * k) == d * k ==> 2 * a == d)
  {
    MulAtLeast(d - 2 * a, if 2 * a == d then 0 else 1, k);
    Distribute(d, 2 * a, k);
    assert (2 * a) * k == 2 * (a * k);
  }

  lemma ScaledWithinHalf(n: int, d: int, k: int, q: int)
    requires k > 0 && WithinHalf(n, d, q)
    ensures WithinHalf(n * k, d * k, q)
  {
    ScaledDistance(n, d, k, q);
    AbsTimes(n - q * d, k);
    ScaledHalf(Abs(n - q * d), d, k);
  }

  // p is at most half a step above m, q at least half a step below n.
  lemma NotAhead(m: int, n: int, d: int, p: int, q: int)
    requires m <= n && d > 0 && WithinHalf(m, d, p) && WithinHalf(n, d, q)
    ensures p * d - q * d <= d
    ensures p * d - q * d == d ==> m == n
  {}

  lemma HalfEvenMonotone(m: int, n: int, d: int)
    requires 0 <= m <= n && d > 0
    ensures DivideRoundHalfEven(m, d) <= DivideRoundHalfEven(n, d)
  {
    var p, q := DivideRoundHalfEven(m, d), DivideRoundHalfEven(n, d);
    HalfEvenIsWithinHalf(m, d);
    HalfEvenIsWithinHalf(n, d);
    if m != n && p > q {
      NotAhead(m, n, d, p, q);
      MulAtLeast(p - q, 1, d);
      Distribute(p, q, d);
    }
  }

  lemma Distribute(p: int, q: int, d: int)
    ensures (p - q) * d == p * d - q * d
  {}

  // ---------------------------------------------------------------- Money

  datatype MoneyError = Negative | ExceedsMaximum

  function FromMinorUnits(minorUnits: int): (r: Result<int, MoneyError>)
    ensures r.Ok? <==> 0 <= minorUnits <= 9_223_372_036_854_775_807
    ensures r.Ok? ==> r.value == minorUnits
    ensures r == Err(Negative) <==> minorUnits < 0
  {
    if minorUnits < 0 then Err(Negative)
    else if minorUnits > MAX_MINOR_UNITS then Err(ExceedsMaximum)
    else Ok(minorUnits)
  }

  function Add(a: int, b: int): Result<int, MoneyError> {
    FromMinorUnits(a + b)
  }

  predicate IsLessThan(a: int, b: int) {
    a < b
  }

  // ---------------------------------------------------------------- fees

  datatype TransactionType = SendMoney | CashIn | CashOut | Payment | AddMoney

  function CashOutFee(amount: int): int {
    DivideRoundHalfEven(amount * CASH_OUT_RATE, CASH_OUT_SCALE)
  }

  function FeeUnits(amount: int, kind: TransactionType): int {
    match kind
    case SendMoney => SEND_MONEY_FEE
    case CashOut => CashOutFee(amount)
    case CashIn => 0
    case Payment => 0
    case AddMoney => 0
  }

  function CalculateFee(amount: int, kind: TransactionType): Result<int, MoneyError> {
    FromMinorUnits(FeeUnits(amount, kind))
  }

  /** The fee table: 5 taka for sending money, 1.85 per cent rounded half-even for cashing out, nothing otherwise. */
  ghost predicate IsFee(amount: int, kind: TransactionType, fee: int) {
    match kind
    case SendMoney => fee == 500
    case CashOut => NearestEven(amount * 185, 10_000, fee)
    case CashIn => fee == 0
    case Payment => fee == 0
    case AddMoney => fee == 0
  }

  /** For each kind and amount exactly one fee is the right one, and it is the one charged. */
  lemma FeeTable(amount: int, kind: TransactionType)
    requires amount >= 0
    ensures forall fee: int :: IsFee(amount, kind, fee) <==> fee == FeeUnits(amount, kind)
  {
    HalfEvenIsNearest(amount * CASH_OUT_RATE, CASH_OUT_SCALE);
    assert kind == CashOut ==>
        forall q: int :: NearestEven(amount * 185, 10_000, q) <==> q == FeeUnits(amount, kind);
  }

  lemma CashOutFeeMonotone(a: int, b: int)
    requires 0 <= a <= b
    ensures 0 <= CashOutFee(a) <= CashOutFee(b)
  {
    HalfEvenMonotone(0, a * CASH_OUT_RATE, CASH_OUT_SCALE);
    HalfEvenMonotone(a * CASH_OUT_RATE, b * CASH_OUT_RATE, CASH_OUT_SCALE);
  }

  function Sum(xs: seq<int>): int {
    if xs == [] then 0 else xs[0] + Sum(xs[1..])
  }

  function CashOutFees(xs: seq<int>): int {
    if xs == [] then 0 else CashOutFee(xs[0]) + CashOutFees(xs[1..])
  }

  ghost predicate AllNonNegative(xs: seq<int>) {
    forall i :: 0 <= i < |xs| ==> xs[i] >= 0
  }

  lemma {:induction false} SplitDrift(xs: seq<int>)
    requires AllNonNegative(xs)
    ensures Sum(xs) >= 0
    ensures 2 * Abs(Sum(xs) * CASH_OUT_RATE - CashOutFees(xs) * CASH_OUT_SCALE) <= |xs| * CASH_OUT_SCALE
  {
    if xs != [] {
      SplitDrift(xs[1..]);
      OneRounding(xs[0]);
    }
  }

  // One rounding of the sum and k roundings of its parts, each off by half a unit at most.
  lemma DriftInUnits(exact: int, one: int, many: int, k: nat)
    requires 2 * Abs(exact - one * 10_000) <= 10_000 && 2 * Abs(exact - many * 10_000) <= k * 10_000
    ensures 2 * Abs(one - many) <= k + 1
  {}

  lemma OneRounding(amount: int)
    requires amount >= 0
    ensures 2 * Abs(amount * CASH_OUT_RATE - CashOutFee(amount) * CASH_OUT_SCALE) <= CASH_OUT_SCALE
  {
    HalfEvenIsWithinHalf(amount * CASH_OUT_RATE, CASH_OUT_SCALE);
  }

  /** Cashing out a sum in k payments instead of one changes the total fee by at most (k + 1) / 2. */
  lemma SplittingChangesFeeLittle(xs: seq<int>)
    requires AllNonNegative(xs)
    ensures 2 * Abs(CashOutFee(Sum(xs)) - CashOutFees(xs)) <= |xs| + 1
  {
    SplitDrift(xs);
    OneRounding(Sum(xs));
    DriftInUnits(Sum(xs) * CASH_OUT_RATE, CashOutFee(Sum(xs)), CashOutFees(xs), |xs|);
  }

  // ---------------------------------------------------------------- amount strings

  datatype Amounts = Amounts(transferAmount: int, feeAmount: int, totalRequiredAmount: int)

  datatype AmountError = InvalidTransactionAmount | AmountLimitExceeded | MoneyFailure(error: MoneyError)

  predicate IsDigit(c: char) {
    '0' <= c <= '9'
  }

  // The pattern /^[1-9]\d*$/.
  predicate PositiveMinorUnits(s: string) {
    && |s| > 0
    && '1' <= s[0] <= '9'
    && (forall i :: 0 <= i < |s| ==> IsDigit(s[i]))
  }

  function DigitValue(c: char): int {
    c as int - '0' as int
  }

  // BigInt(s) for a string of decimal digits.
  function ParseDigits(s: string): int {
    if s == "" then 0 else ParseDigits(s[..|s| - 1]) * 10 + DigitValue(s[|s| - 1])
  }

  function DigitChar(d: int): char
    requires 0 <= d < 10
  {
    (d + '0' as int) as char
  }

  // bigint.toString() for a value above zero.
  function Print(n: nat): string
    requires n > 0
  {
    if n < 10 then [DigitChar(n)] else Print(n / 10) + [DigitChar(n % 10)]
  }

  function CalculateTransferMath(amountMinorUnits: string, kind: TransactionType): Result<Amounts, AmountError> {
    if |amountMinorUnits| > MAX_AMOUNT_DIGITS || !PositiveMinorUnits(amountMinorUnits) then
      Err(InvalidTransactionAmount)
    else
      match FromMinorUnits(ParseDigits(amountMinorUnits))
      case Err(e) => Err(MoneyFailure(e))
      case Ok(amount) =>
        if amount > MAX_PRINCIPAL then Err(AmountLimitExceeded)
        else match CalculateFee(amount, kind)
             case Err(e) => Err(MoneyFailure(e))
             case Ok(fee) =>
               match Add(amount, fee)
               case Err(e) => Err(MoneyFailure(e))
               case Ok(total) => Ok(Amounts(amount, fee, total))
  }

  /** A decimal has the value of its digits by position. */
  lemma {:induction false} DigitsByPosition(s: string)
    requires |s| > 0
    ensures ParseDigits(s) == (s[0] as int - 48) * Pow10(|s| - 1) + ParseDigits(s[1..])
  {
    if |s| == 1 {
      assert s[..0] == "" && s[1..] == "";
    } else {
      var front := s[..|s| - 1];
      DigitsByPosition(front);
      assert front[1..] == s[1..][..|s[1..]| - 1];
      assert ParseDigits(s[1..]) == ParseDigits(front[1..]) * 10 + DigitValue(s[|s| - 1]);
      ShiftLeft(s[0] as int - 48, Pow10(|s| - 2), ParseDigits(front[1..]));
    }
  }

  lemma ShiftLeft(d: int, p: int, rest: int)
    ensures (d * p + rest) * 10 == d * (10 * p) + rest * 10
  {}

  lemma {:induction false} PrintIsCanonical(n: nat)
    requires n > 0
    ensures PositiveMinorUnits(Print(n)) && ParseDigits(Print(n)) == n
  {
    if n >= 10 {
      PrintIsCanonical(n / 10);
      assert Print(n)[..|Print(n)| - 1] == Print(n / 10);
    }
  }

  lemma {:induction false} CanonicalIsPrinted(s: string)
    requires PositiveMinorUnits(s)
    ensures ParseDigits(s) > 0 && Print(ParseDigits(s)) == s
  {
    var front := s[..|s| - 1];
    if |s| == 1 {
      assert front == "" && s == [s[0]];
    } else {
      CanonicalIsPrinted(front);
      assert s == front + [s[|s| - 1]];
    }
  }

  function Pow10(k: nat): int {
    if k == 0 then 1 else 10 * Pow10(k - 1)
  }

  lemma {:induction false} DigitsBoundValue(s: string)
    requires PositiveMinorUnits(s)
    ensures Pow10(|s| - 1) <= ParseDigits(s) < Pow10(|s|)
  {
    var front := s[..|s| - 1];
    if |s| == 1 {
      assert front == "";
    } else {
      DigitsBoundValue(front);
    }
  }

  lemma {:induction false} Pow10Grows(j: nat, k: nat)
    requires j <= k
    ensures 0 < Pow10(j) <= Pow10(k)
  {
    if j < k {
      Pow10Grows(j, k - 1);
    } else if j > 0 {
      Pow10Grows(j - 1, j - 1);
    }
  }

  lemma Pow10Eight()
    ensures Pow10(7) == 10_000_000 && Pow10(8) == 100_000_000
  {
    assert Pow10(3) == 1000;
    assert Pow10(6) == 1_000_000;
  }

  lemma EightDigits(s: string)
    requires PositiveMinorUnits(s)
    ensures |s| <= MAX_AMOUNT_DIGITS <==> ParseDigits(s) < 100_000_000
  {
    DigitsBoundValue(s);
    Pow10Eight();
    if |s| <= 8 {
      Pow10Grows(|s|, 8);
    } else {
      Pow10Grows(8, |s| - 1);
    }
  }

  lemma FeeBounds(amount: int, kind: TransactionType)
    requires 1 <= amount <= MAX_PRINCIPAL
    ensures 0 <= FeeUnits(amount, kind) <= 185_000
  {
    CashOutFeeMonotone(amount, MAX_PRINCIPAL);
  }

  /** A request's amount text is accepted exactly when it is the canonical decimal of an amount from
      1 to 10,000,000; the amounts are then that value, its fee and their sum; over-limit text of up to
      eight digits gets the limit error, everything else the format error, and the Money bound never trips. */
  lemma AmountTextsAccepted(s: string, kind: TransactionType)
    ensures var r := CalculateTransferMath(s, kind);
            && (r.Ok? <==> exists n: nat :: 1 <= n <= 10_000_000 && s == Print(n))
            && (r == Err(AmountLimitExceeded) <==>
                exists n: nat :: 10_000_000 < n < 100_000_000 && s == Print(n))
            && !(r.Err? && r.error.MoneyFailure?)
  {
    if PositiveMinorUnits(s) {
      CanonicalIsPrinted(s);
      EightDigits(s);
      var v: nat := ParseDigits(s);
      assert s == Print(v);
      forall n: nat | n > 0 && s == Print(n) ensures n == v { PrintIsCanonical(n); }
      if 1 <= v <= MAX_PRINCIPAL { FeeBounds(v, kind); }
    } else {
      forall n: nat | n > 0 ensures s != Print(n) { PrintIsCanonical(n); }
    }
  }

  /** The text of an amount is priced with that amount, the fee of the table and their sum, and with nothing else. */
  lemma AcceptedAmounts(n: nat, kind: TransactionType)
    requires 1 <= n <= 10_000_000
    ensures var r := CalculateTransferMath(Print(n), kind);
            && r.Ok? && r.value.transferAmount == n
            && IsFee(n, kind, r.value.feeAmount) && r.value.totalRequiredAmount == n + r.value.feeAmount
            && (forall fee: int :: IsFee(n, kind, fee) ==> fee == r.value.feeAmount)
  {
    FeeTable(n, kind);
    PrintIsCanonical(n);
    EightDigits(Print(n));
    FeeBounds(n, kind);
  }
}
