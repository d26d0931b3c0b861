/**
 Proration of a mid-cycle plan change. Prices are decimals, instants are microseconds, results are
 whole cents. The two invoice lines are one rounded function of the price; what is due is their difference.
 */
module Pricing {
  import opened Common
  import opened Decimal

  const MICROS_PER_DAY := 86_400_000_000

  datatype ProrationInput = ProrationInput(
    currentUnitPrice: real, newUnitPrice: real, seats: int,
    periodStart: int, periodEnd: int, effectiveAt: int)

  datatype PricingError =
    | SeatsBelowOne | NegativePrice | PeriodNotOrdered | EffectiveOutsidePeriod | PeriodUnderOneDay
    | PercentOutOfRange
    | InvalidOperation // quantising needs more than 28 digits

  /** The two invoice lines and the total, in cents. */
  datatype Proration = Proration(
    unusedCredit: int, newPlanCharge: int, amountDue: int, daysRemaining: int, daysInPeriod: int)

  /** Whole days in a span of time, rounded down. */
  function Days(span: int): int {
    span / MICROS_PER_DAY
  }

  function DaysRemaining(data: ProrationInput): int {
    Max(0, Min(Days(data.periodEnd - data.effectiveAt), Days(data.periodEnd - data.periodStart)))
  }

  /** The share of the period still ahead. */
  function Share(days: int, period: int): real
    requires period > 0
  {
    days as real / period as real
  }

  /** The price of the seats for a share of the period, before it is quantised. */
  function LineAmount(amount: real, share: real): real {
    Round28(Round28(amount) * Round28(share))
  }

  /** One invoice line: the price of the seats for `days` out of `period`, in cents. */
  function Line(price: real, seats: int, days: int, period: int): Option<int>
    requires period > 0
  {
    ToCents(LineAmount(price * seats as real, Share(days, period)))
  }

  function CalculateProration(data: ProrationInput): Result<Proration, PricingError> {
    if data.seats < 1 then Err(SeatsBelowOne)
    else if data.currentUnitPrice < 0.0 || data.newUnitPrice < 0.0 then Err(NegativePrice)
    else if data.periodEnd <= data.periodStart then Err(PeriodNotOrdered)
    else if !(data.periodStart <= data.effectiveAt <= data.periodEnd) then Err(EffectiveOutsidePeriod)
    else
      var period := Days(data.periodEnd - data.periodStart);
      if period <= 0 then Err(PeriodUnderOneDay)
      else
        var days := DaysRemaining(data);
        match (Line(data.currentUnitPrice, data.seats, days, period), Line(data.newUnitPrice, data.seats, days, period))
        case (Some(credit), Some(charge)) =>
          (match ToCents(Round28((charge - credit) as real / 100.0))
           case Some(due) => Ok(Proration(credit, charge, due, days, period))
           case None => Err(InvalidOperation))
        case _ => Err(InvalidOperation)
  }

  /** A price the schema can hold: whole cents. */
  ghost predicate WholeCents(price: real, cents: nat) {
    price == cents as real / 100.0
  }

  // ---- The clamps ----------------------------------------------------------------------------------

  /** Neither day clamp ever does anything on an input that is priced. */
  lemma ClampsAreNoOps(data: ProrationInput)
    requires data.periodStart <= data.effectiveAt <= data.periodEnd
    ensures 0 <= Days(data.periodEnd - data.effectiveAt) <= Days(data.periodEnd - data.periodStart)
    ensures DaysRemaining(data) == Days(data.periodEnd - data.effectiveAt)
  {
    DaysMonotone(data.periodEnd - data.effectiveAt, data.periodEnd - data.periodStart);
    DaysMonotone(0, data.periodEnd - data.effectiveAt);
  }

  lemma DaysMonotone(a: int, b: int)
    requires a <= b
    ensures Days(a) <= Days(b)
  {
  }

  // ---- One line --------------------------------------------------------------------------------------

  lemma CentsMonotone(x: real, y: real)
    requires 0.0 <= x <= y && ToCents(y).Some?
    ensures ToCents(x).Some? && 0 <= ToCents(x).value <= ToCents(y).value
  {
    HalfUpMonotone(x * 100.0, y * 100.0);
    HalfUpMonotone(0.0, x * 100.0);
  }

  lemma ProductMonotone(a: real, b: real, c: real, d: real)
    requires 0.0 <= a <= b && 0.0 <= c <= d
    ensures 0.0 <= a * c <= b * d
  {
    TimesMonotone(a, b, c);
    TimesMonotone(c, d, b);
    TimesMonotone(0.0, a, c);
  }

  lemma ShareMonotone(days: nat, days': nat, period: int)
    requires days <= days' && period > 0
    ensures 0.0 <= Share(days, period) <= Share(days', period)
  {
    DivideMonotone(days as real, days' as real, period as real);
    var q := Quotient(days as real, period as real);
    if q < 0.0 { TimesMonotone(q, 0.0, period as real); Cancel(0.0, q, period as real); }
  }

  lemma LineAmountMonotone(amount: real, amount': real, share: real, share': real)
    requires 0.0 <= amount <= amount' && 0.0 <= share <= share'
    ensures 0.0 <= LineAmount(amount, share) <= LineAmount(amount', share')
  {
    hide Round28;
    Round28Monotone(amount, amount');
    Round28Monotone(share, share');
    ProductMonotone(Round28(amount), Round28(amount'), Round28(share), Round28(share'));
    Round28Monotone(Round28(amount) * Round28(share), Round28(amount') * Round28(share'));
  }

  /**
   A line never falls when the price, the seats or the days remaining rise; it is never negative; and
   it can be quantised whenever a larger line can.
   */
  lemma LineMonotone(price: real, price': real, seats: nat, seats': nat, days: nat, days': nat, period: int)
    requires 0.0 <= price <= price' && seats <= seats' && days <= days' && period > 0
    requires Line(price', seats', days', period).Some?
    ensures Line(price, seats, days, period).Some?
    ensures 0 <= Line(price, seats, days, period).value <= Line(price', seats', days', period).value
  {
    hide Round28;
    assert Line(price', seats', days', period) == ToCents(LineAmount(price' * seats' as real, Share(days', period)));
    ProductMonotone(price, price', seats as real, seats' as real);
    ShareMonotone(days, days', period);
    LineAmountMonotone(price * seats as real, price' * seats' as real, Share(days, period), Share(days', period));
    CentsMonotone(LineAmount(price * seats as real, Share(days, period)),
                  LineAmount(price' * seats' as real, Share(days', period)));
  }

  /** With the whole period ahead a line of whole cents is exactly price times seats. */
  lemma FullPeriodLine(price: real, cents: nat, seats: nat, period: int)
    requires WholeCents(price, cents) && cents * seats < COEFFICIENT_LIMIT && period > 0
    ensures Line(price, seats, period, period) == Some(cents * seats)
  {
    hide Round28;
    var total := (cents * seats) as real / 100.0;
    assert price * seats as real == total by {
      assert cents as real * seats as real == (cents * seats) as real;
    }
    CentsAreExact(cents * seats);
    CentsAreExact(100);
    assert period as real / period as real == 1.0;
    assert Round28(1.0) == 1.0;
    assert Round28(price * seats as real) * 1.0 == total;
    assert total * 100.0 == (cents * seats) as real;
  }

  /** A line of whole-cent prices lies between zero and price times seats, and is always representable. */
  lemma LineWithinPrice(price: real, cents: nat, seats: nat, days: nat, period: int)
    requires WholeCents(price, cents) && cents * seats < COEFFICIENT_LIMIT && days <= period && period > 0
    ensures Line(price, seats, days, period).Some?
    ensures 0 <= Line(price, seats, days, period).value <= cents * seats
  {
    FullPeriodLine(price, cents, seats, period);
    LineMonotone(price, price, seats, seats, days, period, period);
  }

  // ---- Distance from the exact rational ----------------------------------------------------------------

  /** Half a unit in the 28th digit, relative. */
  const ULP := 1.0 / (2.0 * LOW)

  lemma NearProduct(a: real, x: real, b: real, y: real)
    requires 0.0 <= x && 0.0 <= y
    requires x * (1.0 - ULP) <= a <= x * (1.0 + ULP)
    requires y * (1.0 - ULP) <= b <= y * (1.0 + ULP)
    ensures 0.0 <= a * b
    ensures (x * y) * ((1.0 - ULP) * (1.0 - ULP)) <= a * b <= (x * y) * ((1.0 + ULP) * (1.0 + ULP))
  {
    var low, high := 1.0 - ULP, 1.0 + ULP;
    TimesMonotone(0.0, x, low);
    TimesMonotone(0.0, y, low);
    ProductMonotone(x * low, a, y * low, b);
    ProductMonotone(a, x * high, b, y * high);
    Regroup(x, low, y);
    Regroup(x, high, y);
  }

  lemma Regroup(x: real, k: real, y: real)
    ensures (x * k) * (y * k) == (x * y) * (k * k)
  {
    assert (x * k) * (y * k) == x * (k * (y * k));
    assert k * (y * k) == y * (k * k);
    assert x * (y * (k * k)) == (x * y) * (k * k);
  }

  lemma Round28Near(x: real)
    requires 0.0 <= x
    ensures x * (1.0 - ULP) <= Round28(x) <= x * (1.0 + ULP)
  {
    hide Round28;
    Round28Error(x);
  }

  lemma LineAmountNear(amount: real, share: real)
    requires 0.0 <= amount && 0.0 <= share
    ensures 0.0 <= amount * share
    ensures (amount * share) * (1.0 - 4.0 * ULP) <= LineAmount(amount, share) <= (amount * share) * (1.0 + 4.0 * ULP)
  {
    hide Round28;
    Round28Near(amount);
    Round28Near(share);
    NearProduct(Round28(amount), amount, Round28(share), share);
    ProductMonotone(0.0, amount, 0.0, share);
    var product := Round28(amount) * Round28(share);
    Round28Near(product);
    NearThrice(product, amount * share, Round28(product));
  }

  /** The amount a line stands for, without any rounding: price times seats, for `days` out of `period`. */
  function Exact(price: real, seats: nat, days: nat, period: int): real
    requires period > 0
  {
    (price * seats as real) * (days as real / period as real)
  }

  /** A line is within half a cent, plus four half-units of relative context error, of the exact amount. */
  lemma LineError(price: real, seats: nat, days: nat, period: int)
    requires 0.0 <= price && period > 0 && Line(price, seats, days, period).Some?
    ensures var exact := Exact(price, seats, days, period);
            var line := Line(price, seats, days, period).value as real / 100.0;
            exact >= 0.0 && -(0.005 + exact * (4.0 * ULP)) <= line - exact <= 0.005 + exact * (4.0 * ULP)
  {
    hide Round28;
    assert Line(price, seats, days, period) == ToCents(LineAmount(price * seats as real, Share(days, period)));
    ProductMonotone(0.0, price, 0.0, seats as real);
    ShareMonotone(days, days, period);
    LineAmountNear(price * seats as real, Share(days, period));
    var exact := Exact(price, seats, days, period);
    assert exact * (1.0 + 4.0 * ULP) == exact + exact * (4.0 * ULP);
    assert exact * (1.0 - 4.0 * ULP) == exact - exact * (4.0 * ULP);
  }

  lemma NearThrice(product: real, exact: real, rounded: real)
    requires 0.0 <= exact && 0.0 <= product
    requires exact * ((1.0 - ULP) * (1.0 - ULP)) <= product <= exact * ((1.0 + ULP) * (1.0 + ULP))
    requires product * (1.0 - ULP) <= rounded <= product * (1.0 + ULP)
    ensures exact * (1.0 - 4.0 * ULP) <= rounded <= exact * (1.0 + 4.0 * ULP)
  {
    var low, high := (1.0 - ULP) * (1.0 - ULP), (1.0 + ULP) * (1.0 + ULP);
    assert low * (1.0 - ULP) >= 1.0 - 4.0 * ULP;
    assert high * (1.0 + ULP) <= 1.0 + 4.0 * ULP;
  }

  // ---- What is due -----------------------------------------------------------------------------------------

  /** The total is exactly the difference of the two lines the invoice shows. */
  lemma DueIsDifference(data: ProrationInput)
    requires CalculateProration(data).Ok?
    ensures var r := CalculateProration(data).value;
            && r.amountDue == r.newPlanCharge - r.unusedCredit
            && 0 <= r.newPlanCharge && 0 <= r.unusedCredit
  {
    hide Round28;
    var r := CalculateProration(data).value;
    var days, period := r.daysRemaining, r.daysInPeriod;
    LineMonotone(data.currentUnitPrice, data.currentUnitPrice, data.seats, data.seats, days, days, period);
    LineMonotone(data.newUnitPrice, data.newUnitPrice, data.seats, data.seats, days, days, period);
    CentsAreExact(r.newPlanCharge - r.unusedCredit);
  }

  /** The same period, instant and seats, priced for a move between two other plans. */
  function Between(data: ProrationInput, from: real, to: real): ProrationInput {
    data.(currentUnitPrice := from, newUnitPrice := to)
  }

  lemma LinesFit(data: ProrationInput)
    requires CalculateProration(data).Ok?
    ensures CalculateProration(data).value.unusedCredit < COEFFICIENT_LIMIT
    ensures CalculateProration(data).value.newPlanCharge < COEFFICIENT_LIMIT
  {
    hide Round28, LineAmount;
  }

  /** Whenever the two lines exist, so does the total. */
  lemma LinesSuffice(data: ProrationInput, from: real, mid: real, to: real)
    requires CalculateProration(Between(data, from, mid)).Ok? && CalculateProration(Between(data, mid, to)).Ok?
    ensures CalculateProration(Between(data, from, to)).Ok?
    ensures CalculateProration(Between(data, mid, from)).Ok?
  {
    hide Round28, Line;
    LinesFit(Between(data, from, mid));
    LinesFit(Between(data, mid, to));
    DueIsDifference(Between(data, from, mid));
    DueIsDifference(Between(data, mid, to));
    var first := CalculateProration(Between(data, from, mid)).value;
    var second := CalculateProration(Between(data, mid, to)).value;
    CentsAreExact(second.newPlanCharge - first.unusedCredit);
    CentsAreExact(first.unusedCredit - first.newPlanCharge);
  }

  /** Conservation: stepping through a middle plan costs the same to the cent, and going back refunds it all. */
  lemma ProrationConserves(data: ProrationInput, from: real, mid: real, to: real)
    requires CalculateProration(Between(data, from, mid)).Ok? && CalculateProration(Between(data, mid, to)).Ok?
    ensures CalculateProration(Between(data, from, to)).Ok? && CalculateProration(Between(data, mid, from)).Ok?
    ensures CalculateProration(Between(data, from, mid)).value.amountDue
            + CalculateProration(Between(data, mid, to)).value.amountDue
            == CalculateProration(Between(data, from, to)).value.amountDue
    ensures CalculateProration(Between(data, from, mid)).value.amountDue
            == -CalculateProration(Between(data, mid, from)).value.amountDue
  {
    hide Round28, Line;
    LinesSuffice(data, from, mid, to);
    DueIsDifference(Between(data, from, mid));
    DueIsDifference(Between(data, mid, to));
    DueIsDifference(Between(data, from, to));
    DueIsDifference(Between(data, mid, from));
  }

  /** Moving to a plan that is not cheaper never yields a credit; moving to one that is not dearer never a charge. */
  lemma DueFollowsPrice(data: ProrationInput)
    requires CalculateProration(data).Ok?
    ensures data.currentUnitPrice <= data.newUnitPrice ==> CalculateProration(data).value.amountDue >= 0
    ensures data.newUnitPrice <= data.currentUnitPrice ==> CalculateProration(data).value.amountDue <= 0
  {
    DueIsDifference(data);
    var r := CalculateProration(data).value;
    var days, period := r.daysRemaining, r.daysInPeriod;
    if data.currentUnitPrice <= data.newUnitPrice {
      LineMonotone(data.currentUnitPrice, data.newUnitPrice, data.seats, data.seats, days, days, period);
    } else {
      LineMonotone(data.newUnitPrice, data.currentUnitPrice, data.seats, data.seats, days, days, period);
    }
  }

  /** Waiting never makes a line larger. */
  lemma LaterNeverDearer(data: ProrationInput, later: int)
    requires CalculateProration(data).Ok? && data.effectiveAt <= later <= data.periodEnd
    ensures var r' := CalculateProration(data.(effectiveAt := later));
            var r := CalculateProration(data).value;
            r'.Ok? && r'.value.newPlanCharge <= r.newPlanCharge && r'.value.unusedCredit <= r.unusedCredit
            && r'.value.daysRemaining <= r.daysRemaining
  {
    hide Round28;
    var data' := data.(effectiveAt := later);
    ClampsAreNoOps(data);
    ClampsAreNoOps(data');
    DaysMonotone(data.periodEnd - later, data.periodEnd - data.effectiveAt);
    var r := CalculateProration(data).value;
    var days := DaysRemaining(data');
    var current, more, period := data.currentUnitPrice, r.daysRemaining, r.daysInPeriod;
    LineMonotone(current, current, data.seats, data.seats, days, more, period);
    LineMonotone(data.newUnitPrice, data.newUnitPrice, data.seats, data.seats, days, more, period);
    CentsAreExact(Line(data.newUnitPrice, data.seats, days, r.daysInPeriod).value
                  - Line(data.currentUnitPrice, data.seats, days, r.daysInPeriod).value);
  }

  /** Every upgrade the schema can describe is priced: whole-cent prices, at least one seat and one day. */
  lemma SchemaValuesArePriced(data: ProrationInput, current: nat, target: nat)
    requires WholeCents(data.currentUnitPrice, current) && WholeCents(data.newUnitPrice, target)
    requires data.seats >= 1 && current * data.seats < COEFFICIENT_LIMIT && target * data.seats < COEFFICIENT_LIMIT
    requires data.periodStart <= data.effectiveAt <= data.periodEnd
    requires Days(data.periodEnd - data.periodStart) >= 1
    ensures CalculateProration(data).Ok?
    ensures -(current * data.seats) <= CalculateProration(data).value.amountDue <= target * data.seats
  {
    hide Round28;
    ClampsAreNoOps(data);
    var period, days := Days(data.periodEnd - data.periodStart), DaysRemaining(data);
    LineWithinPrice(data.currentUnitPrice, current, data.seats, days, period);
    LineWithinPrice(data.newUnitPrice, target, data.seats, days, period);
    CentsAreExact(Line(data.newUnitPrice, data.seats, days, period).value
                  - Line(data.currentUnitPrice, data.seats, days, period).value);
    DueIsDifference(data);
  }

  // ---- What a proration comes to ------------------------------------------------------------------------------

  /** Away from the exact amount by no more than the context's rounding: four half-units of its 28th digit. */
  predicate NearlyExact(amount: real, exact: real) {
    exact - exact * (4.0 * ULP) <= amount <= exact + exact * (4.0 * ULP)
  }

  /** The cents of an amount, halves up. */
  predicate IsCentsOf(cents: int, amount: real) {
    cents as real - 0.5 <= amount * 100.0 < cents as real + 0.5
  }

  lemma LineIsCentsOf(price: real, seats: nat, days: nat, period: int) returns (amount: real)
    requires 0.0 <= price && period > 0 && Line(price, seats, days, period).Some?
    ensures NearlyExact(amount, Exact(price, seats, days, period)) && amount >= 0.0
    ensures IsCentsOf(Line(price, seats, days, period).value, amount)
  {
    hide Round28;
    amount := LineAmount(price * seats as real, Share(days, period));
    assert Line(price, seats, days, period) == ToCents(amount);
    ProductMonotone(0.0, price, 0.0, seats as real);
    ShareMonotone(days, days, period);
    LineAmountNear(price * seats as real, Share(days, period));
    var exact := Exact(price, seats, days, period);
    assert exact * (1.0 + 4.0 * ULP) == exact + exact * (4.0 * ULP);
    assert exact * (1.0 - 4.0 * ULP) == exact - exact * (4.0 * ULP);
    ProductMonotone(0.0, exact, 0.0, 1.0 - 4.0 * ULP);
    HalvesGoUp(amount * 100.0, Line(price, seats, days, period).value);
  }

  /** What is left of the period when the change takes effect, in whole days out of whole days. */
  lemma DaysAre(data: ProrationInput)
    requires CalculateProration(data).Ok?
    ensures var r := CalculateProration(data).value;
            && r.daysRemaining == (data.periodEnd - data.effectiveAt) / 86_400_000_000
            && r.daysInPeriod == (data.periodEnd - data.periodStart) / 86_400_000_000
            && 0 <= r.daysRemaining <= r.daysInPeriod && r.daysInPeriod >= 1
  {
    hide Round28, Line;
    ClampsAreNoOps(data);
  }

  /**
   Each line is price times seats times the days remaining over the days of the period, rounded to cents with halves
   up, but for the context's rounding: the charge at the new price and the credit at the current one. With no whole
   day remaining both are zero.
   */
  lemma LinesFollowTheDays(data: ProrationInput) returns (credit: real, charge: real)
    requires CalculateProration(data).Ok?
    ensures var r := CalculateProration(data).value;
            var days := (data.periodEnd - data.effectiveAt) / 86_400_000_000;
            var period := (data.periodEnd - data.periodStart) / 86_400_000_000;
            && 0 <= days <= period && period >= 1
            && data.seats >= 1
            && NearlyExact(credit, Exact(data.currentUnitPrice, data.seats, days, period))
            && NearlyExact(charge, Exact(data.newUnitPrice, data.seats, days, period))
            && IsCentsOf(r.unusedCredit, credit) && IsCentsOf(r.newPlanCharge, charge)
            && (days == 0 ==> r.unusedCredit == 0 && r.newPlanCharge == 0)
  {
    hide Round28, Line, NearlyExact, IsCentsOf, CalculateProration, Exact;
    DaysAre(data);
    LinesAre(data);
    var r := CalculateProration(data).value;
    var days, period := r.daysRemaining, r.daysInPeriod;
    credit := LineIsCentsOf(data.currentUnitPrice, data.seats, days, period);
    charge := LineIsCentsOf(data.newUnitPrice, data.seats, days, period);
    if days == 0 {
      NothingIsZero(credit, data.currentUnitPrice, data.seats, period, r.unusedCredit);
      NothingIsZero(charge, data.newUnitPrice, data.seats, period, r.newPlanCharge);
    }
  }

  lemma LinesAre(data: ProrationInput)
    requires CalculateProration(data).Ok?
    ensures data.seats >= 1 && 0.0 <= data.currentUnitPrice && 0.0 <= data.newUnitPrice
    ensures var r := CalculateProration(data).value;
            && r.daysInPeriod >= 1 && 0 <= r.daysRemaining
            && Line(data.currentUnitPrice, data.seats, r.daysRemaining, r.daysInPeriod) == Some(r.unusedCredit)
            && Line(data.newUnitPrice, data.seats, r.daysRemaining, r.daysInPeriod) == Some(r.newPlanCharge)
  {
    hide Round28, Line;
  }

  lemma NothingIsZero(amount: real, price: real, seats: nat, period: int, cents: int)
    requires period >= 1 && NearlyExact(amount, Exact(price, seats, 0, period)) && IsCentsOf(cents, amount)
    ensures cents == 0
  {
    assert 0.0 / period as real == 0.0;
    assert Exact(price, seats, 0, period) == 0.0;
  }

  /** Whenever the exact amount is not within the context's rounding of a half cent, a line is its cents, halves up. */
  lemma LineIsRoundedExactly(price: real, seats: nat, days: nat, period: int, cents: int)
    requires 0.0 <= price && period > 0 && Line(price, seats, days, period).Some?
    requires var exact := Exact(price, seats, days, period);
             var off := exact * (4.0 * ULP) * 100.0;
             cents as real - 0.5 + off <= exact * 100.0 && exact * 100.0 + off < cents as real + 0.5
    ensures Line(price, seats, days, period).value == cents
  {
    hide Line, Exact;
    var amount := LineIsCentsOf(price, seats, days, period);
    SameCents(amount, Exact(price, seats, days, period), Line(price, seats, days, period).value, cents);
  }

  lemma SameCents(amount: real, exact: real, c: int, cents: int)
    requires NearlyExact(amount, exact) && IsCentsOf(c, amount)
    requires var off := exact * (4.0 * ULP) * 100.0;
             cents as real - 0.5 + off <= exact * 100.0 && exact * 100.0 + off < cents as real + 0.5
    ensures c == cents
  {
  }

  /**
   Rounding halves up does not mean that an exact half cent is rounded up: the context rounds before. For 0.21 and 5
   of 14 days the exact amount is 0.075, and the line is 0.07.
   */
  lemma HalfCentIsLost()
    ensures Exact(0.21, 1, 5, 14) == 0.075 && Line(0.21, 1, 5, 14) == Some(7)
  {
    SmallScales();
    hide Scale;
    CentsAreExact(21);
    var share := 3571428571428571428571428571.0 * Scale(-28);
    Round28Is(5.0 / 14.0, -28, 3571428571428571428571428571);
    assert Share(5, 14) == 5.0 / 14.0;
    Round28Is(0.21 * share, -29, 7499999999999999999999999999);
    var amount := LineAmount(0.21, Share(5, 14));
    assert amount == 7499999999999999999999999999.0 * Scale(-29);
    HalvesGoUp(amount * 100.0, 7);
  }

  /** Which inputs are refused, and with which complaint; in range, only amounts of more than 28 digits are. */
  lemma RefusedInputs(data: ProrationInput)
    ensures var p := CalculateProration(data);
            if data.seats < 1 then p == Err(SeatsBelowOne)
            else if data.currentUnitPrice < 0.0 || data.newUnitPrice < 0.0 then p == Err(NegativePrice)
            else if data.periodEnd <= data.periodStart then p == Err(PeriodNotOrdered)
            else if data.effectiveAt < data.periodStart || data.periodEnd < data.effectiveAt
              then p == Err(EffectiveOutsidePeriod)
            else if data.periodEnd - data.periodStart < 86_400_000_000 then p == Err(PeriodUnderOneDay)
            else p.Ok? || p == Err(InvalidOperation)
  {
    hide Round28, Line;
  }

  // ---- Discounts --------------------------------------------------------------------------------------------

  /** What is left of an amount when `kept` percent of it is charged. */
  function Keep(amount: real, kept: real): Option<int> {
    ToCents(Round28(Round28(amount * kept) / 100.0))
  }

  function ApplyDiscount(amount: real, percentOff: real): Result<int, PricingError> {
    if percentOff < 0.0 || percentOff > 100.0 then Err(PercentOutOfRange)
    else
      match Keep(amount, Round28(100.0 - percentOff))
      case Some(cents) => Ok(cents)
      case None => Err(InvalidOperation)
  }

  lemma CentsRoundTrip(c: int)
    requires -COEFFICIENT_LIMIT < c < COEFFICIENT_LIMIT
    ensures ToCents(c as real / 100.0) == Some(c)
  {
    assert c as real / 100.0 * 100.0 == c as real;
  }

  lemma KeepEverything(amount: real, cents: nat)
    requires WholeCents(amount, cents) && cents * 100 < COEFFICIENT_LIMIT
    ensures Keep(amount, 100.0) == Some(cents)
  {
    hide Round28, ToCents;
    CentsAreExact(cents * 100);
    CentsAreExact(cents);
    CentsRoundTrip(cents);
    assert (cents * 100) as real / 100.0 == amount * 100.0;
    assert Round28(amount * 100.0) == cents as real;
  }

  lemma KeepNothing(amount: real)
    ensures Keep(amount, 0.0) == Some(0)
  {
    hide Round28, ToCents;
    CentsAreExact(0);
    CentsRoundTrip(0);
    assert amount * 0.0 == 0.0;
  }

  lemma KeepMonotone(amount: real, kept: real, kept': real)
    requires 0.0 <= amount && 0.0 <= kept <= kept' && Keep(amount, kept').Some?
    ensures Keep(amount, kept).Some? && 0 <= Keep(amount, kept).value <= Keep(amount, kept').value
  {
    hide Round28;
    ProductMonotone(amount, amount, kept, kept');
    Round28Monotone(amount * kept, amount * kept');
    Round28Monotone(Round28(amount * kept) / 100.0, Round28(amount * kept') / 100.0);
    CentsMonotone(Round28(Round28(amount * kept) / 100.0), Round28(Round28(amount * kept') / 100.0));
  }

  /** A deeper discount never costs more; none leaves a whole-cent amount alone and a full one leaves nothing. */
  lemma DiscountOrder(amount: real, cents: nat, less: real, more: real)
    requires WholeCents(amount, cents) && cents * 100 < COEFFICIENT_LIMIT
    requires 0.0 <= less <= more <= 100.0
    ensures ApplyDiscount(amount, 0.0) == Ok(cents) && ApplyDiscount(amount, 100.0) == Ok(0)
    ensures ApplyDiscount(amount, more).Ok? && ApplyDiscount(amount, less).Ok?
    ensures 0 <= ApplyDiscount(amount, more).value <= ApplyDiscount(amount, less).value <= cents
  {
    hide Round28, Keep;
    CentsAreExact(0);
    CentsAreExact(10000);
    KeepEverything(amount, cents);
    KeepNothing(amount);
    Round28Monotone(0.0, 100.0 - more);
    Round28Monotone(100.0 - more, 100.0 - less);
    Round28Monotone(100.0 - less, 100.0);
    KeepMonotone(amount, Round28(100.0 - less), 100.0);
    KeepMonotone(amount, Round28(100.0 - more), Round28(100.0 - less));
  }

  /** So many percent of an amount, without any rounding. */
  function Percent(amount: real, percent: real): real {
    amount * percent / 100.0
  }

  /** A discount takes its percentage off, rounded to cents with halves up, but for the context's rounding. */
  lemma DiscountIs(amount: real, percentOff: real) returns (kept: real)
    requires 0.0 <= amount && 0.0 <= percentOff <= 100.0 && ApplyDiscount(amount, percentOff).Ok?
    ensures NearlyExact(kept, Percent(amount, 100.0 - percentOff))
    ensures IsCentsOf(ApplyDiscount(amount, percentOff).value, kept)
  {
    hide Round28, NearlyExact, IsCentsOf, Percent;
    kept := KeptAmount(amount, Round28(100.0 - percentOff));
    KeptNear(amount, 100.0 - percentOff);
    DiscountNear(kept, Percent(amount, 100.0 - percentOff));
    CentsAre(kept, ApplyDiscount(amount, percentOff).value);
  }

  /** What is left, before it is quantised. */
  function KeptAmount(amount: real, kept: real): real {
    Round28(Round28(amount * kept) / 100.0)
  }

  lemma CentsAre(amount: real, cents: int)
    requires 0.0 <= amount && ToCents(amount) == Some(cents)
    ensures IsCentsOf(cents, amount)
  {
    HalvesGoUp(amount * 100.0, cents);
  }

  lemma KeptNear(amount: real, percent: real)
    requires 0.0 <= amount && 0.0 <= percent
    ensures var exact, kept := Percent(amount, percent), KeptAmount(amount, Round28(percent));
            0.0 <= exact && exact * (1.0 - 4.0 * ULP) <= kept <= exact * (1.0 + 4.0 * ULP)
  {
    hide Round28;
    var share, exact := Round28(percent), amount * percent;
    Round28Near(percent);
    ScaledNear(amount, share, percent);
    ProductMonotone(0.0, amount, 0.0, percent);
    assert exact >= 0.0;
    TwoRoundings(amount, percent, share);
  }

  lemma TwoRoundings(amount: real, percent: real, share: real)
    requires 0.0 <= amount * percent && 0.0 <= amount * share
    requires (amount * percent) * (1.0 - ULP) <= amount * share <= (amount * percent) * (1.0 + ULP)
    ensures var exact, kept := Percent(amount, percent), KeptAmount(amount, share);
            0.0 <= exact && exact * (1.0 - 4.0 * ULP) <= kept <= exact * (1.0 + 4.0 * ULP)
  {
    hide Round28;
    RoundedHundredth(amount * percent, amount * share);
    assert KeptAmount(amount, share) == Round28(Round28(amount * share) / 100.0);
    assert Percent(amount, percent) == amount * percent / 100.0;
  }

  lemma RoundedHundredth(exact: real, product: real)
    requires 0.0 <= exact && 0.0 <= product && exact * (1.0 - ULP) <= product <= exact * (1.0 + ULP)
    ensures var kept := Round28(Round28(product) / 100.0);
            0.0 <= exact / 100.0
            && exact / 100.0 * (1.0 - 4.0 * ULP) <= kept <= exact / 100.0 * (1.0 + 4.0 * ULP)
  {
    hide Round28;
    Round28Near(product);
    RoundedTwice(exact, product, Round28(product));
    HundredthNear(exact, Round28(product));
    Round28Near(Round28(product) / 100.0);
    NearThrice(Round28(product) / 100.0, exact / 100.0, Round28(Round28(product) / 100.0));
  }

  lemma ScaledNear(amount: real, share: real, exact: real)
    requires 0.0 <= amount && 0.0 <= exact && exact * (1.0 - ULP) <= share <= exact * (1.0 + ULP)
    ensures 0.0 <= amount * share
    ensures (amount * exact) * (1.0 - ULP) <= amount * share <= (amount * exact) * (1.0 + ULP)
  {
    TimesMonotone(0.0, exact, 1.0 - ULP);
    ProductMonotone(amount, amount, exact * (1.0 - ULP), share);
    ProductMonotone(amount, amount, share, exact * (1.0 + ULP));
    assert amount * (exact * (1.0 - ULP)) == (amount * exact) * (1.0 - ULP);
    assert amount * (exact * (1.0 + ULP)) == (amount * exact) * (1.0 + ULP);
  }

  lemma RoundedTwice(exact: real, product: real, rounded: real)
    requires 0.0 <= exact && exact * (1.0 - ULP) <= product <= exact * (1.0 + ULP)
    requires product * (1.0 - ULP) <= rounded <= product * (1.0 + ULP)
    ensures exact * ((1.0 - ULP) * (1.0 - ULP)) <= rounded <= exact * ((1.0 + ULP) * (1.0 + ULP))
  {
    TimesMonotone(exact * (1.0 - ULP), product, 1.0 - ULP);
    TimesMonotone(product, exact * (1.0 + ULP), 1.0 + ULP);
    assert (exact * (1.0 - ULP)) * (1.0 - ULP) == exact * ((1.0 - ULP) * (1.0 - ULP));
    assert (exact * (1.0 + ULP)) * (1.0 + ULP) == exact * ((1.0 + ULP) * (1.0 + ULP));
  }

  lemma HundredthNear(exact: real, rounded: real)
    requires 0.0 <= exact
    requires exact * ((1.0 - ULP) * (1.0 - ULP)) <= rounded <= exact * ((1.0 + ULP) * (1.0 + ULP))
    ensures 0.0 <= exact / 100.0 && 0.0 <= rounded / 100.0
    ensures exact / 100.0 * ((1.0 - ULP) * (1.0 - ULP)) <= rounded / 100.0
            <= exact / 100.0 * ((1.0 + ULP) * (1.0 + ULP))
  {
    var low := (1.0 - ULP) * (1.0 - ULP);
    TimesMonotone(0.0, exact, low);
  }

  lemma DiscountNear(kept: real, exact: real)
    requires 0.0 <= exact && exact * (1.0 - 4.0 * ULP) <= kept <= exact * (1.0 + 4.0 * ULP)
    ensures NearlyExact(kept, exact) && 0.0 <= kept
  {
    ProductMonotone(0.0, exact, 0.0, 1.0 - 4.0 * ULP);
  }
}
