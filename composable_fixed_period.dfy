/** ComposableFixedPeriod: a fixed-coupon composable sub-period, adding a
    fixed coupon and a basis to the composable period it extends, and
    computing accrued amounts from them. */
module FixedPeriod {
  import opened Outcomes

  const InvalidInputs := "ComposableFixedPeriod ctr: Invalid Inputs"

  /** One basis point, the scale of accrued01. */
  const BasisPoint: real := 0.0001

  /** The ComposablePeriod superclass as this class uses it. Its dates, day
      counts and calendars are not part of this model: `notional` and
      `fullCouponDCF` are what notional() and fullCouponDCF() return, and
      `accrualDCF` is accrualDCF(date), which is Err where it throws (an
      invalid date or one outside the period). */
  datatype ComposablePeriod = ComposablePeriod(
    notional: real,
    fullCouponDCF: real,
    accrualDCF: real -> Result<real>)

  /** The destructors fixedCoupon and basis are the getters. */
  datatype ComposableFixedPeriod = ComposableFixedPeriod(
    period: ComposablePeriod,
    fixedCoupon: real,
    basis: real)

  /** The constructor. `period` is the outcome of the superclass constructor,
      which runs first; then the coupon and the basis must both pass the
      validity test. */
  function Make(isValid: Validity, period: Result<ComposablePeriod>, fixedCoupon: real, basis: real)
    : (r: Result<ComposableFixedPeriod>)
    ensures r.Ok? <==> period.Ok? && isValid(fixedCoupon) && isValid(basis)
    ensures period.Err? ==> r == Err(period.error)
    ensures period.Ok? && !(isValid(fixedCoupon) && isValid(basis)) ==> r == Err(InvalidInputs)
    ensures r.Ok? ==>
      && r.value.fixedCoupon == fixedCoupon
      && r.value.basis == basis
      && r.value.period == period.value
  {
    match period
    case Err(e) => Err(e)
    case Ok(base) =>
      if !isValid(fixedCoupon) || !isValid(basis) then Err(InvalidInputs)
      else Ok(ComposableFixedPeriod(base, fixedCoupon, basis))
  }

  /** accrued01(date): the accrued amount per basis point of coupon. It fails
      exactly where the accrual day-count fraction fails. */
  function Accrued01(p: ComposableFixedPeriod, accrualEnd: real): (r: Result<real>)
    ensures r.Ok? <==> p.period.accrualDCF(accrualEnd).Ok?
    ensures r.Err? ==> r.error == p.period.accrualDCF(accrualEnd).error
  {
    match p.period.accrualDCF(accrualEnd)
    case Err(e) => Err(e)
    case Ok(dcf) => Ok(BasisPoint * p.period.notional * dcf)
  }

  /** accrued(date, quotes): the coupon accrued to the date. Q stands for the
      market quote set, which the computation never reads. */
  function Accrued<Q>(p: ComposableFixedPeriod, accrualEnd: real, csqs: Q): (r: Result<real>)
    ensures r.Ok? <==> p.period.accrualDCF(accrualEnd).Ok?
    ensures r.Err? ==> r.error == p.period.accrualDCF(accrualEnd).error
  {
    match p.period.accrualDCF(accrualEnd)
    case Err(e) => Err(e)
    case Ok(dcf) => Ok(p.period.notional * (p.fixedCoupon + p.basis) * dcf)
  }

  /** fullCouponAccrued(quotes): notional times the all-in coupon times the
      period's full-coupon fraction, a constructor input of the superclass. */
  function FullCouponAccrued<Q>(p: ComposableFixedPeriod, csqs: Q): real
  {
    p.period.notional * (p.fixedCoupon + p.basis) * p.period.fullCouponDCF
  }

  /** The accrued amount is the all-in coupon, in basis points, times the
      accrued01 of the same date; both fail together. */
  lemma AccruedIsCouponTimesAccrued01<Q>(p: ComposableFixedPeriod, accrualEnd: real, csqs: Q)
    ensures Accrued(p, accrualEnd, csqs).Ok? <==> Accrued01(p, accrualEnd).Ok?
    ensures Accrued01(p, accrualEnd).Ok? ==>
      Accrued(p, accrualEnd, csqs).value
        == (p.fixedCoupon + p.basis) * 10000.0 * Accrued01(p, accrualEnd).value
  {
  }

  /** accrued01 does not depend on the coupon or the basis: two periods
      built on the same superclass state have the same accrued01. */
  lemma Accrued01IgnoresCoupon(isValid: Validity, period: Result<ComposablePeriod>,
                               coupon1: real, basis1: real, coupon2: real, basis2: real, accrualEnd: real)
    requires Make(isValid, period, coupon1, basis1).Ok?
    requires Make(isValid, period, coupon2, basis2).Ok?
    ensures Accrued01(Make(isValid, period, coupon1, basis1).value, accrualEnd)
         == Accrued01(Make(isValid, period, coupon2, basis2).value, accrualEnd)
  {
    var p1, p2 := Make(isValid, period, coupon1, basis1).value, Make(isValid, period, coupon2, basis2).value;
    var dcf := period.value.accrualDCF(accrualEnd);
    assert p1.period == p2.period == period.value;
    if dcf.Ok? {
      assert Accrued01(p1, accrualEnd).Ok? && Accrued01(p2, accrualEnd).Ok?;
      assert Accrued01(p1, accrualEnd).value == BasisPoint * p1.period.notional * dcf.value;
      assert Accrued01(p2, accrualEnd).value == BasisPoint * p2.period.notional * dcf.value;
      assert Accrued01(p1, accrualEnd).value == Accrued01(p2, accrualEnd).value;
    } else {
      assert Accrued01(p1, accrualEnd).error == Accrued01(p2, accrualEnd).error;
    }
  }

  /** The coupon and the basis enter the accrued amounts only through their
      sum: moving spread between them changes neither accrued nor
      fullCouponAccrued. */
  lemma AccruedDependsOnSum<Q>(period: ComposablePeriod, coupon1: real, basis1: real,
                               coupon2: real, basis2: real, accrualEnd: real, csqs: Q)
    requires coupon1 + basis1 == coupon2 + basis2
    ensures Accrued(ComposableFixedPeriod(period, coupon1, basis1), accrualEnd, csqs)
         == Accrued(ComposableFixedPeriod(period, coupon2, basis2), accrualEnd, csqs)
    ensures FullCouponAccrued(ComposableFixedPeriod(period, coupon1, basis1), csqs)
         == FullCouponAccrued(ComposableFixedPeriod(period, coupon2, basis2), csqs)
  {
    var p1, p2 := ComposableFixedPeriod(period, coupon1, basis1), ComposableFixedPeriod(period, coupon2, basis2);
    var dcf := period.accrualDCF(accrualEnd);
    var allIn := coupon1 + basis1;
    if dcf.Ok? {
      assert Accrued(p1, accrualEnd, csqs).Ok? && Accrued(p2, accrualEnd, csqs).Ok?;
      assert Accrued(p1, accrualEnd, csqs).value == period.notional * allIn * dcf.value;
      assert Accrued(p2, accrualEnd, csqs).value == period.notional * allIn * dcf.value;
    } else {
      assert Accrued(p1, accrualEnd, csqs).error == Accrued(p2, accrualEnd, csqs).error;
    }
  }

  /** The quote set is never consulted. */
  lemma QuoteSetIgnored<Q>(p: ComposableFixedPeriod, accrualEnd: real, csqs1: Q, csqs2: Q)
    ensures Accrued(p, accrualEnd, csqs1) == Accrued(p, accrualEnd, csqs2)
    ensures FullCouponAccrued(p, csqs1) == FullCouponAccrued(p, csqs2)
  {
  }

  /** Full-coupon accrual is the accrual to a date whose day-count fraction
      is the full-coupon fraction: both are notional times all-in coupon
      times a fraction. */
  lemma FullCouponIsAccruedAtFullFraction<Q>(p: ComposableFixedPeriod, accrualEnd: real, csqs: Q)
    requires p.period.accrualDCF(accrualEnd) == Ok(p.period.fullCouponDCF)
    ensures Accrued(p, accrualEnd, csqs) == Ok(FullCouponAccrued(p, csqs))
  {
    var full := p.period.notional * (p.fixedCoupon + p.basis) * p.period.fullCouponDCF;
    assert Accrued(p, accrualEnd, csqs).Ok?;
    assert Accrued(p, accrualEnd, csqs).value == full;
    assert FullCouponAccrued(p, csqs) == full;
  }
}
