# CreditAnalytics value objects in Dafny

This project models four small value classes of the CreditAnalytics
fixed-income library (the DRIP `org.drip` packages). It proves what their
checked constructors accept and refuse, what their getters return, how the
fixed-period accruals relate to each other, and how the daily PnL record is
laid out by `toArray` and `toString`.

- `SegmentInelastic` (`segment_inelastic_params.dfy`) models
  `SegmentInelasticParams`. This is a spline segment's continuity order Ck,
  its roughness-penalty derivative order and its linear node-weight
  constraints. It also has the C2 factory.
- `LocalControl` (`local_control_curve_params.dfy`) models
  `LocalControlCurveParams`. This is the C1 generator scheme plus two
  shape-control flags: the monotone filter and spurious-extrema elimination.
- `FixedPeriod` (`composable_fixed_period.dfy`) models
  `ComposableFixedPeriod`. This is a fixed coupon and a basis over a
  composable period, plus its accrued01, accrued and full-coupon accrued
  amounts.
- `DailyPnL` (`product_daily_pnl.dfy`) models `ProductDailyPnL`. This is
  35 daily PnL metrics, with its `toArray` and `toString`.
- `Separated` (`separated.dfy`) is comma-joined text and its inverse,
  splitting at commas. It is the specification of `toString`'s layout.
- `Outcomes` (`outcomes.dfy`) holds the shared types:
  - `Option`: Java null is `None`.
  - `Result`: a thrown exception is `Err`, carrying the exception's message.
  - `int32`: Java `int`.
  - `Validity`: the type of the finiteness test.

In the source each class has its fields set once in the constructor and
read by getters, and no method reassigns a field. So each is a `datatype`,
and the getters are its destructors, named as in the source, with the `get` prefix dropped for `SegmentInelasticParams`. One
exception: `SegmentInelasticParams` keeps the caller's constraint array by
reference, which the model does not capture (see "## Left out"). The constructor is a `Make` function that returns
`Ok(record)`, or `Err(message)` with the exact message the Java constructor
throws. `toArray` and `toString` work by loops in the source, so they are
methods with loops:
- `ToArray` copies the metric list into a fresh array with a running index.
- `ToString` walks that array with a "first entry" flag.

These are proved against the specification functions `Metrics` and `Text`.

Collaborators the modelled files call but do not contain are parameters of
the model:
- `NumberUtil.IsValid` is the parameter `isValid`.
- The superclass constructors of `LocalControlCurveParams` and
  `ComposableFixedPeriod` arrive as the `Result` they produce.
- `ComposablePeriod`'s `notional()`, `fullCouponDCF()` and `accrualDCF(date)`
  are fields of the `ComposablePeriod` datatype. `accrualDCF` is a function
  that may fail.
- Java's `Double.toString` is the parameter `toStr`.

Every property is proved for every choice of these parameters that meets each lemma's stated hypotheses.

## Model

| member | source | states |
|---|---|---|
| SegmentInelastic.Make | CreditAnalytics/dev/src/org/drip/math/spline/SegmentInelasticParams.java:73-116 | Construction succeeds exactly when Ck >= 0 and the roughness order >= 1, and otherwise fails with "SegmentInelasticParams ctr: Invalid Inputs". On success the record satisfies `Valid`, and the getters return the given Ck, the given order and the given constraint array unchanged, null included. |
| SegmentInelastic.MakeC2SegmentElasticParams | CreditAnalytics/dev/src/org/drip/math/spline/SegmentInelasticParams.java:51-61 | For every constraint array, including null, the C2 factory never yields null. Its result has Ck = 2, roughness order 2 and the given constraints. |
| SegmentInelastic.Boundaries | CreditAnalytics/dev/src/org/drip/math/spline/SegmentInelasticParams.java:81-82 | Ck = 0 with order 1 is accepted. Ck = -1 is rejected, and so is order 0. |
| SegmentInelastic.ConstraintsUnchecked | CreditAnalytics/dev/src/org/drip/math/spline/SegmentInelasticParams.java:79-82 | Whether construction succeeds does not depend on the constraint array, and a null array behaves like any other. |
| SegmentInelastic.MakeInvertsGetters | CreditAnalytics/dev/src/org/drip/math/spline/SegmentInelasticParams.java:91-116 | Rebuilding a valid parameter set from its three getters gives back the same parameter set. |
| LocalControl.Make | CreditAnalytics/dev/src/org/drip/state/estimator/LocalControlCurveParams.java:57-107 | Construction succeeds exactly when the superclass constructor succeeds and the scheme is not null. The superclass's exception takes precedence; a null scheme fails with "LocalControlCurveParams ctr: Invalid Inputs!". On success `applyMonotoneFilter`, `eliminateSpuriousExtrema` and `C1GeneratorScheme` return their own constructor arguments, even though the source takes the flags in the opposite order. |
| LocalControl.EmptySchemeAccepted | CreditAnalytics/dev/src/org/drip/state/estimator/LocalControlCurveParams.java:69-70 | The empty scheme string is accepted and returned as given. |
| LocalControl.FlagsIndependent | CreditAnalytics/dev/src/org/drip/state/estimator/LocalControlCurveParams.java:72-96 | With a non-null scheme and a successful superclass construction, all four flag combinations construct, and each getter reports its own flag. |
| FixedPeriod.Make | CreditAnalytics/dev/src/org/drip/analytics/cashflow/ComposableFixedPeriod.java:61-103 | Construction succeeds exactly when the superclass construction succeeds and both the coupon and the basis pass `isValid`. The superclass's exception takes precedence; otherwise the failure is "ComposableFixedPeriod ctr: Invalid Inputs". On success `fixedCoupon()` and `basis()` return the arguments, and the period state is the superclass's. |
| FixedPeriod.Accrued01 | CreditAnalytics/dev/src/org/drip/analytics/cashflow/ComposableFixedPeriod.java:115-120 | accrued01 fails exactly when the accrual day-count fraction fails, and then with its exception. |
| FixedPeriod.Accrued | CreditAnalytics/dev/src/org/drip/analytics/cashflow/ComposableFixedPeriod.java:122-128 | accrued fails exactly when the accrual day-count fraction fails, and then with its exception. |
| FixedPeriod.FullCouponAccrued | CreditAnalytics/dev/src/org/drip/analytics/cashflow/ComposableFixedPeriod.java:130-134 | The body is the source's expression at line 133: notional x (coupon + basis) x fullCouponDCF. The function has no contract of its own; three lemmas prove its properties. `FullCouponIsAccruedAtFullFraction`: it equals accrued at any date whose accrual fraction equals fullCouponDCF, which the source does not guarantee of any date. `QuoteSetIgnored`: it ignores the quote set. `AccruedDependsOnSum`: it depends on coupon and basis only through their sum. |
| FixedPeriod.AccruedIsCouponTimesAccrued01 | CreditAnalytics/dev/src/org/drip/analytics/cashflow/ComposableFixedPeriod.java:115-128 | Accrued and accrued01 succeed together. When they do, over the reals, accrued = (coupon + basis) x 10000 x accrued01. |
| FixedPeriod.Accrued01IgnoresCoupon | CreditAnalytics/dev/src/org/drip/analytics/cashflow/ComposableFixedPeriod.java:115-120 | Two periods built on the same superclass state have the same accrued01 at every date, whatever their coupons and bases. |
| FixedPeriod.AccruedDependsOnSum | CreditAnalytics/dev/src/org/drip/analytics/cashflow/ComposableFixedPeriod.java:122-134 | Coupon and basis enter accrued and fullCouponAccrued only through their sum. |
| FixedPeriod.QuoteSetIgnored | CreditAnalytics/dev/src/org/drip/analytics/cashflow/ComposableFixedPeriod.java:122-134 | `accrued` and `fullCouponAccrued` give the same result for every quote set. |
| FixedPeriod.FullCouponIsAccruedAtFullFraction | CreditAnalytics/dev/src/org/drip/analytics/cashflow/ComposableFixedPeriod.java:122-134 | At a date whose accrual day-count fraction is the full-coupon fraction, accrued equals fullCouponAccrued, i.e. notional x (coupon + basis) x fullCouponDCF. |
| DailyPnL.Make | CreditAnalytics/dev/src/org/drip/service/api/ProductDailyPnL.java:119-596 | Construction succeeds exactly when every `toArray` entry except the two accrual-day counts (indices 27 and 28) passes `isValid`. So any one of the 33 doubles failing throws "ProductDailyPnL ctr: Invalid Inputs!", and the two integers are never checked. On success every getter returns its constructor argument unchanged. |
| DailyPnL.Metrics | CreditAnalytics/dev/src/org/drip/service/api/ProductDailyPnL.java:604-676 | The definition of `toArray`'s contents: 35 entries, entry k being `Metric(p, k)`. That is the k-th constructor argument in parameter order, with entries 27 and 28 the fixed and floating accrual days widened to double. The function has no contract of its own; three members prove its properties. `ToArray` proves the array equals it, `MetricsInjective` proves it loses nothing, and `CheckedPositions` proves the constructor's checks are the validity of every entry but 27 and 28. |
| DailyPnL.CheckedPositions | CreditAnalytics/dev/src/org/drip/service/api/ProductDailyPnL.java:157-207 | The constructor's 33-test validity chain passes exactly when every position of the metric list other than 27 and 28 holds a valid value. |
| DailyPnL.MetricsInjective | CreditAnalytics/dev/src/org/drip/service/api/ProductDailyPnL.java:604-686 | `toArray` loses nothing: two records with element-wise equal arrays are the same record. |
| DailyPnL.ToArray | CreditAnalytics/dev/src/org/drip/service/api/ProductDailyPnL.java:604-686 | Each call returns a fresh array whose contents are exactly the 35 metrics in order. The record is a value and cannot change, so repeated calls return element-wise equal arrays. |
| DailyPnL.ToString | CreditAnalytics/dev/src/org/drip/service/api/ProductDailyPnL.java:688-704 | The loop with its first-entry flag returns the rendered `toArray` entries joined by single commas, with none before the first entry or after the last. |
| DailyPnL.TextLayout | CreditAnalytics/dev/src/org/drip/service/api/ProductDailyPnL.java:688-704 | For a number renderer that writes no commas, as `Double.toString` does not, the text has exactly 34 commas. Cutting it at the commas gives back the 35 rendered metrics in order. |
| Separated.JoinSnoc | CreditAnalytics/dev/src/org/drip/service/api/ProductDailyPnL.java:694-701 | One loop step of `toString`: appending a field to a join adds one comma and the field, except before the first field (when the field list is empty). |
| Separated.JoinCommaCount | CreditAnalytics/dev/src/org/drip/service/api/ProductDailyPnL.java:694-701 | Joining n >= 1 comma-free fields writes exactly n - 1 commas. |
| Separated.SplitJoin | CreditAnalytics/dev/src/org/drip/service/api/ProductDailyPnL.java:688-704 | Splitting at commas undoes joining, given at least one field and no field containing a comma. |
| Separated.JoinSplit | CreditAnalytics/dev/src/org/drip/service/api/ProductDailyPnL.java:688-704 | Joining undoes splitting, for any text. |

## Left out

- The curve-calibration engine is not part of this model: segment fitting, the instrument-by-instrument bootstrap, the shape controller and the latent-state shifts. None of its code is in the modelled files.
- `NumberUtil.IsValid` is not part of this model. Every checked constructor takes it as the parameter `isValid`, so the results hold for any validity test.
- The superclasses `SmoothingCurveRegimeParams` and `ComposablePeriod` are not part of this model. Their constructors are represented only by the `Result` they produce. Their day-count, calendar and date-in-period logic is represented only by `notional`, `fullCouponDCF` and a possibly failing `accrualDCF`.
- `SegmentNodeWeightConstraint` is not part of this model. It is a type parameter `C`; elements of the constraint array are never inspected.
- Java doubles are modelled as `real`. There is no NaN, infinity or IEEE rounding; this matters in two places:
  - accrued = (coupon + basis) x 10000 x accrued01 holds exactly only over the reals, since 0.0001 has no exact binary form.
  - the int-to-double widening at `toArray` indices 27 and 28 is modelled as exact, which it is for every 32-bit int.
- `Double.toString` formatting is not modelled. `toString` takes the renderer as the parameter `toStr`, and the "no comma" fact about the renderer is a precondition of `DailyPnL.TextLayout`.
- `MakeC2SegmentElasticParams` prints a stack trace when construction fails. That output is left out, and the failure cannot happen anyway.
- `DailyPnL.ToArray`: the 35 `add` calls that fill the list are modelled by the function `Metrics`, not as 35 statements. The method models the copy loop into the array.
- Java constructors assign fields before throwing, so a failed construction leaves a partly initialised object. No caller can observe that object, so it is not modelled.
- The class hierarchy and object identity are not modelled, apart from `ToArray` returning a fresh array.
- SegmentInelastic.Make: the source stores the caller's constraint array by reference (SegmentInelasticParams.java:79), and `getLinearConstraint` hands back that same reference (113-116). A later write through either alias changes what `getLinearConstraint` returns. The model holds the array as a value (`Option<seq<C>>`), so "unchanged" in its row means equal at construction time; aliasing and later writes are not captured.
