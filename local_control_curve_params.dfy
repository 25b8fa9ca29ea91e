/** LocalControlCurveParams: the regime parameters of a local-control
    smoothing curve, adding to the smoothing-regime parameters the C1
    generator scheme and the two shape-control flags. */
module LocalControl {
  import opened Outcomes

  const InvalidInputs := "LocalControlCurveParams ctr: Invalid Inputs!"

  /** S stands for the SmoothingCurveRegimeParams superclass state, which is
      not part of this model. The destructors applyMonotoneFilter,
      eliminateSpuriousExtrema and C1GeneratorScheme are the getters of the
      same names. */
  datatype LocalControlCurveParams<S> = LocalControlCurveParams(
    regime: S,
    C1GeneratorScheme: string,
    applyMonotoneFilter: bool,
    eliminateSpuriousExtrema: bool)

  /** The constructor. `regime` is the outcome of the superclass constructor,
      which runs first, so its exception wins; then a null scheme is refused.
      The parameter order is the source's: the spurious-extrema flag comes
      before the monotone-filter flag. */
  function Make<S>(c1GeneratorScheme: Option<string>, regime: Result<S>,
                   eliminateSpuriousExtrema: bool, applyMonotoneFilter: bool)
    : (r: Result<LocalControlCurveParams<S>>)
    ensures r.Ok? <==> regime.Ok? && c1GeneratorScheme.Some?
    ensures regime.Err? ==> r == Err(regime.error)
    ensures regime.Ok? && c1GeneratorScheme.None? ==> r == Err(InvalidInputs)
    ensures r.Ok? ==>
      && r.value.regime == regime.value
      && r.value.C1GeneratorScheme == c1GeneratorScheme.value
      && r.value.applyMonotoneFilter == applyMonotoneFilter
      && r.value.eliminateSpuriousExtrema == eliminateSpuriousExtrema
  {
    match regime
    case Err(e) => Err(e)
    case Ok(base) =>
      match c1GeneratorScheme
      case None => Err(InvalidInputs)
      case Some(scheme) => Ok(LocalControlCurveParams(base, scheme, applyMonotoneFilter, eliminateSpuriousExtrema))
  }

  /** The empty scheme is a scheme like any other: only null is refused. */
  lemma EmptySchemeAccepted<S>(base: S, eliminateSpuriousExtrema: bool, applyMonotoneFilter: bool)
    ensures Make(Some(""), Ok(base), eliminateSpuriousExtrema, applyMonotoneFilter).Ok?
    ensures Make(Some(""), Ok(base), eliminateSpuriousExtrema, applyMonotoneFilter).value.C1GeneratorScheme == ""
  {
  }

  /** The two flags are independent of each other and of the scheme: every
      combination of them constructs, and each getter reports its own flag. */
  lemma FlagsIndependent<S>(scheme: string, base: S)
    ensures forall e: bool, m: bool ::
      && Make(Some(scheme), Ok(base), e, m).Ok?
      && Make(Some(scheme), Ok(base), e, m).value.eliminateSpuriousExtrema == e
      && Make(Some(scheme), Ok(base), e, m).value.applyMonotoneFilter == m
  {
  }
}
