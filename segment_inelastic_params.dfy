/** SegmentInelasticParams: the per-segment spline parameter set, holding the
    continuity order Ck, the roughness-penalty derivative order and the
    segment's linear node-weight constraints. */
module SegmentInelastic {
  import opened Outcomes

  const InvalidInputs := "SegmentInelasticParams ctr: Invalid Inputs"

  /** C stands for SegmentNodeWeightConstraint, which is not part of this
      model; a None constraint array is Java's null. The three destructors
      are the getters getCk, getRoughnessPenaltyDerivativeOrder and
      getLinearConstraint. */
  datatype SegmentInelasticParams<C> = SegmentInelasticParams(
    ck: int32,
    roughnessPenaltyDerivativeOrder: int32,
    linearConstraint: Option<seq<C>>)

  /** The invariant every constructed parameter set keeps: a non-negative
      continuity order and a positive roughness-penalty order. */
  predicate Valid<C>(p: SegmentInelasticParams<C>)
  {
    p.ck >= 0 && p.roughnessPenaltyDerivativeOrder >= 1
  }

  /** The checked constructor: it rejects a negative Ck or a roughness order
      of zero or less, and never looks at the constraint array. */
  function Make<C>(ck: int32, roughnessPenaltyDerivativeOrder: int32, constraints: Option<seq<C>>)
    : (r: Result<SegmentInelasticParams<C>>)
    ensures r.Ok? <==> ck >= 0 && roughnessPenaltyDerivativeOrder >= 1
    ensures r.Err? ==> r.error == InvalidInputs
    ensures r.Ok? ==> Valid(r.value)
    ensures r.Ok? ==>
      && r.value.ck == ck
      && r.value.roughnessPenaltyDerivativeOrder == roughnessPenaltyDerivativeOrder
      && r.value.linearConstraint == constraints
  {
    if 0 > ck || 0 >= roughnessPenaltyDerivativeOrder then Err(InvalidInputs)
    else Ok(SegmentInelasticParams(ck, roughnessPenaltyDerivativeOrder, constraints))
  }

  /** The C2 factory: Make(2, 2, constraints), with a thrown exception turned
      into null. Since 2 and 2 pass the check, it never yields null. */
  function MakeC2SegmentElasticParams<C>(constraints: Option<seq<C>>): (r: Option<SegmentInelasticParams<C>>)
    ensures r.Some?
    ensures r.value.ck == 2 && r.value.roughnessPenaltyDerivativeOrder == 2
    ensures r.value.linearConstraint == constraints
  {
    match Make(2, 2, constraints)
    case Ok(p) => Some(p)
    case Err(_) => None
  }

  /** The boundary of the check: Ck = 0 and roughness order 1 are the least
      accepted values, Ck = -1 and roughness order 0 are rejected. */
  lemma Boundaries<C>(constraints: Option<seq<C>>)
    ensures Make(0, 1, constraints).Ok?
    ensures Make(-1, 1, constraints).Err?
    ensures Make(0, 0, constraints).Err?
  {
  }

  /** Whether construction succeeds does not depend on the constraint array,
      null (None, for c or d) included. */
  lemma ConstraintsUnchecked<C>(ck: int32, order: int32, c: Option<seq<C>>, d: Option<seq<C>>)
    ensures Make(ck, order, c).Ok? == Make(ck, order, d).Ok?
  {
  }

  /** Construction inverts the getters: rebuilding a valid parameter set from
      what its getters return gives back the same parameter set. */
  lemma MakeInvertsGetters<C>(p: SegmentInelasticParams<C>)
    requires Valid(p)
    ensures Make(p.ck, p.roughnessPenaltyDerivativeOrder, p.linearConstraint) == Ok(p)
  {
  }
}
