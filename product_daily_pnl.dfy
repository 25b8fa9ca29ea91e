/** ProductDailyPnL: one product's daily PnL record: 1D carry, roll-down,
    curve-shift and total PnL, 1M and 3M carry and roll-down, the DV01s, the
    par swap rates and the period rates and day-count fractions. */
module DailyPnL {
  import opened Outcomes
  import opened Separated

  const InvalidInputs := "ProductDailyPnL ctr: Invalid Inputs!"

  /** The number of entries of toArray. */
  const MetricCount := 35

  /** The positions of the two accrual-day counts in toArray. */
  const FixedAccrualDaysIndex := 27
  const FloatingAccrualDaysIndex := 28

  /** The record, its fields in the constructor's parameter order; each
      destructor is the getter of the same name. */
  datatype ProductDailyPnL = ProductDailyPnL(
    total1DPnL: real,
    clean1DPnL: real,
    dirty1DPnL: real,
    total1DPnLWithFixing: real,
    clean1DPnLWithFixing: real,
    dirty1DPnLWithFixing: real,
    carry1D: real,
    rollDown1D: real,
    curveShift1D: real,
    carry1M: real,
    rollDown1M: real,
    carry3M: real,
    rollDown3M: real,
    DV01: real,
    DV01WithFixing: real,
    cleanFixedDV01: real,
    cleanFloatDV01: real,
    cleanFloatDV01WithFixing: real,
    baselineSwapRate: real,
    rolldownSwapRate1D: real,
    rolldownSwapRate1M: real,
    rolldownSwapRate3M: real,
    curveShiftSwapRate1D: real,
    periodFixedRate: real,
    periodCurveFloatingRate: real,
    periodProductFloatingRate: real,
    floatingRateUsed: real,
    fixed1DAccrualDays: int32,
    floating1DAccrualDays: int32,
    fixed1DDCF: real,
    floating1DDCF: real,
    fixed1MDCF: real,
    floating1MDCF: real,
    fixed3MDCF: real,
    floating3MDCF: real)

  /** The constructor: every one of the 33 double arguments must pass the
      validity test; the two accrual-day counts are stored unchecked. */
  function Make(isValid: Validity,
    total1DPnL: real,
    clean1DPnL: real,
    dirty1DPnL: real,
    total1DPnLWithFixing: real,
    clean1DPnLWithFixing: real,
    dirty1DPnLWithFixing: real,
    carry1D: real,
    rollDown1D: real,
    curveShift1D: real,
    carry1M: real,
    rollDown1M: real,
    carry3M: real,
    rollDown3M: real,
    DV01: real,
    DV01WithFixing: real,
    cleanFixedDV01: real,
    cleanFloatDV01: real,
    cleanFloatDV01WithFixing: real,
    baselineSwapRate: real,
    rolldownSwapRate1D: real,
    rolldownSwapRate1M: real,
    rolldownSwapRate3M: real,
    curveShiftSwapRate1D: real,
    periodFixedRate: real,
    periodCurveFloatingRate: real,
    periodProductFloatingRate: real,
    floatingRateUsed: real,
    fixed1DAccrualDays: int32,
    floating1DAccrualDays: int32,
    fixed1DDCF: real,
    floating1DDCF: real,
    fixed1MDCF: real,
    floating1MDCF: real,
    fixed3MDCF: real,
    floating3MDCF: real)
    : (r: Result<ProductDailyPnL>)
    ensures var p := ProductDailyPnL(
      total1DPnL, clean1DPnL, dirty1DPnL, total1DPnLWithFixing, clean1DPnLWithFixing,
      dirty1DPnLWithFixing, carry1D, rollDown1D, curveShift1D, carry1M, rollDown1M,
      carry3M, rollDown3M, DV01, DV01WithFixing, cleanFixedDV01, cleanFloatDV01,
      cleanFloatDV01WithFixing, baselineSwapRate, rolldownSwapRate1D,
      rolldownSwapRate1M, rolldownSwapRate3M, curveShiftSwapRate1D, periodFixedRate,
      periodCurveFloatingRate, periodProductFloatingRate, floatingRateUsed,
      fixed1DAccrualDays, floating1DAccrualDays, fixed1DDCF, floating1DDCF, fixed1MDCF,
      floating1MDCF, fixed3MDCF, floating3MDCF);
      && (r.Ok? <==> forall k :: 0 <= k < MetricCount && !IsAccrualDayIndex(k) ==> isValid(Metric(p, k)))
      && (r.Ok? ==> r.value == p)
      && (r.Err? ==> r.error == InvalidInputs)
  {
    var p := ProductDailyPnL(
      total1DPnL, clean1DPnL, dirty1DPnL, total1DPnLWithFixing, clean1DPnLWithFixing,
      dirty1DPnLWithFixing, carry1D, rollDown1D, curveShift1D, carry1M, rollDown1M,
      carry3M, rollDown3M, DV01, DV01WithFixing, cleanFixedDV01, cleanFloatDV01,
      cleanFloatDV01WithFixing, baselineSwapRate, rolldownSwapRate1D,
      rolldownSwapRate1M, rolldownSwapRate3M, curveShiftSwapRate1D, periodFixedRate,
      periodCurveFloatingRate, periodProductFloatingRate, floatingRateUsed,
      fixed1DAccrualDays, floating1DAccrualDays, fixed1DDCF, floating1DDCF, fixed1MDCF,
      floating1MDCF, fixed3MDCF, floating3MDCF);
    CheckedPositions(isValid, p);
    if AllChecked(isValid, p) then Ok(p) else Err(InvalidInputs)
  }

  /** The constructor's validity chain, in the source's order. */
  predicate AllChecked(isValid: Validity, p: ProductDailyPnL)
  {
    && isValid(p.total1DPnL)
    && isValid(p.clean1DPnL)
    && isValid(p.dirty1DPnL)
    && isValid(p.total1DPnLWithFixing)
    && isValid(p.clean1DPnLWithFixing)
    && isValid(p.dirty1DPnLWithFixing)
    && isValid(p.carry1D)
    && isValid(p.rollDown1D)
    && isValid(p.curveShift1D)
    && isValid(p.carry1M)
    && isValid(p.rollDown1M)
    && isValid(p.carry3M)
    && isValid(p.rollDown3M)
    && isValid(p.DV01)
    && isValid(p.DV01WithFixing)
    && isValid(p.cleanFixedDV01)
    && isValid(p.cleanFloatDV01)
    && isValid(p.cleanFloatDV01WithFixing)
    && isValid(p.baselineSwapRate)
    && isValid(p.rolldownSwapRate1D)
    && isValid(p.rolldownSwapRate1M)
    && isValid(p.rolldownSwapRate3M)
    && isValid(p.curveShiftSwapRate1D)
    && isValid(p.periodFixedRate)
    && isValid(p.periodCurveFloatingRate)
    && isValid(p.periodProductFloatingRate)
    && isValid(p.floatingRateUsed)
    && isValid(p.fixed1DDCF)
    && isValid(p.floating1DDCF)
    && isValid(p.fixed1MDCF)
    && isValid(p.floating1MDCF)
    && isValid(p.fixed3MDCF)
    && isValid(p.floating3MDCF)
  }

  predicate IsAccrualDayIndex(k: int)
  {
    k == FixedAccrualDaysIndex || k == FloatingAccrualDaysIndex
  }

  /** Entry k of toArray: the k-th constructor argument, the two accrual-day
      counts widened to double. */
  function Metric(p: ProductDailyPnL, k: nat): real
    requires k < MetricCount
  {
    if k == 0 then p.total1DPnL
    else if k == 1 then p.clean1DPnL
    else if k == 2 then p.dirty1DPnL
    else if k == 3 then p.total1DPnLWithFixing
    else if k == 4 then p.clean1DPnLWithFixing
    else if k == 5 then p.dirty1DPnLWithFixing
    else if k == 6 then p.carry1D
    else if k == 7 then p.rollDown1D
    else if k == 8 then p.curveShift1D
    else if k == 9 then p.carry1M
    else if k == 10 then p.rollDown1M
    else if k == 11 then p.carry3M
    else if k == 12 then p.rollDown3M
    else if k == 13 then p.DV01
    else if k == 14 then p.DV01WithFixing
    else if k == 15 then p.cleanFixedDV01
    else if k == 16 then p.cleanFloatDV01
    else if k == 17 then p.cleanFloatDV01WithFixing
    else if k == 18 then p.baselineSwapRate
    else if k == 19 then p.rolldownSwapRate1D
    else if k == 20 then p.rolldownSwapRate1M
    else if k == 21 then p.rolldownSwapRate3M
    else if k == 22 then p.curveShiftSwapRate1D
    else if k == 23 then p.periodFixedRate
    else if k == 24 then p.periodCurveFloatingRate
    else if k == 25 then p.periodProductFloatingRate
    else if k == 26 then p.floatingRateUsed
    else if k == 27 then p.fixed1DAccrualDays as real
    else if k == 28 then p.floating1DAccrualDays as real
    else if k == 29 then p.fixed1DDCF
    else if k == 30 then p.floating1DDCF
    else if k == 31 then p.fixed1MDCF
    else if k == 32 then p.floating1MDCF
    else if k == 33 then p.fixed3MDCF
    else p.floating3MDCF
  }

  /** The metrics in toArray's documented order; entries 27 and 28 are the
      accrual-day counts widened to double (see Metric). */
  function Metrics(p: ProductDailyPnL): seq<real>
  {
    seq(MetricCount, k requires 0 <= k < MetricCount => Metric(p, k))
  }

  /** The validity chain, read position by position: it passes exactly when
      every entry of toArray except the accrual-day counts is valid. */
  lemma CheckedPositions(isValid: Validity, p: ProductDailyPnL)
    ensures (forall k :: 0 <= k < MetricCount && !IsAccrualDayIndex(k) ==> isValid(Metric(p, k)))
        <==> AllChecked(isValid, p)
  {
    if forall k :: 0 <= k < MetricCount && !IsAccrualDayIndex(k) ==> isValid(Metric(p, k)) {
      assert isValid(Metric(p, 0));
      assert isValid(Metric(p, 1));
      assert isValid(Metric(p, 2));
      assert isValid(Metric(p, 3));
      assert isValid(Metric(p, 4));
      assert isValid(Metric(p, 5));
      assert isValid(Metric(p, 6));
      assert isValid(Metric(p, 7));
      assert isValid(Metric(p, 8));
      assert isValid(Metric(p, 9));
      assert isValid(Metric(p, 10));
      assert isValid(Metric(p, 11));
      assert isValid(Metric(p, 12));
      assert isValid(Metric(p, 13));
      assert isValid(Metric(p, 14));
      assert isValid(Metric(p, 15));
      assert isValid(Metric(p, 16));
      assert isValid(Metric(p, 17));
      assert isValid(Metric(p, 18));
      assert isValid(Metric(p, 19));
      assert isValid(Metric(p, 20));
      assert isValid(Metric(p, 21));
      assert isValid(Metric(p, 22));
      assert isValid(Metric(p, 23));
      assert isValid(Metric(p, 24));
      assert isValid(Metric(p, 25));
      assert isValid(Metric(p, 26));
      assert isValid(Metric(p, 29));
      assert isValid(Metric(p, 30));
      assert isValid(Metric(p, 31));
      assert isValid(Metric(p, 32));
      assert isValid(Metric(p, 33));
      assert isValid(Metric(p, 34));
    }
  }

  /** toArray loses nothing: two records with the same metrics are the same
      record. */
  lemma MetricsInjective(p: ProductDailyPnL, q: ProductDailyPnL)
    requires Metrics(p) == Metrics(q)
    ensures p == q
  {
    assert Metrics(p)[0] == Metrics(q)[0];
    assert Metrics(p)[1] == Metrics(q)[1];
    assert Metrics(p)[2] == Metrics(q)[2];
    assert Metrics(p)[3] == Metrics(q)[3];
    assert Metrics(p)[4] == Metrics(q)[4];
    assert Metrics(p)[5] == Metrics(q)[5];
    assert Metrics(p)[6] == Metrics(q)[6];
    assert Metrics(p)[7] == Metrics(q)[7];
    assert Metrics(p)[8] == Metrics(q)[8];
    assert Metrics(p)[9] == Metrics(q)[9];
    assert Metrics(p)[10] == Metrics(q)[10];
    assert Metrics(p)[11] == Metrics(q)[11];
    assert Metrics(p)[12] == Metrics(q)[12];
    assert Metrics(p)[13] == Metrics(q)[13];
    assert Metrics(p)[14] == Metrics(q)[14];
    assert Metrics(p)[15] == Metrics(q)[15];
    assert Metrics(p)[16] == Metrics(q)[16];
    assert Metrics(p)[17] == Metrics(q)[17];
    assert Metrics(p)[18] == Metrics(q)[18];
    assert Metrics(p)[19] == Metrics(q)[19];
    assert Metrics(p)[20] == Metrics(q)[20];
    assert Metrics(p)[21] == Metrics(q)[21];
    assert Metrics(p)[22] == Metrics(q)[22];
    assert Metrics(p)[23] == Metrics(q)[23];
    assert Metrics(p)[24] == Metrics(q)[24];
    assert Metrics(p)[25] == Metrics(q)[25];
    assert Metrics(p)[26] == Metrics(q)[26];
    assert Metrics(p)[27] == Metrics(q)[27];
    assert Metrics(p)[28] == Metrics(q)[28];
    assert Metrics(p)[29] == Metrics(q)[29];
    assert Metrics(p)[30] == Metrics(q)[30];
    assert Metrics(p)[31] == Metrics(q)[31];
    assert Metrics(p)[32] == Metrics(q)[32];
    assert Metrics(p)[33] == Metrics(q)[33];
    assert Metrics(p)[34] == Metrics(q)[34];
  }

  /** toArray: the list of the 35 metrics (Metrics) copied into a fresh array
      with a running index. */
  method ToArray(p: ProductDailyPnL) returns (a: array<real>)
    ensures fresh(a)
    ensures a[..] == Metrics(p)
  {
    var ls := Metrics(p);
    a := new real[|ls|];
    var i := 0;
    while i < |ls|
      invariant 0 <= i <= |ls| == a.Length
      invariant a[..i] == ls[..i]
    {
      a[i] := ls[i];
      i := i + 1;
    }
    assert a[..] == a[..i];
  }

  /** Each metric rendered by `toStr`, Java's Double.toString. */
  function Rendered(m: seq<real>, toStr: real -> string): (texts: seq<string>)
  {
    seq(|m|, k requires 0 <= k < |m| => toStr(m[k]))
  }

  /** What toString returns: the rendered metrics joined by commas. */
  function Text(p: ProductDailyPnL, toStr: real -> string): string
  {
    Join(Rendered(Metrics(p), toStr))
  }

  /** toString: every entry of toArray appended in turn, a comma before each
      but the first. */
  method ToString(p: ProductDailyPnL, toStr: real -> string) returns (s: string)
    ensures s == Text(p, toStr)
  {
    var a := ToArray(p);
    ghost var texts := Rendered(Metrics(p), toStr);
    var sb := "";
    var start := true;
    for i := 0 to a.Length
      invariant a[..] == Metrics(p)
      invariant start <==> i == 0
      invariant sb == Join(texts[..i])
    {
      if start {
        start := false;
      } else {
        sb := sb + [Comma];
      }
      sb := sb + toStr(a[i]);
      assert texts[i] == toStr(a[i]);
      assert texts[..i + 1] == texts[..i] + [texts[i]];
      JoinSnoc(texts[..i], texts[i]);
    }
    assert texts[..a.Length] == texts;
    s := sb;
  }

  /** With a renderer that never writes a comma, as Double.toString never
      does, the text has exactly 34 commas, and cutting it at the commas
      gives back the 35 rendered metrics in order; the last ensures states
      that field count outright. */
  lemma TextLayout(p: ProductDailyPnL, toStr: real -> string)
    requires forall x :: Comma !in toStr(x)
    ensures CommaCount(Text(p, toStr)) == MetricCount - 1
    ensures Split(Text(p, toStr)) == Rendered(Metrics(p), toStr)
    ensures |Split(Text(p, toStr))| == MetricCount
  {
    var texts := Rendered(Metrics(p), toStr);
    assert CommaFree(texts);
    JoinCommaCount(texts);
    SplitJoin(texts);
  }
}
