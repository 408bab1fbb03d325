/** The six stages that build the score of one estimation: the base score,
    then the workload, Copilot, additional-factor, storage and demand-forecast
    adjusters. Each stage reads the score so far, some of the parsed inputs and
    one field of the external data record. */
module Adjusters {
  import opened Inputs
  import Forecast

  // ---------------------------------------------------------------- base

  /** The score of the smallest tier, F2, where every estimate starts. */
  const BaseSku: real := 2.0

  /** `calculateBaseSKU`: F2 plus weighted data size, batch cycles and table
      count, plus the external base adjustment. */
  function CalculateBaseSku(dataSize: real, batchCycles: int, numTables: int, ext: ExternalData): (r: real)
    ensures 0.0 <= dataSize && 0 <= batchCycles && 0 <= numTables ==> r >= BaseSku + ext.baseAdjustment
  {
    BaseSku + dataSize * 0.005 + batchCycles as real * 2.5 + numTables as real * 0.05 + ext.baseAdjustment
  }

  /** Every weight of the base score is positive: more data, more batch
      cycles or more tables never lower it, and with all three at zero the
      score is F2's plus the external term. */
  lemma BaseSkuMonotone(d1: real, d2: real, b1: int, b2: int, t1: int, t2: int, ext: ExternalData)
    requires d1 <= d2 && b1 <= b2 && t1 <= t2
    ensures CalculateBaseSku(d1, b1, t1, ext) <= CalculateBaseSku(d2, b2, t2, ext)
    ensures CalculateBaseSku(0.0, 0, 0, ext) == 2.0 + ext.baseAdjustment
  {
  }

  // ----------------------------------------------------------- workloads

  /** The base adjustment each recognised workload is scaled from. */
  const WorkloadBaseAdjustment: real := 2.0
  /** The discount for compute units shared between workloads. */
  const OverlapDiscount: real := 0.8

  /** The complexity factor of each workload checkbox value. */
  const ComplexityFactor: map<string, real> := map[
    "Data Factory" := 2.0,
    "Spark Jobs" := 1.75,
    "Data Science" := 1.5,
    "Ad-Hoc SQL Analytics" := 1.25,
    "Power BI" := 1.0,
    "Power BI Embedded" := 1.0,
    "Real-Time Intelligence" := 2.0,
    "Eventstream" := 5.0,
    "Microsoft Fabric Databases" := 2.5
  ]

  /** The truthiness guard on the factor lookup (src/script.js:80): the
      name has a factor and that factor is not zero. */
  predicate Recognized(workload: string) {
    workload in ComplexityFactor && ComplexityFactor[workload] != 0.0
  }

  /** What one workload adds to the score: nothing for an unrecognised name,
      otherwise its discounted weight plus the external workload term. */
  function WorkloadContribution(workload: string, ext: ExternalData): real {
    if Recognized(workload) then
      WorkloadBaseAdjustment * ComplexityFactor[workload] * OverlapDiscount + ext.workloadAdjustment
    else 0.0
  }

  /** What a list of workloads adds, one contribution per entry, in order. */
  function WorkloadsOffset(workloads: seq<string>, ext: ExternalData): real {
    if workloads == [] then 0.0
    else WorkloadsOffset(workloads[..|workloads| - 1], ext) + WorkloadContribution(workloads[|workloads| - 1], ext)
  }

  /** `adjustForWorkloads`: the `forEach` over the checked workloads that
      adds to the score for each recognised one. */
  method AdjustForWorkloads(sku: real, workloads: seq<string>, ext: ExternalData) returns (r: real)
    ensures r == sku + WorkloadsOffset(workloads, ext)
  {
    r := sku;
    var i := 0;
    while i < |workloads|
      invariant 0 <= i <= |workloads|
      invariant r == sku + WorkloadsOffset(workloads[..i], ext)
    {
      var workload := workloads[i];
      if Recognized(workload) {
        r := r + WorkloadBaseAdjustment * ComplexityFactor[workload] * OverlapDiscount + ext.workloadAdjustment;
      }
      assert workloads[..i + 1][..i] == workloads[..i];
      i := i + 1;
    }
    assert workloads[..i] == workloads;
  }

  /** Every factor in the table is at least 1, so the truthiness guard
      accepts exactly the names in the table. */
  lemma ComplexityFactorsAtLeastOne(workload: string)
    ensures workload in ComplexityFactor ==> ComplexityFactor[workload] >= 1.0
    ensures Recognized(workload) <==> workload in ComplexityFactor
  {
  }

  /** The offset of a concatenation is the sum of the offsets. */
  lemma {:induction false} WorkloadsOffsetConcat(a: seq<string>, b: seq<string>, ext: ExternalData)
    ensures WorkloadsOffset(a + b, ext) == WorkloadsOffset(a, ext) + WorkloadsOffset(b, ext)
    decreases |b|
  {
    if b == [] {
      assert a + b == a;
    } else {
      var b', x := b[..|b| - 1], b[|b| - 1];
      WorkloadsOffsetConcat(a, b', ext);
      assert (a + b)[..|a + b| - 1] == a + b';
    }
  }

  /** Each entry counts once per occurrence, so a repeated recognised
      workload is added again in full. */
  lemma WorkloadAppend(workloads: seq<string>, w: string, ext: ExternalData)
    ensures WorkloadsOffset(workloads + [w], ext) == WorkloadsOffset(workloads, ext) + WorkloadContribution(w, ext)
    ensures Recognized(w) ==>
      WorkloadsOffset(workloads + [w, w], ext) ==
      WorkloadsOffset(workloads, ext) + 2.0 * (1.6 * ComplexityFactor[w] + ext.workloadAdjustment)
  {
    assert (workloads + [w])[..|workloads|] == workloads;
    assert (workloads + [w, w])[..|workloads| + 1] == workloads + [w];
  }

  /** An unrecognised workload name contributes nothing, not even the
      external workload term, wherever it stands in the list. */
  lemma UnrecognizedWorkloadIgnored(a: seq<string>, u: string, b: seq<string>, ext: ExternalData)
    requires !Recognized(u)
    ensures WorkloadsOffset(a + [u] + b, ext) == WorkloadsOffset(a + b, ext)
  {
    WorkloadsOffsetConcat(a + [u], b, ext);
    WorkloadsOffsetConcat(a, b, ext);
    WorkloadAppend(a, u, ext);
  }

  /** The order of the checked workloads does not matter: two lists with the
      same entries, counted with multiplicity, give the same offset. */
  lemma {:induction false} WorkloadsOffsetPermutation(a: seq<string>, b: seq<string>, ext: ExternalData)
    requires multiset(a) == multiset(b)
    ensures WorkloadsOffset(a, ext) == WorkloadsOffset(b, ext)
    decreases |a|
  {
    if a == [] {
      assert |b| == |multiset(b)| == 0;
    } else {
      var a', x := a[..|a| - 1], a[|a| - 1];
      assert a == a' + [x];
      assert x in multiset(b);
      var k :| 0 <= k < |b| && b[k] == x;
      var b' := b[..k] + b[k + 1..];
      assert b == b[..k] + [x] + b[k + 1..];
      assert multiset(b') == multiset(b) - multiset{x};
      assert multiset(a') == multiset(a) - multiset{x};
      WorkloadsOffsetPermutation(a', b', ext);
      WorkloadsOffsetConcat(b[..k] + [x], b[k + 1..], ext);
      WorkloadsOffsetConcat(b[..k], b[k + 1..], ext);
      WorkloadAppend(b[..k], x, ext);
      WorkloadAppend(a', x, ext);
    }
  }

  /** When the external workload term is not below -1.6 (the smallest
      discounted weight), no entry lowers the score, so checking more
      workloads never decreases it. */
  lemma {:induction false} WorkloadsOffsetGrows(a: seq<string>, b: seq<string>, ext: ExternalData)
    requires ext.workloadAdjustment >= -1.6
    ensures WorkloadsOffset(a, ext) <= WorkloadsOffset(a + b, ext)
    decreases |b|
  {
    if b == [] {
      assert a + b == a;
    } else {
      var b', x := b[..|b| - 1], b[|b| - 1];
      assert a + b == (a + b') + [x];
      WorkloadsOffsetGrows(a, b', ext);
      WorkloadAppend(a + b', x, ext);
      ComplexityFactorsAtLeastOne(x);
      assert WorkloadContribution(x, ext) >= 0.0;
    }
  }

  // ------------------------------------------------------------- Copilot

  /** Copilot needs at least F64. */
  const CopilotFloor: real := 64.0

  /** `Math.max`. */
  function Max(a: real, b: real): real {
    if a >= b then a else b
  }

  /** `adjustForCopilot`: with Copilot off the score is unchanged; with it
      on the score is first raised to at least 64 and then the external
      Copilot term is added. */
  function AdjustForCopilot(sku: real, copilotEnabled: bool, ext: ExternalData): (r: real)
    ensures !copilotEnabled ==> r == sku
    ensures copilotEnabled ==> r >= CopilotFloor + ext.copilotAdjustment && r >= sku + ext.copilotAdjustment
    ensures copilotEnabled ==> r == CopilotFloor + ext.copilotAdjustment || r == sku + ext.copilotAdjustment
  {
    if copilotEnabled then Max(sku, CopilotFloor) + ext.copilotAdjustment else sku
  }

  /** The Copilot stage never turns a larger score into a smaller one. */
  lemma CopilotMonotone(s1: real, s2: real, copilotEnabled: bool, ext: ExternalData)
    requires s1 <= s2
    ensures AdjustForCopilot(s1, copilotEnabled, ext) <= AdjustForCopilot(s2, copilotEnabled, ext)
  {
  }

  // -------------------------------------------------- additional factors

  const RefreshFrequencyAdjustments: map<string, real> := map["hourly" := 7.0, "daily" := 5.0, "weekly" := 1.0]
  const RetentionPeriodAdjustments: map<string, real> := map["1 year" := 0.25, "5 years" := 0.75, "10 years" := 1.0]
  const ComplexityAdjustments: map<string, real> := map["simple" := 1.0, "moderate" := 2.5, "complex" := 5.0]

  /** The weight a select value has in a table: its entry, or 0 when the
      value is not in the table. */
  function Weight(table: map<string, real>, key: string): real {
    if key in table then table[key] else 0.0
  }

  /** The table lookup with a fallback to 0 (src/script.js:117-119): a
      missing key and a zero entry are both falsy, and both give 0. */
  function OrZero(table: map<string, real>, key: string): (r: real)
    ensures r == Weight(table, key)
    ensures key !in table ==> r == 0.0
  {
    if key in table && table[key] != 0.0 then table[key] else 0.0
  }

  /** What the additional-factors stage adds to the score. */
  function AdditionalFactorsOffset(dataRefreshFrequency: string, dataRetentionPeriod: string,
                                   dataComplexity: string, userCount: int, ext: ExternalData): real
  {
    Weight(RefreshFrequencyAdjustments, dataRefreshFrequency)
      + Weight(RetentionPeriodAdjustments, dataRetentionPeriod)
      + Weight(ComplexityAdjustments, dataComplexity)
      + userCount as real * 0.1
      + ext.additionalFactorsAdjustment
  }

  /** `adjustForAdditionalFactors`: five successive additions to the score:
      the refresh, retention and complexity weights, a tenth per user and the
      external term. */
  method AdjustForAdditionalFactors(sku: real, dataRefreshFrequency: string, dataRetentionPeriod: string,
                                    dataComplexity: string, userCount: int, ext: ExternalData) returns (r: real)
    ensures r == sku + AdditionalFactorsOffset(dataRefreshFrequency, dataRetentionPeriod, dataComplexity, userCount, ext)
  {
    r := sku;
    r := r + OrZero(RefreshFrequencyAdjustments, dataRefreshFrequency);
    r := r + OrZero(RetentionPeriodAdjustments, dataRetentionPeriod);
    r := r + OrZero(ComplexityAdjustments, dataComplexity);
    r := r + userCount as real * 0.1;
    r := r + ext.additionalFactorsAdjustment;
  }

  /** The three select values together add between 0 (all unrecognised) and
      13 (hourly, 10 years, complex) on top of the user term and the external
      term; more users never lower the offset. */
  lemma AdditionalFactorsBounds(f: string, p: string, c: string, u1: int, u2: int, ext: ExternalData)
    requires u1 <= u2
    ensures var base := u1 as real * 0.1 + ext.additionalFactorsAdjustment;
            base <= AdditionalFactorsOffset(f, p, c, u1, ext) <= base + 13.0
    ensures AdditionalFactorsOffset(f, p, c, u1, ext) <= AdditionalFactorsOffset(f, p, c, u2, ext)
    ensures AdditionalFactorsOffset("hourly", "10 years", "complex", u1, ext)
            == u1 as real * 0.1 + ext.additionalFactorsAdjustment + 13.0
  {
  }

  /** A select value outside its table adds exactly what a zero weight would. */
  lemma UnknownFactorsContributeZero(f: string, p: string, c: string, userCount: int, ext: ExternalData)
    requires f !in RefreshFrequencyAdjustments
    requires p !in RetentionPeriodAdjustments
    requires c !in ComplexityAdjustments
    ensures AdditionalFactorsOffset(f, p, c, userCount, ext) == userCount as real * 0.1 + ext.additionalFactorsAdjustment
  {
  }

  // ------------------------------------------------------------- storage

  /** `adjustForStorage`: five percent of the data size plus the external
      storage term. A non-negative data size never lowers the score below
      the external term's shift. */
  function AdjustForStorage(sku: real, dataSize: real, ext: ExternalData): (r: real)
    ensures 0.0 <= dataSize ==> r >= sku + ext.storageAdjustment
  {
    var storageAdjustment := dataSize * 0.05 + ext.storageAdjustment;
    sku + storageAdjustment
  }

  /** The storage stage is a pure offset: it adds the same amount whatever
      the score, and that amount grows with the data size. */
  lemma StorageIsOffset(s1: real, s2: real, d1: real, d2: real, ext: ExternalData)
    requires d1 <= d2
    ensures AdjustForStorage(s1, d1, ext) - s1 == AdjustForStorage(s2, d1, ext) - s2
    ensures AdjustForStorage(s1, d1, ext) - s1 <= AdjustForStorage(s1, d2, ext) - s1
  {
  }

  // ------------------------------------------------------ demand forecast

  /** The fixed demand history the forecast is computed from. */
  const HistoricalData: seq<real> := [100.0, 120.0, 130.0, 150.0, 170.0]

  /** The value `linearRegression` gives on the history. */
  lemma HistoricalForecast()
    ensures Forecast.LinearRegression(HistoricalData) == Forecast.Defined(1177811.0 / 292.0)
  {
    Forecast.FoldsAppend([], 100.0);
    Forecast.FoldsAppend([100.0], 120.0);
    Forecast.FoldsAppend([100.0, 120.0], 130.0);
    Forecast.FoldsAppend([100.0, 120.0, 130.0], 150.0);
    Forecast.FoldsAppend([100.0, 120.0, 130.0, 150.0], 170.0);
    assert [100.0] + [120.0] == [100.0, 120.0];
    assert [100.0, 120.0] + [130.0] == [100.0, 120.0, 130.0];
    assert [100.0, 120.0, 130.0] + [150.0] == [100.0, 120.0, 130.0, 150.0];
    assert [100.0, 120.0, 130.0, 150.0] + [170.0] == HistoricalData;
  }

  /** `adjustForDemandForecasting`: one percent of the forecast over the
      fixed history plus the external demand term. The forecast is defined,
      so the stage adds the constant 1177811/29200 and the external term. */
  function AdjustForDemandForecasting(sku: real, ext: ExternalData): (r: real)
    ensures r == sku + 1177811.0 / 29200.0 + ext.demandAdjustment
  {
    HistoricalForecast();
    var forecastedDemand := Forecast.LinearRegression(HistoricalData).value;
    var demandAdjustment := forecastedDemand * 0.01 + ext.demandAdjustment;
    sku + demandAdjustment
  }

  /** The demand stage is a pure offset: the same constant, about 40.34, plus
      the external demand term, whatever the score. */
  lemma DemandIsConstantOffset(sku: real, ext: ExternalData)
    ensures AdjustForDemandForecasting(sku, ext) - sku == 1177811.0 / 29200.0 + ext.demandAdjustment
  {
    HistoricalForecast();
  }
}
