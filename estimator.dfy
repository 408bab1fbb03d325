/** The estimation pipeline of `calculateSKU`, from the already-parsed
    inputs and the external data record to the recommended tier: the six
    stages run in a fixed order over one running score, then the tier lookup. */
module Estimator {
  import opened Inputs
  import opened Tiers
  import opened Adjusters

  /** The score the six stages build, as one function of the inputs. Every
      stage but Copilot adds an offset that does not depend on the score so
      far, so the score is the base score, the workload offset, the Copilot
      lift, the additional factors, storage and the demand constant. */
  function Score(input: EstimationInput, ext: ExternalData): (r: real)
    ensures var early := CalculateBaseSku(input.dataSize, input.batchCycles, input.numTables, ext)
                         + WorkloadsOffset(input.workloads, ext);
            var late := AdditionalFactorsOffset(input.dataRefreshFrequency, input.dataRetentionPeriod,
                                                input.dataComplexity, input.userCount, ext)
                        + input.dataSize * 0.05 + ext.storageAdjustment
                        + 1177811.0 / 29200.0 + ext.demandAdjustment;
            r == (if input.copilotEnabled then Max(early, 64.0) + ext.copilotAdjustment else early) + late
  {
    var base := CalculateBaseSku(input.dataSize, input.batchCycles, input.numTables, ext);
    var afterWorkloads := base + WorkloadsOffset(input.workloads, ext);
    var afterCopilot := AdjustForCopilot(afterWorkloads, input.copilotEnabled, ext);
    var afterFactors := afterCopilot + AdditionalFactorsOffset(input.dataRefreshFrequency,
      input.dataRetentionPeriod, input.dataComplexity, input.userCount, ext);
    var afterStorage := AdjustForStorage(afterFactors, input.dataSize, ext);
    AdjustForDemandForecasting(afterStorage, ext)
  }

  /** The pipeline part of `calculateSKU`: one score variable reassigned by
      each stage in turn, then `determineSKU`. Every estimate is at least F64. */
  method CalculateSku(input: EstimationInput, ext: ExternalData) returns (result: Tier)
    ensures result == Recommend(Score(input, ext))
    ensures result.capacityUnits >= 64 && result in Table
  {
    var sku := CalculateBaseSku(input.dataSize, input.batchCycles, input.numTables, ext);
    sku := AdjustForWorkloads(sku, input.workloads, ext);
    sku := AdjustForCopilot(sku, input.copilotEnabled, ext);
    sku := AdjustForAdditionalFactors(sku, input.dataRefreshFrequency, input.dataRetentionPeriod,
                                      input.dataComplexity, input.userCount, ext);
    sku := AdjustForStorage(sku, input.dataSize, ext);
    sku := AdjustForDemandForecasting(sku, ext);
    result := DetermineSku(sku);
    RecommendFloor(sku);
  }

  /** With the external record and every other input held fixed, a larger
      data size, more batch cycles, more tables or more users never lower
      the score or the recommended capacity. */
  lemma ScoreMonotone(a: EstimationInput, b: EstimationInput, ext: ExternalData)
    requires a.dataSize <= b.dataSize && a.batchCycles <= b.batchCycles
    requires a.numTables <= b.numTables && a.userCount <= b.userCount
    requires b == a.(dataSize := b.dataSize, batchCycles := b.batchCycles,
                     numTables := b.numTables, userCount := b.userCount)
    ensures Score(a, ext) <= Score(b, ext)
    ensures Recommend(Score(a, ext)).capacityUnits <= Recommend(Score(b, ext)).capacityUnits
  {
    var sa := CalculateBaseSku(a.dataSize, a.batchCycles, a.numTables, ext) + WorkloadsOffset(a.workloads, ext);
    var sb := CalculateBaseSku(b.dataSize, b.batchCycles, b.numTables, ext) + WorkloadsOffset(b.workloads, ext);
    BaseSkuMonotone(a.dataSize, b.dataSize, a.batchCycles, b.batchCycles, a.numTables, b.numTables, ext);
    CopilotMonotone(sa, sb, a.copilotEnabled, ext);
    AdditionalFactorsBounds(a.dataRefreshFrequency, a.dataRetentionPeriod, a.dataComplexity,
                            a.userCount, b.userCount, ext);
    DemandIsConstantOffset(0.0, ext);
    RecommendMonotone(Score(a, ext), Score(b, ext));
  }

  /** Checking more workloads never lowers the score or the recommended
      capacity, as long as the external workload term is not below -1.6. */
  lemma MoreWorkloadsMonotone(a: EstimationInput, extra: seq<string>, ext: ExternalData)
    requires ext.workloadAdjustment >= -1.6
    ensures Score(a, ext) <= Score(a.(workloads := a.workloads + extra), ext)
    ensures Recommend(Score(a, ext)).capacityUnits
            <= Recommend(Score(a.(workloads := a.workloads + extra), ext)).capacityUnits
  {
    var b := a.(workloads := a.workloads + extra);
    var base := CalculateBaseSku(a.dataSize, a.batchCycles, a.numTables, ext);
    WorkloadsOffsetGrows(a.workloads, extra, ext);
    CopilotMonotone(base + WorkloadsOffset(a.workloads, ext), base + WorkloadsOffset(b.workloads, ext),
                    a.copilotEnabled, ext);
    DemandIsConstantOffset(0.0, ext);
    RecommendMonotone(Score(a, ext), Score(b, ext));
  }

  /** An unrecognised workload name anywhere in the list leaves the score
      unchanged, and so does reordering the list. */
  lemma WorkloadsIgnoredOrReordered(input: EstimationInput, pre: seq<string>, u: string, post: seq<string>,
                                    reordered: seq<string>, ext: ExternalData)
    requires !Recognized(u)
    requires multiset(reordered) == multiset(pre + post)
    ensures Score(input.(workloads := pre + [u] + post), ext) == Score(input.(workloads := pre + post), ext)
    ensures Score(input.(workloads := reordered), ext) == Score(input.(workloads := pre + post), ext)
  {
    UnrecognizedWorkloadIgnored(pre, u, post, ext);
    WorkloadsOffsetPermutation(reordered, pre + post, ext);
  }

  /** Select values outside their tables change the score exactly as if
      their weights were zero: replacing any one value by an unrecognised one
      lowers the score by the weight the original value had, and replacing
      all three lowers it by the three weights. */
  lemma UnknownSelectValuesPassThrough(input: EstimationInput, f: string, p: string, c: string, ext: ExternalData)
    ensures f !in RefreshFrequencyAdjustments ==>
            Score(input.(dataRefreshFrequency := f), ext)
            == Score(input, ext) - Weight(RefreshFrequencyAdjustments, input.dataRefreshFrequency)
    ensures p !in RetentionPeriodAdjustments ==>
            Score(input.(dataRetentionPeriod := p), ext)
            == Score(input, ext) - Weight(RetentionPeriodAdjustments, input.dataRetentionPeriod)
    ensures c !in ComplexityAdjustments ==>
            Score(input.(dataComplexity := c), ext)
            == Score(input, ext) - Weight(ComplexityAdjustments, input.dataComplexity)
    ensures f !in RefreshFrequencyAdjustments && p !in RetentionPeriodAdjustments && c !in ComplexityAdjustments ==>
            Score(input.(dataRefreshFrequency := f, dataRetentionPeriod := p, dataComplexity := c), ext)
            == Score(input, ext)
               - Weight(RefreshFrequencyAdjustments, input.dataRefreshFrequency)
               - Weight(RetentionPeriodAdjustments, input.dataRetentionPeriod)
               - Weight(ComplexityAdjustments, input.dataComplexity)
  {
    DemandIsConstantOffset(0.0, ext);
  }

  /** With Copilot on, the final score is at least 64 plus the Copilot term
      plus the offsets of the three later stages (additional factors,
      storage, demand), whatever the earlier stages gave. */
  lemma CopilotLiftsScore(input: EstimationInput, ext: ExternalData)
    requires input.copilotEnabled
    ensures Score(input, ext) >= 64.0 + ext.copilotAdjustment
              + AdditionalFactorsOffset(input.dataRefreshFrequency, input.dataRetentionPeriod,
                                        input.dataComplexity, input.userCount, ext)
              + input.dataSize * 0.05 + ext.storageAdjustment
              + 1177811.0 / 29200.0 + ext.demandAdjustment
  {
    DemandIsConstantOffset(0.0, ext);
  }

  /** A worked estimate: 500 GB, 10 batch cycles a day, 20 tables, daily
      refresh, one-year retention, moderate complexity, 50 users, no
      workloads and an all-zero external record. Without Copilot the score
      is about 108.59 and the tier F128; with Copilot it is about 142.09 and
      the tier F256. */
  lemma WorkedExample()
    ensures var ext := ExternalData(0.0, 0.0, 0.0, 0.0, 0.0, 0.0);
            var input := EstimationInput(500.0, 10, 20, false, "daily", "1 year", "moderate", 50, []);
            Score(input, ext) == 3170711.0 / 29200.0 &&
            Recommend(Score(input, ext)) == Tier("F128", 128, 3840) &&
            Score(input.(copilotEnabled := true), ext) == 4148911.0 / 29200.0 &&
            Recommend(Score(input.(copilotEnabled := true), ext)) == Tier("F256", 256, 7680)
  {
    var ext := ExternalData(0.0, 0.0, 0.0, 0.0, 0.0, 0.0);
    DemandIsConstantOffset(0.0, ext);
    var s1, s2 := 3170711.0 / 29200.0, 4148911.0 / 29200.0;
    assert InRow(s1, 6);
    TierExactlyOne(s1, 6);
    assert InRow(s2, 7);
    TierExactlyOne(s2, 7);
  }
}
