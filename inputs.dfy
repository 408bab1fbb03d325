/** The values the estimation engine starts from: the parsed form fields and
    the six adjustment numbers of the external data record. JavaScript
    numbers are modelled as exact reals; `parseInt` results as integers. */
module Inputs {

  /** The record returned by the external data source. Every adjuster reads
      one of its fields and adds it to the running score. */
  datatype ExternalData = ExternalData(
    baseAdjustment: real,
    workloadAdjustment: real,
    copilotAdjustment: real,
    additionalFactorsAdjustment: real,
    storageAdjustment: real,
    demandAdjustment: real)

  /** The parsed form: data size in GB, batch cycles per day, table count,
      the Copilot switch, the three select values, the user count and the
      checked workload boxes in document order. */
  datatype EstimationInput = EstimationInput(
    dataSize: real,
    batchCycles: int,
    numTables: int,
    copilotEnabled: bool,
    dataRefreshFrequency: string,
    dataRetentionPeriod: string,
    dataComplexity: string,
    userCount: int,
    workloads: seq<string>)
}
