/** The tier table of `determineSKU`: eleven capacity tiers F2 .. F2048 chosen
    by inclusive upper score bounds, followed by a floor that lifts every score
    below 64 to the F64 tier. */
module Tiers {

  /** One row of the table: the SKU label, its capacity units and its
      30-second capacity-unit use. */
  datatype Tier = Tier(recommendedSku: string, capacityUnits: nat, cuUse30Sec: nat)

  /** Inclusive upper score bounds of the first ten rows; the last row has none. */
  const Bounds: seq<real> := [2.0, 4.0, 8.0, 16.0, 32.0, 64.0, 128.0, 256.0, 512.0, 1024.0]

  const Table: seq<Tier> := [
    Tier("F2", 2, 60),
    Tier("F4", 4, 120),
    Tier("F8", 8, 240),
    Tier("F16", 16, 480),
    Tier("F32", 32, 960),
    Tier("F64", 64, 1920),
    Tier("F128", 128, 3840),
    Tier("F256", 256, 7680),
    Tier("F512", 512, 15360),
    Tier("F1024", 1024, 30720),
    Tier("F2048", 2048, 61440)
  ]

  /** Scores strictly below this are lifted to the floor row. */
  const FloorScore: real := 64.0
  /** Index of the F64 row in Table. */
  const FloorRow: nat := 5

  /** Score s lies in row i: above the previous row's bound (if any) and not
      above row i's own bound (if any). */
  predicate InRow(s: real, i: nat) {
    i <= |Bounds| && (i == 0 || Bounds[i - 1] < s) && (i == |Bounds| || s <= Bounds[i])
  }

  /** The first row, from k on, whose bound is not below s: the scan of the
      if-chain when every earlier test has failed. */
  function RowIndexFrom(s: real, k: nat): (i: nat)
    requires k <= |Bounds|
    requires k == 0 || Bounds[k - 1] < s
    ensures k <= i <= |Bounds| && InRow(s, i)
    decreases |Bounds| - k
  {
    if k == |Bounds| || s <= Bounds[k] then k else RowIndexFrom(s, k + 1)
  }

  /** The row the if-chain selects for s, before the floor. */
  function RowIndex(s: real): (i: nat)
    ensures InRow(s, i)
  {
    RowIndexFrom(s, 0)
  }

  /** The reference meaning of `determineSKU`: the table row of s, replaced by
      the F64 row whenever s is below 64. That is the same as the plain table
      row of max(s, 64): the floor is a clamp of the score. */
  function Recommend(s: real): (t: Tier)
    ensures t == Table[RowIndex(if s < FloorScore then FloorScore else s)]
  {
    if s < FloorScore then Table[FloorRow] else Table[RowIndex(s)]
  }

  /** The layout of the table: one more row than bounds, capacity units equal
      to the row's bound, doubling from 2 at each step, and 30-second use
      always thirty times the capacity units. */
  lemma TableShape()
    ensures |Table| == |Bounds| + 1
    ensures Table[0].capacityUnits == 2
    ensures forall i :: 0 < i < |Table| ==> Table[i].capacityUnits == 2 * Table[i - 1].capacityUnits
    ensures forall i :: 0 <= i < |Bounds| ==> Table[i].capacityUnits as real == Bounds[i]
    ensures forall i :: 0 <= i < |Table| ==> Table[i].cuUse30Sec == Table[i].capacityUnits * 30
    ensures Table[FloorRow] == Tier("F64", 64, 1920) && Bounds[FloorRow] == FloorScore
  {
  }

  /** The bounds grow: a later bound is never smaller. */
  lemma {:induction false} BoundsMonotone(i: nat, j: nat)
    requires i <= j < |Bounds|
    ensures Bounds[i] <= Bounds[j]
    decreases j - i
  {
    TableShape();
    if i < j {
      BoundsMonotone(i + 1, j);
      assert Table[i + 1].capacityUnits == 2 * Table[i].capacityUnits;
    }
  }

  /** Capacity units never shrink further down the table. */
  lemma {:induction false} CapacityMonotone(i: nat, j: nat)
    requires i <= j < |Table|
    ensures Table[i].capacityUnits <= Table[j].capacityUnits
    decreases j - i
  {
    TableShape();
    if i < j {
      CapacityMonotone(i + 1, j);
    }
  }

  /** Exhaustive and exclusive: every score lies in exactly one row, and that
      row is the one the scan selects. */
  lemma TierExactlyOne(s: real, i: nat)
    ensures InRow(s, RowIndex(s))
    ensures InRow(s, i) ==> i == RowIndex(s)
  {
    var k := RowIndex(s);
    if InRow(s, i) && i != k {
      if i < k {
        BoundsMonotone(i, k - 1);
      } else {
        BoundsMonotone(k, i - 1);
      }
    }
  }

  /** A larger score never selects an earlier row. */
  lemma RowIndexMonotone(s1: real, s2: real)
    requires s1 <= s2
    ensures RowIndex(s1) <= RowIndex(s2)
  {
    var i, j := RowIndex(s1), RowIndex(s2);
    if j < i {
      BoundsMonotone(j, i - 1);
    }
  }

  /** The floor: every score gets at least F64, and any score below 64 gets
      exactly F64; the result is always a row of the table. */
  lemma RecommendFloor(s: real)
    ensures Recommend(s).capacityUnits >= 64
    ensures s < 64.0 ==> Recommend(s) == Tier("F64", 64, 1920)
    ensures Recommend(s) in Table
    ensures Recommend(s).cuUse30Sec == Recommend(s).capacityUnits * 30
  {
    TableShape();
    if s >= FloorScore {
      var i := RowIndex(s);
      if i < FloorRow {
        BoundsMonotone(i, FloorRow - 1);
      }
      CapacityMonotone(FloorRow, i);
    }
  }

  /** A larger score never gets a tier with fewer capacity units. */
  lemma RecommendMonotone(s1: real, s2: real)
    requires s1 <= s2
    ensures Recommend(s1).capacityUnits <= Recommend(s2).capacityUnits
  {
    RecommendFloor(s1);
    RecommendFloor(s2);
    if s1 >= FloorScore {
      RowIndexMonotone(s1, s2);
      CapacityMonotone(RowIndex(s1), RowIndex(s2));
    }
  }

  /** An independent reading of the lookup: the recommended tier is the
      smallest row that covers both the score and the floor of 64, where a
      row covers x when x does not exceed its bound (the last row covers
      everything). */
  lemma RecommendSmallestCovering(s: real, i: nat)
    requires i < |Table|
    ensures var m := if s < FloorScore then FloorScore else s;
            var t := Recommend(s);
            (t == Table[|Bounds|] || m <= t.capacityUnits as real) &&
            ((i == |Bounds| || m <= Bounds[i]) ==> t.capacityUnits <= Table[i].capacityUnits)
  {
    TableShape();
    var m := if s < FloorScore then FloorScore else s;
    var k := if s < FloorScore then FloorRow else RowIndex(s);
    assert InRow(m, k);
    if i == |Bounds| || m <= Bounds[i] {
      if i < k {
        BoundsMonotone(i, k - 1);
      }
      CapacityMonotone(k, i);
    }
  }

  /** `determineSKU` as written: an if-chain over the score that assigns
      the label, the capacity units and the 30-second use, then the floor block
      that overwrites all three for scores below 64. */
  method DetermineSku(sku: real) returns (result: Tier)
    ensures result == Recommend(sku)
  {
    var recommendedSku: string, capacityUnits: nat, cuUse30Sec: nat;
    ghost var row: nat;
    if sku <= 2.0 {
      recommendedSku, capacityUnits, cuUse30Sec, row := "F2", 2, 60, 0;
    } else if sku <= 4.0 {
      recommendedSku, capacityUnits, cuUse30Sec, row := "F4", 4, 120, 1;
    } else if sku <= 8.0 {
      recommendedSku, capacityUnits, cuUse30Sec, row := "F8", 8, 240, 2;
    } else if sku <= 16.0 {
      recommendedSku, capacityUnits, cuUse30Sec, row := "F16", 16, 480, 3;
    } else if sku <= 32.0 {
      recommendedSku, capacityUnits, cuUse30Sec, row := "F32", 32, 960, 4;
    } else if sku <= 64.0 {
      recommendedSku, capacityUnits, cuUse30Sec, row := "F64", 64, 1920, 5;
    } else if sku <= 128.0 {
      recommendedSku, capacityUnits, cuUse30Sec, row := "F128", 128, 3840, 6;
    } else if sku <= 256.0 {
      recommendedSku, capacityUnits, cuUse30Sec, row := "F256", 256, 7680, 7;
    } else if sku <= 512.0 {
      recommendedSku, capacityUnits, cuUse30Sec, row := "F512", 512, 15360, 8;
    } else if sku <= 1024.0 {
      recommendedSku, capacityUnits, cuUse30Sec, row := "F1024", 1024, 30720, 9;
    } else {
      recommendedSku, capacityUnits, cuUse30Sec, row := "F2048", 2048, 61440, 10;
    }
    assert InRow(sku, row) && Tier(recommendedSku, capacityUnits, cuUse30Sec) == Table[row];
    TierExactlyOne(sku, row);

    // The floor block: every score below 64 is given the F64 row.
    if sku < 64.0 {
      recommendedSku, capacityUnits, cuUse30Sec := "F64", 64, 1920;
    }
    result := Tier(recommendedSku, capacityUnits, cuUse30Sec);
  }
}
