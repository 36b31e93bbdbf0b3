/** The environmental-impact lookup: a fixed table of per-kilogram factors for
    each waste type and the impact of a quantity of one type. Factors are exact
    decimals (`real`). */
module EnvironmentalImpact {

  /** The factors of one waste type: CO2 prevented and water saved per unit of
      quantity, and a soil-health score on a 1-10 scale. */
  datatype Factors = Factors(co2PreventedPerKg: real, waterSavedPerKg: real, soilHealthScore: int)

  datatype Impact = Impact(co2Prevented: real, waterSaved: real, soilHealthScore: int)

  /** The factor table, keyed by waste-type tag. */
  const ImpactFactors: map<string, Factors> := map[
    "straw"  := Factors(1.5, 0.5, 8),
    "husk"   := Factors(1.2, 0.3, 7),
    "leaves" := Factors(0.8, 0.2, 6),
    "stalks" := Factors(1.0, 0.4, 7),
    "other"  := Factors(0.5, 0.2, 5)
  ]

  /** The tags with an entry of their own in the table. */
  const KnownWasteTypes: set<string> := {"straw", "husk", "leaves", "stalks", "other"}

  /** The factors for a tag: its own row, or the `other` row for any tag the
      table does not have. */
  function FactorsFor(wasteType: string): Factors
  {
    if wasteType in ImpactFactors then ImpactFactors[wasteType] else ImpactFactors["other"]
  }

  /** The impact of `quantity` units of the given waste type: CO2 and water
      scale with the quantity, the soil score is the type's constant. Each
      case is the table row written out. */
  function CalculateEnvironmentalImpact(wasteType: string, quantity: real): (r: Impact)
    ensures wasteType == "straw" ==> r == Impact(1.5 * quantity, 0.5 * quantity, 8)
    ensures wasteType == "husk" ==> r == Impact(1.2 * quantity, 0.3 * quantity, 7)
    ensures wasteType == "leaves" ==> r == Impact(0.8 * quantity, 0.2 * quantity, 6)
    ensures wasteType == "stalks" ==> r == Impact(1.0 * quantity, 0.4 * quantity, 7)
    ensures wasteType !in KnownWasteTypes - {"other"} ==> r == Impact(0.5 * quantity, 0.2 * quantity, 5)
    ensures quantity >= 0.0 ==> r.co2Prevented >= 0.0 && r.waterSaved >= 0.0
    ensures 1 <= r.soilHealthScore <= 10
  {
    var factors := FactorsFor(wasteType);
    Impact(factors.co2PreventedPerKg * quantity, factors.waterSavedPerKg * quantity, factors.soilHealthScore)
  }

  /** Every row of the table has positive per-kilogram factors and a soil score
      in 1..10, and the table's keys are exactly the known tags. */
  lemma FactorTableWellFormed()
    ensures ImpactFactors.Keys == KnownWasteTypes
    ensures forall t :: t in ImpactFactors ==>
      ImpactFactors[t].co2PreventedPerKg > 0.0 && ImpactFactors[t].waterSavedPerKg > 0.0
      && 1 <= ImpactFactors[t].soilHealthScore <= 10
  {
  }

  /** Any tag outside the table is treated as `other`. */
  lemma UnknownTypeUsesOther(wasteType: string, quantity: real)
    requires wasteType !in KnownWasteTypes
    ensures CalculateEnvironmentalImpact(wasteType, quantity)
         == CalculateEnvironmentalImpact("other", quantity)
    ensures CalculateEnvironmentalImpact(wasteType, quantity)
         == Impact(0.5 * quantity, 0.2 * quantity, 5)
  {
  }

  /** CO2 and water are additive in the quantity; the soil score is not scaled. */
  lemma ImpactIsLinear(wasteType: string, q1: real, q2: real)
    ensures var a := CalculateEnvironmentalImpact(wasteType, q1);
            var b := CalculateEnvironmentalImpact(wasteType, q2);
            var c := CalculateEnvironmentalImpact(wasteType, q1 + q2);
            c.co2Prevented == a.co2Prevented + b.co2Prevented
            && c.waterSaved == a.waterSaved + b.waterSaved
            && c.soilHealthScore == a.soilHealthScore == b.soilHealthScore
  {
    var f := FactorsFor(wasteType);
    assert f.co2PreventedPerKg * (q1 + q2) == f.co2PreventedPerKg * q1 + f.co2PreventedPerKg * q2;
    assert f.waterSavedPerKg * (q1 + q2) == f.waterSavedPerKg * q1 + f.waterSavedPerKg * q2;
  }

  /** A quantity of zero prevents and saves nothing. */
  lemma ZeroQuantityHasNoImpact(wasteType: string)
    ensures CalculateEnvironmentalImpact(wasteType, 0.0).co2Prevented == 0.0
    ensures CalculateEnvironmentalImpact(wasteType, 0.0).waterSaved == 0.0
  {
  }

  /** The impact grows with the quantity. */
  lemma ImpactIsMonotone(wasteType: string, q1: real, q2: real)
    requires q1 <= q2
    ensures CalculateEnvironmentalImpact(wasteType, q1).co2Prevented
         <= CalculateEnvironmentalImpact(wasteType, q2).co2Prevented
    ensures CalculateEnvironmentalImpact(wasteType, q1).waterSaved
         <= CalculateEnvironmentalImpact(wasteType, q2).waterSaved
  {
    ImpactIsLinear(wasteType, q1, q2 - q1);
    assert q1 + (q2 - q1) == q2;
  }

  /** One hundred of straw prevents 150 of CO2 and saves 50 of water. */
  lemma StrawExample()
    ensures CalculateEnvironmentalImpact("straw", 100.0) == Impact(150.0, 50.0, 8)
  {
  }
}
