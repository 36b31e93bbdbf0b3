/** The crop predictor's request handling: the location, soil condition and
    crop type are checked, in that order, against fixed lists, and a valid
    request gets the rounded predictions of the two regressors and the
    estimated profit. The trained regressors and rounding are parameters. */
module Prediction {
  import opened Strings

  const ValidLocations: seq<string> := ["Durg", "Mumbai", "Delhi", "Bangalore", "Chennai", "Nashik"]
  const ValidSoilConditions: seq<string> := ["sandy", "clay", "loamy"]
  const ValidCrops: seq<string> := ["rice", "wheat", "maize", "cotton"]

  const LocationError: string := "Invalid location. Choose from: " + JoinWith(ValidLocations, ", ")
  const SoilError: string := "Invalid soil condition. Choose from: " + JoinWith(ValidSoilConditions, ", ")
  const CropError: string := "Invalid crop type. Choose from: " + JoinWith(ValidCrops, ", ")

  /** A value of the returned dictionary. */
  datatype Field = Number(x: real) | Text(s: string)

  /** The trained predictor: the yield and waste regressors applied to one
      input row (location, land area, soil condition, crop type), and
      rounding to two decimals. */
  datatype Predictor = Predictor(
    predictYield: (string, real, string, string) -> real,
    predictWaste: (string, real, string, string) -> real,
    round2: real -> real)

  const ResultKeys: set<string> := {"predicted_yield", "predicted_waste", "estimated_profit"}

  /** The rupees earned per ton of yield in the profit estimate. */
  const ProfitPerTon: real := 20000.0

  predicate ValidRequest(location: string, soilCondition: string, cropType: string)
  {
    location in ValidLocations && soilCondition in ValidSoilConditions && cropType in ValidCrops
  }

  /** `predict_crop`: an `error` entry for the first invalid input, else the
      three predictions. */
  function PredictCrop(p: Predictor, location: string, landArea: real, soilCondition: string, cropType: string)
    : (r: map<string, Field>)
    ensures "error" in r <==> !ValidRequest(location, soilCondition, cropType)
    ensures "error" in r ==> r.Keys == {"error"} && r["error"].Text?
    ensures !("error" in r) ==> r.Keys == ResultKeys && (forall k :: k in r ==> r[k].Number?)
  {
    if location !in ValidLocations then map["error" := Text(LocationError)]
    else if soilCondition !in ValidSoilConditions then map["error" := Text(SoilError)]
    else if cropType !in ValidCrops then map["error" := Text(CropError)]
    else
      var predictedYield := p.predictYield(location, landArea, soilCondition, cropType);
      var predictedWaste := p.predictWaste(location, landArea, soilCondition, cropType);
      map[
        "predicted_yield" := Number(p.round2(predictedYield)),
        "predicted_waste" := Number(p.round2(predictedWaste)),
        "estimated_profit" := Number(p.round2(predictedYield * ProfitPerTon))]
  }

  /** An unknown location is reported first, whatever the other inputs. */
  lemma LocationCheckedFirst(p: Predictor, location: string, landArea: real, soilCondition: string, cropType: string)
    requires location !in ValidLocations
    ensures PredictCrop(p, location, landArea, soilCondition, cropType) == map["error" := Text(LocationError)]
  {
  }

  /** With a known location, an unknown soil condition is reported before the
      crop. */
  lemma SoilCheckedSecond(p: Predictor, location: string, landArea: real, soilCondition: string, cropType: string)
    requires location in ValidLocations && soilCondition !in ValidSoilConditions
    ensures PredictCrop(p, location, landArea, soilCondition, cropType) == map["error" := Text(SoilError)]
  {
  }

  /** With a known location and soil condition, an unknown crop is reported. */
  lemma CropCheckedThird(p: Predictor, location: string, landArea: real, soilCondition: string, cropType: string)
    requires location in ValidLocations && soilCondition in ValidSoilConditions && cropType !in ValidCrops
    ensures PredictCrop(p, location, landArea, soilCondition, cropType) == map["error" := Text(CropError)]
  {
  }

  /** The location error lists the locations in list order, separated by ", ". */
  lemma LocationErrorText()
    ensures LocationError == "Invalid location. Choose from: "
      + "Durg" + ", " + "Mumbai" + ", " + "Delhi" + ", " + "Bangalore" + ", " + "Chennai" + ", " + "Nashik"
  {
    var names := ValidLocations;
    assert JoinWith(names[5..], ", ") == "Nashik";
    assert names[4..][1..] == names[5..];
    assert JoinWith(names[4..], ", ") == "Chennai" + ", " + "Nashik";
    assert names[3..][1..] == names[4..];
    assert JoinWith(names[3..], ", ") == "Bangalore" + ", " + "Chennai" + ", " + "Nashik";
    assert names[2..][1..] == names[3..];
    assert names[1..][1..] == names[2..];
  }

  /** The soil error lists the soil conditions in list order, separated by ", ". */
  lemma SoilErrorText()
    ensures SoilError == "Invalid soil condition. Choose from: " + "sandy" + ", " + "clay" + ", " + "loamy"
  {
    assert JoinWith(ValidSoilConditions[2..], ", ") == "loamy";
  }

  /** The crop error lists the crops in list order, separated by ", ". */
  lemma CropErrorText()
    ensures CropError == "Invalid crop type. Choose from: " + "rice" + ", " + "wheat" + ", " + "maize" + ", " + "cotton"
  {
    assert JoinWith(ValidCrops[3..], ", ") == "cotton";
  }

  /** A valid request's predictions are the rounded regressor outputs, and the
      profit is the rounded unrounded yield times 20000. */
  lemma ValidRequestPredicts(p: Predictor, location: string, landArea: real, soilCondition: string, cropType: string)
    requires ValidRequest(location, soilCondition, cropType)
    ensures var r := PredictCrop(p, location, landArea, soilCondition, cropType);
      var y := p.predictYield(location, landArea, soilCondition, cropType);
      && r["predicted_yield"] == Number(p.round2(y))
      && r["predicted_waste"] == Number(p.round2(p.predictWaste(location, landArea, soilCondition, cropType)))
      && r["estimated_profit"] == Number(p.round2(y * 20000.0))
  {
  }

  /** The land area is never checked: it does not change whether, or which,
      error is returned. */
  lemma LandAreaNotValidated(p: Predictor, location: string, a1: real, a2: real, soilCondition: string, cropType: string)
    ensures var r1 := PredictCrop(p, location, a1, soilCondition, cropType);
      var r2 := PredictCrop(p, location, a2, soilCondition, cropType);
      ("error" in r1 <==> "error" in r2) && ("error" in r1 ==> r1 == r2)
  {
  }
}
