/** The backend's screening store: the values bound to the eighteen
    placeholders of the insert, and the single-row lookup. The database
    itself is left out; query results are inputs. */
module ScreeningService {
  import opened Base
  import opened Js

  /** The members of a posted screening, in the order of the insert's
      columns and so of its placeholders `$1` to `$18`. */
  const BodyFields: seq<string> := [
    "userId", "childId", "alignmentScore", "alignmentNormalized", "alignmentSymmetryRatio",
    "trackingScore", "trackingNormalized", "contrastScore", "contrastNormalized",
    "contrastLeftEyeAccuracy", "contrastRightEyeAccuracy",
    "finalRiskScore", "classification", "notes", "consentGiven",
    "screeningDurationSeconds", "cameraQualityScore", "dataCompletenessPercentage"]

  /** The positions whose member is bound as it is; every other member is
      bound with `|| null`. */
  const PassedThrough: set<int> := {0, 1, 11, 12, 14}

  /** The `values` array of `createScreening`. */
  function InsertValues(body: map<string, Value>): (values: seq<Value>)
    ensures |values| == |BodyFields|
    ensures forall i :: 0 <= i < |BodyFields| && i in PassedThrough ==> values[i] == Get(body, BodyFields[i])
    ensures forall i :: 0 <= i < |BodyFields| && i !in PassedThrough ==>
              values[i] == if Falsy(Get(body, BodyFields[i])) then Null else Get(body, BodyFields[i])
  {
    [Get(body, "userId"),
     Get(body, "childId"),
     Or(Get(body, "alignmentScore"), Null),
     Or(Get(body, "alignmentNormalized"), Null),
     Or(Get(body, "alignmentSymmetryRatio"), Null),
     Or(Get(body, "trackingScore"), Null),
     Or(Get(body, "trackingNormalized"), Null),
     Or(Get(body, "contrastScore"), Null),
     Or(Get(body, "contrastNormalized"), Null),
     Or(Get(body, "contrastLeftEyeAccuracy"), Null),
     Or(Get(body, "contrastRightEyeAccuracy"), Null),
     Get(body, "finalRiskScore"),
     Get(body, "classification"),
     Or(Get(body, "notes"), Null),
     Get(body, "consentGiven"),
     Or(Get(body, "screeningDurationSeconds"), Null),
     Or(Get(body, "cameraQualityScore"), Null),
     Or(Get(body, "dataCompletenessPercentage"), Null)]
  }

  /** A sub-score of exactly 0 is stored as null, while a final risk score
      of 0 and a consent of false are stored as they are. */
  lemma ZeroScoresStoredAsNull(body: map<string, Value>)
    requires Get(body, "alignmentScore") == Num(0.0) && Get(body, "finalRiskScore") == Num(0.0)
    requires Get(body, "consentGiven") == Bool(false)
    ensures InsertValues(body)[2] == Null
    ensures InsertValues(body)[11] == Num(0.0) && InsertValues(body)[14] == Bool(false)
  {
    assert BodyFields[2] == "alignmentScore" && 2 !in PassedThrough;
    assert BodyFields[11] == "finalRiskScore" && 11 in PassedThrough;
    assert BodyFields[14] == "consentGiven" && 14 in PassedThrough;
  }

  /** `rows[0] || null` */
  function FirstRowOrNull(rows: seq<Value>): (r: Value)
    ensures rows == [] ==> r == Null
    ensures rows != [] && !Falsy(rows[0]) ==> r == rows[0]
  {
    if rows == [] then Null else Or(rows[0], Null)
  }
}
