/** The scan routes of src/userRoutes/scanRoutes.js: `/save` checks the
    required fields, inserts the leaf scan and then its history entry, and
    `/disease-info/:classNumber` shapes three result sets positionally. */
module Scan {
  import opened Js
  import opened Sql
  import Seqs

  const LeafScanInsert :=
    "INSERT INTO rice_leaf_scan (user_id, rice_leaf_disease_id, disease_confidence_score, created_at, scan_image) "
    + "VALUES (@param0, @param1, @param2, GETDATE(), @param3); SELECT SCOPE_IDENTITY() as rice_leaf_scan_id;"
  const HistoryInsert := "INSERT INTO scan_history (rice_leaf_scan_id, date_captured) VALUES (@param0, GETDATE())"
  const DiseaseQuery :=
    "SELECT rice_leaf_disease, description as disease_description FROM rice_leaf_disease WHERE rice_leaf_disease_id = @param0"
  const TreatmentsQuery :=
    "SELECT treatment_id, treatment, description as treatment_description FROM local_practice_treatment "
    + "WHERE rice_leaf_disease_id = @param0"
  const MedicinesQuery :=
    "SELECT medicine_id, rice_plant_medicine, description as medicine_description, image as medicine_image "
    + "FROM rice_plant_medicine WHERE rice_leaf_disease_id = @param0"

  // ---------------------------------------------------------------- save

  /** A required field of `/save`, named in the response by `FieldName`. */
  datatype RequiredField = ScanImage | UserProfileId | PredictionScore | Prediction

  function FieldName(f: RequiredField): string {
    match f
    case ScanImage => "scan_image"
    case UserProfileId => "user_profile_id"
    case PredictionScore => "disease_prediction_score"
    case Prediction => "disease_prediction"
  }

  /** The order in which missing fields are reported. */
  const RequiredFields: seq<RequiredField> := [ScanImage, UserProfileId, PredictionScore, Prediction]

  /** Whether field `f` is missing, given which of the four checks failed. */
  predicate Lacks(f: RequiredField, noImage: bool, noProfile: bool, noScore: bool, noPrediction: bool) {
    match f
    case ScanImage => noImage
    case UserProfileId => noProfile
    case PredictionScore => noScore
    case Prediction => noPrediction
  }

  /** The image and the profile id are missing when falsy; the score and the
      prediction only when null or undefined, so 0 and "" are accepted. */
  predicate IsMissing(f: RequiredField, scanImage: Value, userProfileId: Value, score: Value, prediction: Value) {
    Lacks(f, !Truthy(scanImage), !Truthy(userProfileId), Nullish(score), Nullish(prediction))
  }

  /** The fields among the first `n` of `RequiredFields` that `Lacks` picks, in order. */
  function LackingAmong(n: nat, noImage: bool, noProfile: bool, noScore: bool, noPrediction: bool)
    : seq<RequiredField>
    requires n <= |RequiredFields|
  {
    if n == 0 then []
    else
      var f := RequiredFields[n - 1];
      LackingAmong(n - 1, noImage, noProfile, noScore, noPrediction) +
      (if Lacks(f, noImage, noProfile, noScore, noPrediction) then [f] else [])
  }

  /** The missing fields among the first `n` of `RequiredFields`, in order. */
  function MissingAmong(n: nat, scanImage: Value, userProfileId: Value, score: Value, prediction: Value)
    : seq<RequiredField>
    requires n <= |RequiredFields|
  {
    LackingAmong(n, !Truthy(scanImage), !Truthy(userProfileId), Nullish(score), Nullish(prediction))
  }

  /** `LackingAmong` keeps the order of `RequiredFields` and is exact: a field
      among the first `n` is listed iff `Lacks` picks it. */
  lemma {:induction false} LackingAmongExact(n: nat, noImage: bool, noProfile: bool, noScore: bool, noPrediction: bool)
    requires n <= |RequiredFields|
    ensures var m := LackingAmong(n, noImage, noProfile, noScore, noPrediction);
      && Seqs.Subseq(m, RequiredFields[..n])
      && (forall f :: f in m ==> f in RequiredFields[..n] && Lacks(f, noImage, noProfile, noScore, noPrediction))
      && (forall f :: f in RequiredFields[..n] && Lacks(f, noImage, noProfile, noScore, noPrediction) ==> f in m)
    decreases n
  {
    if n > 0 {
      var init := RequiredFields[..n - 1];
      var last := RequiredFields[n - 1];
      var m0 := LackingAmong(n - 1, noImage, noProfile, noScore, noPrediction);
      var keep := Lacks(last, noImage, noProfile, noScore, noPrediction);
      LackingAmongExact(n - 1, noImage, noProfile, noScore, noPrediction);
      assert LackingAmong(n, noImage, noProfile, noScore, noPrediction) == m0 + (if keep then [last] else []);
      assert RequiredFields[..n] == init + [last];
      Seqs.SubseqSnoc(m0, init, last, keep);
    }
  }

  /** `MissingAmong` keeps the order of `RequiredFields` and is exact: a field
      among the first `n` is listed iff it is missing. */
  lemma MissingAmongExact(n: nat, scanImage: Value, userProfileId: Value, score: Value, prediction: Value)
    requires n <= |RequiredFields|
    ensures var m := MissingAmong(n, scanImage, userProfileId, score, prediction);
      && Seqs.Subseq(m, RequiredFields[..n])
      && (forall f :: f in m ==> f in RequiredFields[..n] && IsMissing(f, scanImage, userProfileId, score, prediction))
      && (forall f :: f in RequiredFields[..n] && IsMissing(f, scanImage, userProfileId, score, prediction) ==> f in m)
  {
    var noImage, noProfile, noScore, noPrediction := !Truthy(scanImage), !Truthy(userProfileId), Nullish(score), Nullish(prediction);
    LackingAmongExact(n, noImage, noProfile, noScore, noPrediction);
    forall f
      ensures IsMissing(f, scanImage, userProfileId, score, prediction) == Lacks(f, noImage, noProfile, noScore, noPrediction)
    {
    }
  }

  /** The list `/save` reports, in the order scan_image, user_profile_id,
      disease_prediction_score, disease_prediction. */
  function Missing(scanImage: Value, userProfileId: Value, score: Value, prediction: Value): seq<RequiredField> {
    MissingAmong(|RequiredFields|, scanImage, userProfileId, score, prediction)
  }

  /** The reported list names exactly the missing fields, in the fixed order. */
  lemma MissingExact(scanImage: Value, userProfileId: Value, score: Value, prediction: Value)
    ensures var m := Missing(scanImage, userProfileId, score, prediction);
      && Seqs.Subseq(m, RequiredFields)
      && forall f :: f in m <==> IsMissing(f, scanImage, userProfileId, score, prediction)
  {
    MissingAmongExact(|RequiredFields|, scanImage, userProfileId, score, prediction);
    assert RequiredFields[..|RequiredFields|] == RequiredFields;
    forall f
      ensures f in RequiredFields
    {
      assert f == RequiredFields[0] || f == RequiredFields[1] || f == RequiredFields[2] || f == RequiredFields[3];
    }
  }

  /** The `missingFields` array of `/save`. */
  method MissingFields(userProfileId: Value, prediction: Value, score: Value, scanImage: Value)
    returns (missingFields: seq<RequiredField>)
    ensures missingFields == Missing(scanImage, userProfileId, score, prediction)
  {
    ghost var noImage, noProfile, noScore, noPrediction :=
      !Truthy(scanImage), !Truthy(userProfileId), Nullish(score), Nullish(prediction);
    missingFields := [];
    if !Truthy(scanImage) {
      missingFields := missingFields + [ScanImage];
    }
    assert missingFields == LackingAmong(1, noImage, noProfile, noScore, noPrediction);
    if !Truthy(userProfileId) {
      missingFields := missingFields + [UserProfileId];
    }
    assert missingFields == LackingAmong(2, noImage, noProfile, noScore, noPrediction);
    if Nullish(score) {
      missingFields := missingFields + [PredictionScore];
    }
    assert missingFields == LackingAmong(3, noImage, noProfile, noScore, noPrediction);
    if Nullish(prediction) {
      missingFields := missingFields + [Prediction];
    }
    assert missingFields == LackingAmong(4, noImage, noProfile, noScore, noPrediction);
    assert MissingAmong(4, scanImage, userProfileId, score, prediction) == LackingAmong(4, noImage, noProfile, noScore, noPrediction);
  }

  /** Nothing is missing exactly when each field passes its own test. */
  lemma NoneMissing(scanImage: Value, userProfileId: Value, score: Value, prediction: Value)
    ensures Missing(scanImage, userProfileId, score, prediction) == [] <==>
              Truthy(scanImage) && Truthy(userProfileId) && !Nullish(score) && !Nullish(prediction)
  {
    var m := Missing(scanImage, userProfileId, score, prediction);
    MissingExact(scanImage, userProfileId, score, prediction);
    if m == [] {
      assert ScanImage !in m && UserProfileId !in m;
      assert PredictionScore !in m && Prediction !in m;
    } else {
      assert IsMissing(m[0], scanImage, userProfileId, score, prediction);
    }
  }

  /** The parameters of the leaf-scan insert. */
  function LeafScanParams(userProfileId: Value, prediction: Value, score: Value, scanImage: Value): (ps: seq<Param>)
    ensures |ps| == 4
  {
    // `@param0` is the profile id as text, `@param1` the parsed class number
    [ P(VarChar, Str(ToJsString(userProfileId))),
      P(Int, ParseInt(prediction)),
      Param(Float, FloatOf(score)),
      P(VarChar, scanImage) ]
  }

  /** `POST /save` */
  method SaveScan(userProfileId: Value, prediction: Value, score: Value, scanImage: Value,
                  leafScanResult: Result<seq<Row>>, historyResult: Result<seq<Row>>)
    returns (resp: Response, missingFields: seq<RequiredField>, queries: seq<Query>, riceLeafScanId: Option<Value>)
    // the 400 answer names exactly the missing fields, in the handler's order
    ensures missingFields == Missing(scanImage, userProfileId, score, prediction)
    ensures missingFields != [] ==> resp == Response(400, "Missing required fields") && queries == []
    ensures missingFields == [] <==>
              Truthy(scanImage) && Truthy(userProfileId) && !Nullish(score) && !Nullish(prediction)
    ensures missingFields == [] ==>
              |queries| >= 1 && queries[0] == Query(LeafScanInsert, LeafScanParams(userProfileId, prediction, score, scanImage))
    // the history row points at the id the first insert returned
    ensures |queries| == 2 <==> missingFields == [] && leafScanResult.Ok? && FirstValue(leafScanResult.value).Some?
    ensures |queries| == 2 ==> queries[1] == Query(HistoryInsert, [P(Int, FirstValue(leafScanResult.value).value)])
    ensures resp.status == 201 <==> |queries| == 2 && historyResult.Ok?
    ensures resp.status == 201 ==> riceLeafScanId == FirstValue(leafScanResult.value)
    ensures resp.status != 201 ==> riceLeafScanId == None
    ensures |queries| <= 2
  {
    riceLeafScanId := None;
    missingFields := MissingFields(userProfileId, prediction, score, scanImage);
    NoneMissing(scanImage, userProfileId, score, prediction);
    if |missingFields| > 0 {
      return Response(400, "Missing required fields"), missingFields, [], riceLeafScanId;
    }
    var failed := Response(500, "Server error during scan data saving");
    queries := [Query(LeafScanInsert, LeafScanParams(userProfileId, prediction, score, scanImage))];
    if leafScanResult.Err? {
      return failed, missingFields, queries, riceLeafScanId;
    }
    var id := FirstValue(leafScanResult.value);
    if id.None? {
      return failed, missingFields, queries, riceLeafScanId;
    }
    queries := queries + [Query(HistoryInsert, [P(Int, id.value)])];
    if historyResult.Err? {
      return failed, missingFields, queries, riceLeafScanId;
    }
    riceLeafScanId := id;
    resp := Response(201, "Scan data saved successfully");
  }

  // ---------------------------------------------------------------- disease info

  datatype Treatment = Treatment(id: Value, name: Value, description: Value)
  datatype Medicine = Medicine(id: Value, name: Value, description: Value, image: Value)
  datatype DiseaseInfo = DiseaseInfo(disease: Value, description: Value,
                                     treatments: seq<Treatment>, medicines: seq<Medicine>)

  /** `treatmentsResult.map(row => …)`: one treatment per row, in order, from
      columns 0, 1 and 2; None where a row is too short and `row[i].value` throws. */
  function TreatmentsOf(rows: seq<Row>): Option<seq<Treatment>> {
    if rows == [] then Some([])
    else if |rows[0]| < 3 then None
    else
      match TreatmentsOf(rows[1..])
      case None => None
      case Some(rest) => Some([Treatment(rows[0][0].value, rows[0][1].value, rows[0][2].value)] + rest)
  }

  /** `medicinesResult.map(row => …)`, from columns 0 to 3. */
  function MedicinesOf(rows: seq<Row>): Option<seq<Medicine>> {
    if rows == [] then Some([])
    else if |rows[0]| < 4 then None
    else
      match MedicinesOf(rows[1..])
      case None => None
      case Some(rest) =>
        Some([Medicine(rows[0][0].value, rows[0][1].value, rows[0][2].value, rows[0][3].value)] + rest)
  }

  /** One treatment per row, in order, from columns 0, 1 and 2, and None
      exactly when some row has fewer than three columns. */
  lemma {:induction false} TreatmentsOfRows(rows: seq<Row>)
    ensures TreatmentsOf(rows).Some? <==> forall i :: 0 <= i < |rows| ==> |rows[i]| >= 3
    ensures TreatmentsOf(rows).Some? ==>
              |TreatmentsOf(rows).value| == |rows| &&
              forall i :: 0 <= i < |rows| ==>
                TreatmentsOf(rows).value[i] == Treatment(rows[i][0].value, rows[i][1].value, rows[i][2].value)
    decreases |rows|
  {
    if rows != [] {
      TreatmentsOfRows(rows[1..]);
      if TreatmentsOf(rows).Some? {
        forall i | 0 < i < |rows|
          ensures TreatmentsOf(rows).value[i] == Treatment(rows[i][0].value, rows[i][1].value, rows[i][2].value)
        {
          assert rows[1..][i - 1] == rows[i];
        }
      } else if |rows[0]| >= 3 {
        var j :| 0 <= j < |rows[1..]| && |rows[1..][j]| < 3;
        assert rows[j + 1] == rows[1..][j];
      }
    }
  }

  /** One medicine per row, in order, from columns 0 to 3, and None exactly
      when some row has fewer than four columns. */
  lemma {:induction false} MedicinesOfRows(rows: seq<Row>)
    ensures MedicinesOf(rows).Some? <==> forall i :: 0 <= i < |rows| ==> |rows[i]| >= 4
    ensures MedicinesOf(rows).Some? ==>
              |MedicinesOf(rows).value| == |rows| &&
              forall i :: 0 <= i < |rows| ==>
                MedicinesOf(rows).value[i] == Medicine(rows[i][0].value, rows[i][1].value, rows[i][2].value, rows[i][3].value)
    decreases |rows|
  {
    if rows != [] {
      MedicinesOfRows(rows[1..]);
      if MedicinesOf(rows).Some? {
        forall i | 0 < i < |rows|
          ensures MedicinesOf(rows).value[i] == Medicine(rows[i][0].value, rows[i][1].value, rows[i][2].value, rows[i][3].value)
        {
          assert rows[1..][i - 1] == rows[i];
        }
      } else if |rows[0]| >= 4 {
        var j :| 0 <= j < |rows[1..]| && |rows[1..][j]| < 4;
        assert rows[j + 1] == rows[1..][j];
      }
    }
  }

  /** `GET /disease-info/:classNumber`. The three queries run together; any of
      them failing is a 500. */
  method FetchDiseaseInfo(classNumber: string, diseaseResult: Result<seq<Row>>,
                          treatmentsResult: Result<seq<Row>>, medicinesResult: Result<seq<Row>>)
    returns (resp: Response, queries: seq<Query>, info: Option<DiseaseInfo>)
    ensures var ps := [P(Int, ParseIntString(classNumber))];
      queries == [Query(DiseaseQuery, ps), Query(TreatmentsQuery, ps), Query(MedicinesQuery, ps)]
    ensures DiseaseAnswer(resp, info, diseaseResult, treatmentsResult, medicinesResult)
  {
    var ps := [P(Int, ParseIntString(classNumber))];
    queries := [Query(DiseaseQuery, ps), Query(TreatmentsQuery, ps), Query(MedicinesQuery, ps)];
    resp, info := AnswerDiseaseInfo(diseaseResult, treatmentsResult, medicinesResult);
  }

  /** What `/disease-info` answers once its three results are in: any failure
      is a 500 and an empty disease result a 404, both without information;
      200 exactly when every row maps, carrying the disease's first two
      columns and the mapped treatments and medicines. */
  predicate DiseaseAnswer(resp: Response, info: Option<DiseaseInfo>, diseaseResult: Result<seq<Row>>,
                          treatmentsResult: Result<seq<Row>>, medicinesResult: Result<seq<Row>>)
  {
    && (diseaseResult.Err? || treatmentsResult.Err? || medicinesResult.Err? ==> resp.status == 500 && info == None)
    && (diseaseResult.Ok? && treatmentsResult.Ok? && medicinesResult.Ok? && diseaseResult.value == [] ==>
          resp == Response(404, "No disease information found for the given class number") && info == None)
    && (resp.status == 200 <==>
          && diseaseResult.Ok? && treatmentsResult.Ok? && medicinesResult.Ok?
          && |diseaseResult.value| > 0 && |diseaseResult.value[0]| >= 2
          && TreatmentsOf(treatmentsResult.value).Some? && MedicinesOf(medicinesResult.value).Some?)
    && (resp.status == 200 ==>
          info == Some(DiseaseInfo(diseaseResult.value[0][0].value, diseaseResult.value[0][1].value,
                                      TreatmentsOf(treatmentsResult.value).value,
                                      MedicinesOf(medicinesResult.value).value)))
    && (resp.status != 200 ==> info == None)
  }

  /** The response half of `/disease-info`. */
  method AnswerDiseaseInfo(diseaseResult: Result<seq<Row>>, treatmentsResult: Result<seq<Row>>,
                           medicinesResult: Result<seq<Row>>)
    returns (resp: Response, info: Option<DiseaseInfo>)
    ensures DiseaseAnswer(resp, info, diseaseResult, treatmentsResult, medicinesResult)
  {
    info := None;
    var failed := Response(500, "Internal server error while fetching disease information");
    if diseaseResult.Err? || treatmentsResult.Err? || medicinesResult.Err? {
      return failed, info;
    }
    if |diseaseResult.value| == 0 {
      return Response(404, "No disease information found for the given class number"), info;
    }
    var first := diseaseResult.value[0];
    var treatments := TreatmentsOf(treatmentsResult.value);
    var medicines := MedicinesOf(medicinesResult.value);
    if |first| < 2 || treatments.None? || medicines.None? {
      return failed, info;
    }
    info := Some(DiseaseInfo(first[0].value, first[1].value, treatments.value, medicines.value));
    resp := Response(200, "");
  }
}
