/**
 * scan.js: the tree dropdown that follows the farm selection, the upload
 * form's guard and fields, and the texts and ordering of the result view.
 */
module ScanPage {
  import opened Wrappers
  import opened JsValue
  import opened Browser
  import ApiClient
  import Ranking
  import Text

  /** One `<option>`: its value and its text. */
  datatype Choice = Choice(value: string, text: string)

  const QuickScan: Choice := Choice("", "Quick Scan (No link)")

  /** The option for one tree: its id as the value and its name as the text. */
  function TreeChoice(tree: Json, numberText: real -> string): (c: Choice)
    ensures c.value == JsString(Prop(tree, "tree_id"), numberText)
    ensures c.text == TextContent(Prop(tree, "tree_name"), numberText)
  {
    Choice(JsString(Prop(tree, "tree_id"), numberText), TextContent(Prop(tree, "tree_name"), numberText))
  }

  predicate Nullish(v: Json) {
    v.JNull? || v.JUndefined?
  }

  /** How many trees come before the first null or undefined one (reading its id throws). */
  function FirstNullish(trees: seq<Json>): (k: nat)
    ensures k <= |trees|
    ensures forall i | 0 <= i < k :: !Nullish(trees[i])
    ensures k < |trees| ==> Nullish(trees[k])
  {
    if trees == [] then 0
    else if Nullish(trees[0]) then 0
    else 1 + FirstNullish(trees[1..])
  }

  /** Whether some choice carries the value. */
  predicate Offers(choices: seq<Choice>, value: string) {
    exists i | 0 <= i < |choices| :: choices[i].value == value
  }

  /** The dropdown of trees. */
  class TreeDropdown {
    var choices: seq<Choice>
    var disabled: bool
    var value: string
    var shown: Option<Notice>

    constructor()
      ensures choices == [QuickScan] && !disabled && value == "" && shown == None
    {
      choices := [QuickScan];
      disabled := false;
      value := "";
      shown := None;
    }

    /**
     * populateTreeDropdown. The list is reset to the quick-scan option and
     * disabled first; with no farm selected it stays so. Otherwise one
     * option per tree is appended in order. `reply` is how the trees call
     * settled: anything but an array without null entries ends in the
     * failure message with the list disabled, keeping the options already
     * appended; on success the URL's `tree_id` is selected when offered.
     */
    method Populate(farmId: string, reply: ApiClient.Outcome, preselectedTreeId: Option<string>,
                    numberText: real -> string)
      returns (call: Option<ApiClient.Call>)
      modifies this
      ensures farmId == "" ==>
        call == None && choices == [QuickScan] && disabled && value == "" && shown == old(shown)
      ensures farmId != "" ==>
        call == Some(ApiClient.Call("/api/user/farm/" + farmId + "/tree", "GET", ApiClient.Data(JNull), true))
      ensures farmId != "" && reply.Returned? && reply.data.JArr? ==>
        var trees := reply.data.items;
        var k := FirstNullish(trees);
        && |choices| == k + 1 && choices[0] == QuickScan
        && (forall i | 0 <= i < k :: choices[i + 1] == TreeChoice(trees[i], numberText))
      ensures farmId != "" && reply.Returned? && reply.data.JArr? && FirstNullish(reply.data.items) == |reply.data.items| ==>
        && !disabled && shown == old(shown)
        && (preselectedTreeId.Some? && preselectedTreeId.value != "" && Offers(choices, preselectedTreeId.value) ==>
              value == preselectedTreeId.value)
        && (!(preselectedTreeId.Some? && preselectedTreeId.value != "" && Offers(choices, preselectedTreeId.value)) ==>
              value == "")
      ensures farmId != "" && !(reply.Returned? && reply.data.JArr? && FirstNullish(reply.data.items) == |reply.data.items|) ==>
        && disabled && value == ""
        && shown == Some(Notice(JStr("Failed to load trees for this farm."), true))
      ensures farmId != "" && !(reply.Returned? && reply.data.JArr?) ==> choices == [QuickScan]
    {
      choices := [QuickScan];
      value := "";
      disabled := true;
      if farmId == "" {
        return None;
      }
      disabled := false;
      call := Some(ApiClient.Call("/api/user/farm/" + farmId + "/tree", "GET", ApiClient.Data(JNull), true));
      if !(reply.Returned? && reply.data.JArr?) {
        shown := Some(Notice(JStr("Failed to load trees for this farm."), true));
        disabled := true;
        return;
      }
      var trees := reply.data.items;
      var i := 0;
      while i < |trees| && !Nullish(trees[i])
        invariant 0 <= i <= FirstNullish(trees)
        invariant |choices| == i + 1 && choices[0] == QuickScan
        invariant forall j | 0 <= j < i :: choices[j + 1] == TreeChoice(trees[j], numberText)
        invariant !disabled && value == "" && shown == old(shown)
        decreases |trees| - i
      {
        choices := choices + [TreeChoice(trees[i], numberText)];
        i := i + 1;
      }
      if i < |trees| {
        shown := Some(Notice(JStr("Failed to load trees for this farm."), true));
        disabled := true;
        return;
      }
      if preselectedTreeId.Some? && preselectedTreeId.value != "" {
        value := if Offers(choices, preselectedTreeId.value) then preselectedTreeId.value else "";
      }
    }
  }

  /** The form data sent for a scan: the image, and the tree only when one is selected. */
  function UploadFields(file: string, treeId: string, farmId: string): (fields: seq<(string, string)>)
    ensures |fields| >= 1 && fields[0] == ("image", file)
    ensures treeId != "" ==> fields == [("image", file), ("tree_id", treeId)]
    ensures treeId == "" ==> fields == [("image", file)]
    ensures forall i | 0 <= i < |fields| :: fields[i].0 != "farm_id"
  {
    if treeId != "" then [("image", file), ("tree_id", treeId)] else [("image", file)]
  }

  /** What the prediction service reports for one scan. */
  datatype Prediction = Prediction(predictedClass: string, treatmentDetails: Json, rawData: seq<(string, real)>)

  /** What the result view shows. */
  datatype ResultView = ResultView(
    header: string,
    headerColor: string,
    statusTag: string,
    statusClass: string,
    organicText: Json,
    chemicalText: Json,
    probabilities: seq<(string, real)>,
    galleryLink: string)

  const OrganicDefault: string :=
    "No specific organic treatment recorded for this disease yet. Please update the admin database."
  const ChemicalDefault: string :=
    "No specific chemical treatment recorded for this disease yet. Please update the admin database."

  /** `predictedClass.toLowerCase() === 'healthy'` */
  predicate IsHealthy(predictedClass: string) {
    Text.Lower(predictedClass) == "healthy"
  }

  /** "Healthy" in any mix of letter case counts as healthy, and nothing else does. */
  lemma HealthyIgnoresCase(predictedClass: string)
    ensures IsHealthy(predictedClass) <==>
      |predictedClass| == 7 && forall i | 0 <= i < 7 :: Text.LowerAscii(predictedClass[i]) == "healthy"[i]
  {
    if |predictedClass| == 7 && forall i | 0 <= i < 7 :: Text.LowerAscii(predictedClass[i]) == "healthy"[i] {
      assert Text.Lower(predictedClass) == "healthy";
    }
  }

  /**
   * A treatment text: the recorded value unless it is missing, falsy or
   * exactly "N/A", in which case the default sentence.
   */
  function TreatmentText(recorded: Json, default: string): (text: Json)
    ensures Truthy(recorded) && recorded != JStr("N/A") ==> text == recorded
    ensures !(Truthy(recorded) && recorded != JStr("N/A")) ==> text == JStr(default)
  {
    if Truthy(recorded) && recorded != JStr("N/A") then recorded else JStr(default)
  }

  /** A shown treatment is never empty and never the "N/A" placeholder, given a non-empty default. */
  lemma TreatmentTextShown(recorded: Json, default: string)
    requires default != "" && default != "N/A"
    ensures Truthy(TreatmentText(recorded, default)) && TreatmentText(recorded, default) != JStr("N/A")
  {
  }

  function Probability(entry: (string, real)): real { entry.1 }

  /** renderResults. */
  function Render(p: Prediction, imageId: Json, numberText: real -> string): (view: ResultView)
    ensures view.header == p.predictedClass
    ensures IsHealthy(p.predictedClass) ==>
      view.statusTag == "Healthy" && view.statusClass == "disease-status healthy" && view.headerColor == "#5cb85c"
    ensures !IsHealthy(p.predictedClass) ==>
      view.statusTag == "Disease Detected" && view.statusClass == "disease-status " && view.headerColor == "#d9534f"
    ensures Truthy(p.treatmentDetails) ==>
      && view.organicText == TreatmentText(Prop(p.treatmentDetails, "organic"), OrganicDefault)
      && view.chemicalText == TreatmentText(Prop(p.treatmentDetails, "chemical"), ChemicalDefault)
    ensures !Truthy(p.treatmentDetails) ==>
      view.organicText == JStr(OrganicDefault) && view.chemicalText == JStr(ChemicalDefault)
    ensures Ranking.NonIncreasing(view.probabilities, Probability)
    ensures multiset(view.probabilities) == multiset(p.rawData)
    ensures view.galleryLink == "/gallery/" + JsString(imageId, numberText)
  {
    var healthy := IsHealthy(p.predictedClass);
    var treatments := Or(p.treatmentDetails, JObj([]));
    Ranking.SortDescCorrect(p.rawData, Probability);
    ResultView(
      p.predictedClass,
      if healthy then "#5cb85c" else "#d9534f",
      if healthy then "Healthy" else "Disease Detected",
      "disease-status " + (if healthy then "healthy" else ""),
      TreatmentText(Prop(treatments, "organic"), OrganicDefault),
      TreatmentText(Prop(treatments, "chemical"), ChemicalDefault),
      Ranking.SortDesc(p.rawData, Probability),
      "/gallery/" + JsString(imageId, numberText))
  }

  /** Probabilities that tie keep the order in which the service listed them. */
  lemma TiesKeepServiceOrder(p: Prediction, imageId: Json, numberText: real -> string, k: real)
    ensures Ranking.WithKey(Render(p, imageId, numberText).probabilities, Probability, k)
         == Ranking.WithKey(p.rawData, Probability, k)
  {
    Ranking.SortDescCorrect(p.rawData, Probability);
  }

  /** How the upload call settled. */
  datatype ScanReply = Analyzed(result: Prediction, imageId: Json) | Failed(message: string)

  /** The scan form and its result section. */
  class ScanForm {
    var shown: Option<Notice>
    var results: Option<ResultView>

    constructor()
      ensures shown == None && results == None
    {
      shown := None;
      results := None;
    }

    /**
     * The form's submit: no file means the message and no request;
     * otherwise the upload goes with UploadFields and the results are
     * rendered once it succeeds. The result section is hidden while the
     * request runs and stays hidden when it fails.
     */
    method Submit(fileCount: nat, file: string, treeId: string, farmId: string, reply: ScanReply,
                  numberText: real -> string)
      returns (call: Option<ApiClient.Call>)
      modifies this
      ensures fileCount == 0 ==>
        call == None && shown == Some(Notice(JStr("Please select an image file first."), true)) && results == old(results)
      ensures fileCount > 0 ==>
        call == Some(ApiClient.Call("/api/scan/upload-and-analyze", "POST",
                                    ApiClient.FormData(UploadFields(file, treeId, farmId)), true))
      ensures fileCount > 0 && reply.Analyzed? ==>
        && shown == Some(Notice(JStr("Analysis complete! See results below."), false))
        && results == Some(Render(reply.result, reply.imageId, numberText))
      ensures fileCount > 0 && reply.Failed? ==>
        && results == None
        && shown == Some(Notice(JStr(ApiClient.FailureText(reply.message,
             "An error occurred during analysis. (Hint: ML Model might be missing or DB not populated)")), true))
    {
      if fileCount == 0 {
        shown := Some(Notice(JStr("Please select an image file first."), true));
        return None;
      }
      var fields := [("image", file)];
      if treeId != "" {
        fields := fields + [("tree_id", treeId)];
      }
      assert fields == UploadFields(file, treeId, farmId);
      results := None;
      shown := Some(Notice(JStr("Processing image and running ML model..."), false));
      call := Some(ApiClient.Call("/api/scan/upload-and-analyze", "POST", ApiClient.FormData(fields), true));
      match reply {
        case Analyzed(result, imageId) =>
          shown := Some(Notice(JStr("Analysis complete! See results below."), false));
          results := Some(Render(result, imageId, numberText));
        case Failed(message) =>
          shown := Some(Notice(JStr(ApiClient.FailureText(message,
            "An error occurred during analysis. (Hint: ML Model might be missing or DB not populated)")), true));
      }
    }
  }
}
