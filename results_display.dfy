/** The results view: which disease is displayed (an explicit choice, else the
    first predicted one), how prediction cards and selector buttons are
    marked, when the selector shows, and which Grad-CAM image is shown. The
    percentages and bar widths are left to the renderer. */
module ResultsDisplay {
  import opened Common
  import opened ModelUtils
  import Api

  /** A prediction card; `selected` is its "selected" class. */
  datatype Card = Card(disease: string, probability: real, selected: bool)

  /** A selector button; `active` is its "active" class. */
  datatype SelectorButton = SelectorButton(disease: string, active: bool)

  /** What the component renders for a response. */
  datatype Screen = Screen(
    cards: seq<Card>,
    displayDisease: Option<string>,
    confidence: Option<real>,
    heatmap: Option<string>,
    originalImage: string,
    selector: Option<seq<SelectorButton>>)

  /** `selectedDisease || diseaseNames[0]`: an empty selection is falsy, and
      with no predictions the first name is undefined. */
  function DisplayDisease(names: seq<string>, selected: Option<string>): Option<string>
  {
    if selected.Some? && selected.value != "" then selected
    else if |names| > 0 then Some(names[0])
    else None
  }

  /** `obj[key]` for a key that may be undefined. */
  function LookupAt<V>(d: Dict<V>, key: Option<string>): Option<V>
  {
    if key.Some? then Lookup(d, key.value) else None
  }

  /** The component's output: nothing without results; otherwise one card
      per prediction, in order, marked when it is the explicit selection, the
      heatmap and confidence of the displayed disease, and, for more than one
      prediction, one selector button per prediction, marked when it is the
      displayed disease. */
  function Render(results: Option<Api.Response>, selected: Option<string>): (s: Option<Screen>)
    ensures s.Some? <==> results.Some?
    ensures s.Some? ==>
      && |s.value.cards| == |results.value.predictions|
      && (forall i :: 0 <= i < |s.value.cards| ==>
            && s.value.cards[i].disease == results.value.predictions[i].0
            && s.value.cards[i].probability == results.value.predictions[i].1)
    ensures s.Some? && s.value.selector.Some? ==>
      && |s.value.selector.value| == |results.value.predictions|
      && (forall i :: 0 <= i < |s.value.selector.value| ==>
            s.value.selector.value[i].disease == results.value.predictions[i].0)
    ensures s.Some? ==>
      && (s.value.heatmap.Some? <==>
            s.value.displayDisease.Some? && s.value.displayDisease.value in Keys(results.value.gradcamImages))
      && (s.value.heatmap.Some? ==>
            (s.value.displayDisease.value, s.value.heatmap.value) in results.value.gradcamImages)
    ensures s.Some? ==>
      && (s.value.confidence.Some? <==>
            s.value.displayDisease.Some? && s.value.displayDisease.value in Keys(results.value.predictions))
      && (s.value.confidence.Some? ==>
            (s.value.displayDisease.value, s.value.confidence.value) in results.value.predictions)
  {
    if results.None? then None
    else
      var predictions := results.value.predictions;
      var names := Keys(predictions);
      var display := DisplayDisease(names, selected);
      var cards := seq(|predictions|, i requires 0 <= i < |predictions| =>
        Card(names[i], predictions[i].1, selected == Some(names[i])));
      var buttons := seq(|names|, i requires 0 <= i < |names| =>
        SelectorButton(names[i], display == Some(names[i])));
      Some(Screen(
        cards, display, LookupAt(predictions, display), LookupAt(results.value.gradcamImages, display),
        results.value.originalImage, if |names| > 1 then Some(buttons) else None))
  }

  /** With no explicit selection the first prediction is displayed, no card
      is marked "selected", and the first selector button is "active" and no
      other (prediction keys are distinct). */
  lemma DefaultDisplay(results: Api.Response)
    requires |results.predictions| > 0 && DistinctKeys(results.predictions)
    ensures
      var s := Render(Some(results), None).value;
      && s.displayDisease == Some(results.predictions[0].0)
      && (forall i :: 0 <= i < |s.cards| ==>
            s.cards[i] == Card(results.predictions[i].0, results.predictions[i].1, false))
      && (s.selector.Some? ==>
            forall i :: 0 <= i < |s.selector.value| ==> (s.selector.value[i].active <==> i == 0))
  {
    var s := Render(Some(results), None).value;
    var names := Keys(results.predictions);
    if s.selector.Some? {
      forall i | 0 <= i < |s.selector.value|
        ensures s.selector.value[i].active <==> i == 0
      {
        assert s.selector.value[i].active <==> names[i] == names[0];
      }
    }
  }

  /** An explicit (non-empty) selection is displayed, and it is the only
      disease whose card is "selected" and whose button is "active". */
  lemma ExplicitSelection(results: Api.Response, disease: string)
    requires disease != ""
    ensures
      var s := Render(Some(results), Some(disease)).value;
      && s.displayDisease == Some(disease)
      && (forall i :: 0 <= i < |s.cards| ==> (s.cards[i].selected <==> s.cards[i].disease == disease))
      && (s.selector.Some? ==>
            forall i :: 0 <= i < |s.selector.value| ==>
              (s.selector.value[i].active <==> s.selector.value[i].disease == disease))
  {
  }

  /** The selector shows exactly when there is more than one prediction. */
  lemma SelectorShownForSeveral(results: Api.Response, selected: Option<string>)
    ensures Render(Some(results), selected).value.selector.Some? <==> |results.predictions| > 1
  {
  }

  /** For a reply the service produced, whatever disease is displayed (the
      default, or a clicked one) is a predicted one, and the view shows its
      Grad-CAM image and its confidence. */
  lemma ServiceRepliesHaveHeatmaps(results: Api.Response, selected: Option<string>)
    requires Api.WellFormedResponse(results)
    requires selected.Some? ==> selected.value in Keys(results.predictions)
    ensures
      var s := Render(Some(results), selected).value;
      && s.displayDisease.Some? && s.displayDisease.value in Keys(results.predictions)
      && s.heatmap.Some? && (s.displayDisease.value, s.heatmap.value) in results.gradcamImages
      && s.confidence.Some? && (s.displayDisease.value, s.confidence.value) in results.predictions
  {
    var s := Render(Some(results), selected).value;
    var names := Keys(results.predictions);
    assert names[0] in names;
    assert s.displayDisease.value in Keys(results.gradcamImages);
  }

  /** From the network's output to the screen: for a reply the service built
      from probabilities and per-class heatmaps, the view shows, for the
      displayed disease (the default, or a clicked one), the heatmap and the
      probability of that disease's own class. */
  lemma ShowsOwnClassHeatmap(
    threshold: real, probs: seq<real>, heatmaps: seq<string>, originalImage: string,
    thresholdUsed: Option<real>, selected: Option<string>)
    requires |probs| == NumLabels && |heatmaps| == NumLabels
    requires selected.Some? ==> selected.value in Keys(SelectPredictions(probs, threshold))
    ensures
      var r := Api.Analyse(threshold, Api.Inferred(probs, heatmaps, originalImage), thresholdUsed);
      var s := Render(Some(r.body), selected).value;
      && s.displayDisease.Some?
      && 0 <= ClassIndex(s.displayDisease.value) < NumLabels
      && s.heatmap == Some(heatmaps[ClassIndex(s.displayDisease.value)])
      && s.confidence == Some(probs[ClassIndex(s.displayDisease.value)])
  {
    var r := Api.Analyse(threshold, Api.Inferred(probs, heatmaps, originalImage), thresholdUsed);
    ServiceRepliesHaveHeatmaps(r.body, selected);
    var d := Render(Some(r.body), selected).value.displayDisease.value;
    Api.AnalysedEntries(threshold, probs, heatmaps, originalImage, thresholdUsed, d);
  }

  /** The component, mounted with a response; its state is the explicit
      selection, which starts unset and is lost when the component unmounts. */
  class ResultsPanel {
    const results: Option<Api.Response>
    var selectedDisease: Option<string>

    constructor (results: Option<Api.Response>)
      ensures this.results == results && selectedDisease.None?
    {
      this.results := results;
      selectedDisease := None;
    }

    function View(): Option<Screen>
      reads this
    {
      Render(results, selectedDisease)
    }

    /** A click on the card or the selector button of a predicted disease:
        `setSelectedDisease(disease)`. */
    method Click(disease: string)
      requires results.Some? && disease in Keys(results.value.predictions)
      modifies this
      ensures selectedDisease == Some(disease)
      ensures disease != "" ==> View().value.displayDisease == Some(disease)
    {
      selectedDisease := Some(disease);
    }
  }
}
