/** The selection rules of the inference helpers: which disease classes a
    probability vector selects for a threshold, and which Grad-CAM images are
    produced for a selection. The network, the Grad-CAM tensor arithmetic and
    the PNG/base64 encoding are inputs here: `probs` is the network's output
    (one sigmoid probability per class) and `heatmaps[i]` is the encoded
    overlay Grad-CAM yields for class `i`. */
module ModelUtils {
  import opened Common

  /** The classifier has one output per disease class. */
  const NumLabels: nat := 14

  const ClassNames: seq<string> := [
    "Atelectasis", "Cardiomegaly", "Effusion", "Infiltration", "Mass",
    "Nodule", "Pneumonia", "Pneumothorax", "Consolidation", "Edema",
    "Emphysema", "Fibrosis", "Pleural_Thickening", "Hernia"
  ]

  /** One class name per network output, no name twice. */
  lemma ClassNamesWellFormed()
    ensures |ClassNames| == NumLabels
    ensures Distinct(ClassNames)
  {
  }

  /** Python `names.index(x)`: the first position of `x`, or None where Python
      raises ValueError. */
  function IndexOf(names: seq<string>, x: string): (r: Option<nat>)
    ensures r.Some? ==> r.value < |names| && names[r.value] == x
    ensures r.Some? ==> forall j :: 0 <= j < r.value ==> names[j] != x
    ensures r.None? <==> x !in names
  {
    if names == [] then None
    else if names[0] == x then Some(0)
    else
      match IndexOf(names[1..], x)
      case None => None
      case Some(i) => Some(i + 1)
  }

  /** The ValueError `list.index` raises for a missing name. */
  datatype ValueError = NotInList(name: string)
  {
    /** `str(e)` of the exception. */
    function Message(): string
    {
      "'" + name + "' is not in list"
    }
  }

  /** The position of a class name in ClassNames, -1 for an unknown name. */
  function ClassIndex(name: string): int
  {
    match IndexOf(ClassNames, name)
    case Some(i) => i
    case None => -1
  }

  lemma ClassIndexOfName(i: nat)
    requires i < NumLabels
    ensures ClassIndex(ClassNames[i]) == i
  {
    ClassNamesWellFormed();
  }

  /** The entries of a selection appear in ClassNames order. */
  predicate InClassOrder(d: Dict<real>)
  {
    forall j, k :: 0 <= j < k < |d| ==> ClassIndex(d[j].0) < ClassIndex(d[k].0)
  }

  /** `k` is what `numpy.argmax` returns: a maximal position, the first one. */
  ghost predicate IsFirstArgMax(probs: seq<real>, k: int)
  {
    && 0 <= k < |probs|
    && (forall j :: 0 <= j < |probs| ==> probs[j] <= probs[k])
    && (forall j :: 0 <= j < k ==> probs[j] < probs[k])
  }

  /** `numpy.argmax(probs)`. */
  function FirstArgMax(probs: seq<real>): (k: nat)
    requires |probs| > 0
    ensures IsFirstArgMax(probs, k)
  {
    if |probs| == 1 then 0
    else
      var k := FirstArgMax(probs[..|probs| - 1]);
      if probs[|probs| - 1] > probs[k] then |probs| - 1 else k
  }

  /** The classes among the first `n` whose probability reaches the threshold,
      in class order, each with its probability. */
  function Above(probs: seq<real>, threshold: real, n: nat): (d: Dict<real>)
    requires n <= |probs| == NumLabels
  {
    if n == 0 then []
    else if probs[n - 1] >= threshold then Above(probs, threshold, n - 1) + [(ClassNames[n - 1], probs[n - 1])]
    else Above(probs, threshold, n - 1)
  }

  /** The selection `predict_diseases` returns: every class at or above the
      threshold, or, when there is none, the single top class. */
  function SelectPredictions(probs: seq<real>, threshold: real): (d: Dict<real>)
    requires |probs| == NumLabels
    ensures 1 <= |d| <= NumLabels
  {
    var above := Above(probs, threshold, NumLabels);
    AboveEntries(probs, threshold, NumLabels);
    if above != [] then above
    else
      var top := FirstArgMax(probs);
      [(ClassNames[top], probs[top])]
  }

  /** Every entry the first `n` steps of the selection loop stored is a class
      below `n` whose probability reaches the threshold, with that probability. */
  lemma {:induction false} AboveEntries(probs: seq<real>, threshold: real, n: nat)
    requires n <= |probs| == NumLabels
    ensures |Above(probs, threshold, n)| <= n
    ensures forall j :: 0 <= j < |Above(probs, threshold, n)| ==>
      var e := Above(probs, threshold, n)[j];
      0 <= ClassIndex(e.0) < n && e.0 == ClassNames[ClassIndex(e.0)] &&
      e.1 == probs[ClassIndex(e.0)] && e.1 >= threshold
  {
    if n > 0 {
      AboveEntries(probs, threshold, n - 1);
      var prev := Above(probs, threshold, n - 1);
      var cur := Above(probs, threshold, n);
      if probs[n - 1] >= threshold {
        ClassIndexOfName(n - 1);
        forall j | 0 <= j < |cur|
          ensures 0 <= ClassIndex(cur[j].0) < n && cur[j].0 == ClassNames[ClassIndex(cur[j].0)]
          ensures cur[j].1 == probs[ClassIndex(cur[j].0)] && cur[j].1 >= threshold
        {
          if j < |prev| {
            assert cur[j] == prev[j];
          }
        }
      }
    }
  }

  /** The stored entries are in class order. */
  lemma {:induction false} AboveOrdered(probs: seq<real>, threshold: real, n: nat)
    requires n <= |probs| == NumLabels
    ensures InClassOrder(Above(probs, threshold, n))
  {
    if n > 0 {
      AboveOrdered(probs, threshold, n - 1);
      AboveEntries(probs, threshold, n - 1);
      var prev := Above(probs, threshold, n - 1);
      var cur := Above(probs, threshold, n);
      if probs[n - 1] >= threshold {
        ClassIndexOfName(n - 1);
        forall j, k | 0 <= j < k < |cur|
          ensures ClassIndex(cur[j].0) < ClassIndex(cur[k].0)
        {
          assert cur[j] == prev[j];
          if k < |prev| {
            assert cur[k] == prev[k];
          }
        }
      }
    }
  }

  /** The stored class names exclude every class not yet visited. */
  lemma AboveOmits(probs: seq<real>, threshold: real, n: nat, i: nat)
    requires n <= i < |probs| == NumLabels
    ensures ClassNames[i] !in Keys(Above(probs, threshold, n))
  {
    AboveEntries(probs, threshold, n);
    ClassIndexOfName(i);
  }

  /** After `n` steps, a visited class is stored exactly when its probability
      reaches the threshold, and then with that probability. */
  lemma {:induction false} AboveLookup(probs: seq<real>, threshold: real, n: nat, i: nat)
    requires n <= |probs| == NumLabels && i < n
    ensures Lookup(Above(probs, threshold, n), ClassNames[i]) == if probs[i] >= threshold then Some(probs[i]) else None
  {
    var prev := Above(probs, threshold, n - 1);
    if i < n - 1 {
      AboveLookup(probs, threshold, n - 1, i);
    } else {
      AboveOmits(probs, threshold, n - 1, i);
      assert Lookup(prev, ClassNames[i]) == None;
    }
    if probs[n - 1] >= threshold {
      AboveOmits(probs, threshold, n - 1, n - 1);
      StoreNewKey(prev, ClassNames[n - 1], probs[n - 1]);
      StoreLookup(prev, ClassNames[n - 1], probs[n - 1], ClassNames[i]);
      ClassNamesWellFormed();
    }
  }

  /** Nothing is stored exactly when no probability reaches the threshold. */
  lemma {:induction false} AboveEmpty(probs: seq<real>, threshold: real, n: nat)
    requires n <= |probs| == NumLabels
    ensures Above(probs, threshold, n) == [] <==> forall i :: 0 <= i < n ==> probs[i] < threshold
  {
    if n > 0 {
      AboveEmpty(probs, threshold, n - 1);
    }
  }

  /** The selection loop of `predict_diseases`: every class whose probability
      reaches the threshold is stored in class order; if none did, the class
      `numpy.argmax` picks is stored. */
  method PredictDiseases(probs: seq<real>, threshold: real) returns (predictions: Dict<real>)
    requires |probs| == NumLabels
    ensures predictions == SelectPredictions(probs, threshold)
  {
    predictions := [];
    var idx := 0;
    while idx < |probs|
      invariant idx <= |probs|
      invariant predictions == Above(probs, threshold, idx)
    {
      AboveOmits(probs, threshold, idx, idx);
      StoreNewKey(predictions, ClassNames[idx], probs[idx]);
      if probs[idx] >= threshold {
        predictions := Store(predictions, ClassNames[idx], probs[idx]);
      }
      idx := idx + 1;
    }
    if predictions == [] {
      var topIdx := FirstArgMax(probs);
      StoreNewKey(predictions, ClassNames[topIdx], probs[topIdx]);
      predictions := Store(predictions, ClassNames[topIdx], probs[topIdx]);
    }
  }

  /** Every selected key is a class name, the keys follow ClassNames order, and
      so none repeats. */
  lemma SelectionKnownAndOrdered(probs: seq<real>, threshold: real)
    requires |probs| == NumLabels
    ensures forall j :: 0 <= j < |SelectPredictions(probs, threshold)| ==>
      SelectPredictions(probs, threshold)[j].0 in ClassNames
    ensures InClassOrder(SelectPredictions(probs, threshold))
    ensures DistinctKeys(SelectPredictions(probs, threshold))
  {
    var d := SelectPredictions(probs, threshold);
    AboveEntries(probs, threshold, NumLabels);
    AboveOrdered(probs, threshold, NumLabels);
    assert forall j :: 0 <= j < |d| ==> d[j].0 == ClassNames[ClassIndex(d[j].0)];
  }

  /** When some probability reaches the threshold, the selection holds exactly
      the classes at or above it, each with its own probability. */
  lemma SelectionAboveThreshold(probs: seq<real>, threshold: real)
    requires |probs| == NumLabels
    requires exists i :: 0 <= i < NumLabels && probs[i] >= threshold
    ensures forall i :: 0 <= i < NumLabels ==>
      Lookup(SelectPredictions(probs, threshold), ClassNames[i]) ==
        if probs[i] >= threshold then Some(probs[i]) else None
  {
    AboveEmpty(probs, threshold, NumLabels);
    forall i | 0 <= i < NumLabels
      ensures Lookup(Above(probs, threshold, NumLabels), ClassNames[i]) ==
        if probs[i] >= threshold then Some(probs[i]) else None
    {
      AboveLookup(probs, threshold, NumLabels, i);
    }
  }

  /** When no probability reaches the threshold, the selection is the single
      class `numpy.argmax` picks, with its probability. */
  lemma SelectionFallback(probs: seq<real>, threshold: real)
    requires |probs| == NumLabels
    requires forall i :: 0 <= i < NumLabels ==> probs[i] < threshold
    ensures exists k ::
      IsFirstArgMax(probs, k) && SelectPredictions(probs, threshold) == [(ClassNames[k], probs[k])]
  {
    AboveEmpty(probs, threshold, NumLabels);
    var k := FirstArgMax(probs);
    assert IsFirstArgMax(probs, k);
  }

  /** The first `n` steps store every visited class when the threshold is at
      most every probability. */
  lemma {:induction false} AboveAll(probs: seq<real>, threshold: real, n: nat)
    requires n <= |probs| == NumLabels
    requires forall i :: 0 <= i < NumLabels ==> threshold <= probs[i]
    ensures |Above(probs, threshold, n)| == n
    ensures forall i :: 0 <= i < n ==> Above(probs, threshold, n)[i] == (ClassNames[i], probs[i])
  {
    if n > 0 {
      AboveAll(probs, threshold, n - 1);
    }
  }

  /** A threshold no probability falls below (0.0 for sigmoid outputs) selects
      all fourteen classes, in class order, each with its probability. */
  lemma SelectionOfLowThreshold(probs: seq<real>, threshold: real)
    requires |probs| == NumLabels
    requires forall i :: 0 <= i < NumLabels ==> threshold <= probs[i]
    ensures Keys(SelectPredictions(probs, threshold)) == ClassNames
    ensures forall i :: 0 <= i < NumLabels ==> SelectPredictions(probs, threshold)[i].1 == probs[i]
  {
    AboveAll(probs, threshold, NumLabels);
  }

  /** Every selected entry is a class with its own probability, whether the
      threshold or the fallback selected it. */
  lemma SelectionValues(probs: seq<real>, threshold: real)
    requires |probs| == NumLabels
    ensures forall j :: 0 <= j < |SelectPredictions(probs, threshold)| ==>
      var e := SelectPredictions(probs, threshold)[j];
      0 <= ClassIndex(e.0) < NumLabels && e.1 == probs[ClassIndex(e.0)]
  {
    AboveEntries(probs, threshold, NumLabels);
    if Above(probs, threshold, NumLabels) == [] {
      ClassIndexOfName(FirstArgMax(probs));
    }
  }

  /** `generate_gradcam_visualizations` after its first `n` iterations: for
      each visited disease, `classNames.index` finds its class and its image is
      stored under its name; the first unknown name raises ValueError. The
      class list is CLASS_NAMES (see GradcamImages); the lemmas below hold for
      any list. */
  function GradcamUpTo(classNames: seq<string>, predictions: Dict<real>, heatmaps: seq<string>, n: nat)
    : Result<Dict<string>, ValueError>
    requires n <= |predictions| && |heatmaps| == |classNames|
  {
    if n == 0 then Ok([])
    else
      match GradcamUpTo(classNames, predictions, heatmaps, n - 1)
      case Err(m) => Err(m)
      case Ok(images) =>
        var name := predictions[n - 1].0;
        match IndexOf(classNames, name)
        case None => Err(NotInList(name))
        case Some(i) => Ok(Store(images, name, heatmaps[i]))
  }

  /** The images `generate_gradcam_visualizations` returns for a selection. */
  function GradcamImages(predictions: Dict<real>, heatmaps: seq<string>): Result<Dict<string>, ValueError>
    requires |heatmaps| == NumLabels
  {
    GradcamUpTo(ClassNames, predictions, heatmaps, |predictions|)
  }

  /** Once a lookup has raised, the loop has ended with that error. */
  lemma {:induction false} GradcamErrorSticks(
    classNames: seq<string>, predictions: Dict<real>, heatmaps: seq<string>, n: nat, m: nat)
    requires n <= m <= |predictions| && |heatmaps| == |classNames|
    requires GradcamUpTo(classNames, predictions, heatmaps, n).Err?
    ensures GradcamUpTo(classNames, predictions, heatmaps, m) == GradcamUpTo(classNames, predictions, heatmaps, n)
  {
    if n < m {
      GradcamErrorSticks(classNames, predictions, heatmaps, n, m - 1);
    }
  }

  /** The first `n` iterations complete exactly when every visited name is a
      class name. */
  lemma {:induction false} GradcamOkIff(
    classNames: seq<string>, predictions: Dict<real>, heatmaps: seq<string>, n: nat)
    requires n <= |predictions| && |heatmaps| == |classNames|
    ensures GradcamUpTo(classNames, predictions, heatmaps, n).Ok? <==>
      forall j :: 0 <= j < n ==> predictions[j].0 in classNames
  {
    if n > 0 {
      GradcamOkIff(classNames, predictions, heatmaps, n - 1);
      var prev := GradcamUpTo(classNames, predictions, heatmaps, n - 1);
      var name := predictions[n - 1].0;
      if prev.Err? {
        assert GradcamUpTo(classNames, predictions, heatmaps, n) == prev;
      } else if name in classNames {
        assert IndexOf(classNames, name).Some?;
        assert GradcamUpTo(classNames, predictions, heatmaps, n).Ok?;
      } else {
        assert GradcamUpTo(classNames, predictions, heatmaps, n).Err?;
      }
    }
  }

  /** When the first `n` iterations complete, they have stored one image per
      visited disease, in order, each the heatmap of its class. */
  lemma {:induction false} GradcamOkImages(
    classNames: seq<string>, predictions: Dict<real>, heatmaps: seq<string>, n: nat)
    requires n <= |predictions| && |heatmaps| == |classNames|
    requires DistinctKeys(predictions)
    requires GradcamUpTo(classNames, predictions, heatmaps, n).Ok?
    ensures |GradcamUpTo(classNames, predictions, heatmaps, n).value| == n
    ensures forall j :: 0 <= j < n ==>
      var e := GradcamUpTo(classNames, predictions, heatmaps, n).value[j];
      var idx := IndexOf(classNames, predictions[j].0);
      idx.Some? && e == (predictions[j].0, heatmaps[idx.value])
  {
    if n > 0 {
      var prev := GradcamUpTo(classNames, predictions, heatmaps, n - 1);
      var name := predictions[n - 1].0;
      var idx := IndexOf(classNames, name);
      assert prev.Ok? && idx.Some?;
      GradcamOkImages(classNames, predictions, heatmaps, n - 1);
      var images := prev.value;
      assert name !in Keys(images) by {
        forall j | 0 <= j < |images| ensures Keys(images)[j] != name {
          assert Keys(predictions)[j] == predictions[j].0;
          assert Keys(predictions)[n - 1] == name;
        }
      }
      StoreNewKey(images, name, heatmaps[idx.value]);
      var cur := images + [(name, heatmaps[idx.value])];
      assert GradcamUpTo(classNames, predictions, heatmaps, n) == Ok(cur);
      forall j | 0 <= j < n
        ensures
          var e := GradcamUpTo(classNames, predictions, heatmaps, n).value[j];
          var idx := IndexOf(classNames, predictions[j].0);
          idx.Some? && e == (predictions[j].0, heatmaps[idx.value])
      {
        if j < n - 1 {
          assert cur[j] == images[j];
        }
      }
    }
  }

  /** When the first `n` iterations raise, the exception names the first
      visited name that is not a class name. */
  lemma {:induction false} GradcamErrMessage(
    classNames: seq<string>, predictions: Dict<real>, heatmaps: seq<string>, n: nat)
    requires n <= |predictions| && |heatmaps| == |classNames|
    requires GradcamUpTo(classNames, predictions, heatmaps, n).Err?
    ensures exists j ::
      && 0 <= j < n && predictions[j].0 !in classNames
      && (forall i :: 0 <= i < j ==> predictions[i].0 in classNames)
      && GradcamUpTo(classNames, predictions, heatmaps, n).error == NotInList(predictions[j].0)
  {
    var prev := GradcamUpTo(classNames, predictions, heatmaps, n - 1);
    if prev.Err? {
      GradcamErrMessage(classNames, predictions, heatmaps, n - 1);
    } else {
      GradcamOkIff(classNames, predictions, heatmaps, n - 1);
    }
  }

  /** The Grad-CAM images cover exactly the keys of the selection they were
      made for, in order, each the heatmap of its own class; the call raises
      exactly when some key is not a class name (GradcamErrMessage says
      which). */
  lemma GradcamCoverage(classNames: seq<string>, predictions: Dict<real>, heatmaps: seq<string>)
    requires |heatmaps| == |classNames| && DistinctKeys(predictions)
    ensures GradcamUpTo(classNames, predictions, heatmaps, |predictions|).Ok? <==>
      forall j :: 0 <= j < |predictions| ==> predictions[j].0 in classNames
    ensures GradcamUpTo(classNames, predictions, heatmaps, |predictions|).Ok? ==>
      var images := GradcamUpTo(classNames, predictions, heatmaps, |predictions|).value;
      |images| == |predictions| && Keys(images) == Keys(predictions) &&
      forall j :: 0 <= j < |predictions| ==>
        var idx := IndexOf(classNames, predictions[j].0);
        idx.Some? && images[j].1 == heatmaps[idx.value]
  {
    var n := |predictions|;
    GradcamOkIff(classNames, predictions, heatmaps, n);
    if GradcamUpTo(classNames, predictions, heatmaps, n).Ok? {
      GradcamOkImages(classNames, predictions, heatmaps, n);
      SameKeys(GradcamUpTo(classNames, predictions, heatmaps, n).value, predictions);
    }
  }

  /** Looking up a selected disease in the completed images finds the heatmap
      of that disease's own class. */
  lemma GradcamLookup(classNames: seq<string>, predictions: Dict<real>, heatmaps: seq<string>, j: nat)
    requires |heatmaps| == |classNames| && DistinctKeys(predictions) && j < |predictions|
    requires GradcamUpTo(classNames, predictions, heatmaps, |predictions|).Ok?
    ensures IndexOf(classNames, predictions[j].0).Some?
    ensures Lookup(GradcamUpTo(classNames, predictions, heatmaps, |predictions|).value, predictions[j].0) ==
      Some(heatmaps[IndexOf(classNames, predictions[j].0).value])
  {
    GradcamCoverage(classNames, predictions, heatmaps);
    var images := GradcamUpTo(classNames, predictions, heatmaps, |predictions|).value;
    assert images[j].0 == predictions[j].0 by {
      assert Keys(images)[j] == Keys(predictions)[j];
    }
    LookupEntry(images, j);
  }

  /** For a selection `predict_diseases` made, every `CLASS_NAMES.index` lookup
      succeeds and there is an image for each selected disease and no other. */
  lemma SelectionHasHeatmaps(probs: seq<real>, threshold: real, heatmaps: seq<string>)
    requires |probs| == NumLabels && |heatmaps| == NumLabels
    ensures GradcamImages(SelectPredictions(probs, threshold), heatmaps).Ok?
    ensures Keys(GradcamImages(SelectPredictions(probs, threshold), heatmaps).value) ==
      Keys(SelectPredictions(probs, threshold))
  {
    SelectionKnownAndOrdered(probs, threshold);
    GradcamCoverage(ClassNames, SelectPredictions(probs, threshold), heatmaps);
  }

  /** The loop of `generate_gradcam_visualizations`: for each disease of the
      selection, in order, find its class with `classNames.index` (raising
      ValueError for an unknown name) and store its heatmap under its name.
      `classNames` is the module-level CLASS_NAMES the function reads. */
  method GenerateGradcamVisualizations(classNames: seq<string>, predictions: Dict<real>, heatmaps: seq<string>)
    returns (gradcamImages: Result<Dict<string>, ValueError>)
    requires |heatmaps| == |classNames|
    ensures gradcamImages == GradcamUpTo(classNames, predictions, heatmaps, |predictions|)
  {
    var images: Dict<string> := [];
    var i := 0;
    while i < |predictions|
      invariant i <= |predictions|
      invariant GradcamUpTo(classNames, predictions, heatmaps, i) == Ok(images)
    {
      var diseaseName := predictions[i].0;
      var classIdx := IndexOf(classNames, diseaseName);
      if classIdx.None? {
        GradcamErrorSticks(classNames, predictions, heatmaps, i + 1, |predictions|);
        return Err(NotInList(diseaseName));
      }
      images := Store(images, diseaseName, heatmaps[classIdx.value]);
      i := i + 1;
    }
    return Ok(images);
  }
}
