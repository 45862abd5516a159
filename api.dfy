/** The HTTP endpoints of the prediction service: the ordered checks of
    `/predict` and `/predict-with-threshold`, the rewrapping of unexpected
    exceptions as status 500, the response each returns, and the status
    endpoints. The loaded model (the global MODEL) and the outcome of running it
    on the uploaded image are inputs; reading the upload, decoding the image,
    the network, Grad-CAM and PNG/base64 encoding happen in that outcome. */
module Api {
  import opened Common
  import opened ModelUtils

  datatype Device = Cuda | Cpu

  /** The model `load_model` put on a device. */
  datatype LoadedModel = LoadedModel(device: Device)

  /** What running the loaded model on the upload yields: the network's
      probabilities, the Grad-CAM overlay for each class and the re-encoded
      original image; or the exception reading, decoding, inference or
      Grad-CAM raised, by its text. */
  datatype Inference =
    | Inferred(probs: seq<real>, heatmaps: seq<string>, originalImage: string)
    | Raised(message: string)
  {
    /** The network has one output per class, and so does Grad-CAM. */
    predicate WellShaped()
    {
      Inferred? ==> |probs| == NumLabels && |heatmaps| == NumLabels
    }
  }

  /** The JSON body of a successful prediction. `thresholdUsed` is present
      only in `/predict-with-threshold` replies. */
  datatype Response = Response(
    success: bool,
    predictions: Dict<real>,
    gradcamImages: Dict<string>,
    originalImage: string,
    thresholdUsed: Option<real>,
    numPredictions: nat)

  datatype Reply = Success(body: Response) | HttpError(status: nat, detail: string)

  const DefaultThreshold: real := 0.5
  const ImagePrefix: string := "image/"
  const ThresholdDetail: string := "Threshold must be between 0.0 and 1.0"
  const NotImageDetail: string := "File must be an image (JPG/PNG)"
  const ModelNotLoadedDetail: string := "Model not loaded. Please check server logs."
  const InternalPrefix: string := "Internal server error: "
  /** `str(e)` of the AttributeError `None.startswith(...)` raises. */
  const NoContentTypeMessage: string := "'NoneType' object has no attribute 'startswith'"

  /** Any exception other than an HTTPException becomes a 500 reply. */
  function InternalError(message: string): (r: Reply)
  {
    HttpError(500, InternalPrefix + message)
  }

  /** What every success reply of the service satisfies: the selection is a
      non-empty dictionary of known classes in class order, there is a Grad-CAM
      image for each selected class and for no other, and the count is the
      number of selected classes. */
  ghost predicate WellFormedResponse(b: Response)
  {
    && b.success
    && |b.predictions| >= 1
    && DistinctKeys(b.predictions)
    && InClassOrder(b.predictions)
    && (forall j :: 0 <= j < |b.predictions| ==> b.predictions[j].0 in ClassNames)
    && Keys(b.gradcamImages) == Keys(b.predictions)
    && b.numPredictions == |b.predictions|
  }

  /** The steps after the checks, shared by both prediction endpoints: select
      the classes, generate their Grad-CAM images and assemble the body. */
  function Analyse(threshold: real, inference: Inference, thresholdUsed: Option<real>): (r: Reply)
    requires inference.WellShaped()
    ensures r.Success? ==> WellFormedResponse(r.body) && r.body.thresholdUsed == thresholdUsed
    ensures inference.Inferred? ==>
      && r.Success?
      && r.body.predictions == SelectPredictions(inference.probs, threshold)
      && r.body.originalImage == inference.originalImage
      && GradcamImages(r.body.predictions, inference.heatmaps) == Ok(r.body.gradcamImages)
    ensures inference.Raised? ==> r == InternalError(inference.message)
  {
    match inference
    case Raised(message) => InternalError(message)
    case Inferred(probs, heatmaps, originalImage) =>
      var predictions := SelectPredictions(probs, threshold);
      var images := GradcamImages(predictions, heatmaps);
      SelectionKnownAndOrdered(probs, threshold);
      SelectionHasHeatmaps(probs, threshold, heatmaps);
      match images
      case Err(e) => InternalError(e.Message())
      case Ok(gradcamImages) =>
        Success(Response(true, predictions, gradcamImages, originalImage, thresholdUsed, |predictions|))
  }

  /** In a body built from the network's output, every selected disease holds
      its own class's probability and its own class's Grad-CAM image. */
  lemma AnalysedEntries(
    threshold: real, probs: seq<real>, heatmaps: seq<string>, originalImage: string,
    thresholdUsed: Option<real>, name: string)
    requires |probs| == NumLabels && |heatmaps| == NumLabels
    requires name in Keys(SelectPredictions(probs, threshold))
    ensures
      var b := Analyse(threshold, Inferred(probs, heatmaps, originalImage), thresholdUsed).body;
      && 0 <= ClassIndex(name) < NumLabels
      && Lookup(b.predictions, name) == Some(probs[ClassIndex(name)])
      && Lookup(b.gradcamImages, name) == Some(heatmaps[ClassIndex(name)])
  {
    var d := SelectPredictions(probs, threshold);
    var j :| 0 <= j < |d| && Keys(d)[j] == name;
    SelectionKnownAndOrdered(probs, threshold);
    SelectionValues(probs, threshold);
    LookupEntry(d, j);
    SelectionHasHeatmaps(probs, threshold, heatmaps);
    GradcamLookup(ClassNames, d, heatmaps, j);
  }

  /** `POST /predict`: the content type must start with "image/" (an absent
      one makes `startswith` raise), then the model must be loaded; the
      selection uses threshold 0.5 and the body has no `threshold_used`. */
  function Predict(contentType: Option<string>, model: Option<LoadedModel>, inference: Inference): (r: Reply)
    requires inference.WellShaped()
    ensures r.Success? ==> WellFormedResponse(r.body) && r.body.thresholdUsed.None?
    ensures contentType.Some? && !StartsWith(contentType.value, ImagePrefix) ==>
      r == HttpError(400, NotImageDetail)
    ensures contentType.Some? && StartsWith(contentType.value, ImagePrefix) && model.None? ==>
      r == HttpError(500, ModelNotLoadedDetail)
    ensures r.HttpError? ==>
      || r == HttpError(400, NotImageDetail)
      || r == HttpError(500, ModelNotLoadedDetail)
      || (r.status == 500 && StartsWith(r.detail, InternalPrefix))
  {
    if contentType.None? then InternalError(NoContentTypeMessage)
    else if !StartsWith(contentType.value, ImagePrefix) then HttpError(400, NotImageDetail)
    else if model.None? then HttpError(500, ModelNotLoadedDetail)
    else Analyse(DefaultThreshold, inference, None)
  }

  /** `POST /predict-with-threshold`: the threshold must lie in [0.0, 1.0]
      before anything else is looked at, then the checks of `/predict`; the
      body echoes the threshold. */
  function PredictWithThreshold(
    contentType: Option<string>, threshold: real, model: Option<LoadedModel>, inference: Inference): (r: Reply)
    requires inference.WellShaped()
    ensures !(0.0 <= threshold <= 1.0) ==> r == HttpError(400, ThresholdDetail)
    ensures r.Success? ==> WellFormedResponse(r.body) && r.body.thresholdUsed == Some(threshold)
    ensures 0.0 <= threshold <= 1.0 && contentType.Some? && !StartsWith(contentType.value, ImagePrefix) ==>
      r == HttpError(400, NotImageDetail)
    ensures (0.0 <= threshold <= 1.0 && contentType.Some? && StartsWith(contentType.value, ImagePrefix) &&
      model.None?) ==> r == HttpError(500, ModelNotLoadedDetail)
    ensures r.HttpError? ==>
      || r == HttpError(400, ThresholdDetail)
      || r == HttpError(400, NotImageDetail)
      || r == HttpError(500, ModelNotLoadedDetail)
      || (r.status == 500 && StartsWith(r.detail, InternalPrefix))
  {
    if !(0.0 <= threshold <= 1.0) then HttpError(400, ThresholdDetail)
    else if contentType.None? then InternalError(NoContentTypeMessage)
    else if !StartsWith(contentType.value, ImagePrefix) then HttpError(400, NotImageDetail)
    else if model.None? then HttpError(500, ModelNotLoadedDetail)
    else Analyse(threshold, inference, Some(threshold))
  }

  /** A request that passes every check succeeds: with the checks passed, the
      only 500s left are exceptions of the inference itself, because every
      class `predict_diseases` selects has a Grad-CAM image. */
  lemma AcceptedRequestSucceeds(
    contentType: string, threshold: real, model: LoadedModel,
    probs: seq<real>, heatmaps: seq<string>, originalImage: string)
    requires 0.0 <= threshold <= 1.0 && StartsWith(contentType, ImagePrefix)
    requires |probs| == NumLabels && |heatmaps| == NumLabels
    ensures
      var r := PredictWithThreshold(Some(contentType), threshold, Some(model),
        Inferred(probs, heatmaps, originalImage));
      && r.Success?
      && r.body.predictions == SelectPredictions(probs, threshold)
      && Keys(r.body.gradcamImages) == Keys(r.body.predictions)
      && r.body.numPredictions == |SelectPredictions(probs, threshold)|
      && r.body.thresholdUsed == Some(threshold)
  {
  }

  /** Removes `threshold_used` from a reply. */
  function WithoutThreshold(r: Reply): Reply
  {
    if r.Success? then Success(r.body.(thresholdUsed := None)) else r
  }

  /** `/predict` answers exactly as `/predict-with-threshold` with threshold 0.5
      does, except that it does not echo the threshold. */
  lemma PredictIsDefaultThreshold(contentType: Option<string>, model: Option<LoadedModel>, inference: Inference)
    requires inference.WellShaped()
    ensures Predict(contentType, model, inference) ==
      WithoutThreshold(PredictWithThreshold(contentType, DefaultThreshold, model, inference))
  {
  }

  /** The body of `GET /classes`. */
  datatype ClassesInfo = ClassesInfo(classes: seq<string>, numClasses: nat)

  /** `GET /classes`: the fourteen class names and their count. */
  function GetClasses(): (info: ClassesInfo)
    ensures info.numClasses == |info.classes| == NumLabels
    ensures Distinct(info.classes)
  {
    ClassNamesWellFormed();
    ClassesInfo(ClassNames, |ClassNames|)
  }

  /** The class list `/classes` publishes is the one the prediction endpoints
      index: class i is named at position i, and every disease a prediction
      reply can carry is listed. */
  lemma ClassesMatchPredictions(probs: seq<real>, threshold: real)
    requires |probs| == NumLabels
    ensures forall i :: 0 <= i < NumLabels ==> ClassIndex(GetClasses().classes[i]) == i
    ensures forall j :: 0 <= j < |SelectPredictions(probs, threshold)| ==>
      SelectPredictions(probs, threshold)[j].0 in GetClasses().classes
  {
    SelectionKnownAndOrdered(probs, threshold);
    forall i | 0 <= i < NumLabels
      ensures ClassIndex(GetClasses().classes[i]) == i
    {
      ClassIndexOfName(i);
    }
  }

  /** The bodies of `GET /` and `GET /health`. */
  datatype RootInfo = RootInfo(message: string, status: string, device: string, modelLoaded: bool)
  datatype HealthInfo = HealthInfo(status: string, modelLoaded: bool, device: string)

  /** `str(DEVICE)`. */
  function DeviceName(device: Option<Device>): string
  {
    match device
    case None => "None"
    case Some(Cuda) => "cuda"
    case Some(Cpu) => "cpu"
  }

  /** The server's globals MODEL and DEVICE, set once at startup. */
  class Server {
    var model: Option<LoadedModel>
    var device: Option<Device>

    constructor ()
      ensures model.None? && device.None?
    {
      model := None;
      device := None;
    }

    /** `startup_event`: choose the device, then load the model onto it;
        `loadFailure` is the text of the exception a missing weights file or
        `load_model` raises, which leaves MODEL unset and is re-raised. */
    method Startup(cudaAvailable: bool, loadFailure: Option<string>) returns (r: Result<(), string>)
      modifies this
      ensures device == Some(if cudaAvailable then Cuda else Cpu)
      ensures loadFailure.None? ==> r.Ok? && model == Some(LoadedModel(device.value))
      ensures loadFailure.Some? ==> r == Err(loadFailure.value) && model == old(model)
    {
      device := Some(if cudaAvailable then Cuda else Cpu);
      if loadFailure.Some? {
        return Err(loadFailure.value);
      }
      model := Some(LoadedModel(device.value));
      return Ok(());
    }

    /** `GET /`. */
    function Root(): (info: RootInfo)
      reads this
      ensures info.modelLoaded <==> model.Some?
      ensures info.status == "running" && info.device == DeviceName(device)
    {
      RootInfo("Chest X-Ray Disease Prediction API", "running", DeviceName(device), model.Some?)
    }

    /** `GET /health`. */
    function HealthCheck(): (info: HealthInfo)
      reads this
      ensures info.modelLoaded <==> model.Some?
      ensures info.status == "healthy" && info.device == DeviceName(device)
    {
      HealthInfo("healthy", model.Some?, DeviceName(device))
    }
  }

  /** Once startup has loaded the model, the status endpoints report it and
      no prediction is refused for want of a model. */
  lemma LoadedServerServes(s: Server, contentType: Option<string>, threshold: real, inference: Inference)
    requires s.model.Some? && inference.WellShaped()
    ensures s.Root().modelLoaded && s.HealthCheck().modelLoaded
    ensures Predict(contentType, s.model, inference) != HttpError(500, ModelNotLoadedDetail)
    ensures PredictWithThreshold(contentType, threshold, s.model, inference) != HttpError(500, ModelNotLoadedDetail)
  {
    if inference.Raised? {
      assert (InternalPrefix + inference.message)[0] != ModelNotLoadedDetail[0];
    }
  }
}
