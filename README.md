# Chest X-ray disease prediction: a verified model of its decision logic

The system takes a chest X-ray and returns the thoracic diseases a DenseNet-121
classifier finds in it. Each finding comes with a Grad-CAM heatmap. The
system has two parts:

- a FastAPI service (`backend/`);
- a React client (`frontend/`), which uploads the image and shows the
  findings.

This project models the rules that decide what the system answers and shows.
The neural network and the image processing are not modelled.

- **Class selection** (`ModelUtils`, from `backend/model_utils.py`).
  - The network returns one probability per disease class, 14 classes in all.
  - `predict_diseases` builds an insertion-ordered dictionary. It holds every
    class whose probability is at least the threshold.
  - When no class reaches the threshold, it falls back to the single class
    with the highest probability.
  - `generate_gradcam_visualizations` makes one heatmap for each selected
    class. It looks each class up by its position in `CLASS_NAMES`.
  - `PredictDiseases` and `GenerateGradcamVisualizations` are the loops
    themselves. Each is proved against a specification function
    (`SelectPredictions`, `GradcamUpTo`), and the lemmas state what those
    functions guarantee.
- **Endpoints** (`Api`, from `backend/main.py`).
  - `/predict` and `/predict-with-threshold` are pure functions. Their inputs
    are the request's content type, the threshold, the loaded model (the
    global `MODEL`) and the outcome of running the model on the upload.
  - Each returns a success body or an HTTP error with its status and detail.
    The checks run in order: threshold range, then the `image/` content type
    (the top-level "image" media type of section 4.2 of RFC 2046), then the
    model being loaded.
  - Any other exception is rewrapped as status 500.
  - `startup_event` is a method of the `Server` class, which holds the
    globals `MODEL` and `DEVICE`. `/`, `/health` and `/classes` are functions.
- **Client state** (`App`, from `frontend/src/App.jsx`).
  - The component's four state fields are the fields of `AppController`.
  - Each handler is a method, proved equal to a step function on a `View`
    value. The lemmas are proved over those step functions.
  - The result of `fetch` and `response.json()` is an input (`FetchOutcome`).
- **Results view** (`ResultsDisplay`, from
  `frontend/src/components/ResultsDisplay.jsx`).
  - It covers the displayed disease, which card is "selected", which selector
    button is "active", when the selector shows, and which heatmap is shown.
  - `ResultsPanel` holds the `selectedDisease` state that clicks set.
- **Upload** (`ImageUpload`, from `frontend/src/components/ImageUpload.jsx`).
  - It covers which files are accepted, what happens to an accepted or a
    rejected file, and the `dragActive` flag.
  - Calls to `onImageUpload` and `alert` are recorded as sequences.
- **Shared** (`Common`).
  - An ordered dictionary is modelled as `Dict<V> = seq<(string, V)>`.
  - `Store` is Python's `d[k] = v`: an existing key keeps its place, and a new
    key goes at the end. `Lookup` reads a key.

Points where the model makes a choice about the code:

- The code renders the error section together with the upload section. It
  also renders the loading spinner together with the (disabled) upload
  section. Only the results section renders alone. `App.ErrorRendersWithUpload`
  and `App.ResultsRenderAlone` state this.
- After a failed request, the error message works as follows:
  - a non-OK reply whose JSON body has a non-empty `detail` shows that
    detail;
  - an absent or empty `detail` shows "Failed to process image";
  - an error body that is not JSON makes `response.json()` throw, so the
    message is the parse error's text, not the generic one.
- An upload without a content type makes `startswith` raise `AttributeError`
  on `None`. That happens outside the `HTTPException` branch, so the reply is
  a 500 "Internal server error: 'NoneType' object has no attribute
  'startswith'". It is not the 400 for non-images.
- `selectedDisease || diseaseNames[0]` treats an empty-string selection as
  no selection. The card marking compares with `===`, so a card can be
  marked while the view shows the first disease. `ResultsDisplay.Render`
  keeps both rules as written.

## Model

| member | source | states |
|---|---|---|
| ModelUtils.ClassNamesWellFormed | backend/model_utils.py:16-20 | there are as many class names as network outputs (14, `num_labels`), and no name appears twice |
| ModelUtils.IndexOf | backend/model_utils.py:178 | `list.index`: the result is the first position holding the name, and it is absent exactly when the name is not in the list (where Python raises `ValueError`) |
| ModelUtils.ClassIndexOfName | backend/model_utils.py:16-20 | each class name's index in `CLASS_NAMES` is its own position |
| ModelUtils.FirstArgMax | backend/model_utils.py:133 | `np.argmax`: the result is a position whose value is at least every other and strictly greater than every earlier one |
| ModelUtils.SelectPredictions | backend/model_utils.py:125-134 | for a 14-entry vector, the selection is never empty and has at most 14 entries |
| ModelUtils.AboveEntries | backend/model_utils.py:126-129 | every entry added by the first n loop iterations names one of those classes, with that class's probability, and that probability is at least the threshold |
| ModelUtils.AboveOrdered | backend/model_utils.py:127-129 | the loop inserts in class-index order with no repeated key |
| ModelUtils.AboveOmits | backend/model_utils.py:127-129 | before iteration i, class i is not yet a key, so `predictions[CLASS_NAMES[i]] = p` appends |
| ModelUtils.AboveLookup | backend/model_utils.py:126-129 | after n iterations, class i < n is present exactly when its probability is at least the threshold, and its value is that probability |
| ModelUtils.AboveEmpty | backend/model_utils.py:126-132 | the loop's map is empty exactly when no probability reaches the threshold |
| ModelUtils.PredictDiseases | backend/model_utils.py:125-134 | the loop and the fallback return exactly the selection the specification function defines |
| ModelUtils.SelectionKnownAndOrdered | backend/model_utils.py:127-134 | every selected key is a member of `CLASS_NAMES`, keys are distinct, and entries follow `CLASS_NAMES` order |
| ModelUtils.SelectionAboveThreshold | backend/model_utils.py:126-129 | when some probability reaches the threshold, each class is selected with its own probability exactly when its probability reaches the threshold |
| ModelUtils.SelectionFallback | backend/model_utils.py:132-134 | when no probability reaches the threshold, the selection is the single class at the first maximal index, with its probability |
| ModelUtils.AboveAll | backend/model_utils.py:127-129 | when every probability reaches the threshold, the loop inserts each of the first n classes in order, with its probability |
| ModelUtils.SelectionOfLowThreshold | backend/model_utils.py:128-129 | a threshold at or below every probability (for instance 0 for sigmoid outputs) selects all 14 classes, in order, each with its probability |
| ModelUtils.SelectionValues | backend/model_utils.py:127-134 | every selected entry, by threshold or by fallback, is a class with that class's own probability |
| ModelUtils.GradcamErrorSticks | backend/model_utils.py:177-178 | once `CLASS_NAMES.index` has raised, later iterations do not undo the error |
| ModelUtils.GradcamOkIff | backend/model_utils.py:177-178 | the loop over the first n keys completes exactly when each of those keys is a class name |
| ModelUtils.GradcamOkImages | backend/model_utils.py:177-192 | on completion, entry j is keyed by the j-th prediction and holds the heatmap of that name's class index |
| ModelUtils.GradcamErrMessage | backend/model_utils.py:177-178 | on failure, the error is the `ValueError` for the first prediction key that is not a class name, and all earlier keys were class names |
| ModelUtils.GradcamCoverage | backend/model_utils.py:174-195 | the images map exists exactly when every prediction key is a class name; it then has the predictions' keys, in order, each with its class's heatmap |
| ModelUtils.GradcamLookup | backend/model_utils.py:177-192 | looking a selected disease up in the finished images finds the heatmap of its own class |
| ModelUtils.SelectionHasHeatmaps | backend/model_utils.py:125-134 | for any selection `predict_diseases` makes, every `CLASS_NAMES.index` lookup succeeds, and the heatmap map has exactly the selection's keys |
| ModelUtils.GenerateGradcamVisualizations | backend/model_utils.py:174-195 | the loop returns the images map, or the `ValueError` of the first unknown name, as the specification function defines |
| Api.Analyse | backend/main.py:123-151 | with a well-shaped inference, success carries the threshold-based selection, the Grad-CAM images `generate_gradcam_visualizations` makes for it (each key its own class's heatmap, by GradcamCoverage), the original image and `num_predictions = len(predictions)`; an exception becomes 500 "Internal server error: " plus its text |
| Api.Predict | backend/main.py:106-160 | a non-image type gives 400 "File must be an image (JPG/PNG)"; an image without a model gives 500 "Model not loaded. Please check server logs."; every other error is a 500 internal error; a success is well formed and has no `threshold_used` |
| Api.PredictWithThreshold | backend/main.py:175-235 | a threshold outside [0.0, 1.0] gives 400 "Threshold must be between 0.0 and 1.0" before any other check; the content-type and model checks then follow in order; a success echoes the threshold |
| Api.AcceptedRequestSucceeds | backend/main.py:199-226 | a request that passes every check, on a model that answers, succeeds with the selection for its threshold, a heatmap per selected class and the matching count |
| Api.AnalysedEntries | backend/main.py:130-144 | in a body built from the network output, every selected disease holds its own class's probability and its own class's Grad-CAM image |
| Api.PredictIsDefaultThreshold | backend/main.py:130 | `/predict` replies as `/predict-with-threshold` with 0.5 does, minus `threshold_used` |
| Api.GetClasses | backend/main.py:83-89 | `/classes` lists 14 distinct names, and `num_classes` is the length of the list |
| Api.ClassesMatchPredictions | backend/main.py:83-89 | the `/classes` list is the one the predictions index: class i sits at position i, and every disease a prediction can carry is listed |
| Api.Server.constructor | backend/main.py:37-38 | before startup, `MODEL` and `DEVICE` are both unset |
| Api.Server.Startup | backend/main.py:42-59 | the device is cuda exactly when CUDA is available; the model is loaded onto it, or the load failure is re-raised with `MODEL` left unset |
| Api.Server.Root | backend/main.py:62-70 | `model_loaded` is true exactly when `MODEL` is set; status "running" and the device's name |
| Api.Server.HealthCheck | backend/main.py:73-80 | `model_loaded` is true exactly when `MODEL` is set; status "healthy" and the device's name |
| Api.LoadedServerServes | backend/main.py:117-121 | once the model is loaded, the status endpoints report it and neither prediction endpoint answers "Model not loaded" |
| App.UploadOutcome | frontend/src/App.jsx:16-49 | a completed upload ends not loading, keeps the preview, and stores either the body (OK reply) or the error message: a truthy `detail`, else "Failed to process image", else the exception's text |
| App.StepKeepsConsistent | frontend/src/App.jsx:16-55 | every handler keeps results and error from being set together; an upload always ends with `loading` false, and reset leaves `loading` unchanged |
| App.RunKeepsConsistent | frontend/src/App.jsx:16-55 | over any sequence of completed uploads and resets, results and error are never both set and nothing is loading |
| App.ResultsRenderAlone | frontend/src/App.jsx:71-100 | when the results section renders, the upload, spinner and error sections do not |
| App.ErrorRendersWithUpload | frontend/src/App.jsx:71-92 | the error section and the spinner render only alongside the upload section, never with results |
| App.ResetReturnsToStart | frontend/src/App.jsx:51-55 | with no request in flight, reset restores the initial state |
| App.AppController.constructor | frontend/src/App.jsx:9-12 | the four state fields start as false, null, null, null |
| App.AppController.BeginUpload | frontend/src/App.jsx:17-28 | loading on, error and results cleared, preview URL stored |
| App.AppController.EndUpload | frontend/src/App.jsx:36-48 | the body is stored, or the failure becomes the error message; loading then goes off |
| App.AppController.HandleImageUpload | frontend/src/App.jsx:16-49 | the handler run to completion equals the upload step on the state |
| App.AppController.HandleReset | frontend/src/App.jsx:51-55 | results, error and preview cleared; loading untouched |
| ResultsDisplay.Render | frontend/src/components/ResultsDisplay.jsx:6-123 | nothing renders without results; otherwise card i shows the i-th prediction with its probability, selector button i names the i-th prediction, and the heatmap and confidence shown are the `gradcam_images` and `predictions` entries of the displayed disease, present exactly when it has one |
| ResultsDisplay.DefaultDisplay | frontend/src/components/ResultsDisplay.jsx:9-114 | with no selection the first prediction is displayed, every card shows its prediction unmarked, and only the first button is "active" |
| ResultsDisplay.ExplicitSelection | frontend/src/components/ResultsDisplay.jsx:12-114 | a non-empty selection is displayed, and only its card is "selected" and only its button "active" |
| ResultsDisplay.SelectorShownForSeveral | frontend/src/components/ResultsDisplay.jsx:106 | the selector shows exactly when there is more than one prediction |
| ResultsDisplay.ServiceRepliesHaveHeatmaps | frontend/src/components/ResultsDisplay.jsx:12-93 | for a reply the service produced, the displayed disease (default or clicked) is a predicted one, and the view shows its own `gradcam_images` entry and its own `predictions` value |
| ResultsDisplay.ShowsOwnClassHeatmap | frontend/src/components/ResultsDisplay.jsx:12-93 | end to end from the network output: the heatmap and confidence shown for the displayed disease are those of its own class |
| ResultsDisplay.ResultsPanel.constructor | frontend/src/components/ResultsDisplay.jsx:4 | the component mounts with its response and no explicit selection |
| ResultsDisplay.ResultsPanel.Click | frontend/src/components/ResultsDisplay.jsx:46-116 | a click sets the selection to that disease, which is then the displayed one |
| ImageUpload.ClientAndServiceAgreeOnImages | frontend/src/components/ImageUpload.jsx:9 | a file the client accepts is exactly one the service does not refuse as a non-image |
| ImageUpload.Uploader.constructor | frontend/src/components/ImageUpload.jsx:4-5 | no preview, no drag highlight, nothing uploaded and no alert yet |
| ImageUpload.Uploader.HandleFileSelect | frontend/src/components/ImageUpload.jsx:8-19 | an image file is passed to `onImageUpload` once with no alert; anything else raises the alert and is not passed on; the preview is unchanged |
| ImageUpload.Uploader.PreviewLoaded | frontend/src/components/ImageUpload.jsx:11-13 | the data URL becomes the preview and nothing else changes |
| ImageUpload.Uploader.HandleFileChange | frontend/src/components/ImageUpload.jsx:21-26 | with no file nothing happens; otherwise the first file is selected |
| ImageUpload.Uploader.HandleDrag | frontend/src/components/ImageUpload.jsx:28-36 | dragenter and dragover set `dragActive`, dragleave clears it, and other types leave it unchanged |
| ImageUpload.Uploader.HandleDrop | frontend/src/components/ImageUpload.jsx:38-46 | `dragActive` is cleared and only the first dropped file, if any, is selected, whether or not the component is disabled |
| Common.Keys | backend/model_utils.py:177 | `dict.keys()`: one key per entry, in insertion order |
| Common.Lookup | frontend/src/components/ResultsDisplay.jsx:13 | a key is found exactly when present, with a value stored under it |
| Common.StoreNewKey | backend/model_utils.py:129 | assigning a key that is not present appends it at the end |
| Common.StoreLookup | backend/model_utils.py:192 | after `d[k] = v`, `k` reads `v` and every other key reads as before |
| Common.LookupEntry | backend/model_utils.py:129 | in a dictionary with distinct keys, each entry's key reads back its own value |

## Left out

- The network, image preprocessing, Grad-CAM tensor arithmetic, the heatmap overlay, and PNG/base64 encoding are inputs, not modelled. The probability vector and the per-class encoded heatmaps are given to the model. They are floating-point numerics and library calls.
- Probabilities are mathematical reals. NaN and float rounding are not modelled. `float(prob)` is the identity.
- FastAPI routing, CORS, logging and uvicorn are not modelled. Reading the upload and decoding the image are not modelled either; their exceptions are part of the `Inference.Raised` outcome.
- Api.Predict: requires a well-shaped inference, with 14 probabilities and 14 heatmaps, because the classifier is built with 14 outputs. An inference of any other width is not modelled.
- Api.PredictWithThreshold: requires the same well-shaped inference as `Api.Predict`.
- Api.Server.Startup: the missing-weights-file check and `load_model`'s own exceptions are one input, `loadFailure`. The weights file path is not modelled.
- ModelUtils.GenerateGradcamVisualizations: the class list is a parameter, and `GradcamImages` instantiates it with `CLASS_NAMES`. The heatmaps are indexed by class position rather than computed.
- ModelUtils.GradcamErrMessage: the `ValueError` text is built without Python's `repr` escaping of quotes inside the name.
- `fetch`, `FormData`, `URL.createObjectURL`, `FileReader` and `alert` are browser I/O. Their results are inputs, and the calls made are recorded.
- App.AppController.EndUpload: the error `detail` is assumed to be absent or a string. A list-valued `detail`, as FastAPI's 422 replies carry, is not modelled.
- `handleClick` only forwards a click to the hidden file input, which a disabled input ignores. The file chooser is browser I/O, so the model keeps `disabled` only as a recorded prop.
- Overlapping uploads and a response that arrives after a reset are not modelled. Each handler runs to completion before the next event.
- `toFixed(1)` percentages and bar widths are float formatting, not modelled. So is the rest of the markup, and so are `ErrorMessage.jsx`, `LoadingSpinner.jsx` and `vite.config.js`, which hold no decision logic.
