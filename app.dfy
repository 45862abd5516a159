/** The top-level client component: four state fields, the upload handler
    that brackets one request to `/predict`, the reset handler, and the
    conditions under which each section of the page renders. The request's
    outcome is an input: what `fetch` and `response.json()` produce. */
module App {
  import opened Common
  import Api

  /** How the request ended: an OK response with its parsed JSON body; a
      non-OK response whose JSON body has `detail` (absent, or a string); or
      an exception (the network failed, or a body was not JSON), by its text. */
  datatype FetchOutcome =
    | Ok(body: Api.Response)
    | NotOk(detail: Option<string>)
    | Thrown(message: string)

  const FallbackError: string := "Failed to process image"

  /** The component's state: `loading`, `error`, `results`, `uploadedImage`. */
  datatype View = View(
    loading: bool,
    error: Option<string>,
    results: Option<Api.Response>,
    uploadedImage: Option<string>)

  const Initial: View := View(false, None, None, None)

  /** `err.message` after a failed request: a truthy `detail` is passed on,
      a missing or empty one is replaced by the generic text. */
  function FailureMessage(outcome: FetchOutcome): (message: string)
    requires !outcome.Ok?
  {
    match outcome
    case NotOk(detail) => if detail.Some? && detail.value != "" then detail.value else FallbackError
    case Thrown(message) => message
  }

  /** The part of `handleImageUpload` before the request: loading on, error
      and results cleared, the preview URL stored. */
  function StartUpload(v: View, imageUrl: string): View
  {
    View(true, None, None, Some(imageUrl))
  }

  /** The part after the request: results or error, then loading off. */
  function FinishUpload(v: View, outcome: FetchOutcome): View
  {
    match outcome
    case Ok(body) => v.(results := Some(body), loading := false)
    case _ => v.(error := Some(FailureMessage(outcome)), loading := false)
  }

  /** `handleReset`: results, error and preview cleared; loading untouched. */
  function ResetView(v: View): View
  {
    v.(results := None, error := None, uploadedImage := None)
  }

  /** A user action, handled to completion before the next one. */
  datatype Event = Upload(imageUrl: string, outcome: FetchOutcome) | Reset

  function Step(v: View, e: Event): View
  {
    match e
    case Upload(imageUrl, outcome) => FinishUpload(StartUpload(v, imageUrl), outcome)
    case Reset => ResetView(v)
  }

  function Run(v: View, events: seq<Event>): View
    decreases |events|
  {
    if events == [] then v else Run(Step(v, events[0]), events[1..])
  }

  /** Results and error are never both set, and nothing is stored while a
      request is in flight. */
  predicate Consistent(v: View)
  {
    && !(v.results.Some? && v.error.Some?)
    && (v.loading ==> v.results.None? && v.error.None?)
  }

  /** `{!results && ...}`. */
  predicate ShowsUpload(v: View) { v.results.None? }
  /** `{loading && ...}`. */
  predicate ShowsSpinner(v: View) { v.loading }
  /** `{error && ...}`: an empty message is falsy and shows nothing. */
  predicate ShowsError(v: View) { v.error.Some? && v.error.value != "" }
  /** `{results && !loading && ...}`. */
  predicate ShowsResults(v: View) { v.results.Some? && !v.loading }

  /** A completed upload ends not loading, with the preview of the file just
      sent, and with exactly one of results (the parsed body, for an OK
      response) or an error message (for everything else). */
  lemma UploadOutcome(v: View, imageUrl: string, outcome: FetchOutcome)
    ensures
      var w := Step(v, Upload(imageUrl, outcome));
      && !w.loading
      && w.uploadedImage == Some(imageUrl)
      && (outcome.Ok? ==> w.results == Some(outcome.body) && w.error.None?)
      && (outcome.NotOk? && outcome.detail.Some? && outcome.detail.value != "" ==>
            w.error == Some(outcome.detail.value) && w.results.None?)
      && (outcome.NotOk? && (outcome.detail.None? || outcome.detail.value == "") ==>
            w.error == Some(FallbackError) && w.results.None?)
      && (outcome.Thrown? ==> w.error == Some(outcome.message) && w.results.None?)
  {
  }

  /** Every handler keeps the state consistent. */
  lemma StepKeepsConsistent(v: View, e: Event)
    requires Consistent(v)
    ensures Consistent(Step(v, e))
    ensures e.Upload? ==> !Step(v, e).loading
    ensures Step(v, e).loading == (e.Reset? && v.loading)
  {
  }

  /** Over any sequence of completed uploads and resets from the initial state,
      results and error are never both set and nothing is loading. */
  lemma {:induction false} RunKeepsConsistent(v: View, events: seq<Event>)
    requires Consistent(v) && !v.loading
    ensures Consistent(Run(v, events)) && !Run(v, events).loading
    decreases |events|
  {
    if events != [] {
      StepKeepsConsistent(v, events[0]);
      RunKeepsConsistent(Step(v, events[0]), events[1..]);
    }
  }

  /** When the results section renders, nothing else in the main area does. */
  lemma ResultsRenderAlone(v: View)
    requires Consistent(v) && ShowsResults(v)
    ensures !ShowsUpload(v) && !ShowsSpinner(v) && !ShowsError(v)
  {
  }

  /** The error section renders together with the upload section, and the
      spinner together with the (disabled) upload section. */
  lemma ErrorRendersWithUpload(v: View)
    requires Consistent(v)
    ensures ShowsError(v) ==> ShowsUpload(v) && !ShowsResults(v)
    ensures ShowsSpinner(v) ==> ShowsUpload(v) && !ShowsResults(v)
  {
  }

  /** After the last request has completed, a reset brings the page back to
      its initial state. */
  lemma ResetReturnsToStart(v: View)
    requires !v.loading
    ensures ResetView(v) == Initial
  {
  }

  /** The component itself: its state fields, set step by step. */
  class AppController {
    var loading: bool
    var error: Option<string>
    var results: Option<Api.Response>
    var uploadedImage: Option<string>

    function Snapshot(): View
      reads this
    {
      View(loading, error, results, uploadedImage)
    }

    constructor ()
      ensures Snapshot() == Initial
    {
      loading, error, results, uploadedImage := false, None, None, None;
    }

    /** Lines before the `await fetch(...)`. */
    method BeginUpload(imageUrl: string)
      modifies this
      ensures Snapshot() == StartUpload(old(Snapshot()), imageUrl)
    {
      loading := true;
      error := None;
      results := None;
      uploadedImage := Some(imageUrl);
    }

    /** Lines from the response on: store the body, or turn the failure into
        an error message; `finally` turns loading off. */
    method EndUpload(outcome: FetchOutcome)
      modifies this
      ensures Snapshot() == FinishUpload(old(Snapshot()), outcome)
    {
      match outcome {
        case Ok(body) =>
          results := Some(body);
        case NotOk(detail) =>
          error := Some(if detail.Some? && detail.value != "" then detail.value else FallbackError);
        case Thrown(message) =>
          error := Some(message);
      }
      loading := false;
    }

    /** `handleImageUpload(file)`, run to completion. */
    method HandleImageUpload(imageUrl: string, outcome: FetchOutcome)
      modifies this
      ensures Snapshot() == Step(old(Snapshot()), Upload(imageUrl, outcome))
    {
      BeginUpload(imageUrl);
      EndUpload(outcome);
    }

    /** `handleReset()`. */
    method HandleReset()
      modifies this
      ensures Snapshot() == Step(old(Snapshot()), Reset)
    {
      results := None;
      error := None;
      uploadedImage := None;
    }
  }
}
