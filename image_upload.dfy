/** The upload surface: which files are accepted, what becomes of an accepted
    or rejected file, and the `dragActive` flag across drag events. The
    parent's `onImageUpload` callback and `alert` are recorded as the calls
    made to them; the FileReader delivers the preview later, as its own
    event. */
module ImageUpload {
  import opened Common
  import Api

  /** A browser File: its name and its media type (`file.type`, empty when
      the browser does not know it). */
  datatype File = File(name: string, mimeType: string)

  const RejectionAlert: string := "Please upload a valid image file (JPG or PNG)"

  /** `file && file.type.startsWith('image/')`. */
  predicate IsAcceptedFile(file: Option<File>)
  {
    file.Some? && StartsWith(file.value.mimeType, "image/")
  }

  /** The client and the service agree on what an image is: a file the
      client accepts is never refused by the service as a non-image (when
      the request carries the file's type), and a file the client refuses
      would be. */
  lemma ClientAndServiceAgreeOnImages(
    file: File, threshold: real, model: Option<Api.LoadedModel>, inference: Api.Inference)
    requires inference.WellShaped() && 0.0 <= threshold <= 1.0
    ensures IsAcceptedFile(Some(file)) <==>
      Api.PredictWithThreshold(Some(file.mimeType), threshold, model, inference) != Api.HttpError(400, Api.NotImageDetail)
    ensures IsAcceptedFile(Some(file)) <==>
      Api.Predict(Some(file.mimeType), model, inference) != Api.HttpError(400, Api.NotImageDetail)
  {
  }

  class Uploader {
    var preview: Option<string>
    var dragActive: bool
    /** The `disabled` prop (the parent passes `loading`). */
    const disabled: bool
    /** The files passed to `onImageUpload`, in order. */
    var uploaded: seq<File>
    /** The messages shown with `alert`, in order. */
    var alerts: seq<string>

    constructor (disabled: bool)
      ensures this.disabled == disabled
      ensures preview.None? && !dragActive && uploaded == [] && alerts == []
    {
      this.disabled := disabled;
      preview, dragActive, uploaded, alerts := None, false, [], [];
    }

    /** `handleFileSelect(file)`: an image is handed to `onImageUpload`
        exactly once (its preview arrives later, see PreviewLoaded); anything
        else raises the alert and changes nothing. */
    method HandleFileSelect(file: Option<File>)
      modifies this
      ensures IsAcceptedFile(file) ==> uploaded == old(uploaded) + [file.value] && alerts == old(alerts)
      ensures !IsAcceptedFile(file) ==> uploaded == old(uploaded) && alerts == old(alerts) + [RejectionAlert]
      ensures preview == old(preview) && dragActive == old(dragActive)
    {
      if IsAcceptedFile(file) {
        uploaded := uploaded + [file.value];
      } else {
        alerts := alerts + [RejectionAlert];
      }
    }

    /** The FileReader's `onloadend`: the data URL becomes the preview. */
    method PreviewLoaded(dataUrl: string)
      modifies this
      ensures preview == Some(dataUrl)
      ensures dragActive == old(dragActive) && uploaded == old(uploaded) && alerts == old(alerts)
    {
      preview := Some(dataUrl);
    }

    /** `handleFileChange(e)`: the first chosen file, if any, is selected; a
        change carrying no file does nothing. The hidden input it listens to
        is disabled while `disabled` holds, so the browser does not fire it
        then; the handler itself does not look at `disabled`. */
    method HandleFileChange(files: seq<File>)
      modifies this
      ensures files == [] ==> uploaded == old(uploaded) && alerts == old(alerts)
      ensures files != [] && IsAcceptedFile(Some(files[0])) ==>
        uploaded == old(uploaded) + [files[0]] && alerts == old(alerts)
      ensures files != [] && !IsAcceptedFile(Some(files[0])) ==>
        uploaded == old(uploaded) && alerts == old(alerts) + [RejectionAlert]
      ensures preview == old(preview) && dragActive == old(dragActive)
    {
      if files != [] {
        HandleFileSelect(Some(files[0]));
      }
    }

    /** `handleDrag(e)`. */
    method HandleDrag(eventType: string)
      modifies this
      ensures eventType == "dragenter" || eventType == "dragover" ==> dragActive
      ensures eventType == "dragleave" ==> !dragActive
      ensures eventType !in {"dragenter", "dragover", "dragleave"} ==> dragActive == old(dragActive)
      ensures preview == old(preview) && uploaded == old(uploaded) && alerts == old(alerts)
    {
      if eventType == "dragenter" || eventType == "dragover" {
        dragActive := true;
      } else if eventType == "dragleave" {
        dragActive := false;
      }
    }

    /** `handleDrop(e)`: the drag highlight goes off, and only the first
        dropped file, if any, is selected. The drop zone is not disabled, so
        this happens whether or not `disabled` holds. */
    method HandleDrop(files: seq<File>)
      modifies this
      ensures !dragActive
      ensures files == [] ==> uploaded == old(uploaded) && alerts == old(alerts)
      ensures files != [] && IsAcceptedFile(Some(files[0])) ==>
        uploaded == old(uploaded) + [files[0]] && alerts == old(alerts)
      ensures files != [] && !IsAcceptedFile(Some(files[0])) ==>
        uploaded == old(uploaded) && alerts == old(alerts) + [RejectionAlert]
      ensures preview == old(preview)
    {
      dragActive := false;
      if files != [] {
        HandleFileSelect(Some(files[0]));
      }
    }
  }
}
