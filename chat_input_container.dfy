/**
 * The input form: the upload and remove handlers over the pending files,
 * and the choice between the preview strip and the textarea together with
 * the disabled flags of the controls.
 */
module ChatInputContainer {
  import opened Wrappers
  import opened ChatTypes

  /** The largest selection one upload event may carry. */
  const MaxFiles: nat := 5

  /** The bot notice appended when a selection is too large. */
  const TooManyFilesNotice: string := "You can upload up to 5 files."

  /** `Array.prototype.slice(start, end)` for non-negative bounds: both are clamped to the length. */
  function Slice(s: seq<File>, start: nat, end: nat): (r: seq<File>)
    ensures start <= end <= |s| ==> r == s[start..end]
    ensures end <= start ==> r == []
    ensures |s| <= start ==> r == []
    ensures start <= |s| <= end ==> r == s[start..]
  {
    var lo := if start < |s| then start else |s|;
    var hi := if end < |s| then end else |s|;
    if lo <= hi then s[lo..hi] else []
  }

  /** The updater of `handleRemoveFile`: `[...prev.slice(0, index), ...prev.slice(index + 1)]`. */
  function RemoveAt(prev: seq<File>, index: nat): (r: seq<File>)
    ensures index < |prev| ==> r == prev[..index] + prev[index + 1..]
    ensures index < |prev| ==> |r| == |prev| - 1
    ensures |prev| <= index ==> r == prev
  {
    Slice(prev, 0, index) + Slice(prev, index + 1, |prev|)
  }

  /** Removing one file keeps every other file, in order. */
  lemma RemoveAtKeepsOthers(prev: seq<File>, index: nat)
    requires index < |prev|
    ensures forall k :: 0 <= k < index ==> RemoveAt(prev, index)[k] == prev[k]
    ensures forall k :: index <= k < |prev| - 1 ==> RemoveAt(prev, index)[k] == prev[k + 1]
    ensures multiset(RemoveAt(prev, index)) + multiset{prev[index]} == multiset(prev)
  {
    var r := RemoveAt(prev, index);
    assert prev == prev[..index] + [prev[index]] + prev[index + 1..];
    assert r == prev[..index] + prev[index + 1..];
  }

  /** The updater of `setFileInputValue` in `handleUpload`: the new files after the previous ones, if any. */
  function MergeFiles(prev: Option<seq<File>>, files: seq<File>): (r: seq<File>)
    ensures prev.None? ==> r == files
    ensures prev.Some? ==> r == prev.value + files
  {
    match prev
    case Some(p) => p + files
    case None => files
  }

  /** `handleUpload` on the event's file list (`None` when the event carries none). */
  function AfterUpload(mk: MessageFactory, s: Session, files: Option<seq<File>>): (r: Session)
    ensures files.None? ==> r == s
    ensures files.Some? && |files.value| > MaxFiles ==>
      r == s.(state := s.state.(messages := s.state.messages + [mk(TooManyFilesNotice, "bot", None)]))
    ensures files.Some? && |files.value| <= MaxFiles ==>
      r == s.(fileInput := Some(MergeFiles(s.fileInput, files.value)))
  {
    match files
    case None => s
    case Some(fs) =>
      if |fs| > MaxFiles then
        s.(state := s.state.(messages := s.state.messages + [mk(TooManyFilesNotice, "bot", None)]))
      else
        s.(fileInput := Some(MergeFiles(s.fileInput, fs)))
  }

  /** `handleRemoveFile(index)`; the source calls it only while files are pending. */
  function AfterRemove(s: Session, index: nat): (r: Session)
    requires s.fileInput.Some?
    ensures r.fileInput.Some? && r.fileInput.value == RemoveAt(s.fileInput.value, index)
    ensures r.(fileInput := s.fileInput) == s
  {
    s.(fileInput := Some(RemoveAt(s.fileInput.value, index)))
  }

  /** The cap is on one selection: three pending files and four new ones make seven. */
  lemma UploadTotalNotCapped(mk: MessageFactory, s: Session, files: seq<File>)
    requires s.fileInput.Some? && |s.fileInput.value| == 3 && |files| == 4
    ensures AfterUpload(mk, s, Some(files)).fileInput.Some?
    ensures |AfterUpload(mk, s, Some(files)).fileInput.value| == 7
  {
  }

  /** Removing the file an upload of one file just added restores the previous pending files. */
  lemma RemoveUndoesUpload(mk: MessageFactory, s: Session, f: File)
    requires s.fileInput.Some?
    ensures AfterRemove(AfterUpload(mk, s, Some([f])), |s.fileInput.value|) == s
  {
    var p := s.fileInput.value;
    assert RemoveAt(p + [f], |p|) == (p + [f])[..|p|];
    assert (p + [f])[..|p|] == p;
  }

  /** The pending files after an accepted upload start with the previous ones and end with the new ones. */
  lemma UploadPreservesOrder(mk: MessageFactory, s: Session, files: seq<File>)
    requires |files| <= MaxFiles
    ensures var r := AfterUpload(mk, s, Some(files)).fileInput.value;
      && (s.fileInput.Some? ==> |r| == |s.fileInput.value| + |files|)
      && (forall k :: 0 <= k < |files| ==> r[|r| - |files| + k] == files[k])
      && (s.fileInput.Some? ==> forall k :: 0 <= k < |s.fileInput.value| ==> r[k] == s.fileInput.value[k])
  {
  }

  // ---------------------------------------------------------------------------
  // The form

  /** One preview in the strip: its index (that of its remove button), preview source and alt text. */
  datatype PreviewItem = PreviewItem(index: nat, src: string, alt: string)

  datatype InputArea =
    | PreviewStrip(previews: seq<PreviewItem>)
    | TextArea(value: string, placeholder: string, disabled: bool)

  datatype SendIcon = ActiveSendIcon | GraySendIcon

  /**
   * What the form shows: the input area, whether the container and form
   * carry the `is-disabled` class, and the disabled flags of the attach
   * button, the hidden file input and the send button.
   */
  datatype FormView = FormView(
    area: InputArea,
    disabledClass: bool,
    attachDisabled: bool,
    fileInputDisabled: bool,
    sendDisabled: bool,
    sendIcon: SendIcon)

  /** `fileInput.map(...)` from position `from` on; `preview` stands for `URL.createObjectURL`. */
  function Previews(files: seq<File>, preview: File -> string, from: nat): (r: seq<PreviewItem>)
    requires from <= |files|
    ensures |r| == |files| - from
    ensures forall k :: 0 <= k < |r| ==>
      r[k] == PreviewItem(from + k, preview(files[from + k]), files[from + k].name)
    decreases |files| - from
  {
    if from == |files| then []
    else [PreviewItem(from, preview(files[from]), files[from].name)] + Previews(files, preview, from + 1)
  }

  function Form(state: ChatState, fileInput: Option<seq<File>>, input: string, placeholder: string,
                preview: File -> string): (r: FormView)
    ensures r.area.PreviewStrip? <==> HasFiles(fileInput)
    ensures HasFiles(fileInput) ==>
      && |r.area.previews| == |fileInput.value|
      && forall k :: 0 <= k < |fileInput.value| ==>
           r.area.previews[k] == PreviewItem(k, preview(fileInput.value[k]), fileInput.value[k].name)
    ensures !HasFiles(fileInput) ==> r.area == TextArea(input, placeholder, state.isInputDisabled)
    ensures r.disabledClass == r.sendDisabled == state.isInputDisabled
    ensures r.attachDisabled == r.fileInputDisabled == state.isFileInputDisabled
    ensures r.sendIcon == (if state.isInputDisabled then GraySendIcon else ActiveSendIcon)
  {
    var area :=
      if HasFiles(fileInput) then PreviewStrip(Previews(fileInput.value, preview, 0))
      else TextArea(input, placeholder, state.isInputDisabled);
    FormView(
      area,
      state.isInputDisabled,
      state.isFileInputDisabled,
      state.isFileInputDisabled,
      state.isInputDisabled,
      if state.isInputDisabled then GraySendIcon else ActiveSendIcon)
  }
}
