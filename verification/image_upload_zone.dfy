/**
 * The image upload zone: the checks a chosen or dropped file goes through
 * before it is read as a data URL, the callback that reports the outcome, and
 * the component's `isDragging` flag.
 *
 * The browser's asynchronous file read is an input (`ReadOutcome`); what the
 * reader then does is modelled by the events it fires, so that the callbacks
 * the component's listeners produce can be stated.
 */
module ImageUploadZone {
  import opened Wrappers

  const MaxFileSize: nat := 10 * 1024 * 1024

  const SizeErrorMessage := "ファイルサイズは10MB以下にしてください"
  const TypeErrorMessage := "画像ファイルを選択してください"
  const ReadErrorMessage := "画像の読み込みに失敗しました"

  /** The two properties of a `File` the component looks at. */
  datatype File = File(size: nat, mimeType: string)

  /** How `readAsDataURL` ends. */
  datatype ReadOutcome = Loaded(dataUrl: string) | Failed

  /** The progress events a file reader fires at the end of a read. */
  datatype ReaderEvent = LoadEvent | ErrorEvent | LoadEndEvent

  /** The callbacks the component hands its results to. */
  datatype Callback =
    | ImageSelected(imageData: Option<string>)
    | ErrorReported(message: string)
    | ResetRequested

  /** What one validation does: whether a read was started, and the callbacks, in order. */
  datatype Outcome = Outcome(readStarted: bool, callbacks: seq<Callback>)

  const NoAction := Outcome(false, [])

  // ---------------------------------------------------------------------------
  // The file reader
  // ---------------------------------------------------------------------------

  /** A read fires `load` on success or `error` on failure, and then `loadend` in both cases. */
  function ReaderEvents(read: ReadOutcome): seq<ReaderEvent> {
    match read
    case Loaded(_) => [LoadEvent, LoadEndEvent]
    case Failed => [ErrorEvent, LoadEndEvent]
  }

  /** `reader.result` once the read is over: the data URL, or `null` after a failure. */
  function ReaderResult(read: ReadOutcome): Option<string> {
    match read
    case Loaded(url) => Some(url)
    case Failed => None
  }

  /** The callbacks a sequence of events produces, given what each listener does with one event. */
  function Dispatch(events: seq<ReaderEvent>, listener: ReaderEvent -> seq<Callback>): seq<Callback> {
    if events == [] then [] else listener(events[0]) + Dispatch(events[1..], listener)
  }

  // ---------------------------------------------------------------------------
  // Validation
  // ---------------------------------------------------------------------------

  /** The message of the first check a file fails: size first, then type. */
  function CheckFile(file: File): (r: Option<string>)
    ensures r == Some(SizeErrorMessage) <==> file.size > MaxFileSize
    ensures r == Some(TypeErrorMessage) <==> file.size <= MaxFileSize && !("image/" <= file.mimeType)
    ensures r.None? <==> file.size <= MaxFileSize && "image/" <= file.mimeType
  {
    if file.size > MaxFileSize then Some(SizeErrorMessage)
    else if !("image/" <= file.mimeType) then Some(TypeErrorMessage)
    else None
  }

  /** A file of exactly 10 MiB passes the size check; one byte more does not, whatever its type. */
  lemma SizeLimitIsInclusive(mimeType: string)
    ensures CheckFile(File(MaxFileSize, "image/" + mimeType)).None?
    ensures CheckFile(File(MaxFileSize + 1, mimeType)) == Some(SizeErrorMessage)
  {
  }

  /** The listeners as the component registers them: `onloadend` selects the result, `onerror` reports. */
  function ListenerAsWritten(result: Option<string>): ReaderEvent -> seq<Callback> {
    (ev: ReaderEvent) =>
      match ev
      case LoadEndEvent => [ImageSelected(result)]
      case ErrorEvent => [ErrorReported(ReadErrorMessage)]
      case LoadEvent => []
  }

  /**
   * `validateAndConvertImage` as written: a rejected file reports its first
   * failed check and starts no read; a successful read selects the data URL;
   * a failed read reports the error and then selects `null`.
   */
  function ValidateAndConvertAsWritten(file: File, read: ReadOutcome): (o: Outcome)
    ensures o.readStarted <==> CheckFile(file).None?
    ensures !o.readStarted ==> o.callbacks == [ErrorReported(CheckFile(file).value)]
    ensures o.readStarted && read.Loaded? ==> o.callbacks == [ImageSelected(Some(read.dataUrl))]
    ensures o.readStarted && read.Failed? ==> o.callbacks == [ErrorReported(ReadErrorMessage), ImageSelected(None)]
  {
    match CheckFile(file)
    case Some(message) => Outcome(false, [ErrorReported(message)])
    case None =>
      var listener := ListenerAsWritten(ReaderResult(read));
      var events := ReaderEvents(read);
      assert Dispatch(events[1..], listener) == listener(LoadEndEvent) + Dispatch([], listener);
      Outcome(true, Dispatch(events, listener))
  }

  /**
   * As written, a failed read reports the error and then, because `loadend`
   * also fires after `error`, hands `null` to the image callback as well.
   */
  lemma FailedReadCallsBothCallbacks(file: File)
    requires CheckFile(file).None?
    ensures ValidateAndConvertAsWritten(file, Failed).callbacks
            == [ErrorReported(ReadErrorMessage), ImageSelected(None)]
    ensures |ValidateAndConvertAsWritten(file, Failed).callbacks| != |ValidateAndConvert(file, Failed).callbacks|
  {
  }

  /** The listeners with `onload` in place of `onloadend`: one callback per read. */
  function Listener(result: Option<string>): ReaderEvent -> seq<Callback> {
    (ev: ReaderEvent) =>
      match ev
      case LoadEvent => [ImageSelected(result)]
      case ErrorEvent => [ErrorReported(ReadErrorMessage)]
      case LoadEndEvent => []
  }

  /**
   * `validateAndConvertImage`, listening for `load`: a rejected file reports
   * its first failed check and starts no read; an accepted file is read, and
   * exactly one callback reports how the read ended.
   */
  function ValidateAndConvert(file: File, read: ReadOutcome): (o: Outcome)
    ensures o.readStarted <==> CheckFile(file).None?
    ensures |o.callbacks| == 1
    ensures !o.readStarted ==> o.callbacks[0] == ErrorReported(CheckFile(file).value)
    ensures o.readStarted && read.Loaded? ==> o.callbacks[0] == ImageSelected(Some(read.dataUrl))
    ensures o.readStarted && read.Failed? ==> o.callbacks[0] == ErrorReported(ReadErrorMessage)
  {
    match CheckFile(file)
    case Some(message) => Outcome(false, [ErrorReported(message)])
    case None =>
      var listener := Listener(ReaderResult(read));
      var events := ReaderEvents(read);
      assert Dispatch(events[1..], listener) == listener(LoadEndEvent) + Dispatch([], listener);
      Outcome(true, Dispatch(events, listener))
  }

  /** The first file of a file list, if there is one. */
  function FirstFile(files: seq<File>): Option<File> {
    if files == [] then None else Some(files[0])
  }

  /** `handleFileSelect`: validates the first chosen file only; no files (or no list) does nothing. */
  function HandleFileSelect(files: Option<seq<File>>, read: ReadOutcome): (o: Outcome)
    ensures files.None? || files.value == [] ==> o == NoAction
    ensures files.Some? && files.value != [] ==> o == ValidateAndConvert(files.value[0], read)
  {
    match files
    case None => NoAction
    case Some(list) =>
      match FirstFile(list)
      case None => NoAction
      case Some(file) => ValidateAndConvert(file, read)
  }

  // ---------------------------------------------------------------------------
  // The component's state
  // ---------------------------------------------------------------------------

  /** The drop area: whether a drag is over it, and the hidden file input's value. */
  class DropZone {
    var isDragging: bool
    var inputValue: string

    /** A freshly mounted zone: no drag over it, and an empty file input. */
    constructor ()
      ensures !isDragging && inputValue == ""
    {
      isDragging := false;
      inputValue := "";
    }

    /** The browser sets the input's value when the user picks a file, before the change handler runs. */
    method ChooseFile(path: string)
      modifies this
      ensures inputValue == path && isDragging == old(isDragging)
    {
      inputValue := path;
    }

    method HandleDragOver()
      modifies this
      ensures isDragging && inputValue == old(inputValue)
    {
      isDragging := true;
    }

    method HandleDragLeave()
      modifies this
      ensures !isDragging && inputValue == old(inputValue)
    {
      isDragging := false;
    }

    /** Ends the drag, then validates the first dropped file, if any. */
    method HandleDrop(files: seq<File>, read: ReadOutcome) returns (o: Outcome)
      modifies this
      ensures !isDragging && inputValue == old(inputValue)
      ensures files == [] ==> o == NoAction
      ensures files != [] ==> o == ValidateAndConvert(files[0], read)
    {
      isDragging := false;
      var file := FirstFile(files);
      if file.Some? {
        o := ValidateAndConvert(file.value, read);
      } else {
        o := NoAction;
      }
    }

    /** Tells the parent to reset, then empties the file input so the same file can be chosen again. */
    method HandleReset() returns (callbacks: seq<Callback>)
      modifies this
      ensures callbacks == [ResetRequested]
      ensures inputValue == "" && isDragging == old(isDragging)
    {
      callbacks := [ResetRequested];
      inputValue := "";
    }
  }
}
