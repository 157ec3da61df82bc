/**
 * The `file` slice of the renderer's store: which file is open, its text,
 * and the dirty, loading and error status. Actions are the slice's four
 * synchronous reducers and the pending, fulfilled and rejected phases of the
 * `openFile`, `saveFile` and `saveToPath` requests; the requests themselves
 * (dialogs, disk I/O) are outside the model and only their outcomes arrive
 * here, as payloads.
 */
module FileSlice {
  import opened Wrappers
  import JsText

  const OpenFailedMessage := "Failed to open file"
  const SaveFailedMessage := "Failed to save file"

  datatype FileState = FileState(
    filePath: Option<string>,
    content: string,
    isDirty: bool,
    isLoading: bool,
    error: Option<string>)

  const Initial := FileState(None, "", false, false, None)

  /** What the open-file dialog delivers when a file was chosen and read. */
  datatype OpenedFile = OpenedFile(filePath: string, content: string)

  /** What a write to a known path reports. */
  datatype SaveResult = SaveResult(success: bool, filePath: Option<string>, error: Option<string>)

  /**
   * Every action the slice receives. A `None` payload of a fulfilled request is a
   * cancelled dialog; a rejected request carries the optional error message.
   * The pending and rejected phases of the two save requests have no case in the
   * slice and therefore change nothing.
   */
  datatype FileAction =
    | SetContent(newContent: string)
    | SetFilePath(newPath: Option<string>)
    | ClearFile
    | MarkSaved
    | OpenFilePending
    | OpenFileFulfilled(loaded: Option<OpenedFile>)
    | OpenFileRejected(message: Option<string>)
    | SaveFilePending
    | SaveFileFulfilled(savedPath: Option<string>)
    | SaveFileRejected(message: Option<string>)
    | SaveToPathPending
    | SaveToPathFulfilled(result: SaveResult)
    | SaveToPathRejected(message: Option<string>)

  /** The slice's reducer: the state after one action. */
  function Reduce(s: FileState, a: FileAction): FileState {
    match a
    case SetContent(c) => s.(content := c, isDirty := true)
    case SetFilePath(p) => s.(filePath := p)
    case ClearFile => s.(filePath := None, content := "", isDirty := false, error := None)
    case MarkSaved => s.(isDirty := false)
    case OpenFilePending => s.(isLoading := true, error := None)
    case OpenFileFulfilled(loaded) =>
      if loaded.Some? then
        s.(isLoading := false, filePath := Some(loaded.value.filePath),
           content := loaded.value.content, isDirty := false)
      else
        s.(isLoading := false)
    case OpenFileRejected(m) => s.(isLoading := false, error := Some(JsText.OrElse(m, OpenFailedMessage)))
    case SaveFileFulfilled(p) =>
      if JsText.Truthy(p) then s.(filePath := p, isDirty := false) else s
    case SaveToPathFulfilled(r) =>
      if r.success then s.(isDirty := false)
      else s.(error := Some(JsText.OrElse(r.error, SaveFailedMessage)))
    case SaveFilePending => s
    case SaveFileRejected(_) => s
    case SaveToPathPending => s
    case SaveToPathRejected(_) => s
  }

  /** The state after dispatching the actions in order. */
  function ApplyAll(s: FileState, actions: seq<FileAction>): FileState
    decreases |actions|
  {
    if actions == [] then s else ApplyAll(Reduce(s, actions[0]), actions[1..])
  }

  /** The store holding the slice; each method is one reducer case updating the fields in place. */
  class FileStore {
    var filePath: Option<string>
    var content: string
    var isDirty: bool
    var isLoading: bool
    var error: Option<string>

    function State(): FileState
      reads this
    {
      FileState(filePath, content, isDirty, isLoading, error)
    }

    constructor ()
      ensures State() == Initial
    {
      filePath, content, isDirty, isLoading, error := None, "", false, false, None;
    }

    method SetContent(c: string)
      modifies this
      ensures content == c && isDirty
      ensures filePath == old(filePath) && isLoading == old(isLoading) && error == old(error)
    {
      content := c;
      isDirty := true;
    }

    method SetFilePath(p: Option<string>)
      modifies this
      ensures filePath == p
      ensures content == old(content) && isDirty == old(isDirty)
      ensures isLoading == old(isLoading) && error == old(error)
    {
      filePath := p;
    }

    method ClearFile()
      modifies this
      ensures filePath == None && content == "" && !isDirty && error == None
      ensures isLoading == old(isLoading)
    {
      filePath := None;
      content := "";
      isDirty := false;
      error := None;
    }

    method MarkSaved()
      modifies this
      ensures !isDirty
      ensures filePath == old(filePath) && content == old(content)
      ensures isLoading == old(isLoading) && error == old(error)
    {
      isDirty := false;
    }

    method OpenFilePending()
      modifies this
      ensures isLoading && error == None
      ensures filePath == old(filePath) && content == old(content) && isDirty == old(isDirty)
    {
      isLoading := true;
      error := None;
    }

    method OpenFileFulfilled(loaded: Option<OpenedFile>)
      modifies this
      ensures !isLoading && error == old(error)
      ensures loaded.Some? ==>
        filePath == Some(loaded.value.filePath) && content == loaded.value.content && !isDirty
      ensures loaded.None? ==>
        filePath == old(filePath) && content == old(content) && isDirty == old(isDirty)
    {
      isLoading := false;
      if loaded.Some? {
        filePath := Some(loaded.value.filePath);
        content := loaded.value.content;
        isDirty := false;
      }
    }

    method OpenFileRejected(message: Option<string>)
      modifies this
      ensures !isLoading
      ensures JsText.Truthy(message) ==> error == message
      ensures !JsText.Truthy(message) ==> error == Some(OpenFailedMessage)
      ensures filePath == old(filePath) && content == old(content) && isDirty == old(isDirty)
    {
      isLoading := false;
      error := Some(JsText.OrElse(message, OpenFailedMessage));
    }

    method SaveFileFulfilled(savedPath: Option<string>)
      modifies this
      ensures JsText.Truthy(savedPath) ==> filePath == savedPath && !isDirty
      ensures !JsText.Truthy(savedPath) ==> filePath == old(filePath) && isDirty == old(isDirty)
      ensures content == old(content) && isLoading == old(isLoading) && error == old(error)
    {
      if JsText.Truthy(savedPath) {
        filePath := savedPath;
        isDirty := false;
      }
    }

    method SaveToPathFulfilled(result: SaveResult)
      modifies this
      ensures result.success ==> !isDirty && error == old(error)
      ensures !result.success && JsText.Truthy(result.error) ==> error == result.error
      ensures !result.success && !JsText.Truthy(result.error) ==> error == Some(SaveFailedMessage)
      ensures !result.success ==> isDirty == old(isDirty)
      ensures filePath == old(filePath) && content == old(content) && isLoading == old(isLoading)
    {
      if result.success {
        isDirty := false;
      } else {
        error := Some(JsText.OrElse(result.error, SaveFailedMessage));
      }
    }

    /** Dispatching an action to the store performs exactly the reducer's transition. */
    method Dispatch(a: FileAction)
      modifies this
      ensures State() == Reduce(old(State()), a)
    {
      match a
      case SetContent(c) => SetContent(c);
      case SetFilePath(p) => SetFilePath(p);
      case ClearFile => ClearFile();
      case MarkSaved => MarkSaved();
      case OpenFilePending => OpenFilePending();
      case OpenFileFulfilled(loaded) => OpenFileFulfilled(loaded);
      case OpenFileRejected(m) => OpenFileRejected(m);
      case SaveFileFulfilled(p) => SaveFileFulfilled(p);
      case SaveToPathFulfilled(r) => SaveToPathFulfilled(r);
      case SaveFilePending =>
      case SaveFileRejected(_) =>
      case SaveToPathPending =>
      case SaveToPathRejected(_) =>
    }
  }

  // ---------------------------------------------------------------------------
  // Properties of the reducer

  /** Setting content always marks the file dirty, even when the text is the same. */
  lemma SetContentMarksDirty(s: FileState, c: string)
    ensures var t := Reduce(s, SetContent(c));
      t.content == c && t.isDirty &&
      t.filePath == s.filePath && t.isLoading == s.isLoading && t.error == s.error
    ensures Reduce(s.(isDirty := false), SetContent(s.content)).isDirty
  {
  }

  /** Clearing resets everything but the loading flag, and clearing twice is clearing once. */
  lemma ClearFileResets(s: FileState)
    ensures Reduce(s, ClearFile) == Initial.(isLoading := s.isLoading)
    ensures Reduce(Reduce(s, ClearFile), ClearFile) == Reduce(s, ClearFile)
  {
  }

  /** A cancelled open only clears the loading flag; a cancelled or empty save path changes nothing. */
  lemma CancelledDialogsChangeNothing(s: FileState, p: Option<string>)
    requires !JsText.Truthy(p)
    ensures Reduce(s, OpenFileFulfilled(None)) == s.(isLoading := false)
    ensures Reduce(s, SaveFileFulfilled(p)) == s
  {
  }

  /** The save requests' pending and rejected phases have no reducer case. */
  lemma UnhandledActionsChangeNothing(s: FileState, m: Option<string>)
    ensures Reduce(s, SaveFilePending) == s
    ensures Reduce(s, SaveFileRejected(m)) == s
    ensures Reduce(s, SaveToPathPending) == s
    ensures Reduce(s, SaveToPathRejected(m)) == s
  {
  }

  /** A rejected open records its message, or the fixed default when there is none. */
  lemma OpenRejectedRecordsError(s: FileState, m: Option<string>)
    ensures var t := Reduce(s, OpenFileRejected(m));
      !t.isLoading && t.error.Some? && t.error.value != "" &&
      (JsText.Truthy(m) ==> t.error == m) &&
      (!JsText.Truthy(m) ==> t.error == Some(OpenFailedMessage))
  {
  }

  /** Dispatching two actions is reducing one after the other. */
  lemma ApplyAllPair(s: FileState, a: FileAction, b: FileAction)
    ensures ApplyAll(s, [a, b]) == Reduce(Reduce(s, a), b)
  {
    assert [a, b][1..] == [b];
    assert ApplyAll(Reduce(s, a), [b]) == ApplyAll(Reduce(Reduce(s, a), b), [b][1..]);
    assert [b][1..] == [];
  }

  /** A full open round: pending then fulfilled with a file leaves a clean, error-free state. */
  lemma OpenRoundLoadsFile(s: FileState, f: OpenedFile)
    ensures ApplyAll(s, [OpenFilePending, OpenFileFulfilled(Some(f))])
      == FileState(Some(f.filePath), f.content, false, false, None)
  {
    ApplyAllPair(s, OpenFilePending, OpenFileFulfilled(Some(f)));
  }

  /**
   * A failed write records its error and keeps the dirty flag; a later successful
   * write clears the dirty flag but leaves the earlier error in place.
   */
  lemma FailedSaveThenSuccessKeepsStaleError(s: FileState, failure: SaveResult, success: SaveResult)
    requires !failure.success && success.success
    ensures var t := Reduce(s, SaveToPathFulfilled(failure));
      t.isDirty == s.isDirty && t.error == Some(JsText.OrElse(failure.error, SaveFailedMessage))
    ensures var u := ApplyAll(s, [SaveToPathFulfilled(failure), SaveToPathFulfilled(success)]);
      !u.isDirty && u.error == Reduce(s, SaveToPathFulfilled(failure)).error && u.error.Some?
  {
    ApplyAllPair(s, SaveToPathFulfilled(failure), SaveToPathFulfilled(success));
  }

  /**
   * The file-opened notification from the application menu dispatches `clearFile`
   * then `setContent`: the path delivered with the notification is dropped and the
   * freshly opened file is reported dirty.
   */
  lemma MenuOpenLeavesFileDirty(s: FileState, data: OpenedFile)
    ensures ApplyAll(s, [ClearFile, SetContent(data.content)])
      == FileState(None, data.content, true, s.isLoading, None)
  {
    ApplyAllPair(s, ClearFile, SetContent(data.content));
  }

  /** Dispatching a sequence then one more action is reducing that action on the sequence's result. */
  lemma {:induction false} ApplyAllSnoc(s: FileState, actions: seq<FileAction>, a: FileAction)
    ensures ApplyAll(s, actions + [a]) == Reduce(ApplyAll(s, actions), a)
    decreases |actions|
  {
    if actions != [] {
      assert (actions + [a])[1..] == actions[1..] + [a];
      ApplyAllSnoc(Reduce(s, actions[0]), actions[1..], a);
    }
  }

  /** Actions after which the file is clean whatever came before. */
  predicate ClearsDirty(a: FileAction) {
    || a == ClearFile
    || a == MarkSaved
    || (a.OpenFileFulfilled? && a.loaded.Some?)
    || (a.SaveFileFulfilled? && JsText.Truthy(a.savedPath))
    || (a.SaveToPathFulfilled? && a.result.success)
  }

  /** Whether an action leaves the dirty flag as it found it. */
  predicate KeepsDirty(a: FileAction) {
    !a.SetContent? && !ClearsDirty(a)
  }

  /** One step of the dirty flag: set by `setContent`, cleared by the clearing actions, otherwise kept. */
  lemma DirtyStep(s: FileState, a: FileAction)
    ensures a.SetContent? ==> Reduce(s, a).isDirty
    ensures ClearsDirty(a) ==> !Reduce(s, a).isDirty
    ensures KeepsDirty(a) ==> Reduce(s, a).isDirty == s.isDirty
  {
  }

  /**
   * After any history, the dirty flag is decided by the last action: true after
   * `setContent`, false after an action that clears it.
   */
  lemma DirtyAfterLastAction(s: FileState, history: seq<FileAction>, last: FileAction)
    ensures last.SetContent? ==> ApplyAll(s, history + [last]).isDirty
    ensures ClearsDirty(last) ==> !ApplyAll(s, history + [last]).isDirty
  {
    ApplyAllSnoc(s, history, last);
    DirtyStep(ApplyAll(s, history), last);
  }

  /**
   * Actions that neither set nor clear the dirty flag keep it: a history made of
   * only such actions leaves it as it was.
   */
  lemma {:induction false} DirtyKeptByNeutralActions(s: FileState, actions: seq<FileAction>)
    requires forall i :: 0 <= i < |actions| ==> KeepsDirty(actions[i])
    ensures ApplyAll(s, actions).isDirty == s.isDirty
    decreases |actions|
  {
    if actions != [] {
      DirtyStep(s, actions[0]);
      DirtyKeptByNeutralActions(Reduce(s, actions[0]), actions[1..]);
    }
  }
}
