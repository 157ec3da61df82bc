# manucapel: renderer state and video-source model

A Dafny model of the renderer logic the manucapel desktop shell implements itself:

- the **file slice** of the Redux store (`src/store/slices/fileSlice.ts`): the open
  file's path, text, dirty flag, loading flag and error, changed by the four
  synchronous reducers and by the pending, fulfilled and rejected phases of the `openFile`, `saveFile` and
  `saveToPath` requests;
- the **app slice** (`src/store/slices/appSlice.ts`): version, platform and the
  auto-update status;
- the **video drop zone** (`src/VideoDropZone.tsx`): turning a local path into a
  `file:` URL, and deciding when dropping, browsing or typing a URL hands a source to
  the player.

Each slice is a pure reducer `Reduce(state, action)` with `ApplyAll` for a sequence of
dispatches, and a store class (`FileStore`, `AppStore`) whose fields the reducer cases
update in place, one method per case; each store's `Dispatch` is proved to perform
exactly the reducer's transition. The lemmas about `Reduce` and `ApplyAll` state what
the slices promise. The drop zone is pure functions returning `Some(url)` when the
handler calls `onVideoLoaded(url)` and `None` when it does not. `JsText` holds the
JavaScript semantics the code leans on: `String.prototype.trim`, the truthiness of a
`string | null`, and `x || 'default'`.

Behaviours of the code worth noting:

- a fulfilled open does not clear the error (only the pending phase does);
- the reducer lets both update flags go back to false; they are monotone only because
  the update notification handlers in `src/App.tsx` dispatch `true` alone
  (`AppSlice.FlagsMonotoneUnderDiscipline`, `AppSlice.NotificationsNeverResetFlags`);
- local videos reach the player as `file:` URLs, not URLs of the registered
  `local-video` scheme (`VideoDropZone.LocalSourcesAreFileUrls`);
- a file opened through the menu is left dirty with no path (`FileSlice.MenuOpenLeavesFileDirty`).

## Model

| member | source | states |
|---|---|---|
| FileSlice.FileStore.constructor | src/store/slices/fileSlice.ts:11-17 | the store starts with no path, empty content, not dirty, not loading, no error |
| FileSlice.FileStore.SetContent | src/store/slices/fileSlice.ts:47-50 | content becomes the payload and the file is dirty; path, loading and error are unchanged |
| FileSlice.FileStore.SetFilePath | src/store/slices/fileSlice.ts:51-53 | only the path changes, to the payload (which may be null) |
| FileSlice.FileStore.ClearFile | src/store/slices/fileSlice.ts:54-59 | path null, content empty, not dirty, no error; loading untouched |
| FileSlice.FileStore.MarkSaved | src/store/slices/fileSlice.ts:60-62 | only the dirty flag changes, to false |
| FileSlice.FileStore.OpenFilePending | src/store/slices/fileSlice.ts:66-69 | loading set, error cleared, file fields unchanged |
| FileSlice.FileStore.OpenFileFulfilled | src/store/slices/fileSlice.ts:70-77 | loading always cleared and error kept; a file replaces path and content and clears dirty; a cancelled dialog keeps path, content and dirty |
| FileSlice.FileStore.OpenFileRejected | src/store/slices/fileSlice.ts:78-81 | loading cleared; error is the message, or "Failed to open file" when it is absent or empty; file fields unchanged |
| FileSlice.FileStore.SaveFileFulfilled | src/store/slices/fileSlice.ts:82-87 | a non-empty chosen path becomes the path and clears dirty; null or empty changes nothing |
| FileSlice.FileStore.SaveToPathFulfilled | src/store/slices/fileSlice.ts:88-94 | success clears dirty and keeps the old error; failure records the error or "Failed to save file" and keeps dirty |
| FileSlice.FileStore.Dispatch | src/store/slices/fileSlice.ts:43-96 | every action, including those with no case, changes the store exactly as the reducer says |
| FileSlice.SetContentMarksDirty | src/store/slices/fileSlice.ts:47-50 | setting content marks dirty even when the text is identical (no diffing) and leaves the other fields |
| FileSlice.ClearFileResets | src/store/slices/fileSlice.ts:54-59 | clearing yields the initial state except for the loading flag, and is idempotent |
| FileSlice.CancelledDialogsChangeNothing | src/store/slices/fileSlice.ts:70-87 | a cancelled open only clears loading; a null or empty saved path leaves the state unchanged |
| FileSlice.UnhandledActionsChangeNothing | src/store/slices/fileSlice.ts:64-95 | the pending and rejected phases of both save requests leave the state unchanged |
| FileSlice.OpenRejectedRecordsError | src/store/slices/fileSlice.ts:78-81 | a rejected open always leaves a non-empty error: the message if truthy, else the default |
| FileSlice.OpenRoundLoadsFile | src/store/slices/fileSlice.ts:66-77 | pending then a fulfilled open gives exactly the opened file, clean, not loading, no error |
| FileSlice.FailedSaveThenSuccessKeepsStaleError | src/store/slices/fileSlice.ts:88-94 | a failed write records its error and keeps dirty; a later successful write clears dirty but the stale error persists |
| FileSlice.MenuOpenLeavesFileDirty | src/App.tsx:29-32 | the menu's file-opened handler (clear then set content) yields the new content with no path, dirty, no error |
| FileSlice.DirtyStep | src/store/slices/fileSlice.ts:47-94 | one step of the dirty flag: set by setContent, cleared by the clearing actions, otherwise kept |
| FileSlice.DirtyAfterLastAction | src/store/slices/fileSlice.ts:47-94 | after any history ending in setContent the file is dirty; ending in a clearing action it is clean |
| FileSlice.DirtyKeptByNeutralActions | src/store/slices/fileSlice.ts:64-95 | a history of actions that neither set nor clear the flag leaves it as it was |
| AppSlice.AppStore.constructor | src/store/slices/appSlice.ts:11-17 | empty version, no platform, both flags false, progress 0 |
| AppSlice.AppStore.SetUpdateAvailable | src/store/slices/appSlice.ts:34-36 | the flag becomes the payload exactly; no other field changes |
| AppSlice.AppStore.SetUpdateDownloaded | src/store/slices/appSlice.ts:37-39 | the flag becomes the payload exactly; no other field changes |
| AppSlice.AppStore.SetUpdateProgress | src/store/slices/appSlice.ts:40-42 | progress is stored verbatim; no other field changes |
| AppSlice.AppStore.InitializeAppFulfilled | src/store/slices/appSlice.ts:45-48 | version and platform come from the payload; the update fields are untouched |
| AppSlice.AppStore.Dispatch | src/store/slices/appSlice.ts:30-50 | every action changes the store exactly as the reducer says |
| AppSlice.SettersTouchOneField | src/store/slices/appSlice.ts:34-42 | each setter changes exactly its own field to the payload |
| AppSlice.ReducerAllowsResets | src/store/slices/appSlice.ts:34-42 | the reducer itself lets both flags fall back to false and progress decrease |
| AppSlice.InitializeKeepsUpdateStatus | src/store/slices/appSlice.ts:44-48 | start-up sets version and platform only; its pending and rejected phases change nothing |
| AppSlice.FlagsMonotoneUnderDiscipline | src/store/slices/appSlice.ts:34-39 | over actions that never set a flag to false, a flag ends set iff it was set or some action set it |
| AppSlice.ActionFor | src/App.tsx:38-48 | the update notification handlers never dispatch false; only the progress event sets progress |
| AppSlice.NotificationsNeverResetFlags | src/App.tsx:38-48 | after any sequence of update notifications a flag is set iff it was set or its notification arrived |
| JsText.Trim | src/VideoDropZone.tsx:43 | trim removes exactly the maximal whitespace prefix and suffix; empty result iff the input is all whitespace |
| JsText.TrimIdempotent | src/VideoDropZone.tsx:43 | trimming a trimmed string changes nothing |
| VideoDropZone.Normalize | src/VideoDropZone.tsx:10 | each backslash becomes a slash one-for-one: same length, other characters in place, no backslash left |
| VideoDropZone.NormalizeIdempotent | src/VideoDropZone.tsx:10 | normalizing is idempotent and the identity on paths without backslashes |
| VideoDropZone.FilePathToUrl | src/VideoDropZone.tsx:9-12 | the URL starts with file:///, has no backslash, ends with the normalized path, and is 7 characters longer exactly when the path starts with a separator, else 8 |
| VideoDropZone.RelativeAndAbsoluteShareUrl | src/VideoDropZone.tsx:11 | a path without a leading separator and the same path with one map to the same URL |
| VideoDropZone.Drop | src/VideoDropZone.tsx:18-28 | loads iff the first dropped file has a non-empty path, and then with that path's file URL |
| VideoDropZone.Browse | src/VideoDropZone.tsx:35-40 | loads iff the dialog returned a non-empty path, and then with that path's file URL |
| VideoDropZone.LocalSourcesAreFileUrls | src/VideoDropZone.tsx:18-40 | local sources are file:/// URLs without backslashes, never local-video:// URLs |
| VideoDropZone.UrlLoad | src/VideoDropZone.tsx:42-47 | loads iff the input is not all whitespace, and then with the trimmed, non-empty text |
| VideoDropZone.LoadButtonDisabled | src/VideoDropZone.tsx:128 | the Load button is disabled iff the input is all whitespace |
| VideoDropZone.LoadButtonMatchesUrlLoad | src/VideoDropZone.tsx:128 | the button is enabled exactly when loading would hand a URL over |
| VideoDropZone.UrlLoadPassesUrlThrough | src/VideoDropZone.tsx:42-47 | a typed URL without surrounding whitespace is passed through unmodified |

## Left out

- The request bodies behind `openFile`, `saveFile`, `saveToPath` and `initializeApp`: they only await the main process; their outcomes enter the model as action payloads (a value, null for a cancelled dialog, or a rejection with an optional message).
- The main process (`electron/main.ts`): native dialogs, file reads and writes, IPC handlers, menus, the update event relay, the `local-video` protocol handler and process-level error handling are I/O and framework plumbing.
- The preload bridge (`electron/preload.ts`): listener registration and removal is Electron's behaviour, not this code's.
- React wiring (`src/App.tsx` beyond the two handler groups modelled, `src/main.tsx`, `src/store/index.ts`), the drop zone's UI state (`isDragging`, the text field's state, styling) and the test fixture component `src/TestApp.tsx`.
- `updateProgress` is a JavaScript number; it is modelled as a `real`, so NaN and the infinities are not represented (no arithmetic is done on it).
- The platform identifier is modelled as an arbitrary string rather than Node's closed set of platform names.
- Strings are sequences of Unicode scalar values; JavaScript strings are UTF-16, so unpaired surrogates are not represented.
