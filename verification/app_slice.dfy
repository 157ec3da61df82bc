/**
 * The `app` slice of the renderer's store: the application version and host
 * platform, filled in once at start-up, and the auto-update status that the
 * update notifications keep current.
 */
module AppSlice {
  import opened Wrappers

  datatype AppState = AppState(
    version: string,
    platform: Option<string>,
    updateAvailable: bool,
    updateDownloaded: bool,
    updateProgress: real)

  const Initial := AppState("", None, false, false, 0.0)

  /**
   * Every action the slice receives. `initializeApp` is settled with the version and
   * platform reported by the main process; its pending and rejected phases have no
   * case in the slice and change nothing.
   */
  datatype AppAction =
    | SetUpdateAvailable(available: bool)
    | SetUpdateDownloaded(downloaded: bool)
    | SetUpdateProgress(percent: real)
    | InitializeAppPending
    | InitializeAppFulfilled(newVersion: string, newPlatform: string)
    | InitializeAppRejected(message: Option<string>)

  /** The slice's reducer: the state after one action. */
  function Reduce(s: AppState, a: AppAction): AppState {
    match a
    case SetUpdateAvailable(b) => s.(updateAvailable := b)
    case SetUpdateDownloaded(b) => s.(updateDownloaded := b)
    case SetUpdateProgress(p) => s.(updateProgress := p)
    case InitializeAppFulfilled(v, p) => s.(version := v, platform := Some(p))
    case InitializeAppPending => s
    case InitializeAppRejected(_) => s
  }

  /** The state after dispatching the actions in order. */
  function ApplyAll(s: AppState, actions: seq<AppAction>): AppState
    decreases |actions|
  {
    if actions == [] then s else ApplyAll(Reduce(s, actions[0]), actions[1..])
  }

  /** The store holding the slice; each method is one reducer case updating the fields in place. */
  class AppStore {
    var version: string
    var platform: Option<string>
    var updateAvailable: bool
    var updateDownloaded: bool
    var updateProgress: real

    function State(): AppState
      reads this
    {
      AppState(version, platform, updateAvailable, updateDownloaded, updateProgress)
    }

    constructor ()
      ensures State() == Initial
    {
      version, platform := "", None;
      updateAvailable, updateDownloaded, updateProgress := false, false, 0.0;
    }

    method SetUpdateAvailable(b: bool)
      modifies this
      ensures updateAvailable == b
      ensures version == old(version) && platform == old(platform)
      ensures updateDownloaded == old(updateDownloaded) && updateProgress == old(updateProgress)
    {
      updateAvailable := b;
    }

    method SetUpdateDownloaded(b: bool)
      modifies this
      ensures updateDownloaded == b
      ensures version == old(version) && platform == old(platform)
      ensures updateAvailable == old(updateAvailable) && updateProgress == old(updateProgress)
    {
      updateDownloaded := b;
    }

    method SetUpdateProgress(p: real)
      modifies this
      ensures updateProgress == p
      ensures version == old(version) && platform == old(platform)
      ensures updateAvailable == old(updateAvailable) && updateDownloaded == old(updateDownloaded)
    {
      updateProgress := p;
    }

    method InitializeAppFulfilled(v: string, p: string)
      modifies this
      ensures version == v && platform == Some(p)
      ensures updateAvailable == old(updateAvailable) && updateDownloaded == old(updateDownloaded)
      ensures updateProgress == old(updateProgress)
    {
      version := v;
      platform := Some(p);
    }

    /** Dispatching an action to the store performs exactly the reducer's transition. */
    method Dispatch(a: AppAction)
      modifies this
      ensures State() == Reduce(old(State()), a)
    {
      match a
      case SetUpdateAvailable(b) => SetUpdateAvailable(b);
      case SetUpdateDownloaded(b) => SetUpdateDownloaded(b);
      case SetUpdateProgress(p) => SetUpdateProgress(p);
      case InitializeAppFulfilled(v, p) => InitializeAppFulfilled(v, p);
      case InitializeAppPending =>
      case InitializeAppRejected(_) =>
    }
  }

  // ---------------------------------------------------------------------------
  // Properties of the reducer

  /** Each setter stores its payload verbatim and touches no other field. */
  lemma SettersTouchOneField(s: AppState, b: bool, p: real)
    ensures Reduce(s, SetUpdateAvailable(b)) == s.(updateAvailable := b)
    ensures Reduce(s, SetUpdateDownloaded(b)) == s.(updateDownloaded := b)
    ensures Reduce(s, SetUpdateProgress(p)) == s.(updateProgress := p)
  {
  }

  /** Nothing in the reducer forbids a reset or a decreasing progress value. */
  lemma ReducerAllowsResets(s: AppState, p: real)
    requires s.updateAvailable && s.updateDownloaded && p < s.updateProgress
    ensures !Reduce(s, SetUpdateAvailable(false)).updateAvailable
    ensures !Reduce(s, SetUpdateDownloaded(false)).updateDownloaded
    ensures Reduce(s, SetUpdateProgress(p)).updateProgress < s.updateProgress
  {
  }

  /** Start-up fills in version and platform and leaves the update status alone. */
  lemma InitializeKeepsUpdateStatus(s: AppState, v: string, p: string, m: Option<string>)
    ensures var t := Reduce(s, InitializeAppFulfilled(v, p));
      t.version == v && t.platform == Some(p) &&
      t.updateAvailable == s.updateAvailable && t.updateDownloaded == s.updateDownloaded &&
      t.updateProgress == s.updateProgress
    ensures Reduce(s, InitializeAppPending) == s && Reduce(s, InitializeAppRejected(m)) == s
  {
  }

  /** The discipline of the update notification handlers: the two flags are only ever set to true. */
  predicate RaisesOnly(actions: seq<AppAction>) {
    forall i :: 0 <= i < |actions| ==>
      actions[i] != SetUpdateAvailable(false) && actions[i] != SetUpdateDownloaded(false)
  }

  /**
   * Under that discipline the flags are monotone: after the actions a flag is set
   * exactly when it was set before or some action set it.
   */
  lemma {:induction false} FlagsMonotoneUnderDiscipline(s: AppState, actions: seq<AppAction>)
    requires RaisesOnly(actions)
    ensures ApplyAll(s, actions).updateAvailable
      <==> s.updateAvailable || SetUpdateAvailable(true) in actions
    ensures ApplyAll(s, actions).updateDownloaded
      <==> s.updateDownloaded || SetUpdateDownloaded(true) in actions
    decreases |actions|
  {
    if actions != [] {
      assert forall a :: a in actions <==> a == actions[0] || a in actions[1..];
      FlagsMonotoneUnderDiscipline(Reduce(s, actions[0]), actions[1..]);
    }
  }

  /** The update notifications the renderer listens to. */
  datatype UpdateEvent =
    | UpdateAvailable
    | UpdateDownloaded
    | UpdateProgress(percent: real)

  /** The action each update notification dispatches. */
  function ActionFor(e: UpdateEvent): (a: AppAction)
    ensures a != SetUpdateAvailable(false) && a != SetUpdateDownloaded(false)
    ensures e.UpdateProgress? <==> a.SetUpdateProgress?
    ensures e.UpdateProgress? ==> a == SetUpdateProgress(e.percent)
  {
    match e
    case UpdateAvailable => SetUpdateAvailable(true)
    case UpdateDownloaded => SetUpdateDownloaded(true)
    case UpdateProgress(p) => SetUpdateProgress(p)
  }

  function ActionsFor(events: seq<UpdateEvent>): (actions: seq<AppAction>)
    ensures |actions| == |events|
    ensures forall i :: 0 <= i < |events| ==> actions[i] == ActionFor(events[i])
  {
    if events == [] then [] else [ActionFor(events[0])] + ActionsFor(events[1..])
  }

  /**
   * However the update notifications arrive, once a flag is set it stays set, and it
   * is set exactly when its notification has been received (or it was set already).
   */
  lemma NotificationsNeverResetFlags(s: AppState, events: seq<UpdateEvent>)
    ensures ApplyAll(s, ActionsFor(events)).updateAvailable
      <==> s.updateAvailable || UpdateAvailable in events
    ensures ApplyAll(s, ActionsFor(events)).updateDownloaded
      <==> s.updateDownloaded || UpdateDownloaded in events
  {
    var actions := ActionsFor(events);
    FlagsMonotoneUnderDiscipline(s, actions);
    assert SetUpdateAvailable(true) in actions <==> UpdateAvailable in events by {
      if UpdateAvailable in events {
        var i :| 0 <= i < |events| && events[i] == UpdateAvailable;
        assert actions[i] == SetUpdateAvailable(true);
      }
    }
    assert SetUpdateDownloaded(true) in actions <==> UpdateDownloaded in events by {
      if UpdateDownloaded in events {
        var i :| 0 <= i < |events| && events[i] == UpdateDownloaded;
        assert actions[i] == SetUpdateDownloaded(true);
      }
    }
  }
}
