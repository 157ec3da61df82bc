/**
 * The decisions of the video drop zone: how a local file path becomes the URL
 * handed to the player, and when each of the three ways of choosing a video
 * (dropping a file, browsing for one, typing a URL) hands a source over at all.
 * The handlers' result is `Some(url)` when they call `onVideoLoaded(url)` and
 * `None` when they do not.
 */
module VideoDropZone {
  import opened Wrappers
  import JsText

  /** The scheme the main process registers for streaming local files; the renderer never builds it. */
  const LocalVideoScheme := "local-video://"

  /** Replaces every backslash by a forward slash. */
  function Normalize(path: string): (n: string)
    ensures |n| == |path|
    ensures forall i :: 0 <= i < |path| ==> n[i] == if path[i] == '\\' then '/' else path[i]
    ensures '\\' !in n
  {
    if path == [] then [] else [if path[0] == '\\' then '/' else path[0]] + Normalize(path[1..])
  }

  /** Normalizing twice is normalizing once; a path without backslashes is left unchanged. */
  lemma NormalizeIdempotent(path: string)
    ensures Normalize(Normalize(path)) == Normalize(path)
    ensures '\\' !in path ==> Normalize(path) == path
  {
    var n := Normalize(path);
    assert forall i :: 0 <= i < |n| ==> n[i] != '\\';
    assert Normalize(n) == n;
    if '\\' !in path {
      assert forall i :: 0 <= i < |path| ==> path[i] != '\\';
    }
  }

  /**
   * The `file:` URL for a local path: separators normalized, then `file://` in front of
   * an absolute path and `file:///` in front of any other. Every result starts with
   * `file:///`, contains no backslash and ends with the normalized path; the shorter
   * prefix is used exactly when the path starts with a separator of either kind.
   */
  function FilePathToUrl(path: string): (url: string)
    ensures |url| == |path| + 7 || |url| == |path| + 8
    ensures |url| == |path| + 7 <==> path != [] && (path[0] == '/' || path[0] == '\\')
    ensures url[..8] == "file:///"
    ensures '\\' !in url
    ensures url[|url| - |path|..] == Normalize(path)
  {
    var normalized := Normalize(path);
    if |normalized| > 0 && normalized[0] == '/' then "file://" + normalized else "file:///" + normalized
  }

  /** A relative path and the same path made absolute give the same URL. */
  lemma RelativeAndAbsoluteShareUrl(path: string)
    requires path == [] || (path[0] != '/' && path[0] != '\\')
    ensures FilePathToUrl(path) == FilePathToUrl("/" + path)
  {
    var n := Normalize("/" + path);
    assert n[0] == '/' && n[1..] == Normalize(path);
    assert "file://" + n == "file:///" + n[1..];
  }

  /** What a dropped item reports: the local path is absent outside the desktop shell. */
  datatype DroppedFile = DroppedFile(path: Option<string>)

  /** `handleDrop`: the first dropped file, when it has a non-empty path, is loaded by URL. */
  function Drop(files: seq<DroppedFile>): (loaded: Option<string>)
    ensures loaded.Some? <==> |files| > 0 && files[0].path.Some? && files[0].path.value != ""
    ensures loaded.Some? ==> loaded.value == FilePathToUrl(files[0].path.value)
  {
    if |files| > 0 && JsText.Truthy(files[0].path) then Some(FilePathToUrl(files[0].path.value)) else None
  }

  /**
   * `handleBrowse`: the path picked in the video dialog, unless cancelled or empty, is loaded by URL.
   * A failed dialog request loads nothing either, the same outcome as `Browse(None)`.
   */
  function Browse(picked: Option<string>): (loaded: Option<string>)
    ensures loaded.Some? <==> picked.Some? && picked.value != ""
    ensures loaded.Some? ==> loaded.value == FilePathToUrl(picked.value)
  {
    if JsText.Truthy(picked) then Some(FilePathToUrl(picked.value)) else None
  }

  /** Local sources are always plain `file:` URLs, never URLs of the `local-video` scheme. */
  lemma LocalSourcesAreFileUrls(files: seq<DroppedFile>, picked: Option<string>)
    ensures Drop(files).Some? ==> Drop(files).value[..8] == "file:///" && '\\' !in Drop(files).value
    ensures Browse(picked).Some? ==> Browse(picked).value[..8] == "file:///" && '\\' !in Browse(picked).value
    ensures Drop(files).Some? ==> !(LocalVideoScheme <= Drop(files).value)
    ensures Browse(picked).Some? ==> !(LocalVideoScheme <= Browse(picked).value)
  {
    if Drop(files).Some? {
      var u := Drop(files).value;
      assert u[0] == 'f' != LocalVideoScheme[0];
    }
    if Browse(picked).Some? {
      var u := Browse(picked).value;
      assert u[0] == 'f' != LocalVideoScheme[0];
    }
  }

  /** `handleUrlLoad`: the typed text, trimmed, is loaded as it is unless nothing but whitespace was typed. */
  function UrlLoad(urlInput: string): (loaded: Option<string>)
    ensures loaded.Some? <==> !JsText.AllWhitespace(urlInput)
    ensures loaded.Some? ==> loaded.value == JsText.Trim(urlInput) && loaded.value != ""
    ensures loaded.Some? ==> !JsText.IsWhitespace(loaded.value[0])
    ensures loaded.Some? ==> !JsText.IsWhitespace(loaded.value[|loaded.value| - 1])
  {
    var url := JsText.Trim(urlInput);
    if url != "" then Some(url) else None
  }

  /** Whether the Load button is disabled for the text typed so far. */
  function LoadButtonDisabled(urlInput: string): (disabled: bool)
    ensures disabled <==> JsText.AllWhitespace(urlInput)
  {
    JsText.Trim(urlInput) == ""
  }

  /** The Load button is enabled exactly when pressing it (or Enter) loads something. */
  lemma LoadButtonMatchesUrlLoad(urlInput: string)
    ensures !LoadButtonDisabled(urlInput) <==> UrlLoad(urlInput).Some?
  {
  }

  /** A typed URL with no surrounding whitespace is passed through unmodified. */
  lemma UrlLoadPassesUrlThrough(url: string)
    requires url != [] && !JsText.IsWhitespace(url[0]) && !JsText.IsWhitespace(url[|url| - 1])
    ensures UrlLoad(url) == Some(url)
  {
    JsText.TrimKeepsTrimmed(url);
  }
}
