/** internal/aerospace/workspace.go: read-only membership questions. Each
    takes the window manager's answer to the query it makes and returns Go's
    `(bool, error)` pair. */
module Workspaces {
  import opened Types

  /** A Go `(bool, error)` result. */
  datatype Checked = Checked(holds: bool, err: Option<Error>)

  /** Linear search: does some listed window have this id? */
  function HasWindow(windows: seq<Window>, windowId: int): (r: bool)
    ensures r <==> exists i :: 0 <= i < |windows| && windows[i].windowId == windowId
  {
    if windows == [] then false
    else windows[0].windowId == windowId || HasWindow(windows[1..], windowId)
  }

  /** IsWindowInWorkspace, given the answer to "list the windows of that
      workspace": true exactly when a listed window has the id, and
      (false, error) when the listing failed. */
  function IsWindowInWorkspace(listing: Result<seq<Window>>, windowId: int): (r: Checked)
    ensures listing.Err? ==> !r.holds && r.err.Some?
    ensures listing.Ok? ==>
      r.err.None? && (r.holds <==> exists w :: w in listing.value && w.windowId == windowId)
  {
    match listing
    case Err(e) => Checked(false, Some(e))
    case Ok(windows) =>
      var found := HasWindow(windows, windowId);
      assert found ==> exists w :: w in windows && w.windowId == windowId by {
        if found {
          var i :| 0 <= i < |windows| && windows[i].windowId == windowId;
          assert windows[i] in windows;
        }
      }
      Checked(found, None)
  }

  /** IsWindowInFocusedWorkspace, given the answer to "which workspace is
      focused" and the manager's listing of any workspace: the membership
      question for the focused workspace, or (false, error) when the focused
      workspace is unknown. */
  function IsWindowInFocusedWorkspace(
    focused: Result<Workspace>,
    listings: string -> Result<seq<Window>>,
    windowId: int
  ): (r: Checked)
    ensures focused.Err? ==> !r.holds && r.err == Some(focused.error)
    ensures focused.Ok? ==> r == IsWindowInWorkspace(listings(focused.value.workspace), windowId)
  {
    match focused
    case Err(e) => Checked(false, Some(e))
    case Ok(ws) => IsWindowInWorkspace(listings(ws.workspace), windowId)
  }

  /** IsWindowFocused, given the answer to "which window is focused": true
      exactly when its id is the argument. */
  function IsWindowFocused(focused: Result<Window>, windowId: int): (r: Checked)
    ensures focused.Err? ==> !r.holds && r.err == Some(focused.error)
    ensures focused.Ok? ==> r.err.None? && (r.holds <==> focused.value.windowId == windowId)
  {
    match focused
    case Err(e) => Checked(false, Some(e))
    case Ok(w) => Checked(w.windowId == windowId, None)
  }
}
