/** internal/aerospace/mover.go: sending a window to the scratchpad and
    bringing one back. The mover talks to the window manager directly, so
    it has no dry-run mode. */
module Mover {
  import opened Types
  import opened WindowManager

  /** MoveWindowToScratchpad as a function of the server: move the window
      to the scratchpad, then make it float; a layout failure is only a
      warning. */
  function ToScratchpad(sv: Server, reply: (nat, Call) -> Reply, window: Window): Step {
    var move := MoveWindow(window.windowId, ScratchpadWorkspace);
    var moved := Send(sv, reply, move);
    if !Succeeds(moved.reply) then Step(moved.server, Fail(Rejected(move)))
    else Step(Send(moved.server, reply, SetWindowLayout(window.windowId, Floating)).server, Pass)
  }

  /** Hiding a window sends the move and, only after the move succeeded,
      the floating layout; it fails exactly when the move fails. When both
      are accepted the window (every window with its id) sits on the
      scratchpad and floats, and every other window stays where it was. */
  lemma ToScratchpadSpec(sv: Server, reply: (nat, Call) -> Reply, window: Window)
    ensures var move := MoveWindow(window.windowId, ScratchpadWorkspace);
      var layout := SetWindowLayout(window.windowId, Floating);
      var moveOk := Succeeds(reply(|sv.sent|, move));
      var st := ToScratchpad(sv, reply, window);
      && st.server.sent == sv.sent + [move] + (if moveOk then [layout] else [])
      && (st.outcome.Pass? <==> moveOk)
      && (st.outcome.Fail? ==> st.outcome.error == Rejected(move) && st.server.state == sv.state)
      && (moveOk ==>
            && |st.server.state.windows| == |sv.state.windows|
            && forall i :: 0 <= i < |sv.state.windows| ==>
                 st.server.state.windows[i].workspace ==
                   if sv.state.windows[i].windowId == window.windowId then ScratchpadWorkspace
                   else sv.state.windows[i].workspace)
      && (moveOk && Succeeds(reply(|sv.sent| + 1, layout)) ==>
            st.server.state.layouts == sv.state.layouts[window.windowId := Floating])
  {
  }

  /** MoveWindowToWorkspace as a function of the server. Go's nil pointers
      are the absent options. */
  function ToWorkspace(sv: Server, reply: (nat, Call) -> Reply, window: Option<Window>,
                       workspace: Option<Workspace>, shouldSetFocus: bool): Step {
    if window.None? then Step(sv, Fail(NilWindow))
    else if workspace.None? then Step(sv, Fail(NilWorkspace))
    else
      var move := MoveWindow(window.value.windowId, workspace.value.workspace);
      var moved := Send(sv, reply, move);
      if !Succeeds(moved.reply) then Step(moved.server, Fail(Rejected(move)))
      else if !shouldSetFocus then Step(moved.server, Pass)
      else
        var focus := FocusWindow(window.value.windowId);
        var focused := Send(moved.server, reply, focus);
        Step(focused.server, StatusOf(focused.reply, focus))
  }

  /** Bringing a window back: a nil window or workspace sends nothing; the
      focus request is sent only when asked for and only after the move was
      accepted; the layout is never touched; success means every request
      sent was accepted, and then the window is on the workspace and, if
      asked, focused. */
  lemma ToWorkspaceSpec(sv: Server, reply: (nat, Call) -> Reply, window: Option<Window>,
                        workspace: Option<Workspace>, shouldSetFocus: bool)
    ensures var st := ToWorkspace(sv, reply, window, workspace, shouldSetFocus);
      && (window.None? ==> st == Step(sv, Fail(NilWindow)))
      && (window.Some? && workspace.None? ==> st == Step(sv, Fail(NilWorkspace)))
      && (window.Some? && workspace.Some? ==>
            var move := MoveWindow(window.value.windowId, workspace.value.workspace);
            var focus := FocusWindow(window.value.windowId);
            var moveOk := Succeeds(reply(|sv.sent|, move));
            var focusOk := Succeeds(reply(|sv.sent| + 1, focus));
            && st.server.sent == sv.sent + [move] + (if moveOk && shouldSetFocus then [focus] else [])
            && (st.outcome.Pass? <==> moveOk && (shouldSetFocus ==> focusOk))
            && (!moveOk ==> st.outcome == Fail(Rejected(move)))
            && st.server.state.layouts == sv.state.layouts
            && (st.outcome.Pass? ==>
                  && (forall i :: 0 <= i < |st.server.state.windows| ==>
                        st.server.state.windows[i].windowId == window.value.windowId ==>
                        st.server.state.windows[i].workspace == workspace.value.workspace)
                  && (shouldSetFocus ==> st.server.state.focusedWindowId == window.value.windowId)))
  {
  }

  class MoverAeroSpace {
    const aerospace: AeroSpaceWM

    /** NewAeroSpaceMover. */
    constructor (aerospace: AeroSpaceWM)
      ensures this.aerospace == aerospace
    {
      this.aerospace := aerospace;
    }

    method MoveWindowToScratchpad(window: Window) returns (o: Outcome)
      modifies aerospace
      ensures var st := ToScratchpad(old(aerospace.Snapshot()), aerospace.reply, window);
        aerospace.Snapshot() == st.server && o == st.outcome
    {
      o := aerospace.MoveWindowToWorkspace(window.windowId, ScratchpadWorkspace);
      if o.Fail? {
        return o;
      }
      var layout := aerospace.SetLayout(window.windowId, Floating);
      return Pass;
    }

    method MoveWindowToWorkspace(window: Option<Window>, workspace: Option<Workspace>, shouldSetFocus: bool)
      returns (o: Outcome)
      modifies aerospace
      ensures var st := ToWorkspace(old(aerospace.Snapshot()), aerospace.reply, window, workspace, shouldSetFocus);
        aerospace.Snapshot() == st.server && o == st.outcome
    {
      if window.None? {
        return Fail(NilWindow);
      }
      if workspace.None? {
        return Fail(NilWorkspace);
      }
      o := aerospace.MoveWindowToWorkspace(window.value.windowId, workspace.value.workspace);
      if o.Fail? {
        return o;
      }
      if shouldSetFocus {
        o := aerospace.SetFocusByWindowID(window.value.windowId);
        if o.Fail? {
          return o;
        }
      }
      return Pass;
    }
  }
}
