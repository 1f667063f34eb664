/** The AeroSpace window manager as the tool sees it through its IPC client
    (aerospace-ipc's AeroSpaceWM). It is an external collaborator: its state
    is abstract, every request it receives is logged, and whether a request
    succeeds is decided by a reply oracle indexed by the request's position
    in the log. */
module WindowManager {
  import opened Types
  import opened Seqs
  import Text

  /** What the window manager knows. `pending` holds focused-workspace
      reports still in flight: a focused-workspace query answers with the
      oldest of them (and drops it) before it answers with
      `focusedWorkspace`. This is how a query can still see the scratchpad
      after a workspace switch was accepted. */
  datatype WmState = WmState(
    windows: seq<Window>,
    focusedWindowId: int,
    focusedWorkspace: string,
    layouts: map<int, string>,
    pending: seq<string>)

  /** The window manager's state together with the log of requests so far. */
  datatype Server = Server(state: WmState, sent: seq<Call>)

  /** A request as performed: the server afterwards and its reply. */
  datatype Exchange = Exchange(server: Server, reply: Reply)

  /** The server after a step of the tool and what that step returned. */
  datatype Step = Step(server: Server, outcome: Outcome)

  /** The workspace a focused-workspace query reports. */
  function ReportedWorkspace(s: WmState): string {
    if s.pending == [] then s.focusedWorkspace else s.pending[0]
  }

  /** The windows the manager lists for workspace `name`, in listing order. */
  function WindowsIn(s: WmState, name: string): seq<Window> {
    KeepIf(s.windows, (w: Window) => w.workspace == name)
  }

  /** The first listed window whose id is the focused id. */
  function FindWindow(windows: seq<Window>, id: int): Option<Window> {
    if windows == [] then None
    else if windows[0].windowId == id then Some(windows[0])
    else FindWindow(windows[1..], id)
  }

  /** The windows with every window selected by `p` moved to `name`. */
  function Relocate(windows: seq<Window>, p: Window -> bool, name: string): seq<Window> {
    seq(|windows|, i requires 0 <= i < |windows| =>
      if p(windows[i]) then windows[i].(workspace := name) else windows[i])
  }

  /** The effect of a request the window manager accepted. Commands whose
      effect depends on what is not modelled (monitors, the tiling tree)
      leave the state as it is. */
  function Effect(s: WmState, c: Call): WmState {
    match c
    case QueryFocusedWorkspace =>
      if s.pending == [] then s else s.(pending := s.pending[1..])
    case FocusWindow(id) => s.(focusedWindowId := id)
    case MoveWindow(id, name) =>
      s.(windows := Relocate(s.windows, (w: Window) => w.windowId == id, name))
    case SetWindowLayout(id, layout) => s.(layouts := s.layouts[id := layout])
    case Raw(command, args) =>
      if command == "workspace" && |args| == 1 then
        s.(focusedWorkspace := args[0])
      else if command == "move-node-to-workspace" && |args| == 4
        && args[1] == "--window-id" && args[3] == "--focus-follows-window" then
        s.(windows := Relocate(s.windows, (w: Window) => Text.Itoa(w.windowId) == args[2], args[0]),
           focusedWorkspace := args[0])
      else s
    case _ => s
  }

  /** Performs request `c`: it is logged, answered by the oracle, and takes
      effect only if it succeeds. */
  function Send(sv: Server, reply: (nat, Call) -> Reply, c: Call): Exchange {
    var rep := reply(|sv.sent|, c);
    Exchange(Server(if Succeeds(rep) then Effect(sv.state, c) else sv.state, sv.sent + [c]), rep)
  }

  /** The error a typed call returns for its reply. */
  function StatusOf(rep: Reply, c: Call): Outcome {
    if Succeeds(rep) then Pass else Fail(Rejected(c))
  }

  /** The answer of a typed window-listing call. */
  function ListingAnswer(windows: seq<Window>, rep: Reply, c: Call): Result<seq<Window>> {
    if Succeeds(rep) then Ok(windows) else Err(Rejected(c))
  }

  /** The answer of GetFocusedWindow: there is no focused window when no
      listed window carries the focused id. */
  function FocusedWindowAnswer(s: WmState, rep: Reply): Result<Window> {
    if !Succeeds(rep) then Err(Rejected(QueryFocusedWindow))
    else match FindWindow(s.windows, s.focusedWindowId)
      case None => Err(Rejected(QueryFocusedWindow))
      case Some(w) => Ok(w)
  }

  /** The answer of GetFocusedWorkspace. */
  function FocusedWorkspaceAnswer(s: WmState, rep: Reply): Result<Workspace> {
    if Succeeds(rep) then Ok(Workspace(ReportedWorkspace(s))) else Err(Rejected(QueryFocusedWorkspace))
  }

  /** The IPC client of the window manager. */
  class AeroSpaceWM {
    var state: WmState
    var sent: seq<Call>
    const reply: (nat, Call) -> Reply

    constructor (initial: WmState, reply: (nat, Call) -> Reply)
      ensures state == initial && sent == [] && this.reply == reply
    {
      state := initial;
      sent := [];
      this.reply := reply;
    }

    function Snapshot(): Server
      reads this
    {
      Server(state, sent)
    }

    method Perform(c: Call) returns (rep: Reply)
      modifies this
      ensures Snapshot() == Send(old(Snapshot()), reply, c).server
      ensures rep == Send(old(Snapshot()), reply, c).reply
    {
      rep := reply(|sent|, c);
      if Succeeds(rep) {
        state := Effect(state, c);
      }
      sent := sent + [c];
    }

    method GetAllWindows() returns (r: Result<seq<Window>>)
      modifies this
      ensures var e := Send(old(Snapshot()), reply, ListAllWindows);
        Snapshot() == e.server && r == ListingAnswer(old(state).windows, e.reply, ListAllWindows)
    {
      var windows := state.windows;
      var rep := Perform(ListAllWindows);
      r := ListingAnswer(windows, rep, ListAllWindows);
    }

    method GetAllWindowsByWorkspace(name: string) returns (r: Result<seq<Window>>)
      modifies this
      ensures var e := Send(old(Snapshot()), reply, ListWorkspaceWindows(name));
        Snapshot() == e.server
        && r == ListingAnswer(WindowsIn(old(state), name), e.reply, ListWorkspaceWindows(name))
    {
      var windows := WindowsIn(state, name);
      var rep := Perform(ListWorkspaceWindows(name));
      r := ListingAnswer(windows, rep, ListWorkspaceWindows(name));
    }

    method GetFocusedWindow() returns (r: Result<Window>)
      modifies this
      ensures var e := Send(old(Snapshot()), reply, QueryFocusedWindow);
        Snapshot() == e.server && r == FocusedWindowAnswer(old(state), e.reply)
    {
      var before := state;
      var rep := Perform(QueryFocusedWindow);
      r := FocusedWindowAnswer(before, rep);
    }

    method GetFocusedWorkspace() returns (r: Result<Workspace>)
      modifies this
      ensures var e := Send(old(Snapshot()), reply, QueryFocusedWorkspace);
        Snapshot() == e.server && r == FocusedWorkspaceAnswer(old(state), e.reply)
    {
      var before := state;
      var rep := Perform(QueryFocusedWorkspace);
      r := FocusedWorkspaceAnswer(before, rep);
    }

    method SetFocusByWindowID(windowId: int) returns (o: Outcome)
      modifies this
      ensures var e := Send(old(Snapshot()), reply, FocusWindow(windowId));
        Snapshot() == e.server && o == StatusOf(e.reply, FocusWindow(windowId))
    {
      var rep := Perform(FocusWindow(windowId));
      o := StatusOf(rep, FocusWindow(windowId));
    }

    method MoveWindowToWorkspace(windowId: int, name: string) returns (o: Outcome)
      modifies this
      ensures var e := Send(old(Snapshot()), reply, MoveWindow(windowId, name));
        Snapshot() == e.server && o == StatusOf(e.reply, MoveWindow(windowId, name))
    {
      var rep := Perform(MoveWindow(windowId, name));
      o := StatusOf(rep, MoveWindow(windowId, name));
    }

    method SetLayout(windowId: int, layout: string) returns (o: Outcome)
      modifies this
      ensures var e := Send(old(Snapshot()), reply, SetWindowLayout(windowId, layout));
        Snapshot() == e.server && o == StatusOf(e.reply, SetWindowLayout(windowId, layout))
    {
      var rep := Perform(SetWindowLayout(windowId, layout));
      o := StatusOf(rep, SetWindowLayout(windowId, layout));
    }

    method CloseConnection() returns (o: Outcome)
      modifies this
      ensures var e := Send(old(Snapshot()), reply, Close);
        Snapshot() == e.server && o == StatusOf(e.reply, Close)
    {
      var rep := Perform(Close);
      o := StatusOf(rep, Close);
    }

    /** The raw escape hatch (Connection().SendCommand): the caller reads the
        exit code itself. */
    method SendCommand(command: string, args: seq<string>) returns (rep: Reply)
      modifies this
      ensures var e := Send(old(Snapshot()), reply, Raw(command, args));
        Snapshot() == e.server && rep == e.reply
    {
      rep := Perform(Raw(command, args));
    }
  }
}
