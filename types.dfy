/** Values shared by every part of the model: windows, the calls the tool makes
    to the window manager, the replies it gets, and the error tags it reports. */
module Types {

  /** Name of the hidden scratchpad workspace (constants.DefaultScratchpadWorkspaceName).
      Its value is deliberately left open: no proof depends on it. */
  const ScratchpadWorkspace: string

  /** The layout a window hidden to the scratchpad is given. */
  const Floating := "floating"

  datatype Option<T> = None | Some(value: T)

  /** A Go `(T, error)` pair where T is meaningless once error is set. */
  datatype Result<T> = Ok(value: T) | Err(error: Error)

  /** A Go `error` return: nil or an error. */
  datatype Outcome = Pass | Fail(error: Error)

  /** A window as listed by the window manager (windows.Window). */
  datatype Window = Window(
    windowId: int,
    appName: string,
    windowTitle: string,
    appBundleId: string,
    workspace: string)

  /** A workspace as reported by the window manager (workspaces.Workspace). */
  datatype Workspace = Workspace(workspace: string)

  /** One request to the window manager: the typed calls of the IPC client and
      the raw `SendCommand` escape hatch. */
  datatype Call =
    | ListAllWindows
    | ListWorkspaceWindows(workspaceName: string)
    | QueryFocusedWindow
    | QueryFocusedWorkspace
    | FocusWindow(windowId: int)
    | MoveWindow(windowId: int, workspaceName: string)
    | SetWindowLayout(windowId: int, layout: string)
    | Close
    | Raw(command: string, args: seq<string>)

  /** How the window manager answers one request: the socket fails, or the
      command runs and exits with a code; `stdoutIsJson` says whether its
      standard output decodes as the JSON the caller expects. */
  datatype Reply =
    | TransportError
    | Exited(exitCode: int, stdoutIsJson: bool)

  /** Error tags, one per distinct failure the source reports. */
  datatype Error =
    | InvalidAppNamePattern(pattern: string)
    | InvalidFilterFormat(token: string)
    | EmptyFilterPart(token: string)
    | InvalidFilterPattern(pattern: string)
    | UnknownFilterProperty(property: string)
    | FilterFailed(appName: string, cause: Error)
    | NoWindowsMatched(pattern: string, withFilters: bool)
    | NoScratchpadWindows
    | InvalidWindowPattern(pattern: string)
    | Rejected(call: Call)
    | TransportFailed(call: Call)
    | NonZeroExit(call: Call)
    | UndecodableOutput(call: Call)
    | NilWindow
    | NilWorkspace
    | MissingSubcommand
    | MissingArguments
    | UnknownSubcommand(name: string)
    | MarkerCreateFailed
    | MarkerStatFailed
    | MarkerRemoveFailed

  /** A typed IPC call succeeds when the command ran and exited with 0. */
  predicate Succeeds(r: Reply) {
    r.Exited? && r.exitCode == 0
  }
}
