# aerospace-scratchpad, modelled in Dafny

aerospace-scratchpad adds an i3/sway-style scratchpad to the AeroSpace tiling
window manager. A reserved workspace holds hidden windows. The tool hides
windows there, summons windows by app name, and reconciles focus changes
from the window manager's hooks. This project models the decision and
sequencing logic of its core against an abstract window manager. It then
proves what each command sends, in which order, and what it leaves behind.

The model has these parts:

- **The window manager** (`window_manager.dfy`):
  - class `AeroSpaceWM` holds a `WmState` (windows, focused window id, focused workspace, layouts, and focused-workspace reports still in flight) and the log `sent` of every request;
  - an oracle `reply(position, request)` decides how the manager answers each request: a transport error, or an exit code plus whether stdout was JSON;
  - accepted requests change the state through `Effect`;
  - every operation is a method whose `ensures` ties the new snapshot to the pure function `Send`.
- **The dry-run facade** (`client.dfy`, internal/aerospace/client.go): class `AeroSpaceClient` with its `dryRun` field.
- **Membership queries** (`workspace.dfy`, internal/aerospace/workspace.go).
- **Filter engine and window selector** (`querier.dfy`, internal/aerospace/querier.go): the `parseFilters` and `applyFilters` loops and the loop of `GetFilteredWindows`, each a method proved equal to a recursive specification function.
- **Mover** (`mover.dfy`, internal/aerospace/mover.go).
- **Summon** (`summon.dfy`, cmd/summon.go): the `Run` body, a method with a loop invariant.
- **Workspace-change reconciler** (`workspace_handler.dfy`, cmd/workspace-handler.go):
  - the marker file is class `MovingMarker`: a boolean plus the file operations that fail;
  - the focused-workspace poll is a `while` loop proved equal to `Retry`.
- **Library stand-ins**:
  - `text.dfy`: `strings.TrimSpace` with Go's Unicode space set, the split on the first `=`, `strconv.Itoa`, and order-preserving filtering;
  - `regexp.dfy`: Go's `regexp`, kept abstract as `Engine(compiles, matches)`.

The scratchpad workspace name is the opaque constant `Types.ScratchpadWorkspace`.

## Model

| member | source | states |
|---|---|---|
| Seqs.KeepIf | internal/aerospace/querier.go:137-156 | the order-preserving subsequence: no longer than the input, and an element is kept iff it satisfies the predicate |
| Seqs.KeepIfHead | internal/aerospace/querier.go:80-94 | the first kept element is the first element of the input that satisfies the predicate |
| Text.TrimSpace | cmd/summon.go:34 | the result is a slice of the input that neither starts nor ends with a space; if the input is all spaces, the result is empty |
| Text.TrimSpaceIdempotent | cmd/summon.go:34 | trimming twice is trimming once |
| Text.SplitFirst | internal/aerospace/querier.go:179-182 | no `=` means no split; otherwise the prefix has no `=` and prefix + `=` + rest is the token |
| Text.SplitFirstUnique | internal/aerospace/querier.go:179-182 | a token built as before + `=` + after, with no `=` in before, splits into exactly those halves, whatever `=` after contains |
| Text.ItoaInjective | cmd/workspace-handler.go:353 | distinct window ids have distinct decimal texts |
| Regexp.Compile | internal/aerospace/querier.go:109-122 | compilation succeeds exactly when the engine accepts the expression, and keeps the expression |
| Workspaces.HasWindow | internal/aerospace/workspace.go:37-44 | the linear search is true iff some listed window has the id |
| Workspaces.IsWindowInWorkspace | internal/aerospace/workspace.go:30-45 | a failed listing gives (false, error); otherwise no error, and true iff some listed window has the id |
| Workspaces.IsWindowInFocusedWorkspace | internal/aerospace/workspace.go:47-56 | a focused-workspace error gives (false, that error); otherwise it equals IsWindowInWorkspace on the focused workspace's listing |
| Workspaces.IsWindowFocused | internal/aerospace/workspace.go:58-67 | a query error gives (false, that error); otherwise no error, and true iff the focused id is the argument |
| WindowManager.AeroSpaceWM.SendCommand | internal/aerospace/client.go:128-130 | a raw command is logged and answered by the oracle; the state changes only if it is accepted |
| Client.FocusNextFallback | internal/aerospace/client.go:64-93 | `dfs-next` is sent first; `dfs-prev` is sent only when `dfs-next` failed to send or exited non-zero; the fallback fails iff both fail |
| Client.AeroSpaceClient.constructor | internal/aerospace/client.go:27-32 | a new facade wraps the given manager with dry-run off |
| Client.AeroSpaceClient.SetOptions | internal/aerospace/client.go:35-37 | dry-run becomes the option's value; the manager is untouched |
| Client.AeroSpaceClient.GetAllWindows | internal/aerospace/client.go:40-42 | the read goes to the manager whatever dry-run is |
| Client.AeroSpaceClient.GetAllWindowsByWorkspace | internal/aerospace/client.go:44-48 | the read goes to the manager whatever dry-run is; the answer is the windows on that workspace |
| Client.AeroSpaceClient.GetFocusedWindow | internal/aerospace/client.go:50-52 | the read goes to the manager whatever dry-run is |
| Client.AeroSpaceClient.GetFocusedWorkspace | internal/aerospace/client.go:95-97 | the read goes to the manager whatever dry-run is |
| Client.AeroSpaceClient.SetFocusByWindowID | internal/aerospace/client.go:54-60 | in dry-run: success, manager unchanged; otherwise the focus request is sent as is and its status returned |
| Client.AeroSpaceClient.FocusNextTilingWindow | internal/aerospace/client.go:64-93 | in dry-run nothing is sent; otherwise the dfs-next/dfs-prev fallback |
| Client.AeroSpaceClient.MoveWindowToWorkspace | internal/aerospace/client.go:99-113 | in dry-run: success, manager unchanged; otherwise the move is sent with the same arguments and its status returned |
| Client.AeroSpaceClient.SetLayout | internal/aerospace/client.go:115-126 | in dry-run: success, manager unchanged; otherwise the layout request is sent and its status returned |
| Client.AeroSpaceClient.CloseConnection | internal/aerospace/client.go:132-138 | in dry-run: success, manager unchanged; otherwise the close is sent and its status returned |
| Querier.ParseFilter | internal/aerospace/querier.go:176-200 | a token without `=` is InvalidFilterFormat; a success has a non-empty property and a non-empty, compilable pattern |
| Querier.ParseFilterSplit | internal/aerospace/querier.go:179-194 | the exact result for before + `=` + after: EmptyFilterPart if either trimmed half is empty, else InvalidFilterPattern if the trimmed pattern does not compile, else the filter of the trimmed halves (later `=` stay in the pattern) |
| Querier.ParseAllSpec | internal/aerospace/querier.go:175-203 | parsing succeeds iff every token parses; a success has one filter per token, in token order; a failure is the error of the first token that fails (all-or-nothing) |
| Querier.ParseFilters | internal/aerospace/querier.go:175-203 | the loop computes ParseAll |
| Querier.VerdictAllPass | internal/aerospace/querier.go:206-240 | a window that passes every filter (known property, matching value) is accepted; no filters accepts |
| Querier.VerdictFirstFailing | internal/aerospace/querier.go:213-232 | the first filter that does not pass decides: an unknown property is UnknownFilterProperty, a mismatch is (false, no error), and later filters are not looked at |
| Querier.ApplyFilters | internal/aerospace/querier.go:206-240 | the loop computes Verdict |
| Querier.CollectKeeps | internal/aerospace/querier.go:137-156 | when no name-matching window makes the filters fail, the loop keeps exactly the windows, in order, whose app name matches and that pass the filters |
| Querier.CollectFirstFaulty | internal/aerospace/querier.go:140-151 | the first name-matching window on which the filters fail ends the loop with FilterFailed for its app name and the filter error |
| Querier.SelectWindows | internal/aerospace/querier.go:137-169 | the loop computes Selection, where no match is NoWindowsMatched |
| Querier.FilteredWindowsFailFast | internal/aerospace/querier.go:109-135 | an invalid name pattern or invalid filters fail before anything is sent; a failed listing is its error after that one request |
| Querier.FilteredWindowsResult | internal/aerospace/querier.go:131-169 | a success is non-empty and is exactly the selected windows in listing order; NoWindowsMatched says "with filters" iff filters were given; conversely, a rejected listing is its error, an accepted listing with no filter error gives the selection (NoWindowsMatched when empty), and otherwise the error is FilterFailed for the first name-matching window whose filters fail |
| Querier.NextScratchpadIsFirst | internal/aerospace/querier.go:80-94 | the scratchpad window returned is the first window in listing order that is on the scratchpad |
| Querier.AeroSpaceQueryMaker.IsWindowInWorkspace | internal/aerospace/querier.go:41-56 | one listing request; the answer is Workspaces.IsWindowInWorkspace of that listing |
| Querier.AeroSpaceQueryMaker.IsWindowInFocusedWorkspace | internal/aerospace/querier.go:58-67 | one focused-workspace query, then the listing of that workspace only if the query succeeded |
| Querier.AeroSpaceQueryMaker.IsWindowFocused | internal/aerospace/querier.go:69-78 | one focused-window query; true iff its id is the argument |
| Querier.AeroSpaceQueryMaker.GetNextScratchpadWindow | internal/aerospace/querier.go:80-94 | a failed listing is its error, an empty scratchpad is NoScratchpadWindows, otherwise the first scratchpad window |
| Querier.AeroSpaceQueryMaker.GetFilteredWindows | internal/aerospace/querier.go:102-172 | the method computes FilteredWindows: the same requests and the same result |
| Mover.ToScratchpadSpec | internal/aerospace/mover.go:37-72 | the move to the scratchpad comes first; the floating layout is sent only after an accepted move; the result fails iff the move fails (a layout failure is only a warning); the window ends up on the scratchpad, floating, and other windows stay put |
| Mover.ToWorkspaceSpec | internal/aerospace/mover.go:74-115 | a nil window or workspace is an error with no request; the focus is sent only if asked and only after an accepted move; success iff every request sent was accepted; the layout never changes, whatever the outcome; the window ends up on the workspace and, if asked, focused |
| Mover.MoverAeroSpace.MoveWindowToScratchpad | internal/aerospace/mover.go:37-72 | the method computes ToScratchpad |
| Mover.MoverAeroSpace.MoveWindowToWorkspace | internal/aerospace/mover.go:74-115 | the method computes ToWorkspace |
| Summon.SummonOneLive | cmd/summon.go:60-68 | outside dry-run one matching window costs a move and then a focus; only the focus can fail, because the move's result is ignored |
| Summon.SummonLoopTrace | cmd/summon.go:55-71 | outside dry-run the loop sends a move and a focus for each of a prefix of the matching windows, in listing order, and nothing for non-matching ones; every focus in that prefix but the last was accepted; the loop fails exactly when the last focus was rejected, with that error, and later matches get no request; success means every match was summoned with every focus accepted |
| Summon.SummonLoopDryRun | cmd/summon.go:55-71 | in dry-run the loop changes nothing and succeeds |
| Summon.SummonTrims | cmd/summon.go:34 | blanks around the pattern do not change anything summon does |
| Summon.SummonFailFast | cmd/summon.go:36-53 | a failed listing, a failed focused-workspace query or a pattern that does not compile stops summon with that error and no window moved or focused |
| Summon.SummonTrace | cmd/summon.go:33-72 | after the two queries, summon sends only moves to the reported focused workspace and focuses, for a prefix of the matching windows, stopping at the first rejected focus; never a layout; when every focus is accepted, every matching window is moved and focused and the outcome is success; with no match, nothing more is sent and the outcome is success |
| Summon.SummonDryRun | cmd/summon.go:33-72 | in dry-run only the two queries are sent, and a compiling pattern succeeds |
| Summon.Summon | cmd/summon.go:33-72 | the method with its loop computes SummonRun |
| WorkspaceHandler.MoveCallEffect | cmd/workspace-handler.go:346-356 | the raw move takes exactly the windows with that id to the workspace, and focus follows the window |
| WorkspaceHandler.ClearMarkerSpec | cmd/workspace-handler.go:295-309 | reports "cleared" iff the marker was there and the stat worked; the marker disappears only on a clean removal; an error comes only from a failed stat or a failed removal of a present marker |
| WorkspaceHandler.FirstOther | cmd/workspace-handler.go:321 | the index of the first report that is not the scratchpad, with all earlier reports the scratchpad |
| WorkspaceHandler.RetryBounded | cmd/workspace-handler.go:321-337 | the retries send at most PollMaxAttempts focused-workspace queries and nothing else; every query but the last was accepted, and they end in an error exactly when the last was rejected (a rejected query aborts), the error being that rejection; they change no window, focus or layout |
| WorkspaceHandler.WaitForChangeBounded | cmd/workspace-handler.go:311-344 | the poll sends between 1 and 1 + 5 focused-workspace queries and nothing else; every query but the last was accepted, and it ends in an error exactly when the last was rejected, so the first rejected query aborts it with its error; it moves no window |
| WorkspaceHandler.RetryFirstOther | cmd/workspace-handler.go:321-343 | with the queries they send accepted (only those, up to the first report that is not the scratchpad), the retries stop at the first report that is not the scratchpad; if none is found in the allowed attempts, they return the scratchpad |
| WorkspaceHandler.WaitForChangeResult | cmd/workspace-handler.go:311-344 | with the queries it sends accepted (only those), the poll returns the first of 1 + 5 reports that is not the scratchpad, after one query more than the scratchpad reports before it; if all 1 + 5 are the scratchpad, it returns the scratchpad without error |
| WorkspaceHandler.FirstOtherAfterStale | cmd/workspace-handler.go:311-344 | with k stale scratchpad reports in flight, the first other report is the (k+1)-th, and it is the focused workspace |
| WorkspaceHandler.StalePoll | cmd/workspace-handler.go:311-344 | with k stale reports and the queries it sends accepted, the poll returns the focused workspace after k + 1 queries when k <= 5, and otherwise gives up on the scratchpad after 6 |
| WorkspaceHandler.DispatchRefuses | cmd/workspace-handler.go:85-114 | no subcommand, an unknown subcommand, or bring-window-to-workspace with fewer than 3 arguments is an error with nothing sent and the marker unchanged |
| WorkspaceHandler.BringWindowGuards | cmd/workspace-handler.go:126-161 | a previous workspace that is the scratchpad, or a focused workspace that is not, returns success with nothing sent and the marker unchanged; otherwise the first request is the focused-window query; a failed query ends the handler with that error and the marker unchanged; a focused window outside the scratchpad ends the handler there with success |
| WorkspaceHandler.BringWindowSentAfter | cmd/workspace-handler.go:163-188 | what follows the focused-window query only appends to the log |
| WorkspaceHandler.BringWindowSwitchRejected | cmd/workspace-handler.go:163-165 | a rejected switch back (transport error or non-zero exit) ends the handler with that error; the marker is left as it was, and nothing is polled or moved |
| WorkspaceHandler.BringWindowMarkerFails | cmd/workspace-handler.go:167-175 | after an accepted switch back, a marker that cannot be looked at, or one that cannot be removed, ends the handler with that error; the marker is left as it was, and nothing is polled or moved |
| WorkspaceHandler.BringWindowMarkerSuppresses | cmd/workspace-handler.go:163-179 | the switch back comes before the marker check; a present marker is removed and ends the handler with success, with neither a poll nor a move |
| WorkspaceHandler.BringWindowMoves | cmd/workspace-handler.go:163-188 | with no marker, an accepted switch back is followed by the poll and then the move of the originally focused window to the polled workspace with focus following; success iff the move succeeds |
| WorkspaceHandler.BringWindowEndToEnd | cmd/workspace-handler.go:116-197 | with every request accepted, no marker and k stale scratchpad reports in flight, the scratchpad window returns to the previous workspace, with focus following it, after exactly k + 1 polls when k <= 5 |
| WorkspaceHandler.MarkerHandshake | cmd/workspace-handler.go:163-179 | a marker written by bring-scratchpad-to-monitor makes the next bring-window-to-workspace switch back without moving the window, and consumes the marker |
| WorkspaceHandler.ScratchpadToMonitorSpec | cmd/workspace-handler.go:199-271 | the marker is written before any request, and a write failure sends nothing; the list request comes first; summon-workspace is sent only after a listing that exited 0 with JSON; success iff both succeed; the marker stays |
| WorkspaceHandler.WorkspaceHandlerCmd.Execute | cmd/workspace-handler.go:85-114 | the method computes Dispatch, on the manager and on the marker |
| WorkspaceHandler.WorkspaceHandlerCmd.HandleBringWindowToWorkspace | cmd/workspace-handler.go:116-197 | the method computes BringWindow |
| WorkspaceHandler.WorkspaceHandlerCmd.MoveScratchpadToCurrentMonitor | cmd/workspace-handler.go:199-271 | the method computes ScratchpadToMonitor |
| WorkspaceHandler.WorkspaceHandlerCmd.SwitchToWorkspace | cmd/workspace-handler.go:273-293 | `workspace <name>`; a transport error or a non-zero exit is an error |
| WorkspaceHandler.WorkspaceHandlerCmd.ClearMovingMarker | cmd/workspace-handler.go:295-309 | the method computes ClearMarker on the marker |
| WorkspaceHandler.WorkspaceHandlerCmd.WaitForWorkspaceChange | cmd/workspace-handler.go:311-344 | the bounded loop computes WaitForChange |
| WorkspaceHandler.WorkspaceHandlerCmd.MoveWindowToWorkspace | cmd/workspace-handler.go:346-374 | `move-node-to-workspace <ws> --window-id <id> --focus-follows-window`; a transport error or a non-zero exit is an error |
| WorkspaceHandler.WorkspaceHandlerCmd.CreateMovingMarker | cmd/workspace-handler.go:376-378 | the marker exists afterwards unless writing it fails |

## Left out

- cmd/daemon.go, cmd/root.go and cmd/info.go are not part of this model. They hold the non-terminating daemon variant and command-line wiring.
- The `show` and `hook` commands and their tests are not part of this model; their implementation files are not among the core.
- Logging, the text printed to stderr, and the exact wording of wrapped errors are left out. An error is a tag (`Types.Error`). Summon's printed errors are its `Fail` outcome.
- The 100 ms sleep between polls is left out: it is a delay only; the attempt count is modelled.
- The socket transport is left out. Each request's answer is given by the `reply` oracle (a transport error, or an exit code plus whether stdout is JSON).
- JSON decoding of `list-workspaces` output is reduced to "may fail". Its content is only logged, so it is not modelled.
- Go's regexp engine (RE2 syntax, unanchored matching) is an abstract `Engine`: which expressions compile and which strings match are parameters.
- The marker file is one boolean plus which file operations fail. Races between handler processes and the file's path are not modelled.
- The effect of `summon-workspace` on monitors, of `list-workspaces`, and of `focus dfs-next`/`dfs-prev` on the tiling tree is not modelled. Those requests are logged but leave the modelled state unchanged.
- Summon is modelled through the dry-run facade `Client.AeroSpaceClient`. The reconciler and the querier talk to `WindowManager.AeroSpaceWM` directly, as their Go counterparts talk to the underlying client.
- WorkspaceHandler.BringWindowEndToEnd: assumes the manager accepts every request it sends (`HandlerAccepted`) and that every report in flight is the stale scratchpad. With other interleavings the poll result is given by WaitForChangeResult instead.
- WorkspaceHandler.RetryFirstOther and WorkspaceHandler.WaitForChangeResult: stated for runs whose queries are all accepted. RetryBounded and WaitForChangeBounded state that the first rejected query aborts the poll with its error.
- Summon.SummonLoopTrace: states the trace outside dry-run. The dry-run case is SummonLoopDryRun.
- Window ids are unbounded integers. Go's `int` width is not modelled; ids only flow from the manager and are compared.
