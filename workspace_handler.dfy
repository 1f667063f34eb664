/** cmd/workspace-handler.go: the `workspace-handler` (`wsh`) command, the
    reconciler the window manager's hooks call. `bring-scratchpad-to-monitor`
    drops a marker file and pulls the scratchpad onto the focused monitor;
    `bring-window-to-workspace <prev> <focused>` notices that the scratchpad
    itself got focused and takes its focused window back to where the user
    was, unless the marker says the focus change was the monitor move. */
module WorkspaceHandler {
  import opened Types
  import opened Text
  import opened WindowManager

  const BringScratchpadToMonitor := "bring-scratchpad-to-monitor"
  const BringWindowToWorkspace := "bring-window-to-workspace"
  const MinArgsBringWindow := 3
  /** Retries of the focused-workspace poll after the first query. */
  const PollMaxAttempts := 5

  // ---------------------------------------------------------------------
  // Requests

  /** `list-workspaces` restricted to the focused monitor, as JSON. */
  const ListMonitorWorkspaces :=
    Raw("list-workspaces", ["--monitor", "focused", "--json", "--format", "%{workspace} %{monitor-id}"])

  /** `summon-workspace <scratchpad>`: the scratchpad onto the focused monitor. */
  function SummonScratchpad(): Call {
    Raw("summon-workspace", [ScratchpadWorkspace])
  }

  /** `workspace <name>`. */
  function SwitchCall(name: string): Call {
    Raw("workspace", [name])
  }

  /** `move-node-to-workspace <name> --window-id <id> --focus-follows-window`. */
  function MoveCall(windowId: int, name: string): Call {
    Raw("move-node-to-workspace", [name, "--window-id", Itoa(windowId), "--focus-follows-window"])
  }

  /** A raw command as the handler judges it: a transport error or a
      non-zero exit is an error. */
  function RawStep(sv: Server, reply: (nat, Call) -> Reply, c: Call): Step {
    var e := Send(sv, reply, c);
    if e.reply.TransportError? then Step(e.server, Fail(TransportFailed(c)))
    else if e.reply.exitCode != 0 then Step(e.server, Fail(NonZeroExit(c)))
    else Step(e.server, Pass)
  }

  /** The raw move takes every window whose id is `windowId` (and only
      those) to `name`, and focus follows it there. */
  lemma MoveCallEffect(s: WmState, windowId: int, name: string)
    ensures var t := Effect(s, MoveCall(windowId, name));
      && t.focusedWorkspace == name
      && |t.windows| == |s.windows|
      && forall i :: 0 <= i < |s.windows| ==>
           t.windows[i] == if s.windows[i].windowId == windowId then s.windows[i].(workspace := name) else s.windows[i]
  {
    var t := Effect(s, MoveCall(windowId, name));
    forall i | 0 <= i < |s.windows|
      ensures t.windows[i] == if s.windows[i].windowId == windowId then s.windows[i].(workspace := name) else s.windows[i]
    {
      if Itoa(s.windows[i].windowId) == Itoa(windowId) {
        ItoaInjective(s.windows[i].windowId, windowId);
      }
    }
  }

  // ---------------------------------------------------------------------
  // The marker file

  /** Which file operations on the marker fail: writing it, a stat error
      other than "does not exist", removing it. */
  datatype MarkerFaults = MarkerFaults(writeFails: bool, statFails: bool, removeFails: bool)

  /** The marker file (constants.TempScratchpadMovingFile). */
  class MovingMarker {
    var present: bool
    const faults: MarkerFaults

    constructor (present: bool, faults: MarkerFaults)
      ensures this.present == present && this.faults == faults
    {
      this.present := present;
      this.faults := faults;
    }
  }

  /** clearMovingMarker's answer: whether a marker was found, whether the
      file is still there, and the error. */
  datatype Cleared = Cleared(cleared: bool, present: bool, err: Option<Error>)

  /** clearMovingMarker as a function: a stat error hides the marker, an
      absent marker is no error, a found marker is removed. */
  function ClearMarker(present: bool, faults: MarkerFaults): Cleared {
    if faults.statFails then Cleared(false, present, Some(MarkerStatFailed))
    else if !present then Cleared(false, false, None)
    else if faults.removeFails then Cleared(true, true, Some(MarkerRemoveFailed))
    else Cleared(true, false, None)
  }

  /** A marker is reported cleared exactly when it was there and could be
      looked at; it disappears only when it was cleared without error, and
      a clear that reports no error always leaves no marker behind. */
  lemma ClearMarkerSpec(present: bool, faults: MarkerFaults)
    ensures var c := ClearMarker(present, faults);
      && (c.cleared <==> present && !faults.statFails)
      && (c.present <==> present && c.err.Some?)
      && (c.err.None? ==> !c.present)
      && (c.err.Some? <==> faults.statFails || (present && faults.removeFails))
  {
  }

  /** createMovingMarker as a function: the file exists afterwards unless
      writing it failed. */
  function CreateMarker(present: bool, faults: MarkerFaults): (bool, Outcome) {
    if faults.writeFails then (present, Fail(MarkerCreateFailed)) else (true, Pass)
  }

  // ---------------------------------------------------------------------
  // The focused-workspace poll

  /** The result of the poll and the server after it. */
  datatype Poll = Poll(server: Server, result: Result<Workspace>)

  /** The retry loop of waitForWorkspaceChange: while fewer than
      PollMaxAttempts retries were made and the last report is the
      scratchpad, ask again; a failed query aborts. */
  function Retry(sv: Server, reply: (nat, Call) -> Reply, attempts: nat, current: Workspace): Poll
    decreases PollMaxAttempts - attempts
  {
    if attempts < PollMaxAttempts && current.workspace == ScratchpadWorkspace then
      var e := Send(sv, reply, QueryFocusedWorkspace);
      var answer := FocusedWorkspaceAnswer(sv.state, e.reply);
      if answer.Err? then Poll(e.server, Err(answer.error))
      else Retry(e.server, reply, attempts + 1, answer.value)
    else Poll(sv, Ok(current))
  }

  /** waitForWorkspaceChange: one query, then the retries. When the
      scratchpad is still reported after the last retry it is returned all
      the same. */
  function WaitForChange(sv: Server, reply: (nat, Call) -> Reply): Poll {
    var e := Send(sv, reply, QueryFocusedWorkspace);
    var answer := FocusedWorkspaceAnswer(sv.state, e.reply);
    if answer.Err? then Poll(e.server, Err(answer.error))
    else Retry(e.server, reply, 0, answer.value)
  }

  /** `n` focused-workspace queries. */
  function Queries(n: nat): seq<Call> {
    seq(n, i => QueryFocusedWorkspace)
  }

  /** One more query at the front of a run of queries. */
  lemma QueriesCons(sent: seq<Call>, k: nat)
    ensures sent + [QueryFocusedWorkspace] + Queries(k) == sent + Queries(k + 1)
  {
    assert [QueryFocusedWorkspace] + Queries(k) == Queries(k + 1);
  }

  /** An accepted focused-workspace query is logged, consumes the oldest
      in-flight report and answers with it. */
  lemma AcceptedQuery(sv: Server, reply: (nat, Call) -> Reply)
    requires Succeeds(reply(|sv.sent|, QueryFocusedWorkspace))
    ensures var e := Send(sv, reply, QueryFocusedWorkspace);
      && e.server == Server(Effect(sv.state, QueryFocusedWorkspace), sv.sent + [QueryFocusedWorkspace])
      && FocusedWorkspaceAnswer(sv.state, e.reply) == Ok(Workspace(ReportedWorkspace(sv.state)))
  {
  }

  /** What `n` successful queries report from state `s`. */
  function Reports(s: WmState, n: nat): (r: seq<string>)
    ensures |r| == n
    decreases n
  {
    if n == 0 then [] else [ReportedWorkspace(s)] + Reports(Effect(s, QueryFocusedWorkspace), n - 1)
  }

  /** Index of the first report that is not the scratchpad (|obs| if none). */
  function FirstOther(obs: seq<string>): (i: nat)
    ensures i <= |obs|
    ensures i < |obs| ==> obs[i] != ScratchpadWorkspace
    ensures forall j :: 0 <= j < i ==> obs[j] == ScratchpadWorkspace
  {
    if obs == [] then 0
    else if obs[0] != ScratchpadWorkspace then 0
    else 1 + FirstOther(obs[1..])
  }

  /** How many queries the retries send when they see the reports `obs`,
      the current one first: up to the first that is not the scratchpad,
      or all the allowed ones. */
  function RetryCount(obs: seq<string>): nat
    requires obs != []
  {
    if FirstOther(obs) < |obs| then FirstOther(obs) else |obs| - 1
  }

  /** The first of `n + 1` accepted queries is accepted, and so are the
      `n` after it. */
  lemma QueriesAcceptedTail(reply: (nat, Call) -> Reply, from: nat, n: nat)
    requires QueriesAccepted(reply, from, n + 1)
    ensures Succeeds(reply(from, QueryFocusedWorkspace))
    ensures QueriesAccepted(reply, from + 1, n)
  {
  }

  /** A retry whose query is accepted goes on from the server after the
      query, with the report it consumed. */
  lemma RetryAccepted(sv: Server, reply: (nat, Call) -> Reply, attempts: nat, current: Workspace)
    requires attempts < PollMaxAttempts && current.workspace == ScratchpadWorkspace
    requires Succeeds(reply(|sv.sent|, QueryFocusedWorkspace))
    ensures Retry(sv, reply, attempts, current) ==
              Retry(Server(Effect(sv.state, QueryFocusedWorkspace), sv.sent + [QueryFocusedWorkspace]),
                    reply, attempts + 1, Workspace(ReportedWorkspace(sv.state)))
  {
    AcceptedQuery(sv, reply);
  }

  /** A poll that, after one more query, ended as the retries over `obs`
      do, ended as the retries over the scratchpad report followed by
      `obs` do. */
  lemma RetryOneMore(sent: seq<Call>, p: Poll, x: string, obs: seq<string>)
    requires x == ScratchpadWorkspace && obs != []
    requires p.result == Ok(Workspace(obs[RetryCount(obs)]))
    requires p.server.sent == sent + [QueryFocusedWorkspace] + Queries(RetryCount(obs))
    ensures p.result == Ok(Workspace(([x] + obs)[RetryCount([x] + obs)]))
    ensures p.server.sent == sent + Queries(RetryCount([x] + obs))
  {
    RetryCountCons(x, obs);
    QueriesCons(sent, RetryCount(obs));
  }

  /** A scratchpad report in front costs the retries one more query. */
  lemma RetryCountCons(x: string, obs: seq<string>)
    requires x == ScratchpadWorkspace && obs != []
    ensures RetryCount([x] + obs) == 1 + RetryCount(obs)
  {
    assert ([x] + obs)[1..] == obs;
  }

  /** The `n` focused-workspace queries from position `from` of the log on
      are all accepted. */
  predicate QueriesAccepted(reply: (nat, Call) -> Reply, from: nat, n: nat) {
    forall j :: from <= j < from + n ==> Succeeds(reply(j, QueryFocusedWorkspace))
  }

  /** The poll `p`, run from `sv`, sent `n` focused-workspace queries and
      nothing else; every query but the last was accepted; it ends in an
      error exactly when the last query was rejected, and the error is that
      rejection; only the in-flight reports changed. */
  predicate PollTrace(sv: Server, reply: (nat, Call) -> Reply, p: Poll, n: nat) {
    && p.server.sent == sv.sent + Queries(n)
    && (n > 0 ==> QueriesAccepted(reply, |sv.sent|, n - 1))
    && (p.result.Err? <==> n > 0 && !Succeeds(reply(|sv.sent| + n - 1, QueryFocusedWorkspace)))
    && (p.result.Err? ==> p.result.error == Rejected(QueryFocusedWorkspace))
    && p.server.state.windows == sv.state.windows
    && p.server.state.focusedWorkspace == sv.state.focusedWorkspace
    && p.server.state.focusedWindowId == sv.state.focusedWindowId
    && p.server.state.layouts == sv.state.layouts
  }

  /** The retries ask at most PollMaxAttempts more times, and a rejected
      query aborts them with its error. */
  lemma {:induction false} RetryBounded(sv: Server, reply: (nat, Call) -> Reply, attempts: nat, current: Workspace)
    requires attempts <= PollMaxAttempts
    ensures exists n: nat :: n <= PollMaxAttempts - attempts && PollTrace(sv, reply, Retry(sv, reply, attempts, current), n)
    decreases PollMaxAttempts - attempts
  {
    var p := Retry(sv, reply, attempts, current);
    if attempts < PollMaxAttempts && current.workspace == ScratchpadWorkspace {
      var e := Send(sv, reply, QueryFocusedWorkspace);
      var answer := FocusedWorkspaceAnswer(sv.state, e.reply);
      if answer.Err? {
        assert PollTrace(sv, reply, p, 1);
      } else {
        RetryBounded(e.server, reply, attempts + 1, answer.value);
        var n: nat :| n <= PollMaxAttempts - (attempts + 1) && PollTrace(e.server, reply, p, n);
        RetryStep(sv, reply, e.server, p, n);
      }
    } else {
      assert PollTrace(sv, reply, p, 0);
    }
  }

  /** One accepted query in front of a poll trace of `n` queries. */
  lemma RetryStep(sv: Server, reply: (nat, Call) -> Reply, next: Server, p: Poll, n: nat)
    requires Succeeds(reply(|sv.sent|, QueryFocusedWorkspace))
    requires next == Send(sv, reply, QueryFocusedWorkspace).server
    requires PollTrace(next, reply, p, n)
    ensures PollTrace(sv, reply, p, n + 1)
  {
    QueriesCons(sv.sent, n);
    assert QueriesAccepted(reply, |sv.sent|, n);
  }

  /** waitForWorkspaceChange sends between 1 and 1 + PollMaxAttempts
      focused-workspace queries and nothing else, moves no window, and a
      rejected query aborts it with its error. */
  lemma WaitForChangeBounded(sv: Server, reply: (nat, Call) -> Reply)
    ensures exists n: nat :: 1 <= n <= 1 + PollMaxAttempts && PollTrace(sv, reply, WaitForChange(sv, reply), n)
  {
    var p := WaitForChange(sv, reply);
    var e := Send(sv, reply, QueryFocusedWorkspace);
    var answer := FocusedWorkspaceAnswer(sv.state, e.reply);
    if answer.Err? {
      assert PollTrace(sv, reply, p, 1);
    } else {
      RetryBounded(e.server, reply, 0, answer.value);
      var n: nat :| n <= PollMaxAttempts && PollTrace(e.server, reply, p, n);
      RetryStep(sv, reply, e.server, p, n);
    }
  }

  /** With the queries it sends accepted, the retries stop at the first
      report that is not the scratchpad; if every report is the scratchpad
      they stop when the attempts run out, and return the scratchpad. */
  lemma {:induction false} RetryFirstOther(sv: Server, reply: (nat, Call) -> Reply, attempts: nat, current: Workspace)
    requires attempts <= PollMaxAttempts
    requires QueriesAccepted(reply, |sv.sent|, RetryCount([current.workspace] + Reports(sv.state, PollMaxAttempts - attempts)))
    ensures var obs := [current.workspace] + Reports(sv.state, PollMaxAttempts - attempts);
      var k := RetryCount(obs);
      var p := Retry(sv, reply, attempts, current);
      && p.result == Ok(Workspace(obs[k]))
      && p.server.sent == sv.sent + Queries(k)
    decreases PollMaxAttempts - attempts, 1
  {
    if attempts < PollMaxAttempts && current.workspace == ScratchpadWorkspace {
      RetryFirstOtherStep(sv, reply, attempts, current);
    } else {
      var obs := [current.workspace] + Reports(sv.state, PollMaxAttempts - attempts);
      assert obs[0] == current.workspace;
      assert sv.sent + Queries(0) == sv.sent;
    }
  }

  /** The retry step of RetryFirstOther: the accepted query consumes one
      scratchpad report and the retries go on from there. */
  lemma RetryFirstOtherStep(sv: Server, reply: (nat, Call) -> Reply, attempts: nat, current: Workspace)
    requires attempts < PollMaxAttempts && current.workspace == ScratchpadWorkspace
    requires QueriesAccepted(reply, |sv.sent|, RetryCount([current.workspace] + Reports(sv.state, PollMaxAttempts - attempts)))
    ensures var obs := [current.workspace] + Reports(sv.state, PollMaxAttempts - attempts);
      var k := RetryCount(obs);
      var p := Retry(sv, reply, attempts, current);
      && p.result == Ok(Workspace(obs[k]))
      && p.server.sent == sv.sent + Queries(k)
    decreases PollMaxAttempts - attempts, 0
  {
    var t := Effect(sv.state, QueryFocusedWorkspace);
    var next := Workspace(ReportedWorkspace(sv.state));
    var obs2 := [next.workspace] + Reports(t, PollMaxAttempts - (attempts + 1));
    var sv2 := Server(t, sv.sent + [QueryFocusedWorkspace]);
    RetryStepAccepted(sv, reply, attempts, current);
    RetryFirstOther(sv2, reply, attempts + 1, next);
    RetryOneMore(sv.sent, Retry(sv2, reply, attempts + 1, next), current.workspace, obs2);
  }

  /** Before the retry step: the query is accepted, the reports are the
      current one followed by those the retries see next, and the queries
      the retries go on to send are accepted. */
  lemma RetryStepAccepted(sv: Server, reply: (nat, Call) -> Reply, attempts: nat, current: Workspace)
    requires attempts < PollMaxAttempts && current.workspace == ScratchpadWorkspace
    requires QueriesAccepted(reply, |sv.sent|, RetryCount([current.workspace] + Reports(sv.state, PollMaxAttempts - attempts)))
    ensures var t := Effect(sv.state, QueryFocusedWorkspace);
      var obs2 := [ReportedWorkspace(sv.state)] + Reports(t, PollMaxAttempts - (attempts + 1));
      && [current.workspace] + Reports(sv.state, PollMaxAttempts - attempts) == [current.workspace] + obs2
      && QueriesAccepted(reply, |sv.sent| + 1, RetryCount(obs2))
      && Retry(sv, reply, attempts, current) ==
           Retry(Server(t, sv.sent + [QueryFocusedWorkspace]), reply, attempts + 1, Workspace(ReportedWorkspace(sv.state)))
  {
    var t := Effect(sv.state, QueryFocusedWorkspace);
    var obs2 := [ReportedWorkspace(sv.state)] + Reports(t, PollMaxAttempts - (attempts + 1));
    assert Reports(sv.state, PollMaxAttempts - attempts) == obs2;
    RetryCountCons(current.workspace, obs2);
    QueriesAcceptedTail(reply, |sv.sent|, RetryCount(obs2));
    RetryAccepted(sv, reply, attempts, current);
  }

  /** With the queries it sends accepted, waitForWorkspaceChange returns
      the first reported workspace that is not the scratchpad, having asked
      once more than the number of scratchpad reports before it; if the
      first 1 + PollMaxAttempts reports are all the scratchpad, it returns
      the scratchpad after exactly that many queries. */
  lemma WaitForChangeResult(sv: Server, reply: (nat, Call) -> Reply)
    requires QueriesAccepted(reply, |sv.sent|, 1 + RetryCount(Reports(sv.state, 1 + PollMaxAttempts)))
    ensures var obs := Reports(sv.state, 1 + PollMaxAttempts);
      var i := FirstOther(obs);
      var p := WaitForChange(sv, reply);
      && (i < |obs| ==> p.result == Ok(Workspace(obs[i])) && p.server.sent == sv.sent + Queries(i + 1))
      && (i == |obs| ==>
            p.result == Ok(Workspace(ScratchpadWorkspace)) && p.server.sent == sv.sent + Queries(|obs|))
  {
    var t := Effect(sv.state, QueryFocusedWorkspace);
    var first := Workspace(ReportedWorkspace(sv.state));
    WaitAccepted(sv, reply);
    RetryFirstOther(Server(t, sv.sent + [QueryFocusedWorkspace]), reply, 0, first);
    QueriesCons(sv.sent, RetryCount(Reports(sv.state, 1 + PollMaxAttempts)));
  }

  /** Before the retries: the first query is accepted, its report is the
      first of the reports, and the queries the retries go on to send are
      accepted. */
  lemma WaitAccepted(sv: Server, reply: (nat, Call) -> Reply)
    requires QueriesAccepted(reply, |sv.sent|, 1 + RetryCount(Reports(sv.state, 1 + PollMaxAttempts)))
    ensures var t := Effect(sv.state, QueryFocusedWorkspace);
      var first := Workspace(ReportedWorkspace(sv.state));
      var obs := Reports(sv.state, 1 + PollMaxAttempts);
      && obs == [first.workspace] + Reports(t, PollMaxAttempts)
      && QueriesAccepted(reply, |sv.sent| + 1, RetryCount(obs))
      && WaitForChange(sv, reply) == Retry(Server(t, sv.sent + [QueryFocusedWorkspace]), reply, 0, first)
  {
    QueriesAcceptedTail(reply, |sv.sent|, RetryCount(Reports(sv.state, 1 + PollMaxAttempts)));
    AcceptedQuery(sv, reply);
  }

  /** When the in-flight reports are all the scratchpad and the focused
      workspace is not, the first report that is not the scratchpad comes
      right after the stale ones, and it is the focused workspace. */
  lemma {:induction false} FirstOtherAfterStale(s: WmState, n: nat)
    requires forall j :: 0 <= j < |s.pending| ==> s.pending[j] == ScratchpadWorkspace
    requires s.focusedWorkspace != ScratchpadWorkspace
    ensures var i := FirstOther(Reports(s, n));
      && i == (if |s.pending| < n then |s.pending| else n)
      && (i < n ==> Reports(s, n)[i] == s.focusedWorkspace)
    decreases n
  {
    if n > 0 && s.pending != [] {
      var t := Effect(s, QueryFocusedWorkspace);
      assert t.pending == s.pending[1..];
      FirstOtherAfterStale(t, n - 1);
      var obs := Reports(s, n);
      assert obs[0] == ScratchpadWorkspace;
      assert obs[1..] == Reports(t, n - 1);
    } else if n > 0 {
      assert Reports(s, n)[0] == s.focusedWorkspace;
    }
  }

  // ---------------------------------------------------------------------
  // The subcommands

  /** What a subcommand leaves behind: the server, whether the marker file
      exists, and the error it returns. */
  datatype Handled = Handled(server: Server, marker: bool, outcome: Outcome)

  /** handleBringWindowToWorkspace as a function of the server and the
      marker. */
  function BringWindow(sv: Server, reply: (nat, Call) -> Reply, marker: bool, faults: MarkerFaults,
                       prev: string, focused: string): Handled {
    if prev == ScratchpadWorkspace then Handled(sv, marker, Pass)
    else if focused != ScratchpadWorkspace then Handled(sv, marker, Pass)
    else
      var asked := Send(sv, reply, QueryFocusedWindow);
      AfterFocusedWindow(asked.server, reply, marker, faults, prev, FocusedWindowAnswer(sv.state, asked.reply))
  }

  /** moveScratchpadToCurrentMonitor as a function of the server and the
      marker: the marker is written before any request, then the monitor's
      workspaces are listed and the scratchpad is summoned. */
  function ScratchpadToMonitor(sv: Server, reply: (nat, Call) -> Reply, marker: bool, faults: MarkerFaults): Handled {
    if faults.writeFails then Handled(sv, marker, Fail(MarkerCreateFailed))
    else
      var listed := Send(sv, reply, ListMonitorWorkspaces);
      if listed.reply.TransportError? then Handled(listed.server, true, Fail(TransportFailed(ListMonitorWorkspaces)))
      else if listed.reply.exitCode != 0 then Handled(listed.server, true, Fail(NonZeroExit(ListMonitorWorkspaces)))
      else if !listed.reply.stdoutIsJson then Handled(listed.server, true, Fail(UndecodableOutput(ListMonitorWorkspaces)))
      else
        var summoned := RawStep(listed.server, reply, SummonScratchpad());
        Handled(summoned.server, true, summoned.outcome)
  }

  /** execute as a function: the subcommand decides what runs. */
  function Dispatch(sv: Server, reply: (nat, Call) -> Reply, marker: bool, faults: MarkerFaults, args: seq<string>): Handled {
    if |args| == 0 then Handled(sv, marker, Fail(MissingSubcommand))
    else if args[0] == BringScratchpadToMonitor then ScratchpadToMonitor(sv, reply, marker, faults)
    else if args[0] == BringWindowToWorkspace then
      if |args| < MinArgsBringWindow then Handled(sv, marker, Fail(MissingArguments))
      else BringWindow(sv, reply, marker, faults, args[1], args[2])
    else Handled(sv, marker, Fail(UnknownSubcommand(args[0])))
  }

  /** Malformed arguments are refused before anything is touched. */
  lemma DispatchRefuses(sv: Server, reply: (nat, Call) -> Reply, marker: bool, faults: MarkerFaults, args: seq<string>)
    ensures var h := Dispatch(sv, reply, marker, faults, args);
      && (|args| == 0 ==> h == Handled(sv, marker, Fail(MissingSubcommand)))
      && (|args| > 0 && args[0] != BringScratchpadToMonitor && args[0] != BringWindowToWorkspace ==>
            h == Handled(sv, marker, Fail(UnknownSubcommand(args[0]))))
      && (|args| > 0 && args[0] == BringWindowToWorkspace && |args| < 3 ==>
            h == Handled(sv, marker, Fail(MissingArguments)))
      && (|args| >= 3 && args[0] == BringWindowToWorkspace ==>
            h == BringWindow(sv, reply, marker, faults, args[1], args[2]))
  {
  }

  /** Unless the previous workspace is not the scratchpad and the focused
      one is, the handler does nothing and succeeds; otherwise its first
      request asks for the focused window, a failed query ends it with that
      error and the marker untouched, and a focused window outside the
      scratchpad ends it there without error. */
  lemma BringWindowGuards(sv: Server, reply: (nat, Call) -> Reply, marker: bool, faults: MarkerFaults,
                          prev: string, focused: string)
    ensures var h := BringWindow(sv, reply, marker, faults, prev, focused);
      && (prev == ScratchpadWorkspace || focused != ScratchpadWorkspace ==> h == Handled(sv, marker, Pass))
      && (prev != ScratchpadWorkspace && focused == ScratchpadWorkspace ==>
            && |h.server.sent| > |sv.sent|
            && h.server.sent[..|sv.sent| + 1] == sv.sent + [QueryFocusedWindow]
            && (FocusedWindowAnswer(sv.state, reply(|sv.sent|, QueryFocusedWindow)).Err? ==>
                  h == Handled(Send(sv, reply, QueryFocusedWindow).server, marker, Fail(Rejected(QueryFocusedWindow))))
            && (FocusedWindowAnswer(sv.state, reply(|sv.sent|, QueryFocusedWindow)).Ok?
                && FocusedWindowAnswer(sv.state, reply(|sv.sent|, QueryFocusedWindow)).value.workspace != ScratchpadWorkspace
                ==> h == Handled(Send(sv, reply, QueryFocusedWindow).server, marker, Pass)))
  {
    var h := BringWindow(sv, reply, marker, faults, prev, focused);
    if prev != ScratchpadWorkspace && focused == ScratchpadWorkspace {
      var asked := Send(sv, reply, QueryFocusedWindow);
      BringWindowSentAfter(asked.server, sv.sent + [QueryFocusedWindow], reply, marker, faults, prev,
                           FocusedWindowAnswer(sv.state, asked.reply));
      assert (sv.sent + [QueryFocusedWindow])[..|sv.sent| + 1] == sv.sent + [QueryFocusedWindow];
    }
  }

  /** What follows the focused-window query only appends to the log. */
  lemma BringWindowSentAfter(sv: Server, base: seq<Call>, reply: (nat, Call) -> Reply, marker: bool,
                             faults: MarkerFaults, prev: string, window: Result<Window>)
    requires sv.sent == base
    ensures var h := AfterFocusedWindow(sv, reply, marker, faults, prev, window);
      |h.server.sent| >= |base| && h.server.sent[..|base|] == base
  {
    var h := AfterFocusedWindow(sv, reply, marker, faults, prev, window);
    if window.Ok? && window.value.workspace == ScratchpadWorkspace {
      var switched := RawStep(sv, reply, SwitchCall(prev));
      var c := ClearMarker(marker, faults);
      if switched.outcome.Pass? && c.err.None? && !c.cleared {
        WaitForChangeBounded(switched.server, reply);
        var poll := WaitForChange(switched.server, reply);
        assert |poll.server.sent| > |sv.sent|;
        assert poll.server.sent[..|base|] == base;
      }
    }
  }

  /** The part of BringWindow after the focused-window query. */
  function AfterFocusedWindow(sv: Server, reply: (nat, Call) -> Reply, marker: bool, faults: MarkerFaults,
                              prev: string, window: Result<Window>): Handled {
    if window.Err? then Handled(sv, marker, Fail(window.error))
    else if window.value.workspace != ScratchpadWorkspace then Handled(sv, marker, Pass)
    else
      var switched := RawStep(sv, reply, SwitchCall(prev));
      if switched.outcome.Fail? then Handled(switched.server, marker, switched.outcome)
      else
        var c := ClearMarker(marker, faults);
        if c.err.Some? then Handled(switched.server, c.present, Fail(c.err.value))
        else if c.cleared then Handled(switched.server, c.present, Pass)
        else
          var poll := WaitForChange(switched.server, reply);
          if poll.result.Err? then Handled(poll.server, c.present, Fail(poll.result.error))
          else
            var moved := RawStep(poll.server, reply, MoveCall(window.value.windowId, poll.result.value.workspace));
            Handled(moved.server, c.present, moved.outcome)
  }

  /** A rejected switch back ends the handler with the switch's error: the
      marker is neither looked at nor removed (so the next focus change is
      still suppressed), and nothing is polled or moved. */
  lemma BringWindowSwitchRejected(sv: Server, reply: (nat, Call) -> Reply, marker: bool, faults: MarkerFaults,
                                  prev: string, w: Window)
    requires w.workspace == ScratchpadWorkspace
    requires !Succeeds(reply(|sv.sent|, SwitchCall(prev)))
    ensures var rep := reply(|sv.sent|, SwitchCall(prev));
      var h := AfterFocusedWindow(sv, reply, marker, faults, prev, Ok(w));
      && h.marker == marker
      && h.server == Server(sv.state, sv.sent + [SwitchCall(prev)])
      && h.outcome == Fail(if rep.TransportError? then TransportFailed(SwitchCall(prev)) else NonZeroExit(SwitchCall(prev)))
  {
  }

  /** After an accepted switch back, a marker that cannot be looked at, or
      one that is there but cannot be removed, ends the handler with that
      error: the marker stays as it was, and nothing is polled or moved. */
  lemma BringWindowMarkerFails(sv: Server, reply: (nat, Call) -> Reply, marker: bool, faults: MarkerFaults,
                               prev: string, w: Window)
    requires w.workspace == ScratchpadWorkspace
    requires Succeeds(reply(|sv.sent|, SwitchCall(prev)))
    requires faults.statFails || (marker && faults.removeFails)
    ensures var h := AfterFocusedWindow(sv, reply, marker, faults, prev, Ok(w));
      && h.marker == marker
      && h.server == Send(sv, reply, SwitchCall(prev)).server
      && h.server.sent == sv.sent + [SwitchCall(prev)]
      && h.outcome == Fail(if faults.statFails then MarkerStatFailed else MarkerRemoveFailed)
  {
  }

  /** When the marker is there (the focus change was the scratchpad being
      brought to this monitor), the handler switches back and consumes the
      marker, and neither polls nor moves the window. */
  lemma BringWindowMarkerSuppresses(sv: Server, reply: (nat, Call) -> Reply, faults: MarkerFaults,
                                    prev: string, w: Window)
    requires w.workspace == ScratchpadWorkspace
    requires Succeeds(reply(|sv.sent|, SwitchCall(prev)))
    requires !faults.statFails && !faults.removeFails
    ensures var h := AfterFocusedWindow(sv, reply, true, faults, prev, Ok(w));
      h == Handled(Send(sv, reply, SwitchCall(prev)).server, false, Pass)
      && h.server.sent == sv.sent + [SwitchCall(prev)]
  {
  }

  /** Without a marker, once the switch back is accepted the handler polls
      and then moves the focused window to the workspace the poll returned,
      with focus following it; the handler succeeds exactly when the poll
      and the move do. */
  lemma BringWindowMoves(sv: Server, reply: (nat, Call) -> Reply, faults: MarkerFaults, prev: string, w: Window)
    requires w.workspace == ScratchpadWorkspace
    requires Succeeds(reply(|sv.sent|, SwitchCall(prev)))
    requires !faults.statFails
    ensures var switched := Send(sv, reply, SwitchCall(prev)).server;
      var poll := WaitForChange(switched, reply);
      var h := AfterFocusedWindow(sv, reply, false, faults, prev, Ok(w));
      && !h.marker
      && (poll.result.Err? ==> h == Handled(poll.server, false, Fail(poll.result.error)))
      && (poll.result.Ok? ==>
            var move := MoveCall(w.windowId, poll.result.value.workspace);
            && h.server.sent == poll.server.sent + [move]
            && (h.outcome.Pass? <==> Succeeds(reply(|poll.server.sent|, move)))
            && (h.outcome.Pass? ==> h.server.state == Effect(poll.server.state, move)))
  {
  }

  /** The window manager accepts the switch back to `prev` sent at the end
      of `sent`, the focused-workspace queries after it, and any move of the
      window `id`. */
  ghost predicate HandlerAccepted(reply: (nat, Call) -> Reply, sent: seq<Call>, prev: string, id: int) {
    && Succeeds(reply(|sent|, SwitchCall(prev)))
    && QueriesAccepted(reply, |sent| + 1, 1 + PollMaxAttempts)
    && forall n: nat, name: string :: Succeeds(reply(n, MoveCall(id, name)))
  }

  /** End to end, with every request accepted, no marker, and `k`
      scratchpad reports still in flight: the focused scratchpad window
      goes back to the previous workspace, focus following it, after k + 1
      polls, when k <= PollMaxAttempts; with more stale reports the poll
      gives up and the window is "moved" to the scratchpad itself. */
  lemma BringWindowEndToEnd(sv: Server, reply: (nat, Call) -> Reply, faults: MarkerFaults, prev: string, w: Window)
    requires w.workspace == ScratchpadWorkspace && prev != ScratchpadWorkspace
    requires !faults.statFails
    requires HandlerAccepted(reply, sv.sent, prev, w.windowId)
    requires forall j :: 0 <= j < |sv.state.pending| ==> sv.state.pending[j] == ScratchpadWorkspace
    ensures var k := |sv.state.pending|;
      var target := if k <= PollMaxAttempts then prev else ScratchpadWorkspace;
      var polls := if k <= PollMaxAttempts then k + 1 else 1 + PollMaxAttempts;
      var h := AfterFocusedWindow(sv, reply, false, faults, prev, Ok(w));
      && h.outcome == Pass
      && h.server.sent == sv.sent + [SwitchCall(prev)] + Queries(polls) + [MoveCall(w.windowId, target)]
      && h.server.state.focusedWorkspace == target
      && |h.server.state.windows| == |sv.state.windows|
      && forall i :: 0 <= i < |sv.state.windows| && sv.state.windows[i].windowId == w.windowId ==>
           h.server.state.windows[i].workspace == target
  {
    assert Succeeds(reply(|sv.sent|, SwitchCall(prev)));
    var switched := Send(sv, reply, SwitchCall(prev)).server;
    assert switched.state == sv.state.(focusedWorkspace := prev);
    assert QueriesAccepted(reply, |switched.sent|, 1 + PollMaxAttempts);
    StalePoll(switched, reply);
    var k := |sv.state.pending|;
    var target := if k <= PollMaxAttempts then prev else ScratchpadWorkspace;
    var poll := WaitForChange(switched, reply);
    var move := MoveCall(w.windowId, target);
    assert poll.result == Ok(Workspace(target));
    assert Succeeds(reply(|poll.server.sent|, move));
    BringWindowMoves(sv, reply, faults, prev, w);
    var h := AfterFocusedWindow(sv, reply, false, faults, prev, Ok(w));
    assert h.outcome == Pass && h.server.sent == poll.server.sent + [move];
    assert h.server.state == Effect(poll.server.state, move);
    MoveCallEffect(poll.server.state, w.windowId, target);
    var polls := if k <= PollMaxAttempts then k + 1 else 1 + PollMaxAttempts;
    assert h.server.sent == sv.sent + [SwitchCall(prev)] + Queries(polls) + [move];
    assert h.server.state.focusedWorkspace == target;
    assert poll.server.state.windows == sv.state.windows;
    forall i | 0 <= i < |sv.state.windows| && sv.state.windows[i].windowId == w.windowId
      ensures h.server.state.windows[i].workspace == target
    {
      assert h.server.state.windows[i] == poll.server.state.windows[i].(workspace := target);
    }
  }

  /** The poll right after the switch back: `k` stale scratchpad reports
      in flight and a focused workspace that is not the scratchpad. */
  lemma StalePoll(sv: Server, reply: (nat, Call) -> Reply)
    requires QueriesAccepted(reply, |sv.sent|,
               if |sv.state.pending| <= PollMaxAttempts then |sv.state.pending| + 1 else 1 + PollMaxAttempts)
    requires forall j :: 0 <= j < |sv.state.pending| ==> sv.state.pending[j] == ScratchpadWorkspace
    requires sv.state.focusedWorkspace != ScratchpadWorkspace
    ensures var k := |sv.state.pending|;
      var poll := WaitForChange(sv, reply);
      && poll.result == Ok(Workspace(if k <= PollMaxAttempts then sv.state.focusedWorkspace else ScratchpadWorkspace))
      && poll.server.sent == sv.sent + Queries(if k <= PollMaxAttempts then k + 1 else 1 + PollMaxAttempts)
      && poll.server.state.windows == sv.state.windows
  {
    FirstOtherAfterStale(sv.state, 1 + PollMaxAttempts);
    WaitForChangeResult(sv, reply);
    WaitForChangeBounded(sv, reply);
  }

  /** A marker written by bring-scratchpad-to-monitor is consumed by the
      next bring-window-to-workspace, which then leaves the window where it
      is. */
  lemma MarkerHandshake(sv: Server, reply: (nat, Call) -> Reply, marker: bool, faults: MarkerFaults,
                        prev: string, w: Window)
    requires !faults.writeFails && !faults.statFails && !faults.removeFails
    requires w.workspace == ScratchpadWorkspace
    ensures var moved := ScratchpadToMonitor(sv, reply, marker, faults);
      var back := AfterFocusedWindow(moved.server, reply, moved.marker, faults, prev, Ok(w));
      && moved.marker
      && (Succeeds(reply(|moved.server.sent|, SwitchCall(prev))) ==>
            back == Handled(Send(moved.server, reply, SwitchCall(prev)).server, false, Pass))
  {
  }

  /** bring-scratchpad-to-monitor writes the marker before any request
      (and sends nothing when it cannot), summons the scratchpad only after
      a listing that exited 0 with JSON, and succeeds exactly when both
      requests succeed. */
  lemma ScratchpadToMonitorSpec(sv: Server, reply: (nat, Call) -> Reply, marker: bool, faults: MarkerFaults)
    ensures var h := ScratchpadToMonitor(sv, reply, marker, faults);
      var listed := reply(|sv.sent|, ListMonitorWorkspaces);
      var listOk := Succeeds(listed) && listed.stdoutIsJson;
      && (faults.writeFails ==> h == Handled(sv, marker, Fail(MarkerCreateFailed)))
      && (!faults.writeFails ==>
            && h.marker
            && h.server.sent == sv.sent + [ListMonitorWorkspaces] + (if listOk then [SummonScratchpad()] else [])
            && (h.outcome.Pass? <==> listOk && Succeeds(reply(|sv.sent| + 1, SummonScratchpad())))
            && (Succeeds(listed) && !listed.stdoutIsJson ==> h.outcome == Fail(UndecodableOutput(ListMonitorWorkspaces))))
  {
  }

  // ---------------------------------------------------------------------
  // The handler

  class WorkspaceHandlerCmd {
    const client: AeroSpaceWM
    const marker: MovingMarker

    /** newWorkspaceHandler. */
    constructor (client: AeroSpaceWM, marker: MovingMarker)
      ensures this.client == client && this.marker == marker
    {
      this.client := client;
      this.marker := marker;
    }

    method Execute(args: seq<string>) returns (o: Outcome)
      modifies client, marker
      ensures var h := Dispatch(old(client.Snapshot()), client.reply, old(marker.present), marker.faults, args);
        client.Snapshot() == h.server && marker.present == h.marker && o == h.outcome
    {
      if |args| == 0 {
        return Fail(MissingSubcommand);
      }
      if args[0] == BringScratchpadToMonitor {
        o := MoveScratchpadToCurrentMonitor();
      } else if args[0] == BringWindowToWorkspace {
        if |args| < MinArgsBringWindow {
          return Fail(MissingArguments);
        }
        o := HandleBringWindowToWorkspace(args[1], args[2]);
      } else {
        o := Fail(UnknownSubcommand(args[0]));
      }
    }

    method HandleBringWindowToWorkspace(prev: string, focused: string) returns (o: Outcome)
      modifies client, marker
      ensures var h := BringWindow(old(client.Snapshot()), client.reply, old(marker.present), marker.faults, prev, focused);
        client.Snapshot() == h.server && marker.present == h.marker && o == h.outcome
    {
      if prev == ScratchpadWorkspace {
        return Pass;
      }
      if focused != ScratchpadWorkspace {
        return Pass;
      }
      var focusedWindow := client.GetFocusedWindow();
      if focusedWindow.Err? {
        return Fail(focusedWindow.error);
      }
      if focusedWindow.value.workspace != ScratchpadWorkspace {
        return Pass;
      }
      o := SwitchToWorkspace(prev);
      if o.Fail? {
        return o;
      }
      var cleared, markerErr := ClearMovingMarker();
      if markerErr.Some? {
        return Fail(markerErr.value);
      }
      if cleared {
        return Pass;
      }
      var newFocused := WaitForWorkspaceChange();
      if newFocused.Err? {
        return Fail(newFocused.error);
      }
      o := MoveWindowToWorkspace(focusedWindow.value.windowId, newFocused.value.workspace);
    }

    method MoveScratchpadToCurrentMonitor() returns (o: Outcome)
      modifies client, marker
      ensures var h := ScratchpadToMonitor(old(client.Snapshot()), client.reply, old(marker.present), marker.faults);
        client.Snapshot() == h.server && marker.present == h.marker && o == h.outcome
    {
      o := CreateMovingMarker();
      if o.Fail? {
        return o;
      }
      var listResponse := client.SendCommand(ListMonitorWorkspaces.command, ListMonitorWorkspaces.args);
      if listResponse.TransportError? {
        return Fail(TransportFailed(ListMonitorWorkspaces));
      }
      if listResponse.exitCode != 0 {
        return Fail(NonZeroExit(ListMonitorWorkspaces));
      }
      if !listResponse.stdoutIsJson {
        return Fail(UndecodableOutput(ListMonitorWorkspaces));
      }
      var summonResponse := client.SendCommand("summon-workspace", [ScratchpadWorkspace]);
      if summonResponse.TransportError? {
        return Fail(TransportFailed(SummonScratchpad()));
      }
      if summonResponse.exitCode != 0 {
        return Fail(NonZeroExit(SummonScratchpad()));
      }
      return Pass;
    }

    method SwitchToWorkspace(name: string) returns (o: Outcome)
      modifies client
      ensures var st := RawStep(old(client.Snapshot()), client.reply, SwitchCall(name));
        client.Snapshot() == st.server && o == st.outcome
    {
      var response := client.SendCommand("workspace", [name]);
      if response.TransportError? {
        return Fail(TransportFailed(SwitchCall(name)));
      }
      if response.exitCode != 0 {
        return Fail(NonZeroExit(SwitchCall(name)));
      }
      return Pass;
    }

    method ClearMovingMarker() returns (cleared: bool, err: Option<Error>)
      modifies marker
      ensures ClearMarker(old(marker.present), marker.faults) == Cleared(cleared, marker.present, err)
    {
      if marker.faults.statFails {
        return false, Some(MarkerStatFailed);
      }
      if !marker.present {
        return false, None;
      }
      if marker.faults.removeFails {
        return true, Some(MarkerRemoveFailed);
      }
      marker.present := false;
      return true, None;
    }

    method WaitForWorkspaceChange() returns (r: Result<Workspace>)
      modifies client
      ensures var p := WaitForChange(old(client.Snapshot()), client.reply);
        client.Snapshot() == p.server && r == p.result
    {
      ghost var start := client.Snapshot();
      var newFocused := client.GetFocusedWorkspace();
      if newFocused.Err? {
        return Err(newFocused.error);
      }
      var current := newFocused.value;
      var attempts := 0;
      while attempts < PollMaxAttempts && current.workspace == ScratchpadWorkspace
        invariant 0 <= attempts <= PollMaxAttempts
        invariant WaitForChange(start, client.reply) == Retry(client.Snapshot(), client.reply, attempts, current)
        decreases PollMaxAttempts - attempts
      {
        newFocused := client.GetFocusedWorkspace();
        if newFocused.Err? {
          return Err(newFocused.error);
        }
        current := newFocused.value;
        attempts := attempts + 1;
      }
      return Ok(current);
    }

    method MoveWindowToWorkspace(windowId: int, name: string) returns (o: Outcome)
      modifies client
      ensures var st := RawStep(old(client.Snapshot()), client.reply, MoveCall(windowId, name));
        client.Snapshot() == st.server && o == st.outcome
    {
      var response := client.SendCommand("move-node-to-workspace",
                                         [name, "--window-id", Itoa(windowId), "--focus-follows-window"]);
      if response.TransportError? {
        return Fail(TransportFailed(MoveCall(windowId, name)));
      }
      if response.exitCode != 0 {
        return Fail(NonZeroExit(MoveCall(windowId, name)));
      }
      return Pass;
    }

    method CreateMovingMarker() returns (o: Outcome)
      modifies marker
      ensures (marker.present, o) == CreateMarker(old(marker.present), marker.faults)
    {
      if marker.faults.writeFails {
        return Fail(MarkerCreateFailed);
      }
      marker.present := true;
      return Pass;
    }
  }
}
