/** internal/aerospace/client.go: the window-manager facade with its dry-run
    switch. Reads always go to the window manager; with dry-run on, every
    mutator reports success without sending anything. */
module Client {
  import opened Types
  import opened WindowManager

  datatype ClientOpts = ClientOpts(dryRun: bool)

  /** The result of a facade mutator, as a function of the server before it:
      a no-op success in dry-run, otherwise the request sent as is. */
  function Mutate(sv: Server, reply: (nat, Call) -> Reply, dryRun: bool, c: Call): Step {
    if dryRun then Step(sv, Pass)
    else
      var e := Send(sv, reply, c);
      Step(e.server, StatusOf(e.reply, c))
  }

  /** What FocusNextTilingWindow does outside dry-run: `focus dfs-next`,
      and `focus dfs-prev` only when the first one failed to send or exited
      non-zero. Only the second command's failure is reported. */
  function FocusNext(sv: Server, reply: (nat, Call) -> Reply): Step {
    var next := Send(sv, reply, Raw("focus", ["dfs-next"]));
    if Succeeds(next.reply) then Step(next.server, Pass)
    else
      var prevCall := Raw("focus", ["dfs-prev"]);
      var prev := Send(next.server, reply, prevCall);
      if prev.reply.TransportError? then Step(prev.server, Fail(TransportFailed(prevCall)))
      else if prev.reply.exitCode != 0 then Step(prev.server, Fail(NonZeroExit(prevCall)))
      else Step(prev.server, Pass)
  }

  /** `dfs-prev` is sent exactly when `dfs-next` did not succeed, and the
      focus fallback fails only when `dfs-prev` fails. */
  lemma FocusNextFallback(sv: Server, reply: (nat, Call) -> Reply)
    ensures var next := Send(sv, reply, Raw("focus", ["dfs-next"]));
      var st := FocusNext(sv, reply);
      && |st.server.sent| == |sv.sent| + (if Succeeds(next.reply) then 1 else 2)
      && st.server.sent[|sv.sent|] == Raw("focus", ["dfs-next"])
      && (!Succeeds(next.reply) ==> st.server.sent[|sv.sent| + 1] == Raw("focus", ["dfs-prev"]))
      && (st.outcome.Fail? <==>
           !Succeeds(next.reply) && !Succeeds(reply(|sv.sent| + 1, Raw("focus", ["dfs-prev"]))))
  {
  }

  class AeroSpaceClient {
    const ogClient: AeroSpaceWM
    var dryRun: bool

    /** NewAeroSpaceClient: dry-run starts off. */
    constructor (client: AeroSpaceWM)
      ensures ogClient == client && !dryRun
    {
      ogClient := client;
      dryRun := false;
    }

    method SetOptions(opts: ClientOpts)
      modifies this
      ensures dryRun == opts.dryRun
      ensures unchanged(ogClient)
    {
      dryRun := opts.dryRun;
    }

    method GetAllWindows() returns (r: Result<seq<Window>>)
      modifies ogClient
      ensures var e := Send(old(ogClient.Snapshot()), ogClient.reply, ListAllWindows);
        ogClient.Snapshot() == e.server
        && r == ListingAnswer(old(ogClient.state).windows, e.reply, ListAllWindows)
    {
      r := ogClient.GetAllWindows();
    }

    method GetAllWindowsByWorkspace(name: string) returns (r: Result<seq<Window>>)
      modifies ogClient
      ensures var e := Send(old(ogClient.Snapshot()), ogClient.reply, ListWorkspaceWindows(name));
        ogClient.Snapshot() == e.server
        && r == ListingAnswer(WindowsIn(old(ogClient.state), name), e.reply, ListWorkspaceWindows(name))
    {
      r := ogClient.GetAllWindowsByWorkspace(name);
    }

    method GetFocusedWindow() returns (r: Result<Window>)
      modifies ogClient
      ensures var e := Send(old(ogClient.Snapshot()), ogClient.reply, QueryFocusedWindow);
        ogClient.Snapshot() == e.server && r == FocusedWindowAnswer(old(ogClient.state), e.reply)
    {
      r := ogClient.GetFocusedWindow();
    }

    method GetFocusedWorkspace() returns (r: Result<Workspace>)
      modifies ogClient
      ensures var e := Send(old(ogClient.Snapshot()), ogClient.reply, QueryFocusedWorkspace);
        ogClient.Snapshot() == e.server && r == FocusedWorkspaceAnswer(old(ogClient.state), e.reply)
    {
      r := ogClient.GetFocusedWorkspace();
    }

    method SetFocusByWindowID(windowId: int) returns (o: Outcome)
      modifies ogClient
      ensures dryRun ==> o == Pass && unchanged(ogClient)
      ensures !dryRun ==>
        var e := Send(old(ogClient.Snapshot()), ogClient.reply, FocusWindow(windowId));
        ogClient.Snapshot() == e.server && o == StatusOf(e.reply, FocusWindow(windowId))
    {
      if dryRun {
        return Pass;
      }
      o := ogClient.SetFocusByWindowID(windowId);
    }

    method FocusNextTilingWindow() returns (o: Outcome)
      modifies ogClient
      ensures dryRun ==> o == Pass && unchanged(ogClient)
      ensures !dryRun ==>
        var st := FocusNext(old(ogClient.Snapshot()), ogClient.reply);
        ogClient.Snapshot() == st.server && o == st.outcome
    {
      if dryRun {
        return Pass;
      }
      var rep := ogClient.SendCommand("focus", ["dfs-next"]);
      if !Succeeds(rep) {
        rep := ogClient.SendCommand("focus", ["dfs-prev"]);
        if rep.TransportError? {
          return Fail(TransportFailed(Raw("focus", ["dfs-prev"])));
        }
        if rep.exitCode != 0 {
          return Fail(NonZeroExit(Raw("focus", ["dfs-prev"])));
        }
      }
      o := Pass;
    }

    method MoveWindowToWorkspace(windowId: int, name: string) returns (o: Outcome)
      modifies ogClient
      ensures dryRun ==> o == Pass && unchanged(ogClient)
      ensures !dryRun ==>
        var e := Send(old(ogClient.Snapshot()), ogClient.reply, MoveWindow(windowId, name));
        ogClient.Snapshot() == e.server && o == StatusOf(e.reply, MoveWindow(windowId, name))
    {
      if dryRun {
        return Pass;
      }
      o := ogClient.MoveWindowToWorkspace(windowId, name);
    }

    method SetLayout(windowId: int, layout: string) returns (o: Outcome)
      modifies ogClient
      ensures dryRun ==> o == Pass && unchanged(ogClient)
      ensures !dryRun ==>
        var e := Send(old(ogClient.Snapshot()), ogClient.reply, SetWindowLayout(windowId, layout));
        ogClient.Snapshot() == e.server && o == StatusOf(e.reply, SetWindowLayout(windowId, layout))
    {
      if dryRun {
        return Pass;
      }
      o := ogClient.SetLayout(windowId, layout);
    }

    method CloseConnection() returns (o: Outcome)
      modifies ogClient
      ensures dryRun ==> o == Pass && unchanged(ogClient)
      ensures !dryRun ==>
        var e := Send(old(ogClient.Snapshot()), ogClient.reply, Close);
        ogClient.Snapshot() == e.server && o == StatusOf(e.reply, Close)
    {
      if dryRun {
        return Pass;
      }
      o := ogClient.CloseConnection();
    }
  }
}
