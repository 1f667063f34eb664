/** cmd/summon.go: `summon <pattern>` moves every window whose app name
    matches the pattern to the focused workspace and focuses it, in listing
    order. It works through the dry-run facade. Its outcome is what it
    reports: `Pass` when it finishes, `Fail(e)` when it stops with the error
    message for `e`. */
module Summon {
  import opened Types
  import opened Seqs
  import opened Text
  import opened Regexp
  import opened WindowManager
  import opened Client

  /** The listed windows whose app name matches, in listing order. */
  function Matching(engine: Engine, p: Pattern, windows: seq<Window>): seq<Window> {
    KeepIf(windows, (w: Window) => MatchString(engine, p, w.appName))
  }

  /** The requests that summon `ms` outside dry-run: for each window in
      turn, a move to `ws` and then a focus. */
  function Pairs(ms: seq<Window>, ws: string): seq<Call>
    decreases |ms|
  {
    if ms == [] then []
    else [MoveWindow(ms[0].windowId, ws), FocusWindow(ms[0].windowId)] + Pairs(ms[1..], ws)
  }

  /** The loop of summon as a function of the server: a matching window is
      moved (whatever the move returns) and then focused; a focus failure
      stops the loop. */
  function SummonLoop(sv: Server, reply: (nat, Call) -> Reply, dryRun: bool, engine: Engine, p: Pattern,
                      windows: seq<Window>, ws: string): Step
    decreases |windows|
  {
    if windows == [] then Step(sv, Pass)
    else
      var w := windows[0];
      if !MatchString(engine, p, w.appName) then SummonLoop(sv, reply, dryRun, engine, p, windows[1..], ws)
      else
        var summoned := SummonOne(sv, reply, dryRun, w, ws);
        if summoned.outcome.Fail? then summoned
        else SummonLoop(summoned.server, reply, dryRun, engine, p, windows[1..], ws)
  }

  /** One matching window: the move, whose result is ignored, and then the
      focus, whose result is the step's. */
  function SummonOne(sv: Server, reply: (nat, Call) -> Reply, dryRun: bool, w: Window, ws: string): Step {
    var moved := Mutate(sv, reply, dryRun, MoveWindow(w.windowId, ws));
    Mutate(moved.server, reply, dryRun, FocusWindow(w.windowId))
  }

  /** Outside dry-run one window costs a move and a focus, and only the
      focus can fail the step. */
  lemma SummonOneLive(sv: Server, reply: (nat, Call) -> Reply, w: Window, ws: string)
    ensures var st := SummonOne(sv, reply, false, w, ws);
      && st.server.sent == sv.sent + [MoveWindow(w.windowId, ws), FocusWindow(w.windowId)]
      && (st.outcome.Pass? <==> Succeeds(reply(|sv.sent| + 1, FocusWindow(w.windowId))))
      && (st.outcome.Fail? ==> st.outcome.error == Rejected(FocusWindow(w.windowId)))
  {
  }

  lemma MatchingTake(engine: Engine, p: Pattern, windows: seq<Window>)
    requires windows != [] && MatchString(engine, p, windows[0].appName)
    ensures Matching(engine, p, windows) == [windows[0]] + Matching(engine, p, windows[1..])
  {
  }

  lemma MatchingSkip(engine: Engine, p: Pattern, windows: seq<Window>)
    requires windows != [] && !MatchString(engine, p, windows[0].appName)
    ensures Matching(engine, p, windows) == Matching(engine, p, windows[1..])
  {
    assert [] + Matching(engine, p, windows[1..]) == Matching(engine, p, windows[1..]);
  }

  /** The manager accepts the focus of `ms[j]` when the loop runs from
      log position `base`: it is the second request for that window. */
  predicate FocusAccepted(reply: (nat, Call) -> Reply, base: nat, ms: seq<Window>, j: nat)
    requires j < |ms|
  {
    Succeeds(reply(base + 2 * j + 1, FocusWindow(ms[j].windowId)))
  }

  /** `st` is the result of summoning the first `k` of the matching
      windows `ms` outside dry-run, after the log `base`: the focus of each
      of them but the last was accepted; success means all were summoned
      and every focus accepted; a failure means the focus of the k-th was
      rejected, and it is the error. */
  predicate SummonedPrefix(base: seq<Call>, reply: (nat, Call) -> Reply, st: Step, ms: seq<Window>, ws: string, k: nat) {
    && k <= |ms|
    && st.server.sent == base + Pairs(ms[..k], ws)
    && (forall j :: 0 <= j < k - 1 ==> FocusAccepted(reply, |base|, ms, j))
    && (st.outcome.Pass? ==> k == |ms| && (k > 0 ==> FocusAccepted(reply, |base|, ms, k - 1)))
    && (st.outcome.Fail? ==>
          && 0 < k
          && !FocusAccepted(reply, |base|, ms, k - 1)
          && st.outcome.error == Rejected(FocusWindow(ms[k - 1].windowId)))
  }

  /** Summoning one more window in front adds its move and focus in front. */
  lemma PairsCons(w: Window, ms: seq<Window>, ws: string, k: nat)
    requires k <= |ms|
    ensures ([w] + ms)[..k + 1] == [w] + ms[..k]
    ensures Pairs([w] + ms[..k], ws) == [MoveWindow(w.windowId, ws), FocusWindow(w.windowId)] + Pairs(ms[..k], ws)
  {
    assert ([w] + ms[..k])[1..] == ms[..k];
  }

  /** Outside dry-run the loop sends exactly a move and a focus for each of
      a prefix of the matching windows, in listing order, and nothing for
      the others: the move's result never prevents the focus, and the loop
      stops after the first focus that fails, which is then its error. */
  lemma {:induction false} SummonLoopTrace(sv: Server, reply: (nat, Call) -> Reply, engine: Engine, p: Pattern,
                                           windows: seq<Window>, ws: string)
    ensures exists k :: SummonedPrefix(sv.sent, reply, SummonLoop(sv, reply, false, engine, p, windows, ws),
                                       Matching(engine, p, windows), ws, k)
    decreases |windows|
  {
    var st := SummonLoop(sv, reply, false, engine, p, windows, ws);
    var ms := Matching(engine, p, windows);
    if windows == [] {
      assert SummonedPrefix(sv.sent, reply, st, ms, ws, 0);
    } else {
      var w := windows[0];
      var rest := windows[1..];
      var msRest := Matching(engine, p, rest);
      if !MatchString(engine, p, w.appName) {
        MatchingSkip(engine, p, windows);
        SummonLoopTrace(sv, reply, engine, p, rest, ws);
        var k: nat :| SummonedPrefix(sv.sent, reply, st, msRest, ws, k);
        assert SummonedPrefix(sv.sent, reply, st, ms, ws, k);
      } else {
        var focused := SummonOne(sv, reply, false, w, ws);
        if focused.outcome.Pass? {
          SummonLoopTrace(focused.server, reply, engine, p, rest, ws);
        }
        SummonTakeStep(sv, reply, engine, p, windows, ws);
      }
    }
  }

  /** The step of SummonLoopTrace for a matching first window, given the
      trace of the rest of the loop. */
  lemma SummonTakeStep(sv: Server, reply: (nat, Call) -> Reply, engine: Engine, p: Pattern,
                       windows: seq<Window>, ws: string)
    requires windows != [] && MatchString(engine, p, windows[0].appName)
    requires var focused := SummonOne(sv, reply, false, windows[0], ws);
      focused.outcome.Pass? ==>
        exists k :: SummonedPrefix(focused.server.sent, reply,
                                   SummonLoop(focused.server, reply, false, engine, p, windows[1..], ws),
                                   Matching(engine, p, windows[1..]), ws, k)
    ensures exists k :: SummonedPrefix(sv.sent, reply, SummonLoop(sv, reply, false, engine, p, windows, ws),
                                       Matching(engine, p, windows), ws, k)
  {
    var w := windows[0];
    var focused := SummonOne(sv, reply, false, w, ws);
    var st := SummonLoop(sv, reply, false, engine, p, windows, ws);
    MatchingTake(engine, p, windows);
    SummonOneLive(sv, reply, w, ws);
    if focused.outcome.Fail? {
      assert st == focused;
      SummonFirstFails(sv.sent, reply, focused, w, Matching(engine, p, windows[1..]), ws);
    } else {
      assert st == SummonLoop(focused.server, reply, false, engine, p, windows[1..], ws);
      var k: nat :| SummonedPrefix(focused.server.sent, reply, st, Matching(engine, p, windows[1..]), ws, k);
      SummonNextPrefix(sv.sent, reply, focused, st, w, Matching(engine, p, windows[1..]), ws, k);
    }
  }

  /** A failed focus of the first matching window ends the loop after one
      window. */
  lemma SummonFirstFails(base: seq<Call>, reply: (nat, Call) -> Reply, focused: Step, w: Window,
                         msRest: seq<Window>, ws: string)
    requires focused.server.sent == base + [MoveWindow(w.windowId, ws), FocusWindow(w.windowId)]
    requires !Succeeds(reply(|base| + 1, FocusWindow(w.windowId)))
    requires focused.outcome == Fail(Rejected(FocusWindow(w.windowId)))
    ensures SummonedPrefix(base, reply, focused, [w] + msRest, ws, 1)
  {
    PairsCons(w, msRest, ws, 0);
    assert msRest[..0] == [];
    assert !FocusAccepted(reply, |base|, [w] + msRest, 0);
  }

  /** Summoning the first window, with its focus accepted, and then a
      prefix of the others is a prefix one longer. */
  lemma SummonNextPrefix(base: seq<Call>, reply: (nat, Call) -> Reply, focused: Step, st: Step, w: Window,
                         msRest: seq<Window>, ws: string, k: nat)
    requires focused.server.sent == base + [MoveWindow(w.windowId, ws), FocusWindow(w.windowId)]
    requires Succeeds(reply(|base| + 1, FocusWindow(w.windowId)))
    requires SummonedPrefix(focused.server.sent, reply, st, msRest, ws, k)
    ensures SummonedPrefix(base, reply, st, [w] + msRest, ws, k + 1)
  {
    PairsCons(w, msRest, ws, k);
    var ms := [w] + msRest;
    assert FocusAccepted(reply, |base|, ms, 0);
    forall j | 0 <= j < k
      ensures FocusAccepted(reply, |base|, ms, j)
    {
      if j > 0 {
        assert FocusAccepted(reply, |base| + 2, msRest, j - 1);
        assert ms[j] == msRest[j - 1];
      }
    }
    if k > 0 {
      assert ms[k] == msRest[k - 1];
      assert FocusAccepted(reply, |base|, ms, k) <==> FocusAccepted(reply, |base| + 2, msRest, k - 1);
    }
  }

  /** In dry-run the loop changes nothing and reports success, however many
      windows match. */
  lemma {:induction false} SummonLoopDryRun(sv: Server, reply: (nat, Call) -> Reply, engine: Engine, p: Pattern,
                                            windows: seq<Window>, ws: string)
    ensures SummonLoop(sv, reply, true, engine, p, windows, ws) == Step(sv, Pass)
    decreases |windows|
  {
    if windows != [] {
      SummonLoopDryRun(sv, reply, engine, p, windows[1..], ws);
    }
  }

  /** The whole `summon` command as a function of the server: the pattern
      is trimmed, then the rest is Summoned. */
  function SummonRun(sv: Server, reply: (nat, Call) -> Reply, dryRun: bool, engine: Engine, arg: string): Step {
    Summoned(sv, reply, dryRun, engine, TrimSpace(arg))
  }

  /** Summon once the pattern is trimmed: the windows and the focused
      workspace are queried, the pattern is compiled, and only then does
      the loop run. */
  function Summoned(sv: Server, reply: (nat, Call) -> Reply, dryRun: bool, engine: Engine, pattern: string): Step {
    var listed := Send(sv, reply, ListAllWindows);
    if !Succeeds(listed.reply) then Step(listed.server, Fail(Rejected(ListAllWindows)))
    else
      var focusedWs := Send(listed.server, reply, QueryFocusedWorkspace);
      if !Succeeds(focusedWs.reply) then Step(focusedWs.server, Fail(Rejected(QueryFocusedWorkspace)))
      else
        match Compile(engine, pattern)
        case Invalid => Step(focusedWs.server, Fail(InvalidWindowPattern(pattern)))
        case Valid(p) =>
          SummonLoop(focusedWs.server, reply, dryRun, engine, p, sv.state.windows, ReportedWorkspace(listed.server.state))
  }

  /** Surrounding blanks in the pattern do not matter. */
  lemma SummonTrims(sv: Server, reply: (nat, Call) -> Reply, dryRun: bool, engine: Engine, arg: string)
    ensures SummonRun(sv, reply, dryRun, engine, arg) == SummonRun(sv, reply, dryRun, engine, TrimSpace(arg))
  {
    TrimSpaceIdempotent(arg);
  }

  /** When a query fails or the pattern does not compile, no window is
      moved or focused: only the queries were sent. */
  lemma SummonFailFast(sv: Server, reply: (nat, Call) -> Reply, dryRun: bool, engine: Engine, arg: string)
    ensures var st := SummonRun(sv, reply, dryRun, engine, arg);
      var listOk := Succeeds(reply(|sv.sent|, ListAllWindows));
      var wsOk := Succeeds(reply(|sv.sent| + 1, QueryFocusedWorkspace));
      && (!listOk ==> st.server.sent == sv.sent + [ListAllWindows] && st.outcome == Fail(Rejected(ListAllWindows)))
      && (listOk && !wsOk ==>
            st.server.sent == sv.sent + [ListAllWindows, QueryFocusedWorkspace]
            && st.outcome == Fail(Rejected(QueryFocusedWorkspace)))
      && (listOk && wsOk && !engine.compiles(TrimSpace(arg)) ==>
            && st.server.sent == sv.sent + [ListAllWindows, QueryFocusedWorkspace]
            && st.server.state.windows == sv.state.windows
            && st.outcome == Fail(InvalidWindowPattern(TrimSpace(arg))))
  {
    var listed := Send(sv, reply, ListAllWindows);
    if Succeeds(listed.reply) {
      assert listed.server.state.windows == sv.state.windows;
      var focusedWs := Send(listed.server, reply, QueryFocusedWorkspace);
      assert focusedWs.server.state.windows == sv.state.windows;
      assert focusedWs.server.sent == sv.sent + [ListAllWindows, QueryFocusedWorkspace];
    }
  }

  /** Outside dry-run, once both queries succeed and the pattern compiles,
      summon moves and focuses a prefix of the matching windows onto the
      workspace the manager reported as focused, stopping at the first
      rejected focus. When every focus is accepted, every matching window
      is summoned and summon succeeds; when nothing matches it sends
      nothing more and succeeds. */
  lemma SummonTrace(sv: Server, reply: (nat, Call) -> Reply, engine: Engine, arg: string)
    requires Succeeds(reply(|sv.sent|, ListAllWindows))
    requires Succeeds(reply(|sv.sent| + 1, QueryFocusedWorkspace))
    requires engine.compiles(TrimSpace(arg))
    ensures var st := SummonRun(sv, reply, false, engine, arg);
      var ms := Matching(engine, Pattern(TrimSpace(arg)), sv.state.windows);
      var ws := ReportedWorkspace(sv.state);
      var queried := sv.sent + [ListAllWindows, QueryFocusedWorkspace];
      && (exists k :: SummonedPrefix(queried, reply, st, ms, ws, k))
      && ((forall j :: 0 <= j < |ms| ==> FocusAccepted(reply, |queried|, ms, j)) ==>
            st.outcome == Pass && st.server.sent == queried + Pairs(ms, ws))
      && (ms == [] ==> st.outcome == Pass && st.server.sent == queried)
  {
    var listed := Send(sv, reply, ListAllWindows);
    var focusedWs := Send(listed.server, reply, QueryFocusedWorkspace);
    var p := Pattern(TrimSpace(arg));
    var ms := Matching(engine, p, sv.state.windows);
    var ws := ReportedWorkspace(sv.state);
    SummonLoopTrace(focusedWs.server, reply, engine, p, sv.state.windows, ws);
    var st := SummonRun(sv, reply, false, engine, arg);
    assert st == SummonLoop(focusedWs.server, reply, false, engine, p, sv.state.windows, ws);
    var queried := sv.sent + [ListAllWindows, QueryFocusedWorkspace];
    assert focusedWs.server.sent == queried;
    var k: nat :| SummonedPrefix(queried, reply, st, ms, ws, k);
    assert ms[..|ms|] == ms;
    if ms == [] {
      assert ms[..0] == [];
    }
  }

  /** In dry-run summon sends only its two queries, whatever matches. */
  lemma SummonDryRun(sv: Server, reply: (nat, Call) -> Reply, engine: Engine, arg: string)
    requires Succeeds(reply(|sv.sent|, ListAllWindows))
    requires Succeeds(reply(|sv.sent| + 1, QueryFocusedWorkspace))
    requires engine.compiles(TrimSpace(arg))
    ensures var st := SummonRun(sv, reply, true, engine, arg);
      st.outcome == Pass && st.server.sent == sv.sent + [ListAllWindows, QueryFocusedWorkspace]
  {
    var listed := Send(sv, reply, ListAllWindows);
    var focusedWs := Send(listed.server, reply, QueryFocusedWorkspace);
    SummonLoopDryRun(focusedWs.server, reply, engine, Pattern(TrimSpace(arg)), sv.state.windows,
                     ReportedWorkspace(sv.state));
  }

  /** The `Run` body of the summon command. */
  method Summon(client: AeroSpaceClient, engine: Engine, arg: string) returns (o: Outcome)
    modifies client.ogClient
    ensures var st := SummonRun(old(client.ogClient.Snapshot()), client.ogClient.reply, client.dryRun, engine, arg);
      client.ogClient.Snapshot() == st.server && o == st.outcome
  {
    var windowNamePattern := TrimSpace(arg);
    ghost var initial := client.ogClient.state;
    var windows := client.GetAllWindows();
    if windows.Err? {
      return Fail(windows.error);
    }
    ghost var listedState := client.ogClient.state;
    var focusedWorkspace := client.GetFocusedWorkspace();
    if focusedWorkspace.Err? {
      return Fail(focusedWorkspace.error);
    }
    var windowPattern := Compile(engine, windowNamePattern);
    if windowPattern.Invalid? {
      return Fail(InvalidWindowPattern(windowNamePattern));
    }
    var p := windowPattern.pattern;
    var ws := focusedWorkspace.value.workspace;
    var ws_ := windows.value;
    ghost var start := client.ogClient.Snapshot();
    assert ws_ == initial.windows && ws == ReportedWorkspace(listedState);
    assert ws_[0..] == ws_;
    for i := 0 to |ws_|
      invariant SummonLoop(start, client.ogClient.reply, client.dryRun, engine, p, ws_, ws)
             == SummonLoop(client.ogClient.Snapshot(), client.ogClient.reply, client.dryRun, engine, p, ws_[i..], ws)
    {
      assert ws_[i..][1..] == ws_[i + 1..];
      var window := ws_[i];
      if !MatchString(engine, p, window.appName) {
        continue;
      }
      var moved := client.MoveWindowToWorkspace(window.windowId, ws);
      var focused := client.SetFocusByWindowID(window.windowId);
      if focused.Fail? {
        return focused;
      }
    }
    assert ws_[|ws_|..] == [];
    return Pass;
  }
}
