/** internal/aerospace/querier.go: the filter engine (`property=pattern`
    tokens), the window selector built on it, and the querier's membership
    questions. */
module Querier {
  import opened Types
  import opened Text
  import opened Seqs
  import opened Regexp
  import opened WindowManager
  import Workspaces

  /** A parsed filter: a property name and a compiled pattern. */
  datatype Filter = Filter(property: string, pattern: Pattern)

  /** A query's result together with the server after it. */
  datatype Answered<T> = Answered(server: Server, result: Result<T>)

  // ---------------------------------------------------------------------
  // parseFilters

  /** One token of parseFilters: cut at the first `=`, trim both halves,
      refuse an empty half, compile the pattern half. */
  function ParseFilter(engine: Engine, token: string): (r: Result<Filter>)
    ensures '=' !in token ==> r == Err(InvalidFilterFormat(token))
    ensures r.Ok? ==>
      && r.value.property != []
      && r.value.pattern.expr != []
      && engine.compiles(r.value.pattern.expr)
  {
    match SplitFirst(token, '=')
    case None => Err(InvalidFilterFormat(token))
    case Some(halves) =>
      var property := TrimSpace(halves.before);
      var patternText := TrimSpace(halves.after);
      if property == [] || patternText == [] then Err(EmptyFilterPart(token))
      else
        match Compile(engine, patternText)
        case Invalid => Err(InvalidFilterPattern(patternText))
        case Valid(p) => Ok(Filter(property, p))
  }

  /** A token with an `=` is judged on the text before its FIRST `=` and
      everything after it (which may contain more `=`): an all-blank half
      is a format error, an uncompilable trimmed pattern a pattern error,
      and otherwise the filter holds the two trimmed halves. */
  lemma ParseFilterSplit(engine: Engine, before: string, after: string)
    requires '=' !in before
    ensures var token := before + "=" + after;
      var property := TrimSpace(before);
      var patternText := TrimSpace(after);
      ParseFilter(engine, token) ==
        if AllSpace(before) || AllSpace(after) then Err(EmptyFilterPart(token))
        else if !engine.compiles(patternText) then Err(InvalidFilterPattern(patternText))
        else Ok(Filter(property, Pattern(patternText)))
  {
    SplitFirstUnique(before, after, '=');
    TrimSpaceEmpty(before);
    TrimSpaceEmpty(after);
  }

  /** Applies `f` to every element in order: all the values when every
      application succeeds, otherwise the error of the first that fails. */
  function Traverse<A, B>(xs: seq<A>, f: A -> Result<B>): Result<seq<B>>
    decreases |xs|
  {
    if xs == [] then Ok([])
    else
      match f(xs[0])
      case Err(e) => Err(e)
      case Ok(y) =>
        match Traverse(xs[1..], f)
        case Err(e) => Err(e)
        case Ok(ys) => Ok([y] + ys)
  }

  /** Traverse succeeds exactly when every application succeeds. */
  lemma {:induction false} TraverseOk<A, B>(xs: seq<A>, f: A -> Result<B>)
    ensures Traverse(xs, f).Ok? <==> forall i :: 0 <= i < |xs| ==> f(xs[i]).Ok?
    decreases |xs|
  {
    if xs != [] {
      var rest := xs[1..];
      TraverseOk(rest, f);
      assert forall i :: 1 <= i < |xs| ==> xs[i] == rest[i - 1];
    }
  }

  /** A successful Traverse holds one value per element, in order. */
  lemma {:induction false} TraverseValues<A, B>(xs: seq<A>, f: A -> Result<B>)
    requires Traverse(xs, f).Ok?
    ensures |Traverse(xs, f).value| == |xs|
    ensures forall i :: 0 <= i < |xs| ==> f(xs[i]) == Ok(Traverse(xs, f).value[i])
    decreases |xs|
  {
    if xs != [] {
      var rest := xs[1..];
      TraverseValues(rest, f);
      assert forall i :: 1 <= i < |xs| ==> xs[i] == rest[i - 1];
    }
  }

  /** Element `i` is the first whose application fails. */
  predicate FirstFailure<A, B>(xs: seq<A>, f: A -> Result<B>, i: nat)
    requires i < |xs|
  {
    f(xs[i]).Err? && forall j :: 0 <= j < i ==> f(xs[j]).Ok?
  }

  /** A failed Traverse reports the error of the first failing element and
      nothing else. */
  lemma {:induction false} TraverseFirstError<A, B>(xs: seq<A>, f: A -> Result<B>)
    requires Traverse(xs, f).Err?
    ensures exists i :: 0 <= i < |xs| && FirstFailure(xs, f, i) && f(xs[i]) == Err(Traverse(xs, f).error)
    decreases |xs|
  {
    if f(xs[0]).Err? {
      assert FirstFailure(xs, f, 0);
    } else {
      var rest := xs[1..];
      TraverseFirstError(rest, f);
      var k :| 0 <= k < |rest| && FirstFailure(rest, f, k) && f(rest[k]) == Err(Traverse(rest, f).error);
      assert xs[k + 1] == rest[k];
      assert FirstFailure(xs, f, k + 1) by {
        forall j | 0 <= j < k + 1 ensures f(xs[j]).Ok? {
          if j > 0 { assert xs[j] == rest[j - 1]; }
        }
      }
    }
  }

  /** `front` put before a successful list; an error passes through. */
  function Prefixed<T>(front: seq<T>, r: Result<seq<T>>): Result<seq<T>> {
    if r.Err? then r else Ok(front + r.value)
  }

  /** parseFilters as a function: the filters of all tokens in order, or
      the error of the first token that fails. */
  function ParseAll(engine: Engine, tokens: seq<string>): Result<seq<Filter>> {
    Traverse(tokens, (token: string) => ParseFilter(engine, token))
  }

  /** parseFilters succeeds exactly when every token parses, and then
      returns one filter per token, in token order; otherwise it returns
      the error of the first failing token and no partial list. */
  lemma ParseAllSpec(engine: Engine, tokens: seq<string>)
    ensures ParseAll(engine, tokens).Ok? <==> forall i :: 0 <= i < |tokens| ==> ParseFilter(engine, tokens[i]).Ok?
    ensures ParseAll(engine, tokens).Ok? ==>
      |ParseAll(engine, tokens).value| == |tokens|
      && forall i :: 0 <= i < |tokens| ==> ParseAll(engine, tokens).value[i] == ParseFilter(engine, tokens[i]).value
    ensures ParseAll(engine, tokens).Err? ==>
      exists i :: 0 <= i < |tokens| && ParseFilter(engine, tokens[i]) == Err(ParseAll(engine, tokens).error)
        && forall j :: 0 <= j < i ==> ParseFilter(engine, tokens[j]).Ok?
  {
    var f := (token: string) => ParseFilter(engine, token);
    TraverseOk(tokens, f);
    if ParseAll(engine, tokens).Ok? {
      TraverseValues(tokens, f);
    } else {
      TraverseFirstError(tokens, f);
      var i :| 0 <= i < |tokens| && FirstFailure(tokens, f, i) && f(tokens[i]) == Err(Traverse(tokens, f).error);
      assert ParseFilter(engine, tokens[i]) == Err(ParseAll(engine, tokens).error);
    }
  }

  /** parseFilters: the loop of the source, proved equal to ParseAll. */
  method ParseFilters(engine: Engine, tokens: seq<string>) returns (r: Result<seq<Filter>>)
    ensures r == ParseAll(engine, tokens)
  {
    var filters: seq<Filter> := [];
    assert tokens[0..] == tokens;
    assert ParseAll(engine, tokens).Ok? ==> filters + ParseAll(engine, tokens).value == ParseAll(engine, tokens).value;
    for i := 0 to |tokens|
      invariant ParseAll(engine, tokens) == Prefixed(filters, ParseAll(engine, tokens[i..]))
    {
      assert tokens[i..][1..] == tokens[i + 1..];
      var parsed := ParseFilter(engine, tokens[i]);
      if parsed.Err? {
        return Err(parsed.error);
      }
      var later := ParseAll(engine, tokens[i + 1..]);
      assert later.Ok? ==> (filters + [parsed.value]) + later.value == filters + ([parsed.value] + later.value);
      filters := filters + [parsed.value];
    }
    assert tokens[|tokens|..] == [];
    assert filters + [] == filters;
    return Ok(filters);
  }

  // ---------------------------------------------------------------------
  // applyFilters

  /** The window attribute a filter property names; None for an unknown
      property. */
  function PropertyValue(w: Window, property: string): Option<string> {
    if property == "app-name" then Some(w.appName)
    else if property == "window-title" then Some(w.windowTitle)
    else if property == "app-bundle-id" then Some(w.appBundleId)
    else None
  }

  /** A filter passes a window when it names a known property and its
      pattern matches that property's value. */
  predicate Passes(engine: Engine, w: Window, f: Filter) {
    PropertyValue(w, f.property).Some? && MatchString(engine, f.pattern, PropertyValue(w, f.property).value)
  }

  /** applyFilters as a function: filters are examined in order and the
      first one that does not pass decides (an unknown property is an
      error, a mismatch is `false`). */
  function Verdict(engine: Engine, w: Window, filters: seq<Filter>): Result<bool>
    decreases |filters|
  {
    if filters == [] then Ok(true)
    else
      match PropertyValue(w, filters[0].property)
      case None => Err(UnknownFilterProperty(filters[0].property))
      case Some(value) =>
        if !MatchString(engine, filters[0].pattern, value) then Ok(false)
        else Verdict(engine, w, filters[1..])
  }

  /** applyFilters accepts a window when every filter passes (vacuously
      when there are none). */
  lemma {:induction false} VerdictAllPass(engine: Engine, w: Window, filters: seq<Filter>)
    requires forall i :: 0 <= i < |filters| ==> Passes(engine, w, filters[i])
    ensures Verdict(engine, w, filters) == Ok(true)
    decreases |filters|
  {
    if filters != [] {
      assert Passes(engine, w, filters[0]);
      var rest := filters[1..];
      assert forall i :: 0 <= i < |rest| ==> rest[i] == filters[i + 1];
      VerdictAllPass(engine, w, rest);
    }
  }

  /** Otherwise the first filter that does not pass decides: an unknown
      property name is an error even when a later filter would not match,
      and a mismatch is `false` even when a later filter names an unknown
      property. */
  lemma {:induction false} VerdictFirstFailing(engine: Engine, w: Window, filters: seq<Filter>, i: nat)
    requires i < |filters| && !Passes(engine, w, filters[i])
    requires forall j :: 0 <= j < i ==> Passes(engine, w, filters[j])
    ensures Verdict(engine, w, filters) ==
      if PropertyValue(w, filters[i].property).None? then Err(UnknownFilterProperty(filters[i].property))
      else Ok(false)
    decreases i
  {
    if i > 0 {
      assert Passes(engine, w, filters[0]);
      var rest := filters[1..];
      assert forall j :: 0 <= j < |rest| ==> rest[j] == filters[j + 1];
      VerdictFirstFailing(engine, w, rest, i - 1);
    }
  }

  /** applyFilters: the loop of the source, proved equal to Verdict. */
  method ApplyFilters(engine: Engine, w: Window, filters: seq<Filter>) returns (r: Result<bool>)
    ensures r == Verdict(engine, w, filters)
  {
    for i := 0 to |filters|
      invariant Verdict(engine, w, filters) == Verdict(engine, w, filters[i..])
    {
      assert filters[i..][1..] == filters[i + 1..];
      var value: string;
      var property := filters[i].property;
      if property == "app-name" {
        value := w.appName;
      } else if property == "window-title" {
        value := w.windowTitle;
      } else if property == "app-bundle-id" {
        value := w.appBundleId;
      } else {
        return Err(UnknownFilterProperty(property));
      }
      if !MatchString(engine, filters[i].pattern, value) {
        return Ok(false);
      }
    }
    assert filters[|filters|..] == [];
    return Ok(true);
  }

  // ---------------------------------------------------------------------
  // GetFilteredWindows

  /** A window is selected when its app name matches the name pattern and
      every filter passes. */
  predicate Wanted(engine: Engine, appPattern: Pattern, filters: seq<Filter>, w: Window) {
    MatchString(engine, appPattern, w.appName) && Verdict(engine, w, filters) == Ok(true)
  }

  /** The windows that are wanted, in listing order. */
  function Selected(engine: Engine, appPattern: Pattern, filters: seq<Filter>, windows: seq<Window>): seq<Window> {
    KeepIf(windows, (w: Window) => Wanted(engine, appPattern, filters, w))
  }

  /** The windows whose filter evaluation fails: only windows whose app
      name matches are evaluated. */
  predicate Faulty(engine: Engine, appPattern: Pattern, filters: seq<Filter>, w: Window) {
    MatchString(engine, appPattern, w.appName) && Verdict(engine, w, filters).Err?
  }

  /** The selection loop of GetFilteredWindows as a function: filters are
      consulted only for windows whose app name matches, and a filter error
      on such a window aborts the whole selection. */
  function Collect(engine: Engine, appPattern: Pattern, filters: seq<Filter>, windows: seq<Window>): Result<seq<Window>>
    decreases |windows|
  {
    if windows == [] then Ok([])
    else
      var w := windows[0];
      if !MatchString(engine, appPattern, w.appName) then Collect(engine, appPattern, filters, windows[1..])
      else
        match Verdict(engine, w, filters)
        case Err(e) => Err(FilterFailed(w.appName, e))
        case Ok(pass) =>
          if !pass then Collect(engine, appPattern, filters, windows[1..])
          else
            match Collect(engine, appPattern, filters, windows[1..])
            case Err(e) => Err(e)
            case Ok(kept) => Ok([w] + kept)
  }

  /** Without a faulty window the selection is the order-preserving
      subsequence of the wanted windows. */
  lemma {:induction false} CollectKeeps(engine: Engine, appPattern: Pattern, filters: seq<Filter>, windows: seq<Window>)
    requires forall i :: 0 <= i < |windows| ==> !Faulty(engine, appPattern, filters, windows[i])
    ensures Collect(engine, appPattern, filters, windows) == Ok(Selected(engine, appPattern, filters, windows))
    decreases |windows|
  {
    if windows != [] {
      assert !Faulty(engine, appPattern, filters, windows[0]);
      var rest := windows[1..];
      assert forall i :: 0 <= i < |rest| ==> rest[i] == windows[i + 1];
      CollectKeeps(engine, appPattern, filters, rest);
      var kept := Selected(engine, appPattern, filters, rest);
      if Wanted(engine, appPattern, filters, windows[0]) {
        assert Selected(engine, appPattern, filters, windows) == [windows[0]] + kept;
      } else {
        assert Selected(engine, appPattern, filters, windows) == [] + kept;
        assert [] + kept == kept;
      }
    }
  }

  /** The first faulty window aborts the selection with its filter error. */
  lemma {:induction false} CollectFirstFaulty(engine: Engine, appPattern: Pattern, filters: seq<Filter>, windows: seq<Window>, i: nat)
    requires i < |windows| && Faulty(engine, appPattern, filters, windows[i])
    requires forall j :: 0 <= j < i ==> !Faulty(engine, appPattern, filters, windows[j])
    ensures Collect(engine, appPattern, filters, windows) ==
      Err(FilterFailed(windows[i].appName, Verdict(engine, windows[i], filters).error))
    decreases i
  {
    if i > 0 {
      assert !Faulty(engine, appPattern, filters, windows[0]);
      var rest := windows[1..];
      assert forall j :: 0 <= j < |rest| ==> rest[j] == windows[j + 1];
      CollectFirstFaulty(engine, appPattern, filters, rest, i - 1);
    }
  }

  /** The outcome of GetFilteredWindows once the windows are listed: an
      empty selection is an error that mentions the filters only when
      there are some. */
  function Selection(engine: Engine, appNamePattern: string, appPattern: Pattern, filters: seq<Filter>, windows: seq<Window>): Result<seq<Window>> {
    match Collect(engine, appPattern, filters, windows)
    case Err(e) => Err(e)
    case Ok(kept) =>
      if kept == [] then Err(NoWindowsMatched(appNamePattern, |filters| > 0)) else Ok(kept)
  }

  /** The selection loop and the empty check of GetFilteredWindows. */
  method SelectWindows(engine: Engine, appNamePattern: string, appPattern: Pattern, filters: seq<Filter>, windows: seq<Window>)
    returns (r: Result<seq<Window>>)
    ensures r == Selection(engine, appNamePattern, appPattern, filters, windows)
  {
    var filtered: seq<Window> := [];
    assert windows[0..] == windows;
    assert Collect(engine, appPattern, filters, windows).Ok? ==>
      filtered + Collect(engine, appPattern, filters, windows).value == Collect(engine, appPattern, filters, windows).value;
    for i := 0 to |windows|
      invariant Collect(engine, appPattern, filters, windows) == Prefixed(filtered, Collect(engine, appPattern, filters, windows[i..]))
    {
      assert windows[i..][1..] == windows[i + 1..];
      var window := windows[i];
      if !MatchString(engine, appPattern, window.appName) {
        continue;
      }
      var pass := ApplyFilters(engine, window, filters);
      if pass.Err? {
        return Err(FilterFailed(window.appName, pass.error));
      }
      if !pass.value {
        continue;
      }
      var later := Collect(engine, appPattern, filters, windows[i + 1..]);
      assert later.Ok? ==> (filtered + [window]) + later.value == filtered + ([window] + later.value);
      filtered := filtered + [window];
    }
    assert windows[|windows|..] == [];
    assert filtered + [] == filtered;
    if |filtered| == 0 {
      return Err(NoWindowsMatched(appNamePattern, |filters| > 0));
    }
    return Ok(filtered);
  }

  /** GetFilteredWindows as a function of the server: the name pattern and
      the filters are checked before anything is asked of the window
      manager; then the windows are listed once. */
  function FilteredWindows(engine: Engine, appNamePattern: string, flags: seq<string>, sv: Server, reply: (nat, Call) -> Reply): Answered<seq<Window>> {
    match Compile(engine, appNamePattern)
    case Invalid => Answered(sv, Err(InvalidAppNamePattern(appNamePattern)))
    case Valid(appPattern) =>
      match ParseAll(engine, flags)
      case Err(e) => Answered(sv, Err(e))
      case Ok(filters) =>
        var e := Send(sv, reply, ListAllWindows);
        if !Succeeds(e.reply) then Answered(e.server, Err(Rejected(ListAllWindows)))
        else Answered(e.server, Selection(engine, appNamePattern, appPattern, filters, sv.state.windows))
  }

  /** A bad name pattern or bad filter tokens fail before any request is
      sent; otherwise exactly one window listing is requested. */
  lemma FilteredWindowsFailFast(engine: Engine, appNamePattern: string, flags: seq<string>, sv: Server, reply: (nat, Call) -> Reply)
    ensures var a := FilteredWindows(engine, appNamePattern, flags, sv, reply);
      if !engine.compiles(appNamePattern) then a == Answered(sv, Err(InvalidAppNamePattern(appNamePattern)))
      else if ParseAll(engine, flags).Err? then a == Answered(sv, Err(ParseAll(engine, flags).error))
      else a.server.sent == sv.sent + [ListAllWindows] && a.server.state == sv.state
  {
  }

  /** GetFilteredWindows never succeeds with nothing: a success is exactly
      the listed windows, in listing order, whose app name matches and
      that every filter passes; a no-match error mentions filters exactly
      when filter tokens were given. Conversely, a rejected listing is its
      error; with an accepted listing and no filter error, the result is
      that selection, or NoWindowsMatched when it is empty; otherwise it is
      the filter error of the first name-matching window that has one. */
  lemma FilteredWindowsResult(engine: Engine, appNamePattern: string, flags: seq<string>, sv: Server, reply: (nat, Call) -> Reply)
    requires engine.compiles(appNamePattern)
    requires ParseAll(engine, flags).Ok?
    ensures var a := FilteredWindows(engine, appNamePattern, flags, sv, reply);
      var filters := ParseAll(engine, flags).value;
      && (a.result.Ok? ==>
            a.result.value != [] && a.result.value == Selected(engine, Pattern(appNamePattern), filters, sv.state.windows))
      && (a.result.Err? && a.result.error.NoWindowsMatched? ==> a.result.error.withFilters == (|flags| > 0))
    ensures var a := FilteredWindows(engine, appNamePattern, flags, sv, reply);
      var filters := ParseAll(engine, flags).value;
      var appPattern := Pattern(appNamePattern);
      var windows := sv.state.windows;
      var selected := Selected(engine, appPattern, filters, windows);
      var listed := Succeeds(reply(|sv.sent|, ListAllWindows));
      && (!listed ==> a.result == Err(Rejected(ListAllWindows)))
      && (listed && (forall i :: 0 <= i < |windows| ==> !Faulty(engine, appPattern, filters, windows[i])) ==>
            a.result == if selected == [] then Err(NoWindowsMatched(appNamePattern, |flags| > 0)) else Ok(selected))
      && (listed && (exists i :: 0 <= i < |windows| && Faulty(engine, appPattern, filters, windows[i])) ==>
            var i := FirstFaulty(engine, appPattern, filters, windows);
            a.result == Err(FilterFailed(windows[i].appName, Verdict(engine, windows[i], filters).error)))
  {
    var filters := ParseAll(engine, flags).value;
    var appPattern := Pattern(appNamePattern);
    var windows := sv.state.windows;
    ParseAllSpec(engine, flags);
    assert |filters| == |flags|;
    if forall i :: 0 <= i < |windows| ==> !Faulty(engine, appPattern, filters, windows[i]) {
      CollectKeeps(engine, appPattern, filters, windows);
    } else {
      var i := FirstFaulty(engine, appPattern, filters, windows);
      CollectFirstFaulty(engine, appPattern, filters, windows, i);
    }
  }

  /** Index of the first faulty window, given that there is one. */
  function FirstFaulty(engine: Engine, appPattern: Pattern, filters: seq<Filter>, windows: seq<Window>): (i: nat)
    requires exists i :: 0 <= i < |windows| && Faulty(engine, appPattern, filters, windows[i])
    ensures i < |windows| && Faulty(engine, appPattern, filters, windows[i])
    ensures forall j :: 0 <= j < i ==> !Faulty(engine, appPattern, filters, windows[j])
    decreases |windows|
  {
    if Faulty(engine, appPattern, filters, windows[0]) then 0
    else
      var rest := windows[1..];
      assert forall j :: 0 <= j < |rest| ==> rest[j] == windows[j + 1];
      1 + FirstFaulty(engine, appPattern, filters, rest)
  }

  /** The window GetNextScratchpadWindow returns is the first window, in
      listing order, that sits on the scratchpad workspace. */
  lemma NextScratchpadIsFirst(s: WmState)
    requires WindowsIn(s, ScratchpadWorkspace) != []
    ensures exists i ::
              && 0 <= i < |s.windows| && s.windows[i] == WindowsIn(s, ScratchpadWorkspace)[0]
              && s.windows[i].workspace == ScratchpadWorkspace
              && forall j :: 0 <= j < i ==> s.windows[j].workspace != ScratchpadWorkspace
  {
    KeepIfHead(s.windows, (w: Window) => w.workspace == ScratchpadWorkspace);
  }

  // ---------------------------------------------------------------------
  // The querier

  class AeroSpaceQueryMaker {
    const cli: AeroSpaceWM

    /** NewAerospaceQuerier. */
    constructor (cli: AeroSpaceWM)
      ensures this.cli == cli
    {
      this.cli := cli;
    }

    method IsWindowInWorkspace(windowId: int, name: string) returns (r: Workspaces.Checked)
      modifies cli
      ensures var e := Send(old(cli.Snapshot()), cli.reply, ListWorkspaceWindows(name));
        && cli.Snapshot() == e.server
        && r == Workspaces.IsWindowInWorkspace(
             ListingAnswer(WindowsIn(old(cli.state), name), e.reply, ListWorkspaceWindows(name)), windowId)
    {
      var windows := cli.GetAllWindowsByWorkspace(name);
      r := Workspaces.IsWindowInWorkspace(windows, windowId);
    }

    method IsWindowInFocusedWorkspace(windowId: int) returns (r: Workspaces.Checked)
      modifies cli
      ensures var e := Send(old(cli.Snapshot()), cli.reply, QueryFocusedWorkspace);
        var focused := FocusedWorkspaceAnswer(old(cli.state), e.reply);
        var listings := (name: string) =>
          ListingAnswer(WindowsIn(e.server.state, name), cli.reply(|e.server.sent|, ListWorkspaceWindows(name)),
                        ListWorkspaceWindows(name));
        && r == Workspaces.IsWindowInFocusedWorkspace(focused, listings, windowId)
        && cli.Snapshot() ==
             if focused.Err? then e.server
             else Send(e.server, cli.reply, ListWorkspaceWindows(focused.value.workspace)).server
    {
      var focused := cli.GetFocusedWorkspace();
      if focused.Err? {
        return Workspaces.Checked(false, Some(focused.error));
      }
      r := IsWindowInWorkspace(windowId, focused.value.workspace);
    }

    method IsWindowFocused(windowId: int) returns (r: Workspaces.Checked)
      modifies cli
      ensures var e := Send(old(cli.Snapshot()), cli.reply, QueryFocusedWindow);
        && cli.Snapshot() == e.server
        && r == Workspaces.IsWindowFocused(FocusedWindowAnswer(old(cli.state), e.reply), windowId)
    {
      var focused := cli.GetFocusedWindow();
      r := Workspaces.IsWindowFocused(focused, windowId);
    }

    /** GetNextScratchpadWindow: the first window the manager lists for the
        scratchpad workspace, an error when it lists none. */
    method GetNextScratchpadWindow() returns (r: Result<Window>)
      modifies cli
      ensures var c := ListWorkspaceWindows(ScratchpadWorkspace);
        var e := Send(old(cli.Snapshot()), cli.reply, c);
        var hidden := WindowsIn(old(cli.state), ScratchpadWorkspace);
        && cli.Snapshot() == e.server
        && r == if !Succeeds(e.reply) then Err(Rejected(c))
                else if hidden == [] then Err(NoScratchpadWindows)
                else Ok(hidden[0])
    {
      var windows := cli.GetAllWindowsByWorkspace(ScratchpadWorkspace);
      if windows.Err? {
        return Err(windows.error);
      }
      if |windows.value| == 0 {
        return Err(NoScratchpadWindows);
      }
      return Ok(windows.value[0]);
    }

    method GetFilteredWindows(engine: Engine, appNamePattern: string, flags: seq<string>) returns (r: Result<seq<Window>>)
      modifies cli
      ensures var a := FilteredWindows(engine, appNamePattern, flags, old(cli.Snapshot()), cli.reply);
        cli.Snapshot() == a.server && r == a.result
    {
      var compiled := Compile(engine, appNamePattern);
      if compiled.Invalid? {
        return Err(InvalidAppNamePattern(appNamePattern));
      }
      var filters := ParseFilters(engine, flags);
      if filters.Err? {
        return Err(filters.error);
      }
      var windows := cli.GetAllWindows();
      if windows.Err? {
        return Err(windows.error);
      }
      r := SelectWindows(engine, appNamePattern, compiled.pattern, filters.value, windows.value);
    }
  }
}
