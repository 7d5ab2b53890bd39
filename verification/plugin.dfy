/**
 * The plugin itself (src/main.rs): recovering a working directory from a pane
 * title, reading the git helper's output, tagging and recognising the
 * plugin's own commands, and the `State` that reacts to the host's tab, pane
 * and command-result events. The two calls the plugin makes into the host,
 * `rename_tab` and `run_command`, are recorded in an append-only log of
 * actions instead of being performed.
 */
module Plugin {
  import opened Wrappers
  import opened Text
  import opened Iter
  import opened Formatter
  import opened Context

  /** The shell script that prints the branch checked out in directory `$1`. */
  const GitBranchScript: string := "git -C \"$1\" rev-parse --abbrev-ref HEAD 2>/dev/null"

  /** The value of `"source"` that marks the plugin's own commands. */
  const PluginTag: string := "namey"

  /** `is_our_command`: the result carries the plugin's own tag. */
  function IsOurCommand(context: map<string, string>): (ours: bool)
    ensures ours <==> "source" in context && context["source"] == PluginTag
  {
    "source" in context && context["source"] == PluginTag
  }

  /**
   * `build_command_context`: the correlation map sent with a branch lookup.
   * It holds exactly the plugin's tag and the directory looked up, so the
   * plugin recognises the result as its own and can read the path back.
   */
  function BuildCommandContext(path: string): (context: map<string, string>)
    ensures context.Keys == {"source", "path"}
    ensures IsOurCommand(context)
    ensures context["path"] == path
  {
    map["source" := PluginTag, "path" := path]
  }

  /** The title begins like a path: with `/` or `~`. */
  predicate StartsLikePath(s: string) {
    |s| > 0 && (s[0] == '/' || s[0] == '~')
  }

  /** The trimmed text after the last occurrence of `marker` in `t`, if `marker` occurs. */
  function TextAfterLast(t: string, marker: string): (r: Option<string>)
    ensures r.Some? <==> LastIndexOf(t, marker).Some?
    ensures r.Some? ==> IsTrimmed(r.value)
  {
    match LastIndexOf(t, marker)
    case None => None
    case Some(i) => Some(Trim(t[i + |marker|..]))
  }

  /**
   * `extract_cwd_from_title`: after trimming the title, the first of these
   * that starts with `/` or `~` is the directory: the trimmed text after the
   * last `": "`, the whole title, the trimmed text after the last `':'`.
   * A directory found starts like a path and has no surrounding whitespace.
   */
  function ExtractCwdFromTitle(title: string): (cwd: Option<string>)
    ensures Trim(title) == [] ==> cwd.None?
    ensures cwd.Some? ==> StartsLikePath(cwd.value) && IsTrimmed(cwd.value)
  {
    var t := Trim(title);
    if t == [] then None
    else
      var afterColonSpace := TextAfterLast(t, ": ");
      if afterColonSpace.Some? && StartsLikePath(afterColonSpace.value) then afterColonSpace
      else if StartsLikePath(t) then Some(t)
      else
        var afterColon := TextAfterLast(t, ":");
        if afterColon.Some? && StartsLikePath(afterColon.value) then afterColon else None
  }

  /** The text after a marker in a trimmed text is a tail of that text. */
  lemma TextAfterLastIsTail(t: string, marker: string)
    requires IsTrimmed(t)
    ensures TextAfterLast(t, marker).Some? ==> IsSuffix(TextAfterLast(t, marker).value, t)
  {
    var r := LastIndexOf(t, marker);
    if r.Some? {
      var k := r.value;
      assert k + |marker| <= |t|;
      TrimOfTailIsSuffix(t, k + |marker|);
      assert TextAfterLast(t, marker) == Some(Trim(t[k + |marker|..]));
    }
  }

  /** A directory found in a title is a tail of the trimmed title: nothing is invented or reordered. */
  lemma ExtractedCwdIsTail(title: string)
    ensures ExtractCwdFromTitle(title).Some? ==> IsSuffix(ExtractCwdFromTitle(title).value, Trim(title))
  {
    TextAfterLastIsTail(Trim(title), ": ");
    TextAfterLastIsTail(Trim(title), ":");
  }

  /** No last occurrence of `marker` in `t` is followed by text that starts like a path. */
  ghost predicate NoPathAfter(t: string, marker: string) {
    forall i: nat :: IsLastOccurrence(t, marker, i) ==> !StartsLikePath(Trim(t[i + |marker|..]))
  }

  /** `TextAfterLast` finds exactly the text after the last occurrence of the marker. */
  lemma TextAfterLastOccurrence(t: string, marker: string, i: nat)
    requires IsLastOccurrence(t, marker, i)
    ensures TextAfterLast(t, marker) == Some(Trim(t[i + |marker|..]))
  {
    LastOccurrenceFound(t, marker, i);
  }

  /** Without any occurrence of `marker`, nothing follows it. */
  lemma NoMarkerNoPathAfter(t: string, marker: string)
    requires LastIndexOf(t, marker).None?
    ensures NoPathAfter(t, marker)
    ensures TextAfterLast(t, marker).None?
  {
    forall i: nat
      ensures !IsLastOccurrence(t, marker, i)
    {
    }
  }

  /** With a last occurrence at `k`, `NoPathAfter` is the path test on the text after `k`. */
  lemma NoPathAfterLastMarker(t: string, marker: string, k: nat)
    requires IsLastOccurrence(t, marker, k)
    ensures NoPathAfter(t, marker) <==> !StartsLikePath(Trim(t[k + |marker|..]))
  {
    LastOccurrenceIsOnly(t, marker, k);
  }

  /** The path test on `TextAfterLast` and `NoPathAfter` say opposite things. */
  lemma NoPathAfterMeansNoMatch(t: string, marker: string)
    ensures NoPathAfter(t, marker) <==>
            !(TextAfterLast(t, marker).Some? && StartsLikePath(TextAfterLast(t, marker).value))
  {
    match LastIndexOf(t, marker)
    case None =>
      NoMarkerNoPathAfter(t, marker);
    case Some(k) =>
      TextAfterLastOccurrence(t, marker, k);
      NoPathAfterLastMarker(t, marker, k);
  }

  /** First rule: a path after the last `": "` wins over everything else. */
  lemma ColonSpaceRuleFirst(title: string, i: nat)
    requires IsLastOccurrence(Trim(title), ": ", i)
    requires StartsLikePath(Trim(Trim(title)[i + 2..]))
    ensures ExtractCwdFromTitle(title) == Some(Trim(Trim(title)[i + 2..]))
  {
    TextAfterLastOccurrence(Trim(title), ": ", i);
  }

  /** Second rule: otherwise a title that itself starts like a path is the path. */
  lemma WholeTitleRuleSecond(title: string)
    requires NoPathAfter(Trim(title), ": ")
    requires StartsLikePath(Trim(title))
    ensures ExtractCwdFromTitle(title) == Some(Trim(title))
  {
    NoPathAfterMeansNoMatch(Trim(title), ": ");
  }

  /** Third rule: otherwise a path after the last `':'` is taken. */
  lemma ColonRuleThird(title: string, i: nat)
    requires NoPathAfter(Trim(title), ": ")
    requires !StartsLikePath(Trim(title))
    requires IsLastOccurrence(Trim(title), ":", i)
    requires StartsLikePath(Trim(Trim(title)[i + 1..]))
    ensures ExtractCwdFromTitle(title) == Some(Trim(Trim(title)[i + 1..]))
  {
    NoPathAfterMeansNoMatch(Trim(title), ": ");
    TextAfterLastOccurrence(Trim(title), ":", i);
  }

  /** No directory is found exactly when the title is blank or none of the three rules applies. */
  lemma NoCwdExactlyWhenNoRuleApplies(title: string)
    ensures ExtractCwdFromTitle(title).None? <==>
            var t := Trim(title);
            t == [] || (NoPathAfter(t, ": ") && !StartsLikePath(t) && NoPathAfter(t, ":"))
  {
    NoPathAfterMeansNoMatch(Trim(title), ": ");
    NoPathAfterMeansNoMatch(Trim(title), ":");
  }

  /**
   * `parse_git_branch` on already decoded output: the trimmed output, or
   * nothing when the output is blank.
   */
  function ParseGitBranch(stdout: string): (branch: Option<string>)
    ensures branch.None? <==> forall i :: 0 <= i < |stdout| ==> IsWhitespace(stdout[i])
    ensures branch.Some? ==> branch.value == Trim(stdout) && branch.value != []
  {
    var trimmed := Trim(stdout);
    if trimmed == [] then None else Some(trimmed)
  }

  /** A shell title `"<program>: <dir>"` yields `dir`, the text after the colon. */
  lemma ShellTitleGivesDir(program: string, dir: string)
    requires program != [] && !IsWhitespace(program[0])
    requires StartsLikePath(dir) && IsTrimmed(dir) && ':' !in dir
    ensures ExtractCwdFromTitle(program + ": " + dir) == Some(dir)
  {
    var t := program + ": " + dir;
    assert IsTrimmed(t);
    TrimOfTrimmed(t);
    LastOccurrenceAfter(program, ": ", dir);
    assert t[|program| + 2..] == dir;
    TrimOfTrimmed(dir);
    ColonSpaceRuleFirst(t, |program|);
  }

  /** The only colon of `"<prompt>:<dir>"` is followed by the path's first character, not a space. */
  lemma NoColonSpaceInPrompt(prompt: string, dir: string)
    requires ':' !in prompt && StartsLikePath(dir) && ':' !in dir
    ensures forall j: nat :: !OccursAt(prompt + ":" + dir, ": ", j)
  {
    var t := prompt + ":" + dir;
    forall j: nat
      ensures !OccursAt(t, ": ", j)
    {
      if j + 2 <= |t| {
        assert t[j..j + 2][0] == t[j] && t[j..j + 2][1] == t[j + 1];
        if j < |prompt| {
          assert t[j] == prompt[j];
        } else if j > |prompt| {
          assert t[j] == dir[j - |prompt| - 1];
        } else {
          assert t[j + 1] == dir[0];
        }
      }
    }
  }

  /** A prompt title `"<user>@<host>:<dir>"` yields `dir`, the text after the only colon. */
  lemma PromptTitleGivesDir(prompt: string, dir: string)
    requires prompt != [] && !IsWhitespace(prompt[0]) && !StartsLikePath(prompt) && ':' !in prompt
    requires StartsLikePath(dir) && IsTrimmed(dir) && ':' !in dir
    ensures ExtractCwdFromTitle(prompt + ":" + dir) == Some(dir)
  {
    var t := prompt + ":" + dir;
    assert IsTrimmed(t);
    TrimOfTrimmed(t);
    NoColonSpaceInPrompt(prompt, dir);
    NoPathAfterMeansNoMatch(t, ": ");
    LastOccurrenceAfter(prompt, ":", dir);
    assert t[|prompt| + 1..] == dir;
    TrimOfTrimmed(dir);
    ColonRuleThird(t, |prompt|);
  }

  /** A title that is a path, whitespace around it aside, is that path. */
  lemma PathTitleGivesItself(pre: string, dir: string, post: string)
    requires forall i :: 0 <= i < |pre| ==> IsWhitespace(pre[i])
    requires forall i :: 0 <= i < |post| ==> IsWhitespace(post[i])
    requires StartsLikePath(dir) && IsTrimmed(dir) && ':' !in dir
    ensures ExtractCwdFromTitle(pre + dir + post) == Some(dir)
  {
    TrimSurrounded(pre, dir, post);
    NoOccurrence(dir, ": ");
    NoPathAfterMeansNoMatch(dir, ": ");
    WholeTitleRuleSecond(pre + dir + post);
  }

  /** A text without a colon has no text after either colon marker. */
  lemma NoColonNoTextAfter(t: string, marker: string)
    requires marker == ": " || marker == ":"
    requires ':' !in t
    ensures TextAfterLast(t, marker).None?
  {
    NoOccurrence(t, marker);
    NoMarkerNoPathAfter(t, marker);
  }

  /** A title without a colon that does not start like a path names no directory. */
  lemma PlainTitleGivesNothing(title: string)
    requires IsTrimmed(title) && ':' !in title && !StartsLikePath(title)
    ensures ExtractCwdFromTitle(title) == None
  {
    NoColonNoTextAfter(title, ": ");
    NoColonNoTextAfter(title, ":");
    TrimOfTrimmed(title);
  }

  /** A title of whitespace only names no directory. */
  lemma BlankTitleGivesNothing(title: string)
    requires forall i :: 0 <= i < |title| ==> IsWhitespace(title[i])
    ensures ExtractCwdFromTitle(title) == None
  {
    assert Trim(title) == [];
  }

  /** A shell title: `"bash: /home/me"` names `/home/me`. */
  lemma ExtractCwdShellExample()
    ensures ExtractCwdFromTitle("bash: /home/me") == Some("/home/me")
  {
    assert "bash: /home/me" == "bash" + ": " + "/home/me";
    ShellTitleGivesDir("bash", "/home/me");
  }

  /** A prompt title: `"user@host:/home/me"` names `/home/me`. */
  lemma ExtractCwdPromptExample()
    ensures ExtractCwdFromTitle("user@host:/home/me") == Some("/home/me")
  {
    assert "user@host:/home/me" == "user@host" + ":" + "/home/me";
    PromptTitleGivesDir("user@host", "/home/me");
  }

  /** A padded path: `"  ~/code  "` names `~/code`. */
  lemma ExtractCwdPathExample()
    ensures ExtractCwdFromTitle("  ~/code  ") == Some("~/code")
  {
    assert "  ~/code  " == "  " + "~/code" + "  ";
    PathTitleGivesItself("  ", "~/code", "  ");
  }

  /** Blank titles name no directory. */
  lemma ExtractCwdBlankExample()
    ensures ExtractCwdFromTitle(" \t\n") == None
  {
    BlankTitleGivesNothing(" \t\n");
  }

  /** A plain command title names no directory. */
  lemma ExtractCwdPlainExample()
    ensures ExtractCwdFromTitle("vim notes.txt") == None
  {
    PlainTitleGivesNothing("vim notes.txt");
  }

  /** Git output with a trailing newline, and blank output. */
  lemma ParseGitBranchExamples()
    ensures ParseGitBranch("main\n") == Some("main")
    ensures ParseGitBranch("") == None
    ensures ParseGitBranch(" \r\n") == None
  {
    assert "main\n" == "" + "main" + "\n";
    TrimSurrounded("", "main", "\n");
  }

  /** A tab as the host reports it. */
  datatype TabInfo = TabInfo(position: nat, name: string, active: bool)

  /** A pane as the host reports it. */
  datatype PaneInfo = PaneInfo(title: string, isFocused: bool, isPlugin: bool)

  /**
   * The host's pane manifest: for each tab, its panes. The host keeps these
   * in a hash map; the outer sequence is the order in which it yields them.
   */
  datatype PaneManifest = PaneManifest(panes: seq<seq<PaneInfo>>)

  /** The host events the plugin subscribes to; any other event is `OtherEvent`. */
  datatype Event =
    | PermissionRequestResult(granted: bool)
    | TabUpdate(tabs: seq<TabInfo>)
    | PaneUpdate(manifest: PaneManifest)
    | RunCommandResult(exitCode: Option<int32>, stdout: string, stderr: string, context: map<string, string>)
    | OtherEvent

  /** A call from the plugin into the host. */
  datatype Action =
    | RenameTab(tabPosition: nat, name: string)
    | RunCommand(command: seq<string>, context: map<string, string>)

  /**
   * `request_git_branch`: run the git script under bash with `path` as its
   * first argument `$1`, tagged as the plugin's own command for `path`.
   */
  function BranchLookup(path: string): (a: Action)
    ensures a.RunCommand? && |a.command| == 5
    ensures a.command[..3] == ["bash", "-c", GitBranchScript] && a.command[4] == path
    ensures IsOurCommand(a.context) && "path" in a.context && a.context["path"] == path
  {
    RunCommand(["bash", "-c", GitBranchScript, "_", path], BuildCommandContext(path))
  }

  /** `find` over the tabs: the first tab the host marks active. */
  function ActiveTab(tabs: seq<TabInfo>): (tab: Option<TabInfo>)
    ensures tab.Some? ==> tab.value.active
    ensures tab.Some? ==> exists i :: 0 <= i < |tabs| && tabs[i] == tab.value && forall j :: 0 <= j < i ==> !tabs[j].active
    ensures tab.None? <==> forall i :: 0 <= i < |tabs| ==> !tabs[i].active
  {
    match Position(tabs, (t: TabInfo) => t.active)
    case None => None
    case Some(i) =>
      assert forall j :: 0 <= j < i ==> !tabs[j].active;
      Some(tabs[i])
  }

  /** A pane the plugin reads its directory from: focused, and a terminal rather than a plugin. */
  predicate IsFocusedTerminal(p: PaneInfo) {
    p.isFocused && !p.isPlugin
  }

  /**
   * `panes.values().flatten().find(...)`: the first pane, over all tabs in
   * host order, that has focus and is not a plugin.
   */
  function FocusedTerminal(manifest: PaneManifest): (pane: Option<PaneInfo>)
    ensures pane.Some? ==> IsFocusedTerminal(pane.value)
    ensures pane.Some? ==>
              var panes := Flatten(manifest.panes);
              exists i :: 0 <= i < |panes| && panes[i] == pane.value && forall j :: 0 <= j < i ==> !IsFocusedTerminal(panes[j])
    ensures pane.None? <==> forall p :: p in Flatten(manifest.panes) ==> !IsFocusedTerminal(p)
  {
    var panes := Flatten(manifest.panes);
    match Position(panes, IsFocusedTerminal)
    case None => None
    case Some(i) =>
      assert forall j :: 0 <= j < i ==> !IsFocusedTerminal(panes[j]);
      Some(panes[i])
  }

  /** Rename the tab at `tabIndex` to `name`, unless `name` is the last name the host reported. */
  function RenameIfChanged(tabIndex: nat, currentName: string, name: string): (r: seq<Action>)
    ensures r == [] <==> name == currentName
    ensures r != [] ==> r == [RenameTab(tabIndex, name)]
  {
    if name != currentName then [RenameTab(tabIndex, name)] else []
  }

  /**
   * The tab name built from a command result for directory `path`: the
   * folder alone unless the lookup exited with status 0, printed something
   * other than whitespace, and branches are shown; then the folder, the
   * separator and the trimmed output as the branch.
   */
  function CommandResultName(exitCode: Option<int32>, stdout: string, path: string,
                             config: FormatterConfig): (name: string)
    ensures exitCode != Some(0) || Trim(stdout) == [] || !config.showBranch ==>
              name == FolderDisplay(PaneContext(path, None).FolderName(), config)
    ensures exitCode == Some(0) && Trim(stdout) != [] && config.showBranch ==>
              name == FolderDisplay(PaneContext(path, None).FolderName(), config) + config.separator
                      + BranchDisplay(Trim(stdout), config)
  {
    var ctx := PaneContext(path, if exitCode == Some(0) then ParseGitBranch(stdout) else None);
    FormatTabName(ctx.FolderName(), ctx.branch, config)
  }

  /**
   * What `handle_command_result` asks of the host: nothing for a foreign
   * result or one without a path; otherwise a rename at most. The directory
   * tracked from pane titles plays no part.
   */
  function CommandResultActions(exitCode: Option<int32>, stdout: string, context: map<string, string>,
                                config: FormatterConfig, tabIndex: nat, tabName: string): (r: seq<Action>)
    ensures |r| <= 1
    ensures forall a :: a in r ==> a.RenameTab? && a.tabPosition == tabIndex && a.name != tabName
    ensures !IsOurCommand(context) || "path" !in context ==> r == []
  {
    if !IsOurCommand(context) || "path" !in context then []
    else RenameIfChanged(tabIndex, tabName, CommandResultName(exitCode, stdout, context["path"], config))
  }

  /**
   * The directory tracked after the focused pane shows `title`. A blank title
   * keeps it; a new one always starts like a path and is trimmed.
   */
  function TitleUpdateCwd(title: string, currentCwd: Option<string>): (cwd: Option<string>)
    ensures Trim(title) == [] ==> cwd == currentCwd
    ensures cwd != currentCwd ==> cwd.Some? && StartsLikePath(cwd.value) && IsTrimmed(cwd.value)
  {
    match ExtractCwdFromTitle(title)
    case Some(cwd) => Some(cwd)
    case None => currentCwd
  }

  /**
   * What the plugin asks of the host when the focused pane shows `title`: a
   * branch lookup when the title shows a new directory, a folder-only rename
   * when it shows no directory and is not blank, or nothing.
   */
  function TitleUpdateActions(title: string, currentCwd: Option<string>, config: FormatterConfig,
                              tabIndex: nat, tabName: string): (r: seq<Action>)
    ensures TitleUpdateCwd(title, currentCwd) != currentCwd ==>
              r == [BranchLookup(TitleUpdateCwd(title, currentCwd).value)]
    ensures TitleUpdateCwd(title, currentCwd) == currentCwd ==>
              r == [] || r == [RenameTab(tabIndex, FolderDisplay(Trim(title), config))]
    ensures forall a :: a in r && a.RenameTab? ==> a.name != tabName
  {
    match ExtractCwdFromTitle(title)
    case Some(cwd) => if currentCwd != Some(cwd) then [BranchLookup(cwd)] else []
    case None =>
      var folder := Trim(title);
      if folder != [] then RenameIfChanged(tabIndex, tabName, FormatTabName(folder, None, config)) else []
  }

  /**
   * The directory tracked after a pane update: unchanged without a focused
   * terminal pane; a new one always starts like a path and is trimmed.
   */
  function PaneUpdateCwd(manifest: PaneManifest, currentCwd: Option<string>): (cwd: Option<string>)
    ensures FocusedTerminal(manifest).None? ==> cwd == currentCwd
    ensures cwd != currentCwd ==> cwd.Some? && StartsLikePath(cwd.value) && IsTrimmed(cwd.value)
  {
    match FocusedTerminal(manifest)
    case None => currentCwd
    case Some(pane) => TitleUpdateCwd(pane.title, currentCwd)
  }

  /**
   * What `handle_pane_update` asks of the host: what the focused terminal
   * pane's title calls for, or nothing when no terminal pane has focus. At
   * most one call; a lookup only for a directory not tracked yet, a rename
   * only when the directory stays and the name differs.
   */
  function PaneUpdateActions(manifest: PaneManifest, currentCwd: Option<string>, config: FormatterConfig,
                             tabIndex: nat, tabName: string): (r: seq<Action>)
    ensures |r| <= 1
    ensures forall a :: a in r && a.RunCommand? ==>
              PaneUpdateCwd(manifest, currentCwd) != currentCwd && a == BranchLookup(PaneUpdateCwd(manifest, currentCwd).value)
    ensures forall a :: a in r && a.RenameTab? ==>
              PaneUpdateCwd(manifest, currentCwd) == currentCwd && a.tabPosition == tabIndex && a.name != tabName
  {
    match FocusedTerminal(manifest)
    case None => []
    case Some(pane) => TitleUpdateActions(pane.title, currentCwd, config, tabIndex, tabName)
  }

  /** A newly tracked directory is a tail of the focused pane's trimmed title. */
  lemma NewCwdIsTailOfTitle(manifest: PaneManifest, currentCwd: Option<string>)
    requires PaneUpdateCwd(manifest, currentCwd) != currentCwd
    ensures FocusedTerminal(manifest).Some?
    ensures IsSuffix(PaneUpdateCwd(manifest, currentCwd).value, Trim(FocusedTerminal(manifest).value.title))
  {
    ExtractedCwdIsTail(FocusedTerminal(manifest).value.title);
  }

  /** A new directory in the focused pane's title triggers exactly one lookup, tagged with it. */
  lemma NewCwdDispatchesOneLookup(manifest: PaneManifest, currentCwd: Option<string>, config: FormatterConfig,
                                  tabIndex: nat, tabName: string, cwd: string)
    requires FocusedTerminal(manifest).Some?
    requires ExtractCwdFromTitle(FocusedTerminal(manifest).value.title) == Some(cwd)
    requires currentCwd != Some(cwd)
    ensures PaneUpdateCwd(manifest, currentCwd) == Some(cwd)
    ensures PaneUpdateActions(manifest, currentCwd, config, tabIndex, tabName) == [BranchLookup(cwd)]
    ensures IsOurCommand(BranchLookup(cwd).context) && BranchLookup(cwd).context["path"] == cwd
  {
  }

  /** Without a focused terminal pane nothing happens. */
  lemma NoFocusIsQuiet(manifest: PaneManifest, currentCwd: Option<string>, config: FormatterConfig,
                       tabIndex: nat, tabName: string)
    requires FocusedTerminal(manifest).None?
    ensures PaneUpdateCwd(manifest, currentCwd) == currentCwd
    ensures PaneUpdateActions(manifest, currentCwd, config, tabIndex, tabName) == []
  {
  }

  /** Seeing the same directory again is silent: no lookup, no rename. */
  lemma SameCwdIsQuiet(manifest: PaneManifest, currentCwd: Option<string>, config: FormatterConfig,
                       tabIndex: nat, tabName: string)
    requires FocusedTerminal(manifest).Some?
    requires ExtractCwdFromTitle(FocusedTerminal(manifest).value.title).Some?
    ensures var next := PaneUpdateCwd(manifest, currentCwd);
            PaneUpdateActions(manifest, next, config, tabIndex, tabName) == [] &&
            PaneUpdateCwd(manifest, next) == next
  {
  }

  /**
   * A title without a directory, when not blank, becomes the folder label;
   * the tracked directory is left alone.
   */
  lemma TitleWithoutCwdRenames(manifest: PaneManifest, currentCwd: Option<string>, config: FormatterConfig,
                               tabIndex: nat, tabName: string)
    requires FocusedTerminal(manifest).Some?
    requires ExtractCwdFromTitle(FocusedTerminal(manifest).value.title).None?
    ensures PaneUpdateCwd(manifest, currentCwd) == currentCwd
    ensures var folder := Trim(FocusedTerminal(manifest).value.title);
            PaneUpdateActions(manifest, currentCwd, config, tabIndex, tabName)
            == if folder == [] then [] else RenameIfChanged(tabIndex, tabName, FolderDisplay(folder, config))
  {
    var folder := Trim(FocusedTerminal(manifest).value.title);
    FolderOnlyWithoutBranch(folder, None, config);
  }

  /**
   * The result of the plugin's own lookup for `path` is always accepted and
   * yields the label for `path`, whichever directory is tracked by then.
   */
  lemma LookupResultAccepted(path: string, exitCode: Option<int32>, stdout: string,
                             config: FormatterConfig, tabIndex: nat, tabName: string)
    ensures CommandResultActions(exitCode, stdout, BranchLookup(path).context, config, tabIndex, tabName)
         == RenameIfChanged(tabIndex, tabName, CommandResultName(exitCode, stdout, path, config))
  {
  }

  /** The path of the most recent lookup in `log`, if there is one. */
  function LastLookupPath(log: seq<Action>): Option<string> {
    if log == [] then None
    else
      match log[|log| - 1]
      case RunCommand(_, context) => if "path" in context then Some(context["path"]) else None
      case RenameTab(_, _) => LastLookupPath(log[..|log| - 1])
  }

  /** `a` is a branch lookup made by the plugin. */
  predicate IsLookup(a: Action) {
    a.RunCommand? && "path" in a.context && a == BranchLookup(a.context["path"])
  }

  /** Every command in `log` is a branch lookup made by the plugin. */
  predicate OnlyLookups(log: seq<Action>) {
    forall i :: 0 <= i < |log| && log[i].RunCommand? ==> IsLookup(log[i])
  }

  /** Logging a lookup keeps the log made of lookups and makes its path the latest one. */
  lemma LookupLogged(log: seq<Action>, path: string)
    requires OnlyLookups(log)
    ensures OnlyLookups(log + [BranchLookup(path)])
    ensures LastLookupPath(log + [BranchLookup(path)]) == Some(path)
  {
    assert IsLookup(BranchLookup(path));
  }

  /** Logging a rename changes neither property of the log. */
  lemma RenameLogged(log: seq<Action>, position: nat, name: string)
    requires OnlyLookups(log)
    ensures OnlyLookups(log + [RenameTab(position, name)])
    ensures LastLookupPath(log + [RenameTab(position, name)]) == LastLookupPath(log)
  {
    assert (log + [RenameTab(position, name)])[..|log|] == log;
  }

  /**
   * The plugin's session state. `actions` is the log of host calls issued so
   * far, oldest first.
   */
  class State {
    var config: FormatterConfig
    var currentCwd: Option<string>
    var currentTabIndex: nat
    var currentTabName: string
    var actions: seq<Action>

    /**
     * Every command the plugin has run is a branch lookup, and the tracked
     * directory is the one most recently looked up.
     */
    ghost predicate Valid()
      reads this
    {
      && OnlyLookups(actions)
      && currentCwd == LastLookupPath(actions)
    }

    /** `State::default()`. */
    constructor ()
      ensures Valid()
      ensures config == DefaultConfig && currentCwd == None
      ensures currentTabIndex == 0 && currentTabName == "" && actions == []
    {
      config := DefaultConfig;
      currentCwd := None;
      currentTabIndex := 0;
      currentTabName := "";
      actions := [];
    }

    /** `load`: the settings come from the host's option map. */
    method Load(configuration: map<string, string>)
      requires Valid()
      modifies this`config
      ensures Valid()
      ensures config == ConfigFromSettings(configuration)
    {
      config := FromConfig(configuration);
    }

    /**
     * `request_git_branch`: issue one branch lookup for `path`. The caller has
     * already made `path` the tracked directory, so the lookup restores `Valid`.
     */
    method RequestGitBranch(path: string)
      requires OnlyLookups(actions) && currentCwd == Some(path)
      modifies this`actions
      ensures Valid()
      ensures actions == old(actions) + [BranchLookup(path)]
    {
      LookupLogged(actions, path);
      actions := actions + [BranchLookup(path)];
    }

    /** `handle_pane_update`. */
    method HandlePaneUpdate(manifest: PaneManifest)
      requires Valid()
      modifies this`currentCwd, this`actions
      ensures Valid()
      ensures currentCwd == PaneUpdateCwd(manifest, old(currentCwd))
      ensures actions == old(actions) + PaneUpdateActions(manifest, old(currentCwd), config, currentTabIndex, currentTabName)
    {
      var focused := FocusedTerminal(manifest);
      if focused.Some? {
        HandleFocusedTitle(focused.value.title);
      }
    }

    /** The body of `handle_pane_update` once the focused terminal pane is found. */
    method HandleFocusedTitle(title: string)
      requires Valid()
      modifies this`currentCwd, this`actions
      ensures Valid()
      ensures currentCwd == TitleUpdateCwd(title, old(currentCwd))
      ensures actions == old(actions) + TitleUpdateActions(title, old(currentCwd), config, currentTabIndex, currentTabName)
    {
      var cwd := ExtractCwdFromTitle(title);
      if cwd.Some? {
        if currentCwd != Some(cwd.value) {
          currentCwd := Some(cwd.value);
          RequestGitBranch(cwd.value);
        }
      } else {
        var folder := Trim(title);
        if folder != [] {
          var newName := FormatTabName(folder, None, config);
          if newName != currentTabName {
            RenameLogged(actions, currentTabIndex, newName);
            actions := actions + [RenameTab(currentTabIndex, newName)];
          }
        }
      }
    }

    /** `handle_command_result`: no state field changes; at most a rename is issued. */
    method HandleCommandResult(exitCode: Option<int32>, stdout: string, context: map<string, string>)
      requires Valid()
      modifies this`actions
      ensures Valid()
      ensures actions == old(actions) + CommandResultActions(exitCode, stdout, context, config, currentTabIndex, currentTabName)
    {
      if !IsOurCommand(context) {
        return;
      }
      if "path" !in context {
        return;
      }
      var path := context["path"];
      var branch := if exitCode == Some(0) then ParseGitBranch(stdout) else None;
      var ctx := PaneContext(path, branch);
      var newName := FormatTabName(ctx.FolderName(), ctx.branch, config);
      if newName != currentTabName {
        RenameLogged(actions, currentTabIndex, newName);
        actions := actions + [RenameTab(currentTabIndex, newName)];
      }
    }

    /**
     * `update`: a tab update records the first active tab's position and
     * name; pane updates and command results go to their handlers; the
     * return value, "render again", is always false.
     */
    method Update(event: Event) returns (redraw: bool)
      requires Valid()
      modifies this`currentCwd, this`currentTabIndex, this`currentTabName, this`actions
      ensures Valid()
      ensures !redraw
      ensures match event
        case TabUpdate(tabs) =>
          && currentCwd == old(currentCwd) && actions == old(actions)
          && (match ActiveTab(tabs)
              case Some(tab) => currentTabIndex == tab.position && currentTabName == tab.name
              case None => currentTabIndex == old(currentTabIndex) && currentTabName == old(currentTabName))
        case PaneUpdate(manifest) =>
          && currentTabIndex == old(currentTabIndex) && currentTabName == old(currentTabName)
          && currentCwd == PaneUpdateCwd(manifest, old(currentCwd))
          && actions == old(actions) + PaneUpdateActions(manifest, old(currentCwd), config, currentTabIndex, currentTabName)
        case RunCommandResult(exitCode, stdout, _, context) =>
          && currentCwd == old(currentCwd)
          && currentTabIndex == old(currentTabIndex) && currentTabName == old(currentTabName)
          && actions == old(actions) + CommandResultActions(exitCode, stdout, context, config, currentTabIndex, currentTabName)
        case _ => unchanged(this)
    {
      match event {
        case PermissionRequestResult(_) =>
        case TabUpdate(tabs) =>
          var active := ActiveTab(tabs);
          if active.Some? {
            currentTabIndex := active.value.position;
            currentTabName := active.value.name;
          }
        case PaneUpdate(manifest) =>
          HandlePaneUpdate(manifest);
        case RunCommandResult(exitCode, stdout, _, context) =>
          HandleCommandResult(exitCode, stdout, context);
        case OtherEvent =>
      }
      redraw := false;
    }
  }
}
