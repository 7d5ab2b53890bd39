# zellij-namey, modelled in Dafny

zellij-namey is a Zellij plugin that names the active tab after the
directory shown in the focused terminal pane and, when that directory is
a git checkout, after its branch. This project models the plugin's core
logic and proves properties of it:

- `formatter.dfy` covers the tab-label formatter (`src/formatter.rs`):
  - the `FormatterConfig` settings with their defaults;
  - loading the settings from the plugin's option map;
  - codepoint-wise truncation that elides the middle with `…`;
  - joining folder and branch with the separator.
- `context.dfy` covers the pane context (`src/context.rs`):
  - parsing the helper's `"cwd|branch"` line;
  - the folder name of a working directory, following `Path::file_name`;
  - the `ContextRequest` record.
- `plugin.dfy` covers the plugin itself (`src/main.rs`):
  - recovering a directory from a pane title with three ordered rules;
  - reading the git helper's output;
  - tagging the plugin's own commands and recognising them;
  - the `State` class and its handlers for tab, pane and command-result
    events.

  The plugin calls the host in two ways, `rename_tab` and `run_command`.
  Both become entries appended to the class's `actions` log.
- `text.dfy` models the parts of Rust's `str` that the code relies on:
  - `trim`, over the Unicode White_Space set;
  - `rfind`;
  - `find` and `split_once` on one character;
  - `parse::<usize>`.
- `iter.dfy` models `flatten` and the index behind `Iterator::find`.
- `wrappers.dfy` holds `Option`.

The state handlers are methods of the class `Plugin.State`. Each method's
contract says its new state and its appended actions in terms of functions:
`PaneUpdateCwd`, `PaneUpdateActions` and `CommandResultActions`. Lemmas then
prove about those functions what the plugin promises. The class invariant
`Valid` ties the fields together. Every command in the log is a branch
lookup built by the plugin, and the tracked directory is the path of the
latest lookup.

Two things the code does not do:

- `handle_command_result` does not compare the result's path with the
  directory currently tracked, so a late result for an older directory
  still renames the tab.
- After a rename, nothing records the new name. Only a tab update from the
  host sets `current_tab_name`.

`Plugin.LookupResultAccepted` states the first point as a lemma.

## Model

| member | source | states |
|---|---|---|
| Formatter.ConfigFromSettings | src/formatter.rs:88-117 | the separator is the option's text, or `":"` when absent; the branch is hidden exactly when `show_branch` is the text `"false"` |
| Formatter.FromConfig | src/formatter.rs:88-117 | the field-by-field updates starting from the defaults yield exactly `ConfigFromSettings` of the option map |
| Formatter.NumericSettingFallback | src/formatter.rs:91-108 | a numeric option that is absent or does not parse as an unsigned number leaves its field at the default; one that parses sets the field to its value |
| Formatter.EmptySettingsGiveDefaults | src/formatter.rs:52-65 | an empty option map gives the defaults 10, 5, 4, 5, 1, 4, `":"`, branch shown |
| Formatter.InvalidNumbersIgnoredExample | src/formatter.rs:260-268 | `"not_a_number"` and `"-5"` as lengths leave every default in place |
| Formatter.SettingsRoundTrip | src/formatter.rs:88-117 | any configuration written out as options, numbers in decimal, loads back unchanged |
| Formatter.Truncate | src/formatter.rs:136-161 | the result has at most `max_len` codepoints; a string that fits is returned unchanged; an over-long one becomes its first `max_len` codepoints or prefix + `…` + suffix of length `prefix_len + 1 + suffix_len` |
| Formatter.TruncateAsWritten | src/formatter.rs:136-161 | truncation with the sums and the difference in 32-bit `usize`, wrapping as a release build does: a string that fits comes back unchanged, and a result longer than `max_len` always holds the ellipsis |
| Formatter.TruncateAsWrittenWithoutOverflow | src/formatter.rs:150-158 | when `prefix_len + 1 + suffix_len` fits in a `usize`, the code as written computes exactly `Truncate` |
| Formatter.TruncateAsWrittenOverflows | src/formatter.rs:150-160 | with `prefix_len` at `usize::MAX`, `"abcdefgh"`, `max_len` 5 and `suffix_len` 1 give 10 codepoints where `Truncate` keeps to 5 |
| Formatter.TruncateIdempotent | src/formatter.rs:136-161 | truncating twice with the same parameters is truncating once |
| Formatter.TruncateKeepsHead | src/formatter.rs:143-155 | with no prefix and no suffix, no room for the ellipsis, or prefix and suffix covering the string, the result is the first `max_len` codepoints |
| Formatter.TruncateElidesMiddle | src/formatter.rs:157-160 | in every other over-long case the result is the first `prefix_len` codepoints, `…`, and the last `suffix_len` codepoints |
| Formatter.TruncateExamples | src/formatter.rs:304-330 | the documented truncations, including the CJK one, come out as asserted |
| Formatter.FormatTabName | src/formatter.rs:188-208 | the label starts with the truncated folder and is no longer than the folder maximum, plus separator and branch maximum when a branch is shown |
| Formatter.FolderOnlyWithoutBranch | src/formatter.rs:196-207 | without a branch, or with branches hidden, the label is the truncated folder alone |
| Formatter.BranchAfterSeparator | src/formatter.rs:197-205 | with a branch, even an empty one, and branches shown, the label is truncated folder + separator + truncated branch |
| Formatter.FormatTabNameExamples | src/formatter.rs:345-417 | the documented labels under the defaults, including the doubly truncated one and the empty branch |
| Context.ContextRequest.New | src/context.rs:24-32 | the new request holds the given process id, so `ContextRequest::new(pid).pid()` is `pid` |
| Context.ContextRequest.Pid | src/context.rs:30-32 | the process id is the whole of the request: the request is rebuilt from it |
| Context.FileName | src/context.rs:107-112 | a file name found is a non-empty component free of `/` that is neither `.` nor `..` |
| Context.PaneContext.Parse | src/context.rs:76-92 | no result exactly when the trimmed output has no pipe or starts with one; otherwise the trimmed output is cwd, a pipe, then the branch text, with a non-empty, pipe-free cwd and never an empty branch |
| Context.ParseRoundTrip | src/context.rs:76-92 | parsing `cwd`, a pipe and `b` gives back `cwd` and `b`, or no branch when `b` is empty, for a non-empty pipe-free `cwd` without leading whitespace and a `b` without trailing whitespace |
| Context.ParseSplitsAtFirstPipe | src/context.rs:78-90 | the first pipe of the trimmed output splits it; everything after it, further pipes included, is the branch |
| Context.ParseIgnoresPadding | src/context.rs:77 | whitespace around a line does not change what it parses to |
| Context.ParseRejectsPipeless | src/context.rs:78 | a trimmed line without a pipe gives nothing |
| Context.ParseRejectsEmptyCwd | src/context.rs:80-82 | a line that starts with the pipe gives nothing |
| Context.ParseExampleWithBranch | src/context.rs:143-148 | the directory `/home/user/project`, a pipe and `main` give that directory and branch `main` |
| Context.ParseExampleEmptyBranch | src/context.rs:150-155 | the directory followed by a bare pipe gives no branch |
| Context.ParseExampleExtraPipe | src/context.rs:173-179 | with a second pipe after `feature`, the whole text after the first pipe is the branch |
| Context.ParseExampleTrimmed | src/context.rs:181-203 | leading spaces and a trailing CR LF are ignored |
| Context.ParseExampleEmptyCwd | src/context.rs:157-160 | a pipe followed by `main` gives nothing |
| Context.ParseExampleNoPipe | src/context.rs:167-171 | `"/home/user/project"` gives nothing |
| Context.PaneContext.FolderName | src/context.rs:107-112 | the folder is the whole cwd or a single path component |
| Context.FileNameIgnoresTrailingSlash | src/context.rs:107-112 | a trailing `/` does not change the file name |
| Context.FileNameOfJoin | src/context.rs:107-112 | the file name of `base/name` is `name` |
| Context.FileNameOfComponent | src/context.rs:107-112 | a single component is its own file name |
| Context.RootHasNoFileName | src/context.rs:107-112 | a path made only of `/` has no file name |
| Context.FolderNameOfJoin | src/context.rs:107-112 | the folder of `base/name` and of `base/name/` is `name` |
| Context.FolderNameOfRoot | src/context.rs:111 | the root, having no file name, is shown as itself |
| Context.FolderNameExampleNested | src/context.rs:226-253 | `/home/user/project` and `/home/user/project/` are shown as `project` |
| Context.FolderNameExampleRootAndBare | src/context.rs:238-262 | `/` is shown as `/` and `project` as `project` |
| Text.WhitespaceOnAscii | src/main.rs:17 | on ASCII, `trim` removes exactly space, tab, line feed, vertical tab, form feed and carriage return; it also removes U+00A0 and U+3000 but not U+200B |
| Text.TrimStart | src/main.rs:17 | only whitespace is removed, and the result does not start with whitespace |
| Text.TrimStartIsSuffix | src/main.rs:17 | what `trim_start` leaves is a tail of its input |
| Text.TrimEnd | src/main.rs:17 | the result is a prefix of the input, only whitespace is removed, and the result does not end with whitespace |
| Text.Trim | src/main.rs:17 | neither end of the result is whitespace; the result is empty exactly when the input is all whitespace |
| Text.TrimOfTrimmed | src/main.rs:17 | trimming a string with no whitespace at either end returns it unchanged |
| Text.TrimIdempotent | src/main.rs:17 | trimming twice is trimming once |
| Text.TrimOfTailIsSuffix | src/main.rs:24 | trimming a tail of a string that does not end in whitespace gives a tail of that string |
| Text.TrimSurrounded | src/main.rs:17 | `trim` removes exactly the whitespace around a trimmed, non-blank string |
| Text.LastIndexOf | src/main.rs:23 | a result is the start of the last occurrence of the pattern; no result means the pattern occurs nowhere |
| Text.LastOccurrenceFound | src/main.rs:23 | `rfind` returns the last occurrence whenever there is one |
| Text.LastOccurrenceIsOnly | src/main.rs:23 | no other position is a last occurrence |
| Text.LastOccurrenceAfter | src/main.rs:36 | in `a + m + b`, the `m` after `a` is the last occurrence when `m`'s first character appears neither later in `m` nor in `b` |
| Text.NoOccurrence | src/main.rs:36 | a pattern whose first character is absent does not occur |
| Text.IndexOf | src/context.rs:78 | a result is the position of the first occurrence of the character; no result exactly when the character is absent |
| Text.IndexOfJoin | src/context.rs:78 | in `a + [c] + b` with no `c` in `a`, the first `c` is the one right after `a` |
| Text.LastIndexOfJoin | src/context.rs:109 | in `a + [c] + b` with no `c` in `b`, the last `c` is the one right after `a` |
| Text.SplitOnce | src/context.rs:78 | no result exactly when the character is absent; otherwise the two parts with the character between them rebuild the input, and the first part does not contain it |
| Text.SplitOnceJoin | src/context.rs:78 | splitting `a + [c] + b` when `a` has no `c` gives `a` and `b` |
| Text.ParseUsize | src/formatter.rs:91 | parsing succeeds exactly for an optional `+` followed by one or more ASCII digits, and yields the decimal value of the digits |
| Text.ToDecimal | src/formatter.rs:91 | the decimal spelling of a number is non-empty, all digits, with no leading zero |
| Text.DecimalRoundTrip | src/formatter.rs:91 | the value of the decimal spelling of `n` is `n` |
| Text.ParseUsizeRoundTrip | src/formatter.rs:91 | parsing the decimal spelling of `n` gives `n` |
| Iter.Position | src/main.rs:95 | a result is the first index whose element satisfies the predicate; no result means none does |
| Iter.Flatten | src/main.rs:119 | every element of every inner sequence is in the result, every element of the result comes from an inner sequence, and the first inner sequence comes first |
| Iter.FlattenAppend | src/main.rs:119 | flattening `a + b` is flattening `a` followed by flattening `b`, so the inner sequences appear whole and in their order |
| Iter.FlattenSingle | src/main.rs:119 | one inner sequence flattens to itself |
| Plugin.IsOurCommand | src/main.rs:12-14 | true exactly when `"source"` maps to `"namey"` |
| Plugin.BuildCommandContext | src/main.rs:56-61 | the map holds exactly `"source"` and `"path"`, is recognised as the plugin's own, and maps `"path"` to the path |
| Plugin.TextAfterLast | src/main.rs:23-24 | there is a remainder exactly when the marker occurs, and it has no surrounding whitespace |
| Plugin.ExtractCwdFromTitle | src/main.rs:16-44 | a blank title gives nothing; a directory found starts with `/` or `~` and has no surrounding whitespace |
| Plugin.TextAfterLastIsTail | src/main.rs:23-24 | in a trimmed text, the remainder after a marker is a tail of that text |
| Plugin.ExtractedCwdIsTail | src/main.rs:16-44 | a directory found is a tail of the trimmed title |
| Plugin.TextAfterLastOccurrence | src/main.rs:23-24 | the remainder is the trimmed text after the last occurrence of the marker |
| Plugin.NoMarkerNoPathAfter | src/main.rs:23 | without the marker there is no remainder |
| Plugin.NoPathAfterLastMarker | src/main.rs:23-28 | "no path after the last marker" is the path test on the text after that one occurrence |
| Plugin.NoPathAfterMeansNoMatch | src/main.rs:23-28 | a marker rule does not fire exactly when no last occurrence of the marker is followed by a path |
| Plugin.ColonSpaceRuleFirst | src/main.rs:23-28 | a path after the last `": "` wins over every other rule |
| Plugin.WholeTitleRuleSecond | src/main.rs:30-33 | otherwise a title that starts with `/` or `~` is itself the directory |
| Plugin.ColonRuleThird | src/main.rs:35-41 | otherwise a path after the last `':'` is the directory |
| Plugin.NoCwdExactlyWhenNoRuleApplies | src/main.rs:16-44 | no directory exactly when the title is blank or none of the three rules applies |
| Plugin.ShellTitleGivesDir | src/main.rs:23-28 | `"<program>: <dir>"` gives `dir` |
| Plugin.PromptTitleGivesDir | src/main.rs:35-41 | `"<user>@<host>:<dir>"` gives `dir` |
| Plugin.PathTitleGivesItself | src/main.rs:30-33 | a padded path title gives the path |
| Plugin.NoColonNoTextAfter | src/main.rs:23-41 | a text without `:` has no remainder after `": "` or `":"` |
| Plugin.PlainTitleGivesNothing | src/main.rs:43 | a title without a colon that does not start like a path gives nothing |
| Plugin.BlankTitleGivesNothing | src/main.rs:17-20 | a whitespace-only title gives nothing |
| Plugin.ExtractCwdShellExample | src/main.rs:23-28 | `"bash: /home/me"` gives `/home/me` |
| Plugin.ExtractCwdPromptExample | src/main.rs:35-41 | `"user@host:/home/me"` gives `/home/me` |
| Plugin.ExtractCwdPathExample | src/main.rs:30-33 | `"  ~/code  "` gives `~/code` |
| Plugin.ExtractCwdBlankExample | src/main.rs:17-20 | a title of a space, a tab and a newline gives nothing |
| Plugin.ExtractCwdPlainExample | src/main.rs:43 | `"vim notes.txt"` gives nothing |
| Plugin.ParseGitBranch | src/main.rs:46-54 | nothing exactly when the output is all whitespace; otherwise the trimmed, non-empty output |
| Plugin.ParseGitBranchExamples | src/main.rs:46-54 | `"main\n"` gives `main`; empty and blank output give nothing |
| Plugin.ActiveTab | src/main.rs:95 | a tab found is the first active tab of the list; none exactly when no tab is active |
| Plugin.FocusedTerminal | src/main.rs:116-120 | a pane found is the first pane, over all tabs, that is focused and not a plugin; none exactly when no such pane exists |
| Plugin.TitleUpdateCwd | src/main.rs:123-127 | a blank title keeps the tracked directory; a newly tracked one starts with `/` or `~` and has no surrounding whitespace |
| Plugin.TitleUpdateActions | src/main.rs:123-137 | a new directory issues exactly one lookup for it; otherwise nothing, or one rename of the current tab to the folder-only label of the trimmed title, never to the current name |
| Plugin.PaneUpdateCwd | src/main.rs:116-127 | without a focused terminal pane the tracked directory stays; a newly tracked one starts with `/` or `~` and has no surrounding whitespace |
| Plugin.NewCwdIsTailOfTitle | src/main.rs:116-127 | a newly tracked directory is a tail of the focused pane's trimmed title |
| Plugin.BranchLookup | src/main.rs:141-143 | the lookup runs `bash -c` on the git script with the path as its argument, tagged as the plugin's own command for that path |
| Plugin.CommandResultName | src/main.rs:161-168 | the folder-only label unless the exit status is 0, the output is not blank and branches are shown; then folder, separator and the trimmed output as branch |
| Plugin.RenameIfChanged | src/main.rs:133-135 | no rename exactly when the name equals the current one; otherwise one rename of the given tab to that name |
| Plugin.CommandResultActions | src/main.rs:146-173 | at most one action, always a rename of the current tab to a different name; nothing for a foreign result or one without a path |
| Plugin.PaneUpdateActions | src/main.rs:115-139 | at most one action; a lookup only for a newly tracked directory; a rename only when the tracked directory stays, to a different name at the current tab |
| Plugin.NewCwdDispatchesOneLookup | src/main.rs:123-127 | a new directory in the focused title becomes the tracked one, and exactly one lookup, tagged with it, is issued |
| Plugin.NoFocusIsQuiet | src/main.rs:116-122 | without a focused terminal pane nothing changes and nothing is issued |
| Plugin.SameCwdIsQuiet | src/main.rs:124 | seeing the same directory again issues nothing and keeps it |
| Plugin.TitleWithoutCwdRenames | src/main.rs:128-137 | a title without a directory leaves the tracked one alone and, when not blank, renames to the folder-only label if it differs |
| Plugin.LookupResultAccepted | src/main.rs:146-173 | the result of a lookup the plugin issued is always acted on, whatever directory is tracked by then |
| Plugin.LookupLogged | src/main.rs:141-144 | logging a lookup keeps every logged command a lookup and makes its path the latest one |
| Plugin.RenameLogged | src/main.rs:134 | logging a rename keeps both properties of the log |
| Plugin.State.constructor | src/main.rs:63-69 | the default state: default settings, no directory, tab 0 with an empty name, no actions |
| Plugin.State.Load | src/main.rs:74-75 | the settings become `ConfigFromSettings` of the host's options |
| Plugin.State.RequestGitBranch | src/main.rs:141-144 | exactly one lookup for the path is appended; called once the path is the tracked directory, it restores the invariant |
| Plugin.State.HandlePaneUpdate | src/main.rs:115-139 | the new directory is `PaneUpdateCwd` and the appended actions are `PaneUpdateActions`; the invariant is kept |
| Plugin.State.HandleFocusedTitle | src/main.rs:122-137 | the same for the focused pane's title |
| Plugin.State.HandleCommandResult | src/main.rs:146-173 | only the log changes, by `CommandResultActions`; the invariant is kept |
| Plugin.State.Update | src/main.rs:91-109 | a tab update copies position and name from the first active tab, or changes nothing; pane updates and command results go to their handlers; other events change nothing; the result is always false |

## Left out

- Host plumbing is not modelled. That is `register_plugin!`, `request_permission`, `subscribe` and `render` (src/main.rs:71-89, 111). These are foreign calls with no logic of their own. `load` is modelled only by its settings step.
- `run_command` and `rename_tab` are recorded in `State.actions`, not performed.
- The git script is not run. Its output and exit status arrive as parameters of the command-result event.
- `String::from_utf8_lossy` is not modelled. `Plugin.ParseGitBranch` takes output that is already decoded.
- Formatter.Truncate: lengths are unbounded naturals, so the sums at src/formatter.rs:150 and 152 neither wrap nor panic. The wrapping behaviour is `Formatter.TruncateAsWritten` (see Findings).
- Text.ParseUsize: it reads into unbounded `nat`. A number above `usize::MAX`, which Rust rejects, is accepted here.
- Plugin.State.Update: the tab index is an unbounded `nat`. The `as u32` cast at the `rename_tab` calls is not modelled.
- Plugin.PaneManifest: the host hands the panes over as a hash map. Its iteration order is taken as the order of the outer sequence.
- Derived `Debug` and `Clone` are not modelled, nor the tests about them.
- Context.FileName follows `Path::file_name` for Unix paths only. Components that are not valid UTF-8 cannot arise from a `String`.

## Findings

| source | as written | input that shows it | evidently intended | confidence | as-written member | corrected member |
|---|---|---|---|---|---|---|
| src/formatter.rs:150-160 | `prefix_len + 1 + suffix_len` and `prefix_len + suffix_len` are `usize` sums; in a release build on a 32-bit target they wrap | `truncate("abcdefgh", 5, 4294967295, 1)` wraps `needed` to 1, passes the guard and returns `"abcdefgh…h"`, 10 codepoints | the result never has more than `max_len` codepoints | not executed | Formatter.TruncateAsWrittenOverflows | Formatter.Truncate |
