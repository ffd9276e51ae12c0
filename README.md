# SafeSave toolbar — a verified model

SafeSave is an Unreal Editor plugin that adds a status widget to the level
editor toolbar. The widget shows the project's source-control state as
`<branch> | <state>`, e.g. `main | Behind 3` or `No SCM Repo`. It picks an
icon for that state and toasts the label when it changes. Its menu runs
Git fetch, pull --rebase and push, or a Plastic SCM (Unity Version Control)
update. Each menu command has a gate that keeps it off when it would be
unsafe, such as when there are unsaved assets or a dirty working tree.
The widget learns the state by polling the Git or Plastic SCM command-line
clients on a background thread. It then parses their output into one
`FSourceControlStatus` record.

This project models that core, `SSafeSaveToolbar`, in Dafny and proves
properties of the model. The model has eight modules:

| module | file | what it covers |
|---|---|---|
| `Text` | `text.dfy` | The FString operations the toolbar relies on: trimming, case-insensitive `StartsWith`/`Contains`, `ParseIntoArray`, `ParseIntoArrayLines`, `Left` and `Atoi`. |
| `StatusModel` | `status.dfy` | The status record, the provider enum, a CLI reply, the settings record with its defaults, and the interval clamps. |
| `GitParser` | `git_parser.dfy` | The `git status --porcelain=v2 -b` parser. |
| `PlasticParser` | `plastic_parser.dfy` | The Plastic SCM parsers: the auth-error test, `getworkspacefrompath`, `workspaceinfo`, `status --header --head` and the machine-readable change list. |
| `Probes` | `probes.dfy` | The Git probe, the Plastic SCM probe, the preferred provider, and the Git-then-Plastic fallback with its merged error text. |
| `Presentation` | `presentation.dfy` | The command gates, the label, the icon, the status summary and the auto-fetch caption. |
| `Widget` | `widget.dfy` | The widget's state as a value: the debounced status toast, the poll state machine, command launch and completion, and the 0.5 s timer. |
| `Toolbar` | `toolbar.dfy` | The widget as a class whose methods update its fields in place. Each method is proved equal to its `Widget` specification function and keeps the class invariant `Valid()` (the unsaved flag, count and sample agree). |

How the model stands in for things it does not run:

- **Command-line clients.** Each client is an oracle. A probe receives a reply
  record for every command it may run: launched, exit code, stdout and
  stderr. It reads only the replies its branches reach.
- **Background work.** Each asynchronous operation is split into two events:
  starting it (`RequestSourceControlStatusUpdate`, `RunGitCommandAsync`) and
  its game-thread completion (`CompleteStatusUpdate`, `CompleteCommand`).
  The background half in between is a function of the replies
  (`Probes.ProbeSourceControl`).
- **Notifications.** Every notification is appended to a `notifications`
  sequence.
- **Time.** Time is an integer number of milliseconds passed in by the
  caller. The settings' float seconds are integer milliseconds as well.
- **Settings and editor inputs.** "No settings object" is `None`. The editor's
  dirty-package list and the answer to a Yes/No dialog are parameters.

## Behaviour of the code worth knowing

- **Empty `getworkspacefrompath` output.** An empty reply is not reported
  as a missing workspace root. An empty stdout takes the failure branch at
  lines 316-331, whose error is the trimmed stderr
  (`Probes.EmptyLookupIsNotRootNotFound`).
- **Which status change is toasted.** The first change outside the minimum
  toast interval is toasted. A change inside the interval is only recorded,
  so it is never toasted, and the toast does not necessarily carry the
  latest label (`Widget.StatusToastRule`).
- **First poll after construction.** The constructor's own
  `UpdateUnsavedState` consumes the "first observation": it records
  `SCM Missing`. The first completed poll can therefore already toast
  (`Widget.ConstructedState`, `Widget.FirstPollCanToast`).
- **Conflicts and the gates.** The gates look only at the three change
  counters. A tree whose only entries are unmerged (`u `) lines counts as
  clean for pull and push (`Presentation.GatesAgainstLabel`).
- **The `Plastic` branch name.** The label's fallback to `Plastic` at
  line 954 is modelled as written (`Presentation.LabelBranch`), but it never
  takes effect: a status with the login flag set has already returned
  `Login Required` at line 941 (`Presentation.LabelBranchShown`).
- **Login state for Git.** The Git probe never sets `bAuthRequired`
  (`Probes.GitProbeCounts`).

## Model

Source paths are relative to the plugin repository.

| member | source | states |
|---|---|---|
| Text.TrimCopy | Source/SafeSave/Private/SSafeSaveToolbar.cpp:29-34 | The result is no longer than the input, starts and ends with non-whitespace, and is empty exactly when the input is all whitespace |
| Text.TrimCopyIsMiddle | Source/SafeSave/Private/SSafeSaveToolbar.cpp:29-34 | The trimmed copy is the contiguous middle of the input, starting where the leading whitespace ends, with only whitespace before and after it |
| Text.TrimCopyIdempotent | Source/SafeSave/Private/SSafeSaveToolbar.cpp:29-34 | Trimming an already-trimmed string changes nothing |
| Text.TrimCopyOfTrimmed | Source/SafeSave/Private/SSafeSaveToolbar.cpp:29-34 | A string with no whitespace at either end is returned as it is |
| Text.Lower | Source/SafeSave/Private/SSafeSaveToolbar.cpp:42 | Same length, and every character is the lower-case form of the input character at that position |
| Text.ParseIntoArray | Source/SafeSave/Private/SSafeSaveToolbar.cpp:339 | No piece contains the separator; without culling, non-empty text yields at least one piece |
| Text.PiecesAtSeparator | Source/SafeSave/Private/SSafeSaveToolbar.cpp:339 | `a + sep + b`, with no separator in `a` or `b`, splits into exactly `[a, b]` |
| Text.SplitLines | Source/SafeSave/Private/SSafeSaveToolbar.cpp:501 | Every line is non-empty and holds no CR or LF |
| Text.Left | Source/SafeSave/Private/SSafeSaveToolbar.cpp:1352 | The result is a prefix of at most n characters, and is the whole string when that is short enough |
| Text.IndexOf | Source/SafeSave/Private/SSafeSaveToolbar.cpp:434 | -1 exactly when the character is absent; otherwise the index of its first occurrence |
| Text.DigitPrefix | Source/SafeSave/Private/SSafeSaveToolbar.cpp:402-403 | The longest run of digits at the start of the text (the `\d+` capture) |
| Text.AtoiIntToString | Source/SafeSave/Private/SSafeSaveToolbar.cpp:523 | `Atoi` reads back every integer that `%d` prints |
| Text.DigitPrefixOfDigits | Source/SafeSave/Private/SSafeSaveToolbar.cpp:402-403 | A digit run followed by a non-digit is captured exactly |
| StatusModel.DirtyCheckInterval | Source/SafeSave/Private/SSafeSaveToolbar.cpp:101 | The dirty-check interval is the setting when that is at least 0.1 s, exactly 0.1 s when the setting is below that, and 1 s without settings |
| StatusModel.StatusPollInterval | Source/SafeSave/Private/SSafeSaveToolbar.cpp:102 | The poll interval is the setting when that is at least 1 s, exactly 1 s when the setting is below that, and 5 s without settings |
| StatusModel.AutoFetchInterval | Source/SafeSave/Private/SSafeSaveToolbar.cpp:118 | The auto-fetch interval is the setting when that is at least 10 s, and exactly 10 s when the setting is below that |
| StatusModel.ToastInterval | Source/SafeSave/Private/SSafeSaveToolbar.cpp:1181 | The minimum toast spacing is the setting when that is at least 0.5 s, and exactly 0.5 s when the setting is below that |
| StatusModel.DefaultsWithinBounds | Source/SafeSave/Private/SafeSaveSettings.cpp:5-13 | The default settings pass through every clamp unchanged; auto-fetch starts off and status toasts on |
| GitParser.ClassifyGitLine | Source/SafeSave/Private/SSafeSaveToolbar.cpp:505-559 | A line is classified as branch head or ahead/behind only when it is long enough to hold that prefix |
| GitParser.BranchHeadLine | Source/SafeSave/Private/SSafeSaveToolbar.cpp:505-508 | `# branch.head <name>` sets the branch to the trimmed name and changes nothing else |
| GitParser.ClassifyAheadBehindLine | Source/SafeSave/Private/SSafeSaveToolbar.cpp:513 | Any line that starts with `# branch.ab ` is an ahead/behind line |
| GitParser.AheadBehindTokens | Source/SafeSave/Private/SSafeSaveToolbar.cpp:515-517 | The trimmed text `+N -M` splits on spaces into exactly `+N` and `-M` |
| GitParser.AheadBehindLine | Source/SafeSave/Private/SSafeSaveToolbar.cpp:513-530 | `# branch.ab +N -M` sets ahead to N and behind to M and changes nothing else |
| GitParser.AheadPart | Source/SafeSave/Private/SSafeSaveToolbar.cpp:521-524 | A `+N` token sets ahead to N |
| GitParser.BehindPart | Source/SafeSave/Private/SSafeSaveToolbar.cpp:525-528 | A `-M` token sets behind to M |
| GitParser.TwoParts | Source/SafeSave/Private/SSafeSaveToolbar.cpp:519-529 | Two tokens are applied in order, left to right |
| GitParser.AheadBehindParts | Source/SafeSave/Private/SSafeSaveToolbar.cpp:519-529 | The tokens `+N`, `-M` together set exactly ahead := N, behind := M |
| GitParser.AheadBehindPartKeepsOthers | Source/SafeSave/Private/SSafeSaveToolbar.cpp:519-529 | An ahead/behind token changes nothing but ahead and behind |
| GitParser.AheadBehindPartsKeepOthers | Source/SafeSave/Private/SSafeSaveToolbar.cpp:519-529 | Any list of ahead/behind tokens changes nothing but ahead and behind |
| GitParser.GitLineIdentity | Source/SafeSave/Private/SSafeSaveToolbar.cpp:503-559 | No status line changes the provider, client, repository, root, workspace, login or error fields |
| GitParser.GitLineCounts | Source/SafeSave/Private/SSafeSaveToolbar.cpp:531-559 | A `1 `/`2 ` entry adds one staged if X is not `.` and one unstaged if Y is not `.`; a `? ` line adds one untracked; nothing else changes a counter |
| GitParser.GitLineConflict | Source/SafeSave/Private/SSafeSaveToolbar.cpp:546-555 | The conflict flag becomes set exactly when it was set or the line is a `u ` line or an entry with `U` in X or Y |
| GitParser.AnyConflictSnoc | Source/SafeSave/Private/SSafeSaveToolbar.cpp:503-559 | A list holds a conflicting line exactly when its prefix does or its last line does |
| GitParser.GitLinesEffect | Source/SafeSave/Private/SSafeSaveToolbar.cpp:498-561 | Over a whole output, the identity fields are kept; staged, unstaged and untracked grow by the counts of their lines; conflicts are set exactly when some line marks one |
| GitParser.StagedUnstagedBound | Source/SafeSave/Private/SSafeSaveToolbar.cpp:531-551 | Neither staged nor unstaged entries outnumber the entry lines |
| GitParser.ParseGitStatusOutput | Source/SafeSave/Private/SSafeSaveToolbar.cpp:498-561 | The loop computes the fold over the split lines; the new status keeps its identity, gains exactly the untracked lines, gains at most one staged and one unstaged per entry, and flags conflicts exactly when a line marks one |
| GitParser.ParseGitLine | Source/SafeSave/Private/SSafeSaveToolbar.cpp:505-559 | One loop iteration applies that line's effect |
| GitParser.ParseEntryLine | Source/SafeSave/Private/SSafeSaveToolbar.cpp:533-549 | An entry line longer than three characters updates staged, unstaged and conflicts from its X and Y codes |
| GitParser.ParseAheadBehind | Source/SafeSave/Private/SSafeSaveToolbar.cpp:519-529 | The inner loop applies every token in order |
| PlasticParser.AuthPhraseDetected | Source/SafeSave/Private/SSafeSaveToolbar.cpp:40-52 | Text containing any of the nine phrases, in any letter case, counts as an authentication error |
| PlasticParser.ParseWorkspaceLookup | Source/SafeSave/Private/SSafeSaveToolbar.cpp:334-345 | A non-empty workspace root holds no `\|` and does not start with whitespace |
| PlasticParser.WorkspaceLookupRoundTrip | Source/SafeSave/Private/SSafeSaveToolbar.cpp:334-345 | `{wkname}\|{wkpath}` for a trimmed name and root without `\|` parses back to exactly that name and root |
| PlasticParser.LookupFields | Source/SafeSave/Private/SSafeSaveToolbar.cpp:339 | `name\|root` splits into exactly the two fields |
| PlasticParser.InfoSplitIndex | Source/SafeSave/Private/SSafeSaveToolbar.cpp:373 | The split point of a Branch line is its first `:` when it has one; otherwise its first `=`, and -1 exactly when it has neither |
| PlasticParser.InfoBranchStep | Source/SafeSave/Private/SSafeSaveToolbar.cpp:369-378 | The search from line i takes line i's branch if it names one, and otherwise goes on from line i+1 |
| PlasticParser.InfoBranchNoneWhenNoLine | Source/SafeSave/Private/SSafeSaveToolbar.cpp:369-378 | If no line names a branch, none is found |
| PlasticParser.InfoBranchNoneOnlyWhenNoLine | Source/SafeSave/Private/SSafeSaveToolbar.cpp:369-378 | If none is found, no line names a branch (the converse) |
| PlasticParser.InfoBranchFirstLine | Source/SafeSave/Private/SSafeSaveToolbar.cpp:369-378 | The first line that names a branch decides it (the `break`) |
| PlasticParser.NoBranchFrom | Source/SafeSave/Private/SSafeSaveToolbar.cpp:369-378 | A suffix with no Branch line yields none |
| PlasticParser.NoneThrough | Source/SafeSave/Private/SSafeSaveToolbar.cpp:369-378 | A suffix that yields none has no Branch line |
| PlasticParser.FirstLineFrom | Source/SafeSave/Private/SSafeSaveToolbar.cpp:369-378 | In a suffix, the first Branch line decides the result |
| PlasticParser.InfoBranchLineRoundTrip | Source/SafeSave/Private/SSafeSaveToolbar.cpp:371-375 | The line `Branch: <name>` yields exactly `<name>` for a trimmed name |
| PlasticParser.BranchLineShape | Source/SafeSave/Private/SSafeSaveToolbar.cpp:371-373 | `Branch: <name>` is already trimmed, starts with `Branch`, and splits at index 6 |
| PlasticParser.BranchLineValue | Source/SafeSave/Private/SSafeSaveToolbar.cpp:375 | The trimmed text after the split is the name |
| PlasticParser.ReadWorkspaceInfoBranch | Source/SafeSave/Private/SSafeSaveToolbar.cpp:365-379 | The branch becomes the first Branch line's value when there is one; otherwise the status is unchanged |
| PlasticParser.NumberAfter | Source/SafeSave/Private/SSafeSaveToolbar.cpp:402-420 | A changeset number matched after its key is never negative |
| PlasticParser.AtoiOfDigits | Source/SafeSave/Private/SSafeSaveToolbar.cpp:413 | `Atoi` of a non-empty digit string is its decimal value |
| PlasticParser.NumberAfterRoundTrip | Source/SafeSave/Private/SSafeSaveToolbar.cpp:402-420 | `<key><N>` followed by a non-digit yields exactly N |
| PlasticParser.NumberAfterHere | Source/SafeSave/Private/SSafeSaveToolbar.cpp:410-413 | Text that starts with the key and a digit matches there, with the value of the digit run |
| PlasticParser.NumberAfterFirstMatch | Source/SafeSave/Private/SSafeSaveToolbar.cpp:402-420 | The leftmost position where the key is followed by a digit decides the number, wherever it is in the line |
| PlasticParser.NumberAfterSkipTo | Source/SafeSave/Private/SSafeSaveToolbar.cpp:402-420 | The search passes over a stretch of the line that holds no match |
| PlasticParser.NumberAfterNoMatch | Source/SafeSave/Private/SSafeSaveToolbar.cpp:402-420 | A line where the key is never followed by a digit gives no number |
| PlasticParser.NumberAfterMidLine | Source/SafeSave/Private/SSafeSaveToolbar.cpp:402-420 | `<key><N>` in the middle of a line, with no earlier match, yields exactly N (so `head:` is read from `cs:12 - head:15`) |
| PlasticParser.DigitsThenRest | Source/SafeSave/Private/SSafeSaveToolbar.cpp:413 | The digits of N followed by a non-digit read back as N |
| PlasticParser.HeaderNumber | Source/SafeSave/Private/SSafeSaveToolbar.cpp:399-420 | The last changeset number seen is -1 (INDEX_NONE) or non-negative |
| PlasticParser.HeaderBranchKeepsBranch | Source/SafeSave/Private/SSafeSaveToolbar.cpp:422 | A branch already known from workspaceinfo is never replaced by the header scan |
| PlasticParser.HeaderDistance | Source/SafeSave/Private/SSafeSaveToolbar.cpp:444-449 | With both changesets known, upstream is set, ahead and behind are non-negative, at most one is non-zero, and ahead - behind = cs - head; otherwise upstream, ahead and behind are kept |
| PlasticParser.ScanHeaderLine | Source/SafeSave/Private/SSafeSaveToolbar.cpp:408-442 | One loop iteration takes the line's `cs:` and `head:` numbers when present, and its branch candidate only while the branch is still empty |
| PlasticParser.ReadBranchCandidate | Source/SafeSave/Private/SSafeSaveToolbar.cpp:424-440 | The loop-free scan of one header line agrees with the branch candidate that the two lemmas below characterise |
| PlasticParser.HeaderLineBranch | Source/SafeSave/Private/SSafeSaveToolbar.cpp:424-440 | A header line `<spec>@<rest>`, optionally followed by `(cs:... head:...)`, with a trimmed spec starting `/` or `lb:`, names exactly that spec |
| PlasticParser.HeaderLineWithoutBranch | Source/SafeSave/Private/SSafeSaveToolbar.cpp:424-440 | A header line whose text after its leading whitespace starts with neither `/` nor `lb:` (any letter case) names no branch. Examples are the changeset line and a line that starts with `(` |
| PlasticParser.CutTrimIsPrefix | Source/SafeSave/Private/SSafeSaveToolbar.cpp:424-430 | The trimmed text before the first `(` is a prefix of the line without its leading whitespace |
| PlasticParser.ScanHeaderLines | Source/SafeSave/Private/SSafeSaveToolbar.cpp:399-442 | The loop yields the last `cs:` number, the last `head:` number and the first branch candidate |
| PlasticParser.ScanPlasticHeader | Source/SafeSave/Private/SSafeSaveToolbar.cpp:397-450 | The header pass changes only branch, upstream, ahead and behind, and keeps a known branch |
| PlasticParser.TallyCounts | Source/SafeSave/Private/SSafeSaveToolbar.cpp:568-624 | The loop's three accumulators are the record count, the private count and "some record conflicts" |
| PlasticParser.PrivateWithinRecords | Source/SafeSave/Private/SSafeSaveToolbar.cpp:597-608 | Private records never outnumber records |
| PlasticParser.PlasticStatusIdempotent | Source/SafeSave/Private/SSafeSaveToolbar.cpp:626-628 | Parsing the same change list twice gives what parsing it once gives |
| PlasticParser.FindPrivateToken | Source/SafeSave/Private/SSafeSaveToolbar.cpp:599-608 | The loop finds a `PR` code part, in any letter case, exactly when there is one |
| PlasticParser.FindConflictField | Source/SafeSave/Private/SSafeSaveToolbar.cpp:610-623 | The loop finds a field with CONFLICT, or with MERGE but not NO_MERGES, exactly when there is one |
| PlasticParser.StripMarkers | Source/SafeSave/Private/SSafeSaveToolbar.cpp:574-577 | The loop-free removal agrees with the one-pass, case-insensitive removal of each marker followed by trimming, as `ReplaceInline` does |
| PlasticParser.CleanWrappedLine | Source/SafeSave/Private/SSafeSaveToolbar.cpp:574-577 | A record printed between `@@SAFE@@` and `##SAFE##`, holding no `@` or `#` of its own, is cleaned to exactly its trimmed text |
| PlasticParser.ReadCleanRecord | Source/SafeSave/Private/SSafeSaveToolbar.cpp:579-623 | An empty or `STATUS` line counts nothing; any other line counts one record, one private if it is `PR`, and sets the conflict flag if it marks one |
| PlasticParser.ReadRecordLine | Source/SafeSave/Private/SSafeSaveToolbar.cpp:574-623 | One loop iteration applies that line to the tally |
| PlasticParser.TallyChangeList | Source/SafeSave/Private/SSafeSaveToolbar.cpp:572-624 | The loop computes the tally of all lines |
| PlasticParser.ParsePlasticStatusOutput | Source/SafeSave/Private/SSafeSaveToolbar.cpp:563-629 | Untracked is the private count; untracked + unstaged is the record count; conflicts are set exactly when a record marks one |
| PlasticParser.PlasticStatusCounts | Source/SafeSave/Private/SSafeSaveToolbar.cpp:563-629 | After the change list, untracked is the private count, untracked + unstaged is the record count, and conflicts are set exactly when a record marks one |
| Probes.TryPopulateGitStatus | Source/SafeSave/Private/SSafeSaveToolbar.cpp:245-292 | Found exactly when rev-parse succeeded; the client counts as available exactly when git launched; "Git executable not found." when it did not; the status is well formed |
| Probes.GitProbeCounts | Source/SafeSave/Private/SSafeSaveToolbar.cpp:273-291 | Git never reports a login need; after a successful status call the counters come from its output and the error is empty |
| Probes.ProbeLocatedWorkspace | Source/SafeSave/Private/SSafeSaveToolbar.cpp:355-495 | Once the workspace is located the probe reports found and keeps the name and root |
| Probes.ProbeHeader | Source/SafeSave/Private/SSafeSaveToolbar.cpp:392-495 | The header and change-list stages report found and keep the location |
| Probes.ReadHeader | Source/SafeSave/Private/SSafeSaveToolbar.cpp:397-450 | A successful header reply is applied, and the location is kept |
| Probes.ProbeChanges | Source/SafeSave/Private/SSafeSaveToolbar.cpp:474-495 | The change-list stage reports found and keeps the location |
| Probes.ReportChangesFailure | Source/SafeSave/Private/SSafeSaveToolbar.cpp:479-493 | A failed change-list call yields a login-required result or the trimmed stderr, and keeps the location |
| Probes.TryPopulatePlasticStatus | Source/SafeSave/Private/SSafeSaveToolbar.cpp:294-496 | The provider is Plastic SCM; the client counts as available exactly when cm launched; found exactly when the lookup succeeded with a non-empty reply naming a root, and then the root is that root and the login flag is set exactly when one of the three later calls failed with a login problem |
| Probes.PlasticWorkspaceFound | Source/SafeSave/Private/SSafeSaveToolbar.cpp:355-495 | Every path after a located workspace returns true |
| Probes.HeaderProbeFound | Source/SafeSave/Private/SSafeSaveToolbar.cpp:392-495 | Every path from the header call on returns true |
| Probes.ChangesProbeFound | Source/SafeSave/Private/SSafeSaveToolbar.cpp:474-495 | The change-list stage always returns true |
| Probes.PlasticLookupFailure | Source/SafeSave/Private/SSafeSaveToolbar.cpp:316-331 | A failed or empty lookup is not found; login is required exactly when the combined output is an auth error, and then the error is the login message; otherwise it is the trimmed stderr |
| Probes.EmptyLookupIsNotRootNotFound | Source/SafeSave/Private/SSafeSaveToolbar.cpp:316-331 | An empty lookup reply reports the trimmed stderr, not "root not found" |
| Probes.InfoLoginShortCircuits | Source/SafeSave/Private/SSafeSaveToolbar.cpp:380-390 | An auth failure of workspaceinfo returns before the header and change-list calls; once a root is located it is reported as found, with the login flag, the login error and workspaceinfo's combined output |
| Probes.LocatedProbe | Source/SafeSave/Private/SSafeSaveToolbar.cpp:347-357 | Once a root is located, the result is that of the calls made on the workspace |
| Probes.HeaderLoginReported | Source/SafeSave/Private/SSafeSaveToolbar.cpp:451-461 | An auth failure of the header call, after workspaceinfo had none, is reported as found, with the login flag, the login error and the header call's combined output |
| Probes.ChangesLoginReported | Source/SafeSave/Private/SSafeSaveToolbar.cpp:474-495 | An auth failure of the change-list call, the first one, is reported the same way with that call's combined output |
| Probes.ChangesFailureReported | Source/SafeSave/Private/SSafeSaveToolbar.cpp:474-495 | Any other failure of the change-list call still reports the workspace, without the login flag, with the trimmed stderr as error and last error |
| Probes.WorkspaceChangesFailure | Source/SafeSave/Private/SSafeSaveToolbar.cpp:474-495 | The same, for the located-workspace stage |
| Probes.WorkspaceLoginFlag | Source/SafeSave/Private/SSafeSaveToolbar.cpp:380-495 | On a located workspace the login flag is set exactly when one of the three calls failed with a login problem |
| Probes.HeaderLoginFlag | Source/SafeSave/Private/SSafeSaveToolbar.cpp:451-495 | From the header call on, the login flag is set exactly when the header or change-list call failed with a login problem |
| Probes.ChangesLoginFlag | Source/SafeSave/Private/SSafeSaveToolbar.cpp:474-495 | The change-list call sets the login flag exactly when it failed with a login problem |
| Probes.PlasticLoginRule | Source/SafeSave/Private/SSafeSaveToolbar.cpp:294-496 | A located workspace is found, and carries the login flag exactly when one of the three later calls failed with a login problem |
| Probes.HeaderLoginShortCircuits | Source/SafeSave/Private/SSafeSaveToolbar.cpp:451-461 | An auth failure of the header call returns before the change-list call |
| Probes.WorkspaceProbeStopsAtHeaderLogin | Source/SafeSave/Private/SSafeSaveToolbar.cpp:451-461 | The same, for the located-workspace stage |
| Probes.QuietFailuresIgnored | Source/SafeSave/Private/SSafeSaveToolbar.cpp:380-390 | Non-auth failures of workspaceinfo and the header leave branch, ahead, behind and upstream as they were |
| Probes.ChangesKeepDistance | Source/SafeSave/Private/SSafeSaveToolbar.cpp:474-495 | The change-list stage never changes branch, ahead, behind or upstream |
| Probes.PreferredProviderNames | Source/SafeSave/Private/SSafeSaveToolbar.cpp:636-652 | "Git" prefers Git, "Plastic SCM" and "Unity Version Control" prefer Plastic SCM, and a disabled module prefers none |
| Probes.PreferredPlasticPhrase | Source/SafeSave/Private/SSafeSaveToolbar.cpp:636-652 | Any provider name containing `plastic` or `unity`, in any letter case, prefers Plastic SCM |
| Probes.PreferredGitPhrase | Source/SafeSave/Private/SSafeSaveToolbar.cpp:636-652 | Any provider name containing `git` in any letter case, and neither Plastic SCM word, prefers Git |
| Probes.PreferredNone | Source/SafeSave/Private/SSafeSaveToolbar.cpp:636-652 | A name containing none of the three words prefers no provider |
| Probes.ProbeSourceControl | Source/SafeSave/Private/SSafeSaveToolbar.cpp:166-228 | The background half builds the resolved status, which is well formed |
| Probes.ProbePlasticOnly | Source/SafeSave/Private/SSafeSaveToolbar.cpp:181-185 | A Plastic preference uses the Plastic probe's status |
| Probes.ProbeGitOnly | Source/SafeSave/Private/SSafeSaveToolbar.cpp:186-190 | A Git preference uses the Git probe's status |
| Probes.ProbeWithFallback | Source/SafeSave/Private/SSafeSaveToolbar.cpp:191-228 | Without a preference, Git is tried first and Plastic SCM only when Git found nothing |
| Probes.ProbePlasticAfterGit | Source/SafeSave/Private/SSafeSaveToolbar.cpp:196-228 | After Git found nothing, Plastic SCM is probed and the two results are merged |
| Probes.CombineProbes | Source/SafeSave/Private/SSafeSaveToolbar.cpp:202-227 | The merge takes Plastic SCM's status when it was found, and otherwise builds the no-repository status |
| Probes.PreferenceRunsOneProbe | Source/SafeSave/Private/SSafeSaveToolbar.cpp:181-190 | With a preference, the other client's replies cannot affect the result |
| Probes.GitFirstFallback | Source/SafeSave/Private/SSafeSaveToolbar.cpp:191-209 | A found Git repository wins whatever Plastic SCM would say; otherwise a found Plastic SCM workspace is used |
| Probes.PlasticNotFoundClient | Source/SafeSave/Private/SSafeSaveToolbar.cpp:306-353 | A Plastic SCM probe that finds nothing is not a repository, and counts the client as available exactly when cm launched |
| Probes.NeitherFound | Source/SafeSave/Private/SSafeSaveToolbar.cpp:210-227 | When neither is found, the provider is None, there is no repository, login is not required, the client counts as available when either client launched, and the error is `Git: <e>` or `Plastic SCM: <e>` when only one probe reported one, both joined by a line break with Git first when both did, and empty exactly when neither did |
| Probes.ProbeErrorsBoth | Source/SafeSave/Private/SSafeSaveToolbar.cpp:217-226 | With both errors present the text is `Git: <e1>`, a newline, then `Plastic SCM: <e2>` |
| Presentation.GateRelations | Source/SafeSave/Private/SSafeSaveToolbar.cpp:845-870 | Pull and push exclude each other and each implies the fetch gate; unsaved assets close pull, push and update; update never coexists with a Git gate |
| Presentation.GatesAgainstLabel | Source/SafeSave/Private/SSafeSaveToolbar.cpp:851-870 | An open pull gate means the label reads Conflicts, Diverged or Behind; an open push gate means Conflicts or Ahead; an open update gate means neither Unsaved nor Changes |
| Presentation.LabelPrecedence | Source/SafeSave/Private/SSafeSaveToolbar.cpp:967-995 | The label state is chosen in the order Conflicts, Unsaved, Diverged, Behind, Changes, Ahead, Clean, stated as seven if-and-only-ifs |
| Presentation.LabelBranchShown | Source/SafeSave/Private/SSafeSaveToolbar.cpp:949-965 | The branch shown is the branch, else the workspace name, else `unknown` (except for a detached Git head); it is never empty, and `Plastic` appears only when it is the name itself |
| Presentation.LastIndexOf | Source/SafeSave/Private/SSafeSaveToolbar.cpp:997 | -1 exactly when the character is absent; otherwise the index of its last occurrence |
| Presentation.LastIndexOfJoin | Source/SafeSave/Private/SSafeSaveToolbar.cpp:997 | In `a + c + b` with no `c` in `b`, the last `c` is at position \|a\| |
| Presentation.NoBarInNumber | Source/SafeSave/Private/SSafeSaveToolbar.cpp:974-990 | A printed number holds no `\|` |
| Presentation.UnsavedTextDecodes | Source/SafeSave/Private/SSafeSaveToolbar.cpp:974 | `Unsaved <n>` reads back as Unsaved with n |
| Presentation.BehindTextDecodes | Source/SafeSave/Private/SSafeSaveToolbar.cpp:982 | `Behind <n>` reads back as Behind with n |
| Presentation.AheadTextDecodes | Source/SafeSave/Private/SSafeSaveToolbar.cpp:990 | `Ahead <n>` reads back as Ahead with n |
| Presentation.StateTextRoundTrip | Source/SafeSave/Private/SSafeSaveToolbar.cpp:967-995 | Every state text holds no `\|` and reads back as its state and number |
| Presentation.NoBarInStateText | Source/SafeSave/Private/SSafeSaveToolbar.cpp:967-995 | No state text holds a `\|` |
| Presentation.NoBarAfter | Source/SafeSave/Private/SSafeSaveToolbar.cpp:974-990 | A word without `\|` followed by a number holds no `\|` |
| Presentation.DecodeJoinedLabel | Source/SafeSave/Private/SSafeSaveToolbar.cpp:997 | `<branch> \| <text>` splits at the last bar into the branch and the state text |
| Presentation.LabelRoundTrip | Source/SafeSave/Private/SSafeSaveToolbar.cpp:930-998 | A ready label reads back as its branch, state and number; the three unavailable labels are not of that form |
| Presentation.IconFollowsLabel | Source/SafeSave/Private/SSafeSaveToolbar.cpp:888-928 | The icon follows the label state, except that Unsaved while diverged shows the warning; login shows the coloured warning, no repository shows the plain warning, and a missing client shows the coloured warning only when login is required |
| Presentation.SummaryRoundTrip | Source/SafeSave/Private/SSafeSaveToolbar.cpp:1193-1279 | The summary's headline identifies the availability case, and for the three unavailable cases the details after the marker are the last error |
| Presentation.ClientMissingSummary | Source/SafeSave/Private/SSafeSaveToolbar.cpp:1197-1206 | The missing-client summary reads back as that case with its details |
| Presentation.LoginSummary | Source/SafeSave/Private/SSafeSaveToolbar.cpp:1208-1217 | The login summary reads back as that case with its details |
| Presentation.NoRepositorySummary | Source/SafeSave/Private/SSafeSaveToolbar.cpp:1219-1228 | The no-repository summary reads back as that case with its details |
| Presentation.ReadySummaryOpens | Source/SafeSave/Private/SSafeSaveToolbar.cpp:1230 | A ready summary opens with the provider line |
| Presentation.ReadySummary | Source/SafeSave/Private/SSafeSaveToolbar.cpp:1230-1278 | A ready summary contains the root line, the upstream line for Git, the pending-changes line for Plastic SCM, and the unsaved-count line when there are unsaved assets |
| Presentation.InfixOfConcat | Source/SafeSave/Private/SSafeSaveToolbar.cpp:1230-1278 | A piece appended between two others is part of the summary |
| Presentation.InfixExtendLeft | Source/SafeSave/Private/SSafeSaveToolbar.cpp:1230-1278 | Text before a contained piece keeps it contained |
| Presentation.PieceInConcat | Source/SafeSave/Private/SSafeSaveToolbar.cpp:1230-1278 | Each appended piece is part of the summary |
| Presentation.AutoFetchCaptionSeconds | Source/SafeSave/Private/SSafeSaveToolbar.cpp:1132-1144 | The caption's seconds are at least 10 and are the auto-fetch interval truncated to whole seconds |
| Presentation.AutoFetchLabelSuffix | Source/SafeSave/Private/SSafeSaveToolbar.cpp:1132-1144 | The caption starts with `Auto fetch interval: ` and ends with ` (disabled)` exactly when auto-fetch is off or there are no settings |
| Widget.StatusCheckRecordsLabel | Source/SafeSave/Private/SSafeSaveToolbar.cpp:1159-1191 | After a status check the current label is recorded and seen, and nothing but the label, the seen flag, the toast time and the notifications changes |
| Widget.FirstObservationSilent | Source/SafeSave/Private/SSafeSaveToolbar.cpp:1164-1176 | Without toasts enabled, or on the first observation, the label is recorded silently |
| Widget.StatusToastRule | Source/SafeSave/Private/SSafeSaveToolbar.cpp:1178-1190 | A `SafeSave: <label>` toast is shown exactly when toasts are on, a label was seen before, the label changed ignoring case, and the minimum interval has passed; then the toast time is now |
| Widget.StatusCheckIdempotent | Source/SafeSave/Private/SSafeSaveToolbar.cpp:1159-1191 | A second check with nothing changed shows no toast and changes nothing |
| Widget.UnsavedStateReflectsDirtyList | Source/SafeSave/Private/SSafeSaveToolbar.cpp:132-141 | The unsaved flag, count and sample describe the dirty list, and the status is untouched |
| Widget.CompletionReplacesStatus | Source/SafeSave/Private/SSafeSaveToolbar.cpp:230-241 | A poll completion installs the new status, clears the in-flight flag and records the new label |
| Widget.SingleFlight | Source/SafeSave/Private/SSafeSaveToolbar.cpp:143-151 | Over any sequence of requests and completions at most one poll is outstanding, and the flag is set exactly when one is |
| Widget.CompletionToastStep | Source/SafeSave/Private/SSafeSaveToolbar.cpp:1178-1190 | A completion that toasts does so at least the minimum interval after the previous toast and moves the toast time to now |
| Widget.StatusToastsSpaced | Source/SafeSave/Private/SSafeSaveToolbar.cpp:1178-1190 | Over any run of completions, consecutive status toasts are at least the minimum interval apart |
| Widget.GitLaunchFollowsGate | Source/SafeSave/Private/SSafeSaveToolbar.cpp:1311-1318 | A Git command is launched exactly when the fetch gate is open; otherwise only "Git is not available for this project." is shown |
| Widget.CompletionToastRule | Source/SafeSave/Private/SSafeSaveToolbar.cpp:1346-1353 | On success, the success toast unless the command is silent; on failure, the failure toast, then the first 200 characters of the trimmed stderr when there is any |
| Widget.CommandCompletionState | Source/SafeSave/Private/SSafeSaveToolbar.cpp:1338-1359 | A command completion appends its toasts, requests a refresh when asked, and leaves the status and label alone |
| Widget.GatedCommandsLaunch | Source/SafeSave/Private/SSafeSaveToolbar.cpp:768-823 | Pull, push and update launch exactly when their gate is open and the dialog is confirmed; a closed gate shows its own message |
| Widget.MenuCommandsReportSuccess | Source/SafeSave/Private/SSafeSaveToolbar.cpp:763-823 | The menu commands are not silent: a success shows one success toast, and each command refreshes |
| Widget.TickPolls | Source/SafeSave/Private/SSafeSaveToolbar.cpp:110-114 | A tick starts a poll exactly when one is due and none is in flight; a due poll leaves the flag set and moves the poll time to now |
| Widget.TickChecksUnsaved | Source/SafeSave/Private/SSafeSaveToolbar.cpp:104-108 | A due dirty check refreshes the unsaved state and its time; otherwise both are kept |
| Widget.TickAutoFetchGuard | Source/SafeSave/Private/SSafeSaveToolbar.cpp:116-127 | An auto-fetch runs only with auto-fetch enabled, the fetch gate open, no poll in flight or started, and at least the interval (10 s or more) since the last one |
| Widget.ToggleRestartsInterval | Source/SafeSave/Private/SSafeSaveToolbar.cpp:832-843 | Toggling flips auto-fetch, toggling twice restores it, and no auto-fetch comes within the interval after a toggle |
| Widget.ConstructedState | Source/SafeSave/Private/SSafeSaveToolbar.cpp:55-95 | After construction there are no toasts, a poll is in flight, the status is the default, and `SCM Missing` is already recorded |
| Widget.FirstPollCanToast | Source/SafeSave/Private/SSafeSaveToolbar.cpp:93-94 | The first completed poll toasts its label when that differs from `SCM Missing` |
| Widget.EventsPreserveConsistency | Source/SafeSave/Private/SSafeSaveToolbar.h:90-102 | Every event keeps the unsaved fields consistent: flag set exactly when the count is positive, and no sample without unsaved assets |
| Toolbar.SafeSaveToolbar.constructor | Source/SafeSave/Private/SSafeSaveToolbar.cpp:55-95 | The fields are initialised, then the unsaved state is read and a poll is requested |
| Toolbar.SafeSaveToolbar.Notify | Source/SafeSave/Private/SSafeSaveToolbar.cpp:1415-1428 | Appends one notification with its success flag |
| Toolbar.SafeSaveToolbar.MaybeNotifyStatusChange | Source/SafeSave/Private/SSafeSaveToolbar.cpp:1159-1191 | Updates the fields as the debounce rule says |
| Toolbar.SafeSaveToolbar.UpdateUnsavedState | Source/SafeSave/Private/SSafeSaveToolbar.cpp:132-141 | Stores the dirty-list facts, then checks the status label |
| Toolbar.SafeSaveToolbar.RequestSourceControlStatusUpdate | Source/SafeSave/Private/SSafeSaveToolbar.cpp:143-155 | Starts a poll exactly when none is in flight, and sets the flag |
| Toolbar.SafeSaveToolbar.CompleteStatusUpdate | Source/SafeSave/Private/SSafeSaveToolbar.cpp:230-241 | Installs the new status, clears the flag, checks the label |
| Toolbar.SafeSaveToolbar.UpdateState | Source/SafeSave/Private/SSafeSaveToolbar.cpp:97-130 | One timer tick, equal to `Widget.Tick` |
| Toolbar.SafeSaveToolbar.ToggleAutoFetch | Source/SafeSave/Private/SSafeSaveToolbar.cpp:832-843 | Flips the setting and restarts the auto-fetch clock; does nothing without settings |
| Toolbar.SafeSaveToolbar.RunGitCommandAsync | Source/SafeSave/Private/SSafeSaveToolbar.cpp:1311-1323 | Rejects with a notification unless Git is the provider with client and repository; otherwise launches the command |
| Toolbar.SafeSaveToolbar.RunPlasticCommandAsync | Source/SafeSave/Private/SSafeSaveToolbar.cpp:1363-1375 | The same for Plastic SCM |
| Toolbar.SafeSaveToolbar.CompleteCommand | Source/SafeSave/Private/SSafeSaveToolbar.cpp:1338-1359 | Shows the completion toasts and requests a refresh when asked; a poll starts exactly when one was asked for and none was in flight |
| Toolbar.SafeSaveToolbar.NotifyOutcome | Source/SafeSave/Private/SSafeSaveToolbar.cpp:1346-1349 | The success or failure toast, unless the command succeeded silently |
| Toolbar.SafeSaveToolbar.NotifyError | Source/SafeSave/Private/SSafeSaveToolbar.cpp:1350-1353 | On failure with stderr, its first 200 trimmed characters |
| Toolbar.SafeSaveToolbar.ExecuteGitPullRebase | Source/SafeSave/Private/SSafeSaveToolbar.cpp:768-785 | The pull gate, the dialog, then `pull --rebase` |
| Toolbar.SafeSaveToolbar.ExecuteGitPush | Source/SafeSave/Private/SSafeSaveToolbar.cpp:787-804 | The push gate, the dialog, then `push` |
| Toolbar.SafeSaveToolbar.ExecutePlasticUpdate | Source/SafeSave/Private/SSafeSaveToolbar.cpp:806-823 | The update gate, the dialog, then `update` |
| Toolbar.SafeSaveToolbar.ExecuteGitFetch | Source/SafeSave/Private/SSafeSaveToolbar.cpp:763-766 | `fetch --prune` with only the launch check |
| Toolbar.SafeSaveToolbar.ExecuteRefresh | Source/SafeSave/Private/SSafeSaveToolbar.cpp:757-761 | Re-reads the unsaved state, then requests a poll |
| Toolbar.SafeSaveToolbar.ExecuteSaveAll | Source/SafeSave/Private/SSafeSaveToolbar.cpp:751-755 | Re-reads the unsaved state after saving |

## Left out

- Slate UI construction and `BuildMenu`: widget layout only.
- `GetColor` and `GetTooltip` (SSafeSaveToolbar.cpp:1000-1130) are not covered. Both read the same status as the label and summary. `GetColor` picks a colour from the availability and the counts. `GetTooltip` repeats the three availability texts of `BuildStatusSummary`, puts a line break before the last error, and adds an "Updated: Ns ago" line when the status has an update time. Colours and wall-clock ages are outside the model.
- `ExecuteShowStatus`: it only shows a dialog. The text it shows is `Presentation.BuildStatusSummary`.
- `IsAutoFetchEnabled`, `IsGitProvider`, `IsPlasticProvider` and `GetProviderLabel`: these one-line accessors are inlined where they are used.
- Running processes (`RunGit`, `RunPlastic`, `GetGitExecutable`, `GetPlasticExecutable`) and the working directory passed to them: these are I/O. Each command's outcome is an input reply.
- Threads, `TAtomic`, weak pointers and `AsyncTask`: an async operation is a start event and a completion event. The case where the widget has been destroyed is not modelled.
- `SaveConfig` and `LastUpdateUtc`: these are I/O and a clock. They affect nothing that is shown.
- The Yes/No dialogs: the answer is a `confirmed` parameter.
- The Plastic SCM lookup and workspaceinfo arguments: quoting of the project path is not modelled.
- Text.Atoi: int32 overflow of `FCString::Atoi` and of the counters is not modelled, because integers are unbounded.
- Float seconds are integer milliseconds, so the comparisons are exact.
- The `Fields.Num() == 0` check at `SSafeSaveToolbar.cpp:586-589` is omitted because it cannot fire: splitting a non-empty line without culling yields at least one field.
- Case folding is ASCII only, and whitespace is the ASCII set.
- PlasticParser.NumberAfter: the regex engine is modelled as "the first occurrence of the key followed by a digit"; ICU regex details are not modelled.
