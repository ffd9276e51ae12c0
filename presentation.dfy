// What the toolbar derives from one status snapshot and the widget's unsaved-asset
// count: the action gates, the toolbar label and icon, the status summary dialog
// text and the auto-fetch menu caption. Every function here only reads.

module Presentation {
  import opened Text
  import opened StatusModel

  // ---------------------------------------------------------------------------
  // Safety gates

  /** Staged + Unstaged + Untracked is zero. Conflicts are not part of it. */
  predicate CleanTree(st: SourceControlStatus) {
    PendingChanges(st) == 0
  }

  /** CanExecuteGitCommand: the fetch gate. */
  predicate CanExecuteGitCommand(st: SourceControlStatus) {
    st.provider == Git && st.clientAvailable && st.isRepo
  }

  /** CanExecuteGitPull. */
  predicate CanExecuteGitPull(st: SourceControlStatus, hasUnsavedAssets: bool) {
    st.provider == Git && st.clientAvailable && st.isRepo && st.hasUpstream && st.behind > 0
    && CleanTree(st) && !hasUnsavedAssets
  }

  /** CanExecuteGitPush. */
  predicate CanExecuteGitPush(st: SourceControlStatus, hasUnsavedAssets: bool) {
    st.provider == Git && st.clientAvailable && st.isRepo && st.hasUpstream && st.ahead > 0
    && st.behind == 0 && CleanTree(st) && !hasUnsavedAssets
  }

  /** CanExecutePlasticUpdate. */
  predicate CanExecutePlasticUpdate(st: SourceControlStatus, hasUnsavedAssets: bool) {
    st.provider == Plastic && st.clientAvailable && st.isRepo && CleanTree(st) && !hasUnsavedAssets
  }

  /** How the gates relate: pull and push exclude each other; each implies the
      fetch gate; unsaved assets close every gate that changes the working tree;
      a Plastic SCM update never coexists with a Git gate. */
  lemma GateRelations(st: SourceControlStatus, hasUnsavedAssets: bool)
    ensures !(CanExecuteGitPull(st, hasUnsavedAssets) && CanExecuteGitPush(st, hasUnsavedAssets))
    ensures CanExecuteGitPull(st, hasUnsavedAssets) ==> CanExecuteGitCommand(st)
    ensures CanExecuteGitPush(st, hasUnsavedAssets) ==> CanExecuteGitCommand(st)
    ensures hasUnsavedAssets ==> !CanExecuteGitPull(st, hasUnsavedAssets)
                                 && !CanExecuteGitPush(st, hasUnsavedAssets)
                                 && !CanExecutePlasticUpdate(st, hasUnsavedAssets)
    ensures CanExecutePlasticUpdate(st, hasUnsavedAssets) ==> !CanExecuteGitCommand(st)
  {
  }

  // ---------------------------------------------------------------------------
  // Availability: the three failure texts come before anything about the tree

  datatype Availability = ClientMissing | LoginNeeded | NoRepository | Ready

  /** The order in which the label and the summary test the status: client, then
      login, then repository. */
  function AvailabilityOf(st: SourceControlStatus): Availability {
    if !st.clientAvailable then ClientMissing
    else if st.authRequired then LoginNeeded
    else if !st.isRepo then NoRepository
    else Ready
  }

  // ---------------------------------------------------------------------------
  // Label

  /** The state half of the label, in its precedence order. */
  datatype LabelState = Conflicts | Unsaved | Diverged | Behind | Changes | Ahead | Clean

  function LabelStateOf(st: SourceControlStatus, hasUnsavedAssets: bool): LabelState {
    if st.hasConflicts then Conflicts
    else if hasUnsavedAssets then Unsaved
    else if st.ahead > 0 && st.behind > 0 then Diverged
    else if st.behind > 0 then Behind
    else if PendingChanges(st) > 0 then Changes
    else if st.ahead > 0 then Ahead
    else Clean
  }

  /** The number a state's text carries: the unsaved count, Behind or Ahead. */
  function ShownNumber(state: LabelState, st: SourceControlStatus, unsavedAssetCount: int): int {
    match state
    case Unsaved => unsavedAssetCount
    case Behind => st.behind
    case Ahead => st.ahead
    case _ => 0
  }

  function StateText(state: LabelState, st: SourceControlStatus, unsavedAssetCount: int): String {
    match state
    case Conflicts => "Conflicts"
    case Unsaved => "Unsaved " + IntToString(unsavedAssetCount)
    case Diverged => "Diverged"
    case Behind => "Behind " + IntToString(st.behind)
    case Changes => "Changes"
    case Ahead => "Ahead " + IntToString(st.ahead)
    case Clean => "Clean"
  }

  /** The branch half of the label: the branch, else the workspace name, else
      "unknown"; a Git branch naming "detached" in any case shows as "detached".
      The "Plastic" step is as written, although the label never reaches it with
      the login flag set. */
  function LabelBranch(st: SourceControlStatus): String {
    var named := if st.branch == [] then st.workspaceName else st.branch;
    var withLogin := if named == [] && st.authRequired && st.provider == Plastic then "Plastic" else named;
    var shown := if withLogin == [] then "unknown" else withLogin;
    if st.provider == Git && Contains(shown, "detached") then "detached" else shown
  }

  /** GetLabel. */
  function GetLabel(st: SourceControlStatus, hasUnsavedAssets: bool, unsavedAssetCount: int): String {
    match AvailabilityOf(st)
    case ClientMissing => "SCM Missing"
    case LoginNeeded => "Login Required"
    case NoRepository => "No SCM Repo"
    case Ready => LabelBranch(st) + " | " + StateText(LabelStateOf(st, hasUnsavedAssets), st, unsavedAssetCount)
  }

  /** Precedence of the label's state: Conflicts > Unsaved > Diverged > Behind >
      Changes > Ahead > Clean. Each state holds exactly when its own condition
      holds and no earlier one does. */
  lemma LabelPrecedence(st: SourceControlStatus, hasUnsavedAssets: bool)
    ensures var s := LabelStateOf(st, hasUnsavedAssets);
      var diverged := st.ahead > 0 && st.behind > 0;
      (s == Conflicts <==> st.hasConflicts)
      && (s == Unsaved <==> !st.hasConflicts && hasUnsavedAssets)
      && (s == Diverged <==> !st.hasConflicts && !hasUnsavedAssets && diverged)
      && (s == Behind <==> !st.hasConflicts && !hasUnsavedAssets && st.ahead <= 0 && st.behind > 0)
      && (s == Changes <==> !st.hasConflicts && !hasUnsavedAssets && st.behind <= 0 && PendingChanges(st) > 0)
      && (s == Ahead <==> !st.hasConflicts && !hasUnsavedAssets && st.behind <= 0 && PendingChanges(st) <= 0
                          && st.ahead > 0)
      && (s == Clean <==> !st.hasConflicts && !hasUnsavedAssets && st.behind <= 0 && PendingChanges(st) <= 0
                          && st.ahead <= 0)
  {
  }

  /** The branch shown is never empty, is the branch or workspace name when there
      is one (unless Git's "detached" rule applies), and is "Plastic" only when
      that is the recorded name: the login step cannot fire once the label has
      passed its login check. */
  lemma LabelBranchShown(st: SourceControlStatus)
    requires AvailabilityOf(st) == Ready
    ensures var b := LabelBranch(st);
      var gitDetached := st.provider == Git;
      b != []
      && (st.branch != [] && !(gitDetached && Contains(st.branch, "detached")) ==> b == st.branch)
      && (st.branch == [] && st.workspaceName != [] && !(gitDetached && Contains(st.workspaceName, "detached"))
          ==> b == st.workspaceName)
      && (st.branch == [] && st.workspaceName == [] ==> b == "unknown")
      && (b == "Plastic" ==> st.branch == "Plastic" || (st.branch == [] && st.workspaceName == "Plastic"))
  {
    if st.branch == [] && st.workspaceName == [] {
      assert !Contains("unknown", "detached");
    }
  }

  /** The last position of `c` in `s`, or -1. */
  function LastIndexOf(s: String, c: char): (r: int)
    ensures -1 <= r < |s|
    ensures r == -1 <==> c !in s
    ensures r >= 0 ==> s[r] == c && c !in s[r + 1..]
  {
    if s == [] then -1
    else if s[|s| - 1] == c then |s| - 1
    else
      var r := LastIndexOf(s[..|s| - 1], c);
      assert s[..|s| - 1] + [s[|s| - 1]] == s;
      if r >= 0 then
        assert s[r + 1..] == s[..|s| - 1][r + 1..] + [s[|s| - 1]];
        r
      else r
  }

  lemma LastIndexOfJoin(a: String, c: char, b: String)
    requires c !in b
    ensures LastIndexOf(a + [c] + b, c) == |a|
  {
    var s := a + [c] + b;
    assert s[|a|] == c;
    assert s[|a| + 1..] == b;
  }

  /** Reads a state text back into its state and the number it shows. */
  function DecodeStateText(t: String): Option<(LabelState, int)> {
    if t == [] then None
    else if t[0] == 'U' then
      if |t| > 8 && t[..8] == "Unsaved " then Some((Unsaved, Atoi(t[8..]))) else None
    else if t[0] == 'B' then
      if |t| > 7 && t[..7] == "Behind " then Some((Behind, Atoi(t[7..]))) else None
    else if t[0] == 'A' then
      if |t| > 6 && t[..6] == "Ahead " then Some((Ahead, Atoi(t[6..]))) else None
    else if t == "Conflicts" then Some((Conflicts, 0))
    else if t == "Diverged" then Some((Diverged, 0))
    else if t == "Changes" then Some((Changes, 0))
    else if t == "Clean" then Some((Clean, 0))
    else None
  }

  /** Splits a label at its last '|' and reads back its branch, state and number. */
  function DecodeLabel(text: String): Option<(String, LabelState, int)> {
    var i := LastIndexOf(text, '|');
    if 1 <= i && i + 2 <= |text| && text[i - 1] == ' ' && text[i + 1] == ' ' then
      match DecodeStateText(text[i + 2..])
      case Some(d) => Some((text[..i - 1], d.0, d.1))
      case None => None
    else None
  }

  lemma NoBarInNumber(n: int)
    ensures '|' !in IntToString(n)
  {
    var r := IntToString(n);
    if n >= 0 {
      assert r == NatToString(n);
      assert forall k :: 0 <= k < |r| ==> IsDigit(r[k]);
    } else {
      var d := NatToString(-n);
      assert r == "-" + d;
      forall k | 0 <= k < |r|
        ensures r[k] != '|'
      {
        if k > 0 {
          assert r[k] == d[k - 1];
        }
      }
    }
  }

  lemma UnsavedTextDecodes(n: int)
    ensures DecodeStateText("Unsaved " + IntToString(n)) == Some((Unsaved, n))
  {
    var t := "Unsaved " + IntToString(n);
    assert t[0] == 'U';
    assert t[..8] == "Unsaved " && t[8..] == IntToString(n);
    AtoiIntToString(n);
  }

  lemma BehindTextDecodes(n: int)
    ensures DecodeStateText("Behind " + IntToString(n)) == Some((Behind, n))
  {
    var t := "Behind " + IntToString(n);
    assert t[0] == 'B';
    assert t[..7] == "Behind " && t[7..] == IntToString(n);
    AtoiIntToString(n);
  }

  lemma AheadTextDecodes(n: int)
    ensures DecodeStateText("Ahead " + IntToString(n)) == Some((Ahead, n))
  {
    var t := "Ahead " + IntToString(n);
    assert t[0] == 'A';
    assert t[..6] == "Ahead " && t[6..] == IntToString(n);
    AtoiIntToString(n);
  }

  lemma StateTextRoundTrip(state: LabelState, st: SourceControlStatus, unsavedAssetCount: int)
    ensures '|' !in StateText(state, st, unsavedAssetCount)
    ensures DecodeStateText(StateText(state, st, unsavedAssetCount))
            == Some((state, ShownNumber(state, st, unsavedAssetCount)))
  {
    NoBarInStateText(state, st, unsavedAssetCount);
    match state
    case Unsaved => UnsavedTextDecodes(unsavedAssetCount);
    case Behind => BehindTextDecodes(st.behind);
    case Ahead => AheadTextDecodes(st.ahead);
    case _ =>
  }

  lemma NoBarInStateText(state: LabelState, st: SourceControlStatus, unsavedAssetCount: int)
    ensures '|' !in StateText(state, st, unsavedAssetCount)
  {
    var t := StateText(state, st, unsavedAssetCount);
    match state
    case Unsaved => NoBarAfter("Unsaved ", unsavedAssetCount);
    case Behind => NoBarAfter("Behind ", st.behind);
    case Ahead => NoBarAfter("Ahead ", st.ahead);
    case _ =>
      forall k | 0 <= k < |t|
        ensures t[k] != '|'
      {
      }
  }

  lemma NoBarAfter(word: String, n: int)
    requires '|' !in word
    ensures '|' !in word + IntToString(n)
  {
    NoBarInNumber(n);
  }

  /** Text joined to a branch with " | " decodes back to that branch, whatever the
      branch contains, as long as the text itself has no '|'. */
  lemma DecodeJoinedLabel(b: String, t: String)
    requires '|' !in t
    ensures DecodeLabel(b + " | " + t)
            == match DecodeStateText(t) case Some(d) => Some((b, d.0, d.1)) case None => None
  {
    var shown := b + " | " + t;
    assert shown == (b + " ") + ['|'] + (" " + t);
    assert '|' !in " " + t;
    LastIndexOfJoin(b + " ", '|', " " + t);
    assert shown[|b| + 3..] == t;
    assert shown[..|b|] == b;
  }

  /** The label is a faithful rendering: a usable status's label decodes back to
      the branch shown, the precedence state and the number it carries, and the
      three failure labels decode to nothing. */
  lemma LabelRoundTrip(st: SourceControlStatus, hasUnsavedAssets: bool, unsavedAssetCount: int)
    ensures var state := LabelStateOf(st, hasUnsavedAssets);
      AvailabilityOf(st) == Ready
      ==> DecodeLabel(GetLabel(st, hasUnsavedAssets, unsavedAssetCount))
          == Some((LabelBranch(st), state, ShownNumber(state, st, unsavedAssetCount)))
    ensures AvailabilityOf(st) != Ready ==> DecodeLabel(GetLabel(st, hasUnsavedAssets, unsavedAssetCount)).None?
  {
    if AvailabilityOf(st) == Ready {
      ReadyLabelDecodes(st, hasUnsavedAssets, unsavedAssetCount);
    } else {
      var text := GetLabel(st, hasUnsavedAssets, unsavedAssetCount);
      assert text in {"SCM Missing", "Login Required", "No SCM Repo"};
      assert '|' !in text;
      NoBarNoLabel(text);
    }
  }

  lemma ReadyLabelDecodes(st: SourceControlStatus, hasUnsavedAssets: bool, unsavedAssetCount: int)
    requires AvailabilityOf(st) == Ready
    ensures var state := LabelStateOf(st, hasUnsavedAssets);
      DecodeLabel(GetLabel(st, hasUnsavedAssets, unsavedAssetCount))
      == Some((LabelBranch(st), state, ShownNumber(state, st, unsavedAssetCount)))
  {
    var state := LabelStateOf(st, hasUnsavedAssets);
    var t := StateText(state, st, unsavedAssetCount);
    StateTextRoundTrip(state, st, unsavedAssetCount);
    DecodeJoinedLabel(LabelBranch(st), t);
  }

  /** Text without a '|' is not a decodable label. */
  lemma NoBarNoLabel(text: String)
    requires '|' !in text
    ensures DecodeLabel(text).None?
  {
  }

  // ---------------------------------------------------------------------------
  // Icon

  datatype Icon = WarningWithColor | Warning | Save | Refresh | Info

  /** GetIcon. Unlike the label it tests the login flag before the client, folds
      Diverged into the conflict warning ahead of unsaved assets, and tests Ahead
      before Changes. */
  function GetIcon(st: SourceControlStatus, hasUnsavedAssets: bool): Icon {
    if st.authRequired then WarningWithColor
    else if !st.clientAvailable || !st.isRepo then Warning
    else if st.hasConflicts || (st.ahead > 0 && st.behind > 0) then WarningWithColor
    else if hasUnsavedAssets then Save
    else if st.behind > 0 then Refresh
    else if st.ahead > 0 then Save
    else if PendingChanges(st) > 0 then Save
    else Info
  }

  /** The icon each label state calls for. */
  function StateIcon(state: LabelState): Icon {
    match state
    case Conflicts => WarningWithColor
    case Diverged => WarningWithColor
    case Unsaved => Save
    case Behind => Refresh
    case Changes => Save
    case Ahead => Save
    case Clean => Info
  }

  /** The icon agrees with the label's state, whatever order the two test Ahead and
      Changes in; the one disagreement is a diverged tree with unsaved assets, where
      the label says "Unsaved" and the icon warns. Failures show a warning. */
  lemma IconFollowsLabel(st: SourceControlStatus, hasUnsavedAssets: bool)
    ensures var state := LabelStateOf(st, hasUnsavedAssets);
      var icon := GetIcon(st, hasUnsavedAssets);
      AvailabilityOf(st) == Ready
      ==> icon == if state == Unsaved && st.ahead > 0 && st.behind > 0 then WarningWithColor else StateIcon(state)
    ensures AvailabilityOf(st) == LoginNeeded ==> GetIcon(st, hasUnsavedAssets) == WarningWithColor
    ensures AvailabilityOf(st) == NoRepository ==> GetIcon(st, hasUnsavedAssets) == Warning
    ensures AvailabilityOf(st) == ClientMissing
            ==> GetIcon(st, hasUnsavedAssets) == if st.authRequired then WarningWithColor else Warning
  {
  }

  // ---------------------------------------------------------------------------
  // Gates against the label

  /** What the label shows whenever a gate is open. The gates ignore conflicts, so
      "Conflicts" can sit beside an open pull or push. */
  lemma GatesAgainstLabel(st: SourceControlStatus, hasUnsavedAssets: bool)
    ensures var s := LabelStateOf(st, hasUnsavedAssets);
      (CanExecuteGitPull(st, hasUnsavedAssets) ==> s == Conflicts || s == Diverged || s == Behind)
      && (CanExecuteGitPush(st, hasUnsavedAssets) ==> s == Conflicts || s == Ahead)
      && (CanExecutePlasticUpdate(st, hasUnsavedAssets) ==> s != Unsaved && s != Changes)
  {
  }

  // ---------------------------------------------------------------------------
  // Status summary

  // Each headline is written as a short first word and the rest, which lets the
  // verifier see the characters that tell the headlines apart.
  const ClientMissingText := "Git" + " or Plastic SCM CLI not found. Install Git or Unity Version Control (Plastic SCM) CLI and restart the editor."
  const LoginRequiredText := "Plastic" + " SCM login required. Sign in via Source Control to continue."
  const NoRepositoryText := "Project" + " is not inside a Git repository or Plastic SCM workspace."
  const DetailsMarker := "\n\nDetails:\n"

  /** A failure headline, followed by the last error under "Details" when there is one. */
  function WithDetails(headline: String, lastError: String): String {
    if lastError == [] then headline else headline + DetailsMarker + lastError
  }

  // One function per line the summary may append, each ending in a line break.

  function ProviderLine(st: SourceControlStatus): String {
    "Provider: " + ProviderLabel(st.provider) + "\n"
  }

  /** Only for Plastic SCM, and only with a workspace name. */
  function WorkspaceLine(st: SourceControlStatus): String {
    if st.provider == Plastic && st.workspaceName != [] then "Workspace: " + st.workspaceName + "\n" else []
  }

  function RootLine(st: SourceControlStatus): String {
    "Root: " + st.repoRoot + "\n"
  }

  /** The branch, else the workspace name; nothing when both are empty. */
  function BranchLine(st: SourceControlStatus): String {
    var branchLabel := if st.branch == [] then st.workspaceName else st.branch;
    if branchLabel != [] then "Branch: " + branchLabel + "\n" else []
  }

  function UpstreamLine(st: SourceControlStatus): String {
    if st.hasUpstream then "Ahead: " + IntToString(st.ahead) + "  Behind: " + IntToString(st.behind) + "\n"
    else "Upstream: not set\n"
  }

  function ChangeCountsLine(st: SourceControlStatus): String {
    "Staged: " + IntToString(st.staged) + "  Unstaged: " + IntToString(st.unstaged)
    + "  Untracked: " + IntToString(st.untracked) + "\n"
  }

  function UpdatesLine(st: SourceControlStatus): String {
    if st.behind > 0 then "Updates available: " + IntToString(st.behind) + "\n" else []
  }

  /** Plastic SCM's pending count is Unstaged + Untracked. */
  function PendingLine(st: SourceControlStatus): String {
    "Pending changes: " + IntToString(st.unstaged + st.untracked) + "\n"
  }

  function UnsavedCountLine(unsavedAssetCount: int): String {
    "Unsaved assets: " + IntToString(unsavedAssetCount) + "\n"
  }

  function ExampleLine(sampleUnsavedPackage: String): String {
    if sampleUnsavedPackage != [] then "Example: " + sampleUnsavedPackage + "\n" else []
  }

  /** The Git or Plastic SCM count lines. */
  function CountPieces(st: SourceControlStatus): seq<String> {
    if st.provider == Git then [UpstreamLine(st), ChangeCountsLine(st)]
    else if st.provider == Plastic then [UpdatesLine(st), PendingLine(st)]
    else []
  }

  function UnsavedPieces(hasUnsavedAssets: bool, unsavedAssetCount: int, sampleUnsavedPackage: String): seq<String> {
    if hasUnsavedAssets then [UnsavedCountLine(unsavedAssetCount), ExampleLine(sampleUnsavedPackage)] else []
  }

  /** The lines a usable status's summary appends, in order. */
  function SummaryPieces(st: SourceControlStatus, hasUnsavedAssets: bool, unsavedAssetCount: int,
                         sampleUnsavedPackage: String): seq<String>
  {
    [ProviderLine(st), WorkspaceLine(st), RootLine(st), BranchLine(st)]
    + CountPieces(st) + UnsavedPieces(hasUnsavedAssets, unsavedAssetCount, sampleUnsavedPackage)
  }

  function Concat(pieces: seq<String>): String {
    if pieces == [] then [] else pieces[0] + Concat(pieces[1..])
  }

  /** BuildStatusSummary. */
  function BuildStatusSummary(st: SourceControlStatus, hasUnsavedAssets: bool, unsavedAssetCount: int,
                              sampleUnsavedPackage: String): String
  {
    match AvailabilityOf(st)
    case ClientMissing => WithDetails(ClientMissingText, st.lastError)
    case LoginNeeded => WithDetails(LoginRequiredText, st.lastError)
    case NoRepository => WithDetails(NoRepositoryText, st.lastError)
    case Ready => Concat(SummaryPieces(st, hasUnsavedAssets, unsavedAssetCount, sampleUnsavedPackage))
  }

  /** Which of the four kinds of summary a text is, read from its opening line. */
  function SummaryAvailability(summary: String): Availability {
    if ClientMissingText <= summary then ClientMissing
    else if LoginRequiredText <= summary then LoginNeeded
    else if NoRepositoryText <= summary then NoRepository
    else Ready
  }

  /** The error text a failure summary carries after its headline and the
      "Details" marker, or nothing. */
  function SummaryDetails(summary: String): String {
    var headline := match SummaryAvailability(summary)
                    case ClientMissing => ClientMissingText
                    case LoginNeeded => LoginRequiredText
                    case NoRepository => NoRepositoryText
                    case Ready => [];
    if SummaryAvailability(summary) != Ready && |headline| + |DetailsMarker| <= |summary|
    then summary[|headline| + |DetailsMarker|..]
    else []
  }

  /** The summary is a faithful rendering of the availability checks: it reads back
      as the same kind of summary, and a failure summary gives back the status's
      last error. */
  lemma SummaryRoundTrip(st: SourceControlStatus, hasUnsavedAssets: bool, unsavedAssetCount: int,
                         sampleUnsavedPackage: String)
    ensures var summary := BuildStatusSummary(st, hasUnsavedAssets, unsavedAssetCount, sampleUnsavedPackage);
      SummaryAvailability(summary) == AvailabilityOf(st)
      && (AvailabilityOf(st) != Ready ==> SummaryDetails(summary) == st.lastError)
  {
    match AvailabilityOf(st)
    case ClientMissing => ClientMissingSummary(st.lastError);
    case LoginNeeded => LoginSummary(st.lastError);
    case NoRepository => NoRepositorySummary(st.lastError);
    case Ready =>
      var summary := BuildStatusSummary(st, hasUnsavedAssets, unsavedAssetCount, sampleUnsavedPackage);
      ReadySummaryOpens(st, hasUnsavedAssets, unsavedAssetCount, sampleUnsavedPackage);
      assert summary[0] == 'P' && summary[1] == 'r' && summary[3] == 'v';
  }

  lemma ClientMissingSummary(lastError: String)
    ensures SummaryAvailability(WithDetails(ClientMissingText, lastError)) == ClientMissing
    ensures SummaryDetails(WithDetails(ClientMissingText, lastError)) == lastError
  {
  }

  lemma LoginSummary(lastError: String)
    ensures SummaryAvailability(WithDetails(LoginRequiredText, lastError)) == LoginNeeded
    ensures SummaryDetails(WithDetails(LoginRequiredText, lastError)) == lastError
  {
    assert WithDetails(LoginRequiredText, lastError)[0] == 'P';
  }

  lemma NoRepositorySummary(lastError: String)
    ensures SummaryAvailability(WithDetails(NoRepositoryText, lastError)) == NoRepository
    ensures SummaryDetails(WithDetails(NoRepositoryText, lastError)) == lastError
  {
    var summary := WithDetails(NoRepositoryText, lastError);
    assert summary[0] == 'P' && summary[1] == 'r';
  }

  /** `sub` occurs in `s` as a contiguous, case-sensitive piece. */
  predicate IsInfix(sub: String, s: String) {
    exists i :: 0 <= i <= |s| && sub <= s[i..]
  }

  lemma InfixOfConcat(a: String, sub: String, b: String)
    ensures IsInfix(sub, a + sub + b)
  {
    var s := a + sub + b;
    assert s[|a|..] == sub + b;
  }

  lemma InfixExtendLeft(sub: String, a: String, s: String)
    requires IsInfix(sub, s)
    ensures IsInfix(sub, a + s)
  {
    var i :| 0 <= i <= |s| && sub <= s[i..];
    assert (a + s)[|a| + i..] == s[i..];
  }

  /** Every piece occurs in the concatenation. */
  lemma {:induction false} PieceInConcat(pieces: seq<String>, i: nat)
    requires i < |pieces|
    ensures IsInfix(pieces[i], Concat(pieces))
    decreases i
  {
    if i == 0 {
      assert Concat(pieces) == [] + pieces[0] + Concat(pieces[1..]);
      InfixOfConcat([], pieces[0], Concat(pieces[1..]));
    } else {
      PieceInConcat(pieces[1..], i - 1);
      InfixExtendLeft(pieces[i], pieces[0], Concat(pieces[1..]));
    }
  }

  /** A usable status's summary opens with its provider line. */
  lemma ReadySummaryOpens(st: SourceControlStatus, hasUnsavedAssets: bool, unsavedAssetCount: int,
                          sampleUnsavedPackage: String)
    requires AvailabilityOf(st) == Ready
    ensures ProviderLine(st) <= BuildStatusSummary(st, hasUnsavedAssets, unsavedAssetCount, sampleUnsavedPackage)
  {
    var pieces := SummaryPieces(st, hasUnsavedAssets, unsavedAssetCount, sampleUnsavedPackage);
    assert Concat(pieces) == pieces[0] + Concat(pieces[1..]);
    assert (pieces[0] + Concat(pieces[1..]))[..|pieces[0]|] == pieces[0];
  }

  /** A usable status's summary carries its root line; the upstream line (the
      distance, or "Upstream: not set") for Git; the pending line for Plastic SCM;
      and the unsaved-asset count when there are unsaved assets. */
  lemma ReadySummary(st: SourceControlStatus, hasUnsavedAssets: bool, unsavedAssetCount: int,
                     sampleUnsavedPackage: String)
    requires AvailabilityOf(st) == Ready
    ensures var summary := BuildStatusSummary(st, hasUnsavedAssets, unsavedAssetCount, sampleUnsavedPackage);
      IsInfix(RootLine(st), summary)
      && (st.provider == Git ==> IsInfix(UpstreamLine(st), summary))
      && (st.provider == Plastic ==> IsInfix(PendingLine(st), summary))
      && (hasUnsavedAssets ==> IsInfix(UnsavedCountLine(unsavedAssetCount), summary))
  {
    var pieces := SummaryPieces(st, hasUnsavedAssets, unsavedAssetCount, sampleUnsavedPackage);
    var counts := CountPieces(st);
    PieceInConcat(pieces, 2);
    if st.provider == Git {
      assert pieces[4] == UpstreamLine(st);
      PieceInConcat(pieces, 4);
    } else if st.provider == Plastic {
      assert pieces[5] == PendingLine(st);
      PieceInConcat(pieces, 5);
    }
    if hasUnsavedAssets {
      assert pieces[4 + |counts|] == UnsavedCountLine(unsavedAssetCount);
      PieceInConcat(pieces, 4 + |counts|);
    }
  }

  // ---------------------------------------------------------------------------
  // Auto-fetch caption

  /** The whole seconds the auto-fetch menu caption shows: the setting truncated to
      seconds and raised to 10, or 120 without a settings object. */
  function AutoFetchCaptionSeconds(s: Option<Settings>): (seconds: int)
    ensures seconds >= 10
    ensures s.Some? ==> seconds * 1000 <= AutoFetchInterval(s.value) < seconds * 1000 + 1000
  {
    if s.Some? then Max(10, s.value.autoFetchIntervalMs / 1000) else 120
  }

  /** GetAutoFetchIntervalLabel. */
  function AutoFetchIntervalLabel(s: Option<Settings>): String {
    var caption := "Auto fetch interval: " + IntToString(AutoFetchCaptionSeconds(s)) + "s";
    if s.Some? && s.value.autoFetch then caption else caption + " (disabled)"
  }

  /** The caption names the interval first, and carries the " (disabled)" suffix
      exactly when auto-fetch is off or there are no settings. */
  lemma AutoFetchLabelSuffix(s: Option<Settings>)
    ensures var text := AutoFetchIntervalLabel(s);
      var suffix := " (disabled)";
      |text| > 21 && text[..21] == "Auto fetch interval: "
      && ((|text| >= |suffix| && text[|text| - |suffix|..] == suffix) <==> !(s.Some? && s.value.autoFetch))
  {
    var caption := "Auto fetch interval: " + IntToString(AutoFetchCaptionSeconds(s)) + "s";
    assert caption[..21] == "Auto fetch interval: ";
    assert caption[|caption| - 1] == 's';
    if !(s.Some? && s.value.autoFetch) {
      var text := caption + " (disabled)";
      assert text[..21] == caption[..21];
      assert text[|text| - 11..] == " (disabled)";
    }
  }
}
