// The provider probes: TryPopulateGitStatus and TryPopulatePlasticStatus fill a
// fresh status from a chain of CLI calls with early returns, and the poll's
// background step (StartSourceControlStatusUpdate) picks the preferred provider,
// falls back from Git to Plastic SCM, and merges the errors when neither finds a
// repository. The CLI is an oracle: each probe receives the reply of every call it
// may make, and a reply is consulted only if the code reaches that call.

module Probes {
  import opened Text
  import opened StatusModel
  import opened GitParser
  import opened PlasticParser

  /** Replies to `git rev-parse --show-toplevel` and `git status --porcelain=v2 -b`. */
  datatype GitReplies = GitReplies(revParse: CliResult, status: CliResult)

  /** Replies to `cm getworkspacefrompath`, `cm workspaceinfo`, `cm status --header --head`
      and `cm status --machinereadable ...`. */
  datatype PlasticReplies = PlasticReplies(lookup: CliResult, info: CliResult, header: CliResult, status: CliResult)

  /** A probe's boolean result, its OutStatus and its OutError. */
  datatype ProbeResult = ProbeResult(found: bool, status: SourceControlStatus, error: String)

  const GitNotFound := "Git executable not found."
  const PlasticNotFound := "Plastic SCM CLI not found."
  const PlasticLoginRequired := "Plastic SCM login required."
  const PlasticRootNotFound := "Plastic SCM workspace root not found."

  /** The text a failed Plastic call is checked for login problems: stderr, a line
      break and stdout, trimmed. */
  function CombinedOutput(r: CliResult): String {
    TrimCopy(r.stderr + "\n" + r.stdout)
  }

  // ---------------------------------------------------------------------------
  // Git

  /** TryPopulateGitStatus as a function of the replies. */
  function GitProbe(g: GitReplies): ProbeResult {
    var base := DefaultStatus.(provider := Git);
    if !g.revParse.launched then
      ProbeResult(false, base.(lastError := GitNotFound), GitNotFound)
    else if g.revParse.exitCode != 0 then
      var e := TrimCopy(g.revParse.stderr);
      ProbeResult(false, base.(clientAvailable := true, lastError := e), e)
    else
      var st := base.(clientAvailable := true, isRepo := true, repoRoot := TrimCopy(g.revParse.stdout));
      if Succeeded(g.status) then ProbeResult(true, ApplyGitLines(st, SplitLines(g.status.stdout)), [])
      else
        var e := TrimCopy(g.status.stderr);
        ProbeResult(true, st.(lastError := e), e)
  }

  method TryPopulateGitStatus(g: GitReplies) returns (found: bool, status: SourceControlStatus, error: String)
    ensures ProbeResult(found, status, error) == GitProbe(g)
    ensures found <==> Succeeded(g.revParse)
    ensures status.provider == Git && (status.clientAvailable <==> g.revParse.launched)
    ensures !g.revParse.launched ==> error == GitNotFound
    ensures WellFormed(status)
  {
    error := [];
    status := DefaultStatus.(provider := Git);
    var revParse := g.revParse;
    if !revParse.launched {
      status := status.(clientAvailable := false);
      error := GitNotFound;
      status := status.(lastError := error);
      found := false;
      return;
    }
    status := status.(clientAvailable := true);
    if revParse.exitCode != 0 {
      status := status.(isRepo := false);
      error := TrimCopy(revParse.stderr);
      status := status.(lastError := error);
      found := false;
      return;
    }
    status := status.(isRepo := true, repoRoot := TrimCopy(revParse.stdout));
    var statusReply := g.status;
    if statusReply.launched && statusReply.exitCode == 0 {
      status := ParseGitStatusOutput(statusReply.stdout, status);
    } else {
      status := status.(lastError := TrimCopy(statusReply.stderr));
      error := status.lastError;
    }
    found := true;
  }

  /** A found Git repository's counts are those of the porcelain output read into a
      fresh status; the Git probe never asks for a login. */
  lemma GitProbeCounts(g: GitReplies)
    ensures var r := GitProbe(g);
      !r.status.authRequired
      && (r.found && Succeeded(g.status) ==>
            var lines := SplitLines(g.status.stdout);
            r.status.untracked == CountUntracked(lines)
            && 0 <= r.status.staged <= CountEntries(lines)
            && 0 <= r.status.unstaged <= CountEntries(lines)
            && (r.status.hasConflicts <==> AnyConflict(lines))
            && r.error == [])
  {
    var r := GitProbe(g);
    if r.found && Succeeded(g.status) {
      var st := DefaultStatus.(provider := Git, clientAvailable := true, isRepo := true,
                               repoRoot := TrimCopy(g.revParse.stdout));
      var lines := SplitLines(g.status.stdout);
      GitLinesEffect(st, lines);
      StagedUnstagedBound(lines);
    } else if r.found {
    }
  }

  // ---------------------------------------------------------------------------
  // Plastic SCM

  /** A call that failed and whose combined output names a login problem. */
  predicate LoginFailure(r: CliResult) {
    !Succeeded(r) && IsPlasticAuthError(CombinedOutput(r))
  }

  /** The early return on a login problem found after the workspace was located. */
  function LoginRequired(st: SourceControlStatus, combined: String): ProbeResult {
    ProbeResult(true, st.(authRequired := true, lastError := combined), PlasticLoginRequired)
  }

  /** The branch after `workspaceinfo`: set from its first "Branch" line when the call succeeded. */
  function AfterInfo(st: SourceControlStatus, info: CliResult): SourceControlStatus {
    if Succeeded(info) then
      match InfoBranch(SplitLines(info.stdout))
      case Some(b) => st.(branch := b)
      case None => st
    else st
  }

  /** The upstream distance and branch after `status --header --head`, when it succeeded. */
  function AfterHeader(st: SourceControlStatus, header: CliResult): SourceControlStatus {
    if Succeeded(header) then ApplyHeader(st, SplitLines(header.stdout)) else st
  }

  /** The three calls made once the workspace root is known; each failure is
      inspected for a login problem only, and the last one also reports its stderr. */
  function PlasticWorkspaceProbe(st0: SourceControlStatus, p: PlasticReplies): ProbeResult {
    if LoginFailure(p.info) then LoginRequired(st0, CombinedOutput(p.info))
    else HeaderProbe(AfterInfo(st0, p.info), p)
  }

  function HeaderProbe(st1: SourceControlStatus, p: PlasticReplies): ProbeResult {
    if LoginFailure(p.header) then LoginRequired(st1, CombinedOutput(p.header))
    else ChangesProbe(AfterHeader(st1, p.header), p.status)
  }

  function ChangesProbe(st2: SourceControlStatus, reply: CliResult): ProbeResult {
    if Succeeded(reply) then ProbeResult(true, ApplyPlasticStatus(st2, SplitLines(reply.stdout)), [])
    else if IsPlasticAuthError(CombinedOutput(reply)) then LoginRequired(st2, CombinedOutput(reply))
    else
      var e := TrimCopy(reply.stderr);
      ProbeResult(true, st2.(lastError := e), e)
  }

  /** The status once the workspace is located: client and repository present,
      root and name from the lookup. */
  function LocatedStatus(name: String, root: String): SourceControlStatus {
    DefaultStatus.(provider := Plastic, clientAvailable := true, isRepo := true,
                   repoRoot := root, workspaceName := name)
  }

  /** TryPopulatePlasticStatus as a function of the replies. */
  function PlasticProbe(p: PlasticReplies): ProbeResult {
    var base := DefaultStatus.(provider := Plastic);
    if !p.lookup.launched then
      ProbeResult(false, base.(lastError := PlasticNotFound), PlasticNotFound)
    else if p.lookup.exitCode != 0 || p.lookup.stdout == [] then
      var c := CombinedOutput(p.lookup);
      if IsPlasticAuthError(c) then
        ProbeResult(false, base.(clientAvailable := true, authRequired := true, lastError := c), PlasticLoginRequired)
      else
        var e := TrimCopy(p.lookup.stderr);
        ProbeResult(false, base.(clientAvailable := true, lastError := e), e)
    else
      var (name, root) := ParseWorkspaceLookup(p.lookup.stdout);
      if root == [] then
        ProbeResult(false, base.(clientAvailable := true, lastError := PlasticRootNotFound), PlasticRootNotFound)
      else PlasticWorkspaceProbe(LocatedStatus(name, root), p)
  }

  /** The fields the steps after the lookup never change. */
  predicate KeepsLocation(a: SourceControlStatus, b: SourceControlStatus) {
    a.provider == b.provider && a.clientAvailable == b.clientAvailable && a.isRepo == b.isRepo
    && a.repoRoot == b.repoRoot && a.workspaceName == b.workspaceName && a.staged == b.staged
  }

  /** A located Plastic SCM workspace: client and repository present, and well formed. */
  predicate Located(st: SourceControlStatus) {
    st.provider == Plastic && st.clientAvailable && st.isRepo && WellFormed(st)
  }

  /** The calls after the lookup, step by step, with their early returns. Every path
      reports the workspace as found and keeps it located, whatever later calls answer. */
  method ProbeLocatedWorkspace(name: String, root: String, p: PlasticReplies)
    returns (found: bool, status: SourceControlStatus, error: String)
    ensures ProbeResult(found, status, error) == PlasticWorkspaceProbe(LocatedStatus(name, root), p)
    ensures found && KeepsLocation(status, LocatedStatus(name, root)) && Located(status)
  {
    status := LocatedStatus(name, root);
    var info := p.info;
    if info.launched && info.exitCode == 0 {
      status := ReadWorkspaceInfoBranch(info.stdout, status);
    } else {
      var combined := CombinedOutput(info);
      if IsPlasticAuthError(combined) {
        status := status.(authRequired := true, lastError := combined);
        found, error := true, PlasticLoginRequired;
        return;
      }
    }
    found, status, error := ProbeHeader(status, p);
  }

  method ProbeHeader(st1: SourceControlStatus, p: PlasticReplies)
    returns (found: bool, status: SourceControlStatus, error: String)
    requires Located(st1)
    ensures ProbeResult(found, status, error) == HeaderProbe(st1, p)
    ensures found && KeepsLocation(status, st1) && Located(status)
  {
    status := st1;
    var header := p.header;
    if header.launched && header.exitCode == 0 {
      status := ReadHeader(st1, header);
    } else {
      var combined := CombinedOutput(header);
      if IsPlasticAuthError(combined) {
        status := status.(authRequired := true, lastError := combined);
        found, error := true, PlasticLoginRequired;
        assert HeaderProbe(st1, p) == LoginRequired(st1, combined);
        return;
      }
    }
    assert !LoginFailure(header);
    assert status == AfterHeader(st1, header) && KeepsLocation(status, st1);
    assert HeaderProbe(st1, p) == ChangesProbe(status, p.status);
    found, status, error := ProbeChanges(status, p.status);
  }

  /** The header call's effect once it succeeded: the location is untouched. */
  method ReadHeader(st1: SourceControlStatus, header: CliResult) returns (status: SourceControlStatus)
    requires Located(st1) && Succeeded(header)
    ensures status == AfterHeader(st1, header)
    ensures KeepsLocation(status, st1) && Located(status)
  {
    status := ScanPlasticHeader(header.stdout, st1);
  }

  method ProbeChanges(st2: SourceControlStatus, statusReply: CliResult)
    returns (found: bool, status: SourceControlStatus, error: String)
    requires Located(st2)
    ensures ProbeResult(found, status, error) == ChangesProbe(st2, statusReply)
    ensures found && KeepsLocation(status, st2) && Located(status)
  {
    found, error := true, [];
    status := st2;
    if statusReply.launched && statusReply.exitCode == 0 {
      status := ParsePlasticStatusOutput(statusReply.stdout, status);
    } else {
      status, error := ReportChangesFailure(st2, statusReply);
    }
  }

  /** A failed `status` call: a login problem, or its stderr as the error. */
  method ReportChangesFailure(st2: SourceControlStatus, statusReply: CliResult)
    returns (status: SourceControlStatus, error: String)
    requires Located(st2) && !Succeeded(statusReply)
    ensures ProbeResult(true, status, error) == ChangesProbe(st2, statusReply)
    ensures KeepsLocation(status, st2) && Located(status)
  {
    status := st2;
    var combined := CombinedOutput(statusReply);
    if IsPlasticAuthError(combined) {
      status := status.(authRequired := true, lastError := combined);
      error := PlasticLoginRequired;
    } else {
      status := status.(lastError := TrimCopy(statusReply.stderr));
      error := status.lastError;
    }
  }

  method TryPopulatePlasticStatus(p: PlasticReplies) returns (found: bool, status: SourceControlStatus, error: String)
    ensures ProbeResult(found, status, error) == PlasticProbe(p)
    ensures status.provider == Plastic && (status.clientAvailable <==> p.lookup.launched)
    ensures found <==> Succeeded(p.lookup) && p.lookup.stdout != [] && ParseWorkspaceLookup(p.lookup.stdout).1 != []
    ensures found ==> status.isRepo && status.repoRoot == ParseWorkspaceLookup(p.lookup.stdout).1
    ensures found ==> (status.authRequired <==> LoginFailure(p.info) || LoginFailure(p.header) || LoginFailure(p.status))
    ensures WellFormed(status)
  {
    error := [];
    status := DefaultStatus.(provider := Plastic);
    var lookup := p.lookup;
    if !lookup.launched {
      status := status.(clientAvailable := false);
      error := PlasticNotFound;
      status := status.(lastError := error);
      found := false;
      return;
    }
    status := status.(clientAvailable := true);
    if lookup.exitCode != 0 || lookup.stdout == [] {
      status := status.(isRepo := false);
      var combined := CombinedOutput(lookup);
      if IsPlasticAuthError(combined) {
        status := status.(authRequired := true);
        error := PlasticLoginRequired;
        status := status.(lastError := combined);
      } else {
        error := TrimCopy(lookup.stderr);
        status := status.(lastError := error);
      }
      found := false;
      return;
    }
    var workspaceName: String := [];
    var workspaceRoot: String := [];
    var parts := ParseIntoArray(TrimCopy(lookup.stdout), '|', true);
    if |parts| >= 2 {
      workspaceName := TrimCopy(parts[0]);
      workspaceRoot := TrimCopy(parts[1]);
    }
    assert (workspaceName, workspaceRoot) == ParseWorkspaceLookup(lookup.stdout);
    if workspaceRoot == [] {
      status := status.(isRepo := false);
      error := PlasticRootNotFound;
      status := status.(lastError := error);
      found := false;
      return;
    }
    assert PlasticProbe(p) == PlasticWorkspaceProbe(LocatedStatus(workspaceName, workspaceRoot), p);
    found, status, error := ProbeLocatedWorkspace(workspaceName, workspaceRoot, p);
    PlasticLoginRule(p);
  }

  /** After the lookup every path reports the workspace as found. */
  lemma PlasticWorkspaceFound(st0: SourceControlStatus, p: PlasticReplies)
    ensures PlasticWorkspaceProbe(st0, p).found
  {
    HeaderProbeFound(AfterInfo(st0, p.info), p);
  }

  lemma HeaderProbeFound(st1: SourceControlStatus, p: PlasticReplies)
    ensures HeaderProbe(st1, p).found
  {
    ChangesProbeFound(AfterHeader(st1, p.header), p.status);
  }

  lemma ChangesProbeFound(st2: SourceControlStatus, reply: CliResult)
    ensures ChangesProbe(st2, reply).found
  {
  }

  /** A failed or empty lookup reports no workspace, and sets the login flag exactly
      when the combined output names a login problem. */
  lemma PlasticLookupFailure(p: PlasticReplies)
    requires p.lookup.launched && (p.lookup.exitCode != 0 || p.lookup.stdout == [])
    ensures var r := PlasticProbe(p);
      !r.found && r.status.clientAvailable && !r.status.isRepo
      && (r.status.authRequired <==> IsPlasticAuthError(CombinedOutput(p.lookup)))
      && (r.status.authRequired ==> r.error == PlasticLoginRequired && r.status.lastError == CombinedOutput(p.lookup))
      && (!r.status.authRequired ==> r.error == TrimCopy(p.lookup.stderr))
  {
  }

  /** An empty lookup output is reported with the call's own stderr, never as a
      missing workspace root. */
  lemma EmptyLookupIsNotRootNotFound(p: PlasticReplies)
    requires Succeeded(p.lookup) && p.lookup.stdout == []
    requires !IsPlasticAuthError(CombinedOutput(p.lookup))
    ensures PlasticProbe(p).error == TrimCopy(p.lookup.stderr)
    ensures PlasticProbe(p).status.lastError == TrimCopy(p.lookup.stderr)
  {
  }

  /** A login problem on `workspaceinfo` ends the probe there: whatever the header
      and status calls would have answered, the result is the same. */
  lemma InfoLoginShortCircuits(p: PlasticReplies, header: CliResult, status: CliResult)
    requires Succeeded(p.lookup) && p.lookup.stdout != []
    requires LoginFailure(p.info)
    ensures PlasticProbe(p) == PlasticProbe(p.(header := header, status := status))
    ensures ParseWorkspaceLookup(p.lookup.stdout).1 != [] ==>
      var r := PlasticProbe(p);
      r.found && r.status.authRequired && r.error == PlasticLoginRequired
      && r.status.lastError == CombinedOutput(p.info)
  {
  }

  /** The lookup named a workspace root. */
  predicate WorkspaceLocated(p: PlasticReplies) {
    Succeeded(p.lookup) && p.lookup.stdout != [] && ParseWorkspaceLookup(p.lookup.stdout).1 != []
  }

  /** Once located, the result is that of the calls made on the workspace. */
  lemma LocatedProbe(p: PlasticReplies)
    requires WorkspaceLocated(p)
    ensures var (name, root) := ParseWorkspaceLookup(p.lookup.stdout);
      PlasticProbe(p) == PlasticWorkspaceProbe(LocatedStatus(name, root), p)
  {
  }

  /** A login problem on the header call, after a workspaceinfo call without one,
      is reported as found with the login flag and the header call's combined output. */
  lemma HeaderLoginReported(p: PlasticReplies)
    requires WorkspaceLocated(p)
    requires !LoginFailure(p.info) && LoginFailure(p.header)
    ensures var r := PlasticProbe(p);
      r.found && r.status.authRequired && r.error == PlasticLoginRequired
      && r.status.lastError == CombinedOutput(p.header)
  {
    LocatedProbe(p);
  }

  /** A login problem on the change-list call, the first one, is reported the same
      way with that call's combined output. */
  lemma ChangesLoginReported(p: PlasticReplies)
    requires WorkspaceLocated(p)
    requires !LoginFailure(p.info) && !LoginFailure(p.header) && LoginFailure(p.status)
    ensures var r := PlasticProbe(p);
      r.found && r.status.authRequired && r.error == PlasticLoginRequired
      && r.status.lastError == CombinedOutput(p.status)
  {
    LocatedProbe(p);
  }

  /** Any other failure of the change-list call still reports the workspace, with the
      call's trimmed stderr as the error and without the login flag. */
  lemma ChangesFailureReported(p: PlasticReplies)
    requires WorkspaceLocated(p)
    requires !LoginFailure(p.info) && !LoginFailure(p.header)
    requires !Succeeded(p.status) && !LoginFailure(p.status)
    ensures var r := PlasticProbe(p);
      r.found && !r.status.authRequired && r.error == TrimCopy(p.status.stderr)
      && r.status.lastError == TrimCopy(p.status.stderr)
  {
    LocatedProbe(p);
    var (name, root) := ParseWorkspaceLookup(p.lookup.stdout);
    WorkspaceChangesFailure(LocatedStatus(name, root), p);
  }

  lemma WorkspaceChangesFailure(st0: SourceControlStatus, p: PlasticReplies)
    requires !st0.authRequired
    requires !LoginFailure(p.info) && !LoginFailure(p.header)
    requires !Succeeded(p.status) && !LoginFailure(p.status)
    ensures var r := PlasticWorkspaceProbe(st0, p);
      !r.status.authRequired && r.error == TrimCopy(p.status.stderr)
      && r.status.lastError == TrimCopy(p.status.stderr)
  {
    var st2 := AfterHeader(AfterInfo(st0, p.info), p.header);
    assert PlasticWorkspaceProbe(st0, p) == ChangesProbe(st2, p.status);
  }

  /** The calls on a located workspace raise the login flag only on a login failure. */
  lemma WorkspaceLoginFlag(st0: SourceControlStatus, p: PlasticReplies)
    requires !st0.authRequired
    ensures PlasticWorkspaceProbe(st0, p).status.authRequired
            <==> LoginFailure(p.info) || LoginFailure(p.header) || LoginFailure(p.status)
  {
    if !LoginFailure(p.info) {
      var st1 := AfterInfo(st0, p.info);
      assert !st1.authRequired;
      HeaderLoginFlag(st1, p);
    }
  }

  lemma HeaderLoginFlag(st1: SourceControlStatus, p: PlasticReplies)
    requires !st1.authRequired
    ensures HeaderProbe(st1, p).status.authRequired <==> LoginFailure(p.header) || LoginFailure(p.status)
  {
    if !LoginFailure(p.header) {
      var st2 := AfterHeader(st1, p.header);
      assert !st2.authRequired;
      ChangesLoginFlag(st2, p.status);
    }
  }

  lemma ChangesLoginFlag(st2: SourceControlStatus, reply: CliResult)
    requires !st2.authRequired
    ensures ChangesProbe(st2, reply).status.authRequired <==> LoginFailure(reply)
  {
  }

  /** A located workspace is reported with the login flag exactly when one of the
      calls made on it failed with a login problem. */
  lemma PlasticLoginRule(p: PlasticReplies)
    requires WorkspaceLocated(p)
    ensures PlasticProbe(p).found
    ensures PlasticProbe(p).status.authRequired
            <==> LoginFailure(p.info) || LoginFailure(p.header) || LoginFailure(p.status)
  {
    LocatedProbe(p);
    var (name, root) := ParseWorkspaceLookup(p.lookup.stdout);
    PlasticWorkspaceFound(LocatedStatus(name, root), p);
    WorkspaceLoginFlag(LocatedStatus(name, root), p);
  }

  /** A login problem on the header call ends the probe there too. */
  lemma HeaderLoginShortCircuits(p: PlasticReplies, status: CliResult)
    requires LoginFailure(p.header)
    ensures PlasticProbe(p) == PlasticProbe(p.(status := status))
  {
    if Succeeded(p.lookup) && p.lookup.stdout != [] {
      var (name, root) := ParseWorkspaceLookup(p.lookup.stdout);
      if root != [] {
        WorkspaceProbeStopsAtHeaderLogin(LocatedStatus(name, root), p, status);
      }
    }
  }

  lemma WorkspaceProbeStopsAtHeaderLogin(st0: SourceControlStatus, p: PlasticReplies, status: CliResult)
    requires LoginFailure(p.header)
    ensures PlasticWorkspaceProbe(st0, p) == PlasticWorkspaceProbe(st0, p.(status := status))
  {
    var st1 := AfterInfo(st0, p.info);
    assert HeaderProbe(st1, p) == LoginRequired(st1, CombinedOutput(p.header));
    assert HeaderProbe(st1, p.(status := status)) == LoginRequired(st1, CombinedOutput(p.header));
  }

  /** Failed calls after the lookup are only inspected for login problems: a failure
      of workspaceinfo or of the header call without one changes nothing. */
  lemma QuietFailuresIgnored(st0: SourceControlStatus, p: PlasticReplies)
    requires !Succeeded(p.info) && !LoginFailure(p.info)
    requires !Succeeded(p.header) && !LoginFailure(p.header)
    ensures var r := PlasticWorkspaceProbe(st0, p);
      r.status.branch == st0.branch && r.status.ahead == st0.ahead && r.status.behind == st0.behind
      && r.status.hasUpstream == st0.hasUpstream
  {
    assert PlasticWorkspaceProbe(st0, p) == HeaderProbe(st0, p);
    assert HeaderProbe(st0, p) == ChangesProbe(st0, p.status);
    ChangesKeepDistance(st0, p.status);
  }

  /** The final `status` call never touches the branch or the upstream distance. */
  lemma ChangesKeepDistance(st2: SourceControlStatus, reply: CliResult)
    ensures var r := ChangesProbe(st2, reply);
      r.status.branch == st2.branch && r.status.ahead == st2.ahead && r.status.behind == st2.behind
      && r.status.hasUpstream == st2.hasUpstream
  {
    if Succeeded(reply) {
      var lines := SplitLines(reply.stdout);
      assert ChangesProbe(st2, reply).status == ApplyPlasticStatus(st2, lines);
    } else if IsPlasticAuthError(CombinedOutput(reply)) {
      assert ChangesProbe(st2, reply) == LoginRequired(st2, CombinedOutput(reply));
    }
  }

  // ---------------------------------------------------------------------------
  // Provider choice

  /** GetPreferredProvider: from the editor's source-control module, when it is
      enabled, by a case-insensitive search of its provider name. */
  function GetPreferredProvider(enabled: bool, providerName: String): Provider {
    if !enabled then NoProvider
    else
      var name := Lower(providerName);
      if Contains(name, "plastic") || Contains(name, "unity") then Plastic
      else if Contains(name, "git") then Git
      else NoProvider
  }

  /** The engine's own provider names pick the expected provider, and a disabled
      module picks none. */
  lemma PreferredProviderNames(name: String)
    ensures GetPreferredProvider(true, "Git") == Git
    ensures GetPreferredProvider(true, "Plastic SCM") == Plastic
    ensures GetPreferredProvider(true, "Unity Version Control") == Plastic
    ensures GetPreferredProvider(false, name) == NoProvider
  {
    assert Lower("Git") == "git";
    ContainsAt("git", "git", 0);
    assert Lower("Plastic SCM")[..7] == "plastic";
    ContainsAt(Lower("Plastic SCM"), "plastic", 0);
    assert Lower("Unity Version Control")[..5] == "unity";
    ContainsAt(Lower("Unity Version Control"), "unity", 0);
  }

  /** Any provider name mentioning "plastic" or "unity", in any case, picks Plastic SCM. */
  lemma PreferredPlasticPhrase(before: String, word: String, after: String)
    requires Lower(word) == "plastic" || Lower(word) == "unity"
    ensures GetPreferredProvider(true, before + word + after) == Plastic
  {
    ContainsLowered(before, word, after);
  }

  /** A name mentioning "git", in any case, and neither of the Plastic SCM words picks Git. */
  lemma PreferredGitPhrase(before: String, word: String, after: String)
    requires Lower(word) == "git"
    requires !Contains(Lower(before + word + after), "plastic")
    requires !Contains(Lower(before + word + after), "unity")
    ensures GetPreferredProvider(true, before + word + after) == Git
  {
    ContainsLowered(before, word, after);
  }

  /** A name mentioning none of the three words picks no provider. */
  lemma PreferredNone(name: String)
    requires !Contains(Lower(name), "plastic") && !Contains(Lower(name), "unity")
    requires !Contains(Lower(name), "git")
    ensures GetPreferredProvider(true, name) == NoProvider
  {
  }

  /** The "\n"-joined "Git: ..." / "Plastic SCM: ..." messages of the probes that
      reported an error. */
  function ProbeErrors(gitError: String, plasticError: String): String {
    var errors := (if gitError != [] then ["Git: " + gitError] else [])
                  + (if plasticError != [] then ["Plastic SCM: " + plasticError] else []);
    Join(errors, "\n")
  }

  /** The status published when neither probe found a repository. */
  function NoRepository(gitResult: ProbeResult, plasticResult: ProbeResult): SourceControlStatus {
    DefaultStatus.(clientAvailable := gitResult.status.clientAvailable || plasticResult.status.clientAvailable,
                   lastError := ProbeErrors(gitResult.error, plasticResult.error))
  }

  /** Without a preference: Git's status if it found a repository, else Plastic SCM's
      if that found one, else the merged failure. */
  function Fallback(gitResult: ProbeResult, plasticResult: ProbeResult): SourceControlStatus {
    if gitResult.found then gitResult.status
    else if plasticResult.found then plasticResult.status
    else NoRepository(gitResult, plasticResult)
  }

  /** The status one poll publishes, as a function of the preference and the replies. */
  function Resolve(pref: Provider, g: GitReplies, p: PlasticReplies): SourceControlStatus {
    match pref
    case Plastic => PlasticProbe(p).status
    case Git => GitProbe(g).status
    case NoProvider => Fallback(GitProbe(g), PlasticProbe(p))
  }

  /** The background half of a poll (StartSourceControlStatusUpdate). */
  method ProbeSourceControl(pref: Provider, g: GitReplies, p: PlasticReplies) returns (newStatus: SourceControlStatus)
    ensures newStatus == Resolve(pref, g, p)
    ensures WellFormed(newStatus)
  {
    if pref == Plastic {
      newStatus := ProbePlasticOnly(p);
    } else if pref == Git {
      newStatus := ProbeGitOnly(g);
    } else {
      newStatus := ProbeWithFallback(g, p);
    }
  }

  /** The branch for a preferred Plastic SCM: its probe's status, found or not. */
  method ProbePlasticOnly(p: PlasticReplies) returns (newStatus: SourceControlStatus)
    ensures newStatus == PlasticProbe(p).status
    ensures WellFormed(newStatus)
  {
    var plasticRepoFound, plasticStatus, plasticError := TryPopulatePlasticStatus(p);
    newStatus := plasticStatus;
  }

  /** The branch for a preferred Git: its probe's status, found or not. */
  method ProbeGitOnly(g: GitReplies) returns (newStatus: SourceControlStatus)
    ensures newStatus == GitProbe(g).status
    ensures WellFormed(newStatus)
  {
    var gitRepoFound, gitStatus, gitError := TryPopulateGitStatus(g);
    newStatus := gitStatus;
  }

  /** The no-preference branch: Git first, Plastic SCM only when Git found no repository. */
  method ProbeWithFallback(g: GitReplies, p: PlasticReplies) returns (newStatus: SourceControlStatus)
    ensures newStatus == Fallback(GitProbe(g), PlasticProbe(p))
    ensures WellFormed(newStatus)
  {
    var gitRepoFound, gitStatus, gitError := TryPopulateGitStatus(g);
    if gitRepoFound {
      newStatus := gitStatus;
    } else {
      newStatus := ProbePlasticAfterGit(ProbeResult(gitRepoFound, gitStatus, gitError), p);
    }
  }

  /** The second half of the fallback, once Git has found no repository. */
  method ProbePlasticAfterGit(gitResult: ProbeResult, p: PlasticReplies) returns (newStatus: SourceControlStatus)
    requires !gitResult.found
    ensures newStatus == Fallback(gitResult, PlasticProbe(p))
    ensures WellFormed(newStatus)
  {
    var plasticRepoFound, plasticStatus, plasticError := TryPopulatePlasticStatus(p);
    newStatus := CombineProbes(gitResult, ProbeResult(plasticRepoFound, plasticStatus, plasticError));
  }

  /** Picks between the two probes' results once both are known. */
  method CombineProbes(gitResult: ProbeResult, plasticResult: ProbeResult) returns (newStatus: SourceControlStatus)
    requires !gitResult.found
    requires WellFormed(plasticResult.status)
    ensures newStatus == Fallback(gitResult, plasticResult)
    ensures WellFormed(newStatus)
  {
    if plasticResult.found {
      newStatus := plasticResult.status;
    } else {
      newStatus := DefaultStatus;
      newStatus := newStatus.(provider := NoProvider,
                              clientAvailable := gitResult.status.clientAvailable || plasticResult.status.clientAvailable,
                              isRepo := false);
      var errors: seq<String> := [];
      if gitResult.error != [] {
        errors := errors + ["Git: " + gitResult.error];
      }
      if plasticResult.error != [] {
        errors := errors + ["Plastic SCM: " + plasticResult.error];
      }
      newStatus := newStatus.(lastError := if |errors| > 0 then Join(errors, "\n") else []);
    }
  }

  /** A preference runs only its own probe: the other provider's replies do not matter. */
  lemma PreferenceRunsOneProbe(g: GitReplies, p: PlasticReplies, g2: GitReplies, p2: PlasticReplies)
    ensures Resolve(Plastic, g, p) == Resolve(Plastic, g2, p) == PlasticProbe(p).status
    ensures Resolve(Git, g, p) == Resolve(Git, g, p2) == GitProbe(g).status
  {
  }

  /** Without a preference Plastic SCM is probed only when Git found no repository,
      and a Git repository wins. */
  lemma GitFirstFallback(g: GitReplies, p: PlasticReplies, p2: PlasticReplies)
    ensures GitProbe(g).found ==> Resolve(NoProvider, g, p) == Resolve(NoProvider, g, p2) == GitProbe(g).status
    ensures !GitProbe(g).found && PlasticProbe(p).found ==> Resolve(NoProvider, g, p) == PlasticProbe(p).status
  {
  }

  /** When neither probe finds a repository the published status has no provider,
      a client when either probe saw one, and both probes' messages. */
  lemma PlasticNotFoundClient(p: PlasticReplies)
    requires !PlasticProbe(p).found
    ensures PlasticProbe(p).status.clientAvailable <==> p.lookup.launched
    ensures PlasticProbe(p).status.provider == Plastic && !PlasticProbe(p).status.isRepo
  {
    if Succeeded(p.lookup) && p.lookup.stdout != [] {
      var (name, root) := ParseWorkspaceLookup(p.lookup.stdout);
      if root != [] {
        PlasticWorkspaceFound(LocatedStatus(name, root), p);
      }
    }
  }

  lemma NeitherFound(g: GitReplies, p: PlasticReplies)
    requires !GitProbe(g).found && !PlasticProbe(p).found
    ensures var r := Resolve(NoProvider, g, p);
      r.provider == NoProvider && !r.isRepo && !r.authRequired
      && (r.clientAvailable <==> g.revParse.launched || p.lookup.launched)
      && (r.lastError == [] <==> GitProbe(g).error == [] && PlasticProbe(p).error == [])
      && (GitProbe(g).error != [] && PlasticProbe(p).error == [] ==> r.lastError == "Git: " + GitProbe(g).error)
      && (GitProbe(g).error == [] && PlasticProbe(p).error != [] ==> r.lastError == "Plastic SCM: " + PlasticProbe(p).error)
      && (GitProbe(g).error != [] && PlasticProbe(p).error != [] ==>
            r.lastError == "Git: " + GitProbe(g).error + "\n" + "Plastic SCM: " + PlasticProbe(p).error)
  {
    PlasticNotFoundClient(p);
    var ge, pe := GitProbe(g).error, PlasticProbe(p).error;
    if ge != [] && pe == [] {
      assert ProbeErrors(ge, pe) == "Git: " + ge;
    } else if ge == [] && pe != [] {
      assert ProbeErrors(ge, pe) == "Plastic SCM: " + pe;
    } else if ge != [] && pe != [] {
      ProbeErrorsBoth(ge, pe);
    }
  }

  /** With both messages present they are joined by one line break, Git first. */
  lemma ProbeErrorsBoth(gitError: String, plasticError: String)
    requires gitError != [] && plasticError != []
    ensures ProbeErrors(gitError, plasticError) == "Git: " + gitError + "\n" + "Plastic SCM: " + plasticError
  {
    var xs := ["Git: " + gitError, "Plastic SCM: " + plasticError];
    assert xs[1..] == ["Plastic SCM: " + plasticError];
  }
}
