// ParseGitStatusOutput: reads the output of `git status --porcelain=v2 -b`
// line by line into a status record. Lines are recognised by prefix, with the
// case-insensitive prefix test FString uses by default.

module GitParser {
  import opened Text
  import opened StatusModel

  const BranchHeadPrefix := "# branch.head "
  const UpstreamPrefix := "# branch.upstream "
  const AheadBehindPrefix := "# branch.ab "

  /** Which branch of the parser's if-chain a line takes. */
  datatype GitLine = BranchHead | Upstream | AheadBehind | Entry | Unmerged | UntrackedEntry | Other

  function ClassifyGitLine(line: String): (k: GitLine)
    ensures k == BranchHead ==> |line| >= |BranchHeadPrefix|
    ensures k == AheadBehind ==> |line| >= |AheadBehindPrefix|
  {
    if StartsWith(line, BranchHeadPrefix) then BranchHead
    else if StartsWith(line, UpstreamPrefix) then Upstream
    else if StartsWith(line, AheadBehindPrefix) then AheadBehind
    else if StartsWith(line, "1 ") || StartsWith(line, "2 ") then Entry
    else if StartsWith(line, "u ") then Unmerged
    else if StartsWith(line, "? ") then UntrackedEntry
    else Other
  }

  /** An ordinary or renamed entry long enough to carry both status letters. */
  predicate IsStatusEntry(line: String) {
    ClassifyGitLine(line) == Entry && |line| > 3
  }

  /** One token of a "# branch.ab" line: "+N" sets Ahead, "-M" sets Behind. */
  function ApplyAheadBehindPart(st: SourceControlStatus, part: String): SourceControlStatus {
    if StartsWith(part, "+") then st.(ahead := Atoi(part[1..]))
    else if StartsWith(part, "-") then st.(behind := Atoi(part[1..]))
    else st
  }

  function ApplyAheadBehindParts(st: SourceControlStatus, parts: seq<String>): SourceControlStatus
    decreases |parts|
  {
    if |parts| == 0 then st
    else ApplyAheadBehindPart(ApplyAheadBehindParts(st, parts[..|parts| - 1]), parts[|parts| - 1])
  }

  /** The effect of one line of porcelain output on the status. */
  function ApplyGitLine(st: SourceControlStatus, line: String): SourceControlStatus {
    match ClassifyGitLine(line)
    case BranchHead => st.(branch := TrimCopy(line[|BranchHeadPrefix|..]))
    case Upstream => st.(hasUpstream := true)
    case AheadBehind =>
      ApplyAheadBehindParts(st, ParseIntoArray(TrimCopy(line[|AheadBehindPrefix|..]), ' ', true))
    case Entry =>
      if |line| > 3 then
        st.(staged := if line[2] != '.' then st.staged + 1 else st.staged,
            unstaged := if line[3] != '.' then st.unstaged + 1 else st.unstaged,
            hasConflicts := st.hasConflicts || line[2] == 'U' || line[3] == 'U')
      else st
    case Unmerged => st.(hasConflicts := true)
    case UntrackedEntry => st.(untracked := st.untracked + 1)
    case Other => st
  }

  /** The status after applying the lines in order. */
  function ApplyGitLines(st: SourceControlStatus, lines: seq<String>): SourceControlStatus
    decreases |lines|
  {
    if |lines| == 0 then st
    else ApplyGitLine(ApplyGitLines(st, lines[..|lines| - 1]), lines[|lines| - 1])
  }

  // Counting functions over the lines, each a fold from the end like ApplyGitLines.

  function CountEntries(lines: seq<String>): nat
    decreases |lines|
  {
    if |lines| == 0 then 0
    else CountEntries(lines[..|lines| - 1]) + (if IsStatusEntry(lines[|lines| - 1]) then 1 else 0)
  }

  function CountStaged(lines: seq<String>): nat
    decreases |lines|
  {
    if |lines| == 0 then 0
    else var l := lines[|lines| - 1];
      CountStaged(lines[..|lines| - 1]) + (if IsStatusEntry(l) && l[2] != '.' then 1 else 0)
  }

  function CountUnstaged(lines: seq<String>): nat
    decreases |lines|
  {
    if |lines| == 0 then 0
    else var l := lines[|lines| - 1];
      CountUnstaged(lines[..|lines| - 1]) + (if IsStatusEntry(l) && l[3] != '.' then 1 else 0)
  }

  function CountUntracked(lines: seq<String>): nat
    decreases |lines|
  {
    if |lines| == 0 then 0
    else CountUntracked(lines[..|lines| - 1]) + (if ClassifyGitLine(lines[|lines| - 1]) == UntrackedEntry then 1 else 0)
  }

  /** A line that reports a conflict: an unmerged entry, or an entry with 'U' as
      its index or worktree letter. */
  predicate MarksConflict(line: String) {
    ClassifyGitLine(line) == Unmerged || (IsStatusEntry(line) && (line[2] == 'U' || line[3] == 'U'))
  }

  /** Lines that touch only the fields Branch, bHasUpstream, Ahead, Behind and the
      counters: everything else in the status is left as it was. */
  predicate SameIdentity(a: SourceControlStatus, b: SourceControlStatus) {
    a.provider == b.provider && a.clientAvailable == b.clientAvailable && a.isRepo == b.isRepo
    && a.authRequired == b.authRequired && a.repoRoot == b.repoRoot
    && a.workspaceName == b.workspaceName && a.lastError == b.lastError
  }

  /** One token writes Ahead or Behind and nothing else. */
  lemma AheadBehindPartKeepsOthers(st: SourceControlStatus, part: String)
    ensures ApplyAheadBehindPart(st, part).(ahead := st.ahead, behind := st.behind) == st
  {
  }

  lemma {:induction false} AheadBehindPartsKeepOthers(st: SourceControlStatus, parts: seq<String>)
    ensures ApplyAheadBehindParts(st, parts).(ahead := st.ahead, behind := st.behind) == st
    decreases |parts|
  {
    if |parts| > 0 {
      var init := ApplyAheadBehindParts(st, parts[..|parts| - 1]);
      AheadBehindPartsKeepOthers(st, parts[..|parts| - 1]);
      AheadBehindPartKeepsOthers(init, parts[|parts| - 1]);
    }
  }

  /** One line never writes the provider, client, repository, root, workspace,
      error or login fields. */
  lemma GitLineIdentity(st: SourceControlStatus, line: String)
    ensures SameIdentity(ApplyGitLine(st, line), st)
  {
    if ClassifyGitLine(line) == AheadBehind {
      AheadBehindPartsKeepOthers(st, ParseIntoArray(TrimCopy(line[|AheadBehindPrefix|..]), ' ', true));
    }
  }

  /** One line bumps each counter by at most one, as its kind says. */
  lemma GitLineCounts(st: SourceControlStatus, line: String)
    ensures var r := ApplyGitLine(st, line);
      r.staged == st.staged + (if IsStatusEntry(line) && line[2] != '.' then 1 else 0)
      && r.unstaged == st.unstaged + (if IsStatusEntry(line) && line[3] != '.' then 1 else 0)
      && r.untracked == st.untracked + (if ClassifyGitLine(line) == UntrackedEntry then 1 else 0)
  {
    if ClassifyGitLine(line) == AheadBehind {
      AheadBehindPartsKeepOthers(st, ParseIntoArray(TrimCopy(line[|AheadBehindPrefix|..]), ' ', true));
    }
  }

  /** One line sets the conflict flag exactly when it marks a conflict. */
  lemma GitLineConflict(st: SourceControlStatus, line: String)
    ensures ApplyGitLine(st, line).hasConflicts == (st.hasConflicts || MarksConflict(line))
  {
    if ClassifyGitLine(line) == AheadBehind {
      AheadBehindPartsKeepOthers(st, ParseIntoArray(TrimCopy(line[|AheadBehindPrefix|..]), ' ', true));
    }
  }

  predicate AnyConflict(lines: seq<String>) {
    exists k :: 0 <= k < |lines| && MarksConflict(lines[k])
  }

  lemma AnyConflictSnoc(lines: seq<String>)
    requires |lines| > 0
    ensures AnyConflict(lines) == (AnyConflict(lines[..|lines| - 1]) || MarksConflict(lines[|lines| - 1]))
  {
    var init := lines[..|lines| - 1];
    if AnyConflict(lines) && !MarksConflict(lines[|lines| - 1]) {
      var k :| 0 <= k < |lines| && MarksConflict(lines[k]);
      assert init[k] == lines[k];
    }
    if AnyConflict(init) {
      var k :| 0 <= k < |init| && MarksConflict(init[k]);
      assert lines[k] == init[k];
    }
  }

  /** What parsing the porcelain lines does to the counters and the conflict flag,
      and that it leaves provider, client, repository, root, workspace, error and
      login fields alone. */
  lemma {:induction false} GitLinesEffect(st: SourceControlStatus, lines: seq<String>)
    ensures var r := ApplyGitLines(st, lines);
      SameIdentity(r, st)
      && r.staged == st.staged + CountStaged(lines)
      && r.unstaged == st.unstaged + CountUnstaged(lines)
      && r.untracked == st.untracked + CountUntracked(lines)
      && (r.hasConflicts <==> st.hasConflicts || AnyConflict(lines))
    decreases |lines|
  {
    if |lines| > 0 {
      var init := lines[..|lines| - 1];
      GitLinesEffect(st, init);
      var prev := ApplyGitLines(st, init);
      GitLineIdentity(prev, lines[|lines| - 1]);
      GitLineCounts(prev, lines[|lines| - 1]);
      GitLineConflict(prev, lines[|lines| - 1]);
      AnyConflictSnoc(lines);
    }
  }

  /** Each staged or unstaged increment comes from a distinct entry line, so each
      counter grows by at most the number of entry lines (a line may bump both). */
  lemma {:induction false} StagedUnstagedBound(lines: seq<String>)
    ensures CountStaged(lines) <= CountEntries(lines)
    ensures CountUnstaged(lines) <= CountEntries(lines)
    decreases |lines|
  {
    if |lines| > 0 {
      StagedUnstagedBound(lines[..|lines| - 1]);
    }
  }

  /** The "# branch.head" line git writes for a branch name is read back as that
      name (trimmed). */
  lemma BranchHeadLine(st: SourceControlStatus, name: String)
    ensures ApplyGitLine(st, BranchHeadPrefix + name) == st.(branch := TrimCopy(name))
  {
    var line := BranchHeadPrefix + name;
    assert line[..|BranchHeadPrefix|] == BranchHeadPrefix;
    assert line[|BranchHeadPrefix|..] == name;
  }

  lemma ClassifyAheadBehindLine(rest: String)
    ensures ClassifyGitLine(AheadBehindPrefix + rest) == AheadBehind
  {
    var line := AheadBehindPrefix + rest;
    assert line[9] == 'a';
    NotStartsWithAt(line, BranchHeadPrefix, 9);
    NotStartsWithAt(line, UpstreamPrefix, 9);
    StartsWithConcat(AheadBehindPrefix, rest);
  }

  /** The text git writes after "# branch.ab ": "+N -M". */
  function AheadBehindText(n: nat, m: nat): String {
    (['+'] + NatToString(n)) + [' '] + (['-'] + NatToString(m))
  }

  /** The tokens of "+N -M" after trimming are "+N" and "-M". */
  lemma AheadBehindTokens(n: nat, m: nat)
    ensures ParseIntoArray(TrimCopy(AheadBehindText(n, m)), ' ', true)
            == [['+'] + NatToString(n), ['-'] + NatToString(m)]
  {
    var a := ['+'] + NatToString(n);
    var b := ['-'] + NatToString(m);
    var ab := a + [' '] + b;
    assert ab[|ab| - 1] == NatToString(m)[|NatToString(m)| - 1];
    TrimCopyOfTrimmed(ab);
    assert ' ' !in a && ' ' !in b;
    PiecesAtSeparator(a, ' ', b);
    assert [a, b][1..] == [b];
    assert NonEmpty([b]) == [b] by { assert [b][1..] == []; }
  }

  /** The "# branch.ab +N -M" line git writes is read back as Ahead = N and Behind = M. */
  lemma AheadBehindLine(st: SourceControlStatus, n: nat, m: nat)
    ensures ApplyGitLine(st, AheadBehindPrefix + AheadBehindText(n, m)) == st.(ahead := n, behind := m)
  {
    var tail := AheadBehindText(n, m);
    var line := AheadBehindPrefix + tail;
    ClassifyAheadBehindLine(tail);
    assert line[|AheadBehindPrefix|..] == tail;
    AheadBehindTokens(n, m);
    var a := ['+'] + NatToString(n);
    var b := ['-'] + NatToString(m);
    AheadBehindParts(st, n, m);
  }

  lemma AheadPart(st: SourceControlStatus, n: nat)
    ensures ApplyAheadBehindPart(st, ['+'] + NatToString(n)) == st.(ahead := n)
  {
    var a := ['+'] + NatToString(n);
    assert a[1..] == NatToString(n);
    AtoiIntToString(n);
    StartsWithConcat(['+'], NatToString(n));
  }

  lemma BehindPart(st: SourceControlStatus, m: nat)
    ensures ApplyAheadBehindPart(st, ['-'] + NatToString(m)) == st.(behind := m)
  {
    var b := ['-'] + NatToString(m);
    assert b[1..] == NatToString(m);
    AtoiIntToString(m);
    NotStartsWithAt(b, "+", 0);
    StartsWithConcat(['-'], NatToString(m));
  }

  lemma TwoParts(st: SourceControlStatus, a: String, b: String)
    ensures ApplyAheadBehindParts(st, [a, b]) == ApplyAheadBehindPart(ApplyAheadBehindPart(st, a), b)
  {
    var ps := [a, b];
    assert ps[..1] == [a] && ps[1] == b;
    assert ApplyAheadBehindParts(st, ps) == ApplyAheadBehindPart(ApplyAheadBehindParts(st, [a]), b);
    assert [a][..0] == [];
    assert ApplyAheadBehindParts(st, [a]) == ApplyAheadBehindPart(ApplyAheadBehindParts(st, []), a);
  }

  lemma AheadBehindParts(st: SourceControlStatus, n: nat, m: nat)
    ensures ApplyAheadBehindParts(st, [['+'] + NatToString(n), ['-'] + NatToString(m)])
            == st.(ahead := n, behind := m)
  {
    TwoParts(st, ['+'] + NatToString(n), ['-'] + NatToString(m));
    AheadPart(st, n);
    BehindPart(st.(ahead := n), m);
  }

  /** ParseGitStatusOutput: walks the lines of the output and updates the status
      passed in. */
  method ParseGitStatusOutput(output: String, status: SourceControlStatus) returns (r: SourceControlStatus)
    ensures r == ApplyGitLines(status, SplitLines(output))
    ensures var lines := SplitLines(output);
      SameIdentity(r, status)
      && r.untracked == status.untracked + CountUntracked(lines)
      && status.staged <= r.staged <= status.staged + CountEntries(lines)
      && status.unstaged <= r.unstaged <= status.unstaged + CountEntries(lines)
      && (r.hasConflicts <==> status.hasConflicts || AnyConflict(lines))
  {
    var lines := SplitLines(output);
    r := status;
    for i := 0 to |lines|
      invariant r == ApplyGitLines(status, lines[..i])
    {
      assert lines[..i + 1][..i] == lines[..i];
      r := ParseGitLine(lines[i], r);
    }
    assert lines[..|lines|] == lines;
    GitLinesEffect(status, lines);
    StagedUnstagedBound(lines);
  }

  /** The body of ParseGitStatusOutput's loop: one line, dispatched on the branch
      of the if-chain it takes. */
  method ParseGitLine(line: String, status: SourceControlStatus) returns (r: SourceControlStatus)
    ensures r == ApplyGitLine(status, line)
  {
    r := status;
    match ClassifyGitLine(line)
    case BranchHead =>
      r := r.(branch := TrimCopy(line[|BranchHeadPrefix|..]));
    case Upstream =>
      r := r.(hasUpstream := true);
    case AheadBehind =>
      r := ParseAheadBehind(ParseIntoArray(TrimCopy(line[|AheadBehindPrefix|..]), ' ', true), r);
    case Entry =>
      if |line| > 3 {
        r := ParseEntryLine(line, r);
      }
    case Unmerged =>
      r := r.(hasConflicts := true);
    case UntrackedEntry =>
      r := r.(untracked := r.untracked + 1);
    case Other =>
  }

  /** An ordinary or renamed entry: its index letter and worktree letter. */
  method ParseEntryLine(line: String, status: SourceControlStatus) returns (r: SourceControlStatus)
    requires |line| > 3
    ensures r == status.(staged := if line[2] != '.' then status.staged + 1 else status.staged,
                         unstaged := if line[3] != '.' then status.unstaged + 1 else status.unstaged,
                         hasConflicts := status.hasConflicts || line[2] == 'U' || line[3] == 'U')
  {
    r := status;
    var x := line[2];
    var y := line[3];
    if x != '.' {
      r := r.(staged := r.staged + 1);
    }
    if y != '.' {
      r := r.(unstaged := r.unstaged + 1);
    }
    if x == 'U' || y == 'U' {
      r := r.(hasConflicts := true);
    }
  }

  /** The inner loop over the space-separated tokens of a "# branch.ab" line. */
  method ParseAheadBehind(parts: seq<String>, status: SourceControlStatus) returns (r: SourceControlStatus)
    ensures r == ApplyAheadBehindParts(status, parts)
  {
    r := status;
    for j := 0 to |parts|
      invariant r == ApplyAheadBehindParts(status, parts[..j])
    {
      assert parts[..j + 1][..j] == parts[..j];
      var part := parts[j];
      if StartsWith(part, "+") {
        r := r.(ahead := Atoi(part[1..]));
      } else if StartsWith(part, "-") {
        r := r.(behind := Atoi(part[1..]));
      }
    }
    assert parts[..|parts|] == parts;
  }
}
