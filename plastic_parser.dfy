// The readers of Plastic SCM (Unity Version Control) CLI output: the
// `getworkspacefrompath` answer, the branch line of `workspaceinfo`, the
// changeset header of `status --header --head`, the machine-readable change list
// of `status --machinereadable`, and the test for authentication failures.

module PlasticParser {
  import opened Text
  import opened StatusModel

  // ---------------------------------------------------------------------------
  // Authentication failures

  /** IsPlasticAuthError: the lower-cased text mentions one of nine login-related phrases. */
  predicate IsPlasticAuthError(text: String) {
    var lower := Lower(text);
    Contains(lower, "login") || Contains(lower, "log in") || Contains(lower, "authentication")
    || Contains(lower, "credential") || Contains(lower, "unauthorized") || Contains(lower, "not authorized")
    || Contains(lower, "access denied") || Contains(lower, "token") || Contains(lower, "expired")
  }

  /** Any text that carries one of the phrases, in whatever letter case, counts as an
      authentication failure. */
  lemma AuthPhraseDetected(before: String, phrase: String, after: String)
    requires Lower(phrase) in ["login", "log in", "authentication", "credential", "unauthorized",
                               "not authorized", "access denied", "token", "expired"]
    ensures IsPlasticAuthError(before + phrase + after)
  {
    var l := Lower(before + phrase + after);
    assert l[|before|..|before| + |phrase|] == Lower(phrase);
    assert Lower(Lower(phrase)) == Lower(phrase);
    ContainsAt(l, Lower(phrase), |before|);
  }

  // ---------------------------------------------------------------------------
  // getworkspacefrompath "<dir>" --format="{wkname}|{wkpath}"

  /** The workspace name and root read from the lookup output: the trimmed first
      two non-empty '|'-separated fields, or two empty strings when there are fewer. */
  function ParseWorkspaceLookup(stdout: String): (r: (String, String))
    ensures r.1 != [] ==> !IsWhitespace(r.1[0]) && '|' !in r.1
  {
    var parts := ParseIntoArray(TrimCopy(stdout), '|', true);
    if |parts| >= 2 then (TrimCopy(parts[0]), TrimCopy(parts[1])) else ([], [])
  }

  /** The "{wkname}|{wkpath}" line the CLI prints for a workspace is read back as
      that name and root. */
  lemma {:induction false} WorkspaceLookupRoundTrip(name: String, root: String)
    requires name != [] && root != [] && '|' !in name && '|' !in root
    requires !IsWhitespace(name[0]) && !IsWhitespace(name[|name| - 1])
    requires !IsWhitespace(root[0]) && !IsWhitespace(root[|root| - 1])
    ensures ParseWorkspaceLookup(name + ['|'] + root) == (name, root)
  {
    var s := name + ['|'] + root;
    assert s[|s| - 1] == root[|root| - 1];
    TrimCopyOfTrimmed(s);
    LookupFields(name, root);
    TrimCopyOfTrimmed(name);
    TrimCopyOfTrimmed(root);
  }

  /** The two non-empty fields of "{wkname}|{wkpath}". */
  lemma LookupFields(name: String, root: String)
    requires name != [] && root != [] && '|' !in name && '|' !in root
    ensures ParseIntoArray(name + ['|'] + root, '|', true) == [name, root]
  {
    PiecesAtSeparator(name, '|', root);
    assert [name, root][1..] == [root];
    assert NonEmpty([root]) == [root] by { assert [root][1..] == []; }
  }

  // ---------------------------------------------------------------------------
  // workspaceinfo "<root>"

  /** Where a "Branch" line is split: at its first ':' or, if it has none, at its first '='. */
  function InfoSplitIndex(t: String): (i: int)
    ensures -1 <= i < |t|
    ensures i >= 0 ==> t[i] == ':' || t[i] == '='
    ensures ':' in t ==> i >= 0 && t[i] == ':' && ':' !in t[..i]
    ensures ':' !in t ==> (i >= 0 <==> '=' in t) && (i >= 0 ==> t[i] == '=' && '=' !in t[..i])
  {
    var colon := IndexOf(t, ':');
    if colon >= 0 then colon else IndexOf(t, '=')
  }

  /** The branch a workspaceinfo line names: for a trimmed line starting with
      "Branch" (any letter case) that has a ':' or '=', the trimmed text after it. */
  function InfoLineBranch(line: String): Option<String> {
    var t := TrimCopy(line);
    var i := InfoSplitIndex(t);
    if StartsWith(t, "Branch") && i >= 0 then Some(TrimCopy(t[i + 1..])) else None
  }

  /** The branch named by the first "Branch" line of the workspaceinfo output, if any. */
  function InfoBranch(lines: seq<String>): Option<String>
    decreases |lines|
  {
    if |lines| == 0 then None
    else if InfoLineBranch(lines[0]).Some? then InfoLineBranch(lines[0])
    else InfoBranch(lines[1..])
  }

  /** One step of the scan, at line i. */
  lemma InfoBranchStep(lines: seq<String>, i: nat)
    requires i < |lines|
    ensures InfoBranch(lines[i..])
            == if InfoLineBranch(lines[i]).Some? then InfoLineBranch(lines[i]) else InfoBranch(lines[i + 1..])
  {
    assert lines[i..][0] == lines[i];
    assert lines[i..][1..] == lines[i + 1..];
  }

  /** The scan finds nothing when no line names a branch... */
  lemma InfoBranchNoneWhenNoLine(lines: seq<String>)
    requires forall k :: 0 <= k < |lines| ==> InfoLineBranch(lines[k]).None?
    ensures InfoBranch(lines) == None
  {
    NoBranchFrom(lines, 0);
    assert lines[0..] == lines;
  }

  lemma {:induction false} NoBranchFrom(lines: seq<String>, j: nat)
    requires j <= |lines|
    requires forall k :: j <= k < |lines| ==> InfoLineBranch(lines[k]).None?
    ensures InfoBranch(lines[j..]) == None
    decreases |lines| - j
  {
    if j < |lines| {
      InfoBranchStep(lines, j);
      NoBranchFrom(lines, j + 1);
    } else {
      assert lines[j..] == [];
    }
  }

  /** ...and only then. */
  lemma InfoBranchNoneOnlyWhenNoLine(lines: seq<String>, i: nat)
    requires i < |lines| && InfoBranch(lines) == None
    ensures InfoLineBranch(lines[i]) == None
  {
    assert lines[0..] == lines;
    NoneThrough(lines, 0, i);
  }

  lemma {:induction false} NoneThrough(lines: seq<String>, j: nat, i: nat)
    requires j <= i < |lines| && InfoBranch(lines[j..]) == None
    ensures InfoLineBranch(lines[i]) == None
    decreases i - j
  {
    InfoBranchStep(lines, j);
    if j < i {
      NoneThrough(lines, j + 1, i);
    }
  }

  /** The scan's answer is the branch of the first line that names one. */
  lemma InfoBranchFirstLine(lines: seq<String>, i: nat)
    requires i < |lines| && InfoLineBranch(lines[i]).Some?
    requires forall k :: 0 <= k < i ==> InfoLineBranch(lines[k]).None?
    ensures InfoBranch(lines) == InfoLineBranch(lines[i])
  {
    FirstLineFrom(lines, i, 0);
    assert lines[0..] == lines;
  }

  lemma {:induction false} FirstLineFrom(lines: seq<String>, i: nat, j: nat)
    requires j <= i < |lines| && InfoLineBranch(lines[i]).Some?
    requires forall k :: j <= k < i ==> InfoLineBranch(lines[k]).None?
    ensures InfoBranch(lines[j..]) == InfoLineBranch(lines[i])
    decreases i - j
  {
    InfoBranchStep(lines, j);
    if j < i {
      FirstLineFrom(lines, i, j + 1);
    }
  }

  /** The branch lines `cm workspaceinfo` prints, "Branch: <name>", are read back as the name. */
  lemma InfoBranchLineRoundTrip(name: String)
    requires name != [] && !IsWhitespace(name[0]) && !IsWhitespace(name[|name| - 1])
    ensures InfoLineBranch("Branch: " + name) == Some(name)
  {
    var line := "Branch: " + name;
    BranchLineShape(name);
    BranchLineValue(name);
    assert TrimCopy(line) == line && InfoSplitIndex(line) == 6;
  }

  lemma BranchLineShape(name: String)
    requires name != [] && !IsWhitespace(name[|name| - 1])
    ensures TrimCopy("Branch: " + name) == "Branch: " + name
    ensures StartsWith("Branch: " + name, "Branch")
    ensures InfoSplitIndex("Branch: " + name) == 6
  {
    var line := "Branch: " + name;
    assert line[|line| - 1] == name[|name| - 1];
    TrimCopyOfTrimmed(line);
    StartsWithConcat("Branch", ": " + name);
    assert "Branch" + (": " + name) == line;
    assert line[6] == ':' && ':' !in line[..6];
  }

  lemma BranchLineValue(name: String)
    requires name != [] && !IsWhitespace(name[0]) && !IsWhitespace(name[|name| - 1])
    ensures TrimCopy(("Branch: " + name)[7..]) == name
  {
    assert ("Branch: " + name)[7..] == [' '] + name;
    assert TrimStart([' '] + name) == name by { assert ([' '] + name)[1..] == name; }
    TrimCopyOfTrimmed(name);
  }

  /** The workspaceinfo scan: the first "Branch" line sets the branch; the loop stops there. */
  method ReadWorkspaceInfoBranch(stdout: String, status: SourceControlStatus) returns (r: SourceControlStatus)
    ensures InfoBranch(SplitLines(stdout)).Some? ==> r == status.(branch := InfoBranch(SplitLines(stdout)).value)
    ensures InfoBranch(SplitLines(stdout)).None? ==> r == status
  {
    var lines := SplitLines(stdout);
    r := status;
    for i := 0 to |lines|
      invariant InfoBranch(lines[i..]) == InfoBranch(lines)
      invariant r == status
    {
      var branch := InfoLineBranch(lines[i]);
      InfoBranchStep(lines, i);
      if branch.Some? {
        r := r.(branch := branch.value);
        return;
      }
    }
    assert lines[|lines|..] == [];
  }

  // ---------------------------------------------------------------------------
  // status --header --head

  /** The first match of the pattern key(\d+) in s, read with Atoi; None without a match. */
  function NumberAfter(s: String, key: String): (r: Option<int>)
    ensures r.Some? ==> r.value >= 0
    decreases |s|
  {
    if |s| <= |key| then None
    else if s[..|key|] == key && IsDigit(s[|key|]) then
      var digits := DigitPrefix(s[|key|..]);
      AtoiOfDigits(digits);
      Some(Atoi(digits))
    else NumberAfter(s[1..], key)
  }

  lemma AtoiOfDigits(d: String)
    requires |d| > 0 && AllDigits(d)
    ensures Atoi(d) == DecimalValue(d)
  {
    assert TrimStart(d) == d by { assert !IsWhitespace(d[0]); }
    assert DigitPrefix(d) == d by { DigitPrefixOfDigits(d, []); assert d + [] == d; }
  }

  /** A number printed right after the key is the one the pattern finds. */
  lemma NumberAfterRoundTrip(key: String, n: nat, rest: String)
    requires rest == [] || !IsDigit(rest[0])
    ensures NumberAfter(key + NatToString(n) + rest, key) == Some(n)
  {
    var d := NatToString(n);
    var s := key + d + rest;
    assert s[..|key|] == key;
    assert s[|key|..] == d + rest;
    assert s[|key|] == d[0];
    NumberAfterHere(s, key);
    DigitsThenRest(n, rest);
  }

  lemma NumberAfterHere(s: String, key: String)
    requires |key| < |s| && s[..|key|] == key && IsDigit(s[|key|])
    ensures NumberAfter(s, key) == Some(Atoi(DigitPrefix(s[|key|..])))
  {
  }

  /** The key occurs at offset i followed by a digit: a match of key(\d+) there. */
  predicate MatchAt(s: String, key: String, i: nat) {
    i + |key| < |s| && s[i..i + |key|] == key && IsDigit(s[i + |key|])
  }

  /** A match one character further on in s is a match in s[1..]. */
  lemma MatchShift(s: String, key: String, i: nat)
    requires |s| > 0
    ensures MatchAt(s[1..], key, i) <==> MatchAt(s, key, i + 1)
  {
    if i + 1 + |key| < |s| {
      assert s[1..][i..i + |key|] == s[i + 1..i + 1 + |key|];
    }
  }

  /** Without a match at the start, the search moves on by one character. */
  lemma NumberAfterSkip(s: String, key: String)
    requires |s| > |key| && !MatchAt(s, key, 0)
    ensures NumberAfter(s, key) == NumberAfter(s[1..], key)
  {
    assert s[..|key|] == s[0..|key|];
  }

  /** No match before j in s means no match before j - 1 in s[1..]. */
  lemma NoEarlierMatchShift(s: String, key: String, j: nat)
    requires |s| > 0 && j > 0
    requires forall i: nat :: i < j ==> !MatchAt(s, key, i)
    ensures forall i: nat :: i < j - 1 ==> !MatchAt(s[1..], key, i)
  {
    forall i: nat | i < j - 1
      ensures !MatchAt(s[1..], key, i)
    {
      MatchShift(s, key, i);
    }
  }

  /** The search passes over a stretch without matches unchanged. */
  lemma {:induction false} NumberAfterSkipTo(s: String, key: String, j: nat)
    requires MatchAt(s, key, j)
    requires forall i: nat :: i < j ==> !MatchAt(s, key, i)
    ensures NumberAfter(s, key) == NumberAfter(s[j..], key)
    decreases j
  {
    if j > 0 {
      assert !MatchAt(s, key, 0);
      NumberAfterSkip(s, key);
      MatchShift(s, key, j - 1);
      NoEarlierMatchShift(s, key, j);
      NumberAfterSkipTo(s[1..], key, j - 1);
      assert s[1..][j - 1..] == s[j..];
    }
  }

  /** The leftmost match decides the number, wherever it is in the line. */
  lemma NumberAfterFirstMatch(s: String, key: String, j: nat)
    requires MatchAt(s, key, j)
    requires forall i: nat :: i < j ==> !MatchAt(s, key, i)
    ensures NumberAfter(s, key) == Some(Atoi(DigitPrefix(s[j + |key|..])))
  {
    NumberAfterSkipTo(s, key, j);
    var t := s[j..];
    assert t[..|key|] == s[j..j + |key|];
    NumberAfterHere(t, key);
    assert t[|key|..] == s[j + |key|..];
  }

  /** Without any match there is no number. */
  lemma {:induction false} NumberAfterNoMatch(s: String, key: String)
    requires forall i: nat :: !MatchAt(s, key, i)
    ensures NumberAfter(s, key) == None
    decreases |s|
  {
    if |s| > |key| {
      NumberAfterSkip(s, key);
      forall i: nat
        ensures !MatchAt(s[1..], key, i)
      {
        MatchShift(s, key, i);
      }
      NumberAfterNoMatch(s[1..], key);
    }
  }

  /** A number printed after the key in the middle of a line, such as "head:" in
      "cs:12 - head:15", is the one found when no earlier match precedes it. */
  lemma NumberAfterMidLine(pre: String, key: String, n: nat, rest: String)
    requires rest == [] || !IsDigit(rest[0])
    requires forall i: nat :: i < |pre| ==> !MatchAt(pre + key + NatToString(n) + rest, key, i)
    ensures NumberAfter(pre + key + NatToString(n) + rest, key) == Some(n)
  {
    var d := NatToString(n);
    var m := key + d + rest;
    var s := pre + key + d + rest;
    assert s == pre + m;
    assert s[|pre|..] == m;
    assert m[..|key|] == key;
    assert s[|pre|..|pre| + |key|] == key;
    assert s[|pre| + |key|] == d[0];
    NumberAfterSkipTo(s, key, |pre|);
    NumberAfterRoundTrip(key, n, rest);
  }

  lemma DigitsThenRest(n: nat, rest: String)
    requires rest == [] || !IsDigit(rest[0])
    ensures Atoi(DigitPrefix(NatToString(n) + rest)) == n
  {
    DigitPrefixOfDigits(NatToString(n), rest);
    AtoiOfDigits(NatToString(n));
  }

  /** The changeset number the header's last matching line gives for key, or -1 (INDEX_NONE). */
  function HeaderNumber(lines: seq<String>, key: String): (n: int)
    ensures n >= -1
    decreases |lines|
  {
    if |lines| == 0 then -1
    else match NumberAfter(lines[|lines| - 1], key)
      case Some(v) => v
      case None => HeaderNumber(lines[..|lines| - 1], key)
  }

  /** The branch a header line names: the text before any '(' , trimmed, when it
      starts with '/' or "lb:", cut at its first '@' and trimmed again; empty otherwise. */
  function HeaderBranchCandidate(line: String): String {
    var paren := IndexOf(line, '(');
    var left := TrimCopy(if paren >= 0 then line[..paren] else line);
    if StartsWith(left, "/") || StartsWith(left, "lb:") then
      var at := IndexOf(left, '@');
      TrimCopy(if at >= 0 then left[..at] else left)
    else []
  }

  /** Trimming text that starts with a trimmed head keeps that head. */
  lemma TrimKeepsHead(h: String, r: String)
    requires h != [] && !IsWhitespace(h[0]) && !IsWhitespace(h[|h| - 1])
    ensures |TrimCopy(h + r)| >= |h| && TrimCopy(h + r)[..|h|] == h
  {
    var s := h + r;
    var t := TrimStart(s);
    assert s[0] == h[0];
    var e := TrimEnd(t);
    assert t[|h| - 1] == h[|h| - 1];
    assert e[..|h|] == h;
  }

  /** The text before the first '(' of a branch line. */
  lemma BranchLineCut(h: String, tail: String)
    requires '(' !in h
    requires tail == [] || tail[0] == '('
    ensures var paren := IndexOf(h + tail, '(');
            (if paren >= 0 then (h + tail)[..paren] else h + tail) == h
  {
    var line := h + tail;
    var paren := IndexOf(line, '(');
    if tail == [] {
      assert line == h;
    } else {
      assert line[|h|] == '(';
      assert line[..|h|] == h;
      forall k | 0 <= k < |h|
        ensures line[k] != '('
      {
        assert line[k] == h[k];
      }
    }
  }

  /** The trimmed text before the '(' starts with the branch spec and its '@'. */
  lemma BranchLineLeft(b: String, r: String)
    requires b != [] && !IsWhitespace(b[0]) && !IsWhitespace(b[|b| - 1])
    requires StartsWith(b, "/") || StartsWith(b, "lb:")
    requires '@' !in b
    ensures var left := TrimCopy(b + ['@'] + r);
            (StartsWith(left, "/") || StartsWith(left, "lb:")) &&
            IndexOf(left, '@') == |b| && left[..|b|] == b
  {
    var h := b + ['@'];
    TrimKeepsHead(h, r);
    var left := TrimCopy(h + r);
    assert left[..|b|] == b;
    assert left[..1] == b[..1];
    if StartsWith(b, "lb:") {
      assert left[..3] == b[..3];
    }
    var at := IndexOf(left, '@');
    assert left[|b|] == '@';
    forall k | 0 <= k < |b|
      ensures left[k] != '@'
    {
      assert left[k] == b[k];
    }
  }

  /** A branch line of the header, "<spec>@<repository>@<server>" optionally followed
      by " (cs:... head:...)", names the branch spec before the first '@'. */
  lemma HeaderLineBranch(b: String, r: String, tail: String)
    requires b != [] && !IsWhitespace(b[0]) && !IsWhitespace(b[|b| - 1])
    requires StartsWith(b, "/") || StartsWith(b, "lb:")
    requires '@' !in b && '(' !in b && '(' !in r
    requires tail == [] || tail[0] == '('
    ensures HeaderBranchCandidate(b + ['@'] + r + tail) == b
  {
    var h := b + ['@'] + r;
    assert '(' !in h;
    BranchLineCut(h, tail);
    BranchLineLeft(b, r);
    TrimCopyOfTrimmed(b);
  }

  /** The trimmed text before the first '(' of a line is a prefix of the line
      with its leading whitespace removed. */
  lemma CutTrimIsPrefix(line: String, cut: String)
    requires |cut| <= |line| && cut == line[..|cut|]
    ensures |TrimCopy(cut)| <= |TrimStart(line)| && TrimCopy(cut) == TrimStart(line)[..|TrimCopy(cut)|]
  {
    TrimCopyIsMiddle(cut);
    MiddleOfPrefix(line, cut, TrimCopy(cut), |cut| - |TrimStart(cut)|, TrimStart(line));
  }

  /** The middle of a prefix of a line, when it is not empty, starts where the
      line's leading whitespace ends. */
  lemma MiddleOfPrefix(line: String, cut: String, left: String, i: int, t: String)
    requires |cut| <= |line| && cut == line[..|cut|]
    requires IsMiddle(cut, left, i) && (left == [] || !IsWhitespace(left[0]))
    requires |t| <= |line| && t == line[|line| - |t|..] && (t == [] || !IsWhitespace(t[0]))
    requires forall k :: 0 <= k < |line| - |t| ==> IsWhitespace(line[k])
    ensures |left| <= |t| && left == t[..|left|]
  {
    if left != [] {
      var j := |line| - |t|;
      assert cut[i] == left[0] && line[i] == cut[i];
      assert j <= i;
      assert t[0] == line[j] && line[j] == cut[j];
      assert i == j;
      assert left == line[i..i + |left|];
    }
  }

  /** A prefix of a text that starts with neither '/' nor "lb:" does not either. */
  lemma PrefixWithoutBranchStart(left: String, t: String)
    requires |left| <= |t| && left == t[..|left|]
    requires !StartsWith(t, "/") && !StartsWith(t, "lb:")
    ensures !StartsWith(left, "/") && !StartsWith(left, "lb:")
  {
    assert |left| >= 1 ==> left[..1] == t[..1];
    assert |left| >= 3 ==> left[..3] == t[..3];
  }

  /** A header line whose first non-blank text starts with neither '/' nor "lb:"
      (in any letter case), such as the changeset line "cs:12 - head:15" or a
      line that begins with '(', names no branch. */
  lemma HeaderLineWithoutBranch(line: String)
    requires !StartsWith(TrimStart(line), "/") && !StartsWith(TrimStart(line), "lb:")
    ensures HeaderBranchCandidate(line) == []
  {
    var paren := IndexOf(line, '(');
    var cut := if paren >= 0 then line[..paren] else line;
    assert cut == line[..|cut|];
    CutTrimIsPrefix(line, cut);
    PrefixWithoutBranchStart(TrimCopy(cut), TrimStart(line));
  }

  /** The branch after the header scan: kept once non-empty, else taken from each line in turn. */
  function HeaderBranch(branch: String, lines: seq<String>): String
    decreases |lines|
  {
    if |lines| == 0 then branch
    else
      var b := HeaderBranch(branch, lines[..|lines| - 1]);
      if b == [] then HeaderBranchCandidate(lines[|lines| - 1]) else b
  }

  lemma {:induction false} HeaderBranchKeepsBranch(branch: String, lines: seq<String>)
    requires branch != []
    ensures HeaderBranch(branch, lines) == branch
    decreases |lines|
  {
    if |lines| > 0 {
      HeaderBranchKeepsBranch(branch, lines[..|lines| - 1]);
    }
  }

  /** The status after the header scan: the branch as above and, when both a
      "cs:" and a "head:" number were found, the upstream flag and the distance. */
  function ApplyHeader(st: SourceControlStatus, lines: seq<String>): SourceControlStatus {
    var cs := HeaderNumber(lines, "cs:");
    var head := HeaderNumber(lines, "head:");
    var st1 := st.(branch := HeaderBranch(st.branch, lines));
    if cs >= 0 && head >= 0 then
      st1.(hasUpstream := true, behind := Max(0, head - cs), ahead := Max(0, cs - head))
    else st1
  }

  /** With both changesets known, the status is marked as tracking its head and
      the distance is split into ahead and behind, at most one of them non-zero;
      otherwise the upstream flag and the distance are left as they were. */
  lemma HeaderDistance(st: SourceControlStatus, lines: seq<String>)
    ensures var r := ApplyHeader(st, lines);
      var cs := HeaderNumber(lines, "cs:");
      var head := HeaderNumber(lines, "head:");
      if cs >= 0 && head >= 0 then
        r.hasUpstream && r.ahead >= 0 && r.behind >= 0
        && (r.ahead == 0 || r.behind == 0) && r.ahead - r.behind == cs - head
      else
        r.hasUpstream == st.hasUpstream && r.ahead == st.ahead && r.behind == st.behind
  {
  }

  /** One header line: the "cs:" and "head:" numbers it carries, if any, and the
      branch it names while none has been found yet. */
  method ScanHeaderLine(line: String, currentChangeset: int, headChangeset: int, branch: String)
    returns (cs: int, head: int, newBranch: String)
    ensures cs == match NumberAfter(line, "cs:") case Some(v) => v case None => currentChangeset
    ensures head == match NumberAfter(line, "head:") case Some(v) => v case None => headChangeset
    ensures newBranch == if branch == [] then HeaderBranchCandidate(line) else branch
  {
    cs, head, newBranch := currentChangeset, headChangeset, branch;
    var csMatch := NumberAfter(line, "cs:");
    if csMatch.Some? {
      cs := csMatch.value;
    }
    var headMatch := NumberAfter(line, "head:");
    if headMatch.Some? {
      head := headMatch.value;
    }
    if branch == [] {
      newBranch := ReadBranchCandidate(line);
    }
  }

  /** The branch test of one header line, made only while no branch is known. */
  method ReadBranchCandidate(line: String) returns (branch: String)
    ensures branch == HeaderBranchCandidate(line)
  {
    branch := [];
    var left := line;
    var parenIndex := IndexOf(left, '(');
    if parenIndex >= 0 {
      left := left[..parenIndex];
    }
    left := TrimCopy(left);
    if StartsWith(left, "/") || StartsWith(left, "lb:") {
      var atIndex := IndexOf(left, '@');
      if atIndex >= 0 {
        left := left[..atIndex];
      }
      branch := TrimCopy(left);
    }
  }

  /** The header scan of TryPopulatePlasticStatus. */
  method ScanPlasticHeader(stdout: String, status: SourceControlStatus) returns (r: SourceControlStatus)
    ensures r == ApplyHeader(status, SplitLines(stdout))
    ensures status.branch != [] ==> r.branch == status.branch
    ensures r.(branch := status.branch, hasUpstream := status.hasUpstream, ahead := status.ahead,
               behind := status.behind) == status
  {
    var lines := SplitLines(stdout);
    var currentChangeset, headChangeset, branch := ScanHeaderLines(lines, status.branch);
    r := status.(branch := branch);
    if currentChangeset >= 0 && headChangeset >= 0 {
      r := r.(hasUpstream := true,
              behind := Max(0, headChangeset - currentChangeset),
              ahead := Max(0, currentChangeset - headChangeset));
    }
    if status.branch != [] {
      HeaderBranchKeepsBranch(status.branch, lines);
    }
  }

  /** The loop over the header lines. */
  method ScanHeaderLines(lines: seq<String>, initialBranch: String)
    returns (currentChangeset: int, headChangeset: int, branch: String)
    ensures currentChangeset == HeaderNumber(lines, "cs:")
    ensures headChangeset == HeaderNumber(lines, "head:")
    ensures branch == HeaderBranch(initialBranch, lines)
  {
    currentChangeset, headChangeset, branch := -1, -1, initialBranch;
    for i := 0 to |lines|
      invariant currentChangeset == HeaderNumber(lines[..i], "cs:")
      invariant headChangeset == HeaderNumber(lines[..i], "head:")
      invariant branch == HeaderBranch(initialBranch, lines[..i])
    {
      assert lines[..i + 1][..i] == lines[..i];
      currentChangeset, headChangeset, branch := ScanHeaderLine(lines[i], currentChangeset, headChangeset, branch);
    }
    assert lines[..|lines|] == lines;
  }

  // ---------------------------------------------------------------------------
  // status --machinereadable (one record per line, fields separated by '|')

  const LineStart := "@@SAFE@@"
  const LineEnd := "##SAFE##"
  const FieldSeparator := '|'

  /** A line with both markers removed and whitespace trimmed. */
  function CleanLine(line: String): String {
    TrimCopy(RemoveAll(RemoveAll(line, LineStart), LineEnd))
  }

  /** A record as the CLI prints it, between the start and end markers, is cleaned
      to its trimmed text when the text holds no '@' or '#' of its own. */
  lemma CleanWrappedLine(x: String)
    requires '@' !in x && '#' !in x
    ensures CleanLine(LineStart + x + LineEnd) == TrimCopy(x)
  {
    var s := LineStart + x + LineEnd;
    assert s[..|LineStart|] == LineStart;
    assert s[|LineStart|..] == x + LineEnd;
    RemoveAllSkips(x, LineStart, LineEnd);
    RemoveAllSkips(LineEnd, LineStart, []);
    assert LineEnd + [] == LineEnd;
    assert RemoveAll(s, LineStart) == x + LineEnd;
    RemoveAllSkips(x, LineEnd, LineEnd);
    RemoveAllOfPattern(LineEnd);
    assert x + [] == x;
  }

  predicate HasPrivateToken(parts: seq<String>) {
    exists k :: 0 <= k < |parts| && EqualsIgnoreCase(parts[k], "PR")
  }

  predicate FieldMarksConflict(field: String) {
    Contains(field, "CONFLICT") || (Contains(field, "MERGE") && !Contains(field, "NO_MERGES"))
  }

  predicate HasConflictField(fields: seq<String>) {
    exists k :: 0 <= k < |fields| && FieldMarksConflict(fields[k])
  }

  /** What one line of the change list is: not a record (empty once cleaned, or the
      "STATUS" header in any letter case), or a change record, private when its code
      has a '+'-separated "PR" token and conflicting when one of its fields says so. */
  datatype RecordLine = NotARecord | ChangeRecord(isPrivate: bool, isConflict: bool)

  function ClassifyRecordLine(line: String): RecordLine {
    ClassifyCleanLine(CleanLine(line))
  }

  function ClassifyCleanLine(clean: String): RecordLine {
    if clean == [] then NotARecord
    else
      var fields := ParseIntoArray(clean, FieldSeparator, false);
      var code := TrimCopy(fields[0]);
      if EqualsIgnoreCase(code, "STATUS") then NotARecord
      else ChangeRecord(HasPrivateToken(ParseIntoArray(code, '+', true)), HasConflictField(fields))
  }

  function RecordCount(lines: seq<String>): nat
    decreases |lines|
  {
    if |lines| == 0 then 0
    else RecordCount(lines[..|lines| - 1]) + (if ClassifyRecordLine(lines[|lines| - 1]).ChangeRecord? then 1 else 0)
  }

  function PrivateCount(lines: seq<String>): nat
    decreases |lines|
  {
    if |lines| == 0 then 0
    else
      var k := ClassifyRecordLine(lines[|lines| - 1]);
      PrivateCount(lines[..|lines| - 1]) + (if k.ChangeRecord? && k.isPrivate then 1 else 0)
  }

  function ConflictSeen(lines: seq<String>): bool
    decreases |lines|
  {
    if |lines| == 0 then false
    else
      var k := ClassifyRecordLine(lines[|lines| - 1]);
      ConflictSeen(lines[..|lines| - 1]) || (k.ChangeRecord? && k.isConflict)
  }

  /** What the change-list loop has counted so far. */
  datatype Tally = Tally(records: nat, privates: nat, conflict: bool)

  function TallyLine(t: Tally, line: String): Tally {
    match ClassifyRecordLine(line)
    case NotARecord => t
    case ChangeRecord(p, c) => Tally(t.records + 1, t.privates + (if p then 1 else 0), t.conflict || c)
  }

  function TallyLines(lines: seq<String>): Tally
    decreases |lines|
  {
    if |lines| == 0 then Tally(0, 0, false)
    else TallyLine(TallyLines(lines[..|lines| - 1]), lines[|lines| - 1])
  }

  /** The loop's tally is the number of records, the number of private items and
      whether any record marks a conflict. */
  lemma {:induction false} TallyCounts(lines: seq<String>)
    ensures TallyLines(lines) == Tally(RecordCount(lines), PrivateCount(lines), ConflictSeen(lines))
    decreases |lines|
  {
    if |lines| > 0 {
      TallyCounts(lines[..|lines| - 1]);
    }
  }

  /** Every private item is a record, so there are never more of them than records. */
  lemma {:induction false} PrivateWithinRecords(lines: seq<String>)
    ensures PrivateCount(lines) <= RecordCount(lines)
    decreases |lines|
  {
    if |lines| > 0 {
      PrivateWithinRecords(lines[..|lines| - 1]);
    }
  }

  /** The status after the change list: Untracked, Unstaged and bHasConflicts are
      overwritten, everything else is kept. */
  function ApplyPlasticStatus(st: SourceControlStatus, lines: seq<String>): SourceControlStatus {
    st.(untracked := PrivateCount(lines),
        unstaged := Max(0, RecordCount(lines) - PrivateCount(lines)),
        hasConflicts := ConflictSeen(lines))
  }

  /** Reading the same change list again changes nothing more. */
  lemma PlasticStatusIdempotent(st: SourceControlStatus, lines: seq<String>)
    ensures ApplyPlasticStatus(ApplyPlasticStatus(st, lines), lines) == ApplyPlasticStatus(st, lines)
  {
  }

  /** The "PR" search over the '+'-separated parts of a code, stopping at the first hit. */
  method FindPrivateToken(parts: seq<String>) returns (found: bool)
    ensures found == HasPrivateToken(parts)
  {
    found := false;
    for k := 0 to |parts|
      invariant !found && forall j :: 0 <= j < k ==> !EqualsIgnoreCase(parts[j], "PR")
    {
      if EqualsIgnoreCase(parts[k], "PR") {
        found := true;
        return;
      }
    }
  }

  /** The conflict search over the fields of a record, stopping at the first hit. */
  method FindConflictField(fields: seq<String>) returns (found: bool)
    ensures found == HasConflictField(fields)
  {
    found := false;
    for k := 0 to |fields|
      invariant !found && forall j :: 0 <= j < k ==> !FieldMarksConflict(fields[j])
    {
      var field := fields[k];
      if Contains(field, "CONFLICT") {
        found := true;
        return;
      }
      if Contains(field, "MERGE") && !Contains(field, "NO_MERGES") {
        found := true;
        return;
      }
    }
  }

  /** One line of the change list, added to the tally. */
  method ReadRecordLine(line: String, t: Tally) returns (r: Tally)
    ensures r == TallyLine(t, line)
  {
    var cleanLine := StripMarkers(line);
    r := ReadCleanRecord(cleanLine, t);
  }

  /** The markers removed and the whitespace trimmed, as the loop body does it. */
  method StripMarkers(line: String) returns (cleanLine: String)
    ensures cleanLine == CleanLine(line)
  {
    cleanLine := RemoveAll(line, LineStart);
    cleanLine := RemoveAll(cleanLine, LineEnd);
    cleanLine := TrimCopy(cleanLine);
  }

  /** The rest of the loop body, on the cleaned line. */
  method ReadCleanRecord(cleanLine: String, t: Tally) returns (r: Tally)
    ensures r == match ClassifyCleanLine(cleanLine)
                 case NotARecord => t
                 case ChangeRecord(p, c) => Tally(t.records + 1, t.privates + (if p then 1 else 0), t.conflict || c)
  {
    r := t;
    if cleanLine == [] {
      return;
    }
    var fields := ParseIntoArray(cleanLine, FieldSeparator, false);
    var code := TrimCopy(fields[0]);
    if EqualsIgnoreCase(code, "STATUS") {
      return;
    }
    var codeParts := ParseIntoArray(code, '+', true);
    var isPrivate := FindPrivateToken(codeParts);
    var isConflict := FindConflictField(fields);
    r := Tally(t.records + 1, t.privates + (if isPrivate then 1 else 0), t.conflict || isConflict);
  }

  /** ParsePlasticStatusOutput. */
  method ParsePlasticStatusOutput(output: String, status: SourceControlStatus) returns (r: SourceControlStatus)
    ensures r == ApplyPlasticStatus(status, SplitLines(output))
    ensures var lines := SplitLines(output);
      r.untracked == PrivateCount(lines) && r.untracked <= RecordCount(lines)
      && r.untracked + r.unstaged == RecordCount(lines)
      && r.hasConflicts == ConflictSeen(lines)
  {
    var lines := SplitLines(output);
    var tally := TallyChangeList(lines);
    TallyCounts(lines);
    r := status.(untracked := tally.privates,
                 unstaged := Max(0, tally.records - tally.privates),
                 hasConflicts := tally.conflict);
    PlasticStatusCounts(status, lines);
  }

  /** The counters the change list leaves: private items are untracked, the other
      records unstaged, and the conflict flag is whether any record marks one. */
  lemma PlasticStatusCounts(st: SourceControlStatus, lines: seq<String>)
    ensures var r := ApplyPlasticStatus(st, lines);
      r.untracked == PrivateCount(lines) && r.untracked <= RecordCount(lines)
      && r.untracked + r.unstaged == RecordCount(lines)
      && r.hasConflicts == ConflictSeen(lines)
  {
    PrivateWithinRecords(lines);
  }

  /** The loop over the lines of the change list. */
  method TallyChangeList(lines: seq<String>) returns (tally: Tally)
    ensures tally == TallyLines(lines)
  {
    tally := Tally(0, 0, false);
    for i := 0 to |lines|
      invariant tally == TallyLines(lines[..i])
    {
      assert lines[..i + 1][..i] == lines[..i];
      tally := ReadRecordLine(lines[i], tally);
    }
    assert lines[..|lines|] == lines;
  }
}
