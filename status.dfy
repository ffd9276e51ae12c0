// The toolbar's data model: which version-control provider produced a status,
// the status record that every poll replaces wholesale, one reply of a CLI call,
// and the plugin's configuration record.

module StatusModel {
  import opened Text

  /** ESourceControlProvider: exactly one of three providers. */
  datatype Provider = NoProvider | Git | Plastic

  /** FSourceControlStatus. Counts are unbounded integers here; LastUpdateUtc is
      not part of the model (every poll overwrites it before it is read). */
  datatype SourceControlStatus = SourceControlStatus(
    provider: Provider,
    clientAvailable: bool,
    isRepo: bool,
    authRequired: bool,
    hasUpstream: bool,
    hasConflicts: bool,
    ahead: int,
    behind: int,
    staged: int,
    unstaged: int,
    untracked: int,
    branch: String,
    repoRoot: String,
    workspaceName: String,
    lastError: String)

  /** A default-constructed status: no provider, every flag false, every count 0,
      every string empty. */
  const DefaultStatus := SourceControlStatus(NoProvider, false, false, false, false, false,
                                             0, 0, 0, 0, 0, [], [], [], [])

  /** Staged + Unstaged + Untracked, the "pending changes" total the gates and the label use. */
  function PendingChanges(st: SourceControlStatus): int {
    st.staged + st.unstaged + st.untracked
  }

  /** The shape every status the probes produce has: no repository without a
      client; no counts, branch or flags without a repository; non-negative
      change counts; the login flag only for Plastic SCM. */
  predicate WellFormed(st: SourceControlStatus) {
    (!st.clientAvailable ==> !st.isRepo)
    && (!st.isRepo ==> st.ahead == 0 && st.behind == 0 && PendingChanges(st) == 0
                       && st.branch == [] && !st.hasUpstream && !st.hasConflicts)
    && st.staged >= 0 && st.unstaged >= 0 && st.untracked >= 0
    && (st.authRequired ==> st.provider == Plastic)
  }

  /** What one external command returned: whether it could be launched, its
      exit code and its captured output streams. */
  datatype CliResult = CliResult(launched: bool, exitCode: int, stdout: String, stderr: String)

  predicate Succeeded(r: CliResult) { r.launched && r.exitCode == 0 }

  /** USafeSaveSettings. The source's float seconds are integer milliseconds here. */
  datatype Settings = Settings(
    dirtyCheckIntervalMs: int,
    gitCheckIntervalMs: int,
    autoFetch: bool,
    autoFetchIntervalMs: int,
    toastOnStatusChange: bool,
    statusToastMinIntervalMs: int)

  /** The values the settings constructor assigns. */
  const DefaultSettings := Settings(1000, 5000, false, 120000, true, 4000)

  function Max(a: int, b: int): int { if a >= b then a else b }

  /** The lower bounds the toolbar applies where it reads each interval, and the
      fallbacks it uses when there is no settings object. */
  const MinDirtyCheckMs := 100
  const MinStatusPollMs := 1000
  const MinAutoFetchMs := 10000
  const MinToastIntervalMs := 500

  datatype Option<T> = None | Some(value: T)

  function DirtyCheckInterval(s: Option<Settings>): (ms: int)
    ensures ms >= MinDirtyCheckMs
    ensures s.Some? ==> ms >= s.value.dirtyCheckIntervalMs
    ensures s.Some? && s.value.dirtyCheckIntervalMs >= MinDirtyCheckMs ==> ms == s.value.dirtyCheckIntervalMs
    ensures s.Some? && s.value.dirtyCheckIntervalMs < MinDirtyCheckMs ==> ms == MinDirtyCheckMs
    ensures s.None? ==> ms == 1000
  {
    if s.Some? then Max(MinDirtyCheckMs, s.value.dirtyCheckIntervalMs) else 1000
  }

  function StatusPollInterval(s: Option<Settings>): (ms: int)
    ensures ms >= MinStatusPollMs
    ensures s.Some? ==> ms >= s.value.gitCheckIntervalMs
    ensures s.Some? && s.value.gitCheckIntervalMs >= MinStatusPollMs ==> ms == s.value.gitCheckIntervalMs
    ensures s.Some? && s.value.gitCheckIntervalMs < MinStatusPollMs ==> ms == MinStatusPollMs
    ensures s.None? ==> ms == 5000
  {
    if s.Some? then Max(MinStatusPollMs, s.value.gitCheckIntervalMs) else 5000
  }

  function AutoFetchInterval(s: Settings): (ms: int)
    ensures ms >= MinAutoFetchMs && ms >= s.autoFetchIntervalMs
    ensures s.autoFetchIntervalMs >= MinAutoFetchMs ==> ms == s.autoFetchIntervalMs
    ensures s.autoFetchIntervalMs < MinAutoFetchMs ==> ms == MinAutoFetchMs
  {
    Max(MinAutoFetchMs, s.autoFetchIntervalMs)
  }

  function ToastInterval(s: Settings): (ms: int)
    ensures ms >= MinToastIntervalMs && ms >= s.statusToastMinIntervalMs
    ensures s.statusToastMinIntervalMs >= MinToastIntervalMs ==> ms == s.statusToastMinIntervalMs
    ensures s.statusToastMinIntervalMs < MinToastIntervalMs ==> ms == MinToastIntervalMs
  {
    Max(MinToastIntervalMs, s.statusToastMinIntervalMs)
  }

  /** The defaults already satisfy every bound, so the clamps leave them as they are. */
  lemma DefaultsWithinBounds()
    ensures DirtyCheckInterval(Some(DefaultSettings)) == 1000
    ensures StatusPollInterval(Some(DefaultSettings)) == 5000
    ensures AutoFetchInterval(DefaultSettings) == 120000
    ensures ToastInterval(DefaultSettings) == 4000
    ensures !DefaultSettings.autoFetch && DefaultSettings.toastOnStatusChange
  {
  }

  /** GetProviderLabel. */
  function ProviderLabel(p: Provider): String {
    match p
    case Git => "Git"
    case Plastic => "Plastic SCM"
    case NoProvider => "Source Control"
  }
}
