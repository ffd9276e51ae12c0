// The toolbar widget's own state (the private fields of SSafeSaveToolbar) as a
// value, and one specification function per event that changes it: the timer
// tick, the unsaved-asset check, the label debounce, the start and completion of
// a status poll, the auto-fetch toggle, and the command launches and their
// completions. The class in toolbar.dfy is proved against these functions; the
// properties of the widget are proved here, about the functions.

module Widget {
  import opened Text
  import opened StatusModel
  import opened Presentation

  /** One editor notification: its text and whether it is shown as a success. */
  datatype Toast = Toast(message: String, success: bool)

  /** A CLI command the widget hands to a background task, with what to report
      when it finishes. The working directory is not part of the model. */
  datatype PendingCommand = PendingCommand(
    tool: Provider,
    args: String,
    successMessage: String,
    failureMessage: String,
    refreshAfter: bool,
    silentSuccess: bool)

  /** Every field the widget updates, plus the settings object (None when there
      is none) and the notifications shown so far. Times are in milliseconds. */
  datatype WidgetState = WidgetState(
    status: SourceControlStatus,
    hasUnsavedAssets: bool,
    unsavedAssetCount: int,
    sampleUnsavedPackage: String,
    lastStatusLabel: String,
    lastDirtyCheckMs: int,
    lastSourceControlCheckMs: int,
    lastAutoFetchMs: int,
    lastStatusToastMs: int,
    statusUpdateInFlight: bool,
    hasSeenStatusLabel: bool,
    settings: Option<Settings>,
    notifications: seq<Toast>)

  /** The unsaved-asset fields agree with each other. */
  predicate Consistent(w: WidgetState) {
    w.unsavedAssetCount >= 0
    && (w.hasUnsavedAssets <==> w.unsavedAssetCount > 0)
    && (!w.hasUnsavedAssets ==> w.sampleUnsavedPackage == [])
  }

  function CurrentLabel(w: WidgetState): String {
    GetLabel(w.status, w.hasUnsavedAssets, w.unsavedAssetCount)
  }

  function Notified(w: WidgetState, message: String, success: bool): WidgetState {
    w.(notifications := w.notifications + [Toast(message, success)])
  }

  // ---------------------------------------------------------------------------
  // Construction

  /** The field values Construct assigns before its first two calls. */
  function Initial(settings: Option<Settings>, now: int): WidgetState {
    WidgetState(DefaultStatus, false, 0, [], [], 0, 0, now, 0, false, false, settings, [])
  }

  /** Construct: initial fields, then UpdateUnsavedState, then a status request. */
  function Constructed(settings: Option<Settings>, dirtyPackages: seq<String>, now: int): WidgetState {
    AfterRequest(AfterUnsavedUpdate(Initial(settings, now), dirtyPackages, now))
  }

  // ---------------------------------------------------------------------------
  // Label debounce (MaybeNotifyStatusChange)

  const ToastPrefix := "SafeSave: "

  /** MaybeNotifyStatusChange at time now. */
  function AfterStatusCheck(w: WidgetState, now: int): WidgetState {
    var current := CurrentLabel(w);
    if w.settings.None? || !w.settings.value.toastOnStatusChange || !w.hasSeenStatusLabel then
      w.(lastStatusLabel := current, hasSeenStatusLabel := true)
    else if EqualsIgnoreCase(current, w.lastStatusLabel) then
      w
    else if now - w.lastStatusToastMs >= ToastInterval(w.settings.value) then
      Notified(w, ToastPrefix + current, true).(lastStatusToastMs := now, lastStatusLabel := current)
    else
      w.(lastStatusLabel := current)
  }

  /** After a check the current label is recorded (up to case), and nothing but
      the debounce fields and the notifications has changed. */
  lemma StatusCheckRecordsLabel(w: WidgetState, now: int)
    ensures var r := AfterStatusCheck(w, now);
      r.hasSeenStatusLabel && EqualsIgnoreCase(r.lastStatusLabel, CurrentLabel(w))
      && r.(lastStatusLabel := w.lastStatusLabel, hasSeenStatusLabel := w.hasSeenStatusLabel,
            lastStatusToastMs := w.lastStatusToastMs, notifications := w.notifications) == w
  {
  }

  /** The first observation, or any observation with toasts disabled, records
      the label and notifies nothing. */
  lemma FirstObservationSilent(w: WidgetState, now: int)
    requires !w.hasSeenStatusLabel || w.settings.None? || !w.settings.value.toastOnStatusChange
    ensures var r := AfterStatusCheck(w, now);
      r.notifications == w.notifications && r.lastStatusLabel == CurrentLabel(w)
      && r.hasSeenStatusLabel && r.lastStatusToastMs == w.lastStatusToastMs
  {
  }

  /** A check notifies exactly when toasts are on, a label was seen before, the
      label changed (ignoring case) and the minimum interval has passed since the
      last toast; the one notification it adds names the new label, and only
      then does the toast time move. */
  lemma StatusToastRule(w: WidgetState, now: int)
    ensures var r := AfterStatusCheck(w, now);
      var due := w.settings.Some? && w.settings.value.toastOnStatusChange && w.hasSeenStatusLabel
        && !EqualsIgnoreCase(CurrentLabel(w), w.lastStatusLabel)
        && now - w.lastStatusToastMs >= ToastInterval(w.settings.value);
      (due ==> r.notifications == w.notifications + [Toast(ToastPrefix + CurrentLabel(w), true)]
               && r.lastStatusToastMs == now)
      && (!due ==> r.notifications == w.notifications && r.lastStatusToastMs == w.lastStatusToastMs)
  {
  }

  /** A second check with the same status and unsaved state changes nothing: a
      label whose toast was suppressed is never toasted later. */
  lemma StatusCheckIdempotent(w: WidgetState, now: int, later: int)
    ensures AfterStatusCheck(AfterStatusCheck(w, now), later) == AfterStatusCheck(w, now)
  {
    var r := AfterStatusCheck(w, now);
    assert CurrentLabel(r) == CurrentLabel(w);
    assert EqualsIgnoreCase(CurrentLabel(r), CurrentLabel(r));
  }

  // ---------------------------------------------------------------------------
  // Unsaved assets

  /** UpdateUnsavedState, given the editor's dirty-package names. */
  function AfterUnsavedUpdate(w: WidgetState, dirtyPackages: seq<String>, now: int): WidgetState {
    var n := |dirtyPackages|;
    AfterStatusCheck(w.(hasUnsavedAssets := n > 0, unsavedAssetCount := n,
                        sampleUnsavedPackage := if n > 0 then dirtyPackages[0] else []), now)
  }

  /** The unsaved-asset fields describe the dirty list: the flag, its length and
      its first name; the result is Consistent whatever it started from. */
  lemma UnsavedStateReflectsDirtyList(w: WidgetState, dirtyPackages: seq<String>, now: int)
    ensures var r := AfterUnsavedUpdate(w, dirtyPackages, now);
      Consistent(r)
      && (r.hasUnsavedAssets <==> dirtyPackages != [])
      && r.unsavedAssetCount == |dirtyPackages|
      && (dirtyPackages != [] ==> r.sampleUnsavedPackage == dirtyPackages[0])
      && r.status == w.status && r.statusUpdateInFlight == w.statusUpdateInFlight
  {
  }

  // ---------------------------------------------------------------------------
  // Status poll: single flight

  /** RequestSourceControlStatusUpdate: in both branches the flag ends up set; a
      poll is started only when it was clear. */
  function AfterRequest(w: WidgetState): WidgetState {
    w.(statusUpdateInFlight := true)
  }

  /** The game-thread completion of a poll: the status is replaced wholesale,
      the flag cleared, and the label checked. */
  function AfterCompletion(w: WidgetState, newStatus: SourceControlStatus, now: int): WidgetState {
    AfterStatusCheck(w.(status := newStatus, statusUpdateInFlight := false), now)
  }

  lemma CompletionReplacesStatus(w: WidgetState, newStatus: SourceControlStatus, now: int)
    ensures var r := AfterCompletion(w, newStatus, now);
      r.status == newStatus && !r.statusUpdateInFlight
      && r.hasUnsavedAssets == w.hasUnsavedAssets && r.unsavedAssetCount == w.unsavedAssetCount
      && r.settings == w.settings
      && EqualsIgnoreCase(r.lastStatusLabel, GetLabel(newStatus, w.hasUnsavedAssets, w.unsavedAssetCount))
  {
    StatusCheckRecordsLabel(w.(status := newStatus, statusUpdateInFlight := false), now);
  }

  datatype PollEvent = Request | Completed(newStatus: SourceControlStatus, now: int)

  /** Runs a sequence of poll requests and completions, counting the polls that
      were started and have not completed yet. The count is the number of
      background status tasks alive at once; the widget's only guard against a
      second one is bStatusUpdateInFlight (SSafeSaveToolbar.h:101), tested in
      RequestSourceControlStatusUpdate (SSafeSaveToolbar.cpp:145-148), set when
      a task starts (:155) and cleared when its result is installed (:239). */
  function RunPolls(w: WidgetState, outstanding: nat, events: seq<PollEvent>): (WidgetState, nat)
    decreases |events|
  {
    if events == [] then (w, outstanding)
    else match events[0]
      case Request =>
        RunPolls(AfterRequest(w), if w.statusUpdateInFlight then outstanding else outstanding + 1, events[1..])
      case Completed(st, now) =>
        RunPolls(AfterCompletion(w, st, now), if outstanding > 0 then outstanding - 1 else 0, events[1..])
  }

  /** At most one poll is ever in flight, and the flag says exactly whether one is. */
  lemma {:induction false} SingleFlight(w: WidgetState, outstanding: nat, events: seq<PollEvent>)
    requires outstanding <= 1 && (w.statusUpdateInFlight <==> outstanding == 1)
    ensures var r := RunPolls(w, outstanding, events);
      r.1 <= 1 && (r.0.statusUpdateInFlight <==> r.1 == 1)
    decreases |events|
  {
    if events != [] {
      match events[0]
      case Request =>
        SingleFlight(AfterRequest(w), if w.statusUpdateInFlight then outstanding else outstanding + 1, events[1..]);
      case Completed(st, now) =>
        CompletionReplacesStatus(w, st, now);
        SingleFlight(AfterCompletion(w, st, now), if outstanding > 0 then outstanding - 1 else 0, events[1..]);
    }
  }

  /** The times at which a run of poll completions produced a status toast. */
  function StatusToastTimes(w: WidgetState, completions: seq<PollEvent>): seq<int>
    requires forall k :: 0 <= k < |completions| ==> completions[k].Completed?
    decreases |completions|
  {
    if completions == [] then []
    else
      var w1 := AfterCompletion(w, completions[0].newStatus, completions[0].now);
      (if |w1.notifications| > |w.notifications| then [completions[0].now] else [])
      + StatusToastTimes(w1, completions[1..])
  }

  /** One completion: either no toast and the toast time kept, or one toast at
      least the minimum interval after the previous one. */
  lemma CompletionToastStep(w: WidgetState, newStatus: SourceControlStatus, now: int)
    requires w.settings.Some?
    ensures var r := AfterCompletion(w, newStatus, now);
      r.settings == w.settings
      && (|r.notifications| > |w.notifications| ==>
            r.lastStatusToastMs == now && now - w.lastStatusToastMs >= ToastInterval(w.settings.value))
      && (|r.notifications| <= |w.notifications| ==> r.lastStatusToastMs == w.lastStatusToastMs)
  {
    StatusToastRule(w.(status := newStatus, statusUpdateInFlight := false), now);
  }

  /** Status toasts are spaced: the first comes at least the minimum interval
      after the last toast before the run, and each later one at least that long
      after the one before it. */
  lemma {:induction false} StatusToastsSpaced(w: WidgetState, completions: seq<PollEvent>)
    requires w.settings.Some?
    requires forall k :: 0 <= k < |completions| ==> completions[k].Completed?
    ensures var ts := StatusToastTimes(w, completions);
      (|ts| > 0 ==> ts[0] - w.lastStatusToastMs >= ToastInterval(w.settings.value))
      && forall i :: 0 < i < |ts| ==> ts[i] - ts[i - 1] >= ToastInterval(w.settings.value)
    decreases |completions|
  {
    if completions != [] {
      var c := completions[0];
      var w1 := AfterCompletion(w, c.newStatus, c.now);
      var d := ToastInterval(w.settings.value);
      CompletionToastStep(w, c.newStatus, c.now);
      StatusToastsSpaced(w1, completions[1..]);
      var rest := StatusToastTimes(w1, completions[1..]);
      if |w1.notifications| > |w.notifications| {
        assert StatusToastTimes(w, completions) == [c.now] + rest;
        SpacedAfterToast(w.lastStatusToastMs, c.now, rest, d);
      } else {
        assert StatusToastTimes(w, completions) == rest;
      }
    }
  }

  /** A toast at x, spaced from the one before, followed by times spaced from x. */
  lemma SpacedAfterToast(previous: int, x: int, rest: seq<int>, d: int)
    requires x - previous >= d
    requires |rest| > 0 ==> rest[0] - x >= d
    requires forall i :: 0 < i < |rest| ==> rest[i] - rest[i - 1] >= d
    ensures var ts := [x] + rest;
      ts[0] - previous >= d && forall i :: 0 < i < |ts| ==> ts[i] - ts[i - 1] >= d
  {
    var ts := [x] + rest;
    forall i | 0 < i < |ts|
      ensures ts[i] - ts[i - 1] >= d
    {
      if i > 1 {
        assert ts[i] == rest[i - 1] && ts[i - 1] == rest[i - 2];
      }
    }
  }

  // ---------------------------------------------------------------------------
  // Command launch and completion (RunGitCommandAsync / RunPlasticCommandAsync)

  datatype Launched = Launched(state: WidgetState, command: Option<PendingCommand>)

  function UnavailableMessage(tool: Provider): String {
    if tool == Plastic then "Plastic SCM is not available for this project."
    else "Git is not available for this project."
  }

  /** The precondition both Run*CommandAsync check on the snapshot before they
      hand the command to a background task. */
  function Launch(w: WidgetState, cmd: PendingCommand): Launched {
    if w.status.provider != cmd.tool || !w.status.clientAvailable || !w.status.isRepo then
      Launched(Notified(w, UnavailableMessage(cmd.tool), false), None)
    else
      Launched(w, Some(cmd))
  }

  /** A Git command launches exactly when the fetch gate is open; otherwise one
      failure notification is the only change. */
  lemma GitLaunchFollowsGate(w: WidgetState, cmd: PendingCommand)
    requires cmd.tool == Git
    ensures var r := Launch(w, cmd);
      (r.command.Some? <==> CanExecuteGitCommand(w.status))
      && (r.command.Some? ==> r.command.value == cmd && r.state == w)
      && (r.command.None? ==> r.state == Notified(w, "Git is not available for this project.", false))
  {
  }

  /** The notifications a finished command produces: the outcome unless it
      succeeded silently, then on failure the trimmed stderr cut to 200
      characters when there is any. */
  function CompletionToasts(cmd: PendingCommand, reply: CliResult): seq<Toast> {
    OutcomeToasts(cmd, reply) + ErrorToasts(reply)
  }

  function OutcomeToasts(cmd: PendingCommand, reply: CliResult): seq<Toast> {
    var success := Succeeded(reply);
    if success && cmd.silentSuccess then []
    else [Toast(if success then cmd.successMessage else cmd.failureMessage, success)]
  }

  function ErrorToasts(reply: CliResult): seq<Toast> {
    var errorText := TrimCopy(reply.stderr);
    if !Succeeded(reply) && errorText != [] then [Toast(Left(errorText, 200), false)] else []
  }

  /** The completion handler: the notifications, then a poll when asked for. */
  function AfterCommand(w: WidgetState, cmd: PendingCommand, reply: CliResult): WidgetState {
    var w1 := w.(notifications := w.notifications + CompletionToasts(cmd, reply));
    if cmd.refreshAfter then AfterRequest(w1) else w1
  }

  /** A success shows at most one, successful, notification, and none when the
      command is silent; a failure always shows its failure message first, and
      a second, failed, notification exactly when stderr has text, holding at
      most 200 characters of it from the start. */
  lemma CompletionToastRule(cmd: PendingCommand, reply: CliResult)
    ensures var ts := CompletionToasts(cmd, reply);
      (Succeeded(reply) ==> ts == (if cmd.silentSuccess then [] else [Toast(cmd.successMessage, true)]))
      && (!Succeeded(reply) ==>
            1 <= |ts| <= 2 && ts[0] == Toast(cmd.failureMessage, false)
            && (|ts| == 2 <==> TrimCopy(reply.stderr) != [])
            && (|ts| == 2 ==> !ts[1].success && |ts[1].message| <= 200
                               && ts[1].message <= TrimCopy(reply.stderr)))
  {
  }

  lemma CommandCompletionState(w: WidgetState, cmd: PendingCommand, reply: CliResult)
    ensures var r := AfterCommand(w, cmd, reply);
      r.notifications == w.notifications + CompletionToasts(cmd, reply)
      && r.statusUpdateInFlight == (w.statusUpdateInFlight || cmd.refreshAfter)
      && r.status == w.status && r.lastStatusLabel == w.lastStatusLabel
  {
  }

  // ---------------------------------------------------------------------------
  // The menu commands

  const PullCommand := PendingCommand(Git, "pull --rebase", "Pull completed.", "Pull failed.", true, false)
  const PushCommand := PendingCommand(Git, "push", "Push completed.", "Push failed.", true, false)
  const UpdateCommand := PendingCommand(Plastic, "update", "Update completed.", "Update failed.", true, false)
  const FetchCommand := PendingCommand(Git, "fetch --prune", "Fetch completed.", "Fetch failed.", true, false)
  const AutoFetchCommand :=
    PendingCommand(Git, "fetch --prune", "Auto fetch completed.", "Auto fetch failed.", true, true)

  const PullDisabledText := "Pull" + " is disabled until the working tree is clean and upstream is set."
  const PushDisabledText := "Push" + " is disabled until the working tree is clean, ahead, and upstream is set."
  const UpdateDisabledText :=
    "Update" + " is disabled until the workspace is clean and there are no unsaved assets."

  /** An Execute* with a gate: the gate is checked first, then the dialog's
      answer, then the launch. */
  function GatedExecute(w: WidgetState, gateOpen: bool, disabledMessage: String, confirmed: bool,
                        cmd: PendingCommand): Launched {
    if !gateOpen then Launched(Notified(w, disabledMessage, false), None)
    else if confirmed then Launch(w, cmd)
    else Launched(w, None)
  }

  function ExecutePull(w: WidgetState, confirmed: bool): Launched {
    GatedExecute(w, CanExecuteGitPull(w.status, w.hasUnsavedAssets), PullDisabledText, confirmed, PullCommand)
  }

  function ExecutePush(w: WidgetState, confirmed: bool): Launched {
    GatedExecute(w, CanExecuteGitPush(w.status, w.hasUnsavedAssets), PushDisabledText, confirmed, PushCommand)
  }

  function ExecuteUpdate(w: WidgetState, confirmed: bool): Launched {
    GatedExecute(w, CanExecutePlasticUpdate(w.status, w.hasUnsavedAssets), UpdateDisabledText, confirmed,
                 UpdateCommand)
  }

  /** A gated command runs exactly when its gate is open and the user confirms,
      and then the launch precondition never rejects it; a closed gate answers
      with its own message whatever the dialog would have said. */
  lemma GatedCommandsLaunch(w: WidgetState, confirmed: bool)
    ensures var r := ExecutePull(w, confirmed);
      (r.command.Some? <==> CanExecuteGitPull(w.status, w.hasUnsavedAssets) && confirmed)
      && (r.command.Some? ==> r.command.value == PullCommand && r.state == w)
      && (!CanExecuteGitPull(w.status, w.hasUnsavedAssets) ==> r.state == Notified(w, PullDisabledText, false))
    ensures var r := ExecutePush(w, confirmed);
      (r.command.Some? <==> CanExecuteGitPush(w.status, w.hasUnsavedAssets) && confirmed)
      && (r.command.Some? ==> r.command.value == PushCommand && r.state == w)
      && (!CanExecuteGitPush(w.status, w.hasUnsavedAssets) ==> r.state == Notified(w, PushDisabledText, false))
    ensures var r := ExecuteUpdate(w, confirmed);
      (r.command.Some? <==> CanExecutePlasticUpdate(w.status, w.hasUnsavedAssets) && confirmed)
      && (r.command.Some? ==> r.command.value == UpdateCommand && r.state == w)
      && (!CanExecutePlasticUpdate(w.status, w.hasUnsavedAssets) ==>
            r.state == Notified(w, UpdateDisabledText, false))
  {
  }

  /** Only auto-fetch passes a silent success; every menu command reports its
      success, and each asks for a poll afterwards. */
  lemma MenuCommandsReportSuccess(cmd: PendingCommand, reply: CliResult)
    requires cmd in [PullCommand, PushCommand, UpdateCommand, FetchCommand]
    requires Succeeded(reply)
    ensures CompletionToasts(cmd, reply) == [Toast(cmd.successMessage, true)]
    ensures cmd.refreshAfter
  {
  }

  // ---------------------------------------------------------------------------
  // Timer tick (UpdateState) and the auto-fetch toggle

  datatype TickResult = TickResult(state: WidgetState, pollStarted: bool, autoFetch: Option<PendingCommand>)

  /** UpdateState at time now: the dirty check, the status poll, then auto-fetch,
      each on its own interval. */
  function Tick(w: WidgetState, now: int, dirtyPackages: seq<String>): TickResult {
    var w1 := if now - w.lastDirtyCheckMs >= DirtyCheckInterval(w.settings)
              then AfterUnsavedUpdate(w, dirtyPackages, now).(lastDirtyCheckMs := now)
              else w;
    var pollDue := now - w1.lastSourceControlCheckMs >= StatusPollInterval(w1.settings);
    var started := pollDue && !w1.statusUpdateInFlight;
    var w2 := if pollDue then AfterRequest(w1).(lastSourceControlCheckMs := now) else w1;
    if w2.settings.Some? && w2.settings.value.autoFetch && w2.status.provider == Git
       && w2.status.clientAvailable && w2.status.isRepo && !w2.statusUpdateInFlight
       && now - w2.lastAutoFetchMs >= AutoFetchInterval(w2.settings.value)
    then
      var l := Launch(w2, AutoFetchCommand);
      TickResult(l.state.(lastAutoFetchMs := now), started, l.command)
    else
      TickResult(w2, started, None)
  }

  /** A tick never touches the status or the settings, starts a poll exactly when
      one is due and none is in flight, and leaves the flag set whenever a poll
      was due. */
  lemma TickPolls(w: WidgetState, now: int, dirtyPackages: seq<String>)
    ensures var r := Tick(w, now, dirtyPackages);
      r.state.status == w.status && r.state.settings == w.settings
      && (r.pollStarted <==>
            now - w.lastSourceControlCheckMs >= StatusPollInterval(w.settings) && !w.statusUpdateInFlight)
      && (now - w.lastSourceControlCheckMs >= StatusPollInterval(w.settings) ==>
            r.state.statusUpdateInFlight && r.state.lastSourceControlCheckMs == now)
      && (now - w.lastSourceControlCheckMs < StatusPollInterval(w.settings) ==>
            r.state.statusUpdateInFlight == w.statusUpdateInFlight
            && r.state.lastSourceControlCheckMs == w.lastSourceControlCheckMs)
  {
    if now - w.lastDirtyCheckMs >= DirtyCheckInterval(w.settings) {
      UnsavedStateReflectsDirtyList(w, dirtyPackages, now);
    }
  }

  /** The dirty check runs on its own interval and then describes the dirty list. */
  lemma TickChecksUnsaved(w: WidgetState, now: int, dirtyPackages: seq<String>)
    ensures var r := Tick(w, now, dirtyPackages);
      (now - w.lastDirtyCheckMs >= DirtyCheckInterval(w.settings) ==>
         r.state.lastDirtyCheckMs == now && r.state.unsavedAssetCount == |dirtyPackages|
         && (r.state.hasUnsavedAssets <==> dirtyPackages != []))
      && (now - w.lastDirtyCheckMs < DirtyCheckInterval(w.settings) ==>
            r.state.lastDirtyCheckMs == w.lastDirtyCheckMs
            && r.state.unsavedAssetCount == w.unsavedAssetCount
            && r.state.hasUnsavedAssets == w.hasUnsavedAssets)
  {
    if now - w.lastDirtyCheckMs >= DirtyCheckInterval(w.settings) {
      UnsavedStateReflectsDirtyList(w, dirtyPackages, now);
    }
  }

  /** Auto-fetch runs only when enabled, for a Git repository with its client,
      with no poll in flight (so never in a tick that starts one), and at least
      the clamped interval after the last fetch or toggle; it always passes the
      launch precondition and restarts the interval. */
  lemma TickAutoFetchGuard(w: WidgetState, now: int, dirtyPackages: seq<String>)
    ensures var r := Tick(w, now, dirtyPackages);
      (r.autoFetch.Some? ==>
         r.autoFetch.value == AutoFetchCommand && !r.pollStarted && !r.state.statusUpdateInFlight
         && w.settings.Some? && w.settings.value.autoFetch && CanExecuteGitCommand(w.status)
         && now - w.lastAutoFetchMs >= AutoFetchInterval(w.settings.value)
         && now - w.lastAutoFetchMs >= MinAutoFetchMs
         && r.state.lastAutoFetchMs == now)
      && (r.autoFetch.None? ==> r.state.lastAutoFetchMs == w.lastAutoFetchMs)
  {
    TickPolls(w, now, dirtyPackages);
    if now - w.lastDirtyCheckMs >= DirtyCheckInterval(w.settings) {
      UnsavedStateReflectsDirtyList(w, dirtyPackages, now);
    }
  }

  /** ToggleAutoFetch: flips the setting and restarts the auto-fetch interval;
      without a settings object it does nothing. */
  function AfterToggle(w: WidgetState, now: int): WidgetState {
    if w.settings.None? then w
    else w.(settings := Some(w.settings.value.(autoFetch := !w.settings.value.autoFetch)),
            lastAutoFetchMs := now)
  }

  /** Toggling twice restores the setting, and after a toggle no auto-fetch
      comes before the interval has passed again. */
  lemma ToggleRestartsInterval(w: WidgetState, now: int, later: int, evenLater: int,
                               dirtyPackages: seq<String>)
    requires w.settings.Some?
    ensures AfterToggle(AfterToggle(w, now), later).settings == w.settings
    ensures AfterToggle(w, now).settings.value.autoFetch == !w.settings.value.autoFetch
    ensures Tick(AfterToggle(w, now), evenLater, dirtyPackages).autoFetch.Some? ==>
              evenLater - now >= AutoFetchInterval(w.settings.value)
  {
    TickAutoFetchGuard(AfterToggle(w, now), evenLater, dirtyPackages);
  }

  // ---------------------------------------------------------------------------
  // Startup

  /** After construction a poll is in flight, nothing has been notified, and the
      "SCM Missing" label of the default status has been recorded as seen, so the
      first observation the debounce skips is this one, not the first poll's. */
  lemma ConstructedState(settings: Option<Settings>, dirtyPackages: seq<String>, now: int)
    ensures var r := Constructed(settings, dirtyPackages, now);
      Consistent(r) && r.statusUpdateInFlight && r.notifications == []
      && r.status == DefaultStatus && r.hasSeenStatusLabel && r.lastStatusLabel == "SCM Missing"
      && r.lastAutoFetchMs == now && r.lastDirtyCheckMs == 0 && r.lastSourceControlCheckMs == 0
  {
    UnsavedStateReflectsDirtyList(Initial(settings, now), dirtyPackages, now);
  }

  /** Hence the first completed poll already toasts a label that differs from
      "SCM Missing", once the interval has passed since time 0. */
  lemma FirstPollCanToast(s: Settings, dirtyPackages: seq<String>, start: int,
                          newStatus: SourceControlStatus, now: int)
    requires s.toastOnStatusChange
    requires now >= ToastInterval(s)
    requires !EqualsIgnoreCase(GetLabel(newStatus, dirtyPackages != [], |dirtyPackages|), "SCM Missing")
    ensures AfterCompletion(Constructed(Some(s), dirtyPackages, start), newStatus, now).notifications
            == [Toast(ToastPrefix + GetLabel(newStatus, dirtyPackages != [], |dirtyPackages|), true)]
  {
    var c := Constructed(Some(s), dirtyPackages, start);
    ConstructedState(Some(s), dirtyPackages, start);
    UnsavedStateReflectsDirtyList(Initial(Some(s), start), dirtyPackages, start);
    StatusToastRule(c.(status := newStatus, statusUpdateInFlight := false), now);
  }

  /** Every event keeps the unsaved-asset fields consistent. */
  lemma EventsPreserveConsistency(w: WidgetState, now: int, st: SourceControlStatus,
                                  cmd: PendingCommand, reply: CliResult, dirtyPackages: seq<String>)
    requires Consistent(w)
    ensures Consistent(AfterStatusCheck(w, now))
    ensures Consistent(AfterRequest(w))
    ensures Consistent(AfterCompletion(w, st, now))
    ensures Consistent(AfterCommand(w, cmd, reply))
    ensures Consistent(AfterToggle(w, now))
    ensures Consistent(Launch(w, cmd).state)
    ensures Consistent(Tick(w, now, dirtyPackages).state)
  {
    StatusCheckRecordsLabel(w, now);
    StatusCheckRecordsLabel(w.(status := st, statusUpdateInFlight := false), now);
    TickChecksUnsaved(w, now, dirtyPackages);
    if now - w.lastDirtyCheckMs >= DirtyCheckInterval(w.settings) {
      UnsavedStateReflectsDirtyList(w, dirtyPackages, now);
    }
  }
}
