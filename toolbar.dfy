// SSafeSaveToolbar: the widget's fields and the methods that update them in
// place. Each method is proved against its specification function in Widget;
// the properties of those functions are the widget's properties.

module Toolbar {
  import opened Text
  import opened StatusModel
  import opened Presentation
  import opened Widget

  class SafeSaveToolbar {
    var sourceControlStatus: SourceControlStatus
    var hasUnsavedAssets: bool
    var unsavedAssetCount: int
    var sampleUnsavedPackage: String
    var lastStatusLabel: String
    var lastDirtyCheckMs: int
    var lastSourceControlCheckMs: int
    var lastAutoFetchMs: int
    var lastStatusToastMs: int
    var statusUpdateInFlight: bool
    var hasSeenStatusLabel: bool
    /** The settings object, None when there is none. */
    var settings: Option<Settings>
    /** Every notification shown so far, in order. */
    var notifications: seq<Toast>

    /** The fields as one value. */
    function State(): WidgetState
      reads this
    {
      WidgetState(sourceControlStatus, hasUnsavedAssets, unsavedAssetCount, sampleUnsavedPackage,
                  lastStatusLabel, lastDirtyCheckMs, lastSourceControlCheckMs, lastAutoFetchMs,
                  lastStatusToastMs, statusUpdateInFlight, hasSeenStatusLabel, settings, notifications)
    }

    predicate Valid()
      reads this
    {
      Consistent(State())
    }

    /** Construct, at time now, with the editor's dirty packages at that time. */
    constructor(initialSettings: Option<Settings>, dirtyPackages: seq<String>, now: int)
      ensures Valid()
      ensures State() == Constructed(initialSettings, dirtyPackages, now)
    {
      hasUnsavedAssets := false;
      unsavedAssetCount := 0;
      sampleUnsavedPackage := [];
      sourceControlStatus := DefaultStatus;
      statusUpdateInFlight := false;
      lastAutoFetchMs := now;
      lastStatusLabel := [];
      lastStatusToastMs := 0;
      hasSeenStatusLabel := false;
      lastDirtyCheckMs := 0;
      lastSourceControlCheckMs := 0;
      settings := initialSettings;
      notifications := [];
      new;
      UpdateUnsavedState(dirtyPackages, now);
      var _ := RequestSourceControlStatusUpdate();
      UnsavedStateReflectsDirtyList(Initial(initialSettings, now), dirtyPackages, now);
    }

    method Notify(message: String, success: bool)
      requires Valid()
      modifies this
      ensures Valid()
      ensures State() == Notified(old(State()), message, success)
    {
      notifications := notifications + [Toast(message, success)];
    }

    method MaybeNotifyStatusChange(now: int)
      requires Valid()
      modifies this
      ensures Valid()
      ensures State() == AfterStatusCheck(old(State()), now)
    {
      var currentLabel := GetLabel(sourceControlStatus, hasUnsavedAssets, unsavedAssetCount);
      if settings.None? || !settings.value.toastOnStatusChange {
        lastStatusLabel := currentLabel;
        hasSeenStatusLabel := true;
        return;
      }
      if !hasSeenStatusLabel {
        lastStatusLabel := currentLabel;
        hasSeenStatusLabel := true;
        return;
      }
      if !EqualsIgnoreCase(currentLabel, lastStatusLabel) {
        if now - lastStatusToastMs >= ToastInterval(settings.value) {
          Notify(ToastPrefix + currentLabel, true);
          lastStatusToastMs := now;
        }
        lastStatusLabel := currentLabel;
      }
    }

    method UpdateUnsavedState(dirtyPackages: seq<String>, now: int)
      modifies this
      ensures Valid()
      ensures State() == AfterUnsavedUpdate(old(State()), dirtyPackages, now)
    {
      hasUnsavedAssets := |dirtyPackages| > 0;
      unsavedAssetCount := |dirtyPackages|;
      sampleUnsavedPackage := if hasUnsavedAssets then dirtyPackages[0] else [];
      MaybeNotifyStatusChange(now);
    }

    /** Returns whether a poll was started (its background work is
        Probes.ProbeSourceControl). */
    method RequestSourceControlStatusUpdate() returns (started: bool)
      requires Valid()
      modifies this
      ensures Valid()
      ensures started == !old(statusUpdateInFlight)
      ensures State() == AfterRequest(old(State()))
    {
      if statusUpdateInFlight {
        return false;
      }
      statusUpdateInFlight := true;
      return true;
    }

    /** The game-thread half of a poll, with the status the background half built. */
    method CompleteStatusUpdate(newStatus: SourceControlStatus, now: int)
      requires Valid()
      modifies this
      ensures Valid()
      ensures State() == AfterCompletion(old(State()), newStatus, now)
    {
      sourceControlStatus := newStatus;
      statusUpdateInFlight := false;
      MaybeNotifyStatusChange(now);
    }

    /** The 0.5 s active timer. Returns whether a poll was started and the
        auto-fetch command, if one was launched. */
    method UpdateState(now: int, dirtyPackages: seq<String>)
      returns (pollStarted: bool, autoFetch: Option<PendingCommand>)
      requires Valid()
      modifies this
      ensures Valid()
      ensures TickResult(State(), pollStarted, autoFetch) == Tick(old(State()), now, dirtyPackages)
    {
      if now - lastDirtyCheckMs >= DirtyCheckInterval(settings) {
        UpdateUnsavedState(dirtyPackages, now);
        lastDirtyCheckMs := now;
      }
      pollStarted := false;
      if now - lastSourceControlCheckMs >= StatusPollInterval(settings) {
        pollStarted := RequestSourceControlStatusUpdate();
        lastSourceControlCheckMs := now;
      }
      autoFetch := None;
      if settings.Some? && settings.value.autoFetch && sourceControlStatus.provider == Git {
        var interval := AutoFetchInterval(settings.value);
        var canAutoFetch := sourceControlStatus.clientAvailable && sourceControlStatus.isRepo
                            && !statusUpdateInFlight;
        if canAutoFetch && now - lastAutoFetchMs >= interval {
          autoFetch := RunGitCommandAsync(AutoFetchCommand.args, AutoFetchCommand.successMessage,
                                          AutoFetchCommand.failureMessage, true, true);
          lastAutoFetchMs := now;
        }
      }
    }

    method ToggleAutoFetch(now: int)
      requires Valid()
      modifies this
      ensures Valid()
      ensures State() == AfterToggle(old(State()), now)
    {
      if settings.None? {
        return;
      }
      settings := Some(settings.value.(autoFetch := !settings.value.autoFetch));
      lastAutoFetchMs := now;
    }

    method RunGitCommandAsync(args: String, successMessage: String, failureMessage: String,
                              refreshAfter: bool, silentSuccess: bool := false)
      returns (command: Option<PendingCommand>)
      requires Valid()
      modifies this
      ensures Valid()
      ensures Launched(State(), command)
              == Launch(old(State()), PendingCommand(Git, args, successMessage, failureMessage,
                                                     refreshAfter, silentSuccess))
    {
      if sourceControlStatus.provider != Git || !sourceControlStatus.clientAvailable
         || !sourceControlStatus.isRepo {
        Notify("Git is not available for this project.", false);
        return None;
      }
      return Some(PendingCommand(Git, args, successMessage, failureMessage, refreshAfter, silentSuccess));
    }

    method RunPlasticCommandAsync(args: String, successMessage: String, failureMessage: String,
                                  refreshAfter: bool, silentSuccess: bool := false)
      returns (command: Option<PendingCommand>)
      requires Valid()
      modifies this
      ensures Valid()
      ensures Launched(State(), command)
              == Launch(old(State()), PendingCommand(Plastic, args, successMessage, failureMessage,
                                                     refreshAfter, silentSuccess))
    {
      if sourceControlStatus.provider != Plastic || !sourceControlStatus.clientAvailable
         || !sourceControlStatus.isRepo {
        Notify("Plastic SCM is not available for this project.", false);
        return None;
      }
      return Some(PendingCommand(Plastic, args, successMessage, failureMessage, refreshAfter, silentSuccess));
    }

    /** The game-thread half of a launched command, with the CLI's reply.
        Returns whether the refresh it asks for started a poll. */
    method CompleteCommand(command: PendingCommand, reply: CliResult) returns (pollStarted: bool)
      requires Valid()
      modifies this
      ensures Valid()
      ensures pollStarted == (command.refreshAfter && !old(statusUpdateInFlight))
      ensures State() == AfterCommand(old(State()), command, reply)
    {
      NotifyOutcome(command, reply);
      NotifyError(reply);
      assert old(notifications) + OutcomeToasts(command, reply) + ErrorToasts(reply)
             == old(notifications) + CompletionToasts(command, reply);
      pollStarted := false;
      if command.refreshAfter {
        pollStarted := RequestSourceControlStatusUpdate();
      }
    }

    /** The success or failure message, unless the command succeeded silently. */
    method NotifyOutcome(command: PendingCommand, reply: CliResult)
      requires Valid()
      modifies this
      ensures Valid()
      ensures State() == old(State()).(notifications := old(notifications) + OutcomeToasts(command, reply))
    {
      var success := Succeeded(reply);
      if !(success && command.silentSuccess) {
        Notify(if success then command.successMessage else command.failureMessage, success);
      }
    }

    /** On failure, the start of the trimmed stderr, when there is any. */
    method NotifyError(reply: CliResult)
      requires Valid()
      modifies this
      ensures Valid()
      ensures State() == old(State()).(notifications := old(notifications) + ErrorToasts(reply))
    {
      var errorText := TrimCopy(reply.stderr);
      if !Succeeded(reply) && errorText != [] {
        Notify(Left(errorText, 200), false);
      }
    }

    /** ExecuteGitPullRebase; confirmed is the answer to the Yes/No dialog. */
    method ExecuteGitPullRebase(confirmed: bool) returns (command: Option<PendingCommand>)
      requires Valid()
      modifies this
      ensures Valid()
      ensures Launched(State(), command) == ExecutePull(old(State()), confirmed)
    {
      if !CanExecuteGitPull(sourceControlStatus, hasUnsavedAssets) {
        Notify(PullDisabledText, false);
        return None;
      }
      command := None;
      if confirmed {
        command := RunGitCommandAsync("pull --rebase", "Pull completed.", "Pull failed.", true);
      }
    }

    method ExecuteGitPush(confirmed: bool) returns (command: Option<PendingCommand>)
      requires Valid()
      modifies this
      ensures Valid()
      ensures Launched(State(), command) == ExecutePush(old(State()), confirmed)
    {
      if !CanExecuteGitPush(sourceControlStatus, hasUnsavedAssets) {
        Notify(PushDisabledText, false);
        return None;
      }
      command := None;
      if confirmed {
        command := RunGitCommandAsync("push", "Push completed.", "Push failed.", true);
      }
    }

    method ExecutePlasticUpdate(confirmed: bool) returns (command: Option<PendingCommand>)
      requires Valid()
      modifies this
      ensures Valid()
      ensures Launched(State(), command) == ExecuteUpdate(old(State()), confirmed)
    {
      if !CanExecutePlasticUpdate(sourceControlStatus, hasUnsavedAssets) {
        Notify(UpdateDisabledText, false);
        return None;
      }
      command := None;
      if confirmed {
        command := RunPlasticCommandAsync("update", "Update completed.", "Update failed.", true);
      }
    }

    /** ExecuteGitFetch: no gate of its own, only the launch precondition. */
    method ExecuteGitFetch() returns (command: Option<PendingCommand>)
      requires Valid()
      modifies this
      ensures Valid()
      ensures Launched(State(), command) == Launch(old(State()), FetchCommand)
    {
      command := RunGitCommandAsync("fetch --prune", "Fetch completed.", "Fetch failed.", true);
    }

    method ExecuteRefresh(dirtyPackages: seq<String>, now: int) returns (pollStarted: bool)
      requires Valid()
      modifies this
      ensures Valid()
      ensures pollStarted == !old(statusUpdateInFlight)
      ensures State() == AfterRequest(AfterUnsavedUpdate(old(State()), dirtyPackages, now))
    {
      UpdateUnsavedState(dirtyPackages, now);
      pollStarted := RequestSourceControlStatusUpdate();
    }

    /** ExecuteSaveAll, given the dirty packages left once the editor has saved. */
    method ExecuteSaveAll(dirtyAfterSave: seq<String>, now: int)
      requires Valid()
      modifies this
      ensures Valid()
      ensures State() == AfterUnsavedUpdate(old(State()), dirtyAfterSave, now)
    {
      UpdateUnsavedState(dirtyAfterSave, now);
    }
  }
}
