/** The settings panel of the renderer (src/renderer/components/Settings.tsx):
    the update-status state machine fed by updater events, the check button,
    and the panel's local copy of the settings. */
module SettingsPanel {
  import opened Wrappers
  import MainSettings

  /** `UpdateState`. A version is `None` when the event that set it carried
      none: `data.version!` only silences the type checker. */
  datatype UpdateState =
    | Idle
    | Checking
    | Available(version: Option<string>)
    | Downloading(progress: real, version: Option<string>)
    | Ready(version: Option<string>)
    | UpToDate
    | Error(message: string)

  /** The payload of an `update:status` event. `status` is any string: the
      switch must cope with values it does not know. */
  datatype UpdateStatus = UpdateStatus(
    status: string,
    progress: Option<real>,
    version: Option<string>,
    error: Option<string>)

  /** The statuses the switch handles. */
  const EventStatuses: seq<string> := ["available", "downloading", "ready", "up-to-date", "error"]

  /** Shown when an error event has no message ("unknown error"). */
  const UnknownErrorMessage: string := "알 수 없는 오류"

  /** Shown when the check request itself is rejected ("update check failed"). */
  const CheckFailedMessage: string := "업데이트 확인 실패"

  /** The `phase` tag of a state. */
  function Phase(s: UpdateState): (tag: string)
    ensures tag in EventStatuses <==> !(s.Idle? || s.Checking?)
  {
    match s
    case Idle => "idle"
    case Checking => "checking"
    case Available(_) => "available"
    case Downloading(_, _) => "downloading"
    case Ready(_) => "ready"
    case UpToDate => "up-to-date"
    case Error(_) => "error"
  }

  /** `'version' in prev` */
  predicate HasVersion(s: UpdateState)
  {
    s.Available? || s.Downloading? || s.Ready?
  }

  /** The `onUpdateStatus` listener's switch: the next state from the previous
      one and the event. A known status moves to the phase of that name; any
      other status leaves the state as it was. */
  function Transition(prev: UpdateState, ev: UpdateStatus): (next: UpdateState)
    ensures ev.status in EventStatuses ==> Phase(next) == ev.status
    ensures ev.status !in EventStatuses ==> next == prev
  {
    if ev.status == "available" then
      Available(ev.version)
    else if ev.status == "downloading" then
      Downloading(ev.progress.GetOr(0.0), if HasVersion(prev) then prev.version else Some(ev.version.GetOr("")))
    else if ev.status == "ready" then
      Ready(ev.version)
    else if ev.status == "up-to-date" then
      UpToDate
    else if ev.status == "error" then
      Error(ev.error.GetOr(UnknownErrorMessage))
    else
      prev
  }

  /** `available` and `ready` carry the event's version. */
  lemma AvailableAndReadyTakeEventVersion(prev: UpdateState, ev: UpdateStatus)
    requires ev.status == "available" || ev.status == "ready"
    ensures HasVersion(Transition(prev, ev)) && Transition(prev, ev).version == ev.version
  {
  }

  /** `downloading` keeps the version the previous state already held. */
  lemma DownloadingKeepsVersion(prev: UpdateState, ev: UpdateStatus)
    requires ev.status == "downloading" && HasVersion(prev)
    ensures Transition(prev, ev).Downloading?
    ensures Transition(prev, ev).version == prev.version
  {
  }

  /** From a state without a version, `downloading` takes the event's, or the
      empty string; a missing progress reads as 0. */
  lemma DownloadingDefaults(prev: UpdateState, ev: UpdateStatus)
    requires ev.status == "downloading"
    ensures Transition(prev, ev).progress == ev.progress.GetOr(0.0)
    ensures !HasVersion(prev) ==> Transition(prev, ev).version == Some(ev.version.GetOr(""))
    ensures ev.progress.None? ==> Transition(prev, ev).progress == 0.0
  {
  }

  /** An error event without a message gets the fixed fallback text. */
  lemma ErrorFallback(prev: UpdateState, ev: UpdateStatus)
    requires ev.status == "error"
    ensures ev.error.Some? ==> Transition(prev, ev) == Error(ev.error.value)
    ensures ev.error.None? ==> Transition(prev, ev) == Error(UnknownErrorMessage)
  {
  }

  /** The check button is shown in `idle`, `up-to-date` and `error`: exactly
      when no check is running and no update is on its way. */
  predicate CanCheck(s: UpdateState)
    ensures CanCheck(s) <==> !(s.Checking? || HasVersion(s))
  {
    s.Idle? || s.UpToDate? || s.Error?
  }

  /** The listener applied to a stream of events, oldest first. */
  function Replay(s: UpdateState, evs: seq<UpdateStatus>): (r: UpdateState)
    ensures (forall i :: 0 <= i < |evs| ==> evs[i].status !in EventStatuses) ==> r == s
    decreases |evs|
  {
    if evs == [] then s else Replay(Transition(s, evs[0]), evs[1..])
  }

  lemma {:induction false} ReplayAppend(s: UpdateState, evs: seq<UpdateStatus>, ev: UpdateStatus)
    ensures Replay(s, evs + [ev]) == Transition(Replay(s, evs), ev)
    decreases |evs|
  {
    if evs != [] {
      assert (evs + [ev])[1..] == evs[1..] + [ev];
      ReplayAppend(Transition(s, evs[0]), evs[1..], ev);
    }
  }

  /** After any stream of events, the phase is named by the last event whose
      status the switch knows. */
  lemma {:induction false} ReplayPhaseIsLastKnown(s: UpdateState, evs: seq<UpdateStatus>, j: nat)
    requires j < |evs| && evs[j].status in EventStatuses
    requires forall i :: j < i < |evs| ==> evs[i].status !in EventStatuses
    ensures Phase(Replay(s, evs)) == evs[j].status
    decreases |evs|
  {
    if j == |evs| - 1 {
      ReplayAppend(s, evs[..j], evs[j]);
      assert evs[..j] + [evs[j]] == evs;
    } else {
      var last := evs[|evs| - 1];
      var front := evs[..|evs| - 1];
      ReplayAppend(s, front, last);
      assert front + [last] == evs;
      ReplayPhaseIsLastKnown(s, front, j);
    }
  }

  /** An event as the updater sends it: `available` and `ready` name a version. */
  predicate WellFormedEvent(ev: UpdateStatus)
  {
    (ev.status == "available" || ev.status == "ready") ==> ev.version.Some?
  }

  /** Every state that shows a version has one to show. */
  predicate WellVersioned(s: UpdateState)
  {
    HasVersion(s) ==> s.version.Some?
  }

  /** Starting from a well-versioned state (such as `idle`), well-formed events
      never produce a state whose version is missing. */
  lemma {:induction false} ReplayWellVersioned(s: UpdateState, evs: seq<UpdateStatus>)
    requires WellVersioned(s)
    requires forall i :: 0 <= i < |evs| ==> WellFormedEvent(evs[i])
    ensures WellVersioned(Replay(s, evs))
    decreases |evs|
  {
    if evs != [] {
      assert WellFormedEvent(evs[0]);
      ReplayWellVersioned(Transition(s, evs[0]), evs[1..]);
    }
  }

  /** The component's state cells: `settings` (`null` until loaded) and
      `updateState`. */
  class Panel {
    var settings: Option<MainSettings.AppSettings>
    var updateState: UpdateState

    /** `useState(null)`, `useState({ phase: 'idle' })` */
    constructor ()
      ensures settings == None && updateState == Idle
    {
      settings := None;
      updateState := Idle;
    }

    /** `getSettings().then(setSettings)` on mount. */
    method LoadSettings(file: MainSettings.SettingsFile)
      modifies this
      ensures settings == Some(MainSettings.GetSettings(file.locale, file.contents))
      ensures updateState == old(updateState)
    {
      var s := file.Read();
      settings := Some(s);
    }

    /** The `onUpdateStatus` listener. */
    method OnUpdateStatus(ev: UpdateStatus)
      modifies this
      ensures updateState == Transition(old(updateState), ev)
      ensures settings == old(settings)
    {
      updateState := Transition(updateState, ev);
    }

    /** `handleCheckUpdate` up to its `await`: the phase becomes `checking`;
        the outcome arrives later as an event. */
    method HandleCheckUpdate()
      modifies this
      ensures updateState == Checking
      ensures settings == old(settings)
    {
      updateState := Checking;
    }

    /** The `catch` of `handleCheckUpdate`: the check request was rejected. */
    method CheckRejected()
      modifies this
      ensures updateState == Error(CheckFailedMessage)
      ensures CanCheck(updateState)
      ensures settings == old(settings)
    {
      updateState := Error(CheckFailedMessage);
    }

    /** `update(partial)`: ask the main process to merge and persist, then
        replace the local settings with the merged record it returns. */
    method Update(file: MainSettings.SettingsFile, partial: MainSettings.PartialSettings)
      modifies this, file
      ensures settings == Some(MainSettings.Overlay(MainSettings.GetSettings(file.locale, old(file.contents)), partial))
      ensures MainSettings.GetSettings(file.locale, file.contents) == settings.value
      ensures updateState == old(updateState)
    {
      var updated := file.UpdateSettings(partial);
      settings := Some(updated);
    }
  }
}
