# Gemini Desktop shell: a verified model of its decision logic

Gemini Desktop wraps the Gemini web app in an Electron window. The window has a
custom title bar, a tray icon, a global show/hide shortcut, persisted preferences
and self-updating. This project models the parts of the shell that make decisions
and proves properties about them. Electron, the updater library and the file
system are replaced by plain values.

- `Strings` (`strings.dfy`): `String.prototype.includes` (`Contains`) and
  `s.split(sep)[0]` (`BeforeFirst`). Each is specified by what it means: an
  occurrence at some index, and the longest prefix without the separator.
- `MainSettings` (`settings.dfy`, from `src/main/settings.ts`): the settings record,
  `DEFAULTS`, the default language from the OS locale, and the spread overlays
  `{...DEFAULTS, ...parsed}` and `{...current, ...partial}`. Each overlay is
  specified as a right-biased map union over the record's keys. The settings file
  is a `SettingsFile` object whose `contents` is `None` when the file is missing or
  unparseable. `UpdateSettings` is its read-merge-write method.
- `I18n` (`i18n.dfy`, from `src/renderer/i18n.ts`): the UI language choice. It
  tries the saved language first, then the system language prefix, then `en`.
- `SettingsPanel` (`settings_panel.dfy`, from `src/renderer/components/Settings.tsx`):
  the seven-phase `UpdateState`, the `update:status` transition, and the
  visibility rule for the check button. Lemmas cover single events and whole event
  streams (`Replay`). The component's state cells are the `Panel` class.
- `MainWindow` (`main_window.dfy`, from `src/main/index.ts`): the Google sign-in
  URL classifier, the popup decision, the view layout, and the `Shell` class. The
  class holds the module-level window state (`visible`, `focused`, `maximized`,
  `isQuitting`, the view's bounds and history). Each IPC, tray, shortcut and app
  handler is a method of it.

Inputs that come from outside the program:

- The OS locale (`app.getLocale()`) and `navigator.language` are string parameters.
- `localStorage.getItem('language')` is an `Option<string>`.
- The parsed settings file is an `Option<PartialSettings>`.
- Updater events are `UpdateStatus` values whose `status` can be any string.
- Whether the window exists is the boolean `hasWindow`.

## Model

| member | source | states |
|---|---|---|
| Strings.Contains | src/main/index.ts:65-67 | `includes` is true exactly when the needle occurs at some index of the string |
| Strings.BeforeFirst | src/main/settings.ts:21 | `split('-')[0]` is a prefix of the input that contains no separator and ends at the input's end or at a separator |
| Strings.BeforeFirstUnique | src/renderer/i18n.ts:22 | only one string has those three properties, so they fully specify `split(sep)[0]` |
| MainSettings.GetDefaultLanguage | src/main/settings.ts:19-23 | the default language is always one of en/ko/zh/ja; it is the locale prefix before the first `-` when that prefix is supported, and `en` otherwise |
| MainSettings.KoreanLocale | src/main/settings.ts:21 | the locale `ko-KR` gives `ko` |
| MainSettings.UnsupportedLocale | src/main/settings.ts:22 | the unsupported locale `fr-FR` gives `en` |
| MainSettings.Defaults | src/main/settings.ts:12-17 | `DEFAULTS` has closeToTray on, launchAtStartup off, alwaysOnTop off, and a supported language |
| MainSettings.Overlay | src/main/settings.ts:40 | the spread merge's key/value view is the base's entries overridden by exactly the keys the partial has |
| MainSettings.OverlayKeywise | src/main/settings.ts:39-40 | each key in the partial takes the partial's value; every other key keeps the current value |
| MainSettings.OverlayNoChange | src/main/settings.ts:39-40 | merging an empty partial returns the current settings unchanged |
| MainSettings.OverlayIdempotent | src/main/settings.ts:40 | merging the same partial twice gives the same result as merging it once |
| MainSettings.Stored | src/main/settings.ts:41 | the written JSON object has every key of the record, with the record's values |
| MainSettings.GetSettings | src/main/settings.ts:29-36 | a missing or corrupt file yields exactly `DEFAULTS`; otherwise each key in the file takes the file's value and each absent key takes the default |
| MainSettings.ReadBack | src/main/settings.ts:31-41 | a record written by `updateSettings` is read back unchanged by `getSettings` |
| MainSettings.UpdateIdempotent | src/main/settings.ts:31-42 | calling `updateSettings` twice with the same partial leaves what the first call returned |
| MainSettings.SettingsFile.Read | src/main/settings.ts:29-36 | reading the file gives the defaults overlaid with the file's contents |
| MainSettings.SettingsFile.UpdateSettings | src/main/settings.ts:38-43 | returns the current settings merged with the partial, writes that record, and the next read returns it |
| I18n.GetDefaultLanguage | src/renderer/i18n.ts:14-29 | the result is always a supported language, and it is the saved language, the system prefix or `en` |
| I18n.SavedLanguageWins | src/renderer/i18n.ts:16-19 | a supported saved language is returned whatever the system language is |
| I18n.UnsupportedSavedIgnored | src/renderer/i18n.ts:17 | an unsupported or absent saved language has the same effect as none |
| I18n.SystemLanguageFallback | src/renderer/i18n.ts:21-28 | with nothing saved, the result is the system prefix if supported, otherwise `en` |
| I18n.KoreanSystem | src/renderer/i18n.ts:22-25 | `ko-KR` gives `ko`; an unsupported saved `fr` is ignored; a saved `ja` wins; `pt-BR` gives `en` |
| I18n.AgreesWithMainDefault | src/renderer/i18n.ts:21-28 | with nothing saved, the renderer picks the same language as the main process's settings default for the same locale |
| SettingsPanel.Phase | src/renderer/components/Settings.tsx:15-22 | the phases that events can name are exactly those other than `idle` and `checking` |
| SettingsPanel.Transition | src/renderer/components/Settings.tsx:59-81 | a known event status moves to the phase of that name; an unknown status leaves the state unchanged |
| SettingsPanel.AvailableAndReadyTakeEventVersion | src/renderer/components/Settings.tsx:61-73 | `available` and `ready` move to that phase with the event's version |
| SettingsPanel.DownloadingKeepsVersion | src/renderer/components/Settings.tsx:64-70 | `downloading` keeps the version of a previous `available`, `downloading` or `ready` state |
| SettingsPanel.DownloadingDefaults | src/renderer/components/Settings.tsx:67-68 | `downloading` from a state without a version takes the event's version or `''`; a missing progress is 0 |
| SettingsPanel.ErrorFallback | src/renderer/components/Settings.tsx:77-79 | `error` carries the event's message, or `알 수 없는 오류` when it has none |
| SettingsPanel.CanCheck | src/renderer/components/Settings.tsx:183 | the check button is offered exactly when no check is running and no update is available, downloading or ready |
| SettingsPanel.Replay | src/renderer/components/Settings.tsx:59-81 | a stream of events with only unknown statuses leaves the state unchanged |
| SettingsPanel.ReplayPhaseIsLastKnown | src/renderer/components/Settings.tsx:60-80 | after any stream of events, the phase is named by the last event with a known status |
| SettingsPanel.ReplayWellVersioned | src/renderer/components/Settings.tsx:61-72 | if `available` and `ready` events carry versions, no reachable state has a missing version |
| SettingsPanel.Panel.constructor | src/renderer/components/Settings.tsx:48-50 | the panel starts with no settings and the update state `idle` |
| SettingsPanel.Panel.LoadSettings | src/renderer/components/Settings.tsx:52-55 | on mount, the local settings become what the main process reads from its file |
| SettingsPanel.Panel.OnUpdateStatus | src/renderer/components/Settings.tsx:59-81 | each event replaces the update state by its transition and leaves the settings alone |
| SettingsPanel.Panel.HandleCheckUpdate | src/renderer/components/Settings.tsx:85-89 | starting a check sets the phase to `checking` |
| SettingsPanel.Panel.CheckRejected | src/renderer/components/Settings.tsx:90-92 | a rejected check sets `error` with `업데이트 확인 실패`, and the button is offered again |
| SettingsPanel.Panel.Update | src/renderer/components/Settings.tsx:95-98 | after a toggle, the local settings equal the merged record the main process returned and persisted |
| MainWindow.IsGoogleAuthUrl | src/main/index.ts:63-69 | true exactly when one of the three sign-in hosts occurs somewhere in the URL |
| MainWindow.EmbeddedHostIsAuth | src/main/index.ts:63-69 | any URL that embeds a sign-in host, with anything around it, is classified as sign-in |
| MainWindow.WindowOpenHandler | src/main/index.ts:105-111 | a popup is allowed exactly for sign-in URLs; every other URL is denied and handed to the external browser |
| MainWindow.TopOffset | src/main/index.ts:59 | the space above the view is 0 on macOS and the 32-pixel title bar elsewhere |
| MainWindow.Layout | src/main/index.ts:55-61 | the view spans the content width from x = 0 and runs from below the title bar to the content's bottom edge |
| MainWindow.Shell.constructor | src/main/index.ts:27-30 | the process starts with no window and not quitting |
| MainWindow.Shell.CreateWindow | src/main/index.ts:77-101 | a new window is hidden, not maximized, and has an empty view history |
| MainWindow.Shell.LayoutViews | src/main/index.ts:55-61 | with a window, the view gets the computed layout; without one, nothing changes |
| MainWindow.Shell.ReadyToShow | src/main/index.ts:115-118 | on ready-to-show, the view is laid out and the window is shown |
| MainWindow.Shell.Close | src/main/index.ts:121-126 | a close only hides the window unless quitting; while quitting it really closes; without a window nothing changes |
| MainWindow.Shell.BeforeQuit | src/main/index.ts:220-222 | before-quit sets `isQuitting` |
| MainWindow.Shell.AppQuit | src/main/index.ts:155 | quitting sets `isQuitting` and the window is closed, not hidden |
| MainWindow.Shell.TrayQuit | src/main/index.ts:152-156 | the tray's Quit sets `isQuitting` and really closes the window |
| MainWindow.Shell.TrayShow | src/main/index.ts:145-148 | the tray's Show leaves the window shown and focused |
| MainWindow.Shell.TrayClick | src/main/index.ts:162-169 | after a tray click the window is shown and focused, whatever its prior state |
| MainWindow.Shell.ToggleShortcut | src/main/index.ts:172-181 | the shortcut hides a shown and focused window; otherwise the window ends up shown and focused |
| MainWindow.Shell.Activate | src/main/index.ts:234-241 | activate shows and focuses an existing window, or creates one when there is none |
| MainWindow.Shell.ToggleMaximize | src/main/index.ts:185-191 | the maximize request flips the maximized flag |
| MainWindow.Shell.GoBack | src/main/index.ts:195-199 | going back moves one entry from the back history to the forward history, and only when back history exists |
| MainWindow.Shell.GoForward | src/main/index.ts:200-204 | going forward moves one entry back, and only when forward history exists |

`isQuitting` is never reset. Only `BeforeQuit`, `AppQuit` and `TrayQuit` write it,
and they set it to true. `Close`, `CreateWindow`, `ReadyToShow` and `Activate`
promise to leave it unchanged. The other methods do not have it in their frame.
Every `Shell` method keeps `Valid()`. `Valid()` says a focused window is visible,
a visible window exists, and a missing window is not maximized.

`Shell.Navigate` stands for the web page navigating by itself: it adds an entry to
the back history and clears the forward history. `GoBack` and `GoForward` need it
to have anything to act on. It is Chromium's behaviour, not the shell's.

## Left out

- File reads and writes, `JSON.parse` and `JSON.stringify`: the file is the value `contents`. A missing file and an unparseable file are the same `None`.
- MainSettings.GetSettings: a parsed file whose values have the wrong JSON type, or that has extra keys, is not modelled. The model only admits typed values of the four keys.
- MainSettings.Overlay: a partial that holds a key with the value `undefined` overwrites that key in JavaScript. The model treats such a key as absent.
- MainSettings.Defaults: `DEFAULTS` is computed once, when the module loads. The model takes that locale as a constant of `SettingsFile`.
- Electron's `show()` also focuses the window. The model only sets `focused` to true through `focus()`, which every handler calls right after `show()`; hiding or closing the window clears it. The exception is `ready-to-show`, where the model leaves focus unchanged.
- The settings and update IPC channels are not part of this model: no handler for them is registered in src/main/index.ts and the preload bridge in src/preload/index.ts exposes only window and view controls. The panel model assumes `electronAPI.getSettings` and `electronAPI.updateSettings` forward to `getSettings` and `updateSettings` of src/main/settings.ts, and that `update:status` events carry the updater's events unchanged.
- After a real close, the source keeps a reference to the destroyed window. The model treats the window as gone (`hasWindow` false).
- `window:minimize` (src/main/index.ts:184): its effect on visibility and focus depends on the platform. No decision logic.
- `view:reload` (src/main/index.ts:205-207), `will-quit` and `window-all-closed` (src/main/index.ts:224-232): framework calls that change no modelled state besides quitting the app.
- Icon path selection, user agent setup, `session`, `Tray` and `Menu` construction, `loadURL`/`loadFile`, IPC registration and the preload bridge: framework plumbing.
- `autoUpdater` configuration and `checkForUpdatesAndNotify`: updater events enter only as `UpdateStatus` inputs.
- The app version cell of the panel (`getAppVersion`) and all rendering of the panel, the toast, the modal and the title bar: presentation.
- SettingsPanel.Panel.HandleCheckUpdate: the `await` is split in two. `HandleCheckUpdate` is the part before it and `CheckRejected` is the `catch`. Events can arrive between the two, in any order.
- `i18next` initialisation and the locale resources.
- A content area shorter than the title bar would give the view a negative height. Electron's minimum window height (600) rules that out, and the model does not clamp it.
