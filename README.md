# Durga-AI personal-safety app: a verified model

Durga-AI is a personal-safety web app. Its screens let a user raise an SOS alarm and stream their location, schedule a decoy ("fake") incoming call and play it through, record audio covertly, keep a circle of guardians, read and triage alerts, keep a medical ID, grant the device permissions the app needs, chat with an emergency-operations assistant, and find safe places nearby. A small Flask and Socket.IO backend keeps the active SOS alerts in memory.

This project models that core in Dafny and proves properties of the model:

- **Screens with state.** Each stateful screen component becomes a `class` whose fields are the component's state, and its handlers are the class's methods. The methods state their new state in one of two ways:
  - Through a pure step function of the old state, written `Model() == Step(old(Model()))`. The router (`App.AppShell`), `FakeCallManager.CallManager`, `SOSActive.SosScreen` and `FakeCallIncoming.Ringtone` do this in every handler. So do most handlers of `AddCircle.CircleScreen` and `EmergencyOps.OpsScreen`, and `SafeRoute.RouteScreen.LocationSettles`. The properties the screen promises are then proved as lemmas about those step functions. A few handlers of these classes change only fields outside the step function's state: the avatar sheet, the opened URLs, the armed interval. They state those fields directly.
  - Field by field. `Alerts.AlertsScreen`, `CovertRecord.Recorder`, `FakeCallActive.ActiveScreen`, `FakeCallSetup.SetupScreen`, `MedicalID.MedicalScreen`, `PermissionsSetup.PermissionsScreen`, `Backend.AlertServer`, `FakeCallIncoming.IncomingScreen` and the other `SafeRoute.RouteScreen` handlers do this. Every changed field is given in the ensures, usually through the pure functions the properties are proved about, and the `modifies` clause or the ensures says what stays the same.
- **Pure helpers.** Helpers that only compute a value become functions with contracts.
- **The router.** The top-level view router in `App.tsx` is a class over two views.
- **The backend.** The backend's `trigger_sos` and `cancel_sos` handlers work on a map of alert records.
- **Shared modules.** Three modules give the JavaScript built-ins the components rely on their JavaScript meaning:
  - `Text`: `trim`, `split`, `join` and `includes`;
  - `Decimal`: `toString` on whole numbers and `padStart(2, '0')`;
  - `Lists`: `filter`.
- **External inputs.** Browser services, timers and user input arrive as method parameters:
  - geolocation, media devices, the permission API and the share sheet;
  - `setTimeout`/`setInterval` ticks;
  - file pickers and the user's typing.
- **Recorded side effects.** Side effects the screens cause outside themselves are appended to sequence fields, so a contract can say exactly what was sent:
  - a URL opened;
  - a number dialled;
  - a link shared;
  - a message sent.

Two behaviours are modelled as written even though they are surprising. First, the incoming decoy-call screen's ringing effect depends on `isVibrating` (`components/FakeCallIncoming.tsx:146`). Answering or declining sets that flag to false while the screen stays shown for its exit animation, so the effect is cleaned up and runs again. That run starts a new ringtone, which plays until the screen goes away; it also pushes one more history entry and attaches the leave guards again (`FakeCallIncoming.IncomingScreen.VibratingChanged`). Second, in the permissions screen the initial permission check runs asynchronously. When it settles, it overwrites any permission the user granted in the meantime with the result of the check (`components/PermissionsSetup.tsx`). Third, the bottom bar's Alerts tab and the Dashboard's Covert Record and Safe Route tiles name views the `ViewState` enum does not declare (`components/BottomNav.tsx:52`, `components/Dashboard.tsx:125`, `components/Dashboard.tsx:140`). At run time each of those names is `undefined`, so the router stores `undefined` as the current view (`App.ViewState.Undeclared`). No case matches it, so the Dashboard renders again with the bar shown, and the Alerts tab is drawn as current (`App.UndeclaredTargetsStayOnDashboard`).

Modules: `Base` (Option), `Text`, `Decimal`, `Lists`, `FakeCallManager`, `FakeCallSetup`, `FakeCallIncoming`, `FakeCallActive`, `SOSActive`, `CovertRecord`, `AddCircle`, `Alerts`, `MedicalID`, `PermissionsSetup`, `EmergencyOps`, `SafeRoute`, `App`, `Backend`.

## Model

| member | source | states |
|---|---|---|
| FakeCallManager.ScheduleCall | components/FakeCallManager.tsx:20-31 | `handleScheduleCall`: the configuration is stored; a zero delay rings at once and any other delay starts waiting with the full countdown (stated by ScheduleOutcome, kept inside the invariant by StepKeepsGood) |
| FakeCallManager.Tick | components/FakeCallManager.tsx:34-49 | one second of the countdown effect: the pending timer lowers the countdown and a countdown of zero rings; without a pending timer nothing changes (stated by TicksCountDown, TickOnlyWhileWaiting and ScheduledCallRingsAfterDelay) |
| FakeCallManager.Answer | components/FakeCallManager.tsx:52-54 | `handleAnswer`: the call becomes active (kept inside the invariant by StepKeepsGood) |
| FakeCallManager.EndCall | components/FakeCallManager.tsx:57-63 | `handleEndCall`: the call ends and one delayed `onClose` is requested (EndedIsFinal shows nothing leaves this state) |
| FakeCallManager.BackFromSetup | components/FakeCallManager.tsx:66-68 | `handleBackFromSetup`: one `onClose` is requested and the state stays (stated by LeavingSetup) |
| FakeCallManager.CancelWaiting | components/FakeCallManager.tsx:71-77 | `handleCancelWaiting`: back to setup with the countdown at zero (kept inside the invariant by StepKeepsGood) |
| FakeCallManager.StepKeepsGood | components/FakeCallManager.tsx:20-77 | every handler and timer event that its screen can deliver keeps the invariant: the countdown is non-zero exactly while waiting, and waiting, incoming and active always have a configuration |
| FakeCallManager.RunKeepsGood | components/FakeCallManager.tsx:20-77 | every state reachable through any sequence of events satisfies that invariant |
| FakeCallManager.TicksCountDown | components/FakeCallManager.tsx:34-44 | while waiting, k seconds short of the countdown lower it by exactly k and change nothing else |
| FakeCallManager.ScheduledCallRingsAfterDelay | components/FakeCallManager.tsx:20-49 | a call scheduled with delay n > 0 is still waiting with n - k seconds left after k < n seconds, and rings with its configuration after exactly n seconds |
| FakeCallManager.TicksSplit | components/FakeCallManager.tsx:34-49 | a + b seconds are a seconds followed by b seconds |
| FakeCallManager.TickOnlyWhileWaiting | components/FakeCallManager.tsx:34-49 | outside the waiting state a second changes nothing |
| FakeCallManager.ScheduleOutcome | components/FakeCallManager.tsx:20-31 | scheduling stores the configuration; it rings at once if and only if the delay is zero, and otherwise the countdown starts at the delay |
| FakeCallManager.EndedIsFinal | components/FakeCallManager.tsx:57-63 | no sequence of events leaves the ended state (also components/FakeCallManager.tsx:206) |
| FakeCallManager.LeavingSetup | components/FakeCallManager.tsx:66-91 | only scheduling leaves the setup state; Back asks the parent to close and stays in setup |
| FakeCallManager.CallManager.constructor | components/FakeCallManager.tsx:14-17 | starts in setup with no configuration, countdown zero and no timer armed |
| FakeCallManager.CallManager.HandleScheduleCall | components/FakeCallManager.tsx:20-31 | the new state is the scheduled state, and the timer is armed exactly when the delay is non-zero |
| FakeCallManager.CallManager.TimerFires | components/FakeCallManager.tsx:34-49 | the new state is one elapsed second, and the invariant holds again |
| FakeCallManager.CallManager.HandleAnswer | components/FakeCallManager.tsx:52-54 | from the incoming screen, the call becomes active (also components/FakeCallManager.tsx:185) |
| FakeCallManager.CallManager.HandleEndCall | components/FakeCallManager.tsx:57-63 | from the incoming or the active screen, the call ends and one close is requested (also components/FakeCallManager.tsx:186, components/FakeCallManager.tsx:201) |
| FakeCallManager.CallManager.HandleBackFromSetup | components/FakeCallManager.tsx:66-91 | from setup, one close is requested and nothing else changes |
| FakeCallManager.CallManager.HandleCancelWaiting | components/FakeCallManager.tsx:71-77 | from waiting, back to setup with countdown zero and the timer cleared (also components/FakeCallManager.tsx:166) |
| FakeCallSetup.FindDelayIndexFrom | components/FakeCallSetup.tsx:59 | the first index at or after `from` whose option has the value, or -1 exactly when none has |
| FakeCallSetup.FindDelayIndex | components/FakeCallSetup.tsx:15-21 | the index of the option with the value, non-negative exactly when the value is a delay option (also components/FakeCallSetup.tsx:59) |
| FakeCallSetup.RoundDiv | components/FakeCallSetup.tsx:91 | `Math.round(x / d)`: the integer nearest to x / d, halves rounded up |
| FakeCallSetup.SettledIndex | components/FakeCallSetup.tsx:85-94 | the rounded and clamped picker index is always a valid option index |
| FakeCallSetup.SettledIndexNear | components/FakeCallSetup.tsx:85-94 | a scroll offset within half a stride (68 px) of an option's position settles on that option; offsets before the first or past the last clamp to them |
| FakeCallSetup.ScrollRoundTrip | components/FakeCallSetup.tsx:61-94 | scrolling to an option's index and settling there selects that same option |
| FakeCallSetup.SetupScreen.constructor | components/FakeCallSetup.tsx:31-34 | the caller is "Mom" with the first default avatar, the delay is 10 s and the picker is closed |
| FakeCallSetup.SetupScreen.SelectedDelayIndex | components/FakeCallSetup.tsx:59 | the selected delay is always one of the options, found at the returned index |
| FakeCallSetup.SetupScreen.CenterSelectedOption | components/FakeCallSetup.tsx:72-75 | the mount effect scrolls to the selected option's position |
| FakeCallSetup.SetupScreen.Schedule | components/FakeCallSetup.tsx:39-45 | with a non-blank name, the configuration handed on carries the name, the avatar and the selected delay, which is a delay option (also components/FakeCallSetup.tsx:229) |
| FakeCallSetup.SetupScreen.SetCallerName | components/FakeCallSetup.tsx:168 | the name field takes the typed text |
| FakeCallSetup.SetupScreen.SelectOption | components/FakeCallSetup.tsx:200-203 | tapping option i selects its delay and scrolls to its position |
| FakeCallSetup.SetupScreen.OnScroll | components/FakeCallSetup.tsx:77-81 | a scroll (re)arms the settle timeout |
| FakeCallSetup.SetupScreen.SettleScroll | components/FakeCallSetup.tsx:81-98 | when the timeout fires, the delay becomes the option at the settled index |
| FakeCallSetup.SetupScreen.OpenAvatarPicker | components/FakeCallSetup.tsx:136 | the avatar sheet opens |
| FakeCallSetup.SetupScreen.CloseAvatarPicker | components/FakeCallSetup.tsx:250 | the avatar sheet closes (also components/FakeCallSetup.tsx:299) |
| FakeCallSetup.SetupScreen.ChooseDefaultAvatar | components/FakeCallSetup.tsx:265-271 | picking default avatar i sets it and closes the sheet |
| FakeCallSetup.SetupScreen.AvatarUploaded | components/FakeCallSetup.tsx:47-57 | an uploaded image becomes the avatar and the sheet closes |
| SOSActive.Tick | components/SOSActive.tsx:14-22 | one second of the countdown effect: the timer lowers `timeLeft`, and the alert is live once it is zero (stated by TicksCountDown and LiveAfterFiveSeconds) |
| SOSActive.SliderChange | components/SOSActive.tsx:26-32 | `handleSliderChange`: the slider takes the value, and a value past 90 calls `onCancel` once (stated by SlideCancelsPastThreshold) |
| SOSActive.Release | components/SOSActive.tsx:113-119 | lifting the finger or the mouse puts the slider back to zero (kept inside the invariant by StepKeepsGood) |
| SOSActive.Heading | components/SOSActive.tsx:50-52 | the heading reads "ALERT SENT" exactly when the alert is live |
| SOSActive.InitialGood | components/SOSActive.tsx:10-25 | the screen starts five seconds from live, not live, slider at zero, inside the invariant |
| SOSActive.StepKeepsGood | components/SOSActive.tsx:14-32 | a second, a slider move or a release keeps the invariant (live exactly when the countdown is over, slider within 0..100), and a live alert stays live (also components/SOSActive.tsx:113-119) |
| SOSActive.RunKeepsGood | components/SOSActive.tsx:14-32 | over any sequence of events the invariant holds, liveness is never lost and cancel requests never decrease (also components/SOSActive.tsx:113-119) |
| SOSActive.TicksCountDown | components/SOSActive.tsx:14-22 | after k seconds the countdown is max(timeLeft - k, 0), the alert is live exactly when k reaches the remaining time, and the slider and the cancel count are untouched |
| SOSActive.LiveAfterFiveSeconds | components/SOSActive.tsx:10-22 | from mount the alert is live after k seconds if and only if k >= 5 |
| SOSActive.SlideCancelsPastThreshold | components/SOSActive.tsx:26-32 | a slider value asks the parent to cancel exactly when it exceeds 90, whether or not the alert is live, and leaves the countdown alone |
| SOSActive.SosScreen.constructor | components/SOSActive.tsx:10-25 | the initial state, with the first timer armed |
| SOSActive.SosScreen.TimerFires | components/SOSActive.tsx:14-22 | the armed timer firing is one elapsed second |
| SOSActive.SosScreen.HandleSliderChange | components/SOSActive.tsx:26-32 | the slider takes the value and cancels past 90; the timer is unaffected |
| SOSActive.SosScreen.HandleRelease | components/SOSActive.tsx:113-119 | the slider snaps back to zero; the timer is unaffected |
| FakeCallIncoming.RingPlayTone | components/FakeCallIncoming.tsx:23-59 | `playTone`: while playing, one 440 Hz tone starts and one 554 Hz timeout is scheduled; otherwise nothing (kept inside the ringtone invariant by RingStepKeepsGood) |
| FakeCallIncoming.RingSecondTone | components/FakeCallIncoming.tsx:42-58 | the 200 ms timeout: the 554 Hz tone sounds only if still playing (used by SilentAfterStop) |
| FakeCallIncoming.StartRing | components/FakeCallIncoming.tsx:62-70 | `start`: playing, one tone at once and the 2-second repeat armed (stated by StartThenStop) |
| FakeCallIncoming.StopRing | components/FakeCallIncoming.tsx:71-80 | `stop`: silent, the repeat cleared and the audio context closed once more (stated by StartThenStop and SilentAfterStop) |
| FakeCallIncoming.RingStepKeepsGood | components/FakeCallIncoming.tsx:23-81 | start, stop, a repeat and a second-tone timeout each keep the ringtone invariant: the repeat is armed exactly while playing, and no more second tones are sounded or pending than first tones were started |
| FakeCallIncoming.SilentAfterStop | components/FakeCallIncoming.tsx:42-80 | once stopped, no sequence of repeats, timeouts and stops sounds another tone of either pitch |
| FakeCallIncoming.StartThenStop | components/FakeCallIncoming.tsx:62-80 | starting plays one tone at once and arms the repeat; stopping afterwards silences it and clears the repeat, both inside the invariant |
| FakeCallIncoming.PlaysUntilStopped | components/FakeCallIncoming.tsx:62-70 | a started ringtone stays playing with its repeat armed, inside the invariant, whatever starts, repeats and timeouts follow, until it is stopped; each repeat starts another tone |
| FakeCallIncoming.Ringtone.constructor | components/FakeCallIncoming.tsx:17-21 | a fresh ringtone is silent, with nothing armed and nothing played |
| FakeCallIncoming.Ringtone.PlayTone | components/FakeCallIncoming.tsx:23-59 | while playing, one 440 Hz tone starts and one 554 Hz timeout is scheduled; otherwise nothing happens |
| FakeCallIncoming.Ringtone.SecondToneFires | components/FakeCallIncoming.tsx:42-58 | the 200 ms timeout sounds the second tone only if still playing |
| FakeCallIncoming.Ringtone.RepeatFires | components/FakeCallIncoming.tsx:69 | the 2-second repeat plays one more tone |
| FakeCallIncoming.Ringtone.Start | components/FakeCallIncoming.tsx:62-70 | `start`: playing, one tone at once, the repeat armed |
| FakeCallIncoming.Ringtone.Stop | components/FakeCallIncoming.tsx:71-80 | `stop`: silent, the repeat cleared, the audio context closed once more |
| FakeCallIncoming.CreateRingtone | components/FakeCallIncoming.tsx:12-86 | a ringtone exists exactly when the audio API is there and its context can be created, and then it is fresh and idle |
| FakeCallIncoming.SliderWidth | components/FakeCallIncoming.tsx:150-165 | the slider width is always positive: the measured width when it is non-zero, otherwise 300 |
| FakeCallIncoming.KnobPosition | components/FakeCallIncoming.tsx:164-168 | `handleDrag`: the finger offset clamped to [0, width - 80] (stated by KnobStaysOnTrack) |
| FakeCallIncoming.AnswersAt | components/FakeCallIncoming.tsx:149-153 | `handleDragEnd`'s test: the drag ended at least width - 100 to the right (stated by FullTravelAnswers) |
| FakeCallIncoming.KnobStaysOnTrack | components/FakeCallIncoming.tsx:164-168 | the knob stays within [0, width - 80] and follows the finger exactly while the finger is in that range |
| FakeCallIncoming.FullTravelAnswers | components/FakeCallIncoming.tsx:149-153 | a release at the end of the track answers, a release short of width - 100 does not, and width - 100 itself does |
| FakeCallIncoming.IncomingScreen.constructor | components/FakeCallIncoming.tsx:94-97 | the knob at zero, vibrating, no ringtone yet, nothing requested |
| FakeCallIncoming.IncomingScreen.VibratePattern | components/FakeCallIncoming.tsx:108-112 | the ring pattern is sent only when the device can vibrate and the captured flag is set |
| FakeCallIncoming.IncomingScreen.Mount | components/FakeCallIncoming.tsx:100-130 | the mount effect creates and starts the ringtone when audio is available, vibrates once, arms the vibration interval, pushes one history entry and attaches both leave guards |
| FakeCallIncoming.IncomingScreen.VibrationTick | components/FakeCallIncoming.tsx:115 | each interval tick repeats the captured vibration decision |
| FakeCallIncoming.IncomingScreen.PopState | components/FakeCallIncoming.tsx:118-121 | going back pushes another history entry, so the page stays |
| FakeCallIncoming.IncomingScreen.HandleDrag | components/FakeCallIncoming.tsx:164-168 | the knob takes the clamped position on the measured (or default) track |
| FakeCallIncoming.IncomingScreen.HandleDragEnd | components/FakeCallIncoming.tsx:149-162 | past the threshold: vibration off, ringtone stopped, one answer requested; short of it: the knob snaps back and nothing else changes |
| FakeCallIncoming.IncomingScreen.HandleDecline | components/FakeCallIncoming.tsx:170-179 | vibration off, ringtone stopped, vibration cancelled where supported, one decline requested |
| FakeCallIncoming.IncomingScreen.VibratingChanged | components/FakeCallIncoming.tsx:100-146 | after answering or declining sets `isVibrating` to false on a screen that is still shown, the effect's cleanup stops and drops the old ringtone and cancels vibration, then the effect runs again: a new ringtone is created and started and plays, one more history entry is pushed, both guards are attached again, and no ring pattern is sent (also components/FakeCallManager.tsx:80) |
| FakeCallIncoming.IncomingScreen.Unmount | components/FakeCallIncoming.tsx:132-145 | the cleanup when the screen goes away stops and drops the ringtone, cancels vibration where supported, clears the interval and removes both guards |
| FakeCallActive.FormatDuration | components/FakeCallActive.tsx:44-48 | the `MM:SS` text reads back as exactly the number of seconds shown, has a colon before the last two digits, and is five characters long exactly while the call is under 100 minutes; it starts with a zero exactly under ten minutes, and from 100 minutes on the minutes are the plain decimal text of the minutes, not padded |
| FakeCallActive.ElapsedSeconds | components/FakeCallActive.tsx:26 | the floor of the elapsed milliseconds over 1000: the whole seconds since the start |
| FakeCallActive.ElapsedMonotone | components/FakeCallActive.tsx:22-27 | with the clock moving forward, the shown duration never goes backwards |
| FakeCallActive.MuteCaption | components/FakeCallActive.tsx:162 | the caption reads "Unmute" exactly while muted |
| FakeCallActive.ActiveScreen.constructor | components/FakeCallActive.tsx:15-19 | duration zero, every control off, the start time at the first render, nothing armed |
| FakeCallActive.ActiveScreen.Mount | components/FakeCallActive.tsx:22-35 | the mount effect restarts the clock, arms the interval and the back guard, and pushes one history entry |
| FakeCallActive.ActiveScreen.TimerFires | components/FakeCallActive.tsx:25-27 | each tick sets the duration to the whole seconds since the start |
| FakeCallActive.ActiveScreen.DurationText | components/FakeCallActive.tsx:152 | the shown text reads back as the current duration |
| FakeCallActive.ActiveScreen.PopState | components/FakeCallActive.tsx:30-33 | going back pushes another history entry |
| FakeCallActive.ActiveScreen.ToggleMute | components/FakeCallActive.tsx:164 | mute flips |
| FakeCallActive.ActiveScreen.ToggleSpeaker | components/FakeCallActive.tsx:175 | speaker flips |
| FakeCallActive.ActiveScreen.ToggleKeypad | components/FakeCallActive.tsx:169 | the keypad flips |
| FakeCallActive.ActiveScreen.HideKeypad | components/FakeCallActive.tsx:108 | the keypad's Hide closes it |
| FakeCallActive.ActiveScreen.PressKey | components/FakeCallActive.tsx:92-101 | a key of the visible keypad buzzes once where the device can vibrate |
| FakeCallActive.ActiveScreen.EndCall | components/FakeCallActive.tsx:197 | End asks the manager to end the call once |
| FakeCallActive.ActiveScreen.Unmount | components/FakeCallActive.tsx:37-40 | the cleanup clears the interval and removes the back guard |
| CovertRecord.MimeType | components/CovertRecord.tsx:93 | the type the recorder is requested with: WebM where supported, otherwise MP4 (the blob takes the type the recorder reports, StartRecording and RecorderStopped; stated by MimeTypeChoice) |
| CovertRecord.MimeTypeChoice | components/CovertRecord.tsx:93 | both requested types are audio types, and they differ exactly when the browser's WebM answers differ |
| CovertRecord.QueryPermissionAsWritten | components/CovertRecord.tsx:44-51 | `checkMicrophonePermission` as written: `granted` gives true, every other state false, a failed query leaves it unknown (PromptLocksRecordingAsWritten shows its consequence) |
| CovertRecord.PromptLocksRecordingAsWritten | components/CovertRecord.tsx:44-51 | as written, a `prompt` permission state counts as refused and disables the record button, so a first-time user can never start recording (also components/CovertRecord.tsx:233-234) |
| CovertRecord.QueryPermission | components/CovertRecord.tsx:44-51 | corrected reading of the query: refused exactly on `denied`, granted exactly on `granted`, unknown for `prompt` or a failed query |
| CovertRecord.RecordEnabledUnlessDenied | components/CovertRecord.tsx:233-234 | with the corrected reading the record button is enabled exactly unless the state is `denied` |
| CovertRecord.StartSession | components/CovertRecord.tsx:104-117 | starting a recording: the clock restarts at zero and the `onstop` handler keeps the clock value of the render that started it (used by StaleDurationAsWritten) |
| CovertRecord.TickSession | components/CovertRecord.tsx:34-42 | the recording timer adds one second, and only while recording (stated by TickSessionsCount) |
| CovertRecord.StopSession | components/CovertRecord.tsx:148 | stopping leaves the clock at its value (used by StaleDurationAsWritten and SavedDurationIsTimeRecorded) |
| CovertRecord.SavedDurationAsWritten | components/CovertRecord.tsx:104-108 | the duration `onstop` stores as written: the captured stale clock value (StaleDurationAsWritten exhibits the wrong duration) |
| CovertRecord.SavedDuration | components/CovertRecord.tsx:104-108 | the corrected duration: the clock when the recorder stopped (stated by SavedDurationIsTimeRecorded) |
| CovertRecord.TickSessionsCount | components/CovertRecord.tsx:34-42 | while recording, n timer ticks add exactly n seconds to the clock |
| CovertRecord.StaleDurationAsWritten | components/CovertRecord.tsx:104-117 | as written, a first recording that ran five seconds is saved with duration 0, because `onstop` sees the clock of the render where recording started |
| CovertRecord.SavedDurationIsTimeRecorded | components/CovertRecord.tsx:104-117 | corrected: a recording is saved with the number of seconds it ran, whatever the clock showed before |
| CovertRecord.DeleteById | components/CovertRecord.tsx:170-172 | deleting never lengthens the list and leaves no recording with that id |
| CovertRecord.DeleteByIdKeepsOthers | components/CovertRecord.tsx:170-172 | a recording survives deletion exactly when it was listed with another id, and the survivors keep their order |
| CovertRecord.DeleteAbsentId | components/CovertRecord.tsx:170-172 | deleting an id that is not listed changes nothing |
| CovertRecord.SavingKeepsNewestFirst | components/CovertRecord.tsx:112 | prepending a recording at least as recent as the head keeps the list newest-first, and so does deleting (also components/CovertRecord.tsx:170-172) |
| CovertRecord.Recorder.constructor | components/CovertRecord.tsx:9-20 | not recording, clock and level at zero, no recordings, permission unknown, no recorder, stream or context |
| CovertRecord.Recorder.CheckPermission | components/CovertRecord.tsx:22-51 | the mount query's answer becomes the permission, read the corrected way (`QueryPermission`): refused only on `denied`, unknown on `prompt`; the as-written reading is QueryPermissionAsWritten |
| CovertRecord.Recorder.TimerFires | components/CovertRecord.tsx:34-42 | the running clock gains one second |
| CovertRecord.Recorder.StartRecording | components/CovertRecord.tsx:59-127 | a ready recorder starts recording from zero with fresh chunks, requested with the supported MIME type and keeping the type it reports; a refused microphone marks permission refused and starts nothing; a setup that fails after the stream was obtained marks permission refused, leaves the stream open and leaves the audio context open if it was created (also components/CovertRecord.tsx:233) |
| CovertRecord.Recorder.DataAvailable | components/CovertRecord.tsx:98-102 | a non-empty chunk is appended; an empty one is ignored |
| CovertRecord.Recorder.StopRecording | components/CovertRecord.tsx:129-155 | the recorder is asked to stop once, the stream and the audio context are released, recording stops and the level drops to zero; the clock keeps its value (also components/CovertRecord.tsx:233) |
| CovertRecord.Recorder.RecorderStopped | components/CovertRecord.tsx:104-113 | the collected chunks become a blob of the type the recorder reports and the new recording goes to the front, so every listed recording carries audio, with the corrected duration (`SavedDuration`, the clock when the recorder stopped) rather than the stale value the code saves (`SavedDurationAsWritten`) |
| CovertRecord.Recorder.DeleteRecording | components/CovertRecord.tsx:170-172 | the list becomes the list without that id, and every recording left still carries its audio (also components/CovertRecord.tsx:319) |
| CovertRecord.Recorder.Download | components/CovertRecord.tsx:157-158 | downloading a listed card hands over exactly that recording's blob, and nothing when it has none; because every saved recording carries a blob, a blob is always handed over, made of non-empty chunks; the list is not changed (also components/CovertRecord.tsx:313) |
| CovertRecord.Recorder.Unmount | components/CovertRecord.tsx:22-31 | the cleanup runs the first render's `stopRecording`, so the stream and the context are released but a running recorder is not asked to stop and nothing is saved (also components/CovertRecord.tsx:129-155) |
| AddCircle.AddGuardian | components/AddCircle.tsx:54-65 | a complete form becomes one new guardian at the end, with the untrimmed fields and the new id; an incomplete form adds nothing |
| AddCircle.CompleteIffTrimmedNonEmpty | components/AddCircle.tsx:55 | the form counts as complete exactly when both the trimmed name and the trimmed phone are non-empty, the test the Add button and the handler make (also components/AddCircle.tsx:375) |
| AddCircle.RemoveGuardian | components/AddCircle.tsx:70-73 | removal never lengthens the circle and leaves no guardian with that id |
| AddCircle.RemoveKeepsOthers | components/AddCircle.tsx:70-73 | a guardian survives removal exactly when it had another id, and the survivors keep their order |
| AddCircle.AddThenRemove | components/AddCircle.tsx:54-73 | removing a guardian just added under a fresh id restores the circle |
| AddCircle.EmptySlots | components/AddCircle.tsx:52 | an empty slot is shown exactly while fewer than five guardians are listed, and slots and guardians add up to five (also components/AddCircle.tsx:217-220) |
| AddCircle.StepKeepsGood | components/AddCircle.tsx:54-95 | every action the screen offers keeps the cap of five and opens the form only while a slot is free (also components/AddCircle.tsx:217-220) |
| AddCircle.RunKeepsCap | components/AddCircle.tsx:52-95 | no sequence of actions ever lists more than five guardians (also components/AddCircle.tsx:217-220) |
| AddCircle.InitialGood | components/AddCircle.tsx:32-48 | the circle starts with one guardian and four empty slots |
| AddCircle.AddResetsForm | components/AddCircle.tsx:54-68 | an accepted add grows the circle by one guardian whose name and phone do not trim to nothing, clears the form and closes it |
| AddCircle.CircleScreen.constructor | components/AddCircle.tsx:32-49 | the initial circle, an empty form with relation FRIEND, no overlay open |
| AddCircle.CircleScreen.OpenAddModal | components/AddCircle.tsx:217-220 | tapping an empty slot opens the form |
| AddCircle.CircleScreen.SetName | components/AddCircle.tsx:327 | the name field takes the typed text |
| AddCircle.CircleScreen.SetPhone | components/AddCircle.tsx:339 | the phone field takes the typed text |
| AddCircle.CircleScreen.SetRelation | components/AddCircle.tsx:22 | the form takes one of the five relations (also components/AddCircle.tsx:352) |
| AddCircle.CircleScreen.OpenAvatarPicker | components/AddCircle.tsx:306 | the avatar sheet opens |
| AddCircle.CircleScreen.CloseAvatarPicker | components/AddCircle.tsx:402 | the avatar sheet closes |
| AddCircle.CircleScreen.SetAvatar | components/AddCircle.tsx:75-85 | a picked or uploaded avatar goes into the form and the sheet closes (also components/AddCircle.tsx:423-425) |
| AddCircle.CircleScreen.HandleAddGuardian | components/AddCircle.tsx:54-68 | the add step with the clock's text as id; an incomplete form is ignored |
| AddCircle.CircleScreen.CloseAddModal | components/AddCircle.tsx:368 | the form closes and keeps its fields |
| AddCircle.CircleScreen.AskRemove | components/AddCircle.tsx:208 | the remove button of a listed guardian asks for confirmation of that id |
| AddCircle.CircleScreen.HandleRemoveGuardian | components/AddCircle.tsx:70-73 | confirming removes the guardian awaiting confirmation and closes the dialog (also components/AddCircle.tsx:483) |
| AddCircle.CircleScreen.CancelRemove | components/AddCircle.tsx:477 | cancelling closes the dialog and keeps the circle |
| AddCircle.CircleScreen.HandleSaveActivate | components/AddCircle.tsx:87-95 | with at least one guardian, Save stores exactly the current circle (also components/AddCircle.tsx:265) |
| Alerts.AlertStyle | components/Alerts.tsx:62-74 | every alert type has a style, and the icon identifies the type: warning for danger, error for warning, group for guardian, info for info |
| Alerts.MarkAsRead | components/Alerts.tsx:76-80 | the alerts with that id become read; every other alert and the order are unchanged |
| Alerts.MarkAllRead | components/Alerts.tsx:82-84 | every alert becomes read and is otherwise unchanged, in the same order |
| Alerts.DeleteAlert | components/Alerts.tsx:86-88 | deleting never lengthens the list and leaves no alert with that id |
| Alerts.DeleteAlertKeepsOthers | components/Alerts.tsx:86-88 | an alert survives deletion exactly when it was in the list and has another id, and the survivors keep their order |
| Alerts.UnreadAlerts | components/Alerts.tsx:91-94 | only unread alerts are kept |
| Alerts.FilteredAlertsShowsUnread | components/Alerts.tsx:90-94 | the unread view shows exactly the unread alerts, in their order and as many as the header's count; the full view shows every alert |
| Alerts.FilteredAlerts | components/Alerts.tsx:90-92 | the list on screen: every alert, or only the unread ones (stated by FilteredAlertsShowsUnread) |
| Alerts.UnreadCount | components/Alerts.tsx:94 | the header's count of unread alerts (FilteredAlertsShowsUnread ties it to the unread view; MarkAllReadClearsCount and MarkAsReadCount state how it moves) |
| Alerts.ShowCheckInButtons | components/Alerts.tsx:214 | the check-in buttons show on unread guardian alerts whose title mentions a check-in (stated for the initial inbox by InitialInbox) |
| Alerts.MarkAllReadClearsCount | components/Alerts.tsx:82-94 | after Mark all read the unread count is zero |
| Alerts.MarkAsReadCount | components/Alerts.tsx:76-94 | marking an id read lowers the unread count by exactly the number of unread alerts with that id |
| Alerts.MarkUniqueAsRead | components/Alerts.tsx:76-94 | marking an alert with a unique id lowers the count by one if it was unread and leaves it alone otherwise |
| Alerts.OnlyOneWithId | components/Alerts.tsx:76-80 | an alert whose id is unique is the only unread alert with that id, or there is none when it is read |
| Alerts.NoneWithId | components/Alerts.tsx:76-80 | no alert matches a test that only an absent id passes |
| Alerts.MarkAsReadIdempotent | components/Alerts.tsx:76-80 | marking the same id twice is the same as marking it once |
| Alerts.InitialInbox | components/Alerts.tsx:15-58 | the inbox starts with two unread alerts, and only the second carries the check-in buttons (also components/Alerts.tsx:214) |
| Alerts.AlertsScreen.constructor | components/Alerts.tsx:15-60 | the initial alerts, the full view, no buzz yet |
| Alerts.AlertsScreen.SetFilter | components/Alerts.tsx:134-144 | the tab selects the view |
| Alerts.AlertsScreen.TapCard | components/Alerts.tsx:184 | tapping a visible card marks its id read |
| Alerts.AlertsScreen.TapMarkAllRead | components/Alerts.tsx:121-123 | the header button, shown while something is unread, marks everything read and the count drops to zero |
| Alerts.AlertsScreen.Dismiss | components/Alerts.tsx:214-229 | the dismiss button of a visible check-in request deletes that alert |
| Alerts.AlertsScreen.HandleCheckIn | components/Alerts.tsx:96-102 | "I'm safe" marks the request read and buzzes once where the device can vibrate (also components/Alerts.tsx:214-220) |
| MedicalID.TrimKeepsOut | components/MedicalID.tsx:76 | trimming a piece never brings in a character, so a piece cut at commas stays comma-free |
| MedicalID.CleanPieces | components/MedicalID.tsx:76-82 | trimming the pieces and dropping the empty ones yields items that are non-empty, trimmed and comma-free, and no more of them than pieces |
| MedicalID.ParseList | components/MedicalID.tsx:76-82 | the list a typed text saves as consists of clean items only |
| MedicalID.CleanPiecesCons | components/MedicalID.tsx:76 | one piece is trimmed and kept exactly when the trim is non-empty, ahead of the rest |
| MedicalID.SplitAfterSpace | components/MedicalID.tsx:76 | a leading space attaches to the first piece when splitting at commas |
| MedicalID.CleanAfterSpace | components/MedicalID.tsx:76 | a leading space never changes the parsed list |
| MedicalID.JoinCons | components/MedicalID.tsx:228-267 | a joined list of two or more items is the first item, a comma, a space and the joined rest |
| MedicalID.ParseCons | components/MedicalID.tsx:76 | parsing a clean item followed by ", " and more text yields that item ahead of the rest's parse |
| MedicalID.ParseEmpty | components/MedicalID.tsx:76 | an empty text saves as the empty list |
| MedicalID.ParseSingle | components/MedicalID.tsx:76 | a single clean item saves as itself |
| MedicalID.ParseJoinRoundTrip | components/MedicalID.tsx:76 | a clean list joined with ", " (as the editor shows it) parses back to exactly the same list (also components/MedicalID.tsx:228) |
| MedicalID.ParseJoinCons | components/MedicalID.tsx:76 | the round trip for lists of two or more items (also components/MedicalID.tsx:228) |
| MedicalID.ParseListIdempotent | components/MedicalID.tsx:76 | saving a field, reopening it and saving unchanged keeps the list the first save produced (also components/MedicalID.tsx:228) |
| MedicalID.EditedData | components/MedicalID.tsx:62-84 | with no field selected nothing changes; a text field takes the typed text as it is, a list field its parse, and no other field (in particular the id and the photo) changes |
| MedicalID.SaveEditKeepsGood | components/MedicalID.tsx:62-87 | saving keeps every list of the card clean |
| MedicalID.OpenThenSaveIsNoChange | components/MedicalID.tsx:56-87 | opening any field's editor and saving without typing leaves the card unchanged (also components/MedicalID.tsx:175-267) |
| MedicalID.InitialGood | components/MedicalID.tsx:23-32 | the initial card's lists are clean |
| MedicalID.DialNumber | components/MedicalID.tsx:53 | the dialled number is no longer than the phone and holds no whitespace |
| MedicalID.DialNumberKeepsDigits | components/MedicalID.tsx:53 | exactly the whitespace is removed: every other character stays, in order |
| MedicalID.TelLink | components/MedicalID.tsx:53 | the `tel:` link of the number with its whitespace removed (DialNumberKeepsDigits states what is removed) |
| MedicalID.IcePayloads | components/MedicalID.tsx:108 | one entry per contact, in order, with just its name and phone |
| MedicalID.QrData | components/MedicalID.tsx:100-110 | the QR payload: name, id, blood group, the three lists and each contact's name and phone (stated by QrDataOmits and QrDataCarries) |
| MedicalID.QrDataOmits | components/MedicalID.tsx:100-110 | the date of birth, the photo and each contact's id and initial never change the QR payload |
| MedicalID.QrDataCarries | components/MedicalID.tsx:100-110 | the payload carries the name, id, blood group and the three lists unchanged, and each contact's phone in order |
| MedicalID.MedicalScreen.constructor | components/MedicalID.tsx:23-42 | the initial card and contacts, both modals closed, no field selected |
| MedicalID.MedicalScreen.OpenEditModal | components/MedicalID.tsx:56-60 | the modal opens on the field with its current text (lists joined with ", ") (also components/MedicalID.tsx:175-267) |
| MedicalID.MedicalScreen.ReopenEditModal | components/MedicalID.tsx:317 | the floating button reopens the modal on whatever was left from last time |
| MedicalID.MedicalScreen.CloseEditModal | components/MedicalID.tsx:331 | the modal closes and the card is unchanged (also components/MedicalID.tsx:382) |
| MedicalID.MedicalScreen.SetTempValue | components/MedicalID.tsx:370 | the input takes the typed text |
| MedicalID.MedicalScreen.PickBloodGroup | components/MedicalID.tsx:45 | a blood-group button puts that group into the input (also components/MedicalID.tsx:354) |
| MedicalID.MedicalScreen.SaveEdit | components/MedicalID.tsx:62-87 | the card becomes the edited card; with no field selected the modal stays open, otherwise it closes and the selection clears (also components/MedicalID.tsx:388) |
| MedicalID.MedicalScreen.AvatarUploaded | components/MedicalID.tsx:89-98 | the uploaded image becomes the photo and nothing else changes |
| MedicalID.MedicalScreen.HandleCall | components/MedicalID.tsx:47-54 | the `tel:` link of the whitespace-free number is opened, after one buzz where the device can vibrate (also components/MedicalID.tsx:305) |
| MedicalID.MedicalScreen.ShowQR | components/MedicalID.tsx:191 | the QR modal opens |
| MedicalID.MedicalScreen.HideQR | components/MedicalID.tsx:407-440 | the QR modal closes |
| MedicalID.MedicalScreen.QrCode | components/MedicalID.tsx:100-110 | the code lists one entry per emergency contact |
| PermissionsSetup.Set | components/PermissionsSetup.tsx:82 | a functional update changes the one key to the new status and keeps every other key (also components/PermissionsSetup.tsx:90, components/PermissionsSetup.tsx:112, components/PermissionsSetup.tsx:147) |
| PermissionsSetup.MapQueryState | components/PermissionsSetup.tsx:50-69 | a queried state maps to granted exactly on `granted`, to denied exactly on `denied`, and to pending otherwise |
| PermissionsSetup.QueryOutcome | components/PermissionsSetup.tsx:48-54 | a query that throws leaves the status as it was; an answer replaces it by its mapping |
| PermissionsSetup.CheckedPermissions | components/PermissionsSetup.tsx:44-75 | the initial check queries camera, microphone and geolocation on a copy of the record and never touches contacts |
| PermissionsSetup.InitialCheckOutcome | components/PermissionsSetup.tsx:17-22 | from the initial record the check never yields unavailable, leaves contacts pending, grants each of the three exactly when its query answered granted, and denies location exactly when its query answered denied (also components/PermissionsSetup.tsx:44-75) |
| PermissionsSetup.LocationResult | components/PermissionsSetup.tsx:78-104 | no geolocation API gives unavailable, a position gives granted, a permission-denied error gives denied, any other error keeps the status |
| PermissionsSetup.MediaResult | components/PermissionsSetup.tsx:107-136 | camera and microphone are granted exactly when a stream opened and denied otherwise |
| PermissionsSetup.ContactsResult | components/PermissionsSetup.tsx:139-160 | every path of the contacts request ends granted: a picked contact, a cancelled or failing picker and a missing picker alike |
| PermissionsSetup.GrantedCount | components/PermissionsSetup.tsx:221-223 | at most four permissions are counted as granted |
| PermissionsSetup.GrantedCountSums | components/PermissionsSetup.tsx:221-223 | the count is one for each granted key and zero for every other |
| PermissionsSetup.AllGrantedIffFour | components/PermissionsSetup.tsx:221-227 | all four are granted exactly when the count is four, and exactly when every key is granted |
| PermissionsSetup.ProgressPercentage | components/PermissionsSetup.tsx:229 | the bar is the granted share of four in percent, exact, so one of 0, 25, 50, 75 and 100 |
| PermissionsSetup.FullBarIffContinue | components/PermissionsSetup.tsx:225-229 | the bar is full exactly when Continue is enabled (also components/PermissionsSetup.tsx:346-349) |
| PermissionsSetup.OverlayIffAllGranted | components/PermissionsSetup.tsx:33-35 | the overlay's every-and-some test holds exactly when all are granted (also components/PermissionsSetup.tsx:225-227) |
| PermissionsSetup.PermissionsScreen.constructor | components/PermissionsSetup.tsx:17-25 | all four pending, nothing requested, no overlay |
| PermissionsSetup.PermissionsScreen.OverlayEffect | components/PermissionsSetup.tsx:33-42 | each change of the record clears the previous timeout and, when all are granted, shows the overlay with a fresh timeout |
| PermissionsSetup.PermissionsScreen.InitialCheckCompletes | components/PermissionsSetup.tsx:28-30 | the record becomes the checked copy of the initial record, overwriting anything resolved meanwhile, and the overlay effect runs (also components/PermissionsSetup.tsx:44-75) |
| PermissionsSetup.PermissionsScreen.StartRequest | components/PermissionsSetup.tsx:79 | the Allow button of a permission that is not granted and not already loading marks that request as in progress (also components/PermissionsSetup.tsx:108, components/PermissionsSetup.tsx:124, components/PermissionsSetup.tsx:140, components/PermissionsSetup.tsx:301-309) |
| PermissionsSetup.PermissionsScreen.LocationResolved | components/PermissionsSetup.tsx:78-104 | the location key takes the request's result and the request ends; the overlay effect runs again except after an error other than a refusal, which stores nothing and leaves the overlay as it was |
| PermissionsSetup.PermissionsScreen.CameraResolved | components/PermissionsSetup.tsx:107-120 | the camera key takes the request's result, the request ends and the overlay effect runs |
| PermissionsSetup.PermissionsScreen.MicrophoneResolved | components/PermissionsSetup.tsx:123-136 | the microphone key takes the request's result, the request ends and the overlay effect runs |
| PermissionsSetup.PermissionsScreen.ContactsResolved | components/PermissionsSetup.tsx:139-160 | the contacts key becomes granted, the request ends and the overlay effect runs |
| PermissionsSetup.PermissionsScreen.OverlayTimerFires | components/PermissionsSetup.tsx:37-39 | after 1500 ms the overlay hides |
| PermissionsSetup.PermissionsScreen.Continue | components/PermissionsSetup.tsx:346-349 | with all four granted, Continue calls `onComplete` once |
| EmergencyOps.DrainBattery | components/EmergencyOps.tsx:100-102 | a drain tick lowers the battery by one percent, never below one |
| EmergencyOps.DrainsToFloor | components/EmergencyOps.tsx:29 | after k ticks a battery of at least one percent has lost k percent, stopping at one (also components/EmergencyOps.tsx:100-102) |
| EmergencyOps.IntroArrives | components/EmergencyOps.tsx:93-97 | the next intro timeout appends the intro message of its index (stated by IntrosInOrder and IntroFillsLog) |
| EmergencyOps.SendMessage | components/EmergencyOps.tsx:120-139 | `handleSendMessage`: a blank input is ignored, any other is logged as the user's, the input is cleared and a reply is scheduled (stated by SendOutcome) |
| EmergencyOps.ReplyArrives | components/EmergencyOps.tsx:139-156 | a pending reply arrives from Dad with the chosen canned response (kept by StepAppends: one message appended, the log kept) |
| EmergencyOps.CallMe | components/EmergencyOps.tsx:159-171 | `handleCallMe`: the call request is logged as a warning and a call-back scheduled (kept by StepAppends) |
| EmergencyOps.CallBackArrives | components/EmergencyOps.tsx:173-182 | a pending call-back arrives from Dad (kept by StepAppends) |
| EmergencyOps.ImageCapture | components/EmergencyOps.tsx:189-204 | `handleImageCapture`: evidence is logged only when a file was chosen (kept by StepAppends) |
| EmergencyOps.ConfirmSafe | components/EmergencyOps.tsx:218-234 | `confirmSafe`: the marked-safe notice is logged and `onMarkSafe` scheduled (stated by ConfirmThenMarkSafe) |
| EmergencyOps.MarkSafeFires | components/EmergencyOps.tsx:231-233 | the scheduled `onMarkSafe` is called (stated by ConfirmThenMarkSafe) |
| EmergencyOps.StepAppends | components/EmergencyOps.tsx:93-102 | every timer and button keeps the battery at one percent or more and the intro count within five, and at most appends one message to the log without changing what was there (also components/EmergencyOps.tsx:120-234) |
| EmergencyOps.RunAppends | components/EmergencyOps.tsx:93-102 | along any run the invariant holds, the log only grows (by at most one message per event) and `onMarkSafe` calls never drop (also components/EmergencyOps.tsx:120-234) |
| EmergencyOps.SendOutcome | components/EmergencyOps.tsx:120-139 | an input that trims to nothing sends nothing and changes nothing; any other input is logged verbatim as the user's, the input is emptied and one guardian reply is scheduled |
| EmergencyOps.IntrosInOrder | components/EmergencyOps.tsx:53-97 | the intro timeouts append the intro messages in index order |
| EmergencyOps.IntroFillsLog | components/EmergencyOps.tsx:27 | starting from the empty log, the five intro timeouts leave exactly the five intro messages, in order (also components/EmergencyOps.tsx:53-97) |
| EmergencyOps.ConfirmThenMarkSafe | components/EmergencyOps.tsx:218-234 | confirming logs the marked-safe notice last, keeps the earlier log, and once its timeout fires `onMarkSafe` has been called exactly once more |
| EmergencyOps.OpsScreen.constructor | components/EmergencyOps.tsx:27-31 | an empty log and input, battery at 14 %, the intro timeouts and the battery interval armed, nothing opened (also components/EmergencyOps.tsx:52-102) |
| EmergencyOps.OpsScreen.IntroTimerFires | components/EmergencyOps.tsx:93-97 | the next intro message appears |
| EmergencyOps.OpsScreen.BatteryTimerFires | components/EmergencyOps.tsx:100-102 | one drain tick |
| EmergencyOps.OpsScreen.SetInputText | components/EmergencyOps.tsx:461 | the input takes the typed text |
| EmergencyOps.OpsScreen.HandleSendMessage | components/EmergencyOps.tsx:120-157 | the send step (Enter or the button) at the given clock reading (also components/EmergencyOps.tsx:462, components/EmergencyOps.tsx:467) |
| EmergencyOps.OpsScreen.ReplyTimerFires | components/EmergencyOps.tsx:139-156 | a pending reply arrives from Dad with the chosen canned response |
| EmergencyOps.OpsScreen.HandleCallMe | components/EmergencyOps.tsx:159-171 | the call request is logged as a warning and a call-back is scheduled (also components/EmergencyOps.tsx:439) |
| EmergencyOps.OpsScreen.CallBackTimerFires | components/EmergencyOps.tsx:173-182 | a pending call-back arrives from Dad |
| EmergencyOps.OpsScreen.HandleImageCapture | components/EmergencyOps.tsx:189-204 | evidence is logged only when a file was chosen (also components/EmergencyOps.tsx:481) |
| EmergencyOps.OpsScreen.HandleNavigateToSafeZone | components/EmergencyOps.tsx:206-212 | directions to the nearest police station are opened; nothing else changes (also components/EmergencyOps.tsx:400) |
| EmergencyOps.OpsScreen.HandleMarkSafe | components/EmergencyOps.tsx:214-216 | the confirmation dialog opens (also components/EmergencyOps.tsx:429) |
| EmergencyOps.OpsScreen.CloseSafeConfirmDialog | components/EmergencyOps.tsx:496-519 | the backdrop or Cancel closes the dialog |
| EmergencyOps.OpsScreen.HandleConfirmSafe | components/EmergencyOps.tsx:218-234 | the notice is logged and `onMarkSafe` is scheduled; the dialog stays as it is (also components/EmergencyOps.tsx:525) |
| EmergencyOps.OpsScreen.MarkSafeTimerFires | components/EmergencyOps.tsx:231-233 | the scheduled `onMarkSafe` is called |
| EmergencyOps.OpsScreen.Unmount | components/EmergencyOps.tsx:104 | the cleanup clears only the battery interval |
| SafeRoute.Locate | components/SafeRoute.tsx:63-85 | the mount request always ends locating: a position is stored, a failed request records the enable-location message, and a missing API records the unsupported message |
| SafeRoute.StatusPanel | components/SafeRoute.tsx:159-176 | the status panel: locating while the request runs, the error text when one was recorded, otherwise the located panel (stated by LocateFromStart) |
| SafeRoute.LocateFromStart | components/SafeRoute.tsx:15-18 | from the initial state exactly one of a location and an error is known once locating ends, and the located panel shows exactly when a position was received (also components/SafeRoute.tsx:63-85, components/SafeRoute.tsx:159-176) |
| SafeRoute.ToggleSelection | components/SafeRoute.tsx:239 | tapping the expanded card collapses it; tapping any other card expands that one |
| SafeRoute.ToggleTwice | components/SafeRoute.tsx:239 | tapping a collapsed card expands it, and tapping it again collapses it |
| SafeRoute.PlaceIcon | components/SafeRoute.tsx:87-99 | each place type has its style, and the icon identifies the type |
| SafeRoute.NavigationUrl | components/SafeRoute.tsx:101-111 | with a known location the link is walking directions from it; without one it is a search for the address |
| SafeRoute.CallNumber | components/SafeRoute.tsx:288-295 | police dial 100, hospitals dial 108, shelters and public places dial nothing |
| SafeRoute.ShareUrl | components/SafeRoute.tsx:119 | the shared link is the maps query prefix followed by the latitude, a comma and the longitude |
| SafeRoute.RouteScreen.constructor | components/SafeRoute.tsx:15-18 | locating, with no location, no error and nothing expanded, opened, dialled or shared |
| SafeRoute.RouteScreen.LocationSettles | components/SafeRoute.tsx:63-85 | the request's outcome is applied as the mount effect does |
| SafeRoute.RouteScreen.TapPlace | components/SafeRoute.tsx:239 | the selection toggles |
| SafeRoute.RouteScreen.Navigate | components/SafeRoute.tsx:101-111 | the expanded place's navigation link is opened (also components/SafeRoute.tsx:278-281) |
| SafeRoute.RouteScreen.Call | components/SafeRoute.tsx:288-295 | the expanded place's number is dialled when it has one; nothing happens otherwise |
| SafeRoute.RouteScreen.ShareLocation | components/SafeRoute.tsx:113-146 | a share happens only with a known location and the share API, and then it shares the location's link |
| SafeRoute.RouteScreen.EmergencyCall | components/SafeRoute.tsx:315 | the emergency button dials 112 |
| App.ViewChange | App.tsx:16-19 | changing view makes the chosen view current and remembers the view that was current |
| App.TriggerSos | App.tsx:21-23 | triggering SOS shows the SOS view and leaves the previous view alone |
| App.CancelSos | App.tsx:25-27 | cancelling SOS returns to the Dashboard and leaves the previous view alone |
| App.CloseFakeCall | App.tsx:29-31 | closing the decoy call returns to the Dashboard and leaves the previous view alone |
| App.RenderContent | App.tsx:34-50 | each view renders its own screen; exactly the Dashboard view, the emergency-operations view and the undeclared value, neither of which has a case, render the Dashboard (also types.ts:1-9) |
| App.TargetsRender | components/BottomNav.tsx:19-70 | of the bar's tabs, exactly Hub and Alerts render the Dashboard, and only Alerts sets the undeclared value; of the Dashboard's tiles, exactly Covert Record and Safe Route set the undeclared value and render the Dashboard (also components/Dashboard.tsx:95-140) |
| App.UndeclaredTargetsStayOnDashboard | components/BottomNav.tsx:52 | tapping Alerts, Covert Record or Safe Route makes the undeclared value current and remembers the old view; the Dashboard renders with the bar shown, and the Alerts tab is drawn as current while Hub is not (also components/Dashboard.tsx:125, components/Dashboard.tsx:140, components/BottomNav.tsx:10-14, App.tsx:47-48) |
| App.HiddenExactlyOnFullScreens | App.tsx:53-75 | the bottom navigation is hidden exactly while the SOS screen or the decoy call is rendered |
| App.FullScreensExitToDashboard | App.tsx:21-53 | from the SOS screen or the decoy call the only handler reachable is that screen's own, and it lands on the Dashboard |
| App.PreviousViewIsLastChanged | App.tsx:14-31 | only a view change writes the previous view, and it writes the view that was current |
| App.AppShell.constructor | App.tsx:13-14 | both the current and the previous view start as the Dashboard |
| App.AppShell.HandleViewChange | App.tsx:16-19 | the router moves as a view change does |
| App.AppShell.HandleTriggerSos | App.tsx:21-23 | the router moves as an SOS trigger does |
| App.AppShell.HandleCancelSos | App.tsx:25-27 | the router moves as an SOS cancel does |
| App.AppShell.HandleCloseFakeCall | App.tsx:29-31 | the router moves as closing the decoy call does |
| App.AppShell.Render | App.tsx:34-53 | the content is the current view's screen, and the bar is shown exactly outside the SOS and decoy-call views, so also on the undeclared value (also App.tsx:68, App.tsx:74-76) |
| Backend.UserText | backend/app.py:34-39 | how Python formats `user_id` in the id: the text itself, or `None` when it is missing (used by AlertIdInjective) |
| Backend.AlertId | backend/app.py:39 | `f"alert_{user_id}_{n}"` (AlertIdInjective shows equal ids come from the same user text and number) |
| Backend.LastUnderscore | backend/app.py:39 | the result is -1 or the index of an underscore in the text |
| Backend.LastUnderscoreOf | backend/app.py:39 | in an id whose sequence number has no underscore, the last underscore is the one before the number |
| Backend.SplitAtLastUnderscore | backend/app.py:39 | two equal ids built from underscore-free numbers have the same user part and the same number |
| Backend.DigitsHaveNoUnderscore | backend/app.py:39 | a decimal sequence number contains no underscore |
| Backend.AlertIdInjective | backend/app.py:39 | two equal alert ids come from the same user text and the same sequence number |
| Backend.HandleSosAsWritten | backend/app.py:34-54 | the id uses the table's size plus one, the record is stored under it and the acknowledgement carries it |
| Backend.TriggerAsWrittenStores | backend/app.py:39-54 | after a trigger the acknowledged id is in the table with an active record, and the table grew by at most one |
| Backend.HandleCancel | backend/app.py:56-62 | a missing or unknown id changes nothing; a known id is removed; every other alert is kept unchanged and nothing is added |
| Backend.CollisionAfterCancelAsWritten | backend/app.py:39-60 | trigger, trigger, cancel the first, trigger: the third trigger reuses the second id and overwrites its alert |
| Backend.HandleSos | backend/app.py:34-54 | the corrected trigger acknowledges the id with the next sequence number and advances the counter |
| Backend.TriggerIsFresh | backend/app.py:39-49 | with the corrected counter the new id is unused, the table grows by exactly that id, no alert is overwritten, and the new alert is active |
| Backend.Cancel | backend/app.py:56-62 | the server after `cancel_sos`: the table as HandleCancel leaves it, the counter unchanged (stated by CancelKeepsGood) |
| Backend.CancelKeepsGood | backend/app.py:56-62 | cancelling keeps every stored id below the counter |
| Backend.Serve | backend/app.py:28-62 | the server after a sequence of triggers and cancels handled in order (stated by ServeKeepsGood) |
| Backend.ServeKeepsGood | backend/app.py:13 | every sequence of triggers and cancels keeps the invariant, and with triggers alone the counter stays at the table's size plus one (also backend/app.py:29-62) |
| Backend.AgreesBeforeAnyCancel | backend/app.py:39 | while nothing was cancelled the corrected trigger gives the same id and table as the code as written |
| Backend.AlertServer.constructor | backend/app.py:13 | the server starts with no alerts |
| Backend.AlertServer.TriggerSos | backend/app.py:28-54 | the acknowledgement carries the fresh id and the state moves as the corrected trigger (`HandleSos`, numbered by a counter) does, so the table grows by one; the as-written numbering by table size is HandleSosAsWritten |
| Backend.AlertServer.CancelSos | backend/app.py:56-62 | the table moves as the cancel handler does |
| Text.IsWhitespace | components/AddCircle.tsx:55 | the characters `trim` removes and `\s` matches (used by TrimEmptyIffBlank and DialNumberKeepsDigits) |
| Text.TrimStart | components/MedicalID.tsx:76 | the result is a suffix of the input whose first character is not whitespace, and what was removed is all whitespace |
| Text.TrimEnd | components/MedicalID.tsx:76 | the result is a prefix of the input whose last character is not whitespace, and what was removed is all whitespace |
| Text.Trim | components/AddCircle.tsx:55 | the result has whitespace at neither end and is no longer than the input; TrimIsMiddle states what it is cut from (also components/EmergencyOps.tsx:121, components/FakeCallSetup.tsx:229) |
| Text.TrimIsMiddle | components/AddCircle.tsx:55 | the trimmed text is a contiguous part of the input with only whitespace before and after it, which with Trim's own contract determines it (also components/EmergencyOps.tsx:121, components/MedicalID.tsx:76) |
| Text.TrimmedMiddleUnique | components/AddCircle.tsx:55 | a text has only one part that has whitespace at neither end and only whitespace around it, so Trim's contract and TrimIsMiddle leave one possible result (also components/EmergencyOps.tsx:121, components/MedicalID.tsx:76) |
| Text.TrimEmptyIffBlank | components/AddCircle.tsx:55 | trimming yields the empty string exactly when the input is all whitespace (also components/EmergencyOps.tsx:121, components/FakeCallSetup.tsx:229) |
| Text.TrimOfTrimmed | components/MedicalID.tsx:76 | trimming already-trimmed text changes nothing |
| Text.TrimSkipsLeadingWhitespace | components/MedicalID.tsx:76 | a leading whitespace character does not change the trimmed text |
| Text.Split | components/MedicalID.tsx:76-82 | splitting yields at least one piece, and no piece contains the separator |
| Text.Join | components/MedicalID.tsx:228 | `join`: the items with the separator between consecutive ones (stated by JoinSplit and SplitJoin) |
| Text.JoinSplit | components/MedicalID.tsx:76 | joining the pieces of a split with the separator gives back the original text (also components/MedicalID.tsx:228) |
| Text.SplitWithoutSeparator | components/MedicalID.tsx:76 | text without the separator splits into itself alone |
| Text.SplitAtFirstSeparator | components/MedicalID.tsx:76 | splitting text that begins with a separator-free piece and a separator yields that piece followed by the split of the rest |
| Text.SplitJoin | components/MedicalID.tsx:76 | splitting the join of separator-free pieces gives back those pieces (also components/MedicalID.tsx:228) |
| Text.Contains | components/Alerts.tsx:214 | `includes`: the pattern starts at some position of the text (stated by ContainsAt) |
| Text.ContainsAt | components/Alerts.tsx:214 | text that holds the pattern at some position contains it |
| Decimal.DigitChar | components/AddCircle.tsx:58 | each digit value below ten becomes a digit character |
| Decimal.DigitValue | components/AddCircle.tsx:58 | each digit character has a value below ten |
| Decimal.NatToString | components/AddCircle.tsx:58 | the text of a number is non-empty and is all digits (also components/CovertRecord.tsx:56) |
| Decimal.NatToStringValue | components/AddCircle.tsx:58 | the digits read back as the number (also components/CovertRecord.tsx:56) |
| Decimal.NatToStringInjective | components/AddCircle.tsx:58 | two numbers with the same text are equal |
| Decimal.NatToStringLength | components/CovertRecord.tsx:56 | a number has one digit exactly below 10 and two digits exactly from 10 to 99 (also components/FakeCallActive.tsx:47) |
| Decimal.TwoDigits | components/CovertRecord.tsx:56 | the padded text is all digits (also components/FakeCallActive.tsx:47) |
| Decimal.TwoDigitsValue | components/CovertRecord.tsx:56 | the padded text reads back as the number, is at least two characters long, and is exactly two characters long precisely below 100 (also components/FakeCallActive.tsx:47) |
| Decimal.MinutesSeconds | components/CovertRecord.tsx:53-57 | `formatTime`: whole minutes and the remaining seconds, each padded to two digits, around a colon (stated by MinutesSecondsRoundTrip; also components/FakeCallActive.tsx:44-48) |
| Decimal.ParseMinutesSeconds | components/CovertRecord.tsx:53-57 | reads clock text back into seconds; the independent partner MinutesSecondsRoundTrip checks the clock against |
| Decimal.MinutesSecondsRoundTrip | components/CovertRecord.tsx:53-57 | the minutes-and-seconds clock text reads back as its number of seconds, and it is five characters long exactly below 100 minutes; it starts with a zero exactly below ten minutes, and from 100 minutes on the minutes are written unpadded (also components/FakeCallActive.tsx:44-48) |
| Decimal.NatToStringLeadingZero | components/CovertRecord.tsx:56 | a number's text starts with `0` exactly when the number is 0 (also components/FakeCallActive.tsx:47) |
| Lists.Filter | components/Alerts.tsx:87 | the result is no longer than the input, and every element it keeps passes the test (also components/Alerts.tsx:91, components/AddCircle.tsx:71, components/CovertRecord.tsx:171) |
| Lists.SubsequenceDropHead | components/Alerts.tsx:91 | dropping the first element of a subsequence leaves a subsequence |
| Lists.SubsequenceExtend | components/Alerts.tsx:91 | a subsequence of the tail is a subsequence of the whole |
| Lists.SubsequenceOrder | components/Alerts.tsx:91 | two elements of a subsequence appear in the same order in the original |
| Lists.SubsequenceMember | components/Alerts.tsx:91 | every element of a subsequence occurs in the original |
| Lists.FilterIsSubsequence | components/Alerts.tsx:87-91 | filtering keeps the original order |
| Lists.FilterMembership | components/Alerts.tsx:87 | an element is in the result exactly when it is in the input and passes the test (also components/Alerts.tsx:91, components/AddCircle.tsx:71) |
| Lists.FilterConcat | components/Alerts.tsx:87 | filtering distributes over concatenation |
| Lists.FilterKeepsAll | components/AddCircle.tsx:71 | when every element passes the test the list is unchanged (also components/CovertRecord.tsx:171) |
| Lists.FilterIdempotent | components/Alerts.tsx:91 | filtering twice with the same test is filtering once |
| Lists.FilterPartition | components/Alerts.tsx:91-94 | the elements kept by a test and by its negation together number the whole list |

## Left out

- Browser and device services are not modelled as code. Geolocation, `getUserMedia`, `MediaRecorder`, the permission API, `navigator.share`, `window.open`, `tel:` links, `localStorage`, `alert()` and file readers become method parameters or recorded outputs.
- Floating-point arithmetic is not modelled: the audio level is a `real` that nothing reads, drag offsets and `scrollLeft` are whole numbers, and the ringtone oscillator's frequencies are left out.
- Some vibration calls are not recorded: the emergency-operations buttons, the covert recorder's start and stop buzzes, and the guardian save buzz. None of them changes what any screen shows. The vibrations that are recorded are the incoming call's ringing pattern and its cancellation, the keypad buzz of the active call, the alerts check-in buzz and the buzz before the medical ID dials a contact.
- Debounce delays and animation timing are not modelled: the model has no wall-clock time, only discrete timer ticks.
- The model has no real serialisation or formatting. `JSON.stringify`, `encodeURIComponent`, `toISOString` download file names (which always end in `.webm`, whatever type the recorder reports) and `toLocaleTimeString` timestamps are opaque text or are not modelled.
- Chat avatars, the microphone analyser driven by `requestAnimationFrame` and the chat view's auto-scroll are not modelled, because none of them changes any modelled state.
- Identifiers taken from `Date.now()` are the decimal text of a whole-number clock parameter. No lemma states that ids are distinct: two messages or guardians created at the same clock reading share an id, as they do in the app.
- The clock going backwards is not modelled.
- Photo uploads in the guardian form and the medical ID read the form state of the render that started the upload. The model applies the upload to the current state instead.
- CheckPermission (CovertRecord.Recorder.CheckPermission): the component applies the corrected reading `QueryPermission`, under which `prompt` leaves the permission unknown. The code as written reads `prompt` as refused; that reading is QueryPermissionAsWritten and the finding below states what it does.
- RecorderStopped (CovertRecord.Recorder.RecorderStopped): the component saves the corrected duration `SavedDuration`, the clock when the recorder stopped. The code as written saves the stale clock value its `onstop` handler closed over; that is SavedDurationAsWritten, and the finding below states what it does.
- TriggerSos (Backend.AlertServer.TriggerSos): the server numbers alerts with the corrected counter, as `HandleSos` does. The code as written numbers them by the table's size plus one; that is HandleSosAsWritten, and the finding below shows the collision it causes.
- In `EmergencyOps`, the assistant's intro and reply timeouts can fire after the screen unmounts. The model keeps the screen mounted throughout. The screen's unused `isRecording` state is not modelled.
- The backend's Socket.IO broadcasts (`emit`), its console logging, the `/` status route and the server start-up are not modelled. The model covers the handlers' effect on the alert table and their replies.
- `Dashboard.tsx` and `BottomNav.tsx` appear only as the views their buttons ask for (`App.TabTarget`, `App.TileTarget`) and the tab drawn as current; their layout is not modelled. `CommunityMap.tsx` is not part of this model and appears only as a screen the router renders.
- The screens that the Alerts tab and the Covert Record and Safe Route tiles evidently mean to open are not routed to. `App.tsx` neither declares those views nor imports those screens, so which screen each should render would be a guess. The router keeps the behaviour as written (`App.UndeclaredTargetsStayOnDashboard`). `Alerts`, `CovertRecord` and `SafeRoute` are modelled as screens of their own.
- `Text.IsWhitespace` lists the characters JavaScript's `trim` removes. Characters outside the Basic Multilingual Plane are single characters here rather than surrogate pairs.

## Findings

| source | as written | input that shows it | evidently intended | confidence | as-written member | corrected member |
|---|---|---|---|---|---|---|
| backend/app.py:39-60 | the alert id is numbered by the current table size plus one (line 39), the record is stored under it (line 49), and a cancel deletes it (lines 58-60) | trigger, trigger, cancel the first alert, trigger: the third id equals the second, and the second alert is overwritten | every alert gets a fresh id from a counter that never goes back | not executed | Backend.CollisionAfterCancelAsWritten | Backend.TriggerIsFresh |
| components/CovertRecord.tsx:104-117 | `onstop` saves the `recordingTime` captured when recording started | a first recording that runs five seconds is saved with duration 0 | the saved duration is the number of seconds recorded | not executed | CovertRecord.StaleDurationAsWritten | CovertRecord.SavedDurationIsTimeRecorded |
| components/CovertRecord.tsx:44-51 | the permission query reads every state other than `granted` as refused, and the record button is disabled on refusal (components/CovertRecord.tsx:233-234) | the state `prompt`, which a first-time user has: the record button is disabled, so the browser never asks | only `denied` disables recording | not executed | CovertRecord.PromptLocksRecordingAsWritten | CovertRecord.RecordEnabledUnlessDenied |
