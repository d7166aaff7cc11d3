# Kiosk video trigger — Dafny model

This project models the control logic of an exhibition kiosk (the kiosk code in
`01.DEV`). A loop video plays in full screen. A push-button or a rotary encoder
triggers a one-shot overlay video. An operator switches the language of both
videos from the keyboard. The model covers the logic that decides what
happens:

- **Settings** (`config.dfy`, module `Config`): the trigger mode, the encoder
  threshold (90 ticks) and the inactivity timeout (3 s), the table of loop and
  overlay files for `fr`, `it`, `de` and `en`, and the default language `fr`.
- **Triggers** (`trigger.dfy`, module `Trigger`):
  - the trigger-mode check of `setup_gpio`;
  - one iteration of the rotary-encoder polling loop, as a pure step function
    `EncoderNext` and as the class `EncoderLoop`, whose `Step` method updates
    the loop's three variables in place;
  - the encoder and button polling loops, run over a finite stretch of polled
    samples.
- **Keyboard language selector** (`keyboard.dfy`, module `Keyboard`): the
  class `KeyboardManager` with its fields `currentLanguage`, `running`,
  `languageChangeCallback` and `tkRoot`. Its methods `Start`, `Stop` and
  `OnKey` are proved against the pure transitions `AfterStart`, `AfterStop`
  and `AfterKey`. A ghost log records every argument passed to the callback.
- **Player globals** (`app.dfy`, module `App`):
  - main.py's globals `current_language` and `current_loop_proc`, held by the
    class `Kiosk`;
  - the choice of the loop and overlay files;
  - the mpv command lines;
  - `handle_language_change`;
  - `DeliverKey`, which runs one key press through the keyboard manager and
    main.py's callback.

  Starting, terminating and playing mpv processes are recorded as events.

Pin levels and clock readings are inputs to the step functions. Timestamps
are integers, in seconds. The inactivity rule keeps the source's strict `>`
comparison.

## Model

| member | source | states |
|---|---|---|
| `Config.VideosKeys` | 01.DEV/config.py:20-41 | the video table has exactly the keys fr, it, de, en, and the default language is one of them |
| `Config.VideosDistinct` | 01.DEV/config.py:20-37 | no two languages share a loop or an overlay file, and each language's loop and overlay files differ |
| `Trigger.SetupGpio` | 01.DEV/main.py:18-29 | the mode is accepted if and only if it is "button" or "encoder", and each maps to its own loop; any other mode gives the error "Mode inconnu: <mode>" |
| `Trigger.ConfiguredModeIsButton` | 01.DEV/config.py:9 | the configured mode passes the check and selects the button loop |
| `Trigger.EncoderStart` | 01.DEV/main.py:109-111 | the loop starts with count 0, the first CLK reading and the start time |
| `Trigger.InactivityReset` | 01.DEV/main.py:135-137 | the count changes exactly when it is non-zero and `now - lastRotationTime` is strictly above the timeout; it then becomes 0, and CLK and the rotation time are kept |
| `Trigger.EncoderNext` | 01.DEV/main.py:113-137 | with a threshold of at least 1 and a non-negative timeout, one iteration keeps the count in 0..threshold-1; an overlay fires only on a CLK change and leaves the count at 0; after every iteration a non-zero count means the last rotation is within the timeout of `now` |
| `Trigger.ForwardTickCounts` | 01.DEV/main.py:117-132 | a CLK change with DT ≠ CLK adds exactly 1 to the count and stamps `now`, or, when that reaches the threshold, fires and leaves count 0 with the post-overlay time; CLK is recorded either way |
| `Trigger.ReverseTickIgnored` | 01.DEV/main.py:117-122 | a CLK change with DT = CLK leaves the count unchanged, records CLK, stamps `now` and does not fire |
| `Trigger.IdleStepOnlyResets` | 01.DEV/main.py:117-137 | without a CLK change nothing fires and CLK and the rotation time are kept; the count drops to 0 exactly when it is non-zero and the last rotation is strictly older than the timeout, and is otherwise unchanged |
| `Trigger.FiresExactlyAtThreshold` | 01.DEV/main.py:119-130 | an iteration fires if and only if it is a forward tick that brings the count to the threshold |
| `Trigger.RunStaysInRange` | 01.DEV/main.py:109-137 | over any sequence of polls, the counter stays in 0..threshold-1 and is never negative |
| `Trigger.RunKeepsPendingCountFresh` | 01.DEV/main.py:135-137 | after any non-empty sequence of polls, a non-zero count means the last rotation is within the timeout of the last poll's clock reading |
| `Trigger.OverlaysNeedThresholdSamples` | 01.DEV/main.py:117-130 | over any sequence of polls, overlays × threshold + final count ≤ initial count + number of polls: every overlay costs `threshold` polls |
| `Trigger.SteadyTurningCounts` | 01.DEV/main.py:117-137 | over any polls (idle polls and reverse ticks included) where no idle poll comes more than the timeout after the last CLK change while a count is pending, and staying short of the threshold: nothing fires, the count grows by exactly the number of forward ticks, and CLK and the rotation time are the last CLK level and change time |
| `Trigger.SteadyTurningFiresOnce` | 01.DEV/main.py:117-130 | starting from count c, such polls whose last sample is the (threshold − c)-th forward tick fire the overlay exactly once, at that tick, leaving count 0 and the post-overlay time |
| `Trigger.StaleCountCleared` | 01.DEV/main.py:135-137 | a pending count built up by such polls is cleared, without firing, by the first idle poll more than the timeout after the last CLK change |
| `Trigger.TicksBetweenIdlePollsFire` | 01.DEV/main.py:117-139 | with threshold 3 and timeout 3, forward ticks at t = 0, 2, 4 with idle polls at t = 1, 3 fire once |
| `Trigger.ThreeQuickTicksFire` | 01.DEV/main.py:117-137 | with threshold 3 and timeout 3, ticks at t = 0, 1, 2 fire once and reset the count |
| `Trigger.StaleCountIsCleared` | 01.DEV/main.py:135-137 | with threshold 3 and timeout 3: ticks at t = 0 and 1, then an idle poll at t = 5 clears the count, and a tick at t = 6 leaves it at 1 without firing |
| `Trigger.EncoderLoop.constructor` | 01.DEV/main.py:109-111 | the three loop variables start at count 0, the given CLK level and the start time |
| `Trigger.EncoderLoop.Step` | 01.DEV/main.py:114-137 | one in-place pass through the loop body leaves the variables and the fired flag exactly as `EncoderNext` with the configured threshold and timeout |
| `Trigger.EncoderModeLoop` | 01.DEV/main.py:107-139 | the encoder loop over a finite sequence of polls ends in the state and overlay count of `Run`; the counter stays below 90, and overlays × 90 ≤ number of polls |
| `Trigger.ButtonModeLoop` | 01.DEV/main.py:98-105 | the button loop plays one overlay per poll that reads HIGH: the overlays played equal the number of HIGH readings |
| `Keyboard.InitialState` | 01.DEV/keyboard.py:15-19 | the manager starts with the default language (fr), which is in the video table, not running, with no callback and no window |
| `Keyboard.LanguageForKey` | 01.DEV/keyboard.py:21-26 | a key selects a language if and only if it is '1'..'4': '1' selects fr, '2' it, '3' de and '4' en, all in the video table |
| `Keyboard.EachLanguageHasOneKey` | 01.DEV/keyboard.py:21-26 | every language of the video table is selected by exactly one key |
| `Keyboard.LanguageName` | 01.DEV/keyboard.py:86-93 | fr, it, de and en get Français, Italien, Allemand and Anglais; any other code is returned unchanged |
| `Keyboard.LanguageNamesDistinct` | 01.DEV/keyboard.py:86-93 | the four languages have four distinct names, none equal to its code |
| `Keyboard.AfterStart` | 01.DEV/keyboard.py:28-45 | starting while running returns false and changes nothing; otherwise it returns true, registers the callback, sets the running flag and opens the window; the language is never touched |
| `Keyboard.AfterStop` | 01.DEV/keyboard.py:54-59 | after stopping, the manager is not running and has no window, whatever it was before; the language and callback are kept |
| `Keyboard.StopIdempotent` | 01.DEV/keyboard.py:54-59 | stopping twice is the same as stopping once |
| `Keyboard.AfterKey` | 01.DEV/keyboard.py:62-84 | a key press keeps the language in the video table and never changes the callback; the callback is called if and only if the language changes while a callback is registered, and then with the new language |
| `Keyboard.LanguageKeySwitches` | 01.DEV/keyboard.py:66-72 | a key for another language switches to it and changes no other field; the callback, if registered, is called once with that language |
| `Keyboard.ActiveLanguageKeyIsNoOp` | 01.DEV/keyboard.py:66-68 | a key for the active language changes nothing and calls nothing |
| `Keyboard.QuitKeyStops` | 01.DEV/keyboard.py:74-76 | 'q' stops the manager and sends the interrupt |
| `Keyboard.OverlayKeyKeepsState` | 01.DEV/keyboard.py:78-84 | '0' asks for the overlay and leaves every field unchanged |
| `Keyboard.OtherKeysIgnored` | 01.DEV/keyboard.py:66-84 | any key other than '1'..'4', 'q' and '0' changes nothing and calls nothing |
| `Keyboard.CallbackCallsTrackLanguage` | 01.DEV/keyboard.py:66-72 | over any sequence of keys with a callback registered: the language stays in the table; the callback is called at most once per key and never twice in a row with the same language; its first argument differs from the starting language and its last is the active language; no call means no change |
| `Keyboard.KeyboardManager.constructor` | 01.DEV/keyboard.py:15-26 | a new manager has the default language, is not running, and has no callback, no window and no callback calls |
| `Keyboard.KeyboardManager.Start` | 01.DEV/keyboard.py:28-52 | the fields and the result are those of `AfterStart`, and the language stays valid |
| `Keyboard.KeyboardManager.Stop` | 01.DEV/keyboard.py:54-60 | the fields are those of `AfterStop` |
| `Keyboard.KeyboardManager.OnKey` | 01.DEV/keyboard.py:62-84 | the fields and the effect are those of `AfterKey`; the callback log grows by exactly the one argument of a callback call, or not at all |
| `Keyboard.KeyboardManager.GetCurrentLanguage` | 01.DEV/keyboard.py:95-97 | returns the active language, which is in the video table |
| `App.LoopVideo` | 01.DEV/main.py:43 | the loop file of a language is `<root><lang>/loop-video.mp4` and differs from its overlay file |
| `App.OnceVideo` | 01.DEV/main.py:77 | the overlay file of a language is `<root><lang>/video-test.mp4` |
| `App.VideosPerLanguage` | 01.DEV/config.py:20-37 | different languages play different loop files and different overlay files |
| `App.LegacyNamesAreDefault` | 01.DEV/config.py:44-45 | the backward-compatible names are the default language's (fr) loop and overlay files |
| `App.LoopArgs` | 01.DEV/main.py:47-68 | the loop command line as written has 18 arguments: "mpv", the video, then the options |
| `App.IntendedLoopArgs` | 01.DEV/main.py:47-68 | the loop command line with the last three options apart has 20 arguments |
| `App.OverlayArgs` | 01.DEV/main.py:81-93 | the overlay command line as written has 10 arguments |
| `App.IntendedOverlayArgs` | 01.DEV/main.py:81-93 | the overlay command line with the last three options apart has 12 arguments |
| `App.LoopArgsGlueLastOptions` | 01.DEV/main.py:64-66 | the last loop argument as written is the three intended options glued together; none of them reaches mpv as an argument of its own |
| `App.IntendedLoopArgsSeparateOptions` | 01.DEV/main.py:64-66 | the intended loop command line passes each of the three options as its own argument |
| `App.OverlayArgsGlueLastOptions` | 01.DEV/main.py:90-92 | the last overlay argument as written is the filter option and the two closing options glued together; neither closing option reaches mpv |
| `App.IntendedOverlayArgsSeparateOptions` | 01.DEV/main.py:90-92 | the intended overlay command line passes both closing options as arguments of their own |
| `App.RestartEvents` | 01.DEV/main.py:36-70 | restarting the loop terminates the previous loop process, if there is one, and then launches mpv on the new loop video with the loop argument list (intended; as written see `App.LoopArgs`) |
| `App.Kiosk.constructor` | 01.DEV/main.py:14-15 | the globals start with the default language and no loop process |
| `App.Kiosk.StartLoop` | 01.DEV/main.py:31-71 | terminates any previous loop process and starts and returns one looping the current language's loop video, launched with the loop argument list (intended; as written see `App.LoopArgs`); the language is unchanged |
| `App.Kiosk.PlayOverlay` | 01.DEV/main.py:73-96 | plays the current language's overlay file once with the overlay argument list (intended; as written see `App.OverlayArgs`) and changes nothing else |
| `App.Kiosk.HandleLanguageChange` | 01.DEV/main.py:141-149 | sets the global language to the new one, and the relaunched loop plays that language's loop video |
| `App.KeyKeepsAgreement` | 01.DEV/keyboard.py:66-72 | with main.py's callback registered, one key press keeps the manager's language and the global language equal |
| `App.KeysKeepAgreement` | 01.DEV/keyboard.py:62-84 | the same over any sequence of key presses |
| `App.LanguagesAgreeFromStartup` | 01.DEV/main.py:180 | both languages start at the default; once the manager is started with `handle_language_change`, they are equal after every key press |
| `App.ManualOverlayVideo` | 01.DEV/keyboard.py:78-84 | as written, the '0' key plays the default language's overlay file |
| `App.ManualOverlayIgnoresLanguage` | 01.DEV/keyboard.py:80-82 | with English active, the '0' key as written plays an overlay other than the English one |
| `App.DeliverKey` | 01.DEV/keyboard.py:62-84 | a key press updates the manager as `AfterKey` says; a language switch runs `handle_language_change` and leaves the new language's loop process as the current one; '0' keeps the loop process and plays the active language's overlay (intended; as written see `App.ManualOverlayVideo`); other keys leave the player alone; both languages stay equal; the manager's callback log grows by exactly the language passed to the callback, if it was called |

## Left out

- GPIO setup, pin reads and `GPIO.cleanup` are hardware access. Pin levels are inputs of each step, and the pin numbers are not modelled.
- mpv processes are external: `subprocess.Popen`/`run`, `terminate` and the process lifetime are not modelled. The model records "loop launched", "loop terminated" and "overlay played" as events, and a loop process is known only by the video it plays.
- The `time.sleep` calls and the button debounce are timing, not logic, so neither is modelled.
- Clock readings are integer timestamps in seconds, not `time.time()` floats. Lines 118 and 135 of main.py read the clock microseconds apart, and the model gives both one value, `now`, except when the overlay fires: line 135 then reads after line 130, and the model still uses `now`, which cannot matter because the count is then 0. Line 130 reads the clock after the overlay has finished, and the model passes that reading separately.
- `Trigger.EncoderModeLoop`, `Trigger.ButtonModeLoop`: the source loops never end; the model runs them over a finite sequence of polls and returns the overlays played instead of playing them.
- `Trigger.EncoderLoop.Step` uses the settings' threshold (90) and timeout (3). The pure functions and lemmas take both as parameters.
- `Keyboard.KeyboardManager.Start`: the tkinter window and `mainloop` are UI and not modelled. `Start` returns true as soon as the window exists, and key presses arrive as separate `OnKey` calls. In the source, `keyboard.start` blocks main.py until the window closes, so the key handler never interleaves with the polling loops.
- The signal handlers, `os.kill` and `sys.exit` are process-signal plumbing. 'q' stops the manager and reports an interrupt request, and nothing follows from that request.
- The '0' key's dynamic import of `play_overlay`, and its ImportError branch, call into another module. `OnKey` reports an overlay request. `App.ManualOverlayVideo` models which video that import plays, and `App.DeliverKey` plays the active language's overlay.
- The `__main__` demo harness of keyboard.py and the `main()` orchestration are not modelled. Neither are the console messages.
- Inactivity is checked inside the polling loop, after the tick handling (main.py:135-137); there is no separate timer.
- Language keys are not ignored while an overlay plays.
- Reverse ticks leave the count unchanged, because the decrement at main.py:121-122 is commented out.

## Findings

| source | as written | input that shows it | evidently intended | confidence | as-written member | corrected member |
|---|---|---|---|---|---|---|
| 01.DEV/main.py:64-66 | No commas separate the last three string literals of the loop command line, so Python joins them into the single argument "--deinterlace=no--input-default-bindings=no--no-input-terminal". | any loop video, e.g. the French one | three separate options | high, not executed | `App.LoopArgs`, `App.LoopArgsGlueLastOptions` | `App.IntendedLoopArgs`, `App.IntendedLoopArgsSeparateOptions` |
| 01.DEV/main.py:90-92 | The same missing commas join the fade filter option and the two closing options of the overlay command line into one argument. | any overlay video, e.g. the French one | three separate options | high, not executed | `App.OverlayArgs`, `App.OverlayArgsGlueLastOptions` | `App.IntendedOverlayArgs`, `App.IntendedOverlayArgsSeparateOptions` |
| 01.DEV/keyboard.py:80-82 | The '0' key imports `play_overlay` from `main`. main.py runs as the script `__main__`, so this import loads a second copy of main.py whose `current_language` is still the default. | press '4' (English), then '0': the French overlay file plays | play the overlay of the active language | medium (depends on main.py being started as a script), not executed | `App.ManualOverlayVideo`, `App.ManualOverlayIgnoresLanguage` | `App.DeliverKey` |
