# adaptive-time-guru: the Pomodoro engine and its satellites, in Dafny

This project models the core of a React Pomodoro timer with an "adaptive" focus length.

- **Timer engine.** The `TimerProvider` is a mode × status state machine:
  - modes are focus, short break and long break;
  - statuses are idle, running, paused and completed;
  - it keeps a countdown, a count of completed sessions, a distraction counter, a running focus score and a break suggestion;
  - it keeps a history of sessions, newest first, and a set of settings.
- **Task store.** The `TaskProvider` is a list of tasks with add, update, delete, complete, reopen and "one more pomodoro".
- **Voice classifier.** The voice control classifies a lowercased transcript by the first keyword that matches and dispatches it into the engine.
- **Timer controls.** They gate the buttons by status. Their play handler starts the timer and credits the selected task.
- **Timer face.** It shows the MM:SS countdown, the mode title and the session number.
- **History page.** It shows counts, a completion rate and two duration texts.

The engine follows React's update rules, with the exceptions listed under "## Left out" (the equal-value bail-out and the interleaving of timer events):

- a callback reads the state of the render it was created in;
- its setters are applied together afterwards;
- the effects of the next render then run with that render's state. These are the idle resync of lines 157-167 (which depends on mode, status and settings), the countdown at 170-183 (which completes the session at once when running at 0) and the distraction reset at 186-190.

`TimerModel` states each transition as a function from state to state ("batch, then effects"). `TimerEngine.Timer` is the provider as a class with one field per state slot. Each of its methods is proved to implement the corresponding transition. Each callback and event method (`StartTimer`, `PauseTimer`, `ResetTimer`, `SkipTimer`, `LogDistraction`, `UpdateSettings`, `SetMode`, `SetCurrentTaskId`, `Tick`, `FireAutoStart`) also requires and keeps the engine invariant `Inv`. The internal steps they are built from (`RunEffects`, `CommitRender`, `HandleTimerComplete` and its helpers, `SkipBatchUpdate`) state only their transition. The invariant says:

- an idle countdown shows the active mode's configured duration;
- the countdown never rests at 0 while running;
- the focus score lies within 0..100, or is NaN.

These inputs are parameters:

- `crypto.randomUUID`, the clock and the `Math.random` pick of a break suggestion form a `Stamp`;
- the one-second interval and the 500 ms auto-start timeout are the events `Tick` and `FireAutoStart`;
- the stored settings and history are the constructor's arguments.

A zero duration saved through `updateSettings` while idle does reach the countdown. The handler's own setter tests truthiness and skips it (lines 408-413), but the resync effect depends on `settings` (line 168) and reloads it anyway. `TimerProperties.ZeroDurationReloadedByEffect` proves this. The model follows the code here.

## Model

| member | source | states |
|---|---|---|
| Numerics.RoundHalfUp | src/context/TimerContext.tsx:223 | Math.round of an exact quotient: the result r satisfies r - 1/2 <= num/den < r + 1/2 |
| Numerics.FloorDiv | src/components/History/SessionHistory.tsx:9 | Math.floor of a quotient: b·q <= a < b·(q+1), for negative a too |
| Numerics.JsRem | src/components/History/SessionHistory.tsx:10 | JavaScript's `%`: same sign as the dividend, magnitude below the divisor, the Euclidean remainder for a >= 0, and minus the remainder of -a for a < 0 (truncation toward zero) |
| Numerics.RoundHalfUpWithin | src/components/History/SessionHistory.tsx:70 | rounding a quotient that lies between two integers stays between them |
| Numerics.RoundHalfUpMonotone | src/context/TimerContext.tsx:223 | rounding is monotone in the numerator |
| Decimal.NatToString | src/components/Timer/TimerDisplay.tsx:31 | `toString` of a non-negative integer: at least one digit, all digits, one digit exactly below 10, at most two below 100, no leading zero |
| Decimal.IntToString | src/components/History/SessionHistory.tsx:11 | `toString` of an integer: the digits of a non-negative number, or '-' followed by the digits of its magnitude |
| Decimal.ParseNatToString | src/components/Timer/TimerDisplay.tsx:31 | the decimal text of n reads back as n |
| Decimal.PadStart | src/components/Timer/TimerDisplay.tsx:31 | `padStart`: length max(width, &#124;s&#124;), fill characters followed by the original text |
| Decimal.ParseNatZeros | src/components/Timer/TimerDisplay.tsx:31 | leading zeros change neither digit-ness nor value |
| Decimal.ParsePadStartZero | src/components/Timer/TimerDisplay.tsx:31 | a zero-padded number has at least two digits, exactly two below 100, and reads back as the number |
| TimerModel.FocusScore | src/context/TimerContext.tsx:221-232 | calculateFocusScore; no contract of its own: TimerProperties.FocusScoreInRange and FocusScoreAlwaysInRange bound it to 0..100 (or NaN), FocusScoreMonotone orders it, CompletedScore gives the completed value |
| TimerModel.TimerComplete | src/context/TimerContext.tsx:235-339 | handleTimerComplete; no contract of its own: TimerProperties.NaturalFocusCompletion, NaturalBreakCompletion and NaturalCompletionNextMode state the record, count, score, next mode and adapted settings |
| TimerModel.Start | src/context/TimerContext.tsx:342-344 | startTimer; no contract of its own: TimerProperties.StartRuns and StartWhileRunning |
| TimerModel.Pause | src/context/TimerContext.tsx:346-353 | pauseTimer; no contract of its own: TimerProperties.PauseCountsResumeErases and PauseOtherwise |
| TimerModel.Reset | src/context/TimerContext.tsx:355-365 | resetTimer; no contract of its own: TimerProperties.ResetReloads |
| TimerModel.Skip | src/context/TimerContext.tsx:367-400 | skipTimer; no contract of its own: TimerProperties.SkipFocusSession, SkipBreak and SkipNextMode |
| TimerModel.UpdateSettings | src/context/TimerContext.tsx:403-416 | updateSettings; no contract of its own: TimerProperties.UpdateSettingsEffect and ZeroDurationReloadedByEffect |
| TimerModel.Tick | src/context/TimerContext.tsx:170-183 | one interval tick; no contract of its own: TimerProperties.TickCountsDown, TickCompletesAtZero and TickOnlyWhileRunning |
| TimerModel.FireAutoStart | src/context/TimerContext.tsx:286-288 | the deferred auto-start; no contract of its own: TimerProperties.AutoStartedBreakEndsAtOnce and ResetRacesAutoStart |
| TimerModel.Settle | src/context/TimerContext.tsx:157-190 | the effect round without completion; no contract of its own: TimerProperties.CommitInv |
| TimerModel.Commit | src/context/TimerContext.tsx:157-190 | the effect round of a render, completing at 0; no contract of its own: TimerProperties.CommitInv |
| TimerModel.MergeSettings | src/context/TimerContext.tsx:404 | the settings spread; no contract of its own: TimerProperties.MergeSettingsLaws |
| TimerModel.AdaptedFocusDuration | src/context/TimerContext.tsx:307-337 | the adaptive focus length; no contract of its own: TimerProperties.AdaptiveBranches, AdaptiveKeepsRange and AdaptiveDirection |
| TimerModel.Progress | src/context/TimerContext.tsx:146-154 | progress(); no contract of its own: TimerProperties.ProgressAfterTicks |
| TimerModel.Inv | src/context/TimerContext.tsx:157-183 | the engine invariant; TimerProperties.InitialInv, CommitInv and StepInv prove it holds initially and after every event |
| TimerProperties.FocusScoreInRange | src/context/TimerContext.tsx:221-232 | for 0 <= elapsed <= total the score is a number within 0..100 |
| TimerProperties.FocusScoreAlwaysInRange | src/context/TimerContext.tsx:221-232 | for any elapsed time up to the total, the score is NaN or within 0..100 |
| TimerProperties.FocusScoreMonotone | src/context/TimerContext.tsx:221-232 | more distractions never raise the score; more elapsed time never lowers it |
| TimerProperties.CompletedScore | src/context/TimerContext.tsx:223-229 | a completed session scores max(0, 100 - 5·distractions), so 100 without distractions |
| TimerProperties.InitialInv | src/context/TimerContext.tsx:130-143 | the first render satisfies the engine invariant |
| TimerProperties.CommitInv | src/context/TimerContext.tsx:157-190 | the effect round of any render leaves a state satisfying the invariant |
| TimerProperties.StepInv | src/context/TimerContext.tsx:157-416 | every event (each callback, a tick, a deferred auto-start) preserves the invariant |
| TimerProperties.IdleShowsConfiguredDuration | src/context/TimerContext.tsx:157-167 | after any event, an idle engine shows the active mode's configured duration |
| TimerProperties.TickCountsDown | src/context/TimerContext.tsx:173-176 | running with more than one second left, a tick takes off exactly one second and changes nothing else |
| TimerProperties.TickCompletesAtZero | src/context/TimerContext.tsx:177-180 | the tick that reaches 0 completes the session in the same step and leaves the engine not running |
| TimerProperties.TickOnlyWhileRunning | src/context/TimerContext.tsx:170-183 | in no other state does a tick change anything |
| TimerProperties.TicksCountDown | src/context/TimerContext.tsx:173-176 | n ticks from a running countdown with more than n left take off exactly n seconds |
| TimerProperties.TicksComplete | src/context/TimerContext.tsx:170-183 | running down the whole remaining time ends in the session's completion |
| TimerProperties.ProgressAfterTicks | src/context/TimerContext.tsx:146-154 | after n of D seconds, progress is n/D·100 |
| TimerProperties.DefaultCycleScenario | src/context/TimerContext.tsx:79-89 | with default settings, a started focus session that ticks through 25 minutes ends in an idle 5-minute short break with one more session counted |
| TimerProperties.NaturalFocusCompletion | src/context/TimerContext.tsx:256-275 | a focus session that runs out prepends exactly one completed session of the full duration with the distraction count, counts it, makes its score the running one and picks a suggestion |
| TimerProperties.NaturalBreakCompletion | src/context/TimerContext.tsx:292-304 | a break that runs out records nothing, keeps settings and score, and returns to focus |
| TimerProperties.NaturalCompletionNextMode | src/context/TimerContext.tsx:278-294 | after a natural completion: long break iff focus and (sessionsCompleted+1) is a multiple of a non-zero interval; focus iff the finished mode was a break |
| TimerProperties.SkipNextMode | src/context/TimerContext.tsx:387-396 | after a skip: long break iff focus and sessionsCompleted is a multiple of a non-zero interval; focus iff a break was skipped |
| TimerProperties.CadenceAsymmetry | src/context/TimerContext.tsx:278 | with interval 4, completing the fourth session leads to a long break but skipping it to a short one; skipping before any completion leads to a long break |
| TimerProperties.CompletionWithoutAutoStartEndsIdle | src/context/TimerContext.tsx:248-304 | without auto-start, a completion ends idle with the next mode's duration loaded and nothing scheduled |
| TimerProperties.AutoStartedBreakEndsAtOnce | src/context/TimerContext.tsx:285-288 | with auto-start a completion rests at `completed` with 0 left and one deferred start; when that start fires the break completes at once and the engine is back in an idle focus period |
| TimerProperties.ResetRacesAutoStart | src/context/TimerContext.tsx:286-288 | a reset during the auto-start delay goes idle, and the start that fires afterwards runs the mode's full duration |
| TimerProperties.SkipFocusSession | src/context/TimerContext.tsx:367-400 | skipping focus prepends one incomplete session of the elapsed time with its score, keeps sessionsCompleted and settings, and ends idle with distractions cleared and the next duration loaded |
| TimerProperties.SkipBreak | src/context/TimerContext.tsx:394-399 | skipping a break records nothing and returns to an idle focus countdown |
| TimerProperties.ResetReloads | src/context/TimerContext.tsx:355-365 | reset reloads the active duration, goes idle, clears distractions and keeps everything else, history included |
| TimerProperties.StartRuns | src/context/TimerContext.tsx:342-344 | starting from idle or paused runs the same countdown; a focus session's distractions are cleared by the effect at 186-190 |
| TimerProperties.StartWhileRunning | src/context/TimerContext.tsx:342-344 | starting while running changes nothing |
| TimerProperties.LogDistractionApplies | src/context/TimerContext.tsx:202-218 | a distraction is logged iff a focus session is running; it adds one and takes 5 points (not below 0), keeping the score in range |
| TimerProperties.PauseCountsResumeErases | src/context/TimerContext.tsx:346-353 | pausing a running focus session counts a distraction; resuming it sets the count back to 0 with the countdown unchanged |
| TimerProperties.PauseOtherwise | src/context/TimerContext.tsx:346-353 | pausing anything but a running focus session only changes the status |
| TimerProperties.MergeSettingsLaws | src/context/TimerContext.tsx:404 | an empty patch changes nothing; a patch applied twice acts once; a supplied key wins |
| TimerProperties.UpdateSettingsEffect | src/context/TimerContext.tsx:403-416 | updateSettings merges the patch, and only an idle countdown follows the new duration |
| TimerProperties.HandlerReloadAgrees | src/context/TimerContext.tsx:408-414 | when the handler's own setter fires it writes what the resync effect writes |
| TimerProperties.ZeroDurationReloadedByEffect | src/context/TimerContext.tsx:157-168 | a zero duration fails the handler's truthiness test, yet the idle countdown becomes 0 |
| TimerProperties.QuotientCompare | src/context/TimerContext.tsx:314-316 | comparing the exact mean with an integer is comparing the total with a multiple |
| TimerProperties.MeanComparisons | src/context/TimerContext.tsx:313-326 | mean > 5 iff total > 5n; mean < 1 iff the sample is empty or total < n |
| TimerProperties.AdaptiveBranches | src/context/TimerContext.tsx:316-336 | the heuristic is max(900, fd-300) above a mean of 5, min(2700, fd+300) below 1 when fd < 2700, otherwise fd |
| TimerProperties.AdaptiveKeepsRange | src/context/TimerContext.tsx:316-336 | a focus length within 15..45 minutes stays there and moves by at most 5 minutes |
| TimerProperties.AdaptiveDirection | src/context/TimerContext.tsx:316-336 | from 15 minutes up, a shorter length means a distracted sample and a longer one an attentive sample |
| TimerProperties.DistractedShortFocusIsLengthened | src/context/TimerContext.tsx:318 | below 15 minutes the "shorter" branch lengthens the focus period to 15 minutes |
| TimerProperties.UniformTotal | src/context/TimerContext.tsx:313 | sessions that each report d distractions total d per session |
| TimerProperties.AdaptiveExamples | src/context/TimerContext.tsx:310-336 | five sessions of 6 distractions take 1500 s to 1200 s; calm ones or an empty history take it to 1800 s |
| TimerProperties.AdaptiveSamplesPriorHistory | src/context/TimerContext.tsx:307-337 | the heuristic samples the first five entries of the history before the new record, and runs only for a finished focus session with adaptive timers on |
| TimerEngine.Timer.constructor | src/context/TimerContext.tsx:128-143 | the provider mounts in an idle focus period with the stored or default settings and history, satisfying the invariant |
| TimerEngine.Timer.RunEffects | src/context/TimerContext.tsx:157-190 | the effect round without a completion (`Settle`) |
| TimerEngine.Timer.CommitRender | src/context/TimerContext.tsx:157-190 | the effect round of a render, with the countdown effect completing a session at 0 (`Commit`) |
| TimerEngine.Timer.HandleTimerComplete | src/context/TimerContext.tsx:235-339 | handleTimerComplete implements `TimerComplete` |
| TimerEngine.Timer.CompleteFocus | src/context/TimerContext.tsx:248-337 | a finished focus session: record, count, score, suggestion, next mode and adaptive length, as `TimerComplete` |
| TimerEngine.Timer.CompleteBreak | src/context/TimerContext.tsx:292-304 | a finished break returns to focus, as `TimerComplete` |
| TimerEngine.Timer.EnterNext | src/context/TimerContext.tsx:280-304 | `completed`, then `idle` in the same batch, or a deferred start |
| TimerEngine.Timer.AdaptFocusPeriod | src/context/TimerContext.tsx:316-336 | the settings take the adapted focus length and nothing else changes |
| TimerEngine.Timer.CountDistraction | src/context/TimerContext.tsx:202-218 | logDistraction as the closure of a given render runs it |
| TimerEngine.Timer.StartTimer | src/context/TimerContext.tsx:342-344 | implements `Start` and keeps the invariant |
| TimerEngine.Timer.PauseTimer | src/context/TimerContext.tsx:346-353 | implements `Pause` and keeps the invariant |
| TimerEngine.Timer.ResetTimer | src/context/TimerContext.tsx:355-365 | implements `Reset` and keeps the invariant |
| TimerEngine.Timer.SkipTimer | src/context/TimerContext.tsx:367-400 | implements `Skip` and keeps the invariant |
| TimerEngine.Timer.SkipBatchUpdate | src/context/TimerContext.tsx:369-399 | skipTimer's setters, as `SkipBatch` |
| TimerEngine.Timer.LogDistraction | src/context/TimerContext.tsx:202-218 | implements `LogDistraction` and keeps the invariant |
| TimerEngine.Timer.UpdateSettings | src/context/TimerContext.tsx:403-416 | implements `UpdateSettings` and keeps the invariant |
| TimerEngine.Timer.SetMode | src/context/TimerContext.tsx:133 | the raw mode setter followed by its effects, keeping the invariant |
| TimerEngine.Timer.SetCurrentTaskId | src/context/TimerContext.tsx:137 | the raw task setter, keeping the invariant |
| TimerEngine.Timer.Tick | src/context/TimerContext.tsx:173-176 | one firing of the interval, as `Tick`, keeping the invariant |
| TimerEngine.Timer.FireAutoStart | src/context/TimerContext.tsx:286-288 | one deferred `setStatus('running')`, as `FireAutoStart`, keeping the invariant |
| TaskStore.MapMatching | src/context/TaskContext.tsx:44-48 | `map` that rewrites the tasks with the id: same length, matched tasks rewritten, all others identical |
| TaskStore.AddTask | src/context/TaskContext.tsx:31-41 | one task prepended with the given id and time, not completed, the draft's fields, and 0 pomodoros unless supplied; the old list is the tail |
| TaskStore.UpdateTask | src/context/TaskContext.tsx:43-49 | every task with the id gets the patch merged in; every other task is identical; length kept |
| TaskStore.DeleteTask | src/context/TaskContext.tsx:51-53 | no task with the id remains, every other task remains, nothing new appears |
| TaskStore.CompleteTask | src/context/TaskContext.tsx:55-63 | matching tasks become completed at the given time; every other task is identical; ids and order kept |
| TaskStore.UncompleteTask | src/context/TaskContext.tsx:65-73 | matching tasks become open with no completion time; every other task is identical; ids and order kept |
| TaskStore.IncrementTaskPomodoro | src/context/TaskContext.tsx:75-86 | matching tasks get (count or 0) + 1 pomodoros and no other change; ids and order kept |
| TaskStore.AbsentIdChangesNothing | src/context/TaskContext.tsx:43-86 | with an id no task carries, update, delete, complete, reopen and increment return the list unchanged |
| TaskStore.Merge | src/context/TaskContext.tsx:46 | the task/update spread; no contract of its own: TaskStore.MergeLaws |
| TaskStore.MergeLaws | src/context/TaskContext.tsx:46 | an empty patch changes nothing; merging a patch twice is merging it once |
| TaskStore.UpdateTaskIdempotent | src/context/TaskContext.tsx:43-49 | updating twice with a patch that keeps the id is updating once |
| TaskStore.DeleteTaskConcat | src/context/TaskContext.tsx:52 | deletion works piece by piece, so the remaining tasks keep their relative order |
| TaskStore.DeleteTaskLength | src/context/TaskContext.tsx:52 | deletion removes exactly as many tasks as carry the id |
| TaskStore.DeleteTaskIdempotent | src/context/TaskContext.tsx:51-53 | deleting again removes nothing more |
| TaskStore.CompletionRoundTrip | src/context/TaskContext.tsx:55-73 | reopening after completing equals reopening; completing twice keeps the later time |
| TaskStore.UncompleteUndoesComplete | src/context/TaskContext.tsx:55-73 | for open tasks without a completion time, complete then reopen restores the list |
| TaskStore.IncrementAddsOccurrences | src/context/TaskContext.tsx:75-86 | each increment adds one pomodoro per task that carries the id to the list's total |
| VoiceControl.Lower | src/components/Voice/VoiceControl.tsx:46 | lowercasing keeps the length, maps each character, and leaves no upper-case letter |
| VoiceControl.LowerIdempotent | src/components/Voice/VoiceControl.tsx:46 | lowercasing twice is lowercasing once |
| VoiceControl.Classify | src/components/Voice/VoiceControl.tsx:84-155 | processCommand's keyword chain; no contract of its own: VoiceControl.ClassifyIsFirstMatch equates it with the first matching rule of the keyword table |
| VoiceControl.Heard | src/components/Voice/VoiceControl.tsx:46 | the lowercased transcript classified; no contract of its own: VoiceControl.HeardIgnoresCase |
| VoiceControl.Apply | src/components/Voice/VoiceControl.tsx:84-155 | a command dispatched into the engine; no contract of its own: VoiceControl.ApplyKeepsInv and SoundToggleChangesOnlySound |
| VoiceControl.StaleApply | src/components/Voice/VoiceControl.tsx:28-81 | a command through the mount-time callbacks; no contract of its own: VoiceControl.StaleApplyWhileCurrent, StaleResetLoadsMountedDuration and StalePauseCountsNoDistraction |
| VoiceControl.FirstMatching | src/components/Voice/VoiceControl.tsx:84-155 | the index of a matching rule with no matching rule before it, or none when no rule matches |
| VoiceControl.MatchesRules | src/components/Voice/VoiceControl.tsx:86-147 | each rule of the keyword table matches exactly on its phrases |
| VoiceControl.ClassifyIsFirstMatch | src/components/Voice/VoiceControl.tsx:84-155 | the if/else chain is first-match over the keyword table in source order, so one transcript yields at most one command |
| VoiceControl.StartKeywordsWin | src/components/Voice/VoiceControl.tsx:86 | a transcript with "start", "begin" or "go" starts the timer whatever else it says |
| VoiceControl.SoundStopPhrasesHitTimer | src/components/Voice/VoiceControl.tsx:92 | "stop sound" and "pause sound" are caught by the timer keywords first |
| VoiceControl.PauseSoundUnreachable | src/components/Voice/VoiceControl.tsx:147-153 | the pause-sound branch is never taken |
| VoiceControl.StartSoundStartsTimer | src/components/Voice/VoiceControl.tsx:140 | "start sound" starts the timer; the play-sound command requires "play sound" |
| VoiceControl.SoundToggles | src/components/Voice/VoiceControl.tsx:128-139 | enable and disable fire exactly on their phrases when no earlier keyword matches, both directions |
| VoiceControl.NoKeywordNoAction | src/components/Voice/VoiceControl.tsx:84-155 | no command iff none of the phrases occurs |
| VoiceControl.HeardIgnoresCase | src/components/Voice/VoiceControl.tsx:46 | transcripts equal up to ASCII case are classified alike |
| VoiceControl.ApplyKeepsInv | src/components/Voice/VoiceControl.tsx:84-155 | every dispatched command keeps the engine invariant |
| VoiceControl.SoundToggleChangesOnlySound | src/components/Voice/VoiceControl.tsx:128-139 | a sound toggle sets the sound switch and changes nothing else |
| VoiceControl.ProcessCommand | src/components/Voice/VoiceControl.tsx:84-155 | dispatch through the current callbacks: unrecognised text leaves the engine unchanged, a command applies its transition, and the invariant holds |
| VoiceControl.StaleApplyWhileCurrent | src/components/Voice/VoiceControl.tsx:28-81 | while the state has not changed since the handler was installed, the installed handler acts as the current callbacks do |
| VoiceControl.StaleResetLoadsMountedDuration | src/components/Voice/VoiceControl.tsx:28-81 | the installed handler's "reset" in an idle short break loads 25:00 and breaks the invariant; the current callbacks keep it |
| VoiceControl.StalePauseCountsNoDistraction | src/components/Voice/VoiceControl.tsx:28-81 | the installed handler's "pause" of a running focus session counts no distraction, where the current callback counts one |
| TimerControls.Controls | src/components/Timer/TimerControls.tsx:42-154 | mode buttons enabled iff idle or completed; picker shown iff focus and disabled iff running or paused; pause shown iff running; play disabled iff completed; reset disabled iff idle; skip disabled iff completed; picker shows the task id or "none" |
| TimerControls.ResetDisabledExactlyWhenIdle | src/components/Timer/TimerControls.tsx:141 | reset is disabled exactly when resetting would at most clear the distraction counter |
| TimerControls.AvailableTasks | src/components/Timer/TimerControls.tsx:32 | exactly the non-completed tasks are offered |
| TimerControls.AvailableTasksConcat | src/components/Timer/TimerControls.tsx:32 | the offered tasks keep the list's order |
| TimerControls.AllOpenAllOffered | src/components/Timer/TimerControls.tsx:32 | with no completed task, every task is offered |
| TimerControls.PomodoroTarget | src/components/Timer/TimerControls.tsx:37 | play credits a task iff the mode is focus and the selected id is non-empty, and then it is that id |
| TimerControls.TasksAfterPlay | src/components/Timer/TimerControls.tsx:34-40 | play keeps ids and order, changes nothing without a target, and otherwise is exactly incrementTaskPomodoro of the selected task id, which credits one pomodoro to each task with that id and leaves every other task as it was |
| TimerControls.NoTaskSelectedCreditsNothing | src/components/Timer/TimerControls.tsx:90-98 | "No task selected" stores "none"; with no task of that id, play credits nothing |
| TimerControls.ResumeCreditsAgain | src/components/Timer/TimerControls.tsx:34-40 | pausing and resuming a focus session credits its task a second time |
| TimerControls.HandleStartTimer | src/components/Timer/TimerControls.tsx:34-40 | starts the timer and returns the task list with the pomodoro credited, as the snapshot before the click decides |
| TimerDisplay.Padded | src/components/Timer/TimerDisplay.tsx:31 | a padded field has at least two digits, exactly two below 100, and reads back as its number |
| TimerDisplay.Join | src/components/Timer/TimerDisplay.tsx:31 | the colon is third from the end, with the minutes before it and the two-digit seconds after it |
| TimerDisplay.FormatTime | src/components/Timer/TimerDisplay.tsx:28-32 | formatTime; no contract of its own: TimerDisplay.FormatTimeShape, FormatTimeRoundTrip and FormatTimeInjective |
| TimerDisplay.ModeTitle | src/components/Timer/TimerDisplay.tsx:55-66 | getModeTitle; no contract of its own: TimerDisplay.ModeTitleInjective |
| TimerDisplay.FormatTimeShape | src/components/Timer/TimerDisplay.tsx:28-32 | digits, a colon and a seconds field below 60; below 6000 s exactly 5 characters with ':' at index 2 |
| TimerDisplay.FormatTimeRoundTrip | src/components/Timer/TimerDisplay.tsx:28-32 | reading MM·60 + SS back gives the shown time |
| TimerDisplay.ReadJoin | src/components/Timer/TimerDisplay.tsx:31 | joined digit fields read back as minutes·60 + seconds |
| TimerDisplay.FormatTimeInjective | src/components/Timer/TimerDisplay.tsx:28-32 | different times show different texts |
| TimerDisplay.ModeTitleInjective | src/components/Timer/TimerDisplay.tsx:55-66 | each mode has its own title |
| TimerDisplay.SessionNumber | src/components/Timer/TimerDisplay.tsx:78 | the displayed session number is at least 1 |
| TimerDisplay.SessionLabel | src/components/Timer/TimerDisplay.tsx:77-79 | "Session: " followed by digits that read back as sessionsCompleted + 1 |
| SessionHistory.FormatDuration | src/components/History/SessionHistory.tsx:8-12 | formatDuration; no contract of its own: SessionHistory.FormatDurationNonNegative, FormatDurationInjective and NegativeDurationText |
| SessionHistory.FormatTotalTime | src/components/History/SessionHistory.tsx:72-81 | formatTotalTime; no contract of its own: SessionHistory.FormatTotalTimeShape and TotalTimeParts |
| SessionHistory.TotalSessions | src/components/History/SessionHistory.tsx:67 | the session count; no contract of its own: SessionHistory.CountsOfPrepend |
| SessionHistory.TotalFocusTime | src/components/History/SessionHistory.tsx:69 | the summed durations; no contract of its own: SessionHistory.CountsOfPrepend and TotalFocusTimeNonNegative |
| SessionHistory.FormatDurationNonNegative | src/components/History/SessionHistory.tsx:8-12 | for s >= 0 the text is the whole minutes, "m ", the seconds below 60 and "s" |
| SessionHistory.DigitRunUnique | src/components/History/SessionHistory.tsx:11 | a digit run ends at the first non-digit, so equal texts split alike |
| SessionHistory.DurationFieldsUnique | src/components/History/SessionHistory.tsx:11 | a "Mm Ss" text determines both of its fields |
| SessionHistory.FormatDurationInjective | src/components/History/SessionHistory.tsx:8-12 | different non-negative durations are shown differently |
| SessionHistory.NegativeDurationText | src/components/History/SessionHistory.tsx:8-12 | -30 s is shown as "-1m -30s" (floor division, truncating remainder) |
| SessionHistory.TotalTimeParts | src/components/History/SessionHistory.tsx:72-74 | for s >= 0: whole hours, minutes below 60 left over, h·3600 + m·60 <= s < that + 60, and hours > 0 iff s >= 3600 |
| SessionHistory.FormatTotalTimeShape | src/components/History/SessionHistory.tsx:72-81 | "Hh Mm" from an hour on, "Mm" below, the minutes part below 60 |
| SessionHistory.CompletedSessions | src/components/History/SessionHistory.tsx:67-68 | completed sessions never exceed the total |
| SessionHistory.CompletionRate | src/components/History/SessionHistory.tsx:70 | within 0..100, and for a non-empty history the nearest integer to 100·completed/total (halves up) |
| SessionHistory.CountsOfPrepend | src/components/History/SessionHistory.tsx:67-69 | a new record adds one session, one completed session when completed, and its duration |
| SessionHistory.CompletionRateExtremes | src/components/History/SessionHistory.tsx:70 | 100 when every session was completed, 0 when none was |
| SessionHistory.TotalFocusTimeNonNegative | src/components/History/SessionHistory.tsx:69 | with no negative duration recorded, the total is not negative |
| SessionHistory.FocusCompletionStatistics | src/context/TimerContext.tsx:256-275 | a natural focus completion adds one completed session and a whole focus period to the summary |
| SessionHistory.FocusSkipStatistics | src/context/TimerContext.tsx:367-384 | a focus skip adds one incomplete session and the elapsed time |
| SessionHistory.ShortenedSkipRecordsNegativeDuration | src/context/TimerContext.tsx:376 | lowering the focus length below the time left while running and then skipping records -1340 s, shown as "-23m -20s" |

## Left out

- Notification sound, toasts and console messages: side effects with no state.
- Ids, dates and the suggestion pick: the values of `crypto.randomUUID`, `new Date().toISOString()` and `Math.random` are parameters (`Stamp`, `id`, `now`).
- Real time: the one-second interval and the 500 ms auto-start delay are discrete events. The engine does not model when they fire, or any interleaving with other callbacks beyond what those events give.
- The React bail-out that skips a render when a setter stores an equal value is not modelled. It cannot change a state.
- The `useLocalStorage` hook is not part of this model. Its setter is taken to apply a functional update such as `setSettings(prev => ...)` (TimerContext.tsx line 404) to the current value, as React's own setter does. The sound commands' update therefore stays current even through the stale voice handler.
- Persistence: `useLocalStorage` reads are the constructor's arguments (settings, history) or the incoming task list; writes are not modelled.
- Floating point: `progress` is an exact `real`. `Math.round` of a quotient is exact round-half-up on rationals, so binary rounding of `elapsed / total * 70` and `completed / total * 100` is not modelled.
- Durations are naturals: the settings form only offers positive minutes. Its ×60 conversion (the Settings page) is not part of this model.
- TimerModel.FocusScore: 0/0 is NaN, and a negative quotient over a zero total is floored to 0. Other non-finite values cannot arise from the callers.
- The exposed `getBreakSuggestion` callback is modelled only as part of completion and skip: no consumer calls it on its own.
- The `handleTimerComplete` callback (a `useCallback`) reads `sessionHistory`, which is missing from its dependency list (line 339); the model does not treat this read as stale. History only changes together with `mode`, which is a dependency, so the callback is fresh whenever it runs.
- TaskStore.AddTask: a draft key present with the value `undefined` is not distinguished from an absent key. The spread would store `undefined` over the default 0 pomodoros. Patches do distinguish the two, using `Option<Option<T>>`.
- The TaskProvider's and TimerProvider's "used outside a provider" errors are not modelled.
- VoiceControl.Lower: only ASCII letters are lowercased; JavaScript's Unicode case mapping is not modelled.
- Speech recognition: the API setup, interim results, `isListening`, the transcript display state and the browser-support check are left out. Each recognised transcript is one `ProcessCommand` call.
- The play-sound and pause-sound window events go to the sound player, which is not part of this model; they leave the engine unchanged.
- The timer face: the 50 ms `displayTime` smoothing, colours, the SVG ring geometry (`Math.PI`) and getModeTitle's default branch. The default branch is unreachable for the three modes.
- The history page: date grouping, `formatDate`, `formatDateGroup`, the daily average (which divides by the number of dates) and the task-title lookup.

## Findings

| source | as written | input that shows it | evidently intended | confidence | as-written member | corrected member |
|---|---|---|---|---|---|---|
| src/components/Voice/VoiceControl.tsx:28-81 | the recognition handler is installed once by an effect with no dependencies, so it calls the first render's `processCommand` and, through it, the pause, reset and skip callbacks of the provider state at that time | mount in an idle focus period, switch to a short break, say "reset": the idle short break shows 25:00 instead of 05:00 and no effect corrects it; say "pause" during a running focus session: no distraction is counted | each recognised command acts through the provider's current callbacks | not executed | VoiceControl.StaleApply (shown by VoiceControl.StaleResetLoadsMountedDuration and VoiceControl.StalePauseCountsNoDistraction) | VoiceControl.ProcessCommand (with VoiceControl.Apply and VoiceControl.ApplyKeepsInv) |
