/**
 * The TimerProvider as an object: one field per state slot, one method per callback the
 * provider exposes, plus the two scheduler events (the one-second interval and a deferred
 * auto-start). Each callback reads the pre-call state (kept in locals, the way the closure
 * sees its render), issues its setters, and then the effects of the next render run.
 * Every method is specified by the transition function of TimerModel it implements.
 */
module TimerEngine {
  import opened Wrappers
  import opened TimerModel
  import opened TimerProperties

  class Timer {
    var mode: Mode
    var status: Status
    var timeRemaining: nat
    var sessionsCompleted: nat
    var currentTaskId: Option<string>
    var distractionCount: nat
    var focusScore: Score
    var breakSuggestion: Option<BreakSuggestion>
    var settings: Settings
    var sessionHistory: seq<Session>
    /** Deferred `setStatus('running')` calls scheduled by auto-starts and not yet fired. */
    var pendingAutoStarts: nat

    function Snapshot(): State
      reads this
    {
      State(mode, status, timeRemaining, sessionsCompleted, currentTaskId, distractionCount,
            focusScore, breakSuggestion, settings, sessionHistory, pendingAutoStarts)
    }

    ghost predicate Valid()
      reads this
    {
      Inv(Snapshot())
    }

    /** The provider mounts with the stored settings and history, or the defaults when none are stored. */
    constructor (stored: Option<Settings>, storedHistory: Option<seq<Session>>)
      ensures Snapshot() == Initial(stored, storedHistory)
      ensures Valid()
    {
      var s := stored.GetOr(DefaultSettings);
      settings := s;
      mode, status := Focus, Idle;
      timeRemaining := s.focusDuration;
      sessionsCompleted := 0;
      currentTaskId := None;
      distractionCount := 0;
      focusScore := Points(100);
      breakSuggestion := None;
      sessionHistory := storedHistory.GetOr([]);
      pendingAutoStarts := 0;
      InitialInv(stored, storedHistory);
    }

    // ------------------------------------------------------------ effects

    /** The idle-resync and distraction-reset effects of the render that follows a batch. */
    method RunEffects(prevMode: Mode, prevStatus: Status)
      modifies this
      ensures Snapshot() == Settle(prevMode, prevStatus, old(Snapshot()))
    {
      var entered := (mode != prevMode || status != prevStatus) && mode == Focus && status == Running;
      if status == Idle {
        timeRemaining := Duration(settings, mode);
      }
      if entered {
        distractionCount := 0;
      }
    }

    /** The render after a batch that may leave the countdown running at 0: it completes at once. */
    method CommitRender(prevMode: Mode, prevStatus: Status, stamp: Stamp)
      modifies this
      ensures Snapshot() == Commit(prevMode, prevStatus, old(Snapshot()), stamp)
    {
      if status == Running && timeRemaining == 0 {
        var entered := (mode != prevMode || status != prevStatus) && mode == Focus;
        HandleTimerComplete(stamp);
        if status == Idle {
          timeRemaining := Duration(settings, mode);
        }
        if entered {
          distractionCount := 0;
        }
      } else {
        RunEffects(prevMode, prevStatus);
      }
    }

    /** handleTimerComplete, called by the countdown effect. */
    method HandleTimerComplete(stamp: Stamp)
      modifies this
      ensures Snapshot() == TimerComplete(old(Snapshot()), stamp)
    {
      if mode == Focus {
        CompleteFocus(stamp);
      } else {
        CompleteBreak(stamp);
      }
    }

    /** A finished focus session: record it, score it, move to a break and adapt the focus period. */
    method CompleteFocus(stamp: Stamp)
      requires mode == Focus
      modifies this
      ensures Snapshot() == TimerComplete(old(Snapshot()), stamp)
    {
      var s, sc, dc := settings, sessionsCompleted, distractionCount;
      var recent := RecentSessions(sessionHistory);
      breakSuggestion := Some(BreakSuggestions[stamp.pick]);
      var score := FocusScore(true, s.focusDuration, s.focusDuration, dc);
      var session := Session(stamp.id, stamp.date, Focus, s.focusDuration, true,
                             currentTaskId, Some(dc), Some(score));
      sessionHistory := [session] + sessionHistory;
      sessionsCompleted := sc + 1;
      focusScore := score;
      EnterNext(if IsLongBreakDue(sc + 1, s.longBreakInterval) then LongBreak else ShortBreak,
                s.autoStartBreaks);
      if s.adaptiveTimers {
        AdaptFocusPeriod(recent);
      }
    }

    /** A finished break: back to focus, started at once or left idle. */
    method CompleteBreak(stamp: Stamp)
      requires mode != Focus
      modifies this
      ensures Snapshot() == TimerComplete(old(Snapshot()), stamp)
    {
      EnterNext(Focus, settings.autoStartPomodoros);
    }

    /**
     * `completed`, then `idle` in the same batch unless the next session starts by itself,
     * in which case a start is scheduled.
     */
    method EnterNext(next: Mode, autoStart: bool)
      modifies this
      ensures Snapshot() == old(Snapshot()).(
        mode := next,
        status := if autoStart then Completed else Idle,
        pendingAutoStarts := if autoStart then old(pendingAutoStarts) + 1 else old(pendingAutoStarts))
    {
      status := Completed;
      mode := next;
      if autoStart {
        pendingAutoStarts := pendingAutoStarts + 1;
      } else {
        status := Idle;
      }
    }

    /** The adaptive heuristic over the given recent sessions; the settings are replaced only on a change. */
    method AdaptFocusPeriod(recent: seq<Session>)
      modifies this
      ensures Snapshot() == old(Snapshot()).(
        settings := old(settings).(focusDuration := AdaptedFocusDuration(recent, old(settings).focusDuration)))
    {
      var fd := AdaptedFocusDuration(recent, settings.focusDuration);
      if fd != settings.focusDuration {
        settings := settings.(focusDuration := fd);
      }
    }

    /** logDistraction as the closure of a render with mode `m` and status `st` runs it. */
    method CountDistraction(m: Mode, st: Status)
      modifies this
      ensures m == Focus && st == Running ==>
        Snapshot() == old(Snapshot()).(distractionCount := old(distractionCount) + 1,
                                       focusScore := Penalized(old(focusScore)))
      ensures !(m == Focus && st == Running) ==> Snapshot() == old(Snapshot())
    {
      if m == Focus && st == Running {
        distractionCount := distractionCount + 1;
        focusScore := Penalized(focusScore);
      }
    }

    // ------------------------------------------------------------ callbacks

    method StartTimer(stamp: Stamp)
      requires Valid()
      modifies this
      ensures Snapshot() == Start(old(Snapshot()), stamp)
      ensures Valid()
    {
      ghost var before := Snapshot();
      var m, s := mode, status;
      status := Running;
      CommitRender(m, s, stamp);
      StepInv(before, StartTimerCall, stamp);
    }

    method PauseTimer()
      requires Valid()
      modifies this
      ensures Snapshot() == Pause(old(Snapshot()))
      ensures Valid()
    {
      ghost var before := Snapshot();
      var m, s := mode, status;
      status := Paused;
      if m == Focus {
        CountDistraction(m, s);
      }
      RunEffects(m, s);
      StepInv(before, PauseTimerCall, Stamp("", "", 0));
    }

    method ResetTimer()
      requires Valid()
      modifies this
      ensures Snapshot() == Reset(old(Snapshot()))
      ensures Valid()
    {
      ghost var before := Snapshot();
      var m, s := mode, status;
      timeRemaining := Duration(settings, m);
      status := Idle;
      distractionCount := 0;
      RunEffects(m, s);
      StepInv(before, ResetTimerCall, Stamp("", "", 0));
    }

    method SkipTimer(stamp: Stamp)
      requires Valid()
      modifies this
      ensures Snapshot() == Skip(old(Snapshot()), stamp)
      ensures Valid()
    {
      ghost var before := Snapshot();
      var m, s := mode, status;
      SkipBatchUpdate(stamp);
      RunEffects(m, s);
      StepInv(before, SkipTimerCall, stamp);
    }

    /** skipTimer's setters: record an interrupted focus session, then move on, idle. */
    method SkipBatchUpdate(stamp: Stamp)
      modifies this
      ensures Snapshot() == SkipBatch(old(Snapshot()), stamp)
    {
      var fd := settings.focusDuration;
      if mode == Focus {
        var elapsed: int := fd - timeRemaining;
        var score := FocusScore(false, elapsed, fd, distractionCount);
        var session := Session(stamp.id, stamp.date, Focus, elapsed, false,
                               currentTaskId, Some(distractionCount), Some(score));
        sessionHistory := [session] + sessionHistory;
        focusScore := score;
        mode := if IsLongBreakDue(sessionsCompleted, settings.longBreakInterval) then LongBreak else ShortBreak;
        breakSuggestion := Some(BreakSuggestions[stamp.pick]);
      } else {
        mode := Focus;
      }
      status := Idle;
      distractionCount := 0;
    }

    method LogDistraction()
      requires Valid()
      modifies this
      ensures Snapshot() == TimerModel.LogDistraction(old(Snapshot()))
      ensures Valid()
    {
      ghost var before := Snapshot();
      CountDistraction(mode, status);
      StepInv(before, LogDistractionCall, Stamp("", "", 0));
    }

    method UpdateSettings(patch: SettingsPatch)
      requires Valid()
      modifies this
      ensures Snapshot() == TimerModel.UpdateSettings(old(Snapshot()), patch)
      ensures Valid()
    {
      ghost var before := Snapshot();
      var m, s := mode, status;
      settings := MergeSettings(settings, patch);
      if s == Idle {
        timeRemaining := HandlerReload(m, patch, timeRemaining);
      }
      RunEffects(m, s);
      StepInv(before, UpdateSettingsCall(patch), Stamp("", "", 0));
    }

    method SetMode(newMode: Mode)
      requires Valid()
      modifies this
      ensures Snapshot() == TimerModel.SetMode(old(Snapshot()), newMode)
      ensures Valid()
    {
      ghost var before := Snapshot();
      var m, s := mode, status;
      mode := newMode;
      RunEffects(m, s);
      StepInv(before, SetModeCall(newMode), Stamp("", "", 0));
    }

    method SetCurrentTaskId(taskId: Option<string>)
      requires Valid()
      modifies this
      ensures Snapshot() == SetCurrentTask(old(Snapshot()), taskId)
      ensures Valid()
    {
      currentTaskId := taskId;
    }

    // ------------------------------------------------------------ scheduler events

    /** The one-second interval fires; it is only scheduled while running with time left. */
    method Tick(stamp: Stamp)
      requires Valid()
      modifies this
      ensures Snapshot() == TimerModel.Tick(old(Snapshot()), stamp)
      ensures Valid()
    {
      ghost var before := Snapshot();
      if status == Running && timeRemaining > 0 {
        var m, s := mode, status;
        timeRemaining := timeRemaining - 1;
        CommitRender(m, s, stamp);
      }
      StepInv(before, IntervalFires, stamp);
    }

    /** A deferred auto-start fires. */
    method FireAutoStart(stamp: Stamp)
      requires Valid()
      modifies this
      ensures Snapshot() == TimerModel.FireAutoStart(old(Snapshot()), stamp)
      ensures Valid()
    {
      ghost var before := Snapshot();
      if pendingAutoStarts > 0 {
        var m, s := mode, status;
        pendingAutoStarts := pendingAutoStarts - 1;
        status := Running;
        CommitRender(m, s, stamp);
      }
      StepInv(before, AutoStartFires, stamp);
    }
  }
}
