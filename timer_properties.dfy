/** What the timer engine's transitions promise, proved about the functions of TimerModel. */
module TimerProperties {
  import opened Wrappers
  import opened Numerics
  import opened TimerModel

  // ---------------------------------------------------------------- focus score

  /** A score for an elapsed time within the session lies in 0..100. */
  lemma FocusScoreInRange(completed: bool, elapsed: int, total: nat, distractions: nat)
    requires 0 <= elapsed <= total
    requires completed || total > 0
    ensures FocusScore(completed, elapsed, total, distractions).Points?
    ensures 0 <= FocusScore(completed, elapsed, total, distractions).value <= 100
  {
    if !completed {
      assert 0 * total <= 70 * elapsed <= 70 * total;
      RoundHalfUpWithin(70 * elapsed, total, 0, 70);
    }
  }

  /** Whatever the elapsed time the callers can pass, the score is NaN or within 0..100. */
  lemma FocusScoreAlwaysInRange(completed: bool, elapsed: int, total: nat, distractions: nat)
    requires elapsed <= total
    ensures ScoreInRange(FocusScore(completed, elapsed, total, distractions))
  {
    if !completed && total > 0 {
      RoundHalfUpMonotone(70 * elapsed, 70 * total, total);
      RoundHalfUpWithin(70 * total, total, 70, 70);
    }
  }

  /** More distractions never raise the score; more elapsed time never lowers it. */
  lemma FocusScoreMonotone(completed: bool, e1: int, e2: int, total: nat, d1: nat, d2: nat)
    requires e1 <= e2 <= total && total > 0
    requires d2 <= d1
    ensures FocusScore(completed, e1, total, d1).value <= FocusScore(completed, e2, total, d2).value
  {
    if !completed {
      RoundHalfUpMonotone(70 * e1, 70 * e2, total);
    }
  }

  /** A completed session without distractions scores 100; each distraction costs 5 points. */
  lemma CompletedScore(total: nat, distractions: nat)
    ensures FocusScore(true, total, total, distractions) == Points(Max(0, 100 - 5 * distractions))
    ensures distractions == 0 ==> FocusScore(true, total, total, distractions) == Points(100)
  {
  }

  // ---------------------------------------------------------------- invariant

  lemma InitialInv(stored: Option<Settings>, storedHistory: Option<seq<Session>>)
    ensures Inv(Initial(stored, storedHistory))
  {
  }

  /** The effect round of a render leaves the engine in a state satisfying Inv. */
  lemma CommitInv(prevMode: Mode, prevStatus: Status, st: State, stamp: Stamp)
    requires ScoreInRange(st.focusScore)
    ensures Inv(Commit(prevMode, prevStatus, st, stamp))
  {
    if st.status == Running && st.timeRemaining == 0 && st.mode == Focus {
      var fd := st.settings.focusDuration;
      FocusScoreInRange(true, fd, fd, st.distractionCount);
    }
  }

  /** Every event preserves the invariant. */
  lemma {:induction false} StepInv(st: State, e: Event, stamp: Stamp)
    requires Inv(st)
    ensures Inv(Step(st, e, stamp))
  {
    match e
    case StartTimerCall =>
      CommitInv(st.mode, st.status, st.(status := Running), stamp);
    case IntervalFires =>
      if st.status == Running && st.timeRemaining > 0 {
        CommitInv(st.mode, st.status, st.(timeRemaining := st.timeRemaining - 1), stamp);
      }
    case AutoStartFires =>
      if st.pendingAutoStarts > 0 {
        CommitInv(st.mode, st.status, st.(status := Running, pendingAutoStarts := st.pendingAutoStarts - 1), stamp);
      }
    case SkipTimerCall =>
      if st.mode == Focus {
        var fd := st.settings.focusDuration;
        FocusScoreAlwaysInRange(false, fd - st.timeRemaining, fd, st.distractionCount);
      }
    case PauseTimerCall =>
    case ResetTimerCall =>
    case LogDistractionCall =>
    case UpdateSettingsCall(p) =>
    case SetModeCall(m) =>
    case SetCurrentTaskIdCall(id) =>
  }

  /** Whenever the engine is idle its countdown equals the active mode's configured duration. */
  lemma IdleShowsConfiguredDuration(st: State, e: Event, stamp: Stamp)
    requires Inv(st)
    ensures Step(st, e, stamp).status == Idle ==>
      Step(st, e, stamp).timeRemaining == Duration(Step(st, e, stamp).settings, Step(st, e, stamp).mode)
  {
    StepInv(st, e, stamp);
  }

  // ---------------------------------------------------------------- countdown

  /** While running with more than one second left, a tick takes exactly one second off and nothing else. */
  lemma TickCountsDown(st: State, stamp: Stamp)
    requires st.status == Running && st.timeRemaining > 1
    ensures Tick(st, stamp) == st.(timeRemaining := st.timeRemaining - 1)
  {
  }

  /** The tick that reaches 0 completes the session in the same step. */
  lemma TickCompletesAtZero(st: State, stamp: Stamp)
    requires st.status == Running && st.timeRemaining == 1
    ensures Tick(st, stamp) == Resync(TimerComplete(st.(timeRemaining := 0), stamp))
    ensures Tick(st, stamp).status != Running
  {
  }

  /** In no state other than running with time left does a tick change anything. */
  lemma TickOnlyWhileRunning(st: State, stamp: Stamp)
    requires !(st.status == Running && st.timeRemaining > 0)
    ensures Tick(st, stamp) == st
  {
  }

  function Ticks(st: State, n: nat, stamp: Stamp): State
    decreases n
  {
    if n == 0 then st else Ticks(Tick(st, stamp), n - 1, stamp)
  }

  /** n ticks from a running countdown with more than n seconds left leave exactly n fewer. */
  lemma {:induction false} TicksCountDown(st: State, n: nat, stamp: Stamp)
    requires st.status == Running && n < st.timeRemaining
    ensures Ticks(st, n, stamp) == st.(timeRemaining := st.timeRemaining - n)
    decreases n
  {
    if n > 0 {
      TickCountsDown(st, stamp);
      TicksCountDown(st.(timeRemaining := st.timeRemaining - 1), n - 1, stamp);
    }
  }

  /** Running down the whole remaining time completes the session. */
  lemma {:induction false} TicksComplete(st: State, stamp: Stamp)
    requires st.status == Running && st.timeRemaining > 0
    ensures Ticks(st, st.timeRemaining, stamp) == Resync(TimerComplete(st.(timeRemaining := 0), stamp))
    decreases st.timeRemaining
  {
    if st.timeRemaining == 1 {
      TickCompletesAtZero(st, stamp);
      assert Ticks(st, 1, stamp) == Tick(st, stamp);
    } else {
      var next := st.(timeRemaining := st.timeRemaining - 1);
      TickCountsDown(st, stamp);
      TicksComplete(next, stamp);
      assert next.(timeRemaining := 0) == st.(timeRemaining := 0);
    }
  }

  /** After n of D seconds have ticked away, progress is n / D * 100. */
  lemma ProgressAfterTicks(st: State, n: nat, stamp: Stamp)
    requires st.status == Running
    requires st.timeRemaining == Duration(st.settings, st.mode) && n < st.timeRemaining
    ensures Progress(Ticks(st, n, stamp)) == Some(n as real / st.timeRemaining as real * 100.0)
  {
    TicksCountDown(st, n, stamp);
  }

  /**
   * Starting an idle default-configured focus countdown after one finished session and letting
   * all 1500 seconds tick away ends idle in a short break of 300 seconds, with two sessions done.
   */
  lemma DefaultCycleScenario(st: State, stamp: Stamp)
    requires Inv(st) && st.status == Idle && st.mode == Focus
    requires st.settings == DefaultSettings && st.sessionsCompleted == 1
    ensures var r := Ticks(Start(st, stamp), 25 * 60, stamp);
      r.mode == ShortBreak && r.status == Idle && r.timeRemaining == 5 * 60 && r.sessionsCompleted == 2
  {
    var running := Start(st, stamp);
    assert running == st.(status := Running, distractionCount := 0);
    TicksComplete(running, stamp);
  }

  // ---------------------------------------------------------------- completion

  /**
   * A focus session that runs out records exactly one completed session of the full focus
   * duration with the session's distraction count, counts it, and makes its score the running one.
   */
  lemma NaturalFocusCompletion(st: State, stamp: Stamp)
    requires st.status == Running && st.timeRemaining == 1 && st.mode == Focus
    ensures var r := Tick(st, stamp);
      var fd := st.settings.focusDuration;
      && r.history == [Session(stamp.id, stamp.date, Focus, fd, true, st.currentTaskId,
                               Some(st.distractionCount), Some(Points(Max(0, 100 - 5 * st.distractionCount))))]
                      + st.history
      && |r.history| == |st.history| + 1
      && r.sessionsCompleted == st.sessionsCompleted + 1
      && Some(r.focusScore) == r.history[0].focusScore
      && r.breakSuggestion == Some(BreakSuggestions[stamp.pick])
  {
  }

  /** A break that runs out records nothing and leads back to focus. */
  lemma NaturalBreakCompletion(st: State, stamp: Stamp)
    requires st.status == Running && st.timeRemaining == 1 && st.mode != Focus
    ensures var r := Tick(st, stamp);
      r.history == st.history && r.sessionsCompleted == st.sessionsCompleted && r.mode == Focus
      && r.settings == st.settings && r.focusScore == st.focusScore
  {
  }

  /** After a natural completion: long break exactly when (sessionsCompleted + 1) is a multiple of the interval. */
  lemma NaturalCompletionNextMode(st: State, stamp: Stamp)
    requires st.status == Running && st.timeRemaining == 1
    ensures var r := Tick(st, stamp);
      && (r.mode == LongBreak <==>
            st.mode == Focus && st.settings.longBreakInterval != 0
            && (st.sessionsCompleted + 1) % st.settings.longBreakInterval == 0)
      && (r.mode == Focus <==> st.mode != Focus)
  {
  }

  /** After a skip: long break exactly when sessionsCompleted itself is a multiple of the interval. */
  lemma SkipNextMode(st: State, stamp: Stamp)
    ensures var r := Skip(st, stamp);
      && (r.mode == LongBreak <==>
            st.mode == Focus && st.settings.longBreakInterval != 0
            && st.sessionsCompleted % st.settings.longBreakInterval == 0)
      && (r.mode == Focus <==> st.mode != Focus)
  {
  }

  /**
   * The two cadence tests differ: with an interval of 4 and three sessions done, completing the
   * fourth focus session leads to a long break but skipping it to a short one, while skipping
   * before any session has completed leads to a long break.
   */
  lemma CadenceAsymmetry(st: State, stamp: Stamp)
    requires st.status == Running && st.timeRemaining == 1 && st.mode == Focus
    requires st.settings.longBreakInterval == 4
    ensures st.sessionsCompleted == 3 ==> Tick(st, stamp).mode == LongBreak && Skip(st, stamp).mode == ShortBreak
    ensures st.sessionsCompleted == 0 ==> Tick(st, stamp).mode == ShortBreak && Skip(st, stamp).mode == LongBreak
  {
  }

  /** Without the relevant auto-start setting, a completion ends idle with the next mode's duration loaded. */
  lemma CompletionWithoutAutoStartEndsIdle(st: State, stamp: Stamp)
    requires st.status == Running && st.timeRemaining == 1
    requires if st.mode == Focus then !st.settings.autoStartBreaks else !st.settings.autoStartPomodoros
    ensures var r := Tick(st, stamp);
      r.status == Idle && r.timeRemaining == Duration(r.settings, r.mode)
      && r.pendingAutoStarts == st.pendingAutoStarts
  {
  }

  /**
   * With auto-start, a completion rests at `completed` with 0 seconds left and one deferred start;
   * when that start fires, the countdown is still 0, so the break completes at once: the engine is
   * back in focus mode (idle, since the pomodoro auto-start is off) and no break time ran.
   */
  lemma AutoStartedBreakEndsAtOnce(st: State, stamp: Stamp, later: Stamp)
    requires Inv(st) && st.status == Running && st.timeRemaining == 1 && st.mode == Focus
    requires st.settings.autoStartBreaks && !st.settings.autoStartPomodoros
    ensures var a := Tick(st, stamp);
      && a.status == Completed && a.timeRemaining == 0 && a.mode != Focus
      && a.pendingAutoStarts == st.pendingAutoStarts + 1
      && var b := FireAutoStart(a, later);
         && b.mode == Focus && b.status == Idle && b.timeRemaining == Duration(b.settings, Focus)
         && b.history == a.history && b.sessionsCompleted == a.sessionsCompleted
         && b.pendingAutoStarts == st.pendingAutoStarts
  {
  }

  /**
   * The deferred auto-start cannot be cancelled: resetting during the grace period returns to
   * idle, and the start that fires afterwards runs the mode's full duration.
   */
  lemma ResetRacesAutoStart(st: State, stamp: Stamp)
    requires st.status == Completed && st.pendingAutoStarts > 0
    requires Duration(st.settings, st.mode) > 0
    ensures Reset(st).status == Idle
    ensures var r := FireAutoStart(Reset(st), stamp);
      r.status == Running && r.timeRemaining == Duration(st.settings, st.mode) && r.mode == st.mode
  {
  }

  // ---------------------------------------------------------------- skip and reset

  /**
   * Skipping a focus session records one incomplete session of the elapsed time, scored on that
   * time, and keeps sessionsCompleted; it ends idle with distractions cleared and the next
   * mode's duration loaded.
   */
  lemma SkipFocusSession(st: State, stamp: Stamp)
    requires st.mode == Focus
    ensures var r := Skip(st, stamp);
      var fd := st.settings.focusDuration;
      var elapsed := fd - st.timeRemaining;
      && r.history == [Session(stamp.id, stamp.date, Focus, elapsed, false, st.currentTaskId,
                               Some(st.distractionCount), Some(FocusScore(false, elapsed, fd, st.distractionCount)))]
                      + st.history
      && (fd > 0 ==> r.focusScore == Points(Max(0, RoundHalfUp(70 * elapsed, fd) - 5 * st.distractionCount)))
      && r.sessionsCompleted == st.sessionsCompleted
      && r.status == Idle && r.distractionCount == 0
      && r.timeRemaining == Duration(st.settings, r.mode)
      && r.settings == st.settings
  {
  }

  /** Skipping a break records nothing and returns to an idle focus countdown. */
  lemma SkipBreak(st: State, stamp: Stamp)
    requires st.mode != Focus
    ensures Skip(st, stamp) == st.(mode := Focus, status := Idle, distractionCount := 0,
                                   timeRemaining := st.settings.focusDuration)
  {
  }

  /** Reset reloads the active mode's duration, goes idle, clears distractions, and keeps everything else. */
  lemma ResetReloads(st: State)
    ensures Reset(st) == st.(timeRemaining := Duration(st.settings, st.mode), status := Idle, distractionCount := 0)
  {
  }

  // ---------------------------------------------------------------- start, pause, distraction

  /** Starting from idle or paused with time left runs the same countdown; a focus session clears its distractions. */
  lemma StartRuns(st: State, stamp: Stamp)
    requires Inv(st) && (st.status == Idle || st.status == Paused) && st.timeRemaining > 0
    ensures Start(st, stamp) == st.(status := Running,
                                    distractionCount := if st.mode == Focus then 0 else st.distractionCount)
  {
  }

  /** Starting while already running changes nothing, not even the distraction count. */
  lemma StartWhileRunning(st: State, stamp: Stamp)
    requires Inv(st) && st.status == Running
    ensures Start(st, stamp) == st
  {
  }

  /** A distraction is logged exactly for a running focus session, which then loses 5 points (not below 0). */
  lemma LogDistractionApplies(st: State)
    ensures LogDistraction(st) != st <==> st.mode == Focus && st.status == Running
    ensures st.mode == Focus && st.status == Running ==>
      && LogDistraction(st) == st.(distractionCount := st.distractionCount + 1, focusScore := Penalized(st.focusScore))
      && (st.focusScore.Points? ==> LogDistraction(st).focusScore.value == Max(st.focusScore.value - 5, 0))
    ensures ScoreInRange(st.focusScore) ==> ScoreInRange(LogDistraction(st).focusScore)
  {
  }

  /** Pausing a running focus session counts a distraction; resuming it erases the count again. */
  lemma PauseCountsResumeErases(st: State, stamp: Stamp)
    requires Inv(st) && st.mode == Focus && st.status == Running
    ensures Pause(st).status == Paused && Pause(st).distractionCount == st.distractionCount + 1
    ensures var r := Start(Pause(st), stamp);
      r.status == Running && r.distractionCount == 0 && r.timeRemaining == st.timeRemaining
  {
  }

  /** Pausing anything but a running focus session only changes the status. */
  lemma PauseOtherwise(st: State)
    requires !(st.mode == Focus && st.status == Running)
    ensures Pause(st) == st.(status := Paused)
  {
  }

  // ---------------------------------------------------------------- settings

  /** Leaving every key out changes no setting; applying a patch twice is applying it once. */
  lemma MergeSettingsLaws(s: Settings, p: SettingsPatch)
    ensures MergeSettings(s, NoChanges) == s
    ensures MergeSettings(MergeSettings(s, p), p) == MergeSettings(s, p)
    ensures p.focusDuration.Some? ==> MergeSettings(s, p).focusDuration == p.focusDuration.value
  {
  }

  /** updateSettings merges the patch; only an idle countdown follows the new duration. */
  lemma UpdateSettingsEffect(st: State, p: SettingsPatch)
    requires Inv(st)
    ensures var merged := MergeSettings(st.settings, p);
      UpdateSettings(st, p) == st.(settings := merged,
        timeRemaining := if st.status == Idle then Duration(merged, st.mode) else st.timeRemaining)
  {
  }

  /** Whenever the handler's own setter fires, it writes what the idle-resync effect writes anyway. */
  lemma HandlerReloadAgrees(s: Settings, m: Mode, p: SettingsPatch, tr: nat)
    ensures HandlerReload(m, p, tr) != tr ==> HandlerReload(m, p, tr) == Duration(MergeSettings(s, p), m)
  {
  }

  /** A zero duration fails the handler's truthiness test, yet the effect still reloads the idle countdown to 0. */
  lemma ZeroDurationReloadedByEffect(st: State, p: SettingsPatch)
    requires st.status == Idle && st.mode == Focus && p.focusDuration == Some(0)
    ensures HandlerReload(Focus, p, st.timeRemaining) == st.timeRemaining
    ensures UpdateSettings(st, p).timeRemaining == 0
  {
  }

  // ---------------------------------------------------------------- adaptive heuristic

  /** Comparing an exact quotient with an integer is comparing the numerator with a multiple. */
  lemma QuotientCompare(t: nat, n: nat, k: nat)
    requires n > 0
    ensures t as real / n as real > k as real <==> t > k * n
    ensures t as real / n as real < k as real <==> t < k * n
  {
    var m := t as real / n as real;
    var kr, nr := k as real, n as real;
    assert m * nr == t as real;
    assert (k * n) as real == kr * nr;
    if m > kr { assert (m - kr) * nr > 0.0; }
    if m < kr { assert (kr - m) * nr > 0.0; }
    if m == kr { assert m * nr == kr * nr; }
  }

  /** The mean comparisons of the heuristic, as integer comparisons of the total. */
  lemma MeanComparisons(sample: seq<Session>)
    ensures MeanDistractions(sample) > 5.0 <==> DistractionTotal(sample) > 5 * |sample|
    ensures MeanDistractions(sample) < 1.0 <==> (sample == [] || DistractionTotal(sample) < |sample|)
  {
    if |sample| > 0 {
      QuotientCompare(DistractionTotal(sample), |sample|, 5);
      QuotientCompare(DistractionTotal(sample), |sample|, 1);
    }
  }

  /** The three branches: shorten on a mean above 5, lengthen on a mean below 1 (up to 45 minutes), else keep. */
  lemma AdaptiveBranches(sample: seq<Session>, fd: nat)
    ensures var t, n := DistractionTotal(sample), |sample|;
      AdaptedFocusDuration(sample, fd) ==
        if t > 5 * n then Max(900, fd - 300)
        else if (n == 0 || t < n) && fd < 2700 then Min(2700, fd + 300)
        else fd
  {
    MeanComparisons(sample);
  }

  /** A focus duration within 15..45 minutes stays there and moves by at most 5 minutes. */
  lemma AdaptiveKeepsRange(sample: seq<Session>, fd: nat)
    requires 900 <= fd <= 2700
    ensures 900 <= AdaptedFocusDuration(sample, fd) <= 2700
    ensures fd - 300 <= AdaptedFocusDuration(sample, fd) <= fd + 300
  {
  }

  /** From 15 minutes up, a shorter duration means a distracted sample and a longer one an attentive sample. */
  lemma AdaptiveDirection(sample: seq<Session>, fd: nat)
    requires fd >= 900
    ensures AdaptedFocusDuration(sample, fd) < fd ==> MeanDistractions(sample) > 5.0
    ensures AdaptedFocusDuration(sample, fd) > fd ==> MeanDistractions(sample) < 1.0
  {
  }

  /** Below 15 minutes the "shorter" branch lengthens: a distracted 10-minute focus period becomes 15 minutes. */
  lemma DistractedShortFocusIsLengthened(sample: seq<Session>, fd: nat)
    requires fd < 900 && DistractionTotal(sample) > 5 * |sample|
    ensures AdaptedFocusDuration(sample, fd) == 900 > fd
  {
    AdaptiveBranches(sample, fd);
  }

  /** A sample whose sessions all report `d` distractions totals d per session. */
  lemma {:induction false} UniformTotal(sample: seq<Session>, d: nat)
    requires forall i :: 0 <= i < |sample| ==> sample[i].distractions.GetOr(0) == d
    ensures DistractionTotal(sample) == d * |sample|
  {
    if sample != [] {
      UniformTotal(sample[1..], d);
    }
  }

  /** The heuristic's worked examples: five sessions of 6 distractions take 1500 s to 1200 s; calm ones to 1800 s. */
  lemma AdaptiveExamples(sample: seq<Session>)
    requires |sample| == 5
    ensures (forall i :: 0 <= i < 5 ==> sample[i].distractions == Some(6)) ==>
      AdaptedFocusDuration(sample, 1500) == 1200
    ensures (forall i :: 0 <= i < 5 ==> sample[i].distractions.GetOr(0) == 0) ==>
      AdaptedFocusDuration(sample, 1500) == 1800
    ensures AdaptedFocusDuration([], 1500) == 1800
  {
    AdaptiveBranches(sample, 1500);
    if forall i :: 0 <= i < 5 ==> sample[i].distractions == Some(6) {
      UniformTotal(sample, 6);
    }
    if forall i :: 0 <= i < 5 ==> sample[i].distractions.GetOr(0) == 0 {
      UniformTotal(sample, 0);
    }
  }

  /**
   * The heuristic samples the first five entries of the history as it was before the finished
   * session was prepended; it runs only for a finished focus session with adaptive timers on.
   */
  lemma AdaptiveSamplesPriorHistory(st: State, stamp: Stamp)
    requires st.status == Running && st.timeRemaining == 1
    ensures var r := Tick(st, stamp);
      && (st.mode == Focus && st.settings.adaptiveTimers ==>
            r.settings == st.settings.(focusDuration :=
              AdaptedFocusDuration(RecentSessions(st.history), st.settings.focusDuration))
            && r.history[1..] == st.history)
      && (!(st.mode == Focus && st.settings.adaptiveTimers) ==> r.settings == st.settings)
  {
  }
}
