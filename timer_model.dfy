/**
 * The timer engine of the TimerProvider as values: its state slots, its settings,
 * the pure rules (focus score, long-break cadence, adaptive duration) and one
 * function per state change.
 *
 * React semantics are made explicit. A callback reads the state of the render it
 * was created in (the "snapshot"); its setters form one batch that is applied
 * afterwards; the next render then runs the effects whose dependencies changed,
 * each again reading that render's state. `Settle` and `Commit` are those effect
 * rounds; every transition function below is "batch, then effects".
 */
module TimerModel {
  import opened Wrappers
  import opened Numerics

  datatype Mode = Focus | ShortBreak | LongBreak

  datatype Status = Idle | Running | Paused | Completed

  /** TimerSettings; durations in seconds. The store performs no range validation. */
  datatype Settings = Settings(
    focusDuration: nat,
    shortBreakDuration: nat,
    longBreakDuration: nat,
    longBreakInterval: nat,
    autoStartBreaks: bool,
    autoStartPomodoros: bool,
    adaptiveTimers: bool,
    soundEnabled: bool,
    distractionAlerts: bool)

  /** Partial<TimerSettings>: `None` is a key the caller left out. */
  datatype SettingsPatch = SettingsPatch(
    focusDuration: Option<nat>,
    shortBreakDuration: Option<nat>,
    longBreakDuration: Option<nat>,
    longBreakInterval: Option<nat>,
    autoStartBreaks: Option<bool>,
    autoStartPomodoros: Option<bool>,
    adaptiveTimers: Option<bool>,
    soundEnabled: Option<bool>,
    distractionAlerts: Option<bool>)

  const NoChanges := SettingsPatch(None, None, None, None, None, None, None, None, None)

  /** defaultSettings: 25 / 5 / 15 minutes, a long break every 4 sessions, adaptive timers and alerts on. */
  const DefaultSettings := Settings(25 * 60, 5 * 60, 15 * 60, 4, false, false, true, false, true)

  /** A focus score: a number, or NaN (what 0 / 0 becomes when the focus duration is 0). */
  datatype Score = Points(value: int) | NotANumber

  datatype SuggestionKind = Stretch | Hydrate | Mindfulness | Movement | Rest

  datatype BreakSuggestion = BreakSuggestion(id: string, kind: SuggestionKind, title: string, description: string)

  /** The breakSuggestions catalog. */
  const BreakSuggestions: seq<BreakSuggestion> := [
    BreakSuggestion("1", Stretch, "Stretch Break",
      "Stand up and stretch your arms, legs, and back for 2 minutes."),
    BreakSuggestion("2", Hydrate, "Hydration Break",
      "Drink a glass of water to stay hydrated and refresh your mind."),
    BreakSuggestion("3", Mindfulness, "Mindfulness Moment",
      "Take 10 deep breaths, focusing only on your breathing."),
    BreakSuggestion("4", Movement, "Quick Movement",
      "Do 10 jumping jacks to get your blood flowing."),
    BreakSuggestion("5", Rest, "Eye Rest",
      "Look away from screens and focus on something 20 feet away for 20 seconds.")
  ]

  /** Math.floor(Math.random() * 5): an index into the catalog. */
  type SuggestionIndex = i: nat | i < 5

  /** TimerSession; optional fields are `None` when a stored record lacks them. */
  datatype Session = Session(
    id: string,
    date: string,
    mode: Mode,
    duration: int,
    completed: bool,
    taskId: Option<string>,
    distractions: Option<nat>,
    focusScore: Option<Score>)

  /** The values a step draws from crypto.randomUUID, the clock and Math.random. */
  datatype Stamp = Stamp(id: string, date: string, pick: SuggestionIndex)

  /** Every state slot of the provider, plus the number of auto-start timeouts still to fire. */
  datatype State = State(
    mode: Mode,
    status: Status,
    timeRemaining: nat,
    sessionsCompleted: nat,
    currentTaskId: Option<string>,
    distractionCount: nat,
    focusScore: Score,
    breakSuggestion: Option<BreakSuggestion>,
    settings: Settings,
    history: seq<Session>,
    pendingAutoStarts: nat)

  // ---------------------------------------------------------------- pure rules

  /** The configured length of a mode. */
  function Duration(s: Settings, m: Mode): nat {
    match m
    case Focus => s.focusDuration
    case ShortBreak => s.shortBreakDuration
    case LongBreak => s.longBreakDuration
  }

  /** `{ ...prev, ...patch }`. */
  function MergeSettings(s: Settings, p: SettingsPatch): Settings {
    Settings(
      p.focusDuration.GetOr(s.focusDuration),
      p.shortBreakDuration.GetOr(s.shortBreakDuration),
      p.longBreakDuration.GetOr(s.longBreakDuration),
      p.longBreakInterval.GetOr(s.longBreakInterval),
      p.autoStartBreaks.GetOr(s.autoStartBreaks),
      p.autoStartPomodoros.GetOr(s.autoStartPomodoros),
      p.adaptiveTimers.GetOr(s.adaptiveTimers),
      p.soundEnabled.GetOr(s.soundEnabled),
      p.distractionAlerts.GetOr(s.distractionAlerts))
  }

  /**
   * calculateFocusScore: 100 for a completed session, otherwise Math.round(70 * elapsed / total);
   * minus 5 per distraction, floored at 0. With a total of 0 the quotient is NaN when nothing
   * elapsed and minus infinity when the elapsed time is negative (floored to 0). Callers always
   * pass elapsed = total - timeRemaining with timeRemaining >= 0.
   */
  function FocusScore(completed: bool, elapsed: int, total: nat, distractions: nat): Score
    requires elapsed <= total
  {
    var penalty := 5 * distractions;
    if completed then Points(Max(0, 100 - penalty))
    else if total > 0 then Points(Max(0, RoundHalfUp(70 * elapsed, total) - penalty))
    else if elapsed < 0 then Points(0)
    else NotANumber
  }

  /** `Math.max(prev - 5, 0)`; NaN stays NaN. */
  function Penalized(s: Score): Score {
    match s
    case Points(v) => Points(Max(v - 5, 0))
    case NotANumber => NotANumber
  }

  /** `count % interval === 0`; with an interval of 0 the remainder is NaN and the test fails. */
  predicate IsLongBreakDue(count: nat, interval: nat) {
    interval != 0 && count % interval == 0
  }

  /** `sessionHistory.slice(0, 5)`. */
  function RecentSessions(h: seq<Session>): seq<Session> {
    if |h| <= 5 then h else h[..5]
  }

  /** `reduce((sum, s) => sum + (s.distractions || 0), 0)`. */
  function DistractionTotal(s: seq<Session>): nat {
    if s == [] then 0 else s[0].distractions.GetOr(0) + DistractionTotal(s[1..])
  }

  /** The mean distraction count of a sample; 0 for an empty sample. */
  function MeanDistractions(s: seq<Session>): real {
    if |s| > 0 then DistractionTotal(s) as real / |s| as real else 0.0
  }

  /**
   * The adaptive heuristic: more than 5 distractions on average shortens the focus period by
   * 5 minutes (not below 15), fewer than 1 lengthens it by 5 minutes (not above 45).
   */
  function AdaptedFocusDuration(sample: seq<Session>, fd: nat): nat {
    var mean := MeanDistractions(sample);
    if mean > 5.0 then Max(15 * 60, fd - 5 * 60)
    else if mean < 1.0 && fd < 45 * 60 then Min(45 * 60, fd + 5 * 60)
    else fd
  }

  /** progress(): the elapsed percentage; `None` when the total is 0 (NaN or infinity in the source). */
  function Progress(st: State): Option<real> {
    var total := Duration(st.settings, st.mode);
    if total == 0 then None
    else Some((total - st.timeRemaining) as real / total as real * 100.0)
  }

  // ---------------------------------------------------------------- effects

  /** The effect at lines 157-167: while idle, the countdown shows the active mode's duration. */
  function Resync(st: State): State {
    if st.status == Idle then st.(timeRemaining := Duration(st.settings, st.mode)) else st
  }

  /** The effect at lines 186-190 fires: (mode, status) changed and is now (focus, running). */
  predicate EntersFocusRun(prevMode: Mode, prevStatus: Status, st: State) {
    (st.mode != prevMode || st.status != prevStatus) && st.mode == Focus && st.status == Running
  }

  /** The effects of the render that follows a batch, when the countdown effect does not complete. */
  function Settle(prevMode: Mode, prevStatus: Status, st: State): State {
    var st' := Resync(st);
    if EntersFocusRun(prevMode, prevStatus, st) then st'.(distractionCount := 0) else st'
  }

  /**
   * The effects of the render that follows a batch that may change status or timeRemaining:
   * running with nothing left makes the countdown effect call handleTimerComplete at once
   * (with that render's state); the render after it runs the idle resync.
   */
  function Commit(prevMode: Mode, prevStatus: Status, st: State, stamp: Stamp): State {
    if st.status == Running && st.timeRemaining == 0 then
      var done := Resync(TimerComplete(st, stamp));
      if EntersFocusRun(prevMode, prevStatus, st) then done.(distractionCount := 0) else done
    else
      Settle(prevMode, prevStatus, st)
  }

  // ---------------------------------------------------------------- handlers (batches)

  /**
   * handleTimerComplete: status `completed` and then `idle` in one batch (so idle), or, with the
   * relevant auto-start setting, `completed` plus a deferred start; a finished focus session is
   * recorded, counted and scored, a break suggestion picked and the adaptive heuristic run over
   * the history as it was before the new record.
   */
  function TimerComplete(st: State, stamp: Stamp): State {
    var s := st.settings;
    if st.mode == Focus then
      var score := FocusScore(true, s.focusDuration, s.focusDuration, st.distractionCount);
      var session := Session(stamp.id, stamp.date, Focus, s.focusDuration, true,
                             st.currentTaskId, Some(st.distractionCount), Some(score));
      var next := if IsLongBreakDue(st.sessionsCompleted + 1, s.longBreakInterval) then LongBreak else ShortBreak;
      var adapted := if s.adaptiveTimers
                     then s.(focusDuration := AdaptedFocusDuration(RecentSessions(st.history), s.focusDuration))
                     else s;
      st.(status := if s.autoStartBreaks then Completed else Idle,
          pendingAutoStarts := if s.autoStartBreaks then st.pendingAutoStarts + 1 else st.pendingAutoStarts,
          mode := next,
          breakSuggestion := Some(BreakSuggestions[stamp.pick]),
          history := [session] + st.history,
          sessionsCompleted := st.sessionsCompleted + 1,
          focusScore := score,
          settings := adapted)
    else
      st.(status := if s.autoStartPomodoros then Completed else Idle,
          pendingAutoStarts := if s.autoStartPomodoros then st.pendingAutoStarts + 1 else st.pendingAutoStarts,
          mode := Focus)
  }

  /** logDistraction: only a running focus session counts a distraction and loses 5 points. */
  function LogDistraction(st: State): State {
    if st.mode == Focus && st.status == Running
    then st.(distractionCount := st.distractionCount + 1, focusScore := Penalized(st.focusScore))
    else st
  }

  /** updateSettings' own immediate setter: a supplied, truthy duration of the active mode. */
  function HandlerReload(m: Mode, p: SettingsPatch, tr: nat): nat {
    match m
    case Focus => if p.focusDuration.Some? && p.focusDuration.value != 0 then p.focusDuration.value else tr
    case ShortBreak => if p.shortBreakDuration.Some? && p.shortBreakDuration.value != 0 then p.shortBreakDuration.value else tr
    case LongBreak => if p.longBreakDuration.Some? && p.longBreakDuration.value != 0 then p.longBreakDuration.value else tr
  }

  /** skipTimer's batch: a focus session is recorded as incomplete with its elapsed time. */
  function SkipBatch(st: State, stamp: Stamp): State {
    var s := st.settings;
    if st.mode == Focus then
      var elapsed := s.focusDuration - st.timeRemaining;
      var score := FocusScore(false, elapsed, s.focusDuration, st.distractionCount);
      var session := Session(stamp.id, stamp.date, Focus, elapsed, false,
                             st.currentTaskId, Some(st.distractionCount), Some(score));
      st.(history := [session] + st.history,
          focusScore := score,
          mode := if IsLongBreakDue(st.sessionsCompleted, s.longBreakInterval) then LongBreak else ShortBreak,
          breakSuggestion := Some(BreakSuggestions[stamp.pick]),
          status := Idle,
          distractionCount := 0)
    else
      st.(mode := Focus, status := Idle, distractionCount := 0)
  }

  // ---------------------------------------------------------------- transitions

  /** startTimer. */
  function Start(st: State, stamp: Stamp): State {
    Commit(st.mode, st.status, st.(status := Running), stamp)
  }

  /** pauseTimer: status `paused`, and a distraction when the snapshot was a running focus session. */
  function Pause(st: State): State {
    Settle(st.mode, st.status, LogDistraction(st).(status := Paused))
  }

  /** resetTimer. */
  function Reset(st: State): State {
    Settle(st.mode, st.status,
      st.(timeRemaining := Duration(st.settings, st.mode), status := Idle, distractionCount := 0))
  }

  /** skipTimer. */
  function Skip(st: State, stamp: Stamp): State {
    Settle(st.mode, st.status, SkipBatch(st, stamp))
  }

  /** updateSettings. */
  function UpdateSettings(st: State, p: SettingsPatch): State {
    var tr := if st.status == Idle then HandlerReload(st.mode, p, st.timeRemaining) else st.timeRemaining;
    Settle(st.mode, st.status, st.(settings := MergeSettings(st.settings, p), timeRemaining := tr))
  }

  /** The raw `setMode` state setter the provider exposes (the UI gates it). */
  function SetMode(st: State, m: Mode): State {
    Settle(st.mode, st.status, st.(mode := m))
  }

  /** The raw `setCurrentTaskId` setter. */
  function SetCurrentTask(st: State, id: Option<string>): State {
    st.(currentTaskId := id)
  }

  /** One firing of the one-second interval, which exists only while running with time left. */
  function Tick(st: State, stamp: Stamp): State {
    if st.status == Running && st.timeRemaining > 0
    then Commit(st.mode, st.status, st.(timeRemaining := st.timeRemaining - 1), stamp)
    else st
  }

  /** One deferred `setStatus('running')` scheduled by an auto-start fires (it cannot be cancelled). */
  function FireAutoStart(st: State, stamp: Stamp): State {
    if st.pendingAutoStarts > 0
    then Commit(st.mode, st.status, st.(status := Running, pendingAutoStarts := st.pendingAutoStarts - 1), stamp)
    else st
  }

  /** Everything that can happen to the engine. */
  datatype Event =
    | StartTimerCall
    | PauseTimerCall
    | ResetTimerCall
    | SkipTimerCall
    | LogDistractionCall
    | UpdateSettingsCall(patch: SettingsPatch)
    | SetModeCall(mode: Mode)
    | SetCurrentTaskIdCall(taskId: Option<string>)
    | IntervalFires
    | AutoStartFires

  function Step(st: State, e: Event, stamp: Stamp): State {
    match e
    case StartTimerCall => Start(st, stamp)
    case PauseTimerCall => Pause(st)
    case ResetTimerCall => Reset(st)
    case SkipTimerCall => Skip(st, stamp)
    case LogDistractionCall => LogDistraction(st)
    case UpdateSettingsCall(p) => UpdateSettings(st, p)
    case SetModeCall(m) => SetMode(st, m)
    case SetCurrentTaskIdCall(id) => SetCurrentTask(st, id)
    case IntervalFires => Tick(st, stamp)
    case AutoStartFires => FireAutoStart(st, stamp)
  }

  /** The provider's first render: focus, idle, the stored (or default) settings and history. */
  function Initial(stored: Option<Settings>, storedHistory: Option<seq<Session>>): State {
    var s := stored.GetOr(DefaultSettings);
    State(Focus, Idle, s.focusDuration, 0, None, 0, Points(100), None, s, storedHistory.GetOr([]), 0)
  }

  // ---------------------------------------------------------------- invariant

  predicate ScoreInRange(s: Score) {
    s.NotANumber? || 0 <= s.value <= 100
  }

  /**
   * What holds between events: an idle countdown shows its mode's configured duration, the
   * countdown never rests at 0 while running, and the running focus score is within 0..100.
   */
  predicate Inv(st: State) {
    && (st.status == Idle ==> st.timeRemaining == Duration(st.settings, st.mode))
    && !(st.status == Running && st.timeRemaining == 0)
    && ScoreInRange(st.focusScore)
  }
}
