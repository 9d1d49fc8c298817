/**
 * Voice commands: the transcript is lowercased, classified by the first keyword test that
 * matches (in the order of processCommand's if/else chain), and the command is dispatched
 * into the timer engine. Audio commands go to the sound player and leave the engine alone.
 */
module VoiceControl {
  import opened Wrappers
  import opened Seqs
  import opened TimerModel
  import opened TimerProperties
  import TimerEngine

  datatype Command =
    | StartTimer
    | PauseTimer
    | ResetTimer
    | SkipTimer
    | SwitchMode(mode: Mode)
    | SetSound(enabled: bool)
    | PlaySound
    | PauseSound

  // ---------------------------------------------------------------- lowercasing

  /** `toLowerCase` on the ASCII letters; every other character is kept. */
  function LowerChar(c: char): char {
    if 'A' <= c <= 'Z' then (c as int - 'A' as int + 'a' as int) as char else c
  }

  function Lower(s: string): (r: string)
    ensures |r| == |s|
    ensures forall i :: 0 <= i < |s| ==> r[i] == LowerChar(s[i])
    ensures forall i :: 0 <= i < |r| ==> !('A' <= r[i] <= 'Z')
  {
    if s == [] then [] else [LowerChar(s[0])] + Lower(s[1..])
  }

  /** Lowercasing twice is lowercasing once. */
  lemma LowerIdempotent(s: string)
    ensures Lower(Lower(s)) == Lower(s)
  {
  }

  // ---------------------------------------------------------------- classification

  /** processCommand's chain of `includes` tests; the first that holds decides. */
  function Classify(command: string): Option<Command> {
    if Contains(command, "start") || Contains(command, "begin") || Contains(command, "go") then Some(StartTimer)
    else if Contains(command, "pause") || Contains(command, "stop") then Some(PauseTimer)
    else if Contains(command, "reset") then Some(ResetTimer)
    else if Contains(command, "skip") then Some(SkipTimer)
    else if Contains(command, "focus") || Contains(command, "work") then Some(SwitchMode(Focus))
    else if Contains(command, "short break") then Some(SwitchMode(ShortBreak))
    else if Contains(command, "long break") then Some(SwitchMode(LongBreak))
    else if Contains(command, "turn on sound") || Contains(command, "enable sound") then Some(SetSound(true))
    else if Contains(command, "turn off sound") || Contains(command, "disable sound") then Some(SetSound(false))
    else if Contains(command, "play sound") || Contains(command, "start sound") then Some(PlaySound)
    else if Contains(command, "stop sound") || Contains(command, "pause sound") then Some(PauseSound)
    else None
  }

  /** The recognition handler classifies the lowercased transcript. */
  function Heard(transcript: string): Option<Command> {
    Classify(Lower(transcript))
  }

  /** A keyword rule: the phrases that trigger a command. */
  datatype Rule = Rule(phrases: seq<string>, command: Command)

  /** The keyword table, in priority order. */
  const Rules: seq<Rule> := [
    Rule(["start", "begin", "go"], StartTimer),
    Rule(["pause", "stop"], PauseTimer),
    Rule(["reset"], ResetTimer),
    Rule(["skip"], SkipTimer),
    Rule(["focus", "work"], SwitchMode(Focus)),
    Rule(["short break"], SwitchMode(ShortBreak)),
    Rule(["long break"], SwitchMode(LongBreak)),
    Rule(["turn on sound", "enable sound"], SetSound(true)),
    Rule(["turn off sound", "disable sound"], SetSound(false)),
    Rule(["play sound", "start sound"], PlaySound),
    Rule(["stop sound", "pause sound"], PauseSound)
  ]

  predicate Matches(s: string, rule: Rule) {
    exists i :: 0 <= i < |rule.phrases| && Contains(s, rule.phrases[i])
  }

  /** The index of the first rule that matches, if any. */
  function FirstMatching(s: string, rules: seq<Rule>): (r: Option<nat>)
    ensures r.Some? ==> r.value < |rules| && Matches(s, rules[r.value])
    ensures r.Some? ==> forall j :: 0 <= j < r.value ==> !Matches(s, rules[j])
    ensures r.None? ==> forall j :: 0 <= j < |rules| ==> !Matches(s, rules[j])
  {
    if rules == [] then None
    else if Matches(s, rules[0]) then Some(0)
    else match FirstMatching(s, rules[1..])
      case None => None
      case Some(k) => Some(k + 1)
  }

  /** The command of the first matching rule of the table. */
  function TableCommand(s: string): Option<Command> {
    match FirstMatching(s, Rules)
    case None => None
    case Some(k) => Some(Rules[k].command)
  }

  lemma MatchesRules(s: string)
    ensures Matches(s, Rules[0]) <==> Contains(s, "start") || Contains(s, "begin") || Contains(s, "go")
    ensures Matches(s, Rules[1]) <==> Contains(s, "pause") || Contains(s, "stop")
    ensures Matches(s, Rules[2]) <==> Contains(s, "reset")
    ensures Matches(s, Rules[3]) <==> Contains(s, "skip")
    ensures Matches(s, Rules[4]) <==> Contains(s, "focus") || Contains(s, "work")
    ensures Matches(s, Rules[5]) <==> Contains(s, "short break")
    ensures Matches(s, Rules[6]) <==> Contains(s, "long break")
    ensures Matches(s, Rules[7]) <==> Contains(s, "turn on sound") || Contains(s, "enable sound")
    ensures Matches(s, Rules[8]) <==> Contains(s, "turn off sound") || Contains(s, "disable sound")
    ensures Matches(s, Rules[9]) <==> Contains(s, "play sound") || Contains(s, "start sound")
    ensures Matches(s, Rules[10]) <==> Contains(s, "stop sound") || Contains(s, "pause sound")
  {
    MatchesPhrases(s, Rules[0]);
    MatchesPhrases(s, Rules[1]);
    MatchesPhrases(s, Rules[2]);
    MatchesPhrases(s, Rules[3]);
    MatchesPhrases(s, Rules[4]);
    MatchesPhrases(s, Rules[5]);
    MatchesPhrases(s, Rules[6]);
    MatchesPhrases(s, Rules[7]);
    MatchesPhrases(s, Rules[8]);
    MatchesPhrases(s, Rules[9]);
    MatchesPhrases(s, Rules[10]);
  }

  /** A rule with one, two or three phrases matches when one of them occurs. */
  lemma MatchesPhrases(s: string, rule: Rule)
    ensures |rule.phrases| == 1 ==> (Matches(s, rule) <==> Contains(s, rule.phrases[0]))
    ensures |rule.phrases| == 2 ==> (Matches(s, rule) <==> Contains(s, rule.phrases[0]) || Contains(s, rule.phrases[1]))
    ensures |rule.phrases| == 3 ==>
      (Matches(s, rule) <==> Contains(s, rule.phrases[0]) || Contains(s, rule.phrases[1]) || Contains(s, rule.phrases[2]))
  {
  }

  /** The if/else chain is exactly first-match over the keyword table. */
  lemma ClassifyIsFirstMatch(s: string)
    ensures Classify(s) == TableCommand(s)
  {
    MatchesRules(s);
    var r := FirstMatching(s, Rules);
    if r.Some? {
      var k := r.value;
      assert forall j :: 0 <= j < k ==> !Matches(s, Rules[j]);
      assert Matches(s, Rules[k]);
    }
  }

  /** Any transcript with "start", "begin" or "go" starts the timer, whatever else it says. */
  lemma StartKeywordsWin(s: string)
    requires Contains(s, "start") || Contains(s, "begin") || Contains(s, "go")
    ensures Classify(s) == Some(StartTimer)
  {
  }

  /** "stop sound" and "pause sound" are caught by the timer keywords before the sound rule. */
  lemma SoundStopPhrasesHitTimer(s: string)
    requires Contains(s, "stop sound") || Contains(s, "pause sound")
    ensures Classify(s) == Some(StartTimer) || Classify(s) == Some(PauseTimer)
  {
    if Contains(s, "stop sound") {
      OccursAtContains("stop sound", "stop", 0);
      ContainsTransitive(s, "stop sound", "stop");
    } else {
      OccursAtContains("pause sound", "pause", 0);
      ContainsTransitive(s, "pause sound", "pause");
    }
  }

  /** So the pause-sound command is never produced. */
  lemma PauseSoundUnreachable(s: string)
    ensures Classify(s) != Some(PauseSound)
  {
    if Contains(s, "stop sound") || Contains(s, "pause sound") {
      SoundStopPhrasesHitTimer(s);
    }
  }

  /** "start sound" starts the timer; the play-sound command needs the phrase "play sound". */
  lemma StartSoundStartsTimer(s: string)
    ensures Contains(s, "start sound") ==> Classify(s) == Some(StartTimer)
    ensures Classify(s) == Some(PlaySound) ==> Contains(s, "play sound")
  {
    if Contains(s, "start sound") {
      OccursAtContains("start sound", "start", 0);
      ContainsTransitive(s, "start sound", "start");
    }
  }

  /** No timer or mode keyword occurs in the transcript. */
  predicate NoEarlierKeyword(s: string) {
    forall j :: 0 <= j < 7 ==> !Matches(s, Rules[j])
  }

  /** The sound toggles fire exactly on their phrases when no timer or mode keyword comes first. */
  lemma SoundToggles(s: string)
    ensures Classify(s) == Some(SetSound(true)) <==>
      NoEarlierKeyword(s) && (Contains(s, "turn on sound") || Contains(s, "enable sound"))
    ensures Classify(s) == Some(SetSound(false)) <==>
      NoEarlierKeyword(s) && !(Contains(s, "turn on sound") || Contains(s, "enable sound")) &&
      (Contains(s, "turn off sound") || Contains(s, "disable sound"))
  {
    MatchesRules(s);
    assert NoEarlierKeyword(s) <==> forall j :: 0 <= j < 7 ==> !Matches(s, Rules[j]);
    if NoEarlierKeyword(s) {
      assert !Matches(s, Rules[0]) && !Matches(s, Rules[1]) && !Matches(s, Rules[2]) && !Matches(s, Rules[3]);
      assert !Matches(s, Rules[4]) && !Matches(s, Rules[5]) && !Matches(s, Rules[6]);
    }
  }

  /** A transcript containing none of the phrases does nothing, and only such a transcript. */
  lemma NoKeywordNoAction(s: string)
    ensures Classify(s) == None <==> forall j :: 0 <= j < |Rules| ==> !Matches(s, Rules[j])
  {
    ClassifyIsFirstMatch(s);
  }

  /** Only the ASCII case of the transcript is ignored: transcripts equal up to it do the same. */
  lemma HeardIgnoresCase(a: string, b: string)
    requires Lower(a) == Lower(b)
    ensures Heard(a) == Heard(b)
    ensures Heard(Lower(a)) == Heard(a)
  {
    LowerIdempotent(a);
  }

  // ---------------------------------------------------------------- dispatch

  /** A patch that sets only the sound switch. */
  function SoundPatch(enabled: bool): SettingsPatch {
    NoChanges.(soundEnabled := Some(enabled))
  }

  /** The engine step a command causes, through the provider's current callbacks. */
  function Apply(st: State, c: Command, stamp: Stamp): State {
    match c
    case StartTimer => Start(st, stamp)
    case PauseTimer => Pause(st)
    case ResetTimer => Reset(st)
    case SkipTimer => Skip(st, stamp)
    case SwitchMode(m) => SetMode(st, m)
    case SetSound(b) => UpdateSettings(st, SoundPatch(b))
    case PlaySound => st
    case PauseSound => st
  }

  /** Dispatching keeps the engine invariant. */
  lemma {:induction false} ApplyKeepsInv(st: State, c: Command, stamp: Stamp)
    requires Inv(st)
    ensures Inv(Apply(st, c, stamp))
  {
    match c
    case StartTimer => StepInv(st, StartTimerCall, stamp);
    case PauseTimer => StepInv(st, PauseTimerCall, stamp);
    case ResetTimer => StepInv(st, ResetTimerCall, stamp);
    case SkipTimer => StepInv(st, SkipTimerCall, stamp);
    case SwitchMode(m) => StepInv(st, SetModeCall(m), stamp);
    case SetSound(b) => StepInv(st, UpdateSettingsCall(SoundPatch(b)), stamp);
    case PlaySound =>
    case PauseSound =>
  }

  /** A sound toggle changes the sound switch and nothing else. */
  lemma SoundToggleChangesOnlySound(st: State, b: bool, stamp: Stamp)
    requires Inv(st)
    ensures Apply(st, SetSound(b), stamp) == st.(settings := st.settings.(soundEnabled := b))
  {
  }

  /** The recognition handler's dispatch, through the timer's current callbacks. */
  method ProcessCommand(t: TimerEngine.Timer, command: string, stamp: Stamp)
    requires t.Valid()
    modifies t
    ensures Heard(command).None? ==> t.Snapshot() == old(t.Snapshot())
    ensures Heard(command).Some? ==> t.Snapshot() == Apply(old(t.Snapshot()), Heard(command).value, stamp)
    ensures t.Valid()
  {
    var c := Classify(Lower(command));
    match c {
      case None =>
      case Some(StartTimer) => t.StartTimer(stamp);
      case Some(PauseTimer) => t.PauseTimer();
      case Some(ResetTimer) => t.ResetTimer();
      case Some(SkipTimer) => t.SkipTimer(stamp);
      case Some(SwitchMode(m)) => t.SetMode(m);
      case Some(SetSound(b)) => t.UpdateSettings(SoundPatch(b));
      case Some(PlaySound) =>
      case Some(PauseSound) =>
    }
  }

  // ---------------------------------------------------------------- the closure as written

  /**
   * The effects of the render after a stale batch that leaves the countdown stopped: the
   * idle resync runs only when mode or status changed (the settings are not touched here).
   */
  function SettleIfChanged(prev: State, st: State): State {
    if st.mode != prev.mode || st.status != prev.status then Resync(st) else st
  }

  /**
   * As written, the recognition handler is installed once, by an effect without dependencies,
   * so it calls the processCommand of the component's first render, and with it the pause,
   * reset and skip callbacks of the provider state `mount` of that render. Their setters then
   * apply to the current state `st`. startTimer and setMode read no state, and the sound patch
   * holds no duration, so those commands behave as through the current callbacks.
   */
  function StaleApply(mount: State, st: State, c: Command, stamp: Stamp): State {
    match c
    case PauseTimer =>
      var counted := mount.mode == Focus && mount.status == Running;
      var batch := st.(status := Paused,
                       distractionCount := if counted then st.distractionCount + 1 else st.distractionCount,
                       focusScore := if counted then Penalized(st.focusScore) else st.focusScore);
      SettleIfChanged(st, batch)
    case ResetTimer =>
      SettleIfChanged(st, st.(timeRemaining := Duration(mount.settings, mount.mode), status := Idle, distractionCount := 0))
    case SkipTimer =>
      var s := mount.settings;
      var batch :=
        if mount.mode == Focus then
          var elapsed := s.focusDuration - mount.timeRemaining;
          var score := FocusScore(false, elapsed, s.focusDuration, mount.distractionCount);
          var session := Session(stamp.id, stamp.date, Focus, elapsed, false,
                                 mount.currentTaskId, Some(mount.distractionCount), Some(score));
          st.(history := [session] + st.history,
              focusScore := score,
              mode := if IsLongBreakDue(mount.sessionsCompleted, s.longBreakInterval) then LongBreak else ShortBreak,
              breakSuggestion := Some(BreakSuggestions[stamp.pick]),
              status := Idle,
              distractionCount := 0)
        else
          st.(mode := Focus, status := Idle, distractionCount := 0);
      SettleIfChanged(st, batch)
    case _ => Apply(st, c, stamp)
  }

  /** While nothing has changed since the handler was installed, it behaves as the current callbacks do. */
  lemma StaleApplyWhileCurrent(st: State, c: Command, stamp: Stamp)
    requires Inv(st)
    ensures StaleApply(st, st, c, stamp) == Apply(st, c, stamp)
  {
  }

  /**
   * Installed at the first render (focus, idle, default settings), the handler's "reset" after
   * the user switched to a short break loads the focus duration: the idle short break shows 25:00.
   */
  lemma StaleResetLoadsMountedDuration()
    ensures var mount := Initial(None, None);
            var r := StaleApply(mount, SetMode(mount, ShortBreak), ResetTimer, Stamp("", "", 0));
            r.mode == ShortBreak && r.status == Idle && r.timeRemaining == 25 * 60 && !Inv(r)
    ensures var mount := Initial(None, None);
            Inv(Apply(SetMode(mount, ShortBreak), ResetTimer, Stamp("", "", 0)))
  {
    var mount := Initial(None, None);
    StepInv(mount, SetModeCall(ShortBreak), Stamp("", "", 0));
    ApplyKeepsInv(SetMode(mount, ShortBreak), ResetTimer, Stamp("", "", 0));
  }

  /** Installed while idle, the handler's "pause" of a running focus session counts no distraction. */
  lemma StalePauseCountsNoDistraction(stamp: Stamp)
    ensures var mount := Initial(None, None);
            var running := Start(mount, stamp);
            StaleApply(mount, running, PauseTimer, stamp).distractionCount == 0 &&
            Apply(running, PauseTimer, stamp).distractionCount == 1
  {
  }
}
