/**
 * The history page's summary: the session and completion counts, the completion rate,
 * the total focus time and the two duration texts ("Mm Ss" per session, "Hh Mm" in total),
 * with JavaScript's floor division and truncating remainder on possibly negative durations.
 */
module SessionHistory {
  import opened Wrappers
  import opened Numerics
  import opened Decimal
  import Seqs
  import opened TimerModel

  // ---------------------------------------------------------------- duration texts

  /** formatDuration: `${Math.floor(s / 60)}m ${s % 60}s`. */
  function FormatDuration(seconds: int): string {
    IntToString(FloorDiv(seconds, 60)) + "m " + IntToString(JsRem(seconds, 60)) + "s"
  }

  /** For a non-negative duration: whole minutes, then the remaining seconds, below 60. */
  lemma FormatDurationNonNegative(seconds: int)
    requires seconds >= 0
    ensures seconds % 60 < 60 && seconds / 60 * 60 + seconds % 60 == seconds
    ensures FormatDuration(seconds) == NatToString(seconds / 60) + "m " + NatToString(seconds % 60) + "s"
  {
  }

  /** A digit run is delimited by the first non-digit: equal texts split the same way. */
  lemma {:induction false} DigitRunUnique(x1: string, r1: string, x2: string, r2: string)
    requires AllDigits(x1) && AllDigits(x2)
    requires |r1| > 0 && |r2| > 0 && !IsDigit(r1[0]) && !IsDigit(r2[0])
    requires x1 + r1 == x2 + r2
    ensures x1 == x2 && r1 == r2
  {
    var t := x1 + r1;
    assert !IsDigit(t[|x1|]) && !IsDigit(t[|x2|]);
    assert forall i :: 0 <= i < |x1| ==> IsDigit(t[i]);
    assert forall i :: 0 <= i < |x2| ==> IsDigit(t[i]);
    assert |x1| == |x2|;
    assert x1 == t[..|x1|] == x2;
    assert r1 == t[|x1|..] == r2;
  }

  /** A "Mm Ss" text of digit fields determines both fields. */
  lemma DurationFieldsUnique(m1: string, s1: string, m2: string, s2: string)
    requires AllDigits(m1) && AllDigits(s1) && AllDigits(m2) && AllDigits(s2)
    requires m1 + "m " + s1 + "s" == m2 + "m " + s2 + "s"
    ensures m1 == m2 && s1 == s2
  {
    var r1, r2 := "m " + s1 + "s", "m " + s2 + "s";
    assert m1 + r1 == m1 + "m " + s1 + "s";
    assert m2 + r2 == m2 + "m " + s2 + "s";
    DigitRunUnique(m1, r1, m2, r2);
    assert s1 == r1[2..|r1| - 1];
    assert s2 == r2[2..|r2| - 1];
  }

  /** Different non-negative durations are shown differently. */
  lemma FormatDurationInjective(a: int, b: int)
    requires a >= 0 && b >= 0
    requires FormatDuration(a) == FormatDuration(b)
    ensures a == b
  {
    FormatDurationNonNegative(a);
    FormatDurationNonNegative(b);
    DurationFieldsUnique(NatToString(a / 60), NatToString(a % 60), NatToString(b / 60), NatToString(b % 60));
    ParseNatToString(a / 60);
    ParseNatToString(b / 60);
    ParseNatToString(a % 60);
    ParseNatToString(b % 60);
  }

  /** A negative duration shows a negative minute and a negative remainder, as JavaScript computes them. */
  lemma NegativeDurationText()
    ensures FormatDuration(-30) == "-1m -30s"
  {
    assert FloorDiv(-30, 60) == -1;
    assert JsRem(-30, 60) == -30;
    assert NatToString(30) == NatToString(3) + [DigitChar(0)];
  }

  /** formatTotalTime: hours and minutes when at least an hour, else minutes only. */
  function FormatTotalTime(seconds: int): string {
    var hours := FloorDiv(seconds, 3600);
    var minutes := FloorDiv(JsRem(seconds, 3600), 60);
    if hours > 0 then IntToString(hours) + "h " + IntToString(minutes) + "m"
    else IntToString(minutes) + "m"
  }

  /** For a non-negative total, hours and minutes are the whole hours and the whole minutes left over. */
  lemma {:induction false} TotalTimeParts(seconds: int)
    requires seconds >= 0
    ensures FloorDiv(seconds, 3600) == seconds / 3600
    ensures FloorDiv(JsRem(seconds, 3600), 60) == seconds % 3600 / 60
    ensures 0 <= seconds % 3600 / 60 < 60
    ensures seconds / 3600 * 3600 + seconds % 3600 / 60 * 60 <= seconds < seconds / 3600 * 3600 + seconds % 3600 / 60 * 60 + 60
    ensures seconds / 3600 > 0 <==> seconds >= 3600
  {
    var h, rest := seconds / 3600, seconds % 3600;
    assert seconds == 3600 * h + rest;
    assert JsRem(seconds, 3600) == rest;
    var m := rest / 60;
    assert rest == 60 * m + rest % 60;
  }

  /** The total shows "Hh Mm" from an hour on and "Mm" below, the minutes part always below 60. */
  lemma FormatTotalTimeShape(seconds: int)
    requires seconds >= 0
    ensures seconds >= 3600 ==>
      FormatTotalTime(seconds) == NatToString(seconds / 3600) + "h " + NatToString(seconds % 3600 / 60) + "m"
    ensures seconds < 3600 ==>
      FormatTotalTime(seconds) == NatToString(seconds / 60) + "m" && seconds / 60 < 60
  {
    TotalTimeParts(seconds);
    var h, m := seconds / 3600, seconds % 3600 / 60;
    assert IntToString(h) == NatToString(h);
    assert IntToString(m) == NatToString(m);
    if seconds < 3600 {
      assert m == seconds / 60;
    }
  }

  // ---------------------------------------------------------------- statistics

  function TotalSessions(history: seq<Session>): nat {
    |history|
  }

  /** `filter(s => s.completed).length`. */
  function CompletedSessions(history: seq<Session>): (n: nat)
    ensures n <= TotalSessions(history)
  {
    |Seqs.Filter(history, (s: Session) => s.completed)|
  }

  /** `reduce((total, s) => total + s.duration, 0)`. */
  function TotalFocusTime(history: seq<Session>): int {
    if history == [] then 0 else history[0].duration + TotalFocusTime(history[1..])
  }

  /** Math.round(completed / total * 100) for an exact quotient, or 0 with no sessions. */
  function CompletionRate(history: seq<Session>): (r: int)
    ensures 0 <= r <= 100
    ensures |history| > 0 ==>
      2 * |history| * r <= 200 * CompletedSessions(history) + |history| < 2 * |history| * (r + 1)
  {
    var total, completed := TotalSessions(history), CompletedSessions(history);
    if total > 0 then
      RoundHalfUpWithin(100 * completed, total, 0, 100);
      RoundHalfUp(100 * completed, total)
    else 0
  }

  /** A new record counts once, as completed exactly when it is. */
  lemma CountsOfPrepend(s: Session, history: seq<Session>)
    ensures TotalSessions([s] + history) == TotalSessions(history) + 1
    ensures CompletedSessions([s] + history) == CompletedSessions(history) + (if s.completed then 1 else 0)
    ensures TotalFocusTime([s] + history) == TotalFocusTime(history) + s.duration
  {
    assert ([s] + history)[1..] == history;
  }

  /** The rate is 100 when every session was completed and 0 when none was. */
  lemma CompletionRateExtremes(history: seq<Session>)
    requires |history| > 0
    ensures CompletedSessions(history) == |history| ==> CompletionRate(history) == 100
    ensures CompletedSessions(history) == 0 ==> CompletionRate(history) == 0
  {
    var t := |history|;
    if CompletedSessions(history) == t {
      RoundHalfUpWithin(100 * t, t, 100, 100);
    }
    if CompletedSessions(history) == 0 {
      RoundHalfUpWithin(0, t, 0, 0);
    }
  }

  /** With no negative duration recorded, the total focus time is not negative. */
  lemma {:induction false} TotalFocusTimeNonNegative(history: seq<Session>)
    requires forall i :: 0 <= i < |history| ==> history[i].duration >= 0
    ensures TotalFocusTime(history) >= 0
  {
    if history != [] {
      TotalFocusTimeNonNegative(history[1..]);
    }
  }

  /** A natural focus completion adds one completed session and a full focus period to the summary. */
  lemma FocusCompletionStatistics(st: State, stamp: Stamp)
    requires st.mode == Focus
    ensures var h := TimerComplete(st, stamp).history;
      TotalSessions(h) == TotalSessions(st.history) + 1 &&
      CompletedSessions(h) == CompletedSessions(st.history) + 1 &&
      TotalFocusTime(h) == TotalFocusTime(st.history) + st.settings.focusDuration
  {
    CountsOfPrepend(TimerComplete(st, stamp).history[0], st.history);
  }

  /** Skipping a focus session adds one incomplete session and the elapsed time to the summary. */
  lemma FocusSkipStatistics(st: State, stamp: Stamp)
    requires st.mode == Focus
    ensures var h := Skip(st, stamp).history;
      TotalSessions(h) == TotalSessions(st.history) + 1 &&
      CompletedSessions(h) == CompletedSessions(st.history) &&
      TotalFocusTime(h) == TotalFocusTime(st.history) + st.settings.focusDuration - st.timeRemaining
  {
    CountsOfPrepend(Skip(st, stamp).history[0], st.history);
  }

  /** Shortening the focus period below the time already left and then skipping records a negative duration. */
  lemma ShortenedSkipRecordsNegativeDuration(st: State, stamp: Stamp)
    requires st.mode == Focus && st.status == Running
    requires st.timeRemaining == 1400
    ensures var shortened := UpdateSettings(st, NoChanges.(focusDuration := Some(60)));
      Skip(shortened, stamp).history[0].duration == -1340 &&
      FormatDuration(Skip(shortened, stamp).history[0].duration) == "-23m -20s"
  {
    assert FloorDiv(-1340, 60) == -23;
    assert JsRem(-1340, 60) == -20;
    assert NatToString(23) == NatToString(2) + [DigitChar(3)];
    assert NatToString(20) == NatToString(2) + [DigitChar(0)];
  }
}
