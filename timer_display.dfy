/** The timer face: the MM:SS countdown text, the mode title and the session number. */
module TimerDisplay {
  import opened Decimal
  import opened TimerModel

  /** `n.toString().padStart(2, '0')`: at least two digits, exactly two below 100, reading back as `n`. */
  function Padded(n: nat): (r: string)
    ensures |r| >= 2 && (n < 100 ==> |r| == 2)
    ensures AllDigits(r) && ParseNat(r) == n
  {
    ParsePadStartZero(n);
    PadStart(NatToString(n), 2, '0')
  }

  /** Two fields joined by ':'; the second is two characters long, so the colon is third from the end. */
  function Join(x: string, y: string): (r: string)
    requires |y| == 2
    ensures |r| == |x| + 3 && r[|r| - 3] == ':'
    ensures r[..|r| - 3] == x && r[|r| - 2..] == y
  {
    var r := x + ":" + y;
    assert r[..|r| - 3] == x;
    assert r[|r| - 2..] == y;
    r
  }

  /** formatTime: whole minutes and remaining seconds, each padded to two digits, joined by ':'. */
  function FormatTime(seconds: nat): string {
    Join(Padded(seconds / 60), Padded(seconds % 60))
  }

  /** The minutes and seconds a MM:SS text shows; -1 for a text that is not of that form. */
  function ReadTime(r: string): int {
    if |r| >= 5 && r[|r| - 3] == ':' && AllDigits(r[..|r| - 3]) && AllDigits(r[|r| - 2..])
    then ParseNat(r[..|r| - 3]) * 60 + ParseNat(r[|r| - 2..])
    else -1
  }

  /** The seconds field is always two digits after the colon; below 100 minutes the text is MM:SS. */
  lemma FormatTimeShape(seconds: nat)
    ensures var r := FormatTime(seconds);
      |r| >= 5 && r[|r| - 3] == ':' && AllDigits(r[..|r| - 3]) && AllDigits(r[|r| - 2..]) &&
      ParseNat(r[|r| - 2..]) < 60
    ensures seconds < 6000 ==> |FormatTime(seconds)| == 5 && FormatTime(seconds)[2] == ':'
  {
  }

  /** Reading the two fields back as minutes and seconds gives the time that was shown. */
  lemma FormatTimeRoundTrip(seconds: nat)
    ensures ReadTime(FormatTime(seconds)) == seconds
  {
    ReadJoin(Padded(seconds / 60), Padded(seconds % 60));
  }

  /** Joined digit fields read back as minutes times 60 plus seconds. */
  lemma ReadJoin(x: string, y: string)
    requires |x| >= 2 && |y| == 2 && AllDigits(x) && AllDigits(y)
    ensures ReadTime(Join(x, y)) == ParseNat(x) * 60 + ParseNat(y)
  {
  }

  /** Different times show different texts. */
  lemma FormatTimeInjective(a: nat, b: nat)
    requires FormatTime(a) == FormatTime(b)
    ensures a == b
  {
    FormatTimeRoundTrip(a);
    FormatTimeRoundTrip(b);
  }

  /** getModeTitle. */
  function ModeTitle(m: Mode): string {
    match m
    case Focus => "Focus Time"
    case ShortBreak => "Short Break"
    case LongBreak => "Long Break"
  }

  /** Each mode has its own title. */
  lemma ModeTitleInjective(a: Mode, b: Mode)
    requires ModeTitle(a) == ModeTitle(b)
    ensures a == b
  {
  }

  /** The number shown as "Session: n": the session in progress, counting from 1. */
  function SessionNumber(st: State): (n: nat)
    ensures n >= 1
  {
    st.sessionsCompleted + 1
  }

  /** The label text, and that its number reads back. */
  function SessionLabel(st: State): (r: string)
    ensures |r| > 9 && r[..9] == "Session: " && AllDigits(r[9..]) && ParseNat(r[9..]) == st.sessionsCompleted + 1
  {
    ParseNatToString(SessionNumber(st));
    "Session: " + NatToString(SessionNumber(st))
  }
}
