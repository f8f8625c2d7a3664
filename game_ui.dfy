/** The round timer and kill counter (src/scenes/setup/gameUI.js): a
    countdown from four minutes shown as MM:SS, and a "KILLS: n" counter. */
module GameUi {

  // ---------------------------------------------------------------------
  // Decimal text

  predicate IsDigit(c: char)
  {
    '0' <= c <= '9'
  }

  predicate AllDigits(s: string)
  {
    forall i :: 0 <= i < |s| ==> IsDigit(s[i])
  }

  function DigitChar(d: nat): (c: char)
    requires d < 10
    ensures IsDigit(c) && c as int - '0' as int == d
  {
    (d + '0' as int) as char
  }

  /** `n.toString()` for a non-negative integer. */
  function NatToString(n: nat): (s: string)
    ensures |s| >= 1 && AllDigits(s)
  {
    if n < 10 then [DigitChar(n)] else NatToString(n / 10) + [DigitChar(n % 10)]
  }

  /** The value of a string of decimal digits. */
  function ParseDigits(s: string): nat
    requires AllDigits(s)
  {
    if s == [] then 0 else 10 * ParseDigits(s[..|s| - 1]) + (s[|s| - 1] as int - '0' as int)
  }

  lemma {:induction false} NatToStringRoundTrip(n: nat)
    ensures ParseDigits(NatToString(n)) == n
    ensures n < 10 <==> |NatToString(n)| == 1
    ensures 10 <= n < 100 ==> |NatToString(n)| == 2
  {
    var s := NatToString(n);
    if n < 10 {
      assert s[..0] == [];
    } else {
      NatToStringRoundTrip(n / 10);
      assert s[..|s| - 1] == NatToString(n / 10);
    }
  }

  lemma {:induction false} LeadingZero(s: string)
    requires AllDigits(s)
    ensures AllDigits(['0'] + s) && ParseDigits(['0'] + s) == ParseDigits(s)
    decreases |s|
  {
    if s != [] {
      var z := ['0'] + s;
      assert z[..|z| - 1] == ['0'] + s[..|s| - 1];
      LeadingZero(s[..|s| - 1]);
    } else {
      assert (['0'] + s)[..0] == [];
    }
  }

  /** `padStart(2, '0')`. */
  function Pad2(s: string): (r: string)
    ensures |s| >= 2 ==> r == s
    ensures |s| < 2 ==>
      (|r| == 2 && r[2 - |s|..] == s && forall i :: 0 <= i < 2 - |s| ==> r[i] == '0')
  {
    if |s| >= 2 then s else seq(2 - |s|, _ => '0') + s
  }

  /** The timer text: whole minutes and remaining seconds, each padded to two
      digits. */
  function FormatTime(t: nat): string
  {
    Pad2(NatToString(t / 60)) + ":" + Pad2(NatToString(t % 60))
  }

  /** Below 100 minutes the text is exactly MM:SS and reads back as `t`. */
  lemma FormatTimeRoundTrip(t: nat)
    requires t < 6000
    ensures var r := FormatTime(t);
      && |r| == 5 && r[2] == ':'
      && AllDigits(r[..2]) && AllDigits(r[3..])
      && 60 * ParseDigits(r[..2]) + ParseDigits(r[3..]) == t
  {
    var m, sec := NatToString(t / 60), NatToString(t % 60);
    NatToStringRoundTrip(t / 60);
    NatToStringRoundTrip(t % 60);
    TwoDigits(m);
    TwoDigits(sec);
    var r := FormatTime(t);
    assert r[..2] == Pad2(m) && r[3..] == Pad2(sec);
  }

  /** Padding a string of one or two digits keeps its value. */
  lemma TwoDigits(s: string)
    requires 1 <= |s| <= 2 && AllDigits(s)
    ensures |Pad2(s)| == 2 && AllDigits(Pad2(s)) && ParseDigits(Pad2(s)) == ParseDigits(s)
  {
    if |s| == 1 {
      assert Pad2(s) == ['0'] + s;
      LeadingZero(s);
    }
  }

  const KILLS_PREFIX := "KILLS: "

  /** The number shown after the kill prefix. */
  lemma KillTextRoundTrip(kills: nat)
    ensures var text := KILLS_PREFIX + NatToString(kills);
      text[..7] == KILLS_PREFIX && AllDigits(text[7..]) && ParseDigits(text[7..]) == kills
  {
    NatToStringRoundTrip(kills);
    assert (KILLS_PREFIX + NatToString(kills))[7..] == NatToString(kills);
  }

  // ---------------------------------------------------------------------
  // The interface object

  const ROUND_SECONDS := 240

  class GameUI {
    var timeRemaining: int
    var kills: nat
    /** Whether `timerInterval` holds a running interval. */
    var timerActive: bool
    var timerText: string
    var killCounterText: string
    var gameOverShown: bool

    /** The countdown never goes below zero, runs only while time is left,
        and the timer text shows the time remaining. */
    ghost predicate Valid()
      reads this
    {
      && 0 <= timeRemaining
      && (timerActive ==> timeRemaining > 0)
      && timerText == FormatTime(timeRemaining)
    }

    /** The page's kill counter text and game-over visibility are whatever
        the page starts with. */
    constructor (killCounterText: string, gameOverShown: bool)
      ensures Valid()
      ensures timeRemaining == ROUND_SECONDS && kills == 0 && timerActive
      ensures this.killCounterText == killCounterText && this.gameOverShown == gameOverShown
    {
      timeRemaining := ROUND_SECONDS;
      kills := 0;
      timerActive := false;
      this.killCounterText := killCounterText;
      this.gameOverShown := gameOverShown;
      timerText := FormatTime(ROUND_SECONDS);
      new;
      StartTimer();
    }

    /** Both callers start it with no interval running. */
    method StartTimer()
      requires timeRemaining > 0 && !timerActive
      modifies this`timerText, this`timerActive
      ensures Valid() && timerActive
    {
      UpdateTimerDisplay();
      timerActive := true;
    }

    /** The interval's callback, once a second while the timer runs. */
    method Tick()
      requires Valid() && timerActive
      modifies this`timeRemaining, this`timerText, this`timerActive, this`gameOverShown
      ensures Valid()
      ensures timeRemaining == old(timeRemaining) - 1
      ensures timerActive <==> timeRemaining > 0
      ensures gameOverShown == (old(gameOverShown) || timeRemaining == 0)
    {
      timeRemaining := timeRemaining - 1;
      UpdateTimerDisplay();
      if timeRemaining <= 0 {
        StopTimer();
        GameOver();
      }
    }

    method StopTimer()
      modifies this`timerActive
      ensures !timerActive
    {
      if timerActive {
        timerActive := false;
      }
    }

    method UpdateTimerDisplay()
      requires timeRemaining >= 0
      modifies this`timerText
      ensures timerText == FormatTime(timeRemaining)
    {
      timerText := FormatTime(timeRemaining);
    }

    method IncrementKills()
      modifies this`kills, this`killCounterText
      ensures kills == old(kills) + 1
      ensures killCounterText == KILLS_PREFIX + NatToString(kills)
    {
      kills := kills + 1;
      killCounterText := KILLS_PREFIX + NatToString(kills);
    }

    method GameOver()
      modifies this`gameOverShown
      ensures gameOverShown
    {
      gameOverShown := true;
    }

    method RestartGame()
      modifies this
      ensures Valid()
      ensures timeRemaining == ROUND_SECONDS && kills == 0 && timerActive
      ensures killCounterText == "KILLS: 0" && !gameOverShown
    {
      StopTimer();
      timeRemaining := ROUND_SECONDS;
      kills := 0;
      killCounterText := "KILLS: 0";
      gameOverShown := false;
      StartTimer();
    }
  }

  /** The round starts by showing four minutes. */
  lemma RoundStartsAtFourMinutes()
    ensures FormatTime(ROUND_SECONDS) == "04:00"
  {
    assert ROUND_SECONDS / 60 == 4 && ROUND_SECONDS % 60 == 0;
    assert DigitChar(4) == '4' && DigitChar(0) == '0';
    assert NatToString(4) == "4" && NatToString(0) == "0";
    assert Pad2("4") == "04" && Pad2("0") == "00";
  }
}
