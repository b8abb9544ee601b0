/**
 * The two pure helpers of the progress panel: the duration text shown for a
 * millisecond count ("Nms", "Ns" or "Mm Ss") and the colour class of the
 * progress bar for each lifecycle state. The duration text is given a
 * reader, and the lemmas show that reading the text back yields the
 * milliseconds, the whole seconds, or minutes and seconds that add up to
 * the whole seconds.
 */
module TestProgress {
  import opened Types

  // ---- decimal digits ----

  predicate IsDigit(ch: char)
  {
    '0' <= ch <= '9'
  }

  predicate IsDigits(s: seq<char>)
  {
    s != [] && forall i :: 0 <= i < |s| ==> IsDigit(s[i])
  }

  function DigitChar(d: int): (ch: char)
    requires 0 <= d < 10
    ensures IsDigit(ch)
  {
    (d + '0' as int) as char
  }

  function DigitValue(ch: char): int
  {
    ch as int - '0' as int
  }

  /** The decimal text of a non-negative integer, as a template literal
      renders it: digits only, no sign and no leading zero. */
  function NatToString(n: nat): (s: string)
    ensures IsDigits(s)
    ensures s[0] == '0' ==> n == 0
    decreases n
  {
    if n < 10 then [DigitChar(n)] else NatToString(n / 10) + [DigitChar(n % 10)]
  }

  /** The decimal text of any integer: a minus sign before the digits of a
      negative one. */
  function IntToString(n: int): (s: string)
    ensures n >= 0 ==> s == NatToString(n)
    ensures n < 0 ==> s == "-" + NatToString(-n)
    ensures s != [] && (s[0] == '-' <==> n < 0)
    ensures n >= 0 ==> IsDigits(s) && ParseNat(s) == n
  {
    ParseNatToString(if n >= 0 then n else -n);
    if n >= 0 then NatToString(n) else "-" + NatToString(-n)
  }

  /** The value of a digit string. */
  function ParseNat(s: seq<char>): nat
  {
    if s == [] then 0
    else
      var d := DigitValue(s[|s| - 1]);
      ParseNat(s[..|s| - 1]) * 10 + (if 0 <= d < 10 then d else 0)
  }

  /** Reading the decimal text of n gives back n. */
  lemma {:induction false} ParseNatToString(n: nat)
    ensures ParseNat(NatToString(n)) == n
    decreases n
  {
    var s := NatToString(n);
    if n >= 10 {
      ParseNatToString(n / 10);
      assert s[..|s| - 1] == NatToString(n / 10);
    }
  }

  // ---- formatTime ----

  /** The duration text of a millisecond count: the count itself below one
      second, whole seconds below one minute, minutes and the remaining
      seconds otherwise. */
  function FormatTime(ms: int): (s: string)
    ensures |s| >= 2 && s[|s| - 1] == 's'
    ensures ms < 1000 <==> s[|s| - 2] == 'm'
  {
    if ms < 1000 then IntToString(ms) + "ms"
    else
      var seconds := ms / 1000;
      if seconds < 60 then NatToString(seconds) + "s"
      else
        var minutes := seconds / 60;
        var remainingSeconds := seconds % 60;
        NatToString(minutes) + "m " + NatToString(remainingSeconds) + "s"
  }

  /** What a duration text says. */
  datatype Reading = Millis(ms: nat) | Seconds(seconds: nat) | MinSec(minutes: nat, seconds: nat)

  /** The position of the first 'm' in s, or |s| when there is none. */
  function FirstM(s: seq<char>): (i: nat)
    ensures i <= |s|
    ensures forall k :: 0 <= k < i ==> s[k] != 'm'
    ensures i < |s| ==> s[i] == 'm'
  {
    if s == [] then 0
    else if s[0] == 'm' then 0
    else 1 + FirstM(s[1..])
  }

  /** Reads a duration text of one of the three shapes; any other text reads
      as nothing. */
  function ReadDuration(s: string): (r: Option<Reading>)
    ensures r.Some? ==> s != [] && s[|s| - 1] == 's'
  {
    if |s| >= 3 && s[|s| - 2..] == "ms" && IsDigits(s[..|s| - 2]) then
      Some(Millis(ParseNat(s[..|s| - 2])))
    else if |s| >= 2 && s[|s| - 1] == 's' && IsDigits(s[..|s| - 1]) then
      Some(Seconds(ParseNat(s[..|s| - 1])))
    else if |s| >= 2 && s[|s| - 1] == 's' then
      var body := s[..|s| - 1];
      var i := FirstM(body);
      if i + 2 <= |body| && body[i..i + 2] == "m " && IsDigits(body[..i]) && IsDigits(body[i + 2..]) then
        Some(MinSec(ParseNat(body[..i]), ParseNat(body[i + 2..])))
      else None
    else None
  }

  /** The number of whole seconds a reading of at least one second stands
      for. */
  function WholeSeconds(r: Reading): nat
  {
    match r
    case Millis(ms) => ms / 1000
    case Seconds(s) => s
    case MinSec(m, s) => 60 * m + s
  }

  /** A count below one second reads back as that many milliseconds. */
  lemma ReadMillis(ms: int)
    requires 0 <= ms < 1000
    ensures ReadDuration(FormatTime(ms)) == Some(Millis(ms))
  {
    var d := NatToString(ms);
    var s := FormatTime(ms);
    assert s == d + "ms";
    assert s[..|s| - 2] == d;
    assert s[|s| - 2..] == "ms";
    ParseNatToString(ms);
  }

  /** A count below one minute reads back as its whole seconds, a number
      from 1 to 59. */
  lemma ReadSeconds(ms: int)
    requires 1000 <= ms < 60000
    ensures ReadDuration(FormatTime(ms)) == Some(Seconds(ms / 1000))
    ensures 1 <= ms / 1000 <= 59
  {
    var d := NatToString(ms / 1000);
    var s := FormatTime(ms);
    assert s == d + "s";
    assert s[..|s| - 1] == d;
    assert s[|s| - 2] != 'm' by { assert s[|s| - 2] == d[|d| - 1]; }
    assert !(s[|s| - 2..] == "ms");
    ParseNatToString(ms / 1000);
  }

  /** A text of the minutes-and-seconds shape reads back as those minutes
      and seconds. */
  lemma ReadMinSecText(minutes: nat, seconds: nat)
    ensures ReadDuration(NatToString(minutes) + "m " + NatToString(seconds) + "s")
      == Some(MinSec(minutes, seconds))
  {
    var m, r := NatToString(minutes), NatToString(seconds);
    var body := m + "m " + r;
    var s := body + "s";
    assert s[..|s| - 1] == body;
    assert s[|s| - 2] != 'm' by { assert s[|s| - 2] == r[|r| - 1]; }
    assert !(s[|s| - 2..] == "ms");
    assert !IsDigits(body) by { assert body[|m|] == 'm'; }
    assert FirstM(body) == |m| by {
      assert forall k :: 0 <= k < |m| ==> body[k] == m[k];
      assert body[|m|] == 'm';
    }
    assert body[..|m|] == m;
    assert body[|m|..|m| + 2] == "m ";
    assert body[|m| + 2..] == r;
    ParseNatToString(minutes);
    ParseNatToString(seconds);
  }

  /** A count of a minute or more reads back as minutes and seconds: the
      seconds are below 60, the minutes at least 1, and together they are
      all the whole seconds, so none is lost. */
  lemma ReadMinutes(ms: int)
    requires ms >= 60000
    ensures var r := ReadDuration(FormatTime(ms));
      && r == Some(MinSec(ms / 1000 / 60, ms / 1000 % 60))
      && r.value.seconds < 60 && r.value.minutes >= 1
      && WholeSeconds(r.value) == ms / 1000
  {
    var seconds := ms / 1000;
    assert FormatTime(ms) == NatToString(seconds / 60) + "m " + NatToString(seconds % 60) + "s";
    ReadMinSecText(seconds / 60, seconds % 60);
  }

  /** Every reading of a count of at least one second accounts for exactly
      its whole seconds. */
  lemma FormatTimeKeepsSeconds(ms: int)
    requires ms >= 1000
    ensures ReadDuration(FormatTime(ms)).Some?
    ensures WholeSeconds(ReadDuration(FormatTime(ms)).value) == ms / 1000
  {
    if ms < 60000 {
      ReadSeconds(ms);
    } else {
      ReadMinutes(ms);
    }
  }

  // ---- getStatusColor ----

  /** The colour class of the progress bar: blue while running, green when
      completed, red when failed, and gray for anything else (only the idle
      state, for which the panel is not shown). */
  function StatusColor(status: Status): (color: string)
    ensures StatusOfColor(color) == Some(status)
  {
    match status
    case Running => "bg-blue-600"
    case Completed => "bg-green-600"
    case Failed => "bg-red-600"
    case Idle => "bg-gray-600"
  }

  /** The state a colour class shows. */
  function StatusOfColor(color: string): Option<Status>
  {
    if color == "bg-blue-600" then Some(Running)
    else if color == "bg-green-600" then Some(Completed)
    else if color == "bg-red-600" then Some(Failed)
    else if color == "bg-gray-600" then Some(Idle)
    else None
  }

  /** Each state has its own colour: the colour tells the state back, so no
      two states share one. */
  lemma StatusColorDistinct(status: Status)
    ensures StatusOfColor(StatusColor(status)) == Some(status)
    ensures forall other: Status :: other != status ==> StatusColor(other) != StatusColor(status)
  {
    assert StatusColor(Running) != StatusColor(Completed);
  }
}
