/** The arithmetic of the daily report (generate_report.py): rendering the time since
    the last update with `strfdelta`, the centred league titles and the number of
    scraping slots in a day. */
module Report {

  // ---------------------------------------------------------------------------
  // Decimal rendering

  function Digit(d: nat): char
    requires d < 10
  {
    "0123456789"[d]
  }

  function DigitValue(c: char): nat
  {
    if '0' <= c <= '9' then (c - '0') as nat else 0
  }

  ghost predicate AllDigits(s: string)
  {
    forall k :: 0 <= k < |s| ==> '0' <= s[k] <= '9'
  }

  /** `str(n)` for a nonnegative integer: no leading zeros. */
  function Decimal(n: nat): (s: string)
    ensures |s| >= 1 && AllDigits(s)
    ensures n < 10 <==> |s| == 1
  {
    if n < 10 then [Digit(n)] else Decimal(n / 10) + [Digit(n % 10)]
  }

  /** The value of a string of decimal digits. */
  function Parse(s: string): nat
  {
    if s == [] then 0 else Parse(s[..|s| - 1]) * 10 + DigitValue(s[|s| - 1])
  }

  lemma DigitValueOf(d: nat)
    requires d < 10
    ensures DigitValue(Digit(d)) == d
  {
    var digits := "0123456789";
    assert digits[d] as int - '0' as int == d by {
      assert digits == ['0', '1', '2', '3', '4', '5', '6', '7', '8', '9'];
    }
  }

  /** Reading the rendering back gives the number. */
  lemma {:induction false} ParseDecimal(n: nat)
    ensures Parse(Decimal(n)) == n
  {
    if n < 10 {
      DigitValueOf(n);
      assert Decimal(n)[..0] == [];
    } else {
      ParseDecimal(n / 10);
      DigitValueOf(n % 10);
      var s := Decimal(n);
      assert s[..|s| - 1] == Decimal(n / 10);
    }
  }

  /** A leading zero does not change the value. */
  lemma {:induction false} ParseLeadingZero(s: string)
    ensures Parse("0" + s) == Parse(s)
  {
    if s == [] {
      assert ("0" + s)[..0] == [];
      assert DigitValue('0') == 0;
    } else {
      ParseLeadingZero(s[..|s| - 1]);
      assert ("0" + s)[..|"0" + s| - 1] == "0" + s[..|s| - 1];
    }
  }

  /** `'{:02d}'.format(n)`: at least two digits, zero-padded on the left. */
  function Pad2(n: nat): (s: string)
  {
    if n < 10 then "0" + Decimal(n) else Decimal(n)
  }

  /** The padded rendering has at least two digits, exactly two below 100, and reads
      back as `n`. */
  lemma Pad2Spec(n: nat)
    ensures |Pad2(n)| >= 2 && AllDigits(Pad2(n)) && Parse(Pad2(n)) == n
    ensures n < 100 ==> |Pad2(n)| == 2
  {
    ParseDecimal(n);
    if n < 10 {
      ParseLeadingZero(Decimal(n));
    } else if n < 100 {
      assert |Decimal(n / 10)| == 1;
    }
  }

  /** `str(days)` for a signed day count. */
  function Signed(n: int): string
  {
    if n < 0 then "-" + Decimal(-n) else Decimal(n)
  }

  // ---------------------------------------------------------------------------
  // strfdelta

  /** A `timedelta` as Python normalises it: whole days (possibly negative) and the
      seconds of the last day. */
  datatype Delta = Delta(days: int, seconds: nat)

  const SecondsPerDay := 86400

  /** The normal form of a duration of `total` seconds (floor division, as Python's). */
  function DeltaOf(total: int): (d: Delta)
    ensures d.seconds < SecondsPerDay && d.days * SecondsPerDay + d.seconds == total
  {
    Delta(total / SecondsPerDay, total % SecondsPerDay)
  }

  /** `divmod(seconds, 3600)` then `divmod(rem, 60)`. */
  function Clock(seconds: nat): (hms: (nat, nat, nat))
  {
    (seconds / 3600, (seconds % 3600) / 60, (seconds % 3600) % 60)
  }

  /** Hours, minutes and seconds put back together give the seconds; minutes and
      seconds stay below 60, and hours below 24 within a day. */
  lemma ClockSpec(seconds: nat)
    ensures var (h, m, s) := Clock(seconds); h * 3600 + m * 60 + s == seconds && m < 60 && s < 60
    ensures seconds < SecondsPerDay ==> Clock(seconds).0 < 24
  {
  }

  /** A piece of a format string: literal text or one of the four fields. */
  datatype Piece = Text(text: string) | Days | Hours | Minutes | Seconds

  /** `fmt.format(**d)` with the fields `strfdelta` fills in. */
  function Format(fmt: seq<Piece>, days: string, hours: string, minutes: string, seconds: string): string
  {
    if fmt == [] then ""
    else
      var head := match fmt[0]
        case Text(t) => t
        case Days => days
        case Hours => hours
        case Minutes => minutes
        case Seconds => seconds;
      head + Format(fmt[1..], days, hours, minutes, seconds)
  }

  /** `strfdelta(delta_t, fmt)`. */
  function StrfDelta(delta: Delta, fmt: seq<Piece>): string
  {
    var (h, m, s) := Clock(delta.seconds);
    Format(fmt, Signed(delta.days), Pad2(h), Pad2(m), Pad2(s))
  }

  /** The template the report uses: '{days} days {hours}h:{minutes}m:{seconds}s'. */
  const ReportFormat: seq<Piece> := [Days, Text(" days "), Hours, Text("h:"), Minutes, Text("m:"), Seconds, Text("s")]

  /** The report's template puts the four fields in order between its literal pieces. */
  lemma FormatReport(ds: string, hs: string, ms: string, ss: string)
    ensures Format(ReportFormat, ds, hs, ms, ss) == ds + " days " + hs + "h:" + ms + "m:" + ss + "s"
  {
    var f := ReportFormat;
    assert Format(f[7..], ds, hs, ms, ss) == "s" by { assert f[7..][1..] == []; }
    assert Format(f[6..], ds, hs, ms, ss) == ss + "s" by { assert f[6..][1..] == f[7..]; }
    assert Format(f[5..], ds, hs, ms, ss) == "m:" + (ss + "s") by { assert f[5..][1..] == f[6..]; }
    assert Format(f[4..], ds, hs, ms, ss) == ms + ("m:" + (ss + "s")) by { assert f[4..][1..] == f[5..]; }
    assert Format(f[3..], ds, hs, ms, ss) == "h:" + (ms + ("m:" + (ss + "s"))) by { assert f[3..][1..] == f[4..]; }
    assert Format(f[2..], ds, hs, ms, ss) == hs + ("h:" + (ms + ("m:" + (ss + "s")))) by { assert f[2..][1..] == f[3..]; }
    assert Format(f[1..], ds, hs, ms, ss) == " days " + (hs + ("h:" + (ms + ("m:" + (ss + "s"))))) by { assert f[1..][1..] == f[2..]; }
    assert f[0..] == f;
  }

  /** With the report's template, the text is the day count, then two-digit hours,
      minutes and seconds, which read back to the duration: days * 86400 plus
      hours * 3600 + minutes * 60 + seconds is the duration in seconds. */
  lemma ReportDeltaSpec(total: int)
    ensures var d := DeltaOf(total);
      var (h, m, s) := Clock(d.seconds);
      StrfDelta(d, ReportFormat) == Signed(d.days) + " days " + Pad2(h) + "h:" + Pad2(m) + "m:" + Pad2(s) + "s" &&
      |Pad2(h)| == 2 && |Pad2(m)| == 2 && |Pad2(s)| == 2 &&
      d.days * SecondsPerDay + Parse(Pad2(h)) * 3600 + Parse(Pad2(m)) * 60 + Parse(Pad2(s)) == total
  {
    var d := DeltaOf(total);
    var (h, m, s) := Clock(d.seconds);
    ClockSpec(d.seconds);
    Pad2Spec(h);
    Pad2Spec(m);
    Pad2Spec(s);
    FormatReport(Signed(d.days), Pad2(h), Pad2(m), Pad2(s));
  }

  // ---------------------------------------------------------------------------
  // Titles and sampling slots

  /** `''.rjust(32 - int(len(league_str)/2))`: that many spaces, none for a negative width. */
  function Padding(title: string): (ws: string)
  {
    var width := 32 - |title| / 2;
    seq(if width > 0 then width else 0, _ => ' ')
  }

  /** The title block written for a league. */
  function Title(league: string): string
  {
    var leagueStr := "***** " + league + " *****";
    var ws := Padding(leagueStr);
    "\n\n" + ws + leagueStr + ws + "\n\n"
  }

  /** The padding centres the title on a 64-column line: the padded title is 64
      characters wide for an even length up to 64 and 65 for an odd one. */
  lemma TitleCentred(league: string)
    requires |league| <= 52
    ensures var leagueStr := "***** " + league + " *****";
      var ws := Padding(leagueStr);
      |ws + leagueStr + ws| == 64 + |leagueStr| % 2 &&
      Title(league) == "\n\n" + ws + leagueStr + ws + "\n\n"
  {
  }

  /** `sampling_freq`: minutes between two scrapes. */
  const SamplingFreq := 10

  /** `samples_per_day = int(24*60/sampling_freq)`. */
  function SamplesPerDay(): (n: nat)
  {
    24 * 60 / SamplingFreq
  }

  /** A day holds 144 ten-minute scraping slots, which tile it exactly. */
  lemma SamplesPerDaySpec()
    ensures SamplesPerDay() == 144 && SamplesPerDay() * SamplingFreq * 60 == SecondsPerDay
  {
  }
}
