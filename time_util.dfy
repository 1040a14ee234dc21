/**
 * `util.ParseDuration`: a duration written in a word form ("20 days",
 * "3 hours") or a short form ("48h", "1m"), both anchored at either end.
 * Durations are counted in whole hours. A month or year span depends on the
 * calendar at the time of the call, so it is kept symbolic.
 */
module TimeUtil {
  import opened Text

  /** How far back a parsed duration reaches. */
  datatype Span = Hours(hours: int) | Months(months: int) | Years(years: int)

  /** The alternatives of group 2 in `^(\d+)\s*(hour|day|month|year)s?$`. */
  const WordUnits: set<string> := {"hour", "day", "month", "year"}

  /** The alternatives of group 2 in `^(\d+)\s*(h|d|m|y)$`. */
  const ShortUnits: set<string> := {"h", "d", "m", "y"}

  /**
   * The unit group captured when `tail` is everything after the digits and the
   * spaces: the word form is tried first, then the short form.
   */
  function UnitOf(tail: string): (u: Option<string>)
    ensures u.Some? ==> u.value in WordUnits + ShortUnits
  {
    if tail in WordUnits then Some(tail)
    else if tail != [] && tail[|tail| - 1] == 's' && tail[..|tail| - 1] in WordUnits then Some(tail[..|tail| - 1])
    else if tail in ShortUnits then Some(tail)
    else None
  }

  /**
   * The tails the two expressions accept, and the unit each captures: a word
   * unit with an optional plural 's', or a short unit on its own.
   */
  lemma UnitOfExactly(t: string, u: string)
    ensures UnitOf(t) == Some(u) <==>
      (u in WordUnits && (t == u || t == u + "s")) || (u in ShortUnits && t == u)
  {
  }

  /** The conversion switch: "h"/"hour" in hours, "d"/"day" in 24-hour days; "m" is a month. */
  function Convert(value: int, unit: string): Span
    requires unit in WordUnits + ShortUnits
  {
    if unit == "h" || unit == "hour" then Hours(value)
    else if unit == "d" || unit == "day" then Hours(value * 24)
    else if unit == "m" || unit == "month" then Months(value)
    else Years(value)
  }

  /** A word unit and its one-letter form are the same unit: "hour" and "h", "day" and "d", and so on. */
  lemma WordMatchesLetter(value: int, u: string)
    requires u in WordUnits
    ensures u[..1] in ShortUnits && Convert(value, u) == Convert(value, u[..1])
  {
    assert u == "hour" || u == "day" || u == "month" || u == "year";
    assert "hour"[..1] == "h" && "day"[..1] == "d" && "month"[..1] == "m" && "year"[..1] == "y";
  }

  function FormatError(s: string): string
  {
    "invalid duration format: " + s + ". Use a format like '20 days' or '1m'"
  }

  /** `util.ParseDuration`, with the two regular expressions written as a scanner. */
  function ParseDuration(s: string): Result<Span>
  {
    var n := RunEnd(s, 0, IsDigit);
    var m := RunEnd(s, n, IsRegexSpace);
    if n == 0 then Err(FormatError(s))
    else
      DigitRunIsDigits(s, 0);
      match UnitOf(s[m..])
      case None => Err(FormatError(s))
      case Some(u) =>
        match Atoi(s[..n])
        case Err(e) => Err(e)
        case Ok(v) => Ok(Convert(v, u))
  }

  /**
   * The shape both expressions accept, independent of the scanner: a non-empty
   * digit run `s[..i]`, RE2 white space `s[i..j]`, then a unit suffix `s[j..]`.
   */
  ghost predicate Form(s: string, i: int, j: int)
  {
    0 < i <= j <= |s| && AllDigits(s[..i]) && AllIn(s[i..j], IsRegexSpace) && UnitOf(s[j..]).Some?
  }

  /** In a well-formed string the digits and the spaces are exactly the maximal runs. */
  lemma FormIsScanned(s: string, i: int, j: int)
    requires Form(s, i, j)
    ensures RunEnd(s, 0, IsDigit) == i
    ensures RunEnd(s, i, IsRegexSpace) == j
  {
    var tail := s[j..];
    assert tail != [] && !IsDigit(tail[0]) && !IsRegexSpace(tail[0]);
    assert s[j] == tail[0];
    forall k | 0 <= k < i ensures IsDigit(s[k]) {
      assert s[..i][k] == s[k];
    }
    if i < j {
      assert s[i..j][0] == s[i];
    }
    RunEndIsUnique(s, 0, IsDigit, i);
    forall k | i <= k < j ensures IsRegexSpace(s[k]) {
      assert s[i..j][k - i] == s[k];
    }
    RunEndIsUnique(s, i, IsRegexSpace, j);
  }

  /** Every well-formed string whose number fits an `int` parses, to the converted value. */
  lemma ParseDurationAccepts(s: string, i: int, j: int)
    requires Form(s, i, j) && Decimal(s[..i]) <= MaxInt
    ensures ParseDuration(s) == Ok(Convert(Decimal(s[..i]), UnitOf(s[j..]).value))
  {
    FormIsScanned(s, i, j);
  }

  /** A well-formed string whose number overflows `int` is an error. */
  lemma ParseDurationOverflow(s: string, i: int, j: int)
    requires Form(s, i, j) && Decimal(s[..i]) > MaxInt
    ensures ParseDuration(s).Err?
  {
    FormIsScanned(s, i, j);
  }

  /** Whatever parses is well formed, and its value is the converted digit run. */
  lemma ParseDurationSound(s: string)
    ensures ParseDuration(s).Ok? ==>
      exists i, j :: Form(s, i, j) && ParseDuration(s).value == Convert(Decimal(s[..i]), UnitOf(s[j..]).value)
  {
    var n := RunEnd(s, 0, IsDigit);
    var m := RunEnd(s, n, IsRegexSpace);
    if ParseDuration(s).Ok? {
      DigitRunIsDigits(s, 0);
      RunInClass(s, n, IsRegexSpace);
      assert Form(s, n, m);
    }
  }

  /** "days" is the plural of the word unit "day": 24 hours each. */
  lemma DaysExample()
    ensures ParseDuration("20 days") == Ok(Hours(480))
  {
    var s := "20 days";
    assert UnitOf(s[3..]) == Some("day") by { assert s[3..] == "days" && "days"[..3] == "day"; }
    assert Decimal(s[..2]) == 20 by { assert s[..2] == "20" && "20"[..1] == "2"; }
    assert Form(s, 2, 3) by {
      assert s[2..3] == " " && s[..2] == "20";
    }
    ParseDurationAccepts(s, 2, 3);
  }

  lemma ShortHoursExample()
    ensures ParseDuration("48h") == Ok(Hours(48))
  {
    assert "48h"[2..] == "h";
    assert "48h"[..2] == "48" && Decimal("48") == 48 by { assert "48"[..1] == "4"; }
    ParseDurationAccepts("48h", 2, 2);
  }

  /** In the short form "m" means a month, not a minute. */
  lemma ShortMonthExample()
    ensures ParseDuration("1m") == Ok(Months(1))
  {
    assert "1m"[1..] == "m" && "1m"[..1] == "1";
    ParseDurationAccepts("1m", 1, 1);
  }

  /** Both forms are anchored: leading or trailing extra text is an error. */
  lemma LeadingSpaceRejected()
    ensures ParseDuration(" 3d").Err?
  {
    assert RunEnd(" 3d", 0, IsDigit) == 0;
  }

  lemma DoubledPluralRejected()
    ensures ParseDuration("3 dayss").Err?
  {
    var s := "3 dayss";
    assert RunEnd(s, 0, IsDigit) == 1 by { RunEndIsUnique(s, 0, IsDigit, 1); }
    assert RunEnd(s, 1, IsRegexSpace) == 2 by { RunEndIsUnique(s, 1, IsRegexSpace, 2); }
    assert s[2..] == "dayss" && "dayss"[..4] == "days";
  }

  lemma TrailingSpaceRejected()
    ensures ParseDuration("3d ").Err?
  {
    var s := "3d ";
    assert RunEnd(s, 0, IsDigit) == 1 by { RunEndIsUnique(s, 0, IsDigit, 1); }
    assert RunEnd(s, 1, IsRegexSpace) == 1;
    assert s[1..] == "d " && "d "[..1] == "d";
  }

  lemma MinutesRejected()
    ensures ParseDuration("3 minutes").Err?
  {
    var s := "3 minutes";
    assert RunEnd(s, 0, IsDigit) == 1 by { RunEndIsUnique(s, 0, IsDigit, 1); }
    assert RunEnd(s, 1, IsRegexSpace) == 2 by { RunEndIsUnique(s, 1, IsRegexSpace, 2); }
    assert UnitOf(s[2..]).None? by {
      assert s[2..] == "minutes" && "minutes"[..6] == "minute";
    }
  }
}
