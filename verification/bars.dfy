/**
 * Bar sizes (trading_framework/bars.py): the broker's names for bar sizes,
 * the longest history duration to request for each, and the conversion of a
 * bar size in seconds into the broker's name.
 */
module Bars {
  import opened Basics
  import opened Text
  import Fixed

  /**
   * `barSize2durationStr`: every bar size the broker accepts, with the duration
   * string that gets the most bars out of one historical request.
   */
  const DurationTable: map<string, string> := map[
    "1 secs" := "1800 S",
    "5 secs" := "3600 S",
    "10 secs" := "14400 S",
    "15 secs" := "14400 S",
    "30 secs" := "28800 S",
    "1 min" := "1 D",
    "2 mins" := "2 D",
    "3 mins" := "1 W",
    "5 mins" := "1 W",
    "10 mins" := "1 W",
    "15 mins" := "1 W",
    "20 mins" := "1 W",
    "30 mins" := "1 M",
    "1 hour" := "1 M",
    "2 hours" := "1 M",
    "3 hours" := "1 M",
    "4 hours" := "1 M",
    "8 hours" := "1 M",
    "1 day" := "1 Y",
    "1 week" := "1 Y",
    "1 month" := "1 Y"
  ]

  /** How a bar series is indexed: by timestamps (intraday bars) or by dates. */
  datatype IndexKind = DateTimeIndex | DateIndex

  /** The classification of `barSize2indextype`: a name mentioning sec, min or hour is intraday. */
  function IndexKindOf(barSize: string): IndexKind
  {
    if Contains(barSize, "sec") || Contains(barSize, "min") || Contains(barSize, "hour")
    then DateTimeIndex
    else DateIndex
  }

  /** `barSize2indextype`, built from the duration table key by key. */
  const IndexTable: map<string, IndexKind> := map k | k in DurationTable :: IndexKindOf(k)

  /** The index table covers the same bar sizes as the duration table. */
  lemma IndexTableKeys()
    ensures IndexTable.Keys == DurationTable.Keys
  {
  }

  /** A text missing one of the characters of `sub` does not contain `sub`. */
  lemma MissingCharacter(s: string, sub: string, ch: char)
    requires ch in sub && ch !in s
    ensures !Contains(s, sub)
  {
    var j :| 0 <= j < |sub| && sub[j] == ch;
    forall i | 0 <= i <= |s| - |sub|
      ensures !OccursAt(s, sub, i)
    {
      assert s[i..i + |sub|][j] == s[i + j];
    }
  }

  /** A name with none of the letters c, i and r mentions no second, minute or hour. */
  lemma NoIntradayWord(name: string)
    requires 'c' !in name && 'i' !in name && 'r' !in name
    ensures IndexKindOf(name) == DateIndex
  {
    MissingCharacter(name, "sec", 'c');
    MissingCharacter(name, "min", 'i');
    MissingCharacter(name, "hour", 'r');
  }

  /** The daily, weekly and monthly names are indexed by dates. */
  lemma IndexTableDaily(name: string)
    requires name == "1 day" || name == "1 week" || name == "1 month"
    ensures IndexTable[name] == DateIndex
  {
    if name == "1 day" {
      NoIntradayWord("1 day");
    } else if name == "1 week" {
      NoIntradayWord("1 week");
    } else {
      NoIntradayWord("1 month");
    }
  }

  /** A name made of a count, a unit word after a space, and a suffix mentions that word. */
  lemma MentionsWord(count: string, spacedWord: string, suffix: string)
    requires |spacedWord| > 0
    ensures Contains(count + spacedWord + suffix, spacedWord[1..])
  {
    var name := count + spacedWord + suffix;
    var word := spacedWord[1..];
    assert name[|count| + 1..|count| + 1 + |word|] == word;
    assert OccursAt(name, word, |count| + 1);
  }

  /** The name `barsize2barsize_string` builds before it looks it up in the duration table. */
  function CandidateName(barsize: int): string
  {
    if barsize < 60 then IntToString(barsize) + " sec" + (if barsize > 1 then "s" else "")
    else if barsize <= 1800 then
      var minutes := barsize / 60;
      IntToString(minutes) + " min" + (if minutes > 1 then "s" else "")
    else if barsize <= 28800 then
      var hours := barsize / 3600;
      IntToString(hours) + " hour" + (if hours > 1 then "s" else "")
    else ""
  }

  /**
   * `barsize2barsize_string`: the broker's name for a bar size in seconds, or
   * `None` when the name built is not one the broker supports.
   */
  function BarSizeString(barsize: int): (r: Option<string>)
    ensures r.Some? ==> r.value in DurationTable
  {
    var name := CandidateName(barsize);
    if name in DurationTable then Some(name) else None
  }

  /** Every name built up to 8 hours mentions its unit, second, minute or hour. */
  lemma CandidateMentionsUnit(barsize: int)
    requires barsize <= 28800
    ensures IndexKindOf(CandidateName(barsize)) == DateTimeIndex
  {
    if barsize < 60 {
      MentionsWord(IntToString(barsize), " sec", if barsize > 1 then "s" else "");
      assert " sec"[1..] == "sec";
    } else if barsize <= 1800 {
      var v := barsize / 60;
      MentionsWord(IntToString(v), " min", if v > 1 then "s" else "");
      assert " min"[1..] == "min";
    } else {
      var v := barsize / 3600;
      MentionsWord(IntToString(v), " hour", if v > 1 then "s" else "");
      assert " hour"[1..] == "hour";
    }
  }

  /** Every name that comes back is an intraday one: its series are indexed by timestamps. */
  lemma BarSizeStringIntraday(barsize: int)
    requires BarSizeString(barsize).Some?
    ensures IndexTable[BarSizeString(barsize).value] == DateTimeIndex
  {
    if barsize <= 28800 {
      CandidateMentionsUnit(barsize);
    } else {
      BarSizeStringGaps(barsize);
    }
  }

  /** Every key of the duration table starts with a digit. */
  lemma TableKeysStartWithDigit()
    ensures forall name :: name in DurationTable ==> |name| > 0 && IsDigit(name[0])
  {
  }

  /**
   * Nothing up to one second has a name: one second is rendered "1 sec",
   * which the table spells "1 secs", and zero or negative sizes give "0 sec"
   * or a name starting with "-".
   */
  lemma BarSizeStringBelowTwoSeconds(barsize: int)
    requires barsize <= 1
    ensures BarSizeString(barsize) == None
  {
    var name := CandidateName(barsize);
    if barsize < 0 {
      TableKeysStartWithDigit();
      assert name[0] == '-';
    } else if barsize == 0 {
      assert name == "0 sec";
    } else {
      assert name == "1 sec";
    }
  }

  /** Nothing between 30 minutes and 1 hour ("0 hour") and nothing above 8 hours has a name. */
  lemma BarSizeStringGaps(barsize: int)
    requires 1800 < barsize < 3600 || barsize > 28800
    ensures BarSizeString(barsize) == None
  {
    var name := CandidateName(barsize);
    if barsize < 3600 {
      assert name == "0 hour";
    } else {
      assert name == "";
    }
  }

  /** Inside the minute range only whole minutes count. */
  lemma BarSizeStringWholeMinutes(barsize: int)
    requires 60 <= barsize <= 1800
    ensures BarSizeString(barsize) == BarSizeString(60 * (barsize / 60))
  {
    Fixed.MulDivExact(barsize / 60, 60);
  }

  /** Inside the hour range only whole hours count. */
  lemma BarSizeStringWholeHours(barsize: int)
    requires 3600 <= barsize <= 28800
    ensures BarSizeString(barsize) == BarSizeString(3600 * (barsize / 3600))
  {
    Fixed.MulDivExact(barsize / 3600, 3600);
  }

  /** The name built for a whole number of minutes. */
  lemma CandidateMinutes(minutes: int)
    requires 1 <= minutes <= 30
    ensures CandidateName(60 * minutes) == IntToString(minutes) + " min" + (if minutes > 1 then "s" else "")
  {
    Fixed.MulDivExact(minutes, 60);
  }

  /** The name built for a whole number of hours. */
  lemma CandidateHours(hours: int)
    requires 1 <= hours <= 8
    ensures CandidateName(3600 * hours) == IntToString(hours) + " hour" + (if hours > 1 then "s" else "")
  {
    Fixed.MulDivExact(hours, 3600);
  }

  /** One name per unit, reached from its length in seconds. */
  lemma BarSizeStringExamples()
    ensures BarSizeString(5) == Some("5 secs")
    ensures BarSizeString(300) == Some("5 mins")
    ensures BarSizeString(7200) == Some("2 hours")
  {
    assert CandidateName(5) == "5 secs";
    CandidateMinutes(5);
    assert CandidateName(300) == "5 mins";
    CandidateHours(2);
    assert CandidateName(7200) == "2 hours";
  }

  /** The top of the minute range and of the hour range still have names. */
  lemma BarSizeStringRangeTops()
    ensures BarSizeString(1800) == Some("30 mins")
    ensures BarSizeString(28800) == Some("8 hours")
  {
    CandidateMinutes(30);
    assert CandidateName(1800) == "30 mins";
    CandidateHours(8);
    assert CandidateName(28800) == "8 hours";
  }
}
