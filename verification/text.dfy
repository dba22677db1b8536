/** Optional values and results, the failure vocabulary shared by every module. */
module Basics {
  datatype Option<+T> = None | Some(value: T)

  datatype Result<+T, +E> = Ok(value: T) | Err(error: E)

  function Min(a: int, b: int): int
  {
    if a <= b then a else b
  }

  /** The elements of `s` that satisfy `p`, in their original order. */
  function Filter<T>(s: seq<T>, p: T -> bool): (r: seq<T>)
    ensures |r| <= |s|
    ensures forall k :: 0 <= k < |r| ==> p(r[k])
    decreases |s|
  {
    if |s| == 0 then []
    else if p(s[0]) then [s[0]] + Filter(s[1..], p)
    else Filter(s[1..], p)
  }

  /** `Filter` keeps exactly the elements that satisfy the predicate. */
  lemma {:induction false} FilterMembers<T>(s: seq<T>, p: T -> bool, x: T)
    ensures x in Filter(s, p) <==> x in s && p(x)
    decreases |s|
  {
    if |s| > 0 {
      FilterMembers(s[1..], p, x);
      assert s == [s[0]] + s[1..];
    }
  }

  /** When every element satisfies the predicate, `Filter` returns the whole sequence. */
  lemma {:induction false} FilterKeepsAll<T>(s: seq<T>, p: T -> bool)
    requires forall k :: 0 <= k < |s| ==> p(s[k])
    ensures Filter(s, p) == s
    decreases |s|
  {
    if |s| > 0 {
      FilterKeepsAll(s[1..], p);
      assert s == [s[0]] + s[1..];
    }
  }

  /** Filtering a sequence extended by one element. */
  lemma {:induction false} FilterSnoc<T>(s: seq<T>, x: T, p: T -> bool)
    ensures Filter(s + [x], p) == if p(x) then Filter(s, p) + [x] else Filter(s, p)
    decreases |s|
  {
    if |s| == 0 {
      assert [x][1..] == [];
    } else {
      assert (s + [x])[1..] == s[1..] + [x];
      FilterSnoc(s[1..], x, p);
    }
  }
}

/**
 * The handful of Python string operations the trading code relies on
 * (`sub in s`, `s.split(sep)`, `str(n)`), over `string == seq<char>`.
 */
module Text {
  import opened Basics

  /** `sub` occurs in `s` starting at index `i`. */
  predicate OccursAt(s: string, sub: string, i: int)
  {
    0 <= i <= |s| - |sub| && s[i..i + |sub|] == sub
  }

  /** Python's `sub in s`: some window of `s` equals `sub` (the empty string occurs everywhere). */
  predicate Contains(s: string, sub: string)
  {
    exists i | 0 <= i <= |s| - |sub| :: OccursAt(s, sub, i)
  }

  /** A string that contains `sub` still contains it inside any longer string. */
  lemma ContainsInConcat(pre: string, s: string, post: string, sub: string)
    requires Contains(s, sub)
    ensures Contains(pre + s + post, sub)
  {
    var i :| 0 <= i <= |s| - |sub| && OccursAt(s, sub, i);
    assert (pre + s + post)[|pre| + i..|pre| + i + |sub|] == s[i..i + |sub|];
    assert OccursAt(pre + s + post, sub, |pre| + i);
  }

  /** Python's `s.split(sep)` for a one-character separator: always at least one part. */
  function Split(s: string, sep: char): (parts: seq<string>)
    ensures |parts| >= 1
    ensures forall k :: 0 <= k < |parts| ==> sep !in parts[k]
    decreases |s|
  {
    if |s| == 0 then [""]
    else if s[0] == sep then [""] + Split(s[1..], sep)
    else
      var rest := Split(s[1..], sep);
      [[s[0]] + rest[0]] + rest[1..]
  }

  /** Python's `sep.join(parts)`. */
  function Join(parts: seq<string>, sep: char): string
    requires |parts| >= 1
    decreases |parts|
  {
    if |parts| == 1 then parts[0] else parts[0] + [sep] + Join(parts[1..], sep)
  }

  /** Prefixing the first part with a character prefixes the joined text with it. */
  lemma JoinPrefixFirst(ch: char, parts: seq<string>, sep: char)
    requires |parts| >= 1
    ensures Join([[ch] + parts[0]] + parts[1..], sep) == [ch] + Join(parts, sep)
  {
    var first := [ch] + parts[0];
    var moved := [first] + parts[1..];
    assert moved[0] == first && moved[1..] == parts[1..];
    if |parts| > 1 {
      var tail := Join(parts[1..], sep);
      assert Join(moved, sep) == first + [sep] + tail;
      assert Join(parts, sep) == parts[0] + [sep] + tail;
      assert first + [sep] + tail == [ch] + (parts[0] + [sep] + tail);
    }
  }

  /** Splitting loses nothing: joining the parts back gives the original string. */
  lemma {:induction false} JoinSplit(s: string, sep: char)
    ensures Join(Split(s, sep), sep) == s
    decreases |s|
  {
    if |s| > 0 {
      var rest := Split(s[1..], sep);
      JoinSplit(s[1..], sep);
      if s[0] != sep {
        JoinPrefixFirst(s[0], rest, sep);
      } else {
        var parts := [""] + rest;
        assert parts[0] == "" && parts[1..] == rest;
        assert Join(parts, sep) == "" + [sep] + Join(rest, sep);
      }
      assert s == [s[0]] + s[1..];
    }
  }

  /** A string without the separator is not split at all. */
  lemma {:induction false} SplitWithoutSeparator(s: string, sep: char)
    requires sep !in s
    ensures Split(s, sep) == [s]
    decreases |s|
  {
    if |s| > 0 {
      assert sep !in s[1..] by {
        forall k | 0 <= k < |s[1..]| ensures s[1..][k] != sep {
          assert s[1..][k] == s[k + 1];
        }
      }
      SplitWithoutSeparator(s[1..], sep);
      assert s == [s[0]] + s[1..];
    }
  }

  predicate IsDigit(ch: char)
  {
    '0' <= ch <= '9'
  }

  predicate AllDigits(s: string)
  {
    forall k :: 0 <= k < |s| ==> IsDigit(s[k])
  }

  function DigitChar(d: int): (ch: char)
    requires 0 <= d < 10
    ensures IsDigit(ch)
  {
    ('0' as int + d) as char
  }

  function DigitValue(ch: char): (d: int)
    requires IsDigit(ch)
    ensures 0 <= d < 10
  {
    ch as int - '0' as int
  }

  /** Python's `str(n)` for a natural number: decimal digits, no leading zero. */
  function NatToString(n: nat): (r: string)
    ensures |r| >= 1 && AllDigits(r)
    decreases n
  {
    if n < 10 then [DigitChar(n)] else NatToString(n / 10) + [DigitChar(n % 10)]
  }

  /** Python's `str(i)` for an integer. */
  function IntToString(i: int): string
  {
    if i < 0 then "-" + NatToString(-i) else NatToString(i)
  }

  /** Value of a string of decimal digits (the inverse of `NatToString`). */
  function ParseNat(s: string): nat
    requires AllDigits(s)
    decreases |s|
  {
    if |s| == 0 then 0 else ParseNat(s[..|s| - 1]) * 10 + DigitValue(s[|s| - 1])
  }

  /** Printing and parsing a natural number round-trip. */
  lemma {:induction false} ParseNatToString(n: nat)
    ensures ParseNat(NatToString(n)) == n
    decreases n
  {
    var r := NatToString(n);
    if n >= 10 {
      ParseNatToString(n / 10);
      assert r[..|r| - 1] == NatToString(n / 10);
    }
  }

  /** The length of the run of digits that `s` starts with. */
  function DigitRun(s: string): (n: nat)
    ensures n <= |s|
    decreases |s|
  {
    if |s| == 0 || !IsDigit(s[0]) then 0 else 1 + DigitRun(s[1..])
  }

  /** Digits followed by a non-digit: the run is exactly the digits. */
  lemma {:induction false} DigitRunOf(a: string, u: string)
    requires AllDigits(a) && |u| > 0 && !IsDigit(u[0])
    ensures DigitRun(a + u) == |a|
    decreases |a|
  {
    if |a| > 0 {
      assert (a + u)[1..] == a[1..] + u;
      DigitRunOf(a[1..], u);
    }
  }

  /**
   * A run of digits followed by a text starting with a non-digit is read back
   * unambiguously: the digits and the rest are both determined.
   */
  lemma DigitsThenText(a: string, u: string, b: string, w: string)
    requires AllDigits(a) && AllDigits(b)
    requires |u| > 0 && !IsDigit(u[0]) && |w| > 0 && !IsDigit(w[0])
    requires a + u == b + w
    ensures a == b && u == w
  {
    DigitRunOf(a, u);
    DigitRunOf(b, w);
    assert a == (a + u)[..|a|] == (b + w)[..|b|] == b;
    assert u == (a + u)[|a|..] == (b + w)[|b|..] == w;
  }

  /** `str` is injective on natural numbers. */
  lemma NatToStringInjective(m: nat, n: nat)
    requires NatToString(m) == NatToString(n)
    ensures m == n
  {
    ParseNatToString(m);
    ParseNatToString(n);
  }

  // ---------------------------------------------------------------- int(text)

  /** The ASCII characters that Python's `int()` strips as white space. */
  predicate IsSpace(ch: char)
  {
    9 <= ch as int <= 13 || 28 <= ch as int <= 32
  }

  /** `s` without its leading white space. */
  function TrimStart(s: string): (r: string)
    ensures |r| <= |s| && r == s[|s| - |r|..]
    ensures |r| > 0 ==> !IsSpace(r[0])
    decreases |s|
  {
    if |s| > 0 && IsSpace(s[0]) then TrimStart(s[1..]) else s
  }

  /** `s` without its trailing white space. */
  function TrimEnd(s: string): (r: string)
    ensures |r| <= |s| && r == s[..|r|]
    ensures |r| > 0 ==> !IsSpace(r[|r| - 1])
    decreases |s|
  {
    if |s| > 0 && IsSpace(s[|s| - 1]) then TrimEnd(s[..|s| - 1]) else s
  }

  /** `digit (["_"] digit)*`: decimal digits, with single underscores between two of them. */
  predicate Grouped(s: string)
    decreases |s|
  {
    |s| > 0 && IsDigit(s[0])
    && (|s| == 1 || if s[1] == '_' then Grouped(s[2..]) else Grouped(s[1..]))
  }

  /** The digits of a grouped text, its underscores dropped. */
  function Ungrouped(s: string): (r: string)
    requires Grouped(s)
    ensures |r| >= 1 && AllDigits(r)
    decreases |s|
  {
    if |s| == 1 then s
    else [s[0]] + if s[1] == '_' then Ungrouped(s[2..]) else Ungrouped(s[1..])
  }

  /**
   * Python's `int(text)`: an optional sign and grouped digits, with white
   * space around them; anything else raises `ValueError` (`None`).
   */
  function ParseInt(text: string): Option<int>
  {
    ParseStripped(TrimEnd(TrimStart(text)))
  }

  /** `int()` once the white space is stripped. */
  function ParseStripped(t: string): Option<int>
  {
    if |t| > 0 && t[0] == '-' then Negated(ParseDigits(t[1..]))
    else if |t| > 0 && t[0] == '+' then ParseDigits(t[1..])
    else ParseDigits(t)
  }

  /** The value of grouped digits. */
  function ParseDigits(t: string): Option<int>
  {
    if Grouped(t) then Some(ParseNat(Ungrouped(t))) else None
  }

  /** `-n`, or the failure of reading `n`. */
  function Negated(n: Option<int>): Option<int>
  {
    if n.Some? then Some(-n.value) else None
  }

  /** A non-empty run of digits is grouped, and dropping its underscores changes nothing. */
  lemma {:induction false} DigitsGrouped(s: string)
    requires |s| > 0 && AllDigits(s)
    ensures Grouped(s) && Ungrouped(s) == s
    decreases |s|
  {
    if |s| > 1 {
      assert AllDigits(s[1..]) by {
        forall k | 0 <= k < |s[1..]| ensures IsDigit(s[1..][k]) {
          assert s[1..][k] == s[k + 1];
        }
      }
      DigitsGrouped(s[1..]);
      assert s == [s[0]] + s[1..];
    }
  }

  /** `int()` of a run of digits is its decimal value. */
  lemma ParseIntDigits(s: string)
    requires |s| > 0 && AllDigits(s)
    ensures ParseInt(s) == Some(ParseNat(s))
  {
    assert TrimStart(s) == s;
    assert TrimEnd(s) == s;
    DigitsGrouped(s);
  }

  /** `int(str(i)) == i` for every integer. */
  lemma ParseIntToString(i: int)
    ensures ParseInt(IntToString(i)) == Some(i)
  {
    var s := IntToString(i);
    var digits := NatToString(if i < 0 then -i else i);
    assert TrimStart(s) == s;
    assert TrimEnd(s) == s by {
      assert s[|s| - 1] == digits[|digits| - 1];
    }
    DigitsGrouped(digits);
    ParseNatToString(if i < 0 then -i else i);
    if i < 0 {
      assert s[1..] == digits;
    }
  }

  /** `int()` strips the white space around the number. */
  lemma ParseIntSpaces()
    ensures ParseInt(" 26\n") == Some(26)
  {
    assert TrimStart(" 26\n") == "26\n";
    assert TrimEnd("26\n") == "26";
    assert Grouped("26") && Ungrouped("26") == "26" && ParseNat("26") == 26;
    assert ParseDigits("26") == Some(26);
    assert ParseStripped("26") == Some(26);
  }

  /** `int()` reads a sign. */
  lemma ParseIntSigned()
    ensures ParseInt("+26") == Some(26) && ParseInt("-7") == Some(-7)
  {
    assert TrimStart("+26") == "+26" && TrimEnd("+26") == "+26";
    assert "+26"[1..] == "26";
    assert Grouped("26") && Ungrouped("26") == "26" && ParseNat("26") == 26;
    assert ParseDigits("26") == Some(26);
    assert ParseStripped("+26") == Some(26);
    assert TrimStart("-7") == "-7" && TrimEnd("-7") == "-7";
    assert "-7"[1..] == "7";
    assert Grouped("7") && Ungrouped("7") == "7" && ParseNat("7") == 7;
    assert ParseDigits("7") == Some(7);
    assert ParseStripped("-7") == Some(-7);
  }

  /** `int()` reads underscores between digits. */
  lemma ParseIntGrouped()
    ensures ParseInt("2_6") == Some(26)
  {
    assert TrimStart("2_6") == "2_6" && TrimEnd("2_6") == "2_6";
    var t := "2_6";
    assert t[0] == '2' && t[1] == '_' && t[2..] == "6";
    assert Grouped("6") && Ungrouped("6") == "6";
    assert Grouped(t) && Ungrouped(t) == "26" && ParseNat("26") == 26;
    assert ParseDigits("2_6") == Some(26);
    assert ParseStripped("2_6") == Some(26);
  }

  /** `int()` rejects a doubled underscore and a space after the sign. */
  lemma ParseIntRejects()
    ensures ParseInt("2__6") == None && ParseInt("- 5") == None
  {
    assert TrimStart("2__6") == "2__6" && TrimEnd("2__6") == "2__6";
    assert "2__6"[2..] == "_6";
    assert !Grouped("2__6");
    assert ParseStripped("2__6") == None;
    assert TrimStart("- 5") == "- 5" && TrimEnd("- 5") == "- 5";
    assert "- 5"[1..] == " 5";
    assert !Grouped(" 5");
    assert ParseStripped("- 5") == None;
  }

  /** `[int(x) for x in texts]`, or `None` when some `int(x)` raises. */
  function ParseInts(texts: seq<string>): (r: Option<seq<int>>)
    ensures r.Some? ==> |r.value| == |texts| && forall k :: 0 <= k < |texts| ==> ParseInt(texts[k]) == Some(r.value[k])
    ensures r.None? ==> exists k :: 0 <= k < |texts| && ParseInt(texts[k]).None?
    decreases |texts|
  {
    if |texts| == 0 then Some([])
    else
      var first, rest := ParseInt(texts[0]), ParseInts(texts[1..]);
      if first.None? || rest.None? then None else Some([first.value] + rest.value)
  }

  /** One text is read as the one-element list of its value. */
  lemma ParseIntsSingle(t: string)
    ensures ParseInts([t]) == if ParseInt(t).Some? then Some([ParseInt(t).value]) else None
  {
    assert [t][1..] == [];
    assert ParseInts([t][1..]) == Some([]);
    if ParseInt(t).Some? {
      assert [ParseInt(t).value] + [] == [ParseInt(t).value];
    }
  }
}
