/** The integer and string formatters of src/utils/format.ts: `truncate`,
    `formatDuration` and `getInitials`, with the decimal rendering of integers
    (`${n}`) and the string splitting they rely on. */
module Format {
  import opened Common

  function Min(a: int, b: int): int { if a <= b then a else b }
  function Max(a: int, b: int): int { if a >= b then a else b }

  // ---------------------------------------------------------------------------
  // Decimal rendering of integers, `${n}` in a template literal

  predicate IsDigit(c: char)
  {
    '0' <= c <= '9'
  }

  function DigitChar(d: nat): (c: char)
    requires d < 10
    ensures IsDigit(c)
  {
    (48 + d) as char
  }

  function DigitValue(c: char): nat
    requires IsDigit(c)
  {
    c as int - 48
  }

  /** The decimal digits of `n`: at least one digit, and no leading zero. */
  function NatToDecimal(n: nat): (s: string)
    ensures |s| >= 1
    ensures forall i :: 0 <= i < |s| ==> IsDigit(s[i])
    ensures |s| > 1 ==> s[0] != '0'
  {
    if n < 10 then [DigitChar(n)] else NatToDecimal(n / 10) + [DigitChar(n % 10)]
  }

  /** `${i}` for an integer: a minus sign before the digits of a negative number. */
  function IntToDecimal(i: int): (s: string)
    ensures |s| >= 1
    ensures s[0] == '-' <==> i < 0
    ensures forall k :: 0 < k < |s| ==> IsDigit(s[k])
  {
    if i < 0 then "-" + NatToDecimal(-i) else NatToDecimal(i)
  }

  /** The number a string of decimal digits denotes, read most significant first. */
  function DecimalValue(s: string): nat
    requires forall i :: 0 <= i < |s| ==> IsDigit(s[i])
  {
    if s == [] then 0 else 10 * DecimalValue(s[..|s| - 1]) + DigitValue(s[|s| - 1])
  }

  /** Reading the rendered digits back gives the number again. */
  lemma {:induction false} DecimalRoundTrip(n: nat)
    ensures DecimalValue(NatToDecimal(n)) == n
  {
    if n >= 10 {
      var s := NatToDecimal(n);
      assert s[..|s| - 1] == NatToDecimal(n / 10);
      DecimalRoundTrip(n / 10);
    }
  }

  /** The number of decimal digits at the front of `s`. */
  function LeadingDigits(s: string): (k: nat)
    ensures k <= |s|
    ensures forall i :: 0 <= i < k ==> IsDigit(s[i])
    ensures k < |s| ==> !IsDigit(s[k])
  {
    if s == [] || !IsDigit(s[0]) then 0 else 1 + LeadingDigits(s[1..])
  }

  lemma {:induction false} LeadingDigitsOf(digits: string, rest: string)
    requires forall i :: 0 <= i < |digits| ==> IsDigit(digits[i])
    requires rest == [] || !IsDigit(rest[0])
    ensures LeadingDigits(digits + rest) == |digits|
  {
    if digits != [] {
      assert (digits + rest)[1..] == digits[1..] + rest;
      LeadingDigitsOf(digits[1..], rest);
    }
  }

  // ---------------------------------------------------------------------------
  // formatDuration

  const Minutes := "分钟"
  const Hours := "小时"

  /** `formatDuration(minutes)`: under an hour, the minutes; otherwise whole hours,
      followed by the remaining minutes unless there are none. */
  function FormatDuration(minutes: int): (r: string)
    ensures |r| > |Minutes| && (r[|r| - |Minutes|..] == Minutes || r[|r| - |Hours|..] == Hours)
    ensures minutes < 60 ==> r[|r| - |Minutes|..] == Minutes
  {
    if minutes < 60 then IntToDecimal(minutes) + Minutes
    else
      var hours, mins := minutes / 60, minutes % 60;
      if mins == 0 then IntToDecimal(hours) + Hours
      else IntToDecimal(hours) + Hours + IntToDecimal(mins) + Minutes
  }

  /** Reads `{m}分钟` back into `m`. */
  function ReadMinutes(s: string): Option<nat>
  {
    var k := LeadingDigits(s);
    if k == 0 || s[k..] != Minutes then None else Some(DecimalValue(s[..k]))
  }

  /** Reads a duration text back into minutes: `{n}分钟`, `{h}小时` or
      `{h}小时{m}分钟`, with `m` below 60. */
  function ParseDuration(s: string): Option<int>
  {
    var k := LeadingDigits(s);
    if k == 0 then None else ParseUnits(DecimalValue(s[..k]), s[k..])
  }

  /** What follows the leading number `n` of a duration text. */
  function ParseUnits(n: nat, rest: string): Option<int>
  {
    if rest == Minutes then Some(n)
    else if rest == Hours then Some(60 * n)
    else if |rest| > |Hours| && rest[..|Hours|] == Hours then
      match ReadMinutes(rest[|Hours|..])
      case Some(m) => if m < 60 then Some(60 * n + m) else None
      case None => None
    else None
  }

  /** A rendered number followed by a unit is read as that number and that unit. */
  lemma ParseNumberThen(n: nat, rest: string)
    requires rest != [] && !IsDigit(rest[0])
    ensures ParseDuration(NatToDecimal(n) + rest) == ParseUnits(n, rest)
  {
    var d := NatToDecimal(n);
    LeadingDigitsOf(d, rest);
    assert (d + rest)[..|d|] == d;
    assert (d + rest)[|d|..] == rest;
    DecimalRoundTrip(n);
  }

  lemma ReadMinutesOf(mins: nat)
    ensures ReadMinutes(NatToDecimal(mins) + Minutes) == Some(mins)
  {
    var m := NatToDecimal(mins);
    LeadingDigitsOf(m, Minutes);
    assert (m + Minutes)[..|m|] == m;
    assert (m + Minutes)[|m|..] == Minutes;
    DecimalRoundTrip(mins);
  }

  lemma ParseMinutes(n: nat)
    ensures ParseDuration(NatToDecimal(n) + Minutes) == Some(n)
  {
    ParseNumberThen(n, Minutes);
  }

  lemma ParseHours(hours: nat)
    ensures ParseDuration(NatToDecimal(hours) + Hours) == Some(60 * hours)
  {
    ParseNumberThen(hours, Hours);
  }

  lemma UnitsHoursAndMinutes(hours: nat, mins: nat)
    requires mins < 60
    ensures ParseUnits(hours, Hours + (NatToDecimal(mins) + Minutes)) == Some(60 * hours + mins)
  {
    var tail := NatToDecimal(mins) + Minutes;
    var rest := Hours + tail;
    assert rest[0] != Minutes[0];
    assert rest[..|Hours|] == Hours && rest[|Hours|..] == tail;
    ReadMinutesOf(mins);
  }

  lemma ParseHoursAndMinutes(hours: nat, mins: nat)
    requires mins < 60
    ensures ParseDuration(NatToDecimal(hours) + Hours + NatToDecimal(mins) + Minutes) == Some(60 * hours + mins)
  {
    var rest := Hours + (NatToDecimal(mins) + Minutes);
    assert NatToDecimal(hours) + Hours + NatToDecimal(mins) + Minutes == NatToDecimal(hours) + rest;
    ParseNumberThen(hours, rest);
    UnitsHoursAndMinutes(hours, mins);
  }

  /** The hour/minute split is exact: `hours * 60 + mins == minutes` with
      `0 <= mins < 60`, so a duration text always reads back as its minutes. */
  lemma DurationRoundTrip(minutes: nat)
    ensures ParseDuration(FormatDuration(minutes)) == Some(minutes)
  {
    if minutes < 60 {
      ParseMinutes(minutes);
    } else if minutes % 60 == 0 {
      ParseHours(minutes / 60);
    } else {
      ParseHoursAndMinutes(minutes / 60, minutes % 60);
    }
  }

  /** A whole number of hours renders without a minutes part. */
  lemma WholeHours(hours: nat)
    requires hours >= 1
    ensures FormatDuration(60 * hours) == NatToDecimal(hours) + Hours
  {
    assert (60 * hours) / 60 == hours && (60 * hours) % 60 == 0;
  }

  /** Past the first hour, a duration that is not a whole number of hours renders
      as its hours followed by the remaining minutes. */
  lemma HoursAndMinutes(hours: nat, mins: nat)
    requires hours >= 1 && 0 < mins < 60
    ensures FormatDuration(60 * hours + mins) == NatToDecimal(hours) + Hours + NatToDecimal(mins) + Minutes
  {
    assert (60 * hours + mins) / 60 == hours && (60 * hours + mins) % 60 == mins;
  }

  // ---------------------------------------------------------------------------
  // truncate

  /** `text.slice(0, end)`: the prefix up to `end`, a negative `end` counting back
      from the end of the text. */
  function SlicePrefix(text: string, end: int): (r: string)
    ensures r == text[..if end < 0 then Max(|text| + end, 0) else Min(end, |text|)]
  {
    if end < 0 then text[..Max(|text| + end, 0)] else text[..Min(end, |text|)]
  }

  /** `truncate(text, length)`. */
  function Truncate(text: string, length: int): (r: string)
    ensures |text| <= length ==> r == text
    ensures 0 <= length < |text| ==> |r| == length + 3 && r[..length] == text[..length] && r[length..] == "..."
    ensures length < |text| ==> |r| >= 3 && r[..|r| - 3] <= text && r[|r| - 3..] == "..."
  {
    if |text| <= length then text else SlicePrefix(text, length) + "..."
  }

  // ---------------------------------------------------------------------------
  // getInitials

  /** `s.split(' ')`: the pieces between single spaces, empty pieces included. */
  function Split(s: string): (words: seq<string>)
    ensures |words| >= 1
    ensures forall i :: 0 <= i < |words| ==> ' ' !in words[i]
  {
    if s == [] then [""]
    else if s[0] == ' ' then [""] + Split(s[1..])
    else
      var rest := Split(s[1..]);
      [[s[0]] + rest[0]] + rest[1..]
  }

  /** `words.join(' ')`. */
  function Join(words: seq<string>): (r: string)
    ensures words != [] ==> words[0] <= r
  {
    if words == [] then ""
    else if |words| == 1 then words[0]
    else words[0] + " " + Join(words[1..])
  }

  /** Splitting at spaces loses nothing: joining the pieces gives the text back. */
  lemma {:induction false} SplitJoin(s: string)
    ensures Join(Split(s)) == s
  {
    if s != [] {
      SplitJoin(s[1..]);
      var rest := Split(s[1..]);
      if s[0] == ' ' {
        assert Split(s) == [""] + rest;
        assert s == [' '] + s[1..];
      } else {
        var words := Split(s);
        if |rest| == 1 {
          assert words == [[s[0]] + rest[0]];
        } else {
          assert words[1..] == rest[1..];
          assert Join(rest) == rest[0] + " " + Join(rest[1..]);
        }
      }
    }
  }

  /** `words.map(w => w[0]).join('')`: the first character of every piece, an empty
      piece contributing nothing. */
  function FirstChars(words: seq<string>): (r: string)
    ensures |r| <= |words|
  {
    if words == [] then "" else words[0][..Min(1, |words[0]|)] + FirstChars(words[1..])
  }

  /** The characters of `s` that begin a word: non-space characters at the very
      start (when `atStart`) or right after a space. */
  function WordStarts(s: string, atStart: bool): (r: string)
    ensures forall i :: 0 <= i < |r| ==> r[i] in s && r[i] != ' '
  {
    if s == [] then ""
    else if s[0] == ' ' then WordStarts(s[1..], true)
    else (if atStart then [s[0]] else "") + WordStarts(s[1..], false)
  }

  /** Taking the first character of each piece of the split is the same as taking
      every character that starts a word. */
  lemma {:induction false} FirstCharsAreWordStarts(s: string)
    ensures FirstChars(Split(s)) == WordStarts(s, true)
    ensures FirstChars(Split(s)[1..]) == WordStarts(s, false)
  {
    if s != [] {
      FirstCharsAreWordStarts(s[1..]);
      var rest := Split(s[1..]);
      if s[0] == ' ' {
        assert Split(s)[1..] == rest;
      } else {
        var w := [s[0]] + rest[0];
        assert Split(s)[1..] == rest[1..];
        assert w[..1] == [s[0]];
      }
    }
  }

  function UpperAscii(c: char): char
  {
    if 'a' <= c <= 'z' then (c as int - 32) as char else c
  }

  /** `toUpperCase` on ASCII letters; other characters are left as they are. */
  function ToUpper(s: string): (r: string)
    ensures |r| == |s|
    ensures forall i :: 0 <= i < |s| ==> r[i] == UpperAscii(s[i])
  {
    seq(|s|, i requires 0 <= i < |s| => UpperAscii(s[i]))
  }

  /** `getInitials(name)`: at most two characters, the upper-cased first letters of
      the first words of `name`. */
  function GetInitials(name: string): (r: string)
    ensures |r| <= 2
    ensures |r| == Min(2, |WordStarts(name, true)|)
    ensures r == ToUpper(WordStarts(name, true))[..|r|]
  {
    FirstCharsAreWordStarts(name);
    var all := ToUpper(FirstChars(Split(name)));
    all[..Min(2, |all|)]
  }
}
