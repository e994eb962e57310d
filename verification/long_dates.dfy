/** Long-form date conversion (`parse_long_form_date` in functions.py):
    "Sunday 25th January 2026" becomes "25/01/2026".

    `parse_long_form_date` runs two regular-expression substitutions and then
    `datetime.strptime(cleaned, "%d %B %Y")` followed by `strftime("%d/%m/%Y")`.
    Each stage is modelled separately:
      1. every whole-word weekday name is deleted (`\b(?:Monday|…|Sunday)\b`);
      2. an ordinal suffix after a digit run is deleted (`(\d+)(st|nd|rd|th)`);
      3. surrounding whitespace is stripped;
      4. the rest must be a day, a full month name and a four-digit year
         separated by whitespace runs, and must name a real calendar day. */
module LongFormDates {
  import opened Wrappers
  import opened Chars

  datatype Date = Date(day: nat, month: nat, year: nat)

  /** Both failures are a `ValueError` in `parse_long_form_date`: the text does not have
      the `<day> <Month> <Year>` shape, or it names no real day. */
  datatype DateError = Malformed | OutOfRange

  const Weekdays: seq<string> :=
    ["Monday", "Tuesday", "Wednesday", "Thursday", "Friday", "Saturday", "Sunday"]

  const Months: seq<string> :=
    ["January", "February", "March", "April", "May", "June", "July",
     "August", "September", "October", "November", "December"]

  /** The ordinal suffixes "st", "nd", "rd" and "th", letter by letter. */
  predicate IsOrdinalSuffix(a: char, b: char) {
    (a == 's' && b == 't') || (a == 'n' && b == 'd') || (a == 'r' && b == 'd') || (a == 't' && b == 'h')
  }

  predicate OrdinalSuffix(x: string) { |x| == 2 && IsOrdinalSuffix(x[0], x[1]) }

  /** A capitalised word: an upper-case letter followed by lower-case letters. */
  predicate Capitalised(x: string) {
    x != [] && IsUpper(x[0]) && forall k :: 1 <= k < |x| ==> IsLower(x[k])
  }

  // ---------------------------------------------------------------------
  // Stage 1: weekday removal

  /** The position in `Weekdays` of the name beginning with the letters `a`,
      `b`, or -1. The seven names have pairwise distinct first two letters, so
      at most one alternative of the weekday pattern in functions.py can match at a given
      position. */
  function WeekdayIndex(a: char, b: char): (i: int)
    ensures -1 <= i < |Weekdays|
    ensures 0 <= i ==> |Weekdays[i]| >= 6 && Weekdays[i][0] == a && Weekdays[i][1] == b
  {
    if a == 'M' && b == 'o' then 0
    else if a == 'T' && b == 'u' then 1
    else if a == 'W' && b == 'e' then 2
    else if a == 'T' && b == 'h' then 3
    else if a == 'F' && b == 'r' then 4
    else if a == 'S' && b == 'a' then 5
    else if a == 'S' && b == 'u' then 6
    else -1
  }

  /** The weekday name `s` starts with, if any. */
  function WeekdayAt(s: string): (r: Option<string>)
    ensures r.Some? ==> r.value in Weekdays && r.value <= s && 6 <= |r.value|
  {
    if |s| >= 2 then
      var i := WeekdayIndex(s[0], s[1]);
      if 0 <= i && Weekdays[i] <= s then Some(Weekdays[i]) else None
    else None
  }

  /** Deletes every weekday name that stands as a whole word. `afterWord`
      tells whether the character before `s` in the original text was a word
      character, which decides the leading `\b`. */
  function RemoveWeekdays(s: string, afterWord: bool): string
    decreases |s|
  {
    if s == [] then []
    else
      var w := WeekdayAt(s);
      if !afterWord && w.Some? && (|w.value| == |s| || !IsWordChar(s[|w.value|])) then
        RemoveWeekdays(s[|w.value|..], true)
      else
        [s[0]] + RemoveWeekdays(s[1..], IsWordChar(s[0]))
  }

  // ---------------------------------------------------------------------
  // Stage 2: ordinal suffixes

  /** Deletes an ordinal suffix that follows a digit. Scanning left to right,
      this has the effect of the substitution `(\d+)(st|nd|rd|th)` -> `\1`:
      a suffix letter is never a digit, so the digit run always ends right
      before the suffix. */
  function StripOrdinals(s: string): string
    decreases |s|
  {
    if s == [] then []
    else if IsDigit(s[0]) && |s| >= 3 && IsOrdinalSuffix(s[1], s[2]) then [s[0]] + StripOrdinals(s[3..])
    else [s[0]] + StripOrdinals(s[1..])
  }

  /** The text handed to `strptime`. */
  function Clean(s: string): string {
    Strip(StripOrdinals(RemoveWeekdays(s, false)))
  }

  // ---------------------------------------------------------------------
  // Stage 4: "%d %B %Y"

  predicate IsToken(t: string) { t != [] && forall k :: 0 <= k < |t| ==> !IsSpace(t[k]) }

  predicate IsGap(g: string) { g != [] && Blank(g) }

  /** The end of the whitespace-free run of `s` that starts at `i`. */
  function TokenEnd(s: string, i: nat): (j: nat)
    requires i <= |s|
    ensures i <= j <= |s|
    ensures forall k :: i <= k < j ==> !IsSpace(s[k])
    ensures j == |s| || IsSpace(s[j])
    decreases |s| - i
  {
    if i == |s| || IsSpace(s[i]) then i else TokenEnd(s, i + 1)
  }

  /** The end of the whitespace run of `s` that starts at `i`. */
  function GapEnd(s: string, i: nat): (j: nat)
    requires i <= |s|
    ensures i <= j <= |s|
    ensures forall k :: i <= k < j ==> IsSpace(s[k])
    ensures j == |s| || !IsSpace(s[j])
    decreases |s| - i
  {
    if i == |s| || !IsSpace(s[i]) then i else GapEnd(s, i + 1)
  }

  /** The three fields of the format with the whitespace between them. */
  datatype Pieces = Pieces(day: string, gap1: string, month: string, gap2: string, year: string)

  function Joined(p: Pieces): string {
    p.day + (p.gap1 + (p.month + (p.gap2 + p.year)))
  }

  predicate WellFormed(p: Pieces) {
    IsToken(p.day) && IsGap(p.gap1) && IsToken(p.month) && IsGap(p.gap2) && IsToken(p.year)
  }

  /** Splits `t` into exactly three whitespace-free tokens separated by
      whitespace runs (`strptime` turns each blank of the format into `\s+`
      and demands that the whole text be consumed). */
  function SplitDayMonthYear(t: string): (r: Option<Pieces>)
    ensures r.Some? ==> Joined(r.value) == t && WellFormed(r.value)
  {
    var i := TokenEnd(t, 0);
    var u := t[i..];
    var j := GapEnd(u, 0);
    var v := u[j..];
    var k := TokenEnd(v, 0);
    var w := v[k..];
    var l := GapEnd(w, 0);
    var y := w[l..];
    if i == 0 || j == 0 || k == 0 || l == 0 || y == [] || TokenEnd(y, 0) != |y| then None
    else
      TokenSplit(t);
      GapSplit(u);
      TokenSplit(v);
      GapSplit(w);
      TokenSplit(y);
      Some(Pieces(t[..i], u[..j], v[..k], w[..l], y))
  }

  lemma TokenSplit(s: string)
    ensures var n := TokenEnd(s, 0);
      && (forall k :: 0 <= k < |s[..n]| ==> !IsSpace(s[..n][k]))
      && s == s[..n] + s[n..]
  {
  }

  lemma GapSplit(s: string)
    ensures var n := GapEnd(s, 0);
      Blank(s[..n]) && s == s[..n] + s[n..]
  {
  }

  /** `%d`: the alternatives `3[01]|[12]\d|0[1-9]|[1-9]`. */
  function DayValue(tok: string): (r: Option<nat>)
    ensures r.Some? ==> 1 <= r.value <= 31 && AllDigits(tok) && r.value == DecimalValue(tok)
  {
    if |tok| == 1 && '1' <= tok[0] <= '9' then
      DecimalOfOne(tok);
      Some(DecimalValue(tok))
    else if |tok| == 2 && IsDigit(tok[0]) && IsDigit(tok[1])
         && ((tok[0] == '3' && tok[1] <= '1') || tok[0] == '1' || tok[0] == '2' || (tok[0] == '0' && tok[1] != '0')) then
      DecimalOfTwo(tok);
      Some(DecimalValue(tok))
    else None
  }

  predicate EqualsIgnoringCase(a: string, b: string) {
    |a| == |b| && forall k :: 0 <= k < |a| ==> ToLower(a[k]) == ToLower(b[k])
  }

  function MonthIndexFrom(tok: string, i: nat): (r: Option<nat>)
    requires i <= |Months|
    ensures r.Some? ==> i < r.value <= |Months| && EqualsIgnoringCase(tok, Months[r.value - 1])
    ensures r.None? ==> forall j :: i <= j < |Months| ==> !EqualsIgnoringCase(tok, Months[j])
    decreases |Months| - i
  {
    if i == |Months| then None
    else if EqualsIgnoringCase(tok, Months[i]) then Some(i + 1)
    else MonthIndexFrom(tok, i + 1)
  }

  /** `%B`: a full English month name in any letter case, as its number 1..12. */
  function MonthIndex(tok: string): (r: Option<nat>)
    ensures r.Some? ==> 1 <= r.value <= 12 && EqualsIgnoringCase(tok, Months[r.value - 1])
    ensures r.None? ==> forall j :: 0 <= j < 12 ==> !EqualsIgnoringCase(tok, Months[j])
  {
    MonthIndexFrom(tok, 0)
  }

  /** `%Y`: exactly four digits. */
  function YearValue(tok: string): (r: Option<nat>)
    ensures r.Some? <==> |tok| == 4 && AllDigits(tok)
    ensures r.Some? ==> r.value < 10000 && r.value == DecimalValue(tok)
  {
    if |tok| == 4 && AllDigits(tok) then
      DecimalOfFour(tok);
      Some(DecimalValue(tok))
    else None
  }

  predicate IsLeapYear(y: nat) { y % 4 == 0 && (y % 100 != 0 || y % 400 == 0) }

  function DaysInMonth(month: nat, year: nat): nat
    requires 1 <= month <= 12
  {
    if month == 2 then (if IsLeapYear(year) then 29 else 28)
    else if month == 4 || month == 6 || month == 9 || month == 11 then 30
    else 31
  }

  /** A day Python's `datetime` accepts: years 1..9999 and a day that exists
      in its month. */
  predicate ValidDate(dt: Date) {
    && 1 <= dt.year <= 9999
    && 1 <= dt.month <= 12
    && 1 <= dt.day <= DaysInMonth(dt.month, dt.year)
  }

  // ---------------------------------------------------------------------
  // The whole conversion

  /** `datetime.strptime(t, "%d %B %Y")`: a real day whose three fields are
      read from the three tokens of `t`. */
  function ReadDate(t: string): (r: Result<Date, DateError>)
    ensures r.Success? ==> ValidDate(r.value)
    ensures r.Success? ==>
      && SplitDayMonthYear(t).Some?
      && DayValue(SplitDayMonthYear(t).value.day) == Some(r.value.day)
      && EqualsIgnoringCase(SplitDayMonthYear(t).value.month, Months[r.value.month - 1])
      && YearValue(SplitDayMonthYear(t).value.year) == Some(r.value.year)
  {
    match SplitDayMonthYear(t)
    case None => Failure(Malformed)
    case Some(p) =>
      var day, month, year := DayValue(p.day), MonthIndex(p.month), YearValue(p.year);
      if day.None? || month.None? || year.None? then Failure(Malformed)
      else
        var dt := Date(day.value, month.value, year.value);
        if ValidDate(dt) then Success(dt) else Failure(OutOfRange)
  }

  /** The date the long-form text `s` names. */
  function ParseDate(s: string): Result<Date, DateError> {
    ReadDate(Clean(s))
  }

  /** `strftime("%d/%m/%Y")`: day and month as two digits, year as four. */
  function FormatDate(dt: Date): (r: string)
    requires dt.day < 100 && dt.month < 100 && dt.year < 10000
  {
    Pad2(dt.day) + "/" + Pad2(dt.month) + "/" + Pad4(dt.year)
  }

  /** Reads a `dd/mm/yyyy` string back into its three numbers. */
  function DecodeNumericDate(r: string): Option<Date> {
    if |r| == 10 && r[2] == '/' && r[5] == '/'
       && AllDigits(r[..2]) && AllDigits(r[3..5]) && AllDigits(r[6..])
    then Some(Date(DecimalValue(r[..2]), DecimalValue(r[3..5]), DecimalValue(r[6..])))
    else None
  }

  lemma DecodeFormatRoundTrip(dt: Date)
    requires dt.day < 100 && dt.month < 100 && dt.year < 10000
    ensures DecodeNumericDate(FormatDate(dt)) == Some(dt)
  {
    var r := FormatDate(dt);
    assert r[..2] == Pad2(dt.day);
    assert r[3..5] == Pad2(dt.month);
    assert r[6..] == Pad4(dt.year);
  }

  /** `parse_long_form_date`: the canonical `dd/mm/yyyy` form of the date the
      long-form text names, or the error `strptime` raises. */
  function ParseLongFormDate(s: string): (r: Result<string, DateError>)
    ensures r.Success? <==> ParseDate(s).Success?
    ensures r.Success? ==> |r.value| == 10 && r.value[2] == '/' && r.value[5] == '/'
    ensures r.Success? ==> DecodeNumericDate(r.value) == Some(ParseDate(s).value)
    ensures r.Failure? ==> r.error == ParseDate(s).error
  {
    match ParseDate(s)
    case Success(dt) =>
      DecodeFormatRoundTrip(dt);
      Success(FormatDate(dt))
    case Failure(e) => Failure(e)
  }

  // ---------------------------------------------------------------------
  // Facts about the cleaning stages

  lemma MonthShape(m: nat)
    requires 1 <= m <= 12
    ensures |Months[m - 1]| >= 3 && Capitalised(Months[m - 1])
    ensures WeekdayIndex(Months[m - 1][0], Months[m - 1][1]) == -1
  {
    var M := Months[m - 1];
    assert M in Months;
  }

  lemma ConsAppend(x: string, r: string)
    requires x != []
    ensures [x[0]] + (x[1..] + r) == x + r
  {
    assert x == [x[0]] + x[1..];
  }

  /** Where no weekday name starts, the first character is kept. */
  lemma RemoveWeekdaysStep(s: string, afterWord: bool)
    requires s != [] && WeekdayAt(s).None?
    ensures RemoveWeekdays(s, afterWord) == [s[0]] + RemoveWeekdays(s[1..], IsWordChar(s[0]))
  {
  }

  lemma NoWeekdayAt(s: string)
    requires s != [] && !IsUpper(s[0])
    ensures WeekdayAt(s).None?
  {
  }

  /** Text without capitals passes through weekday removal unchanged. */
  lemma {:induction false} RemoveWeekdaysKeepsPlain(x: string, rest: string, afterWord: bool)
    requires forall k :: 0 <= k < |x| ==> !IsUpper(x[k])
    ensures RemoveWeekdays(x + rest, afterWord) ==
      x + RemoveWeekdays(rest, if x == [] then afterWord else IsWordChar(x[|x| - 1]))
  {
    if x == [] {
      assert x + rest == rest;
    } else {
      var s := x + rest;
      assert s[0] == x[0] && s[1..] == x[1..] + rest;
      NoWeekdayAt(s);
      RemoveWeekdaysStep(s, afterWord);
      RemoveWeekdaysKeepsPlain(x[1..], rest, IsWordChar(x[0]));
      var b := IsWordChar(x[|x| - 1]);
      assert (if x[1..] == [] then IsWordChar(x[0]) else IsWordChar(x[1..][|x[1..]| - 1])) == b;
      ConsAppend(x, RemoveWeekdays(rest, b));
    }
  }

  /** A capitalised word that does not begin like a weekday name is kept whole. */
  lemma RemoveWeekdaysKeepsWord(x: string, rest: string, afterWord: bool)
    requires Capitalised(x) && |x| >= 2 && WeekdayIndex(x[0], x[1]) == -1
    ensures RemoveWeekdays(x + rest, afterWord) == x + RemoveWeekdays(rest, true)
  {
    var s := x + rest;
    assert s[0] == x[0] && s[1] == x[1] && s[1..] == x[1..] + rest;
    RemoveWeekdaysStep(s, afterWord);
    assert forall k :: 0 <= k < |x[1..]| ==> !IsUpper(x[1..][k]);
    RemoveWeekdaysKeepsPlain(x[1..], rest, true);
    assert x[1..][|x| - 2] == x[|x| - 1];
    ConsAppend(x, RemoveWeekdays(rest, true));
  }

  /** A month name is never mistaken for a weekday. */
  lemma RemoveWeekdaysKeepsMonth(m: nat, rest: string, afterWord: bool)
    requires 1 <= m <= 12
    ensures RemoveWeekdays(Months[m - 1] + rest, afterWord) == Months[m - 1] + RemoveWeekdays(rest, true)
  {
    var M := Months[m - 1];
    MonthShape(m);
    RemoveWeekdaysKeepsWord(M, rest, afterWord);
  }

  /** A weekday name at the start, followed by a non-word character, is deleted. */
  lemma RemoveLeadingWeekday(w: string, rest: string)
    requires w in Weekdays
    requires rest == [] || !IsWordChar(rest[0])
    ensures RemoveWeekdays(w + rest, false) == RemoveWeekdays(rest, true)
  {
    var s := w + rest;
    assert WeekdayIndex(w[0], w[1]) >= 0 && Weekdays[WeekdayIndex(w[0], w[1])] == w;
    assert s[0] == w[0] && s[1] == w[1] && w <= s;
    assert WeekdayAt(s) == Some(w);
    assert s[|w|..] == rest;
  }

  /** Where no suffix follows a digit, the first character is kept. */
  lemma StripOrdinalsStep(s: string)
    requires s != [] && !(IsDigit(s[0]) && |s| >= 3 && IsOrdinalSuffix(s[1], s[2]))
    ensures StripOrdinals(s) == [s[0]] + StripOrdinals(s[1..])
  {
  }

  lemma {:induction false} StripOrdinalsKeepsNonDigits(x: string, rest: string)
    requires forall k :: 0 <= k < |x| ==> !IsDigit(x[k])
    ensures StripOrdinals(x + rest) == x + StripOrdinals(rest)
  {
    if x == [] {
      assert x + rest == rest;
    } else {
      var s := x + rest;
      assert s[0] == x[0] && s[1..] == x[1..] + rest;
      StripOrdinalsStep(s);
      StripOrdinalsKeepsNonDigits(x[1..], rest);
      ConsAppend(x, StripOrdinals(rest));
    }
  }

  /** The suffix after a day number is deleted, whichever of the four it is. */
  lemma {:induction false} StripOrdinalsDropsSuffix(d: string, sfx: string, rest: string)
    requires d != [] && AllDigits(d) && OrdinalSuffix(sfx)
    ensures StripOrdinals(d + sfx + rest) == d + StripOrdinals(rest)
  {
    var s := d + sfx + rest;
    assert s[0] == d[0] && IsDigit(s[0]);
    if |d| == 1 {
      assert s[1] == sfx[0] && s[2] == sfx[1];
      assert s[3..] == rest;
      assert StripOrdinals(s) == [d[0]] + StripOrdinals(s[3..]);
      assert d == [d[0]];
    } else {
      assert s[1] == d[1] && IsDigit(d[1]);
      assert s[1..] == d[1..] + sfx + rest;
      StripOrdinalsStep(s);
      StripOrdinalsDropsSuffix(d[1..], sfx, rest);
      ConsAppend(d, StripOrdinals(rest));
    }
  }

  /** A digit run followed by whitespace or by nothing is left alone. */
  lemma {:induction false} StripOrdinalsKeepsNumber(d: string, rest: string)
    requires AllDigits(d)
    requires rest == [] || IsSpace(rest[0])
    ensures StripOrdinals(d + rest) == d + StripOrdinals(rest)
  {
    if d == [] {
      assert d + rest == rest;
    } else {
      var s := d + rest;
      assert s[0] == d[0] && s[1..] == d[1..] + rest;
      assert |s| >= 2 ==> s[1] == (if |d| >= 2 then d[1] else rest[0]);
      StripOrdinalsStep(s);
      StripOrdinalsKeepsNumber(d[1..], rest);
      ConsAppend(d, StripOrdinals(rest));
    }
  }

  lemma StripLeadingBlank(z: string)
    ensures Strip(" " + z) == Strip(z)
  {
    assert (" " + z)[1..] == z;
  }

  lemma StripUnpadded(z: string)
    requires z != [] && !IsSpace(z[0]) && !IsSpace(z[|z| - 1])
    ensures Strip(z) == z
  {
  }

  lemma WeekdayStageLeading(w: string, x: string, tail: string)
    requires w in Weekdays
    requires x != [] && x[0] == ' ' && IsLower(x[|x| - 1])
    requires forall k :: 0 <= k < |x| ==> !IsUpper(x[k])
    ensures RemoveWeekdays(w + x + tail, false) == x + RemoveWeekdays(tail, true)
  {
    assert w + x + tail == w + (x + tail);
    RemoveLeadingWeekday(w, x + tail);
    RemoveWeekdaysKeepsPlain(x, tail, true);
  }

  lemma WeekdayStage(w: string, sfx: string, d: string, tail: string)
    requires w in Weekdays && OrdinalSuffix(sfx)
    requires d != [] && AllDigits(d)
    requires tail != [] && tail[0] == ' '
    ensures RemoveWeekdays(w + " " + d + sfx + tail, false) == " " + d + sfx + RemoveWeekdays(tail, true)
    ensures RemoveWeekdays(d + tail, false) == d + RemoveWeekdays(tail, true)
    ensures RemoveWeekdays(tail, true) != [] && IsSpace(RemoveWeekdays(tail, true)[0])
  {
    var x := " " + d + sfx;
    assert w + " " + d + sfx + tail == w + x + tail;
    assert forall k :: 0 <= k < |x| ==> !IsUpper(x[k]);
    WeekdayStageLeading(w, x, tail);
    RemoveWeekdaysKeepsPlain(d, tail, false);
    assert RemoveWeekdays(tail, true) == [tail[0]] + RemoveWeekdays(tail[1..], false);
  }

  lemma OrdinalStage(sfx: string, d: string, t: string)
    requires OrdinalSuffix(sfx)
    requires d != [] && AllDigits(d)
    requires t != [] && IsSpace(t[0])
    ensures StripOrdinals(" " + d + sfx + t) == " " + (d + StripOrdinals(t))
    ensures StripOrdinals(d + t) == d + StripOrdinals(t)
  {
    assert " " + d + sfx + t == " " + (d + sfx + t);
    StripOrdinalsKeepsNonDigits(" ", d + sfx + t);
    StripOrdinalsDropsSuffix(d, sfx, t);
    StripOrdinalsKeepsNumber(d, t);
  }

  /** The weekday is discarded without being checked, and any of the four
      ordinal suffixes is accepted after any day number: the cleaned text is
      the same as for the bare day number. */
  lemma WeekdayAndSuffixIgnored(w: string, sfx: string, d: string, tail: string)
    requires w in Weekdays && OrdinalSuffix(sfx)
    requires d != [] && AllDigits(d)
    requires tail != [] && tail[0] == ' '
    ensures Clean(w + " " + d + sfx + tail) == Clean(d + tail)
  {
    WeekdayStage(w, sfx, d, tail);
    var t := RemoveWeekdays(tail, true);
    OrdinalStage(sfx, d, t);
    StripLeadingBlank(d + StripOrdinals(t));
  }


  lemma CanonicalWeekdayStage(d: string, m: nat, y: string)
    requires d != [] && AllDigits(d) && 1 <= m <= 12 && AllDigits(y)
    ensures RemoveWeekdays(d + " " + Months[m - 1] + " " + y, false) == d + " " + Months[m - 1] + " " + y
  {
    var M := Months[m - 1];
    var z := d + " " + M + " " + y;
    assert z == (d + " ") + (M + (" " + y));
    DigitsSpacedPlain(d, d + " ");
    RemoveWeekdaysKeepsPlain(d + " ", M + (" " + y), false);
    RemoveWeekdaysKeepsMonth(m, " " + y, false);
    DigitsSpacedPlain(y, " " + y);
    RemoveWeekdaysKeepsPlain(" " + y, [], true);
    assert " " + y + [] == " " + y;
  }

  /** Digits with a space before or after hold no capital. */
  lemma DigitsSpacedPlain(x: string, t: string)
    requires AllDigits(x) && (t == x + " " || t == " " + x)
    ensures forall k :: 0 <= k < |t| ==> !IsUpper(t[k])
  {
    forall k | 0 <= k < |t| ensures !IsUpper(t[k]) {
      if t == x + " " {
        if k < |x| { assert t[k] == x[k]; }
      } else if k > 0 {
        assert t[k] == x[k - 1];
      }
    }
  }

  lemma CanonicalOrdinalStage(d: string, m: nat, y: string)
    requires d != [] && AllDigits(d) && 1 <= m <= 12 && AllDigits(y)
    ensures StripOrdinals(d + " " + Months[m - 1] + " " + y) == d + " " + Months[m - 1] + " " + y
  {
    var M := Months[m - 1];
    MonthShape(m);
    var z := d + " " + M + " " + y;
    assert z == d + (" " + M + " " + y);
    StripOrdinalsKeepsNumber(d, " " + M + " " + y);
    assert " " + M + " " + y == (" " + M + " ") + y;
    assert forall k :: 0 <= k < |" " + M + " "| ==> !IsDigit((" " + M + " ")[k]);
    StripOrdinalsKeepsNonDigits(" " + M + " ", y);
    StripOrdinalsKeepsNumber(y, []);
    assert y + [] == y;
  }

  /** A text already in canonical `<day> <Month> <Year>` form is unchanged by cleaning. */
  lemma CleanCanonical(d: string, m: nat, y: string)
    requires d != [] && AllDigits(d) && 1 <= m <= 12 && y != [] && AllDigits(y)
    ensures Clean(d + " " + Months[m - 1] + " " + y) == d + " " + Months[m - 1] + " " + y
  {
    var z := d + " " + Months[m - 1] + " " + y;
    CanonicalWeekdayStage(d, m, y);
    CanonicalOrdinalStage(d, m, y);
    assert z[0] == d[0] && z[|z| - 1] == y[|y| - 1];
    StripUnpadded(z);
  }

  // ---------------------------------------------------------------------
  // Facts about the "%d %B %Y" stage

  lemma {:induction false} TokenEndAt(s: string, i: nat, j: nat)
    requires i <= j <= |s|
    requires forall k :: i <= k < j ==> !IsSpace(s[k])
    requires j == |s| || IsSpace(s[j])
    ensures TokenEnd(s, i) == j
    decreases j - i
  {
    if i < j {
      TokenEndAt(s, i + 1, j);
    }
  }

  lemma {:induction false} GapEndAt(s: string, i: nat, j: nat)
    requires i <= j <= |s|
    requires forall k :: i <= k < j ==> IsSpace(s[k])
    requires j == |s| || !IsSpace(s[j])
    ensures GapEnd(s, i) == j
    decreases j - i
  {
    if i < j {
      GapEndAt(s, i + 1, j);
    }
  }

  /** A token at the front, followed by whitespace or nothing, is found whole. */
  lemma FirstToken(a: string, u: string)
    requires forall k :: 0 <= k < |a| ==> !IsSpace(a[k])
    requires u == [] || IsSpace(u[0])
    ensures TokenEnd(a + u, 0) == |a|
    ensures (a + u)[..|a|] == a && (a + u)[|a|..] == u
  {
    TokenEndAt(a + u, 0, |a|);
  }

  /** A whitespace run at the front, followed by a non-space, is found whole. */
  lemma FirstGap(g: string, u: string)
    requires Blank(g)
    requires u != [] && !IsSpace(u[0])
    ensures GapEnd(g + u, 0) == |g|
    ensures (g + u)[..|g|] == g && (g + u)[|g|..] == u
  {
    GapEndAt(g + u, 0, |g|);
  }

  /** Any three tokens separated by whitespace runs are split back into exactly
      those tokens and runs. */
  lemma SplitDayMonthYearOf(p: Pieces)
    requires WellFormed(p)
    ensures SplitDayMonthYear(Joined(p)) == Some(p)
  {
    var w := p.gap2 + p.year;
    var v := p.month + w;
    var u := p.gap1 + v;
    FirstToken(p.day, u);
    FirstGap(p.gap1, v);
    FirstToken(p.month, w);
    FirstGap(p.gap2, p.year);
    FirstToken(p.year, []);
    assert p.year + [] == p.year;
  }

  lemma DayValueOfNumber(d: nat)
    requires 1 <= d <= 31
    ensures DayValue(NatToString(d)) == Some(d)
    ensures DayValue(Pad2(d)) == Some(d)
  {
    if d >= 10 {
      assert NatToString(d) == [DigitChar(d / 10), DigitChar(d % 10)];
    }
  }

  lemma MonthNamesDistinct()
    ensures forall i, j :: 0 <= i < |Months| && 0 <= j < |Months| && i != j ==>
      !EqualsIgnoringCase(Months[i], Months[j])
  {
    forall i, j | 0 <= i < |Months| && 0 <= j < |Months| && i != j
      ensures !EqualsIgnoringCase(Months[i], Months[j])
    {
      if |Months[i]| == |Months[j]| {
        assert ToLower(Months[i][0]) != ToLower(Months[j][0]) || ToLower(Months[i][2]) != ToLower(Months[j][2]);
      }
    }
  }

  /** Each full month name is read as its 1-based position in the year. */
  lemma MonthIndexOfName(m: nat)
    requires 1 <= m <= 12
    ensures MonthIndex(Months[m - 1]) == Some(m)
  {
    MonthNamesDistinct();
    assert EqualsIgnoringCase(Months[m - 1], Months[m - 1]);
  }

  // ---------------------------------------------------------------------
  // Round trips

  /** `<day> <Month> <year>`, the text `strptime` is finally given. */
  function CanonicalText(d: string, m: nat, y: string): string
    requires 1 <= m <= 12
  {
    d + " " + Months[m - 1] + " " + y
  }

  /** The long form as booking forms write it, for instance
      "Sunday 25th January 2026": a weekday, the day number with an ordinal
      suffix, the month name and the year. */
  function LongFormText(w: string, d: string, sfx: string, m: nat, y: string): string
    requires 1 <= m <= 12
  {
    w + " " + d + sfx + " " + Months[m - 1] + " " + y
  }

  /** The long form of the date `dt`. */
  function LongForm(w: string, sfx: string, dt: Date): string
    requires 1 <= dt.month <= 12 && dt.year < 10000
  {
    LongFormText(w, NatToString(dt.day), sfx, dt.month, Pad4(dt.year))
  }

  /** The canonical text of the date `dt`. */
  function Canonical(dt: Date): string
    requires 1 <= dt.month <= 12 && dt.year < 10000
  {
    CanonicalText(NatToString(dt.day), dt.month, Pad4(dt.year))
  }

  lemma MonthIsToken(m: nat)
    requires 1 <= m <= 12
    ensures IsToken(Months[m - 1])
  {
    MonthShape(m);
    var M := Months[m - 1];
    forall k | 0 <= k < |M| ensures !IsSpace(M[k]) {
      if k > 0 {
        assert IsLower(M[k]);
      }
    }
  }

  lemma DigitsAreToken(d: string)
    requires d != [] && AllDigits(d)
    ensures IsToken(d)
  {
    forall k | 0 <= k < |d| ensures !IsSpace(d[k]) {
      assert IsDigit(d[k]);
    }
  }

  /** The canonical text splits into its day, month and year tokens. */
  lemma SplitCanonicalText(d: string, m: nat, y: string)
    requires d != [] && AllDigits(d) && 1 <= m <= 12 && y != [] && AllDigits(y)
    ensures SplitDayMonthYear(CanonicalText(d, m, y)) == Some(Pieces(d, " ", Months[m - 1], " ", y))
  {
    var p := Pieces(d, " ", Months[m - 1], " ", y);
    assert Joined(p) == CanonicalText(d, m, y);
    DigitsAreToken(d);
    MonthIsToken(m);
    DigitsAreToken(y);
    SplitDayMonthYearOf(p);
  }

  /** Once the three tokens are read, only the calendar decides. */
  lemma ReadDateOf(t: string, p: Pieces, dt: Date)
    ensures && SplitDayMonthYear(t) == Some(p)
            && DayValue(p.day) == Some(dt.day) && MonthIndex(p.month) == Some(dt.month)
            && YearValue(p.year) == Some(dt.year)
            ==> ReadDate(t) == if ValidDate(dt) then Success(dt) else Failure(OutOfRange)
  {
  }

  /** Reading the canonical text gives back the date, or `OutOfRange` when
      the day does not exist. */
  lemma ReadCanonical(dt: Date)
    requires 1 <= dt.day <= 31 && 1 <= dt.month <= 12 && dt.year < 10000
    ensures ReadDate(Canonical(dt)) == if ValidDate(dt) then Success(dt) else Failure(OutOfRange)
  {
    var p := Pieces(NatToString(dt.day), " ", Months[dt.month - 1], " ", Pad4(dt.year));
    SplitCanonicalText(p.day, dt.month, p.year);
    DayValueOfNumber(dt.day);
    MonthIndexOfName(dt.month);
    assert YearValue(p.year) == Some(dt.year);
    ReadDateOf(Canonical(dt), p, dt);
  }

  /** Cleaning the long form leaves the canonical text. */
  lemma CleanLongFormText(w: string, d: string, sfx: string, m: nat, y: string)
    requires w in Weekdays && OrdinalSuffix(sfx)
    requires d != [] && AllDigits(d) && 1 <= m <= 12 && y != [] && AllDigits(y)
    ensures Clean(LongFormText(w, d, sfx, m, y)) == CanonicalText(d, m, y)
  {
    var tail := " " + Months[m - 1] + " " + y;
    assert LongFormText(w, d, sfx, m, y) == w + " " + d + sfx + tail;
    assert CanonicalText(d, m, y) == d + tail;
    WeekdayAndSuffixIgnored(w, sfx, d, tail);
    CleanCanonical(d, m, y);
  }

  lemma CleanLongForm(w: string, sfx: string, dt: Date)
    requires w in Weekdays && OrdinalSuffix(sfx)
    requires 1 <= dt.month <= 12 && dt.year < 10000
    ensures Clean(LongForm(w, sfx, dt)) == Canonical(dt)
  {
    CleanLongFormText(w, NatToString(dt.day), sfx, dt.month, Pad4(dt.year));
  }

  /** Parsing the long form of a date gives its `dd/mm/yyyy` rendering,
      whatever weekday and ordinal suffix were written; a day that does not
      exist is rejected. */
  lemma LongFormRoundTrip(w: string, sfx: string, dt: Date)
    requires w in Weekdays && OrdinalSuffix(sfx)
    requires 1 <= dt.day <= 31 && 1 <= dt.month <= 12 && dt.year < 10000
    ensures ParseLongFormDate(LongForm(w, sfx, dt)) ==
      if ValidDate(dt) then Success(FormatDate(dt)) else Failure(OutOfRange)
  {
    CleanLongForm(w, sfx, dt);
    ReadCanonical(dt);
  }

  /** The day names and suffixes a form may print all lead to the same date. */
  lemma LongFormIgnoresDecoration(w1: string, s1: string, w2: string, s2: string, dt: Date)
    requires w1 in Weekdays && OrdinalSuffix(s1) && w2 in Weekdays && OrdinalSuffix(s2)
    requires 1 <= dt.day <= 31 && 1 <= dt.month <= 12 && dt.year < 10000
    ensures ParseLongFormDate(LongForm(w1, s1, dt)) == ParseLongFormDate(LongForm(w2, s2, dt))
  {
    LongFormRoundTrip(w1, s1, dt);
    LongFormRoundTrip(w2, s2, dt);
  }

  lemma ExampleTokens()
    ensures NatToString(25) == "25" && NatToString(30) == "30" && Pad4(2026) == "2026"
  {
    assert NatToString(2) == "2" && NatToString(3) == "3";
  }

  /** The example in `parse_long_form_date`'s docstring, "Sunday 25th January 2026"... */
  lemma ExampleSundayText()
    ensures LongForm("Sunday", "th", Date(25, 1, 2026)) == "Sunday 25th January 2026"
  {
    ExampleTokens();
    assert LongFormText("Sunday", "25", "th", 1, "2026") == "Sunday 25th January 2026";
  }

  /** ... and its numeric form "25/01/2026". */
  lemma ExampleSundayNumeric()
    ensures FormatDate(Date(25, 1, 2026)) == "25/01/2026"
  {
  }

  /** "Sunday 25th January 2026" becomes "25/01/2026". */
  lemma ExampleSunday(raw: string)
    requires raw == LongForm("Sunday", "th", Date(25, 1, 2026))
    ensures ParseLongFormDate(raw) == Success(FormatDate(Date(25, 1, 2026)))
  {
    var dt := Date(25, 1, 2026);
    assert ValidDate(dt) by {
      assert !IsLeapYear(2026);
    }
    LongFormRoundTrip("Sunday", "th", dt);
    assert ParseLongFormDate(LongForm("Sunday", "th", dt)) == Success(FormatDate(dt));
  }

  lemma ExampleNoSuchDayText()
    ensures LongForm("Monday", "th", Date(30, 2, 2026)) == "Monday 30th February 2026"
  {
    ExampleTokens();
    assert LongFormText("Monday", "30", "th", 2, "2026") == "Monday 30th February 2026";
  }

  /** "Monday 30th February 2026" names no day and is rejected. */
  lemma ExampleNoSuchDay(raw: string)
    requires raw == LongForm("Monday", "th", Date(30, 2, 2026))
    ensures ParseLongFormDate(raw) == Failure(OutOfRange)
  {
    assert !ValidDate(Date(30, 2, 2026)) by {
      assert !IsLeapYear(2026);
    }
    LongFormRoundTrip("Monday", "th", Date(30, 2, 2026));
  }
}
