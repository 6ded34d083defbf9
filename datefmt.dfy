/**
 * The timestamp wire format yyyy-MM-dd'T'HH:mm:ss.SSS'Z' in UTC, as the
 * payload's "d" value carries it and as SimpleDateFormat writes it with the
 * UTC time zone: the year with its own digits, every other field
 * zero-padded to two digits (three for milliseconds).
 */
module DateFormat {
  import opened Wrappers
  import opened Digits
  import opened Calendar

  /** Length of everything after the year: "-MM-ddTHH:mm:ss.SSSZ". */
  const TailLength := 20

  /** Fields small enough to be written in their fixed widths. */
  predicate Writable(c: Civil) {
    && c.year >= 1
    && 0 <= c.month < 100 && 0 <= c.day < 100
    && 0 <= c.hour < 100 && 0 <= c.minute < 100 && 0 <= c.second < 100
    && 0 <= c.millis < 1000
  }

  /** Everything after the year, each field zero-padded to its width. */
  function Tail(c: Civil): string
    requires Writable(c)
  {
    [ '-', DigitChar(c.month / 10), DigitChar(c.month % 10),
      '-', DigitChar(c.day / 10), DigitChar(c.day % 10),
      'T', DigitChar(c.hour / 10), DigitChar(c.hour % 10),
      ':', DigitChar(c.minute / 10), DigitChar(c.minute % 10),
      ':', DigitChar(c.second / 10), DigitChar(c.second % 10),
      '.', DigitChar(c.millis / 100), DigitChar(c.millis % 100 / 10), DigitChar(c.millis % 10),
      'Z' ]
  }

  function Render(c: Civil): string
    requires Writable(c)
  {
    Decimal(c.year) + Tail(c)
  }

  /** The separators and digit positions of the text after the year. */
  predicate TailShaped(t: string) {
    && |t| == TailLength
    && t[0] == '-' && t[3] == '-' && t[6] == 'T' && t[9] == ':' && t[12] == ':'
    && t[15] == '.' && t[19] == 'Z'
    && IsDigit(t[1]) && IsDigit(t[2]) && IsDigit(t[4]) && IsDigit(t[5])
    && IsDigit(t[7]) && IsDigit(t[8]) && IsDigit(t[10]) && IsDigit(t[11])
    && IsDigit(t[13]) && IsDigit(t[14])
    && IsDigit(t[16]) && IsDigit(t[17]) && IsDigit(t[18])
  }

  /** The two-digit number at t[i], t[i + 1]. */
  function TwoAt(t: string, i: nat): nat
    requires i + 1 < |t| && IsDigit(t[i]) && IsDigit(t[i + 1])
  {
    10 * DigitValue(t[i]) + DigitValue(t[i + 1])
  }

  /** Reads the pattern's fields without checking their ranges. */
  function ParseCivil(s: string): (r: Option<Civil>)
    ensures r.Some? ==> Writable(r.value)
  {
    if |s| <= TailLength then None
    else
      var year, t := s[..|s| - TailLength], s[|s| - TailLength..];
      if AllDigits(year) && year[0] != '0' && TailShaped(t) then
        ValueOfLeading(year);
        Some(Civil(ValueOf(year), TwoAt(t, 1), TwoAt(t, 4), TwoAt(t, 7), TwoAt(t, 10), TwoAt(t, 13),
                   100 * DigitValue(t[16]) + TwoAt(t, 17)))
      else None
  }

  /** Formats an instant in UTC with the wire pattern. */
  function FormatDate(t: Instant): (s: string)
    ensures |s| > TailLength && AllDigits(s[..|s| - TailLength]) && TailShaped(s[|s| - TailLength..])
  {
    RenderShaped(FromInstant(t));
    Render(FromInstant(t))
  }

  /** Parses a wire timestamp to its instant; None when the text is not one. */
  function ParseDate(s: string): (r: Option<Instant>)
    ensures r.Some? ==> |s| > TailLength && TailShaped(s[|s| - TailLength..])
  {
    match ParseCivil(s)
    case None => None
    case Some(c) => if ValidCivil(c) then Some(ToInstant(c)) else None
  }

  /** A rendering is the year's digits followed by a text of the pattern's shape. */
  lemma RenderShaped(c: Civil)
    requires Writable(c)
    ensures var s := Render(c);
      |s| > TailLength && AllDigits(s[..|s| - TailLength]) && TailShaped(s[|s| - TailLength..])
  {
    var s, y := Render(c), Decimal(c.year);
    DecimalRoundTrip(c.year);
    TailChars(c);
    assert s[..|s| - TailLength] == y && s[|s| - TailLength..] == Tail(c);
  }

  /** Two digit characters written for v read back as v. */
  lemma TwoDigitsOf(t: string, i: nat, v: nat)
    requires v < 100 && i + 1 < |t| && t[i] == DigitChar(v / 10) && t[i + 1] == DigitChar(v % 10)
    ensures IsDigit(t[i]) && IsDigit(t[i + 1]) && TwoAt(t, i) == v
  {
  }

  lemma TailChars(c: Civil)
    requires Writable(c)
    ensures var t := Tail(c);
      && TailShaped(t)
      && t[1] == DigitChar(c.month / 10) && t[2] == DigitChar(c.month % 10)
      && t[4] == DigitChar(c.day / 10) && t[5] == DigitChar(c.day % 10)
      && t[7] == DigitChar(c.hour / 10) && t[8] == DigitChar(c.hour % 10)
      && t[10] == DigitChar(c.minute / 10) && t[11] == DigitChar(c.minute % 10)
      && t[13] == DigitChar(c.second / 10) && t[14] == DigitChar(c.second % 10)
      && t[16] == DigitChar(c.millis / 100)
      && t[17] == DigitChar(c.millis % 100 / 10) && t[18] == DigitChar(c.millis % 100 % 10)
  {
    assert c.millis % 100 % 10 == c.millis % 10;
  }

  lemma TailFields(c: Civil)
    requires Writable(c)
    ensures var t := Tail(c);
      && TailShaped(t)
      && TwoAt(t, 1) == c.month && TwoAt(t, 4) == c.day && TwoAt(t, 7) == c.hour
      && TwoAt(t, 10) == c.minute && TwoAt(t, 13) == c.second
      && 100 * DigitValue(t[16]) + TwoAt(t, 17) == c.millis
  {
    var t := Tail(c);
    TailChars(c);
    TwoDigitsOf(t, 1, c.month);
    TwoDigitsOf(t, 4, c.day);
    TwoDigitsOf(t, 7, c.hour);
    TwoDigitsOf(t, 10, c.minute);
    TwoDigitsOf(t, 13, c.second);
    TwoDigitsOf(t, 17, c.millis % 100);
  }

  /** ParseCivil reads back every writable broken-down time. */
  lemma RenderThenParse(c: Civil)
    requires Writable(c)
    ensures ParseCivil(Render(c)) == Some(c)
  {
    var s, y := Render(c), Decimal(c.year);
    DecimalRoundTrip(c.year);
    TailFields(c);
    assert s[..|s| - TailLength] == y;
    assert s[|s| - TailLength..] == Tail(c);
  }

  /** Re-writing a two-digit field gives back its two characters. */
  lemma TwoAtDigits(t: string, i: nat)
    requires i + 1 < |t| && IsDigit(t[i]) && IsDigit(t[i + 1])
    ensures TwoAt(t, i) < 100
    ensures DigitChar(TwoAt(t, i) / 10) == t[i] && DigitChar(TwoAt(t, i) % 10) == t[i + 1]
  {
    DigitCharOfValue(t[i]);
    DigitCharOfValue(t[i + 1]);
  }

  /** The three millisecond digits at t[16..19] read back as their characters. */
  lemma MillisDigits(t: string)
    requires |t| > 18 && IsDigit(t[16]) && IsDigit(t[17]) && IsDigit(t[18])
    ensures var ms := 100 * DigitValue(t[16]) + TwoAt(t, 17);
      && ms < 1000
      && DigitChar(ms / 100) == t[16] && DigitChar(ms % 100 / 10) == t[17] && DigitChar(ms % 10) == t[18]
  {
    var ms := 100 * DigitValue(t[16]) + TwoAt(t, 17);
    TwoAtDigits(t, 17);
    DigitCharOfValue(t[16]);
    assert ms / 100 == DigitValue(t[16]) && ms % 100 == TwoAt(t, 17);
    assert ms % 10 == TwoAt(t, 17) % 10;
  }

  lemma TailOfFields(t: string)
    requires TailShaped(t)
    ensures var c := Civil(1, TwoAt(t, 1), TwoAt(t, 4), TwoAt(t, 7), TwoAt(t, 10), TwoAt(t, 13),
                           100 * DigitValue(t[16]) + TwoAt(t, 17));
      Writable(c) && Tail(c) == t
  {
    var ms := 100 * DigitValue(t[16]) + TwoAt(t, 17);
    var c := Civil(1, TwoAt(t, 1), TwoAt(t, 4), TwoAt(t, 7), TwoAt(t, 10), TwoAt(t, 13), ms);
    TwoAtDigits(t, 1);
    TwoAtDigits(t, 4);
    TwoAtDigits(t, 7);
    TwoAtDigits(t, 10);
    TwoAtDigits(t, 13);
    MillisDigits(t);
    var r := Tail(c);
    assert forall k :: 0 <= k < TailLength ==> r[k] == t[k];
  }

  /** The parser accepts only text the formatter writes: no padding or spelling variants. */
  lemma ParseThenRender(s: string, c: Civil)
    requires ParseCivil(s) == Some(c)
    ensures Render(c) == s
  {
    var year, t := s[..|s| - TailLength], s[|s| - TailLength..];
    DecimalOfValue(year);
    TailOfFields(t);
    assert Tail(c) == Tail(c.(year := 1));
    assert s == year + t;
  }

  /** Formatting an instant and parsing the text back yields the same instant. */
  lemma {:induction false} DateRoundTrip(t: Instant)
    ensures ParseDate(FormatDate(t)) == Some(t)
  {
    RenderThenParse(FromInstant(t));
  }

  /** A timestamp parses exactly when it is the formatting of the instant it names. */
  lemma {:induction false} ParseDateExactly(s: string, t: Instant)
    ensures ParseDate(s) == Some(t) <==> s == FormatDate(t)
  {
    if ParseDate(s) == Some(t) {
      var c := ParseCivil(s).value;
      CivilRoundTrip(c);
      ParseThenRender(s, c);
    }
    if s == FormatDate(t) {
      DateRoundTrip(t);
    }
  }

  lemma YearExample()
    ensures AllDigits("2016") && ValueOf("2016") == 2016
  {
    var year := "2016";
    assert ValueOf(year[..1]) == 2;
    assert ValueOf(year[..2]) == 20 by { assert year[..2][..1] == year[..1]; }
    assert ValueOf(year[..3]) == 201 by { assert year[..3][..2] == year[..2]; }
    assert year[..3] == year[..|year| - 1];
  }

  lemma ParseCivilExample()
    ensures ParseCivil("2016-01-01T00:00:00.000Z") == Some(Civil(2016, 1, 1, 0, 0, 0, 0))
  {
    var s := "2016-01-01T00:00:00.000Z";
    var year, t := s[..|s| - TailLength], s[|s| - TailLength..];
    assert year == "2016" && t == "-01-01T00:00:00.000Z";
    YearExample();
    TailExample(t);
  }

  lemma TailExample(t: string)
    requires t == "-01-01T00:00:00.000Z"
    ensures TailShaped(t)
    ensures TwoAt(t, 1) == 1 && TwoAt(t, 4) == 1 && TwoAt(t, 7) == 0 && TwoAt(t, 10) == 0 && TwoAt(t, 13) == 0
    ensures 100 * DigitValue(t[16]) + TwoAt(t, 17) == 0
  {
  }

  /** 2016-01-01T00:00:00.000Z is 16801 days after the epoch; prose is no timestamp. */
  lemma ParseDateExample()
    ensures ParseDate("2016-01-01T00:00:00.000Z") == Some(1451606400000)
    ensures ParseDate("this date cannot be parsed") == None
  {
    var c := Civil(2016, 1, 1, 0, 0, 0, 0);
    ParseCivilExample();
    assert ValidCivil(c);
    assert YearStart(2016) == 16801;
    var bad := "this date cannot be parsed";
    assert !IsDigit(bad[..|bad| - TailLength][0]);
  }
}
