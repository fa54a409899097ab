/** The forecast horizon (`_normalise_period`, `_parse_datetime` and `_horizon_dates` of
    `services/pipeline_listener.py`): the dates a run evaluates, as ISO strings. Reading a full
    timestamp is left to the library and enters as a parameter. */
module Calendar {
  import opened Options
  import opened Sequences
  import opened Recipients

  // ----- Dates -----

  datatype Date = Date(year: int, month: int, day: int)

  predicate IsLeap(y: int) {
    y % 4 == 0 && (y % 100 != 0 || y % 400 == 0)
  }

  function DaysIn(y: int, m: int): int {
    if m == 2 then (if IsLeap(y) then 29 else 28)
    else if m in {4, 6, 9, 11} then 30
    else 31
  }

  predicate IsReal(d: Date) {
    1 <= d.year <= 9999 && 1 <= d.month <= 12 && 1 <= d.day <= DaysIn(d.year, d.month)
  }

  type RealDate = d: Date | IsReal(d) witness Date(1, 1, 1)

  /** The next day; there is none after the last day of year 9999. */
  function NextDay(d: RealDate): (r: Option<RealDate>) {
    if d.day < DaysIn(d.year, d.month) then Some(Date(d.year, d.month, d.day + 1))
    else if d.month < 12 then Some(Date(d.year, d.month + 1, 1))
    else if d.year < 9999 then Some(Date(d.year + 1, 1, 1))
    else None
  }

  function AddDays(d: RealDate, n: nat): Option<RealDate> {
    if n == 0 then Some(d)
    else match AddDays(d, n - 1)
      case None => None
      case Some(e) => NextDay(e)
  }

  // ----- ISO text -----

  function Digit(n: int): char
    requires 0 <= n <= 9
  {
    (48 + n) as char
  }

  function Iso(d: RealDate): string {
    [Digit(d.year / 1000), Digit(d.year / 100 % 10), Digit(d.year / 10 % 10), Digit(d.year % 10), '-',
     Digit(d.month / 10), Digit(d.month % 10), '-', Digit(d.day / 10), Digit(d.day % 10)]
  }

  predicate IsDigit(c: char) {
    '0' <= c <= '9'
  }

  function Value(c: char): int {
    c as int - 48
  }

  /** Four digits, two digits, two digits. Whether they name a day is not asked here. */
  predicate IsDatePattern(s: string) {
    && |s| == 10
    && s[4] == '-' && s[7] == '-'
    && forall i :: 0 <= i < 10 && i != 4 && i != 7 ==> IsDigit(s[i])
  }

  /** Reading such a text as a date; None where that raises. */
  function FromIso(s: string): Option<RealDate> {
    if !IsDatePattern(s) then None
    else
      var d := Date(1000 * Value(s[0]) + 100 * Value(s[1]) + 10 * Value(s[2]) + Value(s[3]),
                    10 * Value(s[5]) + Value(s[6]), 10 * Value(s[8]) + Value(s[9]));
      if IsReal(d) then Some(d) else None
  }

  // ----- The horizon -----

  /** The library's reader of full timestamps: the date part, or None where it raises. */
  type Reader = string -> Option<RealDate>

  function ParseDatetime(value: Option<string>, read: Reader): Option<RealDate> {
    if value == None || Strip(value.value) == "" then None
    else
      var raw := Strip(value.value);
      if raw[|raw| - 1] == 'Z' then read(raw[..|raw| - 1] + "+00:00") else read(raw)
  }

  /** A timestamp that is no text is None. */
  function NormalisePeriod(value: Option<string>, read: Reader): Option<string> {
    if value.Some? && IsDatePattern(Strip(value.value)) then Some(Strip(value.value))
    else match ParseDatetime(value, read)
      case Some(d) => Some(Iso(d))
      case None => None
  }

  /** Either the value, or the exception that leaves the handler. */
  datatype Result<+T> = Ok(value: T) | Raised

  function Start(timestamp: Option<string>, today: RealDate, read: Reader): Result<RealDate> {
    match NormalisePeriod(timestamp, read)
    case None => Ok(today)
    case Some(p) =>
      match FromIso(p)
      case Some(d) => Ok(d)
      case None => Raised
  }

  function Span(start: RealDate, n: nat): Result<seq<RealDate>> {
    if n == 0 then Ok([])
    else match (Span(start, n - 1), AddDays(start, n - 1))
      case (Ok(ds), Some(d)) => Ok(ds + [d])
      case _ => Raised
  }

  function DatesFrom(start: RealDate, n: nat): Result<seq<string>> {
    match Span(start, n)
    case Ok(ds) => Ok(Map((d: RealDate) => Iso(d), ds))
    case Raised => Raised
  }

  function HorizonLength(days: int): nat {
    if days > 1 then days else 1
  }

  function HorizonDates(timestamp: Option<string>, days: int, today: RealDate, read: Reader): Result<seq<string>> {
    match Start(timestamp, today, read)
    case Ok(start) => DatesFrom(start, HorizonLength(days))
    case Raised => Raised
  }

  // ----- What it promises -----

  lemma IsoRoundTrip(d: RealDate)
    ensures FromIso(Iso(d)) == Some(d)
  {
    var s := Iso(d);
    assert forall i :: 0 <= i < 10 && i != 4 && i != 7 ==> IsDigit(s[i]);
    YearDigits(d.year);
    assert 10 * (d.month / 10) + d.month % 10 == d.month;
    assert 10 * (d.day / 10) + d.day % 10 == d.day;
  }

  lemma YearDigits(y: int)
    requires 0 <= y <= 9999
    ensures 1000 * (y / 1000) + 100 * (y / 100 % 10) + 10 * (y / 10 % 10) + y % 10 == y
  {
    assert y / 10 / 10 == y / 100 && y / 100 / 10 == y / 1000;
    assert y == 10 * (y / 10) + y % 10;
    assert y / 10 == 10 * (y / 100) + y / 10 % 10;
    assert y / 100 == 10 * (y / 1000) + y / 100 % 10;
  }

  /** Days before a month of an ordinary year. */
  function BeforeMonth(m: int): int {
    match m
    case 2 => 31 case 3 => 59 case 4 => 90 case 5 => 120 case 6 => 151 case 7 => 181
    case 8 => 212 case 9 => 243 case 10 => 273 case 11 => 304 case 12 => 334
    case _ => 0
  }

  /** The day's number in the Gregorian calendar carried back to year 1, whose first day is 1. */
  function Ordinal(d: Date): int {
    BeforeYear(d.year) + InYear(d)
  }

  function BeforeYear(y: int): int {
    365 * (y - 1) + (y - 1) / 4 - (y - 1) / 100 + (y - 1) / 400
  }

  function InYear(d: Date): int {
    BeforeMonth(d.month) + (if d.month > 2 && IsLeap(d.year) then 1 else 0) + d.day
  }

  lemma LeapStep(y: int)
    requires y >= 1
    ensures y / 4 - y / 100 + y / 400
         == (y - 1) / 4 - (y - 1) / 100 + (y - 1) / 400 + (if IsLeap(y) then 1 else 0)
    ensures BeforeYear(y + 1) == BeforeYear(y) + 365 + (if IsLeap(y) then 1 else 0)
  {
    Quotients(y);
    Centuries(y);
  }

  lemma Quotients(y: int)
    requires y >= 1
    ensures y / 4 == (y - 1) / 4 + (if y % 4 == 0 then 1 else 0)
    ensures y / 100 == (y - 1) / 100 + (if y % 100 == 0 then 1 else 0)
    ensures y / 400 == (y - 1) / 400 + (if y % 400 == 0 then 1 else 0)
  {
  }

  lemma Centuries(y: int)
    ensures y % 100 == 0 ==> y % 4 == 0
    ensures y % 400 == 0 ==> y % 100 == 0
  {
  }

  /** The next day is the next number: months, leap years and turns of the year leave no gap. */
  lemma NextDayIsNext(d: RealDate)
    requires NextDay(d).Some?
    ensures Ordinal(NextDay(d).value) == Ordinal(d) + 1
  {
    if d.month == 12 && d.day == 31 {
      LeapStep(d.year);
    } else {
      NextInYear(d);
    }
  }

  lemma NextInYear(d: RealDate)
    requires !(d.month == 12 && d.day == 31)
    ensures NextDay(d).Some? && NextDay(d).value.year == d.year
    ensures InYear(NextDay(d).value) == InYear(d) + 1
  {
  }

  /** The `i`-th date of a horizon is the `i`-th day after its first. */
  lemma {:induction false} DaysCount(d: RealDate, n: nat)
    requires AddDays(d, n).Some?
    ensures Ordinal(AddDays(d, n).value) == Ordinal(d) + n
  {
    if n > 0 {
      LaterDays(d, n - 1, n);
      DaysCount(d, n - 1);
      NextDayIsNext(AddDays(d, n - 1).value);
    }
  }

  /** A number that grows with every day. */
  function Rank(d: Date): int {
    372 * d.year + 31 * d.month + d.day
  }

  lemma {:induction false} LaterDays(d: RealDate, i: nat, j: nat)
    requires i < j && AddDays(d, j).Some?
    ensures AddDays(d, i).Some? && Rank(AddDays(d, i).value) < Rank(AddDays(d, j).value)
  {
    var e := AddDays(d, j - 1).value;
    assert Rank(e) < Rank(AddDays(d, j).value);
    if i < j - 1 {
      LaterDays(d, i, j - 1);
    }
  }

  lemma {:induction false} SpanShape(start: RealDate, n: nat)
    ensures var r := Span(start, n);
      && (r.Ok? <==> n == 0 || AddDays(start, n - 1).Some?)
      && (r.Ok? ==> |r.value| == n && forall i :: 0 <= i < n ==> AddDays(start, i) == Some(r.value[i]))
  {
    if n > 0 {
      SpanShape(start, n - 1);
      if n > 1 && AddDays(start, n - 1).Some? {
        LaterDays(start, n - 2, n - 1);
      }
    }
  }

  /** The horizon starts on the run's day, never is empty, and names each of its consecutive days
      once, however it is configured. */
  lemma HorizonDistinct(timestamp: Option<string>, days: int, today: RealDate, read: Reader)
    requires HorizonDates(timestamp, days, today, read).Ok?
    ensures var ds := HorizonDates(timestamp, days, today, read).value;
      var start := Start(timestamp, today, read);
      && |ds| == HorizonLength(days) && NoDup(ds)
      && start.Ok? && ds[0] == Iso(start.value)
      && forall i :: 0 <= i < |ds| - 1 ==>
           FromIso(ds[i]).Some? && FromIso(ds[i + 1]) == NextDay(FromIso(ds[i]).value)
  {
    var start, n := Start(timestamp, today, read).value, HorizonLength(days);
    var ds := HorizonDates(timestamp, days, today, read).value;
    SpanShape(start, n);
    var span := Span(start, n).value;
    forall i | 0 <= i < n ensures FromIso(ds[i]) == Some(span[i]) {
      IsoRoundTrip(span[i]);
    }
    forall i, j | 0 <= i < j < n ensures ds[i] != ds[j] {
      LaterDays(start, i, j);
    }
    forall i | 0 <= i < |ds| - 1 ensures FromIso(ds[i + 1]) == NextDay(FromIso(ds[i]).value) {
      assert AddDays(start, i + 1) == NextDay(AddDays(start, i).value);
    }
  }

  /** Four digits, two digits and two digits, with hyphens between them. */
  predicate IsDateText(s: string, y: string, m: string, d: string) {
    && s == y + "-" + m + "-" + d && |y| == 4 && |m| == 2 && |d| == 2
    && forall c :: c in y + m + d ==> c in "0123456789"
  }

  lemma DigitChars(c: char)
    ensures IsDigit(c) <==> c in "0123456789"
  {
    var ten := "0123456789";
    if IsDigit(c) {
      assert ten[c as int - 48] == c;
    }
  }

  lemma DatePatternIs(s: string)
    ensures IsDatePattern(s) <==> exists y, m, d :: IsDateText(s, y, m, d)
  {
    forall c ensures IsDigit(c) <==> c in "0123456789" {
      DigitChars(c);
    }
    if IsDatePattern(s) {
      assert IsDateText(s, s[..4], s[5..7], s[8..]);
    }
    if y, m, d :| IsDateText(s, y, m, d) {
      DateTextDigits(s, y, m, d);
    }
  }

  lemma DateTextDigits(s: string, y: string, m: string, d: string)
    requires IsDateText(s, y, m, d)
    ensures |s| == 10 && s[4] == '-' && s[7] == '-'
    ensures forall i :: 0 <= i < 10 && i != 4 && i != 7 ==> IsDigit(s[i])
  {
    forall i | 0 <= i < 10 && i != 4 && i != 7 ensures IsDigit(s[i]) {
      assert s[i] == if i < 4 then y[i] else if i < 7 then m[i - 5] else d[i - 8];
      assert s[i] in y + m + d;
      DigitChars(s[i]);
    }
  }

  /** A text reads as a date exactly when it is that date written out. */
  lemma IsoInverse(s: string, d: RealDate)
    ensures FromIso(s) == Some(d) <==> s == Iso(d)
  {
    IsoRoundTrip(d);
    if FromIso(s) == Some(d) {
      YearOf(Value(s[0]), Value(s[1]), Value(s[2]), Value(s[3]));
      Tens(Value(s[5]), Value(s[6]));
      Tens(Value(s[8]), Value(s[9]));
      WrittenBack(s, d);
    }
  }

  lemma WrittenBack(s: string, d: RealDate)
    requires IsDatePattern(s)
    requires d.year / 1000 == Value(s[0]) && d.year / 100 % 10 == Value(s[1])
    requires d.year / 10 % 10 == Value(s[2]) && d.year % 10 == Value(s[3])
    requires d.month / 10 == Value(s[5]) && d.month % 10 == Value(s[6])
    requires d.day / 10 == Value(s[8]) && d.day % 10 == Value(s[9])
    ensures s == Iso(d)
  {
    var t := Iso(d);
    assert t[0] == s[0] && t[1] == s[1] && t[2] == s[2] && t[3] == s[3] && t[4] == s[4];
    assert t[5] == s[5] && t[6] == s[6] && t[7] == s[7] && t[8] == s[8] && t[9] == s[9];
  }

  lemma Tens(q: int, r: int)
    requires 0 <= r <= 9
    ensures (10 * q + r) / 10 == q && (10 * q + r) % 10 == r
  {
  }

  lemma YearOf(a: int, b: int, c: int, d: int)
    requires 0 <= a <= 9 && 0 <= b <= 9 && 0 <= c <= 9 && 0 <= d <= 9
    ensures var y := 1000 * a + 100 * b + 10 * c + d;
      y / 1000 == a && y / 100 % 10 == b && y / 10 % 10 == c && y % 10 == d
  {
    var y := 1000 * a + 100 * b + 10 * c + d;
    Tens(100 * a + 10 * b + c, d);
    Tens(10 * a + b, c);
    Tens(a, b);
    assert y / 10 == 100 * a + 10 * b + c;
    assert y / 100 == y / 10 / 10 && y / 1000 == y / 100 / 10;
  }

  lemma IsoExample()
    ensures Iso(Date(2026, 2, 3)) == "2026-02-03" && IsReal(Date(2024, 2, 29)) && !IsReal(Date(2026, 2, 29))
  {
  }

  /** What the handler takes for the run's day. A date is that day. Any other text is read as a full
      timestamp, with the UTC offset written out for a final `Z`. Without a readable text it is today. */
  function RunDay(timestamp: Option<string>, today: RealDate, read: Reader): RealDate {
    if timestamp == None then today
    else
      var s := Strip(timestamp.value);
      if FromIso(s).Some? then FromIso(s).value
      else if s == "" then today
      else
        var full := if s[|s| - 1] == 'Z' then s[..|s| - 1] + "+00:00" else s;
        if read(full).Some? then read(full).value else today
  }

  /** A horizon that is computed starts on the run's day and has as many days as configured, at
      least one. */
  lemma HorizonStarts(timestamp: Option<string>, days: int, today: RealDate, read: Reader)
    requires HorizonDates(timestamp, days, today, read).Ok?
    ensures var ds := HorizonDates(timestamp, days, today, read).value;
      && |ds| > 0 && ds[0] == Iso(RunDay(timestamp, today, read))
      && (days >= 1 ==> |ds| == days) && (days < 1 ==> |ds| == 1)
  {
    HorizonDistinct(timestamp, days, today, read);
    StartRaises(timestamp, today, read);
    if ParseDatetime(timestamp, read).Some? {
      IsoRoundTrip(ParseDatetime(timestamp, read).value);
    }
  }

  /** A full timestamp starts the horizon on the day its reader finds, whatever the day is. */
  lemma FullTimestampStarts(text: string, days: int, today: RealDate, read: Reader, day: RealDate)
    requires HorizonDates(Some(text), days, today, read).Ok?
    requires Strip(text) != "" && !IsDatePattern(Strip(text))
    ensures var s, ds := Strip(text), HorizonDates(Some(text), days, today, read).value;
      && (s[|s| - 1] != 'Z' && read(s) == Some(day) ==> ds[0] == Iso(day))
      && (s[|s| - 1] == 'Z' && read(s[..|s| - 1] + "+00:00") == Some(day) ==> ds[0] == Iso(day))
  {
    HorizonStarts(Some(text), days, today, read);
  }

  /** The text has the shape of a date but names no day, like a thirteenth month. */
  predicate NamesNoDay(timestamp: Option<string>) {
    timestamp.Some? && IsDatePattern(Strip(timestamp.value)) && FromIso(Strip(timestamp.value)).None?
  }

  lemma StartRaises(timestamp: Option<string>, today: RealDate, read: Reader)
    ensures Start(timestamp, today, read).Raised? <==> NamesNoDay(timestamp)
  {
    if !(timestamp.Some? && IsDatePattern(Strip(timestamp.value))) && ParseDatetime(timestamp, read).Some? {
      IsoRoundTrip(ParseDatetime(timestamp, read).value);
    }
  }

  /** The handler raises exactly when the timestamp looks like a date and names no day, or when the
      horizon would reach past the last day of year 9999. */
  lemma HorizonRaisesExactly(timestamp: Option<string>, days: int, today: RealDate, read: Reader)
    ensures HorizonDates(timestamp, days, today, read).Raised?
       <==> var start := Start(timestamp, today, read);
            NamesNoDay(timestamp) || (start.Ok? && AddDays(start.value, HorizonLength(days) - 1).None?)
  {
    StartRaises(timestamp, today, read);
    if !NamesNoDay(timestamp) {
      SpanShape(Start(timestamp, today, read).value, HorizonLength(days));
    }
  }

  /** No day can be read from the timestamp, in either way the code tries. */
  predicate Unreadable(timestamp: Option<string>, read: Reader) {
    timestamp.None? || (FromIso(Strip(timestamp.value)).None? && ParseDatetime(timestamp, read).None?)
  }

  /** A timestamp that cannot be read starts the horizon today, as specified, exactly when it does
      not look like a date; one that does raises instead. */
  lemma UnreadableStartsTodayExactly(timestamp: Option<string>, days: int, today: RealDate, read: Reader)
    requires Unreadable(timestamp, read)
    requires DatesFrom(today, HorizonLength(days)).Ok?
    ensures HorizonDates(timestamp, days, today, read) == DatesFrom(today, HorizonLength(days))
       <==> !(timestamp.Some? && IsDatePattern(Strip(timestamp.value)))
  {
    StartRaises(timestamp, today, read);
  }

  /** The thirteenth month raises, whatever the day it is. */
  lemma ThirteenthMonth(days: int, today: RealDate, read: Reader)
    ensures HorizonDates(Some("2026-13-45"), days, today, read).Raised?
  {
    var s := "2026-13-45";
    assert |s| == 10 && s[4] == '-' && s[7] == '-';
    assert IsDatePattern(s);
    assert LStrip(s) == s && RStrip(s) == s;
    assert FromIso(s) == None by {
      assert 10 * Value(s[5]) + Value(s[6]) == 13;
    }
  }
}
