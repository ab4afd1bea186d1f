/**
 * Times of day as the entry-window scripts handle them: `strptime` with
 * the formats '%I:%M %p' and '%H:%M', a shift by `timedelta(minutes=…)`
 * of which only the time of day is kept, and `strftime('%I:%M %p')`.
 * A time of day is a number of minutes after midnight.
 */
module TimeOfDay {
  import opened Common

  const MinutesPerDay: int := 1440

  type Minute = m: int | 0 <= m < MinutesPerDay

  /** The time of day `delta` minutes after `m` (before it when `delta` is negative), wrapping past midnight. */
  function Shift(m: Minute, delta: int): (r: Minute)
    ensures (m + delta - r) % MinutesPerDay == 0
  {
    (m + delta) % MinutesPerDay
  }

  /** The minute of the day at which `hour:minute` falls. */
  function At(hour: int, minute: int): (m: Minute)
    requires 0 <= hour < 24 && 0 <= minute < 60
    ensures m / 60 == hour && m % 60 == minute
  {
    assert hour * 60 <= 23 * 60;
    hour * 60 + minute
  }

  // ---------------------------------------------------------- characters

  predicate IsDigit(c: char) {
    '0' <= c <= '9'
  }

  /** The characters Python's `\s` (and `str.isspace`) accept. */
  predicate IsSpace(c: char) {
    || ('\t' <= c <= '\r') || ('\U{1C}' <= c <= ' ') || c == '\U{85}' || c == '\U{A0}'
    || c == '\U{1680}' || ('\U{2000}' <= c <= '\U{200A}') || c == '\U{2028}' || c == '\U{2029}'
    || c == '\U{202F}' || c == '\U{205F}' || c == '\U{3000}'
  }

  function DigitValue(c: char): (v: nat)
    requires IsDigit(c)
    ensures v < 10
  {
    c as int - '0' as int
  }

  function Digit(n: nat): (c: char)
    requires n < 10
    ensures IsDigit(c) && DigitValue(c) == n
  {
    ('0' as int + n) as char
  }

  /** A number below 100 written with two digits, as `%I`, `%H` and `%M` write it. */
  function TwoDigits(n: nat): (s: string)
    requires n < 100
    ensures |s| == 2 && IsDigit(s[0]) && IsDigit(s[1])
    ensures 10 * DigitValue(s[0]) + DigitValue(s[1]) == n
  {
    [Digit(n / 10), Digit(n % 10)]
  }

  /** The longest prefix of `s` made of ASCII digits. */
  function DigitRun(s: string): (d: string)
    ensures d <= s
    ensures forall i :: 0 <= i < |d| ==> IsDigit(d[i])
    ensures |d| < |s| ==> !IsDigit(s[|d|])
  {
    if s != [] && IsDigit(s[0]) then [s[0]] + DigitRun(s[1..]) else []
  }

  /** The longest prefix of `s` made of whitespace. */
  function SpaceRun(s: string): (w: string)
    ensures w <= s
    ensures forall i :: 0 <= i < |w| ==> IsSpace(w[i])
    ensures |w| < |s| ==> !IsSpace(s[|w|])
  {
    if s != [] && IsSpace(s[0]) then [s[0]] + SpaceRun(s[1..]) else []
  }

  /** `s` with its leading whitespace removed. */
  function TrimLeadingSpace(s: string): (t: string)
    ensures t <= s[|SpaceRun(s)|..] && |t| == |s| - |SpaceRun(s)|
    ensures t == [] || !IsSpace(t[0])
  {
    s[|SpaceRun(s)|..]
  }

  // -------------------------------------------------------------- tokens

  /**
   * A digit run as the directive `%I` reads it: 1 to 9, 01 to 09, or 10
   * to 12. The character after the run is never a digit, so the run is
   * the whole token exactly when one of the alternatives matches it.
   */
  function Hour12Token(d: string): (h: Option<int>)
    requires forall i :: 0 <= i < |d| ==> IsDigit(d[i])
    ensures h.Some? ==> 1 <= h.value <= 12
  {
    if |d| == 1 && d[0] != '0' then Some(DigitValue(d[0]))
    else if |d| == 2 && ((d[0] == '0' && d[1] != '0') || (d[0] == '1' && d[1] <= '2')) then
      Some(10 * DigitValue(d[0]) + DigitValue(d[1]))
    else None
  }

  /** A digit run as `%H` reads it: 0 to 9, 00 to 19, or 20 to 23. */
  function Hour24Token(d: string): (h: Option<int>)
    requires forall i :: 0 <= i < |d| ==> IsDigit(d[i])
    ensures h.Some? ==> 0 <= h.value <= 23
  {
    if |d| == 1 then Some(DigitValue(d[0]))
    else if |d| == 2 && (d[0] <= '1' || (d[0] == '2' && d[1] <= '3')) then
      Some(10 * DigitValue(d[0]) + DigitValue(d[1]))
    else None
  }

  /** A digit run as `%M` reads it: 0 to 9, or 00 to 59. */
  function MinuteToken(d: string): (m: Option<int>)
    requires forall i :: 0 <= i < |d| ==> IsDigit(d[i])
    ensures m.Some? ==> 0 <= m.value <= 59
  {
    if |d| == 1 then Some(DigitValue(d[0]))
    else if |d| == 2 && d[0] <= '5' then Some(10 * DigitValue(d[0]) + DigitValue(d[1]))
    else None
  }

  /** `%p`, matched without regard to case: `Some(true)` for PM, `Some(false)` for AM. */
  function Meridian(p: string): (pm: Option<bool>)
    ensures pm.Some? ==> |p| == 2 && (p[1] == 'm' || p[1] == 'M')
    ensures pm == Some(false) ==> p[0] == 'a' || p[0] == 'A'
    ensures pm == Some(true) ==> p[0] == 'p' || p[0] == 'P'
  {
    if |p| != 2 || (p[1] != 'm' && p[1] != 'M') then None
    else if p[0] == 'a' || p[0] == 'A' then Some(false)
    else if p[0] == 'p' || p[0] == 'P' then Some(true)
    else None
  }

  /** The hour of the day a 12-hour clock reading names: 12 AM is 0, 12 PM is 12, any other PM hour is 12 later. */
  function ClockHour(h: int, pm: bool): (r: int)
    requires 1 <= h <= 12
    ensures 0 <= r < 24
    ensures (r < 12) == !pm
    ensures r % 12 == h % 12
  {
    if pm then (if h == 12 then 12 else h + 12)
    else (if h == 12 then 0 else h)
  }

  // ------------------------------------------------------------- parsing

  /** `strptime(s, '%I:%M %p')`: `None` where it raises. */
  function Parse12(s: string): (r: Option<Minute>)
    ensures r.Some? ==> exists i :: 0 <= i < |s| && IsSpace(s[i])
  {
    var h := DigitRun(s);
    if Hour12Token(h).None? || |s| == |h| || s[|h|] != ':' then None
    else
      match MinuteAndMeridian(s[|h| + 1..])
      case None => None
      case Some(t) =>
        assert s[|h| + 1..][t.gap] == s[|h| + 1 + t.gap];
        Some(At(ClockHour(Hour12Token(h).value, t.pm), t.minute))
  }

  /**
   * The part of '%I:%M %p' after the colon: the minutes, whether the
   * meridian is PM, and where the whitespace between them starts.
   */
  function MinuteAndMeridian(rest: string): (r: Option<Tail12>)
    ensures r.Some? ==> 0 <= r.value.minute <= 59 && r.value.gap < |rest| && IsSpace(rest[r.value.gap])
  {
    var m := DigitRun(rest);
    var after := rest[|m|..];
    var w := SpaceRun(after);
    if MinuteToken(m).None? || w == [] || Meridian(after[|w|..]).None? then None
    else Some(Tail12(MinuteToken(m).value, Meridian(after[|w|..]).value, |m|))
  }

  /** What follows the colon of a 12-hour time: the minutes, PM or not, and the index of the first blank. */
  datatype Tail12 = Tail12(minute: int, pm: bool, gap: nat)

  /** `strptime(s, '%H:%M')`: `None` where it raises. */
  function Parse24(s: string): (r: Option<Minute>)
    ensures r.Some? ==> forall i :: 0 <= i < |s| ==> IsDigit(s[i]) || s[i] == ':'
  {
    var h := DigitRun(s);
    var afterHour := s[|h|..];
    if Hour24Token(h).None? || afterHour == [] || afterHour[0] != ':' then None
    else
      var rest := afterHour[1..];
      var m := DigitRun(rest);
      if MinuteToken(m).None? || m != rest then None
      else
        assert s == h + ":" + m;
        Some(At(Hour24Token(h).value, MinuteToken(m).value))
  }

  /**
   * `parse_time`: the 12-hour reading first, then the 24-hour one. No text
   * has both readings, so the order of the attempts never decides a value.
   */
  function ParseTime(s: string): (r: Option<Minute>)
    ensures r.Some? <==> Parse12(s).Some? || Parse24(s).Some?
    ensures Parse12(s).Some? ==> r == Parse12(s)
    ensures Parse24(s).Some? ==> r == Parse24(s)
  {
    ReadingsDisjoint(s);
    if Parse12(s).Some? then Parse12(s) else Parse24(s)
  }

  predicate AllDigits(d: string) {
    forall i :: 0 <= i < |d| ==> IsDigit(d[i])
  }

  predicate AllSpaces(w: string) {
    forall i :: 0 <= i < |w| ==> IsSpace(w[i])
  }

  /**
   * Text that '%I:%M %p' matches, cut into its hour digits, its minute
   * digits, the whitespace before the meridian, and the meridian.
   */
  predicate Shape12(s: string, hh: string, mm: string, w: string, p: string) {
    && s == hh + ([':'] + (mm + (w + p)))
    && AllDigits(hh) && AllDigits(mm) && AllSpaces(w) && w != []
    && Hour12Token(hh).Some? && MinuteToken(mm).Some? && Meridian(p).Some?
  }

  /** The time of day the pieces of a 12-hour text name. */
  function Reading12(hh: string, mm: string, p: string): Minute
    requires AllDigits(hh) && AllDigits(mm)
    requires Hour12Token(hh).Some? && MinuteToken(mm).Some? && Meridian(p).Some?
  {
    At(ClockHour(Hour12Token(hh).value, Meridian(p).value), MinuteToken(mm).value)
  }

  /** Text that '%H:%M' matches, cut into its hour digits and its minute digits. */
  predicate Shape24(s: string, hh: string, mm: string) {
    && s == hh + ([':'] + mm)
    && AllDigits(hh) && AllDigits(mm)
    && Hour24Token(hh).Some? && MinuteToken(mm).Some?
  }

  // ---------------------------------------------------------- formatting

  /** `strftime('%I:%M %p')`: zero-padded hour 01 to 12, minutes, a space and AM or PM. */
  function Format12(m: Minute): (s: string)
    ensures |s| == 8 && s[2] == ':' && s[5] == ' ' && s[7] == 'M'
    ensures s[6] == (if m < 12 * 60 then 'A' else 'P')
  {
    var hour := m / 60;
    var h12 := if hour % 12 == 0 then 12 else hour % 12;
    TwoDigits(h12) + ":" + TwoDigits(m % 60) + " " + (if hour < 12 then "AM" else "PM")
  }

  /** `strftime('%H:%M')`. */
  function Format24(m: Minute): (s: string)
    ensures |s| == 5 && s[2] == ':'
  {
    TwoDigits(m / 60) + ":" + TwoDigits(m % 60)
  }

  // -------------------------------------------------------------- proofs

  /** Shifting back undoes a shift. */
  lemma ShiftBack(m: Minute, delta: int)
    ensures Shift(Shift(m, delta), -delta) == m
  {
    var r := Shift(m, delta);
    assert (m + delta - r) % MinutesPerDay == 0;
    var q := (m + delta) / MinutesPerDay;
    assert r == m + delta - q * MinutesPerDay;
    assert r - delta == m - q * MinutesPerDay;
    assert (r - delta) % MinutesPerDay == m;
  }

  /** A digit run stops at the first character that is not a digit. */
  lemma {:induction false} DigitRunStops(d: string, rest: string)
    requires forall i :: 0 <= i < |d| ==> IsDigit(d[i])
    requires rest == [] || !IsDigit(rest[0])
    ensures DigitRun(d + rest) == d
    decreases |d|
  {
    if d == [] {
      assert d + rest == rest;
    } else {
      assert (d + rest)[1..] == d[1..] + rest;
      DigitRunStops(d[1..], rest);
    }
  }

  /** A whitespace run stops at the first character that is not whitespace. */
  lemma {:induction false} SpaceRunStops(w: string, rest: string)
    requires forall i :: 0 <= i < |w| ==> IsSpace(w[i])
    requires rest == [] || !IsSpace(rest[0])
    ensures SpaceRun(w + rest) == w
    decreases |w|
  {
    if w == [] {
      assert w + rest == rest;
    } else {
      assert (w + rest)[1..] == w[1..] + rest;
      SpaceRunStops(w[1..], rest);
    }
  }

  /** How the part after the colon reads when it is minutes, whitespace and a meridian. */
  lemma MinuteAndMeridianOf(mm: string, w: string, p: string)
    requires forall i :: 0 <= i < |mm| ==> IsDigit(mm[i])
    requires forall i :: 0 <= i < |w| ==> IsSpace(w[i])
    requires w != [] && (p == [] || !IsSpace(p[0]))
    requires MinuteToken(mm).Some? && Meridian(p).Some?
    ensures MinuteAndMeridian(mm + (w + p)) == Some(Tail12(MinuteToken(mm).value, Meridian(p).value, |mm|))
  {
    assert !IsDigit(w[0]);
    DigitRunStops(mm, w + p);
    assert (mm + (w + p))[|mm|..] == w + p;
    SpaceRunStops(w, p);
    assert (w + p)[|w|..] == p;
  }

  /** Every text of the shape of `Shape12` reads as the time its pieces name; `Parse12Sound` is the converse. */
  lemma Parse12Of(s: string, hh: string, mm: string, w: string, p: string)
    requires Shape12(s, hh, mm, w, p)
    ensures Parse12(s) == Some(Reading12(hh, mm, p))
  {
    assert p != [] && !IsSpace(p[0]);
    var tail := mm + (w + p);
    DigitRunStops(hh, [':'] + tail);
    assert s[|hh|] == ':';
    assert s[|hh| + 1..] == tail;
    MinuteAndMeridianOf(mm, w, p);
  }

  /** `strptime(strftime(m, '%I:%M %p'), '%I:%M %p')` gives `m` back. */
  lemma ParseFormat12(m: Minute)
    ensures Parse12(Format12(m)) == Some(m)
  {
    var hour := m / 60;
    var h12 := if hour % 12 == 0 then 12 else hour % 12;
    var p := if hour < 12 then "AM" else "PM";
    Format12Parts(m);
    PaddedHour12(h12);
    PaddedMinute(m % 60);
    assert Meridian(p) == Some(hour >= 12);
    Parse12Of(Format12(m), TwoDigits(h12), TwoDigits(m % 60), " ", p);
    ClockHourOf(hour);
    AtSplit(m);
  }

  /** The pieces `Format12` writes: the padded 12-hour hour, a colon, the padded minutes, a blank and the meridian. */
  lemma Format12Parts(m: Minute)
    ensures var hour := m / 60;
      Format12(m) == TwoDigits(if hour % 12 == 0 then 12 else hour % 12)
        + ([':'] + (TwoDigits(m % 60) + (" " + (if hour < 12 then "AM" else "PM"))))
  {
  }

  /** `%I` reads back an hour `%I` wrote. */
  lemma PaddedHour12(h: int)
    requires 1 <= h <= 12
    ensures Hour12Token(TwoDigits(h)) == Some(h)
  {
  }

  /** `%M` reads back the minutes `%M` wrote. */
  lemma PaddedMinute(n: int)
    requires 0 <= n < 60
    ensures MinuteToken(TwoDigits(n)) == Some(n)
  {
  }

  /** The 12-hour reading of an hour of the day, with its meridian, names that hour again. */
  lemma ClockHourOf(hour: int)
    requires 0 <= hour < 24
    ensures ClockHour(if hour % 12 == 0 then 12 else hour % 12, hour >= 12) == hour
  {
    if hour >= 12 {
      assert hour % 12 == hour - 12;
    }
  }

  /** A minute of the day is the time its hour and minute name. */
  lemma AtSplit(m: Minute)
    ensures 0 <= m / 60 < 24
    ensures At(m / 60, m % 60) == m
  {
  }

  /** How `Parse24` reads text of the shape hour, colon, minutes. */
  lemma Parse24Of(s: string, hh: string, mm: string)
    requires s == hh + ([':'] + mm)
    requires forall i :: 0 <= i < |hh| ==> IsDigit(hh[i])
    requires forall i :: 0 <= i < |mm| ==> IsDigit(mm[i])
    requires Hour24Token(hh).Some? && MinuteToken(mm).Some?
    ensures Parse24(s) == Some(At(Hour24Token(hh).value, MinuteToken(mm).value))
  {
    DigitRunStops(hh, [':'] + mm);
    assert s[|hh|..] == [':'] + mm;
    assert s[|hh|..][1..] == mm;
    DigitRunStops(mm, []);
    assert mm + [] == mm;
  }

  /**
   * Every text `strptime(s, '%I:%M %p')` accepts has the shape of `Shape12`,
   * and its pieces name the time read; `Parse12Of` is the converse.
   */
  lemma Parse12Sound(s: string)
    requires Parse12(s).Some?
    ensures exists hh, mm, w, p :: Shape12(s, hh, mm, w, p) && Reading12(hh, mm, p) == Parse12(s).value
  {
    var hh := DigitRun(s);
    Parse12Head(s, hh);
    var rest := s[|hh| + 1..];
    var mm := DigitRun(rest);
    var w := SpaceRun(rest[|mm|..]);
    var p := rest[|mm|..][|w|..];
    Parse12Cut(s, hh, rest, mm, w, p);
    Parse12Of(s, hh, mm, w, p);
  }

  /** The cut `Parse12` makes of a text whose hour and tail it accepts has the shape of `Shape12`. */
  lemma Parse12Cut(s: string, hh: string, rest: string, mm: string, w: string, p: string)
    requires hh == DigitRun(s) && |hh| < |s| && s[|hh|] == ':' && rest == s[|hh| + 1..]
    requires Hour12Token(hh).Some? && MinuteAndMeridian(rest).Some?
    requires mm == DigitRun(rest) && w == SpaceRun(rest[|mm|..]) && p == rest[|mm|..][|w|..]
    ensures Shape12(s, hh, mm, w, p)
  {
    SplitAround(s, |hh|);
    assert s[..|hh|] == hh;
    TailPieces(rest, mm, w, p);
  }

  /** A successful 12-hour reading starts with an hour token and a colon, and reads its tail. */
  lemma Parse12Head(s: string, hh: string)
    requires hh == DigitRun(s) && Parse12(s).Some?
    ensures |hh| < |s| && s[|hh|] == ':'
    ensures Hour12Token(hh).Some? && MinuteAndMeridian(s[|hh| + 1..]).Some?
  {
  }

  lemma SplitAround<T>(s: seq<T>, k: nat)
    requires k < |s|
    ensures s == s[..k] + ([s[k]] + s[k + 1..])
  {
  }

  /** The part after the colon, cut where `MinuteAndMeridian` cuts it. */
  lemma TailPieces(rest: string, mm: string, w: string, p: string)
    requires mm == DigitRun(rest) && w == SpaceRun(rest[|mm|..]) && p == rest[|mm|..][|w|..]
    requires MinuteAndMeridian(rest).Some?
    ensures rest == mm + (w + p)
    ensures MinuteToken(mm).Some? && w != [] && Meridian(p).Some?
    ensures MinuteAndMeridian(rest).value == Tail12(MinuteToken(mm).value, Meridian(p).value, |mm|)
  {
    assert rest[|mm|..] == w + p;
  }

  /** `strptime(s, '%H:%M')` gives `m` exactly when `s` has that shape and its pieces name `m`. */
  lemma Parse24Exactly(s: string, m: Minute)
    ensures Parse24(s) == Some(m) <==>
      exists hh, mm :: Shape24(s, hh, mm) && At(Hour24Token(hh).value, MinuteToken(mm).value) == m
  {
    if Parse24(s) == Some(m) {
      var hh := DigitRun(s);
      var rest := s[|hh|..][1..];
      assert s == hh + ([':'] + rest);
      assert Shape24(s, hh, rest);
    }
    if exists hh, mm :: Shape24(s, hh, mm) && At(Hour24Token(hh).value, MinuteToken(mm).value) == m {
      var hh, mm :| Shape24(s, hh, mm) && At(Hour24Token(hh).value, MinuteToken(mm).value) == m;
      Parse24Of(s, hh, mm);
    }
  }

  /** `strptime(strftime(m, '%H:%M'), '%H:%M')` gives `m` back. */
  lemma ParseFormat24(m: Minute)
    ensures Parse24(Format24(m)) == Some(m)
  {
    var hh := TwoDigits(m / 60);
    var mm := TwoDigits(m % 60);
    assert Format24(m) == hh + ([':'] + mm);
    assert Hour24Token(hh) == Some(m / 60);
    assert MinuteToken(mm) == Some(m % 60);
    Parse24Of(Format24(m), hh, mm);
    AtSplit(m);
  }

  /** No text reads both as a 12-hour and as a 24-hour time: the order of the attempts in `parse_time` never decides a value. */
  lemma ReadingsDisjoint(s: string)
    ensures Parse12(s).Some? ==> Parse24(s).None?
  {
    if Parse12(s).Some? {
      BlankRejects24(s);
    }
  }

  /** A 24-hour reading is all digits and a colon, so any whitespace rules it out. */
  lemma BlankRejects24(s: string)
    requires exists i :: 0 <= i < |s| && IsSpace(s[i])
    ensures Parse24(s).None?
  {
    var i :| 0 <= i < |s| && IsSpace(s[i]);
    assert !IsDigit(s[i]) && s[i] != ':';
  }

  /** The 12-hour round trip survives the fall-back of `parse_time`. */
  lemma ParseTimeFormat12(m: Minute)
    ensures ParseTime(Format12(m)) == Some(m)
  {
    ParseFormat12(m);
  }

  /** The 24-hour round trip survives the fall-back of `parse_time`. */
  lemma ParseTimeFormat24(m: Minute)
    ensures ParseTime(Format24(m)) == Some(m)
  {
    ParseFormat24(m);
    ReadingsDisjoint(Format24(m));
  }

  /** Unpadded and padded 12-hour readings, with 12 AM as midnight and 12 PM as noon. */
  lemma ReadsHalfPastTwo()
    ensures ParseTime("2:30 PM") == Some(14 * 60 + 30)
  {
    var s := "2:30 PM";
    assert s == "2" + ([':'] + ("30" + (" " + "PM")));
    assert Hour12Token("2") == Some(2);
    assert MinuteToken("30") == Some(30);
    assert Meridian("PM") == Some(true);
    assert ClockHour(2, true) == 14;
    Parse12Of(s, "2", "30", " ", "PM");
    assert Parse12(s) == Some(At(14, 30));
  }

  lemma ReadsMidnight()
    ensures ParseTime("12:00 AM") == Some(0)
  {
    var s := "12:00 AM";
    assert s == "12" + ([':'] + ("00" + (" " + "AM")));
    assert Hour12Token("12") == Some(12);
    assert MinuteToken("00") == Some(0);
    assert Meridian("AM") == Some(false);
    assert ClockHour(12, false) == 0;
    Parse12Of(s, "12", "00", " ", "AM");
    assert Parse12(s) == Some(At(0, 0));
  }

  lemma ReadsAfterNoon()
    ensures ParseTime("12:05 PM") == Some(12 * 60 + 5)
  {
    var s := "12:05 PM";
    assert s == "12" + ([':'] + ("05" + (" " + "PM")));
    assert Hour12Token("12") == Some(12);
    assert MinuteToken("05") == Some(5);
    assert Meridian("PM") == Some(true);
    assert ClockHour(12, true) == 12;
    Parse12Of(s, "12", "05", " ", "PM");
    assert Parse12(s) == Some(At(12, 5));
  }

  lemma ReadsTwentyFourHour()
    ensures ParseTime("13:00") == Some(13 * 60)
  {
    var s := "13:00";
    assert s == "13" + ([':'] + "00");
    assert Hour24Token("13") == Some(13);
    assert MinuteToken("00") == Some(0);
    Parse24Of(s, "13", "00");
  }

  /** Without the blank before the meridian neither reading applies. */
  lemma RejectsGluedMeridian()
    ensures ParseTime("9:30AM") == None
  {
    var s := "9:30AM";
    assert forall i :: 0 <= i < |s| ==> !IsSpace(s[i]);
    assert !IsDigit(s[4]) && s[4] != ':';
  }

  lemma ReadsStopTime()
    ensures Parse12("4:30 PM") == Some(16 * 60 + 30)
  {
    var s := "4:30 PM";
    assert s == "4" + ([':'] + ("30" + (" " + "PM")));
    assert Hour12Token("4") == Some(4);
    assert MinuteToken("30") == Some(30);
    assert Meridian("PM") == Some(true);
    assert ClockHour(4, true) == 16;
    Parse12Of(s, "4", "30", " ", "PM");
    assert Parse12(s) == Some(At(16, 30));
  }

  lemma ReadsReminderBase()
    ensures Parse24("16:30") == Some(16 * 60 + 30)
  {
    var s := "16:30";
    assert s == "16" + ([':'] + "30");
    assert Hour24Token("16") == Some(16);
    assert MinuteToken("30") == Some(30);
    Parse24Of(s, "16", "30");
  }

  /**
   * The closing reminder of the entry-window script: '16:30' less five
   * minutes, written '04:25 PM' — five minutes before the stop time that
   * `ReadsStopTime` reads from '4:30 PM'.
   */
  lemma FormatsReminder()
    ensures Format12(Shift(16 * 60 + 30, -5)) == "04:25 PM"
    ensures Shift(16 * 60 + 30, -5) + 5 == 16 * 60 + 30
  {
    assert Shift(16 * 60 + 30, -5) == 16 * 60 + 25;
    assert TwoDigits(4) == "04";
    assert TwoDigits(25) == "25";
  }
}
