/**
 * `UrlSign` (e_ride/base/utils.py): the e-mail verification token
 * base64url(utf8(username + '!' + 'YYYY-MM-DD HH:MM:SS')) and its reading back. The clock read
 * by `url_encode` is a parameter.
 */
module UrlSign {
  import opened Wrappers
  import opened Py
  import Strings
  import Base64Url

  /** A naive `datetime`. */
  datatype DateTime = DateTime(year: int, month: int, day: int, hour: int, minute: int, second: int, microsecond: int)

  predicate IsLeap(y: int)
  {
    y % 4 == 0 && (y % 100 != 0 || y % 400 == 0)
  }

  function DaysIn(y: int, m: int): int
    requires 1 <= m <= 12
  {
    if m == 2 then (if IsLeap(y) then 29 else 28)
    else if m in {4, 6, 9, 11} then 30
    else 31
  }

  /** The ranges `datetime` enforces on its fields. */
  predicate Valid(t: DateTime)
  {
    && 1 <= t.year <= 9999
    && 1 <= t.month <= 12
    && 1 <= t.day <= DaysIn(t.year, t.month)
    && 0 <= t.hour < 24 && 0 <= t.minute < 60 && 0 <= t.second < 60
    && 0 <= t.microsecond < 1000000
  }

  /** The decimal digit character for the last digit of `n`. */
  function DigitChar(n: nat): (c: char)
    ensures '0' <= c <= '9'
  {
    (48 + n % 10) as char
  }

  function DigitValue(c: char): int
  {
    c as int - 48
  }

  predicate IsDigit(c: char)
  {
    '0' <= c <= '9'
  }

  /** `time_to_str`: `value.strftime('%Y-%m-%d %H:%M:%S')`, every field zero-padded to its width. */
  function TimeToStr(t: DateTime): (s: string)
    requires Valid(t)
    ensures |s| == 19 && '!' !in s
  {
    [ DigitChar(t.year / 1000), DigitChar(t.year / 100), DigitChar(t.year / 10), DigitChar(t.year), '-',
      DigitChar(t.month / 10), DigitChar(t.month), '-',
      DigitChar(t.day / 10), DigitChar(t.day), ' ',
      DigitChar(t.hour / 10), DigitChar(t.hour), ':',
      DigitChar(t.minute / 10), DigitChar(t.minute), ':',
      DigitChar(t.second / 10), DigitChar(t.second) ]
  }

  /** The layout of '%Y-%m-%d %H:%M:%S' with every field at full width. */
  predicate Layout(s: string)
  {
    && |s| == 19
    && s[4] == '-' && s[7] == '-' && s[10] == ' ' && s[13] == ':' && s[16] == ':'
    && forall i :: 0 <= i < 19 && i !in {4, 7, 10, 13, 16} ==> IsDigit(s[i])
  }

  /** The two-digit field starting at `i`. */
  function Two(s: string, i: nat): int
    requires i + 1 < |s|
  {
    10 * DigitValue(s[i]) + DigitValue(s[i + 1])
  }

  /** `str_to_time`: `datetime.strptime(value, '%Y-%m-%d %H:%M:%S')`; ValueError on a mismatch or an invalid date. */
  function StrToTime(s: string): (r: Result<DateTime, Error>)
    ensures r.Ok? ==> Valid(r.value) && r.value.microsecond == 0
    ensures r.Err? ==> r.error == ValueError
    ensures r.Ok? ==> Layout(s)
    ensures r.Ok? ==> Valid(r.value) && TimeToStr(r.value) == s
  {
    if !Layout(s) then Err(ValueError)
    else
      var t := DateTime(100 * Two(s, 0) + Two(s, 2), Two(s, 5), Two(s, 8), Two(s, 11), Two(s, 14), Two(s, 17), 0);
      if Valid(t) then
        LayoutRendered(s, t);
        Ok(t)
      else Err(ValueError)
  }

  /** Text in the layout naming a month that does not exist is refused. */
  lemma MonthThirteenRejected()
    ensures StrToTime("2024-13-01 00:00:00") == Err(ValueError)
  {
    var s := "2024-13-01 00:00:00";
    assert Layout(s);
    assert Two(s, 5) == 13;
  }

  /** Two digit characters read as a number render back as the same two characters. */
  lemma TwoChars(a: char, b: char)
    requires IsDigit(a) && IsDigit(b)
    ensures var n := 10 * DigitValue(a) + DigitValue(b);
      n >= 0 && DigitChar(n / 10) == a && DigitChar(n) == b
  {
  }

  /** The decimal places of a four-digit number made of two two-digit halves. */
  lemma HundredsSplit(hi: int, lo: int)
    requires 0 <= hi < 100 && 0 <= lo < 100
    ensures (100 * hi + lo) / 1000 == hi / 10
    ensures (100 * hi + lo) / 100 % 10 == hi % 10
    ensures (100 * hi + lo) / 10 % 10 == lo / 10
    ensures (100 * hi + lo) % 10 == lo % 10
  {
    var n := 100 * hi + lo;
    assert n / 100 == hi;
    assert n / 10 == 10 * hi + lo / 10;
  }

  /** Four digit characters read as a year render back as the same four characters. */
  lemma FourChars(a: char, b: char, c: char, d: char)
    requires IsDigit(a) && IsDigit(b) && IsDigit(c) && IsDigit(d)
    ensures var n := 100 * (10 * DigitValue(a) + DigitValue(b)) + (10 * DigitValue(c) + DigitValue(d));
      n >= 0 && DigitChar(n / 1000) == a && DigitChar(n / 100) == b && DigitChar(n / 10) == c && DigitChar(n) == d
  {
    var hi, lo := 10 * DigitValue(a) + DigitValue(b), 10 * DigitValue(c) + DigitValue(d);
    TwoChars(a, b);
    TwoChars(c, d);
    HundredsSplit(hi, lo);
  }

  /** The fields read from text in the layout render back as that text. */
  lemma LayoutRendered(s: string, t: DateTime)
    requires Layout(s)
    requires t == DateTime(100 * Two(s, 0) + Two(s, 2), Two(s, 5), Two(s, 8), Two(s, 11), Two(s, 14), Two(s, 17), 0)
    requires Valid(t)
    ensures TimeToStr(t) == s
  {
    FourChars(s[0], s[1], s[2], s[3]);
    TwoChars(s[5], s[6]);
    TwoChars(s[8], s[9]);
    TwoChars(s[11], s[12]);
    TwoChars(s[14], s[15]);
    TwoChars(s[17], s[18]);
    var r := TimeToStr(t);
    assert forall i :: 0 <= i < 19 ==> r[i] == s[i];
  }

  lemma TwoDigits(n: nat)
    requires n < 100
    ensures 10 * DigitValue(DigitChar(n / 10)) + DigitValue(DigitChar(n)) == n
  {
  }

  lemma FourDigits(n: nat)
    requires n < 10000
    ensures 100 * (10 * DigitValue(DigitChar(n / 1000)) + DigitValue(DigitChar(n / 100)))
            + (10 * DigitValue(DigitChar(n / 10)) + DigitValue(DigitChar(n))) == n
  {
    var hi, lo := n / 100, n % 100;
    assert n == 100 * hi + lo;
    assert n / 1000 == hi / 10;
    assert (n / 10) % 10 == lo / 10;
    TwoDigits(hi);
    TwoDigits(lo);
  }

  /** Reading back a rendered time gives the time without its microseconds. */
  lemma StrToTimeRoundTrip(t: DateTime)
    requires Valid(t)
    ensures StrToTime(TimeToStr(t)) == Ok(t.(microsecond := 0))
  {
    var s := TimeToStr(t);
    assert Layout(s);
    FourDigits(t.year);
    TwoDigits(t.month);
    TwoDigits(t.day);
    TwoDigits(t.hour);
    TwoDigits(t.minute);
    TwoDigits(t.second);
  }

  /** `urlsafe_encode`: base64url of the UTF-8 bytes; decoding it gives the text back. */
  function UrlsafeEncode(h: Host, value: string): (r: string)
    ensures Base64Url.Decode(r) == Some(h.utf8Encode(value))
    ensures Utf8RoundTrips(h) ==> UrlsafeDecode(h, r) == Ok(value)
  {
    Base64Url.DecodeEncode(h.utf8Encode(value));
    Base64Url.Encode(h.utf8Encode(value))
  }

  /** `urlsafe_decode`: ValueError for text that is not base64url, a decode error for bytes that are not UTF-8. */
  function UrlsafeDecode(h: Host, value: string): (r: Result<string, Error>)
    ensures Base64Url.Decode(value).None? ==> r == Err(ValueError)
    ensures Base64Url.Decode(value).Some? ==>
      var text := h.utf8Decode(Base64Url.Decode(value).value);
      (r.Ok? <==> text.Some?) && (r.Ok? ==> r.value == text.value) && (r.Err? ==> r.error == UnicodeDecodeError)
  {
    match Base64Url.Decode(value)
    case None => Err(ValueError)
    case Some(bytes) =>
      match h.utf8Decode(bytes)
      case None => Err(UnicodeDecodeError)
      case Some(text) => Ok(text)
  }

  /** `url_encode(username)` at the clock reading `now`: the token names the user exactly when the name has no '!'. */
  function UrlEncode(h: Host, username: string, now: DateTime): (r: string)
    requires Valid(now)
    ensures Base64Url.Decode(r) == Some(h.utf8Encode(username + "!" + TimeToStr(now)))
    ensures Utf8RoundTrips(h) ==> UrlsafeDecode(h, r) == Ok(username + "!" + TimeToStr(now))
    ensures Utf8RoundTrips(h) && '!' !in username ==> UrlDecode(h, r) == Ok(username)
    ensures Utf8RoundTrips(h) && '!' in username ==> UrlDecode(h, r) == Err(ValueError)
  {
    UrlRoundTrip(h, username, now);
    UrlRoundTripNeedsNoBang(h, username, now);
    UrlsafeEncode(h, username + "!" + TimeToStr(now))
  }

  /** `url_decode`: the text before the single '!'; ValueError when there is not exactly one. */
  function UrlDecode(h: Host, value: string): (r: Result<string, Error>)
    ensures UrlsafeDecode(h, value).Err? ==> r == Err(UrlsafeDecode(h, value).error)
    ensures UrlsafeDecode(h, value).Ok? ==>
      (r.Ok? <==> Strings.Count(UrlsafeDecode(h, value).value, '!') == 1)
    ensures UrlsafeDecode(h, value).Ok? && Strings.Count(UrlsafeDecode(h, value).value, '!') != 1
      ==> r == Err(ValueError)
    ensures r.Ok? ==> '!' !in r.value
  {
    var text :- UrlsafeDecode(h, value);
    var parts := Strings.Split(text, '!');
    Strings.SplitCount(text, '!');
    Strings.SplitPartsFree(text, '!');
    if |parts| != 2 then Err(ValueError) else Ok(parts[0])
  }

  /** The decoded name is the text before the '!'. */
  lemma UrlDecodePrefix(h: Host, value: string)
    requires UrlDecode(h, value).Ok?
    ensures var text := UrlsafeDecode(h, value).value;
      exists rest :: text == UrlDecode(h, value).value + "!" + rest
  {
    var text := UrlsafeDecode(h, value).value;
    Strings.JoinSplit(text, '!');
    var parts := Strings.Split(text, '!');
    assert Strings.Join(parts, '!') == parts[0] + ['!'] + Strings.Join(parts[1..], '!');
  }

  /** A token names the user it was made for, whenever the name has no '!'. */
  lemma UrlRoundTrip(h: Host, username: string, now: DateTime)
    requires Valid(now)
    ensures Utf8RoundTrips(h) && '!' !in username ==>
      UrlDecode(h, UrlsafeEncode(h, username + "!" + TimeToStr(now))) == Ok(username)
  {
    if Utf8RoundTrips(h) && '!' !in username {
      Strings.SplitPair(username, '!', TimeToStr(now));
    }
  }

  /** The text after the token's '!' is the clock reading, which `str_to_time` reads back to the second. */
  lemma {:induction false} UrlTokenTime(h: Host, username: string, now: DateTime)
    requires Valid(now)
    ensures Utf8RoundTrips(h) && '!' !in username ==>
      var parts := Strings.Split(UrlsafeDecode(h, UrlEncode(h, username, now)).value, '!');
      |parts| == 2 && parts[0] == username && StrToTime(parts[1]) == Ok(now.(microsecond := 0))
  {
    if Utf8RoundTrips(h) && '!' !in username {
      Strings.SplitPair(username, '!', TimeToStr(now));
      StrToTimeRoundTrip(now);
    }
  }

  /** A name containing '!' does not survive: the token then has two or more '!' and fails to unpack. */
  lemma UrlRoundTripNeedsNoBang(h: Host, username: string, now: DateTime)
    requires Valid(now)
    ensures Utf8RoundTrips(h) && '!' in username ==>
      UrlDecode(h, UrlsafeEncode(h, username + "!" + TimeToStr(now))) == Err(ValueError)
  {
    if Utf8RoundTrips(h) && '!' in username {
      var text := username + "!" + TimeToStr(now);
      var tail := "!" + TimeToStr(now);
      assert text == username + tail;
      Strings.CountAppend(username, tail, '!');
      Strings.CountPositive(username, '!');
      Strings.CountPositive(tail, '!');
      assert Strings.Count(text, '!') >= 2;
    }
  }
}
