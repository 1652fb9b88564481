/**
  The daily push time: the configured `"HH:MM"` text is split on `':'` and
  both pieces go through `int()`; whatever goes wrong falls back to 10:00.
  There is no range check on the hour or the minute.
 */
module PushTime {
  import opened PyValues

  const DEFAULT_PUSH_TIME := "10:00"
  const FALLBACK := (10, 0)

  /** `hour, minute = map(int, push_time.split(':'))`, with the bare
      `except` giving `(10, 0)`: unpacking fails unless there are exactly two
      pieces, `int()` fails on a piece that is not a number, and a value that
      is not a string has no `split`. */
  function ParsePushTime(v: Value): (hm: (int, int))
    ensures !v.Str? ==> hm == FALLBACK
  {
    match v
    case Str(s) =>
      var parts := Split(s, ':');
      if |parts| == 2 && ParseInt(parts[0]).Some? && ParseInt(parts[1]).Some? then
        (ParseInt(parts[0]).value, ParseInt(parts[1]).value)
      else
        FALLBACK
    case _ => FALLBACK
  }

  /** `self.config.get('push_time', '10:00')`, parsed: a missing key
      behaves as `"10:00"`, that is 10:00. */
  function ConfiguredPushTime(config: map<string, Value>): (hm: (int, int))
    ensures "push_time" in config ==> hm == ParsePushTime(config["push_time"])
    ensures "push_time" !in config ==> hm == (10, 0)
  {
    if "push_time" in config then
      ParsePushTime(config["push_time"])
    else
      PushTimeDefault();
      ParsePushTime(Str(DEFAULT_PUSH_TIME))
  }

  /** One `':'` with a number on each side gives exactly those two numbers. */
  lemma PushTimeExact(a: string, b: string, h: int, m: int)
    requires ':' !in a && ':' !in b
    requires ParseInt(a) == Some(h) && ParseInt(b) == Some(m)
    ensures ParsePushTime(Str(a + ":" + b)) == (h, m)
  {
    SplitOnce(a, b, ':');
  }

  /** One `':'` with something other than a number on either side falls back. */
  lemma PushTimeBadPiece(a: string, b: string)
    requires ':' !in a && ':' !in b
    requires ParseInt(a).None? || ParseInt(b).None?
    ensures ParsePushTime(Str(a + ":" + b)) == FALLBACK
  {
    SplitOnce(a, b, ':');
  }

  /** No `':'`, or more than one, falls back. */
  lemma PushTimeColonCount(s: string)
    requires Count(s, ':') != 1
    ensures ParsePushTime(Str(s)) == FALLBACK
  {
  }

  /** Every pair of integers written as `"<h>:<m>"` comes back unchanged:
      negative or out-of-range values are not rejected. */
  lemma PushTimeShow(h: int, m: int)
    ensures ParsePushTime(Str(IntToString(h) + ":" + IntToString(m))) == (h, m)
  {
    var a, b := IntToString(h), IntToString(m);
    assert ':' !in a by { assert forall k :: 0 <= k < |a| ==> a[k] != ':'; }
    assert ':' !in b by { assert forall k :: 0 <= k < |b| ==> b[k] != ':'; }
    ParseIntShow(h);
    ParseIntShow(m);
    PushTimeExact(a, b, h, m);
  }

  /** `"<digits>:<digits>"` fires at the two decimal values. */
  lemma PushTimeDigits(a: string, b: string)
    requires |a| > 0 && AllDigits(a)
    requires |b| > 0 && AllDigits(b)
    ensures DigitChars(a) && DigitChars(b)
    ensures ParsePushTime(Str(a + ":" + b)) == (DecimalValue(a), DecimalValue(b))
  {
    ParseDigits(a);
    ParseDigits(b);
    assert ':' !in a by { assert forall k :: 0 <= k < |a| ==> a[k] != ':'; }
    assert ':' !in b by { assert forall k :: 0 <= k < |b| ==> b[k] != ':'; }
    PushTimeExact(a, b, DecimalValue(a), DecimalValue(b));
  }

  lemma NineOhFiveDigits()
    ensures AllDigits(['9']) && DecimalValue(['9']) == 9
    ensures AllDigits(['0', '5']) && DecimalValue(['0', '5']) == 5
  {
    OneDigit('9');
    TwoDigits('0', '5');
  }

  /** "9:05" fires at 9:05. */
  lemma PushTimeNineOhFive()
    ensures ParsePushTime(Str("9:05")) == (9, 5)
  {
    NineOhFiveDigits();
    PushTimeDigits(['9'], ['0', '5']);
    assert "9:05" == ['9'] + ":" + ['0', '5'];
  }

  lemma OutOfRangeDigits()
    ensures AllDigits(['2', '5']) && DecimalValue(['2', '5']) == 25
    ensures AllDigits(['9', '9']) && DecimalValue(['9', '9']) == 99
  {
    TwoDigits('2', '5');
    TwoDigits('9', '9');
  }

  /** "25:99" is accepted as it is. */
  lemma PushTimeOutOfRange()
    ensures ParsePushTime(Str("25:99")) == (25, 99)
  {
    OutOfRangeDigits();
    PushTimeDigits(['2', '5'], ['9', '9']);
    assert "25:99" == ['2', '5'] + ":" + ['9', '9'];
  }

  lemma DefaultDigits()
    ensures AllDigits(['1', '0']) && DecimalValue(['1', '0']) == 10
    ensures AllDigits(['0', '0']) && DecimalValue(['0', '0']) == 0
  {
    TwoDigits('1', '0');
    TwoDigits('0', '0');
  }

  /** The default text `"10:00"` fires at 10:00. */
  lemma PushTimeDefault()
    ensures ParsePushTime(Str(DEFAULT_PUSH_TIME)) == (10, 0)
  {
    DefaultDigits();
    PushTimeDigits(['1', '0'], ['0', '0']);
    assert DEFAULT_PUSH_TIME == ['1', '0'] + ":" + ['0', '0'];
  }

  /** "abc" and "1:2:3" fall back to 10:00. */
  lemma PushTimeMalformed()
    ensures ParsePushTime(Str("abc")) == FALLBACK
    ensures ParsePushTime(Str("1:2:3")) == FALLBACK
  {
    assert Count("abc", ':') == 0;
    assert Count("1:2:3", ':') == 2;
    PushTimeColonCount("abc");
    PushTimeColonCount("1:2:3");
  }
}
