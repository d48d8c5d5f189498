/** The timestamp the generator prints: UTC in ISO 8601 with milliseconds, as the
    layout 2006-01-02T15:04:05.000Z asks for. */
module Timestamps {
  import opened SyslogLine

  datatype Instant = Instant(year: nat, month: nat, day: nat, hour: nat, minute: nat, second: nat, milli: nat) {
    predicate Valid() {
      && year < 10000 && 1 <= month <= 12 && 1 <= day <= 31
      && hour < 24 && minute < 60 && second < 60 && milli < 1000
    }
  }

  /** The last `width` decimal digits of a number. */
  function Pad(n: nat, width: nat): (s: string)
    ensures |s| == width && forall i | 0 <= i < width :: '0' <= s[i] <= '9'
    decreases width
  {
    if width == 0 then "" else Pad(n / 10, width - 1) + [('0' as int + n % 10) as char]
  }

  /** The number a string of digits stands for; other characters count nothing. */
  function Number(s: string): nat {
    if s == "" then 0
    else 10 * Number(s[..|s| - 1]) + if '0' <= s[|s| - 1] <= '9' then s[|s| - 1] as int - '0' as int else 0
  }

  function Power(width: nat): nat {
    if width == 0 then 1 else 10 * Power(width - 1)
  }

  lemma {:induction false} NumberOfPad(n: nat, width: nat)
    requires n < Power(width)
    ensures Number(Pad(n, width)) == n
    decreases width
  {
    if width > 0 {
      NumberOfPad(n / 10, width - 1);
      var s := Pad(n, width);
      assert s[..|s| - 1] == Pad(n / 10, width - 1);
    }
  }

  function Format(i: Instant): string {
    Pad(i.year, 4) + "-" + Pad(i.month, 2) + "-" + Pad(i.day, 2) + "T"
    + Pad(i.hour, 2) + ":" + Pad(i.minute, 2) + ":" + Pad(i.second, 2) + "." + Pad(i.milli, 3) + "Z"
  }

  function Read(s: string): Instant
    requires |s| == 24
  {
    Instant(Number(s[..4]), Number(s[5..7]), Number(s[8..10]), Number(s[11..13]), Number(s[14..16]), Number(s[17..19]), Number(s[20..23]))
  }

  /** Every instant is printed in 24 characters a line can carry. */
  lemma FormatIsTimestamp(i: Instant)
    ensures |Format(i)| == 24 && IsTimestamp(Format(i))
  {
    hide Pad;
    var date := Pad(i.year, 4) + "-" + Pad(i.month, 2) + "-" + Pad(i.day, 2) + "T";
    var time := Pad(i.hour, 2) + ":" + Pad(i.minute, 2) + ":" + Pad(i.second, 2) + "." + Pad(i.milli, 3) + "Z";
    assert Format(i) == date + time;
    assert IsTimestamp(date) && IsTimestamp(time);
  }

  /** And can be read back, to the millisecond. */
  lemma ReadFormat(i: Instant)
    requires i.Valid()
    ensures |Format(i)| == 24 && Read(Format(i)) == i
  {
    hide Pad, Number, Format;
    Powers();
    FormatParts(i);
    NumberOfPad(i.year, 4);
    NumberOfPad(i.month, 2);
    NumberOfPad(i.day, 2);
    NumberOfPad(i.hour, 2);
    NumberOfPad(i.minute, 2);
    NumberOfPad(i.second, 2);
    NumberOfPad(i.milli, 3);
  }

  lemma Powers()
    ensures Power(2) == 100 && Power(3) == 1000 && Power(4) == 10000
  {
    assert Power(1) == 10;
  }

  lemma FormatParts(i: Instant)
    ensures var s := Format(i);
            && |s| == 24
            && s[..4] == Pad(i.year, 4) && s[5..7] == Pad(i.month, 2) && s[8..10] == Pad(i.day, 2)
            && s[11..13] == Pad(i.hour, 2) && s[14..16] == Pad(i.minute, 2) && s[17..19] == Pad(i.second, 2)
            && s[20..23] == Pad(i.milli, 3)
  {
    hide Pad;
  }
}
