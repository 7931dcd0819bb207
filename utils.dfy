/**
 * `buildNameWithDateTime`: a file name stamped with the local date and time.
 * The clock is not read here; its components are parameters.
 */
module Utils {
  import opened Types
  import opened JsString

  /** The local clock fields the source reads: `getFullYear()`, the zero-based `getMonth()`, and so on. */
  datatype DateParts = DateParts(year: int, month0: int, day: int, hours: int, minutes: int, seconds: int)

  /** `pad`: `String(n)` left-padded with '0' to two characters. */
  function Pad(n: int): (r: string)
    ensures |Decimal(n)| >= 2 ==> r == Decimal(n)
    ensures |Decimal(n)| == 1 ==> r == "0" + Decimal(n)
  {
    PadStart(Decimal(n), 2, '0')
  }

  /** A value from 0 to 99 pads to exactly two characters. */
  lemma PadLength(n: int)
    requires 0 <= n < 100
    ensures |Pad(n)| == 2
  {
    NatDigitsLength(n);
  }

  /** A value from 0 to 99 pads to two digits that read back as the value. */
  lemma PadTwoDigits(n: int)
    requires 0 <= n < 100
    ensures |Pad(n)| == 2 && AllDigits(Pad(n)) && DigitsValue(Pad(n)) == n
  {
    NatDigitsLength(n);
    NatDigitsValue(n);
    if n < 10 {
      var p := Pad(n);
      assert p == ['0', DigitChar(n)];
      assert p[..1] == "0";
      assert DigitsValue(p[..1]) == 0 by {
        assert p[..1][..0] == [];
      }
    }
  }

  const DefaultName: string := "name"

  /**
   * `buildNameWithDateTime(name)`: an absent `name` means "name". The template
   * writes a stray closing brace right after the name.
   */
  function BuildNameWithDateTime(name: Option<string>, d: DateParts): (r: string)
  {
    name.OrElse(DefaultName) + "}_" + Stamp(d)
  }

  /** The part after "}_": date digits, an underscore, time digits. */
  function Stamp(d: DateParts): string {
    Decimal(d.year) + Pad(d.month0 + 1) + (Pad(d.day) + "_" + TimePart(d))
  }

  /** `${hh}${mi}${ss}`. */
  function TimePart(d: DateParts): string {
    Pad(d.hours) + Pad(d.minutes) + Pad(d.seconds)
  }

  /** Clock fields in their ordinary ranges, with a four-digit year. */
  predicate Ordinary(d: DateParts) {
    && 1000 <= d.year < 10000
    && 0 <= d.month0 < 99 && 0 <= d.day < 100
    && 0 <= d.hours < 100 && 0 <= d.minutes < 100 && 0 <= d.seconds < 100
  }

  /** The name comes first, unchanged, followed by the brace and an underscore. */
  lemma NameIsPrefix(name: Option<string>, d: DateParts)
    ensures var r := BuildNameWithDateTime(name, d);
            var n := name.OrElse(DefaultName);
            |r| > |n| + 1 && r[..|n|] == n && r[|n|] == '}' && r[|n| + 1] == '_'
  {
    BraceAfter(name.OrElse(DefaultName), Stamp(d));
  }

  lemma BraceAfter(n: string, t: string)
    ensures var r := n + "}_" + t;
            |r| > |n| + 1 && r[..|n|] == n && r[|n|] == '}' && r[|n| + 1] == '_'
  {
    assert (n + "}_" + t)[..|n|] == n;
  }

  /** With ordinary clock fields the stamp adds exactly seventeen characters. */
  lemma StampLength(name: Option<string>, d: DateParts)
    requires Ordinary(d)
    ensures |BuildNameWithDateTime(name, d)| == |name.OrElse(DefaultName)| + 17
  {
    NatDigitsLength(d.year);
    PadLength(d.month0 + 1);
    PadLength(d.day);
    TimePartLength(d);
  }

  lemma TimePartLength(d: DateParts)
    requires Ordinary(d)
    ensures |TimePart(d)| == 6
  {
    PadLength(d.hours);
    PadLength(d.minutes);
    PadLength(d.seconds);
  }

  /** The month field, at offsets 4 and 5 of the stamp, is the zero-based month plus one. */
  lemma MonthIsOneBased(d: DateParts)
    requires Ordinary(d)
    ensures Stamp(d)[4..6] == Pad(d.month0 + 1)
  {
    NatDigitsLength(d.year);
    PadLength(d.month0 + 1);
    FieldAfterYear(Decimal(d.year), Pad(d.month0 + 1), Pad(d.day) + "_" + TimePart(d));
  }

  /** In `y + m + rest` with a four-character `y`, characters 4 and 5 are `m`. */
  lemma FieldAfterYear(y: string, m: string, rest: string)
    requires |y| == 4 && |m| == 2
    ensures (y + m + rest)[4..6] == m
  {
  }
}
