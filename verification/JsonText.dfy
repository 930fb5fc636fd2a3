/** How many bytes `encoding/json` writes for the values of an indented document. */
module JsonText {
  import opened Results

  /** One character: escaped, or its UTF-8 form. */
  function CharSize(c: char): nat {
    var code := c as int;
    if c == '"' || c == '\\' || code == 8 || code == 9 || code == 10 || code == 12 || code == 13 then 2
    else if code < 32 || c == '<' || c == '>' || c == '&' || code == 0x2028 || code == 0x2029 then 6
    else if code < 0x80 then 1
    else if code < 0x800 then 2
    else if code < 0x10000 then 3
    else 4
  }

  /** A string with its quotes. */
  function TextSize(text: string): nat {
    if text == "" then 2 else TextSize(text[..|text| - 1]) + CharSize(text[|text| - 1])
  }

  /** An optional string, `null` when absent. */
  function OptionalSize(text: Option<string>): nat {
    match text
    case None => 4
    case Some(value) => TextSize(value)
  }

  /** Digits of a fraction of a second, trailing zeros dropped. */
  function FractionDigits(fraction: nat, width: nat): nat {
    if width == 0 || fraction % 10 != 0 then width else FractionDigits(fraction / 10, width - 1)
  }

  const SECOND := 1_000_000_000

  /** A UTC time in RFC 3339 form, to the nanosecond, with its quotes. */
  function TimeSize(nanoseconds: int): nat {
    var fraction := nanoseconds % SECOND;
    22 + if fraction == 0 then 0 else 1 + FractionDigits(fraction, 9)
  }

  /** One indented line: quoted field name, separator, value, comma and newline. */
  function LineSize(field: string, value: nat): nat {
    2 + (|field| + 2) + 2 + value + 2
  }

  /** Braces and newline around the lines, whose last has no comma. */
  const AROUND := 2

  lemma {:induction false} NoCharIsFree(text: string)
    ensures TextSize(text) >= |text| + 2
  {
    if text != "" {
      NoCharIsFree(text[..|text| - 1]);
    }
  }
}
