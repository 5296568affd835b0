/**
 * The database side of a parameterised query, as far as the handlers depend
 * on it: how node-postgres sends a JavaScript value as a query parameter, how
 * PostgreSQL reads that text into an `integer` column, and the order in which
 * `ORDER BY` puts date and time values.
 */
module Db {
  import opened Js

  /** The text node-postgres sends for a parameter; `None` is SQL NULL. */
  function ParamText(v: JsValue): Option<string>
  {
    if Nullish(v) then None else Some(ToJsString(v))
  }

  /** The white space PostgreSQL skips around an integer literal (C `isspace`). */
  predicate IsCSpace(c: char)
  {
    c == ' ' || c == '\t' || c == '\n' || c == '\r' || c == '\U{000B}' || c == '\U{000C}'
  }

  const Int32Min: int := -0x8000_0000
  const Int32Max: int := 0x7FFF_FFFF

  /** An optional sign followed by at least one digit, read as an integer. */
  function SignedDigits(t: string): Option<int>
  {
    if t != [] && (t[0] == '-' || t[0] == '+') && |t| > 1 && AllDigits(t[1..]) then
      Some(if t[0] == '-' then -(DigitsValue(t[1..]) as int) else DigitsValue(t[1..]))
    else if t != [] && AllDigits(t) then Some(DigitsValue(t) as int)
    else None
  }

  /** PostgreSQL's input function for `integer` up to version 15: optional
      surrounding white space, an optional sign and at least one decimal digit,
      within 32 bits; anything else is rejected (`None`), and so is the whole
      statement. The `0x`/`0o`/`0b` prefixes and `_` separators of version 16
      are not accepted. */
  function IntegerInput(text: string): (r: Option<int>)
    ensures r.Some? ==> Int32Min <= r.value <= Int32Max
  {
    var value := SignedDigits(Strip(text, IsCSpace));
    if value.Some? && Int32Min <= value.value <= Int32Max then value else None
  }

  /** The value stored in an `integer` column for the parameter `v`. */
  function IntegerParam(v: JsValue): Option<int>
  {
    match ParamText(v)
    case None => None
    case Some(text) => IntegerInput(text)
  }

  /** The decimal notation of an integer reads back as that integer. */
  lemma {:induction false} SignedDigitsOfIntString(n: int)
    ensures SignedDigits(IntToString(n)) == Some(n)
  {
    var s := IntToString(n);
    var digits := NatToString(if n < 0 then -n else n);
    if n < 0 {
      assert s[1..] == digits;
    } else {
      assert s == digits;
    }
  }

  /** A JavaScript integer within 32 bits is stored as itself. */
  lemma {:induction false} IntegerParamOfNum(n: int)
    requires Int32Min <= n <= Int32Max
    ensures IntegerParam(Num(n)) == Some(n)
  {
    var s := IntToString(n);
    var digits := NatToString(if n < 0 then -n else n);
    assert !IsCSpace(digits[0]) && !IsCSpace(digits[|digits| - 1]);
    assert s[0] != '-' ==> s == digits;
    StripUnpadded(s, IsCSpace);
    SignedDigitsOfIntString(n);
  }

  // ---------------------------------------------------------------------------
  // Order of date and time values

  /** Character-by-character comparison. Dates written `YYYY-MM-DD` and times
      written `HH:MM[:SS]` compare this way exactly as they compare in time. */
  predicate TextLe(a: string, b: string)
  {
    if a == [] then true
    else if b == [] then false
    else if a[0] != b[0] then a[0] < b[0]
    else TextLe(a[1..], b[1..])
  }

  lemma {:induction false} TextLeTotal(a: string, b: string)
    ensures TextLe(a, b) || TextLe(b, a)
  {
    if a != [] && b != [] && a[0] == b[0] {
      TextLeTotal(a[1..], b[1..]);
    }
  }

  lemma {:induction false} TextLeAntisymmetric(a: string, b: string)
    requires TextLe(a, b) && TextLe(b, a)
    ensures a == b
  {
    if a != [] && b != [] {
      TextLeAntisymmetric(a[1..], b[1..]);
      assert a == [a[0]] + a[1..] && b == [b[0]] + b[1..];
    }
  }

  lemma {:induction false} TextLeTransitive(a: string, b: string, c: string)
    requires TextLe(a, b) && TextLe(b, c)
    ensures TextLe(a, c)
  {
    if a != [] && b != [] && c != [] && a[0] == b[0] && b[0] == c[0] {
      TextLeTransitive(a[1..], b[1..], c[1..]);
    }
  }

  /** `(d1, t1)` is no later than `(d2, t2)`: the order of `ORDER BY fecha, hora`. */
  predicate MomentLe(d1: string, t1: string, d2: string, t2: string)
  {
    if d1 == d2 then TextLe(t1, t2) else TextLe(d1, d2)
  }

  lemma MomentLeTotal(d1: string, t1: string, d2: string, t2: string)
    ensures MomentLe(d1, t1, d2, t2) || MomentLe(d2, t2, d1, t1)
  {
    TextLeTotal(d1, d2);
    TextLeTotal(t1, t2);
  }

  lemma MomentLeTransitive(d1: string, t1: string, d2: string, t2: string, d3: string, t3: string)
    requires MomentLe(d1, t1, d2, t2) && MomentLe(d2, t2, d3, t3)
    ensures MomentLe(d1, t1, d3, t3)
  {
    if d1 == d2 && d2 == d3 {
      TextLeTransitive(t1, t2, t3);
    } else if d1 == d2 || d2 == d3 {
    } else {
      TextLeTransitive(d1, d2, d3);
      if d1 == d3 {
        TextLeAntisymmetric(d1, d2);
      }
    }
  }
}
