/** The `HIGH/LOW` hexadecimal text form of an LSN (transport.py). */
module LsnText {
  import opened Wrappers

  const HALF: nat := 0x1_0000_0000

  const DIGITS: string := "0123456789ABCDEF"

  /** Python's `f"{n:X}"`: upper case, no prefix, no leading zeros. */
  function Hex(n: nat): string {
    if n < 16 then [DIGITS[n]] else Hex(n / 16) + [DIGITS[n % 16]]
  }

  /** Value of one digit; both cases are read. */
  function DigitValue(c: char): Option<nat> {
    if '0' <= c <= '9' then Some(c as int - '0' as int)
    else if 'A' <= c <= 'F' then Some(c as int - 'A' as int + 10)
    else if 'a' <= c <= 'f' then Some(c as int - 'a' as int + 10)
    else None
  }

  /** `int(s, 16)` on plain digits. */
  function ParseHex(s: string): Result<nat> {
    if s == "" then Err(ValueError)
    else
      match DigitValue(s[|s| - 1])
      case None => Err(ValueError)
      case Some(d) =>
        if |s| == 1 then Ok(d)
        else
          var high :- ParseHex(s[..|s| - 1]);
          Ok(16 * high + d)
  }

  /** Python's `|` on non-negative integers of any size. */
  function BitOr(a: nat, b: nat): nat {
    if a == 0 && b == 0 then 0
    else 2 * BitOr(a / 2, b / 2) + (if a % 2 == 1 || b % 2 == 1 then 1 else 0)
  }

  function Format(lsn: nat): string {
    Hex(lsn / HALF) + "/" + Hex(lsn % HALF)
  }

  /** `text.split(sep)`. */
  function Split(text: string, sep: char): (parts: seq<string>)
    ensures |parts| >= 1
  {
    if text == "" then [""]
    else
      var rest := Split(text[1..], sep);
      if text[0] == sep then [""] + rest
      else [[text[0]] + rest[0]] + rest[1..]
  }

  /** Unpacking anything but two parts raises `ValueError`. */
  function Parse(text: string): Result<nat> {
    var parts := Split(text, '/');
    if |parts| != 2 then Err(ValueError)
    else
      var high :- ParseHex(parts[0]);
      var low :- ParseHex(parts[1]);
      Ok(BitOr(high * HALF, low))
  }

  lemma DigitRoundTrip(d: nat)
    requires d < 16
    ensures DigitValue(DIGITS[d]) == Some(d) && DIGITS[d] != '/'
  {
  }

  lemma {:induction false} HexRoundTrip(n: nat)
    ensures ParseHex(Hex(n)) == Ok(n)
    ensures '/' !in Hex(n)
  {
    hide DigitValue;
    DigitRoundTrip(n % 16);
    if n >= 16 {
      HexRoundTrip(n / 16);
      assert Hex(n)[..|Hex(n)| - 1] == Hex(n / 16);
    }
  }

  lemma {:induction false} SplitNone(text: string, sep: char)
    requires sep !in text
    ensures Split(text, sep) == [text]
  {
    if text != "" {
      SplitNone(text[1..], sep);
      assert text == [text[0]] + text[1..];
    }
  }

  lemma {:induction false} SplitOnce(a: string, sep: char, b: string)
    requires sep !in a && sep !in b
    ensures Split(a + [sep] + b, sep) == [a, b]
  {
    var text := a + [sep] + b;
    if a == "" {
      assert text[1..] == b;
      SplitNone(b, sep);
    } else {
      assert text[1..] == a[1..] + [sep] + b;
      SplitOnce(a[1..], sep, b);
      assert a == [a[0]] + a[1..];
    }
  }

  ghost function Power2(k: nat): nat {
    if k == 0 then 1 else 2 * Power2(k - 1)
  }

  /** Disjoint bits: joining a shifted high part is addition. */
  lemma {:induction false} OrShifted(high: nat, k: nat, low: nat)
    requires low < Power2(k)
    ensures BitOr(high * Power2(k), low) == high * Power2(k) + low
  {
    if k == 0 {
      assert low == 0;
      OrZero(high);
    } else {
      var p := Power2(k - 1);
      assert high * Power2(k) == 2 * (high * p);
      OrShifted(high, k - 1, low / 2);
      if high * p == 0 && low == 0 {
      } else {
        assert (2 * (high * p)) / 2 == high * p;
        assert (2 * (high * p)) % 2 == 0;
      }
    }
  }

  lemma {:induction false} OrZero(a: nat)
    ensures BitOr(a, 0) == a
  {
    if a > 0 {
      OrZero(a / 2);
    }
  }

  lemma HalfIsPower()
    ensures Power2(32) == HALF
  {
    assert Power2(8) == 0x100;
    assert Power2(16) == 0x1_0000 by {
      assert Power2(12) == 0x1000;
    }
    assert Power2(24) == 0x100_0000 by {
      assert Power2(20) == 0x10_0000;
    }
    assert Power2(28) == 0x1000_0000;
  }

  /** Parsing the printed form gives the LSN back, whatever its size. */
  lemma FormatParseRoundTrip(lsn: nat)
    ensures Parse(Format(lsn)) == Ok(lsn)
  {
    hide Hex, ParseHex, Split, BitOr, Power2;
    var high, low := lsn / HALF, lsn % HALF;
    HexRoundTrip(high);
    HexRoundTrip(low);
    assert Format(lsn) == Hex(high) + ['/'] + Hex(low);
    SplitOnce(Hex(high), '/', Hex(low));
    HalfIsPower();
    OrShifted(high, 32, low);
  }

  // ---- the text itself ----

  /** Upper-case digits without leading zeros. */
  predicate Plain(s: string) {
    s != "" && (|s| > 1 ==> s[0] != '0') && forall i :: 0 <= i < |s| ==> s[i] in "0123456789ABCDEF"
  }

  /** `n` digits are enough below `16^n`, and there is no leading zero. */
  ghost function Power16(n: nat): nat {
    if n == 0 then 1 else 16 * Power16(n - 1)
  }

  lemma {:induction false} HexShape(n: nat, digits: nat)
    requires n < Power16(digits) && digits > 0
    ensures |Hex(n)| <= digits && Plain(Hex(n))
    ensures n > 0 ==> Hex(n)[0] != '0'
  {
    if n >= 16 {
      assert digits > 1 by {
        assert Power16(1) == 16;
      }
      HexShape(n / 16, digits - 1);
    }
  }

  lemma {:induction false} EnoughDigits(n: nat)
    ensures n < Power16(n + 1)
  {
    if n > 0 {
      EnoughDigits(n - 1);
    }
  }

  /**
   The printed form is the high and the low 32 bits, each in hexadecimal without leading zeros, the low part in at
   most eight digits.
   */
  lemma FormatParts(lsn: nat)
    ensures var parts := Split(Format(lsn), '/');
            && |parts| == 2
            && ParseHex(parts[0]) == Ok(lsn / 0x1_0000_0000) && Plain(parts[0])
            && ParseHex(parts[1]) == Ok(lsn % 0x1_0000_0000) && Plain(parts[1]) && |parts[1]| <= 8
  {
    hide Hex, ParseHex, Split, Plain, Power16;
    var high, low := lsn / HALF, lsn % HALF;
    HexRoundTrip(high);
    HexRoundTrip(low);
    assert Format(lsn) == Hex(high) + ['/'] + Hex(low);
    SplitOnce(Hex(high), '/', Hex(low));
    EnoughDigits(high);
    HexShape(high, high + 1);
    EightDigits();
    HexShape(low, 8);
  }

  lemma EightDigits()
    ensures Power16(8) == 0x1_0000_0000
  {
    assert Power16(4) == 0x1_0000;
  }

  // ---- what is read ----

  ghost function Bit(n: nat, k: nat): bool {
    if k == 0 then n % 2 == 1 else Bit(n / 2, k - 1)
  }

  /** Bit by bit. */
  lemma {:induction false} OrBits(a: nat, b: nat, k: nat)
    ensures Bit(BitOr(a, b), k) <==> Bit(a, k) || Bit(b, k)
    decreases k
  {
    if a == 0 && b == 0 {
      ZeroBits(k);
    } else {
      var low := if a % 2 == 1 || b % 2 == 1 then 1 else 0;
      assert BitOr(a, b) / 2 == BitOr(a / 2, b / 2) && BitOr(a, b) % 2 == low;
      if k > 0 {
        OrBits(a / 2, b / 2, k - 1);
      }
    }
  }

  lemma {:induction false} ZeroBits(k: nat)
    ensures !Bit(0, k)
  {
    if k > 0 {
      ZeroBits(k - 1);
    }
  }

  const LOWER: string := "0123456789abcdef"

  /** Sixteen digits, in either case, are read as their value. */
  lemma DigitsRead(d: nat)
    requires d < 16
    ensures DigitValue("0123456789ABCDEF"[d]) == Some(d) && DigitValue("0123456789abcdef"[d]) == Some(d)
  {
  }

  /** And no other character is read. */
  lemma OnlyDigits(c: char)
    ensures match DigitValue(c)
            case Some(d) => d < 16 && (c == DIGITS[d] || c == LOWER[d])
            case None => c !in DIGITS && c !in LOWER
  {
    if DigitValue(c).None? {
      if c in DIGITS {
        var d :| 0 <= d < 16 && DIGITS[d] == c;
        DigitsRead(d);
      } else if c in LOWER {
        var d :| 0 <= d < 16 && LOWER[d] == c;
        DigitsRead(d);
      }
    }
  }

  /** A number is refused just when it is empty or holds something that is not a digit. */
  lemma {:induction false} HexRefused(s: string)
    ensures ParseHex(s).Ok? <==> s != "" && forall i :: 0 <= i < |s| ==> DigitValue(s[i]).Some?
    ensures ParseHex(s).Err? ==> ParseHex(s) == Err(ValueError)
  {
    if |s| > 1 {
      HexRefused(s[..|s| - 1]);
    }
  }

  function Join(parts: seq<string>, sep: char): string {
    if parts == [] then ""
    else if |parts| == 1 then parts[0]
    else parts[0] + [sep] + Join(parts[1..], sep)
  }

  /** Splitting cuts at every separator and nowhere else. */
  lemma {:induction false} SplitJoin(text: string, sep: char)
    ensures Join(Split(text, sep), sep) == text
    ensures forall i :: 0 <= i < |Split(text, sep)| ==> sep !in Split(text, sep)[i]
  {
    if text != "" {
      SplitJoin(text[1..], sep);
      var parts, rest := Split(text, sep), Split(text[1..], sep);
      if text[0] == sep {
        assert parts[1..] == rest;
        assert Join(parts, sep) == [] + [sep] + Join(rest, sep);
      } else {
        assert parts[1..] == rest[1..];
        assert Join(parts, sep) == [text[0]] + Join(rest, sep);
      }
    }
  }

  /** A text is read exactly when it is two numbers around one separator; anything else is a `ValueError`. */
  lemma ParseAccepts(text: string)
    ensures Parse(text).Ok? <==>
            exists high, low :: '/' !in high && '/' !in low && text == high + ['/'] + low
                                && ParseHex(high).Ok? && ParseHex(low).Ok?
    ensures Parse(text).Err? ==> Parse(text) == Err(ValueError)
  {
    hide ParseHex, Split, BitOr;
    var parts := Split(text, '/');
    SplitJoin(text, '/');
    if |parts| == 2 {
      TwoParts(parts, text);
      HexRefused(parts[0]);
      HexRefused(parts[1]);
    }
    forall high, low | '/' !in high && '/' !in low && text == high + ['/'] + low
      ensures parts == [high, low]
    {
      SplitOnce(high, '/', low);
    }
  }

  lemma TwoParts(parts: seq<string>, text: string)
    requires |parts| == 2 && Join(parts, '/') == text
    ensures text == parts[0] + ['/'] + parts[1]
  {
    assert |parts[1..]| == 1;
  }
}
