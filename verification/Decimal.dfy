/** The decimal text of a 64-bit integer, written backwards into a fixed
    buffer, and the parser that reads decimal texts back. */
module Decimal {

  const MIN_INT64: int := -0x8000_0000_0000_0000
  const INT64_LIMIT: int := 0x8000_0000_0000_0000
  const UINT64_LIMIT: int := 0x1_0000_0000_0000_0000
  const BUFFER_SIZE: nat := 20

  predicate IsInt64(n: int) { MIN_INT64 <= n < INT64_LIMIT }

  /** Two's complement negation: the minimum is its own negation. */
  function Negated(n: int): int
    requires IsInt64(n)
  {
    if n == MIN_INT64 then n else -n
  }

  predicate IsDigit(c: char) { '0' <= c <= '9' }
  predicate AllDigits(text: string) { forall i | 0 <= i < |text| :: IsDigit(text[i]) }

  function DigitOf(n: nat): char
    requires n < 10
  {
    '0' + n as char
  }

  function ValueOf(c: char): nat
    requires IsDigit(c)
  {
    (c - '0') as nat
  }

  /** The number a run of digits denotes. */
  function Denote(text: string): nat
    requires AllDigits(text)
  {
    if text == "" then 0 else Denote(text[..|text| - 1]) * 10 + ValueOf(text[|text| - 1])
  }

  /** Digits of a positive number; nothing for 0. */
  function Digits(n: nat): string {
    if n == 0 then "" else Digits(n / 10) + [DigitOf(n % 10)]
  }

  function Pow10(n: nat): nat { if n == 0 then 1 else 10 * Pow10(n - 1) }

  /** Nineteen digits hold every magnitude of a 64-bit integer. */
  lemma BufferSuffices()
    ensures INT64_LIMIT < Pow10(BUFFER_SIZE - 1)
  {
    assert Pow10(5) == 100_000;
    assert Pow10(10) == 100_000 * Pow10(5);
    assert Pow10(15) == 100_000 * Pow10(10);
    assert Pow10(19) == 10_000 * Pow10(15);
  }

  /** What the formatter prints for every 64-bit integer. */
  function Printed(n: int): string
    requires IsInt64(n)
  {
    if n == 0 then "0" else if n == MIN_INT64 then "-" else if n < 0 then "-" + Digits(-n) else Digits(n)
  }

  lemma DigitsStep(value: nat, tail: string)
    requires value > 0
    ensures Digits(value) + tail == Digits(value / 10) + ([DigitOf(value % 10)] + tail)
  {
  }

  method FormatInt64(n: int) returns (text: string)
    requires IsInt64(n)
    ensures text == Printed(n)
  {
    if n == 0 {
      return "0";
    }
    var value := n;
    var negative := value < 0;
    if negative {
      value := Negated(value);
    }
    var buffer := new char[BUFFER_SIZE];
    var index := buffer.Length;
    ghost var magnitude: nat := if value > 0 then value else 0;
    BufferSuffices();
    while value > 0
      invariant 1 <= index <= buffer.Length && (value > 0 ==> value < Pow10(index - 1))
      invariant value > 0 || value == 0 || value == MIN_INT64
      invariant Digits(magnitude) == Digits(if value > 0 then value else 0) + buffer[index..]
      invariant value == MIN_INT64 <==> n == MIN_INT64
    {
      ghost var tail := buffer[index..];
      DigitsStep(value, tail);
      index := index - 1;
      buffer[index] := DigitOf(value % 10);
      assert buffer[index..] == [DigitOf(value % 10)] + tail;
      value := value / 10;
    }
    assert Digits(magnitude) == buffer[index..];
    if negative {
      ghost var tail := buffer[index..];
      index := index - 1;
      buffer[index] := '-';
      assert buffer[index..] == "-" + tail;
    }
    return buffer[index..];
  }

  /** Anything but digits reads as 0; digits read as their number in 64 bits. */
  function Parsed(text: string): nat {
    if AllDigits(text) then Denote(text) % UINT64_LIMIT else 0
  }

  method ParseUint64(text: string) returns (parsed: nat)
    ensures parsed == Parsed(text)
  {
    parsed := 0;
    for i := 0 to |text|
      invariant AllDigits(text[..i]) && parsed == Denote(text[..i]) % UINT64_LIMIT
    {
      if text[i] < '0' || text[i] > '9' {
        assert !IsDigit(text[i]);
        return 0;
      }
      assert text[..i + 1][..i] == text[..i];
      WrapsAt(Denote(text[..i]), ValueOf(text[i]));
      parsed := (parsed * 10 + ValueOf(text[i])) % UINT64_LIMIT;
    }
    assert text[..|text|] == text;
  }

  /** Wrapping after every digit is wrapping once at the end. */
  lemma WrapsAt(n: nat, digit: nat)
    ensures (n % UINT64_LIMIT * 10 + digit) % UINT64_LIMIT == (n * 10 + digit) % UINT64_LIMIT
  {
    var q, r := n / UINT64_LIMIT, n % UINT64_LIMIT;
    assert n * 10 + digit == (q * 10) * UINT64_LIMIT + (r * 10 + digit);
    AddMultiple(q * 10, r * 10 + digit);
  }

  lemma {:induction false} AddMultiple(k: nat, n: nat)
    ensures (k * UINT64_LIMIT + n) % UINT64_LIMIT == n % UINT64_LIMIT
  {
    if k > 0 {
      AddMultiple(k - 1, n);
      assert k * UINT64_LIMIT + n == ((k - 1) * UINT64_LIMIT + n) + UINT64_LIMIT;
    }
  }

  // ---- Round trip ----

  lemma {:induction false} DigitsDenote(n: nat)
    ensures AllDigits(Digits(n)) && Denote(Digits(n)) == n
    ensures n > 0 ==> Digits(n) != ""
  {
    if n > 0 {
      DigitsDenote(n / 10);
      var text := Digits(n);
      assert text[..|text| - 1] == Digits(n / 10);
    }
  }

  /** The text of a 64-bit integer parses back to it exactly when it is not negative. */
  lemma ParsesBackIffNatural(n: int)
    requires IsInt64(n)
    ensures Parsed(Printed(n)) == n <==> n >= 0
  {
    if n > 0 {
      DigitsDenote(n);
    } else if n == 0 {
      assert Denote("0") == Denote("") * 10 + ValueOf('0');
    } else {
      assert Printed(n)[0] == '-';
    }
  }

  /** What a possibly signed decimal text denotes. */
  function Signed(text: string): int
    requires text != "" && AllDigits(text[1..]) && (IsDigit(text[0]) || text[0] == '-')
  {
    if text[0] == '-' then (var magnitude: int := Denote(text[1..]); -magnitude)
    else assert forall i | 0 < i < |text| :: text[i] == text[1..][i - 1]; Denote(text)
  }

  /** The text denotes the integer for every 64-bit integer except the minimum. */
  lemma DenotesIffNotMinimum(n: int)
    requires IsInt64(n)
    ensures var text := Printed(n);
      && text != "" && AllDigits(text[1..]) && (IsDigit(text[0]) || text[0] == '-')
      && (Signed(text) == n <==> n != MIN_INT64)
  {
    if n > 0 {
      DigitsDenote(n);
    } else if n == 0 {
      assert Denote("0") == Denote("") * 10 + ValueOf('0');
    } else if n == MIN_INT64 {
      assert "-"[1..] == "";
    } else {
      DigitsDenote(-n);
      assert Printed(n)[1..] == Digits(-n);
    }
  }
}
