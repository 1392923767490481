/** The part of the Mika runtime library mika_std.c that computes: integer
    power, absolute value, array_size, and the removal of the trailing
    newline that input_string applies to what fgets read. */
module MikaStd {
  import opened CStrings

  newtype int32 = x: int | -0x8000_0000 <= x < 0x8000_0000

  const INT_MIN: int32 := -0x8000_0000

  // ---------------------------------------------------------------------------
  // power
  // ---------------------------------------------------------------------------

  /** `base` multiplied by itself `n` times. */
  function Pow(base: int, n: nat): int {
    if n == 0 then 1 else base * Pow(base, n - 1)
  }

  /** power: `result` starts at 1 and is multiplied by `base` once per
      iteration of `for (i = 0; i < exponent; i++)`, so a non-positive
      exponent gives 1. The product is a mathematical integer. */
  method Power(base: int32, exponent: int32) returns (result: int)
    ensures exponent <= 0 ==> result == 1
    ensures exponent > 0 ==> result == Pow(base as int, exponent as nat)
  {
    result := 1;
    var i: int32 := 0;
    while i < exponent
      invariant 0 <= i <= (if exponent > 0 then exponent else 0)
      invariant result == Pow(base as int, i as nat)
    {
      result := result * base as int;
      i := i + 1;
    }
  }

  /** Exponents add: the loop of `power` can be split anywhere. */
  lemma {:induction false} PowAdd(base: int, m: nat, n: nat)
    ensures Pow(base, m + n) == Pow(base, m) * Pow(base, n)
    decreases m
  {
    if m > 0 {
      PowAdd(base, m - 1, n);
      assert Pow(base, m + n) == base * Pow(base, m - 1 + n);
    }
  }

  /** Powers of one are one. */
  lemma {:induction false} PowOfOne(n: nat)
    ensures Pow(1, n) == 1
  {
    if n > 0 {
      PowOfOne(n - 1);
    }
  }

  /** A positive power of zero is zero; the zeroth is one. */
  lemma PowOfZero(n: nat)
    ensures Pow(0, n) == if n == 0 then 1 else 0
  {
  }

  /** The sign of a power: even exponents give non-negative results, and a
      negative base with an odd exponent gives a negative one. */
  lemma {:induction false} PowSign(base: int, n: nat)
    ensures n % 2 == 0 ==> Pow(base, n) >= 0
    ensures base < 0 && n % 2 == 1 ==> Pow(base, n) < 0
    ensures base > 0 ==> Pow(base, n) > 0
    decreases n
  {
    if n >= 2 {
      PowSign(base, n - 2);
      assert Pow(base, n) == base * base * Pow(base, n - 2);
      assert base * base >= 0;
    } else if n == 1 {
      assert Pow(base, 1) == base;
    }
    if base > 0 && n > 0 {
      PowSign(base, n - 1);
    }
  }

  // ---------------------------------------------------------------------------
  // absolute, array_size
  // ---------------------------------------------------------------------------

  /** absolute: `-number` for a negative number, else the number itself.
      Negating INT_MIN overflows, so it is excluded. */
  function Absolute(number: int32): (r: int32)
    requires number != INT_MIN
    ensures r >= 0
    ensures r as int == number as int || r as int == -(number as int)
  {
    if number < 0 then -number else number
  }

  /** A number and its negation have the same absolute value, which is zero
      only for zero, and taking it twice changes nothing. */
  lemma AbsoluteProperties(number: int32)
    requires number != INT_MIN
    ensures Absolute(-number) == Absolute(number)
    ensures Absolute(number) == 0 <==> number == 0
    ensures Absolute(Absolute(number)) == Absolute(number)
    ensures number >= 0 ==> Absolute(number) == number
  {
  }

  /** array_size: the size the caller passes in. The array itself is never
      looked at, and may be absent (a null pointer). */
  function ArraySize(arr: Option<seq<int32>>, size: int32): (r: int32)
    ensures r == size
  {
    size
  }

  /** The result does not depend on the array. */
  lemma ArraySizeIgnoresArray(a: Option<seq<int32>>, b: Option<seq<int32>>, size: int32)
    ensures ArraySize(a, size) == ArraySize(b, size)
  {
  }

  // ---------------------------------------------------------------------------
  // The newline trim of input_string
  // ---------------------------------------------------------------------------

  /** The text with one trailing '\n' removed, if it has one. */
  function ChompNewline(s: string): string {
    if |s| > 0 && s[|s| - 1] == '\n' then s[..|s| - 1] else s
  }

  /** Chomping undoes appending a newline, and removes at most that one
      character: the result is a prefix of the text, shorter by one exactly
      when the text ended in '\n'. */
  lemma ChompNewlineSpec(s: string, t: string)
    ensures ChompNewline(t + "\n") == t
    ensures |ChompNewline(s)| <= |s| && ChompNewline(s) == s[..|ChompNewline(s)|]
    ensures |ChompNewline(s)| == |s| - 1 <==> (|s| > 0 && s[|s| - 1] == '\n')
  {
    assert (t + "\n")[..|t|] == t;
  }

  /** The tail of input_string: `len = strlen(buffer)`; if the last character
      is '\n' it is overwritten with a NUL. Only that one cell may change. */
  method TrimNewline(buffer: array<char>)
    requires IsCString(buffer)
    modifies buffer
    ensures IsCString(buffer)
    ensures CStr(buffer) == ChompNewline(old(CStr(buffer)))
    ensures forall k :: 0 <= k < buffer.Length && k != |old(CStr(buffer))| - 1 ==> buffer[k] == old(buffer[k])
  {
    var len := Strlen(buffer);
    ghost var s := buffer[..len];
    if len > 0 && buffer[len - 1] == '\n' {
      buffer[len - 1] := '\0';
      assert forall j :: 0 <= j < len - 1 ==> buffer[..][j] == s[j];
      UntilNulAt(buffer[..], len - 1);
      assert buffer[..len - 1] == s[..len - 1];
    }
  }
}
