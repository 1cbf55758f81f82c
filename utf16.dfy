/** A JavaScript string is a sequence of UTF-16 code units: `length` and `slice` count code
    units, while `Buffer.byteLength` counts the bytes of the string's UTF-8 encoding, in which
    an unpaired surrogate is replaced by U+FFFD (three bytes). */
module Utf16 {
  type CodeUnit = x: int | 0 <= x < 0x1_0000

  predicate IsHigh(u: CodeUnit) { 0xD800 <= u < 0xDC00 }
  predicate IsLow(u: CodeUnit) { 0xDC00 <= u < 0xE000 }

  /** The code units of one character: one below U+10000, a surrogate pair above. */
  function EncodeChar(c: char): (r: seq<CodeUnit>)
    ensures |r| == 1 || (|r| == 2 && IsHigh(r[0]) && IsLow(r[1]))
    ensures |r| == 1 ==> !IsHigh(r[0]) && !IsLow(r[0])
  {
    var v := c as int;
    if v < 0x1_0000 then [v]
    else [0xD800 + (v - 0x1_0000) / 0x400, 0xDC00 + (v - 0x1_0000) % 0x400]
  }

  function Encode(s: string): (r: seq<CodeUnit>)
    ensures |r| >= |s|
  {
    if s == [] then [] else EncodeChar(s[0]) + Encode(s[1..])
  }

  /** `String.prototype.length`. */
  function JsLength(s: string): nat {
    |Encode(s)|
  }

  /** UTF-8 bytes of a code unit that is not part of a surrogate pair. */
  function UnitBytes(u: CodeUnit): nat {
    if u < 0x80 then 1 else if u < 0x800 then 2 else 3
  }

  /** `Buffer.byteLength(s)`: a surrogate pair is one 4-byte character, anything else is
      encoded unit by unit, an unpaired surrogate as the 3-byte U+FFFD. */
  function Utf8Length(u: seq<CodeUnit>): nat
    decreases |u|
  {
    if |u| == 0 then 0
    else if |u| >= 2 && IsHigh(u[0]) && IsLow(u[1]) then 4 + Utf8Length(u[2..])
    else UnitBytes(u[0]) + Utf8Length(u[1..])
  }

  /** UTF-8 bytes of one character. */
  function CharBytes(c: char): nat {
    if c as int < 0x80 then 1 else if c as int < 0x800 then 2 else if c as int < 0x1_0000 then 3 else 4
  }

  function Utf8Bytes(s: string): nat {
    if s == [] then 0 else CharBytes(s[0]) + Utf8Bytes(s[1..])
  }

  /** A cut between `a` and `b` separates the two halves of a surrogate pair. */
  predicate Straddles(a: seq<CodeUnit>, b: seq<CodeUnit>) {
    |a| > 0 && |b| > 0 && IsHigh(a[|a| - 1]) && IsLow(b[0])
  }

  /** Byte counts add up across a cut that does not split a surrogate pair. */
  lemma {:induction false} Utf8LengthConcat(a: seq<CodeUnit>, b: seq<CodeUnit>)
    requires !Straddles(a, b)
    decreases |a|
    ensures Utf8Length(a + b) == Utf8Length(a) + Utf8Length(b)
  {
    if |a| == 0 {
      assert a + b == b;
    } else if |a| >= 2 && IsHigh(a[0]) && IsLow(a[1]) {
      assert (a + b)[2..] == a[2..] + b;
      if |a| > 2 {
        assert a[2..][|a[2..]| - 1] == a[|a| - 1];
      }
      Utf8LengthConcat(a[2..], b);
    } else {
      assert (a + b)[1..] == a[1..] + b;
      if |a| > 1 {
        assert a[1..][|a[1..]| - 1] == a[|a| - 1];
      }
      Utf8LengthConcat(a[1..], b);
    }
  }

  /** A cut through a surrogate pair turns one 4-byte character into two 3-byte U+FFFD. */
  lemma Utf8LengthStraddle(a: seq<CodeUnit>, b: seq<CodeUnit>)
    requires Straddles(a, b)
    ensures Utf8Length(a) + Utf8Length(b) == Utf8Length(a + b) + 2
  {
    var n := |a| - 1;
    var a' := a[..n];
    assert a == a' + [a[n]];
    assert !Straddles(a', [a[n]]);
    Utf8LengthConcat(a', [a[n]]);
    assert !Straddles(a', [a[n]] + b);
    Utf8LengthConcat(a', [a[n]] + b);
    assert a + b == a' + ([a[n]] + b);
    assert ([a[n]] + b)[2..] == b[1..];
  }

  /** The code units of a Dafny string never split a pair, so `Buffer.byteLength` of them is
      the UTF-8 size of the text. */
  lemma {:induction false} Utf8LengthOfEncode(s: string)
    ensures Utf8Length(Encode(s)) == Utf8Bytes(s)
    ensures Encode(s) == [] || !IsHigh(Encode(s)[|Encode(s)| - 1])
  {
    if s != [] {
      var e := EncodeChar(s[0]);
      Utf8LengthOfEncode(s[1..]);
      Utf8LengthConcat(e, Encode(s[1..]));
      if |e| == 2 {
        assert e[2..] == [];
      }
      var r := Encode(s[1..]);
      if r != [] {
        assert Encode(s)[|Encode(s)| - 1] == r[|r| - 1];
      }
    }
  }
}
