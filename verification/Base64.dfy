/** The base64 loop of prompt assembly against section 4 of RFC 4648. */
module Base64 {
  import opened Basics

  type Byte = n: int | 0 <= n < 256
  type Sextet = n: int | 0 <= n < 64

  /** Table 1 of RFC 4648. */
  function Symbol(v: Sextet): char {
    if v < 26 then ('A' as int + v) as char
    else if v < 52 then ('a' as int + (v - 26)) as char
    else if v < 62 then ('0' as int + (v - 52)) as char
    else if v == 62 then '+' else '/'
  }

  function Value(c: char): Option<Sextet> {
    if 'A' <= c <= 'Z' then Some(c as int - 'A' as int)
    else if 'a' <= c <= 'z' then Some(c as int - 'a' as int + 26)
    else if '0' <= c <= '9' then Some(c as int - '0' as int + 52)
    else if c == '+' then Some(62) else if c == '/' then Some(63) else None
  }

  lemma SymbolHasValue(v: Sextet)
    ensures Value(Symbol(v)) == Some(v) && Symbol(v) != '='
  {
  }

  function Bits(chunk: seq<Byte>): (value: int)
    requires 1 <= |chunk| <= 3
    ensures 0 <= value < 0x100_0000
  {
    var first: int, second: int, third: int :=
      chunk[0], if |chunk| > 1 then chunk[1] else 0, if |chunk| > 2 then chunk[2] else 0;
    first * 65536 + second * 256 + third
  }

  /** One or two final bytes, or three at a time, as 24 bits with zeros added on the right. */
  function Quantum(chunk: seq<Byte>): string
    requires 1 <= |chunk| <= 3
  {
    var value := Bits(chunk);
    [Symbol(value / 262144), Symbol(value / 4096 % 64),
     if |chunk| > 1 then Symbol(value / 64 % 64) else '=',
     if |chunk| > 2 then Symbol(value % 64) else '=']
  }

  function Encode(bytes: seq<Byte>): string {
    if bytes == [] then ""
    else if |bytes| <= 3 then Quantum(bytes)
    else Quantum(bytes[..3]) + Encode(bytes[3..])
  }

  /** A strict decoder of one four-character group: padding only as `xx==` or `xxx=`,
      and the bits that padding leaves over are zero. */
  function DecodeGroup(g: string): Option<seq<Byte>>
    requires |g| == 4
  {
    var a, b, c, d := Value(g[0]), Value(g[1]), Value(g[2]), Value(g[3]);
    if a.None? || b.None? then None
    else if g[2] == '=' && g[3] == '=' then
      (if b.value % 16 != 0 then None else Some([a.value * 4 + b.value / 16]))
    else if c.None? then None
    else if g[3] == '=' then
      (if c.value % 4 != 0 then None else Some([a.value * 4 + b.value / 16, b.value % 16 * 16 + c.value / 4]))
    else if d.None? then None
    else Some([a.value * 4 + b.value / 16, b.value % 16 * 16 + c.value / 4, c.value % 4 * 64 + d.value])
  }

  /** Groups of four; only the last may be padded. */
  function Decode(s: string): Option<seq<Byte>> {
    if s == "" then Some([])
    else if |s| < 4 then None
    else
      match DecodeGroup(s[..4])
      case None => None
      case Some(head) =>
        if |s| > 4 && |head| < 3 then None
        else match Decode(s[4..]) case None => None case Some(tail) => Some(head + tail)
  }

  lemma Multiples(e: int, d: int)
    requires d > 0
    ensures e >= 1 ==> e * d >= d
    ensures e <= -1 ==> e * d <= -d
  {
  }

  lemma Quotient(v: int, d: int, q: int, r: int)
    requires d > 0 && v == q * d + r && 0 <= r < d
    ensures v / d == q && v % d == r
  {
    var e := v / d - q;
    assert e * d == v / d * d - q * d;
    Multiples(e, d);
  }

  /** The four sextets of 24 bits, byte by byte. */
  lemma Sextets(x: int, y: int, z: int)
    requires 0 <= x < 256 && 0 <= y < 256 && 0 <= z < 256
    ensures var v := x * 65536 + y * 256 + z;
            && v / 262144 == x / 4 && v / 4096 % 64 == x % 4 * 16 + y / 16
            && v / 64 % 64 == y % 16 * 4 + z / 64 && v % 64 == z % 64
  {
    var v := x * 65536 + y * 256 + z;
    Quotient(v, 262144, x / 4, x % 4 * 65536 + y * 256 + z);
    Quotient(v, 4096, x * 16 + y / 16, y % 16 * 256 + z);
    Quotient(x * 16 + y / 16, 64, x / 4, x % 4 * 16 + y / 16);
    Quotient(v, 64, x * 1024 + y * 4 + z / 64, z % 64);
    Quotient(x * 1024 + y * 4 + z / 64, 64, x * 16 + y / 16, y % 16 * 4 + z / 64);
  }

  /** A group's characters stand for the four sextets; the missing ones are padding. */
  lemma QuantumSextets(chunk: seq<Byte>, x: int, y: int, z: int)
    requires 1 <= |chunk| <= 3 && x == chunk[0]
    requires y == (if |chunk| > 1 then chunk[1] else 0) && z == (if |chunk| > 2 then chunk[2] else 0)
    ensures 0 <= x < 256 && 0 <= y < 256 && 0 <= z < 256
    ensures var g := Quantum(chunk);
            && |g| == 4 && Value(g[0]) == Some(x / 4) && Value(g[1]) == Some(x % 4 * 16 + y / 16)
            && (if |chunk| > 1 then g[2] != '=' && Value(g[2]) == Some(y % 16 * 4 + z / 64) else g[2] == '=')
            && (if |chunk| > 2 then g[3] != '=' && Value(g[3]) == Some(z % 64) else g[3] == '=')
  {
    hide Symbol, Value;
    Sextets(x, y, z);
    var value := x * 65536 + y * 256 + z;
    SymbolHasValue(value / 262144);
    SymbolHasValue(value / 4096 % 64);
    SymbolHasValue(value / 64 % 64);
    SymbolHasValue(value % 64);
  }

  lemma GroupRoundTrip(chunk: seq<Byte>)
    requires 1 <= |chunk| <= 3
    ensures DecodeGroup(Quantum(chunk)) == Some(chunk)
  {
    hide Symbol, Value, Bits, Quantum;
    var x: int, y: int, z: int := chunk[0], if |chunk| > 1 then chunk[1] else 0, if |chunk| > 2 then chunk[2] else 0;
    QuantumSextets(chunk, x, y, z);
    Regroup(x, y, z);
    if |chunk| == 1 {
      assert chunk == [x];
    } else if |chunk| == 2 {
      assert chunk == [x, y];
    } else {
      assert chunk == [x, y, z];
    }
  }

  lemma Regroup(x: int, y: int, z: int)
    requires 0 <= x < 256 && 0 <= y < 256 && 0 <= z < 256
    ensures var a, b, c, d := x / 4, x % 4 * 16 + y / 16, y % 16 * 4 + z / 64, z % 64;
            && a * 4 + b / 16 == x && b % 16 * 16 + c / 4 == y && c % 4 * 64 + d == z
            && (y == 0 ==> b % 16 == 0) && (z == 0 ==> c % 4 == 0)
  {
    Quotient(x % 4 * 16 + y / 16, 16, x % 4, y / 16);
    Quotient(y % 16 * 4 + z / 64, 4, y % 16, z / 64);
  }

  lemma {:induction false} RoundTrip(bytes: seq<Byte>)
    ensures Decode(Encode(bytes)) == Some(bytes)
  {
    if bytes == [] {
    } else if |bytes| <= 3 {
      GroupRoundTrip(bytes);
      var s := Encode(bytes);
      assert s[..4] == s && s[4..] == "";
      assert bytes + [] == bytes;
    } else {
      GroupRoundTrip(bytes[..3]);
      RoundTrip(bytes[3..]);
      var s := Encode(bytes);
      assert s[..4] == Quantum(bytes[..3]) && s[4..] == Encode(bytes[3..]);
      assert bytes[..3] + bytes[3..] == bytes;
    }
    hide DecodeGroup, Quantum;
  }

  /** Four characters per started group of three bytes, padding only in the last one or
      two places and only when the last group is short. */
  lemma {:induction false} Shape(bytes: seq<Byte>)
    ensures |Encode(bytes)| == (|bytes| + 2) / 3 * 4
    ensures forall i :: 0 <= i < |Encode(bytes)| && Encode(bytes)[i] == '=' ==>
              i >= |Encode(bytes)| - (3 - |bytes| % 3) % 3
  {
    hide Quantum;
    if |bytes| > 3 {
      Shape(bytes[3..]);
      QuantumShape(bytes[..3]);
      var tail := Encode(bytes[3..]);
      assert forall i :: 4 <= i < |Encode(bytes)| ==> Encode(bytes)[i] == tail[i - 4];
      assert forall i :: 0 <= i < 4 ==> Encode(bytes)[i] == Quantum(bytes[..3])[i];
    } else if bytes != [] {
      QuantumShape(bytes);
    }
  }

  lemma QuantumShape(chunk: seq<Byte>)
    requires 1 <= |chunk| <= 3
    ensures |Quantum(chunk)| == 4 && forall i :: 0 <= i < 4 && Quantum(chunk)[i] == '=' ==> i >= 1 + |chunk|
  {
    var value := Bits(chunk);
    SymbolHasValue(value / 262144);
    SymbolHasValue(value / 4096 % 64);
    SymbolHasValue(value / 64 % 64);
    SymbolHasValue(value % 64);
    hide Symbol;
  }

  lemma {:induction false} EncodeAppends(bytes: seq<Byte>, chunk: seq<Byte>)
    requires |bytes| % 3 == 0 && 1 <= |chunk| <= 3
    ensures Encode(bytes + chunk) == Encode(bytes) + Quantum(chunk)
  {
    if bytes == [] {
      assert bytes + chunk == chunk;
    } else {
      assert (bytes + chunk)[..3] == bytes[..3] && (bytes + chunk)[3..] == bytes[3..] + chunk;
      EncodeAppends(bytes[3..], chunk);
      if |bytes| == 3 {
        assert bytes[..3] == bytes && bytes[3..] == [];
      }
      Associate(Quantum(bytes[..3]), Encode(bytes[3..]), Quantum(chunk));
    }
    hide Quantum;
  }

  lemma EncodeNothing()
    ensures Encode([]) == ""
  {
  }

  /** The loop over chunks of three. */
  method EncodeBytes(bytes: seq<Byte>) returns (text: string)
    ensures text == Encode(bytes)
  {
    hide Symbol, Encode;
    text := "";
    assert Encode([]) == "" by { EncodeNothing(); }
    var i := 0;
    while i < |bytes|
      invariant 0 <= i <= |bytes| && (i % 3 == 0 || i == |bytes|)
      invariant text == Encode(bytes[..i])
    {
      var end := if i + 3 <= |bytes| then i + 3 else |bytes|;
      var chunk := bytes[i..end];
      assert bytes[..end] == bytes[..i] + chunk;
      EncodeAppends(bytes[..i], chunk);
      var first: int, second: int, third: int := chunk[0], 0, 0;
      if |chunk| > 1 { second := chunk[1]; }
      if |chunk| > 2 { third := chunk[2]; }
      var value := first * 65536 + second * 256 + third;
      assert value == Bits(chunk);
      text := text + [Symbol(value / 262144), Symbol(value / 4096 % 64),
                      if |chunk| > 1 then Symbol(value / 64 % 64) else '=', if |chunk| > 2 then Symbol(value % 64) else '='];
      i := end;
    }
    assert bytes[..i] == bytes;
  }
}
