/** The base64 of section 4 of RFC 4648. */
module Base64 {
  import opened Wrappers
  import opened Octets

  // ----- The alphabet -----

  type Digit = i: int | 0 <= i < 64

  function Symbol(i: Digit): char {
    if i < 26 then (i + 'A' as int) as char
    else if i < 52 then (i - 26 + 'a' as int) as char
    else if i < 62 then (i - 52 + '0' as int) as char
    else if i == 62 then '+' else '/'
  }

  function DigitOf(c: char): Option<Digit> {
    if 'A' <= c <= 'Z' then Some(c as int - 'A' as int)
    else if 'a' <= c <= 'z' then Some(c as int - 'a' as int + 26)
    else if '0' <= c <= '9' then Some(c as int - '0' as int + 52)
    else if c == '+' then Some(62)
    else if c == '/' then Some(63)
    else None
  }

  lemma SymbolDigit(i: Digit)
    ensures DigitOf(Symbol(i)) == Some(i)
  {
  }

  predicate IsBase64Char(c: char) {
    DigitOf(c).Some? || c == '='
  }

  // ----- Encoding -----

  function Encode(b: Bytes): string {
    if b == [] then ""
    else if |b| == 1 then [Symbol(b[0] / 4), Symbol(b[0] % 4 * 16), '=', '=']
    else if |b| == 2 then [Symbol(b[0] / 4), Symbol(b[0] % 4 * 16 + b[1] / 16), Symbol(b[1] % 16 * 4), '=']
    else [Symbol(b[0] / 4), Symbol(b[0] % 4 * 16 + b[1] / 16), Symbol(b[1] % 16 * 4 + b[2] / 64), Symbol(b[2] % 64)]
         + Encode(b[3..])
  }

  // ----- Decoding -----

  /** One group of four symbols; only the last group may be padded. */
  function DecodeGroup(s: string, last: bool): Option<Bytes>
    requires |s| == 4
  {
    var p, q, r, t := DigitOf(s[0]), DigitOf(s[1]), DigitOf(s[2]), DigitOf(s[3]);
    if p.None? || q.None? then None
    else if last && s[2] == '=' && s[3] == '=' then
      if q.value % 16 == 0 then Some([p.value * 4 + q.value / 16]) else None
    else if r.None? then None
    else if last && s[3] == '=' then
      if r.value % 4 == 0 then Some([p.value * 4 + q.value / 16, q.value % 16 * 16 + r.value / 4]) else None
    else if t.None? then None
    else Some([p.value * 4 + q.value / 16, q.value % 16 * 16 + r.value / 4, r.value % 4 * 64 + t.value])
  }

  function Decode(s: string): Option<Bytes> {
    if s == "" then Some([])
    else if |s| < 4 then None
    else
      match (DecodeGroup(s[..4], |s| == 4), Decode(s[4..]))
      case (Some(head), Some(tail)) => Some(head + tail)
      case _ => None
  }

  lemma {:induction false} EncodeIsBase64(b: Bytes)
    ensures forall c | c in Encode(b) :: IsBase64Char(c)
  {
    if |b| > 2 {
      EncodeIsBase64(b[3..]);
    }
    forall i: Digit ensures IsBase64Char(Symbol(i)) {
      SymbolDigit(i);
    }
    hide Symbol, DigitOf;
  }

  lemma {:induction false} DecodeEncode(b: Bytes)
    ensures Decode(Encode(b)) == Some(b)
  {
    hide Symbol, DigitOf, DecodeGroup;
    if b == [] {
    } else if |b| < 3 {
      PaddedGroup(b);
      assert Encode(b)[..4] == Encode(b) && Encode(b)[4..] == "";
      assert b + [] == b;
    } else {
      var head, rest := Encode(b)[..4], Encode(b[3..]);
      FullGroup(b[0], b[1], b[2], rest == "");
      DecodeEncode(b[3..]);
      assert Encode(b)[4..] == rest;
      assert head == [Symbol(b[0] / 4), Symbol(b[0] % 4 * 16 + b[1] / 16), Symbol(b[1] % 16 * 4 + b[2] / 64), Symbol(b[2] % 64)];
      assert [b[0], b[1], b[2]] + b[3..] == b;
    }
  }

  lemma FullGroup(x: byte, y: byte, z: byte, last: bool)
    ensures DecodeGroup([Symbol(x / 4), Symbol(x % 4 * 16 + y / 16), Symbol(y % 16 * 4 + z / 64), Symbol(z % 64)], last)
         == Some([x, y, z])
  {
    hide DecodeGroup, Symbol;
    DecodeDigits(x / 4, x % 4 * 16 + y / 16, y % 16 * 4 + z / 64, z % 64, last);
    FirstByte(x, y);
    SecondByte(y, z);
  }

  lemma FirstByte(x: byte, y: byte)
    ensures x / 4 * 4 + (x % 4 * 16 + y / 16) / 16 == x && (x % 4 * 16 + y / 16) % 16 == y / 16
  {
  }

  lemma SecondByte(y: byte, z: byte)
    ensures y / 16 * 16 + (y % 16 * 4 + z / 64) / 4 == y && (y % 16 * 4 + z / 64) % 4 == z / 64
  {
  }

  lemma DecodeDigits(p: Digit, q: Digit, r: Digit, t: Digit, last: bool)
    ensures DecodeGroup([Symbol(p), Symbol(q), Symbol(r), Symbol(t)], last)
         == Some([p * 4 + q / 16, q % 16 * 16 + r / 4, r % 4 * 64 + t])
  {
    SymbolDigit(p);
    SymbolDigit(q);
    SymbolDigit(r);
    SymbolDigit(t);
    assert DigitOf('=') == None;
    hide Symbol, DigitOf;
  }

  lemma PaddedGroup(b: Bytes)
    requires |b| == 1 || |b| == 2
    ensures |Encode(b)| == 4 && DecodeGroup(Encode(b), true) == Some(b)
  {
    if |b| == 1 {
      OneByte(b[0]);
      assert b == [b[0]];
    } else {
      TwoBytes(b[0], b[1]);
      assert b == [b[0], b[1]];
    }
    hide DecodeGroup;
  }

  lemma OneByte(x: byte)
    ensures DecodeGroup([Symbol(x / 4), Symbol(x % 4 * 16), '=', '='], true) == Some([x])
  {
    SymbolDigit(x / 4);
    SymbolDigit(x % 4 * 16);
    assert DigitOf('=') == None;
    hide Symbol, DigitOf;
  }

  lemma TwoBytes(x: byte, y: byte)
    ensures DecodeGroup([Symbol(x / 4), Symbol(x % 4 * 16 + y / 16), Symbol(y % 16 * 4), '='], true) == Some([x, y])
  {
    SymbolDigit(x / 4);
    SymbolDigit(x % 4 * 16 + y / 16);
    SymbolDigit(y % 16 * 4);
    assert DigitOf('=') == None;
    hide Symbol, DigitOf;
  }

  /** Examples of section 10 of RFC 4648 ("", "f", "fo", "foobar"), and one with the last two symbols. */
  lemma Examples()
    ensures Encode([]) == "" && Encode([102]) == "Zg==" && Encode([102, 111]) == "Zm8="
    ensures Encode([102, 111, 111, 98, 97, 114]) == "Zm9vYmFy"
    ensures Encode([251, 255]) == "+/8="
  {
    var foobar: Bytes := [102, 111, 111, 98, 97, 114];
    assert foobar[3..] == [98, 97, 114] && foobar[3..][3..] == [];
    assert Encode(foobar[3..]) == "YmFy" + "";
    assert Encode(foobar) == "Zm9v" + Encode(foobar[3..]);
  }
}
