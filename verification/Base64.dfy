/** Unpadded base64url (RFC 4648, section 5) as the cursor codecs use it, and the
    decimal text that Python's int() reads. */
module Wrappers {
  datatype Option<+T> = None | Some(value: T)

  lemma SubsetSize<T>(a: set<T>, b: set<T>)
    requires a <= b
    ensures |a| <= |b|
  {
    assert b == a + (b - a);
  }
}

module Base64 {
  import opened Wrappers

  type Byte = b: nat | b < 256

  function Symbol(v: nat): char
    requires v < 64
  {
    if v < 26 then ('A' as int + v) as char
    else if v < 52 then ('a' as int + (v - 26)) as char
    else if v < 62 then ('0' as int + (v - 52)) as char
    else if v == 62 then '-' else '_'
  }

  /** The six-bit value of a symbol; 64 for a character outside both alphabets. */
  function Value(c: char): (v: nat)
    ensures v <= 64
  {
    if 'A' <= c <= 'Z' then c as int - 'A' as int
    else if 'a' <= c <= 'z' then c as int - 'a' as int + 26
    else if '0' <= c <= '9' then c as int - '0' as int + 52
    else if c == '-' || c == '+' then 62
    else if c == '_' || c == '/' then 63
    else 64
  }

  /** urlsafe_b64encode followed by rstrip("="). */
  function Encode(bs: seq<Byte>): (r: string)
    ensures |r| == (4 * |bs| + 2) / 3
  {
    if |bs| == 0 then ""
    else if |bs| == 1 then [Symbol(bs[0] / 4), Symbol(bs[0] % 4 * 16)]
    else if |bs| == 2 then
      [Symbol(bs[0] / 4), Symbol(bs[0] % 4 * 16 + bs[1] / 16), Symbol(bs[1] % 16 * 4)]
    else Group(bs[0], bs[1], bs[2]) + Encode(bs[3..])
  }

  /** Three bytes as four symbols. */
  function Group(b0: Byte, b1: Byte, b2: Byte): (r: string)
    ensures |r| == 4
  {
    [Symbol(b0 / 4), Symbol(b0 % 4 * 16 + b1 / 16), Symbol(b1 % 16 * 4 + b2 / 64), Symbol(b2 % 64)]
  }

  function Padding(length: nat): string {
    if length % 4 == 0 then "" else if length % 4 == 1 then "===" else if length % 4 == 2 then "==" else "="
  }

  /** binascii.a2b_base64 outside strict mode: characters of no alphabet are skipped,
      and a completed pad ends the input. The state is the position inside a group of
      four, the pads seen since the last symbol and the bits not yet emitted. */
  function Scan(raw: string, quad: nat, pads: nat, left: nat): (r: Option<seq<Byte>>)
    requires quad < 4 && left < 64
    requires quad == 0 ==> left == 0
    requires quad == 2 ==> left < 16
    requires quad == 3 ==> left < 4
    decreases |raw|
  {
    if raw == "" then (if quad == 0 then Some([]) else None)
    else if raw[0] == '=' then
      if quad >= 2 && quad + pads + 1 >= 4 then Some([])
      else Scan(raw[1..], quad, if quad >= 2 then pads + 1 else pads, left)
    else
      var v := Value(raw[0]);
      if v == 64 then Scan(raw[1..], quad, pads, left)
      else if quad == 0 then Scan(raw[1..], 1, 0, v)
      else if quad == 1 then Emit(left * 4 + v / 16, Scan(raw[1..], 2, 0, v % 16))
      else if quad == 2 then Emit(left * 16 + v / 4, Scan(raw[1..], 3, 0, v % 4))
      else Emit(left * 64 + v, Scan(raw[1..], 0, 0, 0))
  }

  function Emit(b: Byte, rest: Option<seq<Byte>>): Option<seq<Byte>> {
    if rest.None? then None else Some([b] + rest.value)
  }

  /** Pad to a multiple of four, then decode; text outside ASCII is refused. */
  function Decode(raw: string): Option<seq<Byte>> {
    if exists i | 0 <= i < |raw| :: raw[i] as int >= 128 then None
    else Scan(raw + Padding(|raw|), 0, 0, 0)
  }

  lemma ValueOfSymbol(v: nat)
    requires v < 64
    ensures Value(Symbol(v)) == v && Symbol(v) != '=' && Symbol(v) as int < 128
  {}

  lemma ScanSymbol(v: nat, rest: string, quad: nat, pads: nat, left: nat)
    requires v < 64 && quad < 4 && left < 64
    requires quad == 0 ==> left == 0
    requires quad == 2 ==> left < 16
    requires quad == 3 ==> left < 4
    ensures Scan([Symbol(v)] + rest, quad, pads, left) ==
            if quad == 0 then Scan(rest, 1, 0, v)
            else if quad == 1 then Emit(left * 4 + v / 16, Scan(rest, 2, 0, v % 16))
            else if quad == 2 then Emit(left * 16 + v / 4, Scan(rest, 3, 0, v % 4))
            else Emit(left * 64 + v, Scan(rest, 0, 0, 0))
  {
    ValueOfSymbol(v);
    assert ([Symbol(v)] + rest)[1..] == rest;
  }

  lemma Regroup(b0: Byte, b1: Byte, b2: Byte)
    ensures b0 / 4 * 4 + (b0 % 4 * 16 + b1 / 16) / 16 == b0
    ensures (b0 % 4 * 16 + b1 / 16) % 16 == b1 / 16
    ensures b1 / 16 * 16 + (b1 % 16 * 4 + b2 / 64) / 4 == b1
    ensures (b1 % 16 * 4 + b2 / 64) % 4 == b2 / 64
    ensures b2 / 64 * 64 + b2 % 64 == b2
  {}

  lemma ScanGroup(b0: Byte, b1: Byte, b2: Byte, rest: string, bs: seq<Byte>)
    requires Scan(rest, 0, 0, 0) == Some(bs)
    ensures Scan(Group(b0, b1, b2) + rest, 0, 0, 0) == Some([b0, b1, b2] + bs)
  {
    Regroup(b0, b1, b2);
    var v0, v1, v2, v3 := b0 / 4, b0 % 4 * 16 + b1 / 16, b1 % 16 * 4 + b2 / 64, b2 % 64;
    var t3 := [Symbol(v3)] + rest;
    var t2 := [Symbol(v2)] + t3;
    var t1 := [Symbol(v1)] + t2;
    assert Group(b0, b1, b2) + rest == [Symbol(v0)] + t1;
    ScanSymbol(v3, rest, 3, 0, v2 % 4);
    ScanSymbol(v2, t3, 2, 0, v1 % 16);
    ScanSymbol(v1, t2, 1, 0, v0);
    ScanSymbol(v0, t1, 0, 0, 0);
    assert [b0] + ([b1] + ([b2] + bs)) == [b0, b1, b2] + bs;
  }

  lemma ScanPadding(left: nat)
    requires left < 16
    ensures Scan("==", 2, 0, left) == Some([])
    ensures left < 4 ==> Scan("=", 3, 0, left) == Some([])
  {
    assert "=="[1..] == "=";
    assert Scan("=", 2, 1, left) == Some([]);
  }

  lemma ScanOne(b0: Byte)
    ensures Scan([Symbol(b0 / 4), Symbol(b0 % 4 * 16)] + "==", 0, 0, 0) == Some([b0])
  {
    var v0, v1 := b0 / 4, b0 % 4 * 16;
    assert [Symbol(v0), Symbol(v1)] + "==" == [Symbol(v0)] + ([Symbol(v1)] + "==");
    ScanSymbol(v0, [Symbol(v1)] + "==", 0, 0, 0);
    ScanSymbol(v1, "==", 1, 0, v0);
    ScanPadding(v1 % 16);
    assert v0 * 4 + v1 / 16 == b0 && [b0] + [] == [b0];
  }

  lemma ScanTwo(b0: Byte, b1: Byte)
    ensures Scan([Symbol(b0 / 4), Symbol(b0 % 4 * 16 + b1 / 16), Symbol(b1 % 16 * 4)] + "=", 0, 0, 0)
            == Some([b0, b1])
  {
    Regroup(b0, b1, 0);
    var v0, v1, v2 := b0 / 4, b0 % 4 * 16 + b1 / 16, b1 % 16 * 4;
    var t2 := [Symbol(v2)] + "=";
    var t1 := [Symbol(v1)] + t2;
    assert [Symbol(v0), Symbol(v1), Symbol(v2)] + "=" == [Symbol(v0)] + t1;
    ScanSymbol(v2, "=", 2, 0, v1 % 16);
    ScanSymbol(v1, t2, 1, 0, v0);
    ScanSymbol(v0, t1, 0, 0, 0);
    ScanPadding(v2 % 4);
    assert v1 % 16 * 16 + v2 / 4 == b1 && [b0] + ([b1] + []) == [b0, b1];
  }

  lemma ScanGroupPadded(b0: Byte, b1: Byte, b2: Byte, e: string, bs: seq<Byte>)
    requires Scan(e + Padding(|e|), 0, 0, 0) == Some(bs)
    ensures Scan(Group(b0, b1, b2) + e + Padding(|Group(b0, b1, b2) + e|), 0, 0, 0) == Some([b0, b1, b2] + bs)
  {
    var g, pad := Group(b0, b1, b2), Padding(|e|);
    ScanGroup(b0, b1, b2, e + pad, bs);
    assert Padding(|g + e|) == pad && g + e + pad == g + (e + pad);
  }

  lemma {:induction false} ScanEncoded(bs: seq<Byte>)
    ensures Scan(Encode(bs) + Padding(|Encode(bs)|), 0, 0, 0) == Some(bs)
  {
    if |bs| == 0 {
    } else if |bs| == 1 {
      ScanOne(bs[0]);
      assert bs == [bs[0]];
    } else if |bs| == 2 {
      ScanTwo(bs[0], bs[1]);
      assert bs == [bs[0], bs[1]];
    } else {
      ScanEncoded(bs[3..]);
      ScanGroupPadded(bs[0], bs[1], bs[2], Encode(bs[3..]), bs[3..]);
      assert [bs[0], bs[1], bs[2]] + bs[3..] == bs;
    }
  }

  lemma {:induction false} EncodedIsAscii(bs: seq<Byte>)
    ensures forall i | 0 <= i < |Encode(bs)| :: Encode(bs)[i] as int < 128
  {
    if |bs| > 2 { EncodedIsAscii(bs[3..]); }
  }

  /** Decoding undoes encoding, for every byte string. */
  lemma RoundTrip(bs: seq<Byte>)
    ensures Decode(Encode(bs)) == Some(bs)
  {
    EncodedIsAscii(bs);
    ScanEncoded(bs);
  }

  /** str.encode / bytes.decode for ASCII text. */
  predicate IsAscii(s: string) { forall i | 0 <= i < |s| :: s[i] as int < 128 }

  function Bytes(s: string): (bs: seq<Byte>)
    requires IsAscii(s)
    ensures |bs| == |s|
  {
    seq(|s|, i requires 0 <= i < |s| => s[i] as int)
  }

  /** bytes.decode("ascii"): None when a byte is not ASCII. */
  function Text(bs: seq<Byte>): Option<string> {
    if exists i | 0 <= i < |bs| :: bs[i] >= 128 then None
    else Some(seq(|bs|, i requires 0 <= i < |bs| => bs[i] as char))
  }

  lemma TextOfBytes(s: string)
    requires IsAscii(s)
    ensures Text(Bytes(s)) == Some(s)
  {
    assert Text(Bytes(s)).value == s;
  }
}

module PythonInt {
  import opened Wrappers

  predicate IsDigit(c: char) { '0' <= c <= '9' }

  predicate IsSpace(c: char) { 9 <= c as int <= 13 || 28 <= c as int <= 32 }

  function Print(n: nat): (s: string)
    ensures |s| >= 1
  {
    (if n < 10 then "" else Print(n / 10)) + [('0' as int + n % 10) as char]
  }

  function StripLeft(s: string): string {
    if s != "" && IsSpace(s[0]) then StripLeft(s[1..]) else s
  }

  function StripRight(s: string): string {
    if s != "" && IsSpace(s[|s| - 1]) then StripRight(s[..|s| - 1]) else s
  }

  /** Digits with single underscores between them, read from the right. */
  function Digits(s: string): Option<nat> {
    if s == "" || !IsDigit(s[|s| - 1]) then None
    else
      var d := s[|s| - 1] as int - '0' as int;
      if |s| == 1 then Some(d)
      else
        var front := s[..|s| - 1];
        var rest := Digits(if front[|front| - 1] == '_' then front[..|front| - 1] else front);
        if rest.None? then None else Some(rest.value * 10 + d)
  }

  /** int(text) on ASCII text: surrounding space, one sign, digits, inner underscores. */
  function Parse(s: string): Option<int> {
    var t := StripRight(StripLeft(s));
    if t != "" && (t[0] == '+' || t[0] == '-') then
      var n := Digits(t[1..]);
      if n.None? then None
      else
        var v: int := n.value;
        Some(if t[0] == '-' then -v else v)
    else
      var n := Digits(t);
      if n.None? then None else Some(n.value)
  }

  lemma {:induction false} PrintDigits(n: nat)
    ensures forall i | 0 <= i < |Print(n)| :: IsDigit(Print(n)[i])
    ensures Digits(Print(n)) == Some(n)
  {
    if n >= 10 {
      PrintDigits(n / 10);
      assert Print(n)[..|Print(n)| - 1] == Print(n / 10);
    }
  }

  lemma ParseDigits(s: string)
    requires s != "" && IsDigit(s[0]) && IsDigit(s[|s| - 1])
    ensures Parse(s) == if Digits(s).None? then None else Some(Digits(s).value)
  {
    assert StripLeft(s) == s && StripRight(s) == s;
  }

  lemma ParsePrint(n: nat)
    ensures Parse(Print(n)) == Some(n)
  {
    PrintDigits(n);
    ParseDigits(Print(n));
  }
}
