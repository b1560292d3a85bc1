/**
  How numbers travel: 32-bit fields in network byte order, the two halves of an
  RMA acknowledgement, decimal text, and base64 (section 4 of RFC 4648).
 */
module Wire {
  import opened Common

  type byte = x: int | 0 <= x < 256

  const U32 := 0x1_0000_0000
  const U64 := 0x1_0000_0000_0000_0000

  // ---------------------------------------------------------------- network byte order

  function Be32(n: nat): (r: seq<byte>)
    requires n < U32
    ensures |r| == 4
  {
    [n / 0x100_0000, n / 0x1_0000 % 256, n / 256 % 256, n % 256]
  }

  function FromBe32(s: seq<byte>): (n: nat)
    requires |s| == 4
    ensures n < U32
  {
    s[0] as int * 0x100_0000 + s[1] as int * 0x1_0000 + s[2] as int * 256 + s[3] as int
  }

  lemma Be32RoundTrip(n: nat)
    requires n < U32
    ensures FromBe32(Be32(n)) == n
  {
    var a := n / 256;
    var b := a / 256;
    assert n / 0x1_0000 == b && n / 0x100_0000 == b / 256;
  }

  /** The most significant byte comes first. */
  lemma NetworkOrder(n: nat)
    requires n < U32
    ensures var b := Be32(n);
            b[0] as int * 16777216 + b[1] as int * 65536 + b[2] as int * 256 + b[3] as int == n
  {
    Be32RoundTrip(n);
  }

  /** defw_send_rma_ack: a 64-bit handle as two 32-bit halves. */
  function AckBody(handle: nat): (r: seq<byte>)
    requires handle < U64
    ensures |r| == 8
  {
    Be32(handle / U32) + Be32(handle % U32)
  }

  /** process_msg_rma_ack */
  function AckHandle(body: seq<byte>): (handle: nat)
    requires |body| == 8
    ensures handle < U64
  {
    FromBe32(body[..4]) * U32 + FromBe32(body[4..])
  }

  /** The acknowledgement names the handle it was sent for. */
  lemma AckRoundTrip(handle: nat)
    requires handle < U64
    ensures AckHandle(AckBody(handle)) == handle
  {
    var b := AckBody(handle);
    assert b[..4] == Be32(handle / U32) && b[4..] == Be32(handle % U32);
    Be32RoundTrip(handle / U32);
    Be32RoundTrip(handle % U32);
  }

  /** The high half of the handle comes first. */
  lemma AckOrder(handle: nat)
    requires handle < U64
    ensures var b := AckBody(handle);
            (b[0] as int * 16777216 + b[1] as int * 65536 + b[2] as int * 256 + b[3] as int) * 4294967296 +
            (b[4] as int * 16777216 + b[5] as int * 65536 + b[6] as int * 256 + b[7] as int) == handle
  {
    NetworkOrder(handle / U32);
    NetworkOrder(handle % U32);
  }

  // ---------------------------------------------------------------- decimal text

  function Digit(d: nat): char
    requires d < 10
  {
    '0' + d as char
  }

  predicate IsDigit(c: char) { '0' <= c <= '9' }

  function Decimal(n: nat): (s: string)
    ensures s != "" && forall c :: c in s ==> IsDigit(c)
  {
    if n < 10 then [Digit(n)] else Decimal(n / 10) + [Digit(n % 10)]
  }

  /** int() of a run of digits. */
  function ParseDecimal(s: string): Option<nat> {
    if s == "" || !IsDigit(s[|s| - 1]) then None
    else
      var d := (s[|s| - 1] - '0') as nat;
      if |s| == 1 then Some(d)
      else match ParseDecimal(s[..|s| - 1])
        case Some(n) => Some(10 * n + d)
        case None => None
  }

  lemma {:induction false} DecimalRoundTrip(n: nat)
    ensures ParseDecimal(Decimal(n)) == Some(n)
  {
    if n >= 10 {
      DecimalRoundTrip(n / 10);
      assert Decimal(n)[..|Decimal(n)| - 1] == Decimal(n / 10);
    }
  }

  /** No leading zeros. */
  lemma {:induction false} DecimalShort(n: nat)
    ensures n > 0 ==> Decimal(n)[0] != '0'
    ensures n == 0 ==> Decimal(n) == "0"
  {
    if n >= 10 { DecimalShort(n / 10); }
  }

  function Pow10(k: nat): nat { if k == 0 then 1 else 10 * Pow10(k - 1) }

  lemma {:induction false} DecimalLength(n: nat, k: nat)
    requires k > 0 && n < Pow10(k)
    ensures |Decimal(n)| <= k
    decreases k
  {
    if n >= 10 {
      assert Pow10(0) == 1;
      DecimalLength(n / 10, k - 1);
    }
  }

  lemma U64Digits(n: nat)
    requires n < U64
    ensures |Decimal(n)| <= 20
  {
    assert Pow10(5) == 100_000 by {
      assert Pow10(1) == 10 && Pow10(2) == 100 && Pow10(3) == 1000 && Pow10(4) == 10_000;
    }
    Pow10Add(5, 5);
    Pow10Add(10, 10);
    DecimalLength(n, 20);
  }

  lemma {:induction false} Pow10Add(a: nat, b: nat)
    ensures Pow10(a + b) == Pow10(a) * Pow10(b)
    decreases a
  {
    if a > 0 { Pow10Add(a - 1, b); }
  }

  /** str.split on one separator. */
  function Split(s: string, c: char): (r: seq<string>)
    ensures r != []
  {
    if s == "" then [""]
    else
      var rest := Split(s[1..], c);
      if s[0] == c then [""] + rest else [[s[0]] + rest[0]] + rest[1..]
  }

  lemma {:induction false} SplitPlain(a: string, c: char)
    requires c !in a
    ensures Split(a, c) == [a]
    decreases |a|
  {
    if a != "" {
      SplitPlain(a[1..], c);
      assert a == [a[0]] + a[1..];
    }
  }

  lemma {:induction false} SplitFirst(a: string, c: char, rest: string)
    requires c !in a
    ensures Split(a + [c] + rest, c) == [a] + Split(rest, c)
    decreases |a|
  {
    var s := a + [c] + rest;
    if a == "" {
      assert s[1..] == rest;
    } else {
      assert s[1..] == a[1..] + [c] + rest;
      SplitFirst(a[1..], c, rest);
      assert a == [a[0]] + a[1..];
    }
  }

  // ---------------------------------------------------------------- RMA descriptors

  datatype Desc = Desc(handle: nat, key: nat, addr: nat, len: nat)

  predicate DescOk(d: Desc) {
    d.handle < U64 && d.key < U64 && d.addr < U64 && d.len < U64
  }

  function DescText(d: Desc): string {
    Decimal(d.handle) + ":" + (Decimal(d.key) + ":" + (Decimal(d.addr) + ":" + Decimal(d.len)))
  }

  const DescBuffer := 96

  /** snprintf into the buffer: at most one character less than its size. */
  function Printed(d: Desc): string {
    var t := DescText(d);
    if |t| < DescBuffer then t else t[..DescBuffer - 1]
  }

  function ParseDesc(s: string): Option<Desc> {
    var f := Split(s, ':');
    if |f| != 4 then None
    else match (ParseDecimal(f[0]), ParseDecimal(f[1]), ParseDecimal(f[2]), ParseDecimal(f[3]))
      case (Some(h), Some(k), Some(a), Some(l)) => Some(Desc(h, k, a, l))
      case _ => None
  }

  lemma DescFields(d: Desc)
    ensures Split(DescText(d), ':') == [Decimal(d.handle), Decimal(d.key), Decimal(d.addr), Decimal(d.len)]
  {
    var l := Decimal(d.len);
    var al := Decimal(d.addr) + ":" + l;
    var kal := Decimal(d.key) + ":" + al;
    SplitPlain(l, ':');
    SplitFirst(Decimal(d.addr), ':', l);
    SplitFirst(Decimal(d.key), ':', al);
    SplitFirst(Decimal(d.handle), ':', kal);
  }

  /** The text of any descriptor fits its buffer with the terminator, and the
      receiver reads back the same four numbers. */
  lemma DescRoundTrip(d: Desc)
    requires DescOk(d)
    ensures |DescText(d)| + 1 <= DescBuffer
    ensures ParseDesc(Printed(d)) == Some(d)
  {
    U64Digits(d.handle);
    U64Digits(d.key);
    U64Digits(d.addr);
    U64Digits(d.len);
    DescFields(d);
    DecimalRoundTrip(d.handle);
    DecimalRoundTrip(d.key);
    DecimalRoundTrip(d.addr);
    DecimalRoundTrip(d.len);
  }

  // ---------------------------------------------------------------- base64

  function Letter(d: sextet): char
  {
    if d < 26 then 'A' + d as char
    else if d < 52 then 'a' + (d - 26) as char
    else if d < 62 then '0' + (d - 52) as char
    else if d == 62 then '+' else '/'
  }

  function LetterIndex(c: char): Option<sextet> {
    if 'A' <= c <= 'Z' then Some((c - 'A') as nat)
    else if 'a' <= c <= 'z' then Some((c - 'a') as nat + 26)
    else if '0' <= c <= '9' then Some((c - '0') as nat + 52)
    else if c == '+' then Some(62)
    else if c == '/' then Some(63)
    else None
  }

  lemma LetterRoundTrip(d: sextet)
    ensures LetterIndex(Letter(d)) == Some(d) && Letter(d) != '='
  {
  }

  /** The alphabet of section 4 of RFC 4648: A to Z, a to z, 0 to 9, + and /. */
  lemma LettersInOrder(d: sextet)
    ensures Letter(0) == 'A' && Letter(25) == 'Z' && Letter(26) == 'a' && Letter(51) == 'z'
    ensures Letter(52) == '0' && Letter(61) == '9' && Letter(62) == '+' && Letter(63) == '/'
    ensures d < 61 && d != 25 && d != 51 ==> Letter(d + 1) as int == Letter(d) as int + 1
  {
  }

  /** Three bytes as four 6-bit digits, and back. */
  function Digits64(x: byte, y: byte, z: byte): (sextet, sextet, sextet, sextet) {
    (x as int / 4, x as int % 4 * 16 + y as int / 16, y as int % 16 * 4 + z as int / 64, z as int % 64)
  }

  type sextet = x: int | 0 <= x < 64

  function Byte1(a: sextet, b: sextet): byte { a as int * 4 + b as int / 16 }
  function Byte2(b: sextet, c: sextet): byte { b as int % 16 * 16 + c as int / 4 }
  function Byte3(c: sextet, d: sextet): byte { c as int % 4 * 64 + d as int }

  lemma Digits64RoundTrip(x: byte, y: byte, z: byte)
    ensures var (a, b, c, d) := Digits64(x, y, z);
            Byte1(a, b) == x && Byte2(b, c) == y && Byte3(c, d) == z
  {
    Nibbles(x as int % 4, y as int / 16);
    Pairs(y as int % 16, z as int / 64);
  }

  lemma Nibbles(q: nat, r: nat)
    requires r < 16
    ensures (q * 16 + r) / 16 == q && (q * 16 + r) % 16 == r
  {
  }

  lemma Pairs(q: nat, r: nat)
    requires r < 4
    ensures (q * 4 + r) / 4 == q && (q * 4 + r) % 4 == r
  {
  }

  function Group(x: byte, y: byte, z: byte): string {
    var (a, b, c, d) := Digits64(x, y, z);
    [Letter(a), Letter(b), Letter(c), Letter(d)]
  }

  /** The four digits are the 24 bits of the three bytes, highest first. */
  lemma GroupIs24Bits(x: byte, y: byte, z: byte)
    ensures var (a, b, c, d) := Digits64(x, y, z);
            a as int * 262144 + b as int * 4096 + c as int * 64 + d as int ==
            x as int * 65536 + y as int * 256 + z as int
  {
  }

  function Encode64(bs: seq<byte>): string {
    if |bs| == 0 then ""
    else if |bs| == 1 then Group(bs[0], 0, 0)[..2] + "=="
    else if |bs| == 2 then Group(bs[0], bs[1], 0)[..3] + "="
    else Group(bs[0], bs[1], bs[2]) + Encode64(bs[3..])
  }

  /** The digits of four characters; padding counts as zero. */
  function Ungroup(s: string): Option<(sextet, sextet, sextet, sextet)>
    requires |s| == 4
  {
    var c := if s[2] == '=' then Some(0) else LetterIndex(s[2]);
    var d := if s[3] == '=' then Some(0) else LetterIndex(s[3]);
    match (LetterIndex(s[0]), LetterIndex(s[1]), c, d)
    case (Some(w), Some(x), Some(y), Some(z)) => Some((w, x, y, z))
    case _ => None
  }

  /** Groups of four characters; only the last may be padded. */
  function Decode64(s: string): Option<seq<byte>> {
    if s == "" then Some([])
    else if |s| < 4 then None
    else match Ungroup(s[..4])
      case None => None
      case Some((a, b, c, d)) =>
        if s[3] == '=' then
          if |s| > 4 then None
          else if s[2] == '=' then Some([Byte1(a, b)]) else Some([Byte1(a, b), Byte2(b, c)])
        else if s[2] == '=' then None
        else match Decode64(s[4..])
          case Some(rest) => Some([Byte1(a, b), Byte2(b, c), Byte3(c, d)] + rest)
          case None => None
  }

  lemma GroupRoundTrip(x: byte, y: byte, z: byte)
    ensures Ungroup(Group(x, y, z)) == Some(Digits64(x, y, z))
    ensures Group(x, y, z)[2] != '=' && Group(x, y, z)[3] != '='
  {
    var (a, b, c, d) := Digits64(x, y, z);
    Digits64RoundTrip(x, y, z);
    LetterRoundTrip(a);
    LetterRoundTrip(b);
    LetterRoundTrip(c);
    LetterRoundTrip(d);
  }

  /** A padded last group reads as the digits of the bytes it holds. */
  lemma PaddedRoundTrip(x: byte, y: byte)
    ensures Ungroup(Group(x, y, 0)[..3] + "=") == Some(Digits64(x, y, 0))
    ensures Ungroup(Group(x, 0, 0)[..2] + "==") == Some(Digits64(x, 0, 0))
  {
    GroupRoundTrip(x, y, 0);
    GroupRoundTrip(x, 0, 0);
    var g, h := Group(x, y, 0)[..3] + "=", Group(x, 0, 0)[..2] + "==";
    assert g[0] == Group(x, y, 0)[0] && g[1] == Group(x, y, 0)[1] && g[2] == Group(x, y, 0)[2] && g[3] == '=';
    assert h[0] == Group(x, 0, 0)[0] && h[1] == Group(x, 0, 0)[1] && h[2] == '=' && h[3] == '=';
  }

  lemma DecodeLast(s: string, a: sextet, b: sextet, c: sextet, d: sextet)
    requires |s| == 4 && Ungroup(s) == Some((a, b, c, d)) && s[3] == '='
    ensures Decode64(s) == if s[2] == '=' then Some([Byte1(a, b)]) else Some([Byte1(a, b), Byte2(b, c)])
  {
    assert s[..4] == s;
  }

  lemma Base64Two(x: byte, y: byte)
    ensures Decode64(Group(x, y, 0)[..3] + "=") == Some([x, y])
  {
    var s := Group(x, y, 0)[..3] + "=";
    var t := Digits64(x, y, 0);
    assert Ungroup(s) == Some(t) by { PaddedRoundTrip(x, y); }
    assert s[2] != '=' by { GroupRoundTrip(x, y, 0); }
    DecodeLast(s, t.0, t.1, t.2, t.3);
    assert Byte1(t.0, t.1) == x && Byte2(t.1, t.2) == y by { Digits64RoundTrip(x, y, 0); }
  }

  lemma Base64One(x: byte)
    ensures Decode64(Group(x, 0, 0)[..2] + "==") == Some([x])
  {
    var s := Group(x, 0, 0)[..2] + "==";
    var t := Digits64(x, 0, 0);
    assert Ungroup(s) == Some(t) by { PaddedRoundTrip(x, 0); }
    DecodeLast(s, t.0, t.1, t.2, t.3);
    assert Byte1(t.0, t.1) == x by { Digits64RoundTrip(x, 0, 0); }
  }

  lemma {:induction false} Base64RoundTrip(bs: seq<byte>)
    ensures Decode64(Encode64(bs)) == Some(bs)
    decreases |bs|
  {
    if |bs| == 1 {
      assert bs == [bs[0]];
      Base64One(bs[0]);
    } else if |bs| == 2 {
      assert bs == [bs[0], bs[1]];
      Base64Two(bs[0], bs[1]);
    } else if |bs| > 2 {
      var s, g := Encode64(bs), Group(bs[0], bs[1], bs[2]);
      GroupRoundTrip(bs[0], bs[1], bs[2]);
      Digits64RoundTrip(bs[0], bs[1], bs[2]);
      assert s[..4] == g && s[4..] == Encode64(bs[3..]) && s[2] == g[2] && s[3] == g[3];
      Base64RoundTrip(bs[3..]);
      assert bs == [bs[0], bs[1], bs[2]] + bs[3..];
    }
  }
}
