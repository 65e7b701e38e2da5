/** Standard base64 with padding, section 4 of RFC 4648, as Go's encoding/base64 reads
    and writes it. */
module Base64 {
  import opened Options

  type Byte = x: int | 0 <= x < 256

  type Sextet = x: int | 0 <= x < 64

  function Letter(i: Sextet): char {
    if i < 26 then 'A' + i as char
    else if i < 52 then 'a' + (i - 26) as char
    else if i < 62 then '0' + (i - 52) as char
    else if i == 62 then '+'
    else '/'
  }

  function Index(c: char): Option<Sextet> {
    if 'A' <= c <= 'Z' then Some((c - 'A') as int)
    else if 'a' <= c <= 'z' then Some((c - 'a') as int + 26)
    else if '0' <= c <= '9' then Some((c - '0') as int + 52)
    else if c == '+' then Some(62)
    else if c == '/' then Some(63)
    else None
  }

  function Encode(bs: seq<Byte>): string {
    if |bs| == 0 then ""
    else if |bs| == 1 then [Letter(bs[0] / 4), Letter(bs[0] % 4 * 16), '=', '=']
    else if |bs| == 2 then [Letter(bs[0] / 4), Letter(bs[0] % 4 * 16 + bs[1] / 16), Letter(bs[1] % 16 * 4), '=']
    else [Letter(bs[0] / 4), Letter(bs[0] % 4 * 16 + bs[1] / 16), Letter(bs[1] % 16 * 4 + bs[2] / 64), Letter(bs[2] % 64)]
         + Encode(bs[3..])
  }

  // The decoder skips line breaks.
  function Unbroken(s: string): string {
    if s == "" then "" else (if s[0] == '\r' || s[0] == '\n' then "" else [s[0]]) + Unbroken(s[1..])
  }

  function Quads(s: string): Option<seq<Byte>> {
    if s == "" then Some([])
    else if |s| < 4 then None
    else
      var a, b, c, d := Index(s[0]), Index(s[1]), Index(s[2]), Index(s[3]);
      if a.None? || b.None? then None
      else if s[3] == '=' then
        if |s| != 4 then None
        else if s[2] == '=' then Some([a.value * 4 + b.value / 16])
        else if c.None? then None
        else Some([a.value * 4 + b.value / 16, b.value % 16 * 16 + c.value / 4])
      else if c.None? || d.None? then None
      else
        var rest := Quads(s[4..]);
        if rest.None? then None
        else Some([a.value * 4 + b.value / 16, b.value % 16 * 16 + c.value / 4, c.value % 4 * 64 + d.value] + rest.value)
  }

  function Decode(s: string): Option<seq<Byte>> {
    Quads(Unbroken(s))
  }

  lemma LetterIndex(i: Sextet)
    ensures Index(Letter(i)) == Some(i)
    ensures Letter(i) != '=' && Letter(i) != ':' && Letter(i) != '\r' && Letter(i) != '\n'
  {
  }

  lemma Plain(bs: seq<Byte>)
    ensures forall c :: c in Encode(bs) ==> c != ':' && c != '\r' && c != '\n'
    ensures Encode(bs) == "" <==> bs == []
  {
    forall i: Sextet { LetterIndex(i); }
    hide Letter;
  }

  lemma {:induction false} UnbrokenSame(s: string)
    requires '\r' !in s && '\n' !in s
    ensures Unbroken(s) == s
  {
    if s != "" {
      UnbrokenSame(s[1..]);
      assert s == [s[0]] + s[1..];
    }
  }

  // Four letters of a full group give its three bytes back.
  lemma GroupBack(x: Byte, y: Byte, z: Byte)
    ensures x / 4 * 4 + (x % 4 * 16 + y / 16) / 16 == x
    ensures (x % 4 * 16 + y / 16) % 16 * 16 + (y % 16 * 4 + z / 64) / 4 == y
    ensures (y % 16 * 4 + z / 64) % 4 * 64 + z % 64 == z
  {
  }

  lemma QuadRead(a: Sextet, b: Sextet, c: Sextet, d: Sextet, tail: string, rest: seq<Byte>)
    requires Quads(tail) == Some(rest)
    ensures Quads([Letter(a), Letter(b), Letter(c), Letter(d)] + tail)
         == Some([a * 4 + b / 16, b % 16 * 16 + c / 4, c % 4 * 64 + d] + rest)
  {
    LetterIndex(a);
    LetterIndex(b);
    LetterIndex(c);
    LetterIndex(d);
    hide Letter, Index;
    var s := [Letter(a), Letter(b), Letter(c), Letter(d)] + tail;
    assert s[4..] == tail;
  }

  lemma LastRead(a: Sextet, b: Sextet, c: Sextet)
    ensures Quads([Letter(a), Letter(b), '=', '=']) == Some([a * 4 + b / 16])
    ensures Quads([Letter(a), Letter(b), Letter(c), '=']) == Some([a * 4 + b / 16, b % 16 * 16 + c / 4])
  {
    LetterIndex(a);
    LetterIndex(b);
    LetterIndex(c);
    hide Letter, Index;
  }

  lemma FirstThree<T>(s: seq<T>)
    requires |s| > 2
    ensures s == [s[0], s[1], s[2]] + s[3..]
  {
  }

  // Reading back a group written as four letters gives its three bytes.
  lemma ReadGroup(x: Byte, y: Byte, z: Byte, tail: string, rest: seq<Byte>)
    requires Quads(tail) == Some(rest)
    ensures Quads([Letter(x / 4), Letter(x % 4 * 16 + y / 16), Letter(y % 16 * 4 + z / 64), Letter(z % 64)] + tail)
         == Some([x, y, z] + rest)
  {
    GroupBack(x, y, z);
    var a: Sextet, b: Sextet, c: Sextet, d: Sextet := x / 4, x % 4 * 16 + y / 16, y % 16 * 4 + z / 64, z % 64;
    assert a * 4 + b / 16 == x && b % 16 * 16 + c / 4 == y && c % 4 * 64 + d == z;
    hide Letter, Quads;
    QuadRead(a, b, c, d, tail, rest);
  }

  lemma EncodeGroup(x: Byte, y: Byte, z: Byte, rest: seq<Byte>)
    ensures Encode([x, y, z] + rest)
         == [Letter(x / 4), Letter(x % 4 * 16 + y / 16), Letter(y % 16 * 4 + z / 64), Letter(z % 64)] + Encode(rest)
  {
    hide Letter;
    var bs := [x, y, z] + rest;
    assert bs[0] == x && bs[1] == y && bs[2] == z && bs[3..] == rest;
  }

  lemma LastOne(x: Byte)
    ensures Quads(Encode([x])) == Some([x])
  {
    GroupBack(x, 0, 0);
    hide Letter, Quads;
    LastRead(x / 4, x % 4 * 16, 0);
  }

  lemma EncodeTwo(x: Byte, y: Byte)
    ensures Encode([x, y]) == [Letter(x / 4), Letter(x % 4 * 16 + y / 16), Letter(y % 16 * 4), '=']
  {
    hide Letter;
  }

  lemma ReadTwo(x: Byte, y: Byte)
    ensures Quads([Letter(x / 4), Letter(x % 4 * 16 + y / 16), Letter(y % 16 * 4), '=']) == Some([x, y])
  {
    GroupBack(x, y, 0);
    var a: Sextet, b: Sextet, c: Sextet := x / 4, x % 4 * 16 + y / 16, y % 16 * 4;
    assert a * 4 + b / 16 == x && b % 16 * 16 + c / 4 == y;
    hide Letter, Quads;
    LastRead(a, b, c);
  }

  lemma {:induction false} QuadsUndoEncode(bs: seq<Byte>)
    ensures Quads(Encode(bs)) == Some(bs)
  {
    if |bs| == 1 {
      assert bs == [bs[0]];
      LastOne(bs[0]);
    } else if |bs| == 2 {
      assert bs == [bs[0], bs[1]];
      EncodeTwo(bs[0], bs[1]);
      ReadTwo(bs[0], bs[1]);
    } else if |bs| > 2 {
      hide Letter, Quads, Encode;
      QuadsUndoEncode(bs[3..]);
      FirstThree(bs);
      EncodeGroup(bs[0], bs[1], bs[2], bs[3..]);
      ReadGroup(bs[0], bs[1], bs[2], Encode(bs[3..]), bs[3..]);
    }
  }

  /** Decoding undoes encoding on every byte string. */
  lemma DecodeEncode(bs: seq<Byte>)
    ensures Decode(Encode(bs)) == Some(bs)
  {
    Plain(bs);
    UnbrokenSame(Encode(bs));
    QuadsUndoEncode(bs);
  }

  /** Test vectors of section 10 of RFC 4648, and the last two letters of the alphabet. */
  lemma Vectors()
    ensures Encode([102]) == "Zg==" && Encode([102, 111]) == "Zm8=" && Encode([102, 111, 111]) == "Zm9v"
    ensures Letter(62) == '+' && Letter(63) == '/'
  {
    var foo: seq<Byte> := [102, 111, 111];
    assert foo[3..] == [];
  }
}
