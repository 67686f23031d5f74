/** The URL-safe Base64 text of cursors (infrastructure/pagination.py; RFC 4648 sections 3.2 and 5). */
module Base64 {
  import opened Common

  type Byte = b: int | 0 <= b < 256
  type Sextet = v: int | 0 <= v < 64

  // ---- the alphabet ----

  function Letter(v: Sextet): char {
    if v < 26 then 'A' + v as char
    else if v < 52 then 'a' + (v - 26) as char
    else if v < 62 then '0' + (v - 52) as char
    else if v == 62 then '-' else '_'
  }

  /** The decoder only adds the two URL-safe letters to the standard alphabet, so it reads both spellings. */
  function Value(c: char): Option<Sextet> {
    if 'A' <= c <= 'Z' then Some(c as int - 'A' as int)
    else if 'a' <= c <= 'z' then Some(c as int - 'a' as int + 26)
    else if '0' <= c <= '9' then Some(c as int - '0' as int + 52)
    else if c == '-' || c == '+' then Some(62)
    else if c == '_' || c == '/' then Some(63)
    else None
  }

  lemma ValueLetter(v: Sextet)
    ensures Value(Letter(v)) == Some(v) && Letter(v) != '='
  {
  }

  // ---- encoding ----

  datatype Quad = Quad(a: Sextet, b: Sextet, c: Sextet, d: Sextet)

  /** The 24 bits of three bytes, six at a time. */
  function Cut(a: Byte, b: Byte, c: Byte): Quad {
    Quad(a / 4, a % 4 * 16 + b / 16, b % 16 * 4 + c / 64, c % 64)
  }

  function Text(q: Quad): (g: string)
    ensures |g| == 4 && Letters(g)
    ensures Value(g[0]) == Some(q.a) && Value(g[1]) == Some(q.b) && Value(g[2]) == Some(q.c) && Value(g[3]) == Some(q.d)
  {
    ValueLetter(q.a);
    ValueLetter(q.b);
    ValueLetter(q.c);
    ValueLetter(q.d);
    [Letter(q.a), Letter(q.b), Letter(q.c), Letter(q.d)]
  }

  function Encode(bs: seq<Byte>): string {
    if bs == [] then ""
    else if |bs| == 1 then Text(Cut(bs[0], 0, 0))[..2] + Pads(2)
    else if |bs| == 2 then Text(Cut(bs[0], bs[1], 0))[..3] + Pads(1)
    else Text(Cut(bs[0], bs[1], bs[2])) + Encode(bs[3..])
  }

  // ---- strict decoding: groups of four letters, padding only in the last group ----

  function Decode(s: string): Option<seq<Byte>> {
    if s == "" then Some([])
    else if |s| < 4 then None
    else
      var a, b, c, d := Value(s[0]), Value(s[1]), Value(s[2]), Value(s[3]);
      if a.None? || b.None? then None
      else if |s| == 4 && s[2] == '=' && s[3] == '=' then Some([a.value * 4 + b.value / 16])
      else if c.None? then None
      else if |s| == 4 && s[3] == '=' then Some([a.value * 4 + b.value / 16, b.value % 16 * 16 + c.value / 4])
      else if d.None? then None
      else
        var rest := Decode(s[4..]);
        if rest.None? then None
        else Some([a.value * 4 + b.value / 16, b.value % 16 * 16 + c.value / 4,
            c.value % 4 * 64 + d.value] + rest.value)
  }

  // ---- padding ----

  function Stripped(s: string): string {
    if s != "" && s[|s| - 1] == '=' then Stripped(s[..|s| - 1]) else s
  }

  function Pads(n: nat): string {
    seq(n, _ => '=')
  }

  /** Appends as many pads as the remainder of minus the length modulo four. */
  function Restored(s: string): string {
    s + Pads((-|s|) % 4)
  }

  // ---- round trips ----

  /** Four sextets carry exactly the bits of three bytes. */
  lemma Bits(a: Byte, b: Byte, c: Byte)
    ensures var q := Cut(a, b, c);
      q.a * 4 + q.b / 16 == a && q.b % 16 * 16 + q.c / 4 == b && q.c % 4 * 64 + q.d == c
  {
    var q := Cut(a, b, c);
    assert q.b / 16 == a % 4 && q.b % 16 == b / 16;
    assert q.c / 4 == b % 16 && q.c % 4 == c / 64;
  }

  lemma {:induction false} DecodeEncode(bs: seq<Byte>)
    ensures Decode(Encode(bs)) == Some(bs)
  {
    if |bs| == 1 {
      Tail(bs[0], 0);
      assert bs == [bs[0]];
    } else if |bs| == 2 {
      Tail(bs[0], bs[1]);
      assert bs == [bs[0], bs[1]];
    } else if |bs| > 2 {
      DecodeEncode(bs[3..]);
      DecodeGroup(bs[0], bs[1], bs[2], Encode(bs[3..]));
      assert bs == [bs[0], bs[1], bs[2]] + bs[3..];
    }
  }

  lemma Tail(a: Byte, b: Byte)
    ensures Decode(Text(Cut(a, 0, 0))[..2] + Pads(2)) == Some([a])
    ensures Decode(Text(Cut(a, b, 0))[..3] + Pads(1)) == Some([a, b])
  {
    Bits(a, 0, 0);
    Bits(a, b, 0);
  }

  lemma DecodeGroup(a: Byte, b: Byte, c: Byte, rest: string)
    requires Decode(rest).Some?
    ensures Decode(Text(Cut(a, b, c)) + rest) == Some([a, b, c] + Decode(rest).value)
  {
    var q, s := Cut(a, b, c), Text(Cut(a, b, c)) + rest;
    assert s[4..] == rest;
    DecodeValues(s, q);
    Bits(a, b, c);
  }

  lemma DecodeValues(s: string, q: Quad)
    requires |s| >= 4 && Value(s[0]) == Some(q.a) && Value(s[1]) == Some(q.b) && Value(s[2]) == Some(q.c)
        && Value(s[3]) == Some(q.d)
    requires Decode(s[4..]).Some?
    ensures Decode(s) == Some([q.a * 4 + q.b / 16, q.b % 16 * 16 + q.c / 4, q.c % 4 * 64 + q.d] + Decode(s[4..]).value)
  {
  }

  /** The encoding writes only URL-safe letters before its padding. */
  predicate Letters(s: string) {
    forall i :: 0 <= i < |s| ==> Value(s[i]).Some? && s[i] !in {'+', '/', '='}
  }

  function PadCount(n: nat): nat {
    if n % 3 == 0 then 0 else 3 - n % 3
  }

  predicate Shape(s: string, body: string, pads: nat) {
    s == body + Pads(pads) && Letters(body) && (|body| + pads) % 4 == 0
  }

  lemma {:induction false} EncodeShape(bs: seq<Byte>) returns (body: string)
    ensures Shape(Encode(bs), body, PadCount(|bs|))
  {
    if |bs| < 3 {
      body := EncodeTail(bs);
    } else {
      var rest := EncodeShape(bs[3..]);
      var group := Text(Cut(bs[0], bs[1], bs[2]));
      body := group + rest;
      PadCountStep(|bs|);
      assert Shape(Encode(bs[3..]), rest, PadCount(|bs|));
      Extend(group, rest, PadCount(|bs|));
    }
  }

  lemma EncodeTail(bs: seq<Byte>) returns (body: string)
    requires |bs| < 3
    ensures Shape(Encode(bs), body, PadCount(|bs|))
  {
    body := if bs == [] then "" else if |bs| == 1 then Text(Cut(bs[0], 0, 0))[..2] else Text(Cut(bs[0], bs[1], 0))[..3];
    assert Pads(0) == "";
  }

  lemma PadCountStep(n: nat)
    requires n >= 3
    ensures PadCount(n) == PadCount(n - 3)
  {
    assert n % 3 == (n - 3) % 3;
  }

  lemma Extend(group: string, rest: string, pads: nat)
    requires |group| == 4 && Letters(group) && Letters(rest) && (|rest| + pads) % 4 == 0
    ensures Shape(group + (rest + Pads(pads)), group + rest, pads)
  {
  }

  lemma {:induction false} StripPads(s: string, n: nat)
    requires '=' !in s
    ensures Stripped(s + Pads(n)) == s
  {
    if n == 0 {
      assert s + Pads(0) == s;
    } else {
      assert (s + Pads(n))[..|s| + n - 1] == s + Pads(n - 1);
      StripPads(s, n - 1);
    }
  }

  /** Stripping the padding loses nothing: the length says how much to put back. */
  lemma RestoreStripped(bs: seq<Byte>)
    ensures Restored(Stripped(Encode(bs))) == Encode(bs) && Letters(Stripped(Encode(bs)))
  {
    var body := EncodeShape(bs);
    StripPads(body, PadCount(|bs|));
    PadsNeeded(|body|, PadCount(|bs|));
  }

  lemma PadsNeeded(n: nat, pads: nat)
    requires (n + pads) % 4 == 0 && pads < 4
    ensures (0 - n as int) % 4 == pads
  {
  }

  /** Every byte sequence comes back through the unpadded text. */
  lemma RoundTrip(bs: seq<Byte>)
    ensures Decode(Restored(Stripped(Encode(bs)))) == Some(bs)
  {
    RestoreStripped(bs);
    DecodeEncode(bs);
  }
}
