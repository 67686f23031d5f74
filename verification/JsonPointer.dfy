/** Reference tokens and JSON pointers as the contract check resolves them (tools/check_contract.py; RFC 6901). */
module JsonPointer {
  import opened Common

  /** Replaces every non-overlapping occurrence of the two characters a, b by c, left to right. */
  function Replace(s: string, a: char, b: char, c: char): string {
    if |s| < 2 then s
    else if s[0] == a && s[1] == b then [c] + Replace(s[2..], a, b, c)
    else [s[0]] + Replace(s[1..], a, b, c)
  }

  /** The source's decoding: two replacements, one after the other. */
  function Unescape(token: string): string {
    Replace(Replace(token, '~', '1', '/'), '~', '0', '~')
  }

  /** Section 4 of RFC 6901: a tilde is always followed by 0 or 1, and the text is decoded in one pass. */
  predicate WellFormed(t: string) {
    if t == "" then true
    else if t[0] == '~' then |t| >= 2 && t[1] in {'0', '1'} && WellFormed(t[2..])
    else t[0] != '/' && WellFormed(t[1..])
  }

  function Decoded(t: string): string
    requires WellFormed(t)
  {
    if t == "" then ""
    else if t[0] == '~' then [if t[1] == '1' then '/' else '~'] + Decoded(t[2..])
    else [t[0]] + Decoded(t[1..])
  }

  function Encoded(key: string): string {
    if key == "" then ""
    else (if key[0] == '~' then "~0" else if key[0] == '/' then "~1" else [key[0]]) + Encoded(key[1..])
  }

  /** Splits at every separator; always at least one part. */
  function Split(s: string, at: char): (parts: seq<string>)
    ensures |parts| >= 1
  {
    if s == "" then [""]
    else
      var rest := Split(s[1..], at);
      if s[0] == at then [""] + rest else [[s[0]] + rest[0]] + rest[1..]
  }

  function Joined(parts: seq<string>, at: char): string
    requires |parts| >= 1
  {
    if |parts| == 1 then parts[0] else parts[0] + [at] + Joined(parts[1..], at)
  }

  // ---- the two replacements are the one-pass decoding ----

  lemma {:induction false} UnescapeIsDecoded(t: string)
    requires WellFormed(t)
    ensures Unescape(t) == Decoded(t)
  {
    if t == "" {
    } else if t[0] == '~' {
      UnescapeIsDecoded(t[2..]);
      var rest := Replace(t[2..], '~', '1', '/');
      if t[1] == '1' {
        assert Replace(t, '~', '1', '/') == "/" + rest;
        assert ("/" + rest)[1..] == rest;
      } else {
        assert t[1..][1..] == t[2..];
        assert Replace(t[1..], '~', '1', '/') == "0" + rest;
        assert Replace(t, '~', '1', '/') == "~0" + rest;
        assert ("~0" + rest)[2..] == rest;
      }
    } else {
      UnescapeIsDecoded(t[1..]);
      var rest := Replace(t[1..], '~', '1', '/');
      assert Replace(t, '~', '1', '/') == [t[0]] + rest;
      assert ([t[0]] + rest)[1..] == rest;
    }
  }

  /** Decoding is a bijection from well-formed tokens to keys, and Encoded is its inverse. */
  lemma {:induction false} DecodeEncode(key: string)
    ensures WellFormed(Encoded(key)) && Decoded(Encoded(key)) == key
  {
    if key != "" {
      DecodeEncode(key[1..]);
      var rest := Encoded(key[1..]);
      if key[0] in {'~', '/'} { assert Encoded(key)[2..] == rest; } else { assert Encoded(key)[1..] == rest; }
    }
  }

  lemma {:induction false} EncodeDecode(t: string)
    requires WellFormed(t)
    ensures Encoded(Decoded(t)) == t
  {
    if t == "" {
    } else if t[0] == '~' {
      EncodeDecode(t[2..]);
      assert Decoded(t)[1..] == Decoded(t[2..]);
      assert t == t[..2] + t[2..];
    } else {
      EncodeDecode(t[1..]);
      assert Decoded(t)[1..] == Decoded(t[1..]);
    }
  }

  // ---- splitting ----

  lemma {:induction false} SplitPlain(s: string, at: char)
    requires at !in s
    ensures Split(s, at) == [s]
  {
    if s != "" {
      SplitPlain(s[1..], at);
      assert s == [s[0]] + s[1..];
    }
  }

  lemma {:induction false} SplitFirst(s: string, at: char, rest: string)
    requires at !in s
    ensures Split(s + [at] + rest, at) == [s] + Split(rest, at)
  {
    var all := s + [at] + rest;
    if s == "" {
      assert all[1..] == rest;
    } else {
      SplitFirst(s[1..], at, rest);
      assert all[1..] == s[1..] + [at] + rest;
      assert s == [s[0]] + s[1..];
    }
  }

  lemma {:induction false} SplitJoined(parts: seq<string>, at: char)
    requires |parts| >= 1 && forall i :: 0 <= i < |parts| ==> at !in parts[i]
    ensures Split(Joined(parts, at), at) == parts
  {
    if |parts| == 1 {
      SplitPlain(parts[0], at);
    } else {
      SplitFirst(parts[0], at, Joined(parts[1..], at));
      SplitJoined(parts[1..], at);
    }
  }

  lemma {:induction false} EncodedHasNoSlash(key: string)
    ensures '/' !in Encoded(key)
  {
    if key != "" { EncodedHasNoSlash(key[1..]); }
  }
}
