/** The encoder that makes registry names safe for squidGuard identifiers and file names,
    with a decoder that undoes it. */
module Quote {
  import opened Options
  import opened Text

  type Byte = n: int | 0 <= n < 256

  /** The safe characters; the digit 8 is not among them. */
  predicate Safe(c: char) {
    'a' <= c <= 'z' || 'A' <= c <= 'Z' || '0' <= c <= '7' || c == '9'
  }

  lemma SafeExactly(c: char)
    ensures Safe(c) <==> c in {
              'a', 'b', 'c', 'd', 'e', 'f', 'g', 'h', 'i', 'j', 'k', 'l', 'm', 'n', 'o', 'p', 'q', 'r', 's', 't', 'u',
              'v', 'w', 'x', 'y', 'z', '0', '1', '2', '3', '4', '5', '6', '7', '9', 'A', 'B', 'C', 'D', 'E', 'F', 'G',
              'H', 'I', 'J', 'K', 'L', 'M', 'N', 'O', 'P', 'Q', 'R', 'S', 'T', 'U', 'V', 'W', 'X', 'Y', 'Z'}
  {
  }

  /** UTF-8, section 3 of RFC 3629. */
  function Utf8(c: char): (bs: seq<Byte>)
    ensures 1 <= |bs| <= 4
  {
    var n := c as int;
    if n < 0x80 then [n]
    else if n < 0x800 then [0xC0 + n / 64, 0x80 + n % 64]
    else if n < 0x10000 then [0xE0 + n / 4096, 0x80 + n / 64 % 64, 0x80 + n % 64]
    else [0xF0 + n / 262144, 0x80 + n / 4096 % 64, 0x80 + n / 64 % 64, 0x80 + n % 64]
  }

  function HexDigit(n: int): char
    requires 0 <= n < 16
  {
    "0123456789abcdef"[n]
  }

  function Hex(bs: seq<Byte>): (s: string)
    ensures |s| == 2 * |bs|
  {
    if bs == [] then "" else [HexDigit(bs[0] / 16), HexDigit(bs[0] % 16)] + Hex(bs[1..])
  }

  function QuoteChar(c: char): string {
    if Safe(c) then [c] else "-" + Hex(Utf8(c))
  }

  function Quoted(s: string): string {
    if s == "" then "" else QuoteChar(s[0]) + Quoted(s[1..])
  }

  lemma {:induction false} QuotedAppend(a: string, b: string)
    ensures Quoted(a + b) == Quoted(a) + Quoted(b)
  {
    if a == "" {
      assert a + b == b;
    } else {
      assert (a + b)[1..] == a[1..] + b;
      QuotedAppend(a[1..], b);
    }
  }

  /** The source's loop: one output piece per character. */
  method QuoteString(s: string) returns (newstring: string)
    ensures newstring == Quoted(s)
  {
    hide Utf8, Hex, Quoted;
    newstring := "";
    assert s[..0] == "" && Quoted("") == "" by { QuotedOne('-'); }
    for i := 0 to |s|
      invariant newstring == Quoted(s[..i])
    {
      assert s[..i + 1] == s[..i] + [s[i]];
      QuotedAppend(s[..i], [s[i]]);
      QuotedOne(s[i]);
      if Safe(s[i]) {
        newstring := newstring + [s[i]];
      } else {
        newstring := newstring + ("-" + Hex(Utf8(s[i])));
      }
    }
    assert s[..|s|] == s;
  }

  // ---------- the decoder ----------

  function HexValue(c: char): Option<int> {
    if '0' <= c <= '9' then Some(c as int - '0' as int)
    else if 'a' <= c <= 'f' then Some(c as int - 'a' as int + 10)
    else None
  }

  /** Reads n bytes, two hex digits each, from the front of t. */
  function ReadHex(t: string, n: nat): (r: Option<seq<Byte>>)
    ensures r.Some? ==> |r.value| == n && 2 * n <= |t|
  {
    if n == 0 then Some([])
    else if |t| < 2 then None
    else
      match (HexValue(t[0]), HexValue(t[1]), ReadHex(t[2..], n - 1))
      case (Some(hi), Some(lo), Some(bs)) =>
        if 0 <= hi < 16 && 0 <= lo < 16 then Some([16 * hi + lo] + bs) else None
      case _ => None
  }

  /** The number of bytes the lead byte announces. */
  function SequenceLength(lead: Byte): nat {
    if lead < 0x80 then 1 else if lead < 0xE0 then 2 else if lead < 0xF0 then 3 else 4
  }

  function CodePoint(bs: seq<int>): int
    requires 1 <= |bs| <= 4
  {
    match |bs|
    case 1 => bs[0]
    case 2 => (bs[0] - 0xC0) * 64 + (bs[1] - 0x80)
    case 3 => (bs[0] - 0xE0) * 4096 + (bs[1] - 0x80) * 64 + (bs[2] - 0x80)
    case _ => (bs[0] - 0xF0) * 262144 + (bs[1] - 0x80) * 4096 + (bs[2] - 0x80) * 64 + (bs[3] - 0x80)
  }

  predicate IsScalar(n: int) {
    0 <= n < 0xD800 || 0xE000 <= n < 0x11_0000
  }

  /** Reads one escape, without its dash, from the front of t: the character and the text after it. */
  function ReadEscape(t: string): (r: Option<(char, string)>)
    ensures r.Some? ==> |r.value.1| < |t|
  {
    match ReadHex(t, 1)
    case None => None
    case Some(lead) =>
      var n := SequenceLength(lead[0]);
      match ReadHex(t, n)
      case None => None
      case Some(bs) => if IsScalar(CodePoint(bs)) then Some((CodePoint(bs) as char, t[2 * n..])) else None
  }

  function Unquoted(t: string): Option<string>
    decreases |t|
  {
    if t == "" then Some("")
    else if Safe(t[0]) then Prepend([t[0]], Unquoted(t[1..]))
    else if t[0] != '-' then None
    else
      match ReadEscape(t[1..])
      case None => None
      case Some((c, rest)) => Prepend([c], Unquoted(rest))
  }

  function Prepend(s: string, r: Option<string>): Option<string> {
    match r case None => None case Some(t) => Some(s + t)
  }

  lemma PrependPrepend(a: string, b: string, r: Option<string>)
    ensures Prepend(a, Prepend(b, r)) == Prepend(a + b, r)
    ensures a == b == "" ==> Prepend(a, r) == r
  {
    if r.Some? {
      Assoc(a, b, r.value);
      assert a == "" ==> a + r.value == r.value;
    }
  }

  lemma {:induction false} ReadHexHex(bs: seq<Byte>, rest: string)
    ensures ReadHex(Hex(bs) + rest, |bs|) == Some(bs)
    ensures (Hex(bs) + rest)[2 * |bs|..] == rest
  {
    if bs != [] {
      var t, t' := Hex(bs) + rest, Hex(bs[1..]) + rest;
      ReadHexHex(bs[1..], rest);
      HexDigitValue(bs[0] / 16);
      HexDigitValue(bs[0] % 16);
      assert t == [HexDigit(bs[0] / 16), HexDigit(bs[0] % 16)] + t' by {
        Assoc([HexDigit(bs[0] / 16), HexDigit(bs[0] % 16)], Hex(bs[1..]), rest);
      }
      assert t[2..] == t';
      ReadHexPair(t, bs[0], |bs| - 1, bs[1..]);
      assert [bs[0]] + bs[1..] == bs;
    }
  }

  lemma ReadHexPair(t: string, b: Byte, n: nat, bs: seq<Byte>)
    requires |t| >= 2 && HexValue(t[0]) == Some(b / 16) && HexValue(t[1]) == Some(b % 16)
    requires ReadHex(t[2..], n) == Some(bs)
    ensures ReadHex(t, n + 1) == Some([b] + bs)
  {
  }

  lemma HexDigitValue(n: int)
    requires 0 <= n < 16
    ensures HexValue(HexDigit(n)) == Some(n)
  {
  }

  lemma Utf8CodePoint(c: char)
    ensures SequenceLength(Utf8(c)[0]) == |Utf8(c)|
    ensures CodePoint(Utf8(c)) == c as int
  {
    var n := c as int;
    if 0x80 <= n {
      assert n == n / 64 * 64 + n % 64;
      assert n / 64 == n / 64 / 64 * 64 + n / 64 % 64;
      assert n / 64 / 64 == n / 4096;
      assert n / 4096 == n / 4096 / 64 * 64 + n / 4096 % 64;
      assert n / 4096 / 64 == n / 262144;
    }
  }

  lemma ReadEscapeChar(c: char, rest: string)
    ensures ReadEscape(Hex(Utf8(c)) + rest) == Some((c, rest))
  {
    var bs := Utf8(c);
    var t := Hex(bs) + rest;
    assert Hex(bs) == Hex([bs[0]]) + Hex(bs[1..]);
    assert t == Hex([bs[0]]) + (Hex(bs[1..]) + rest);
    ReadHexHex([bs[0]], Hex(bs[1..]) + rest);
    ReadHexHex(bs, rest);
    Utf8CodePoint(c);
  }

  lemma UnquotedStep(c: char, rest: string)
    ensures Unquoted(QuoteChar(c) + rest) == Prepend([c], Unquoted(rest))
  {
    hide Utf8, Hex, ReadEscape;
    var t := QuoteChar(c) + rest;
    if Safe(c) {
      assert t[0] == c && t[1..] == rest;
    } else {
      ReadEscapeChar(c, rest);
      assert t[0] == '-' && t[1..] == Hex(Utf8(c)) + rest;
    }
  }

  /** The decoder reads a quoted prefix back and goes on behind it. */
  lemma {:induction false} UnquotedPrefix(s: string, t: string)
    ensures Unquoted(Quoted(s) + t) == Prepend(s, Unquoted(t))
  {
    hide QuoteChar, Unquoted;
    if s == "" {
      assert Quoted(s) + t == t;
      PrependPrepend("", s, Unquoted(t));
    } else {
      hide Quoted;
      var rest := Quoted(s[1..]) + t;
      UnquotedPrefix(s[1..], t);
      QuotedUnfold(s);
      Assoc(QuoteChar(s[0]), Quoted(s[1..]), t);
      UnquotedStep(s[0], rest);
      PrependPrepend([s[0]], s[1..], Unquoted(t));
      assert [s[0]] + s[1..] == s;
    }
  }

  /** Quoting can be undone. */
  lemma RoundTrip(s: string)
    ensures Unquoted(Quoted(s)) == Some(s)
  {
    UnquotedPrefix(s, "");
    assert Quoted(s) + "" == Quoted(s);
    assert s + "" == s;
  }

  lemma Injective(a: string, b: string)
    ensures Quoted(a) == Quoted(b) <==> a == b
  {
    RoundTrip(a);
    RoundTrip(b);
  }

  /** No quoted name ends in the suffix that marks a user rule. */
  lemma NeverUserSuffix(a: string, b: string)
    ensures Quoted(a) != Quoted(b) + "-user"
  {
    RoundTrip(a);
    UnquotedPrefix(b, "-user");
    assert "-user"[1..] == "user";
    assert HexValue('u') == None;
    assert ReadHex("user", 1) == None;
    assert ReadEscape("user") == None;
    assert Unquoted("-user") == None;
  }

  /** Quoted text is made of safe characters and dashes only. */
  lemma {:induction false} QuotedAlphabet(s: string)
    ensures forall c :: c in Quoted(s) ==> Safe(c) || c == '8' || c == '-'
  {
    if s != "" {
      QuotedAlphabet(s[1..]);
      HexAlphabet(Utf8(s[0]));
    }
  }

  lemma {:induction false} HexAlphabet(bs: seq<Byte>)
    ensures forall c :: c in Hex(bs) ==> Safe(c) || c == '8'
  {
    if bs != [] {
      HexAlphabet(bs[1..]);
    }
  }

  lemma {:induction false} QuotedSafe(p: string)
    requires forall c :: c in p ==> Safe(c)
    ensures Quoted(p) == p
  {
    if p != "" {
      QuotedSafe(p[1..]);
      assert [p[0]] + p[1..] == p;
    }
  }

  /** Exactly which raw names a dash-joined prefix lets coincide: the name continues behind the prefix
      with an unsafe character whose hex digits, read as plain text, start the other name. */
  lemma PrefixCollision(h: string, p: string, r: string)
    requires p != "" && forall c :: c in p ==> Safe(c)
    ensures Quoted(h) == p + "-" + Quoted(r) <==> |p| < |h| && h[..|p|] == p && EscapeStarts(h[|p|..], r)
  {
    hide Quoted, EscapeStarts;
    var t := "-" + Quoted(r);
    assert p + "-" + Quoted(r) == p + t;
    if Quoted(h) == p + t {
      PrefixOfQuoted(h, p, t);
      EscapeCollision(h[|p|..], r);
    }
    if |p| < |h| && h[..|p|] == p && EscapeStarts(h[|p|..], r) {
      assert h == p + h[|p|..];
      QuotedAppend(p, h[|p|..]);
      QuotedSafe(p);
      EscapeCollision(h[|p|..], r);
    }
  }

  ghost predicate EscapeStarts(tail: string, r: string) {
    && tail != "" && !Safe(tail[0])
    && '8' !in Hex(Utf8(tail[0]))
    && r == Hex(Utf8(tail[0])) + tail[1..]
  }

  lemma EscapeCollision(tail: string, r: string)
    requires tail != ""
    ensures Quoted(tail) == "-" + Quoted(r) <==> EscapeStarts(tail, r)
  {
    hide Hex, Utf8, Quoted;
    var hex, q := Hex(Utf8(tail[0])), Quoted(r);
    HexAlphabet(Utf8(tail[0]));
    HexCollision(hex, tail[1..], r);
    assert Quoted(tail) == QuoteChar(tail[0]) + Quoted(tail[1..]) by {
      QuotedUnfold(tail);
    }
    if Safe(tail[0]) {
      assert Quoted(tail)[0] == tail[0];
    } else {
      assert Quoted(tail) == "-" + (hex + Quoted(tail[1..]));
      assert Quoted(tail)[1..] == hex + Quoted(tail[1..]);
      assert ("-" + q)[1..] == q;
    }
  }

  lemma QuotedOne(c: char)
    ensures Quoted("") == "" && Quoted([c]) == QuoteChar(c)
  {
    assert [c][1..] == "";
  }

  lemma QuotedUnfold(s: string)
    requires s != ""
    ensures Quoted(s) == QuoteChar(s[0]) + Quoted(s[1..])
  {
  }

  lemma HexCollision(hex: string, rest: string, r: string)
    requires forall c :: c in hex ==> Safe(c) || c == '8'
    ensures Quoted(r) == hex + Quoted(rest) <==> '8' !in hex && r == hex + rest
  {
    hide Quoted;
    if Quoted(r) == hex + Quoted(rest) {
      NoBareEight(r, hex, Quoted(rest));
    }
    if '8' !in hex {
      QuotedSafe(hex);
      QuotedAppend(hex, rest);
      Injective(r, hex + rest);
    }
  }

  /** A safe prefix of quoted text is a prefix of the raw text. */
  lemma {:induction false} PrefixOfQuoted(h: string, p: string, t: string)
    requires (forall c :: c in p ==> Safe(c)) && t != ""
    requires Quoted(h) == p + t
    ensures |p| < |h| && h[..|p|] == p && Quoted(h[|p|..]) == t
  {
    if p == "" {
      assert p + t == t && h[0..] == h;
    } else {
      hide Quoted;
      QuotedHead(h);
      assert (p + t)[0] == p[0] && Safe(p[0]);
      assert (p + t)[1..] == p[1..] + t;
      PrefixOfQuoted(h[1..], p[1..], t);
      assert h[1..][|p| - 1..] == h[|p|..];
      assert h == [h[0]] + h[1..];
      assert p == [p[0]] + p[1..];
    }
  }

  /** An 8 in quoted text always has a dash before it. */
  lemma {:induction false} NoBareEight(r: string, x: string, t: string)
    requires Quoted(r) == x + t
    requires '-' !in x
    ensures '8' !in x
  {
    hide Utf8, Hex;
    if x != "" {
      QuotedHead(r);
      assert (x + t)[0] == x[0];
      assert (x + t)[1..] == x[1..] + t;
      NoBareEight(r[1..], x[1..], t);
      assert x == [x[0]] + x[1..];
    }
  }

  /** Quoted text starts with a dash, or with the safe character the raw text starts with. */
  lemma QuotedHead(r: string)
    requires Quoted(r) != ""
    ensures r != "" && Quoted(r)[0] == (if Safe(r[0]) then r[0] else '-')
    ensures Safe(r[0]) ==> Quoted(r)[1..] == Quoted(r[1..])
  {
    hide Utf8, Hex;
  }
}
