/** The browser's `btoa` and `atob`: base64 as defined in section 4 of
    RFC 4648, on strings whose characters stand for bytes (code points up to
    0xFF). `atob` follows the forgiving decoder of the HTML standard: white
    space is skipped, one or two final `=` are dropped when the length is a
    multiple of four, and leftover bits of the last character are ignored. */
module Base64 {
  import opened Common

  /** A character that stands for a byte. */
  predicate IsByteChar(c: char) {
    c as int <= 0xFF
  }

  predicate IsByteString(s: string) {
    forall i :: 0 <= i < |s| ==> IsByteChar(s[i])
  }

  /** A six-bit value. */
  type Sextet = x: nat | x < 64

  /** The character for a six-bit value: `A`-`Z`, `a`-`z`, `0`-`9`, `+`, `/`
      (table 1 of RFC 4648). */
  function AlphabetChar(v: Sextet): (c: char)
    ensures c != '=' && c != '.'
  {
    if v < 26 then ('A' as int + v) as char
    else if v < 52 then ('a' as int + (v - 26)) as char
    else if v < 62 then ('0' as int + (v - 52)) as char
    else if v == 62 then '+'
    else '/'
  }

  /** The six-bit value of an alphabet character, `None` for any other. */
  function AlphabetValue(c: char): (r: Option<Sextet>)
    ensures r.Some? ==> AlphabetChar(r.value) == c
  {
    if 'A' <= c <= 'Z' then Some((c as int - 'A' as int) as Sextet)
    else if 'a' <= c <= 'z' then Some((c as int - 'a' as int + 26) as Sextet)
    else if '0' <= c <= '9' then Some((c as int - '0' as int + 52) as Sextet)
    else if c == '+' then Some(62)
    else if c == '/' then Some(63)
    else None
  }

  lemma AlphabetRoundTrip(v: Sextet)
    ensures AlphabetValue(AlphabetChar(v)) == Some(v)
  {
  }

  /** Three bytes make four sextets. */
  function Group(b0: nat, b1: nat, b2: nat): seq<Sextet>
    requires b0 < 256 && b1 < 256 && b2 < 256
  {
    [b0 / 4, (b0 % 4) * 16 + b1 / 16, (b1 % 16) * 4 + b2 / 64, b2 % 64]
  }

  /** The sextets of a byte string, without padding: every full group of
      three, then two sextets for one byte left, three for two. */
  function Sextets(s: string): (r: seq<Sextet>)
    requires IsByteString(s)
    ensures |r| % 4 != 1 && (|r| + |Padding(|s|)|) % 4 == 0
  {
    if |s| >= 3 then
      var rest := Sextets(s[3..]);
      GroupLength(|rest|, |s|);
      Group(s[0] as nat, s[1] as nat, s[2] as nat) + rest
    else if |s| == 2 then Group(s[0] as nat, s[1] as nat, 0)[..3]
    else if |s| == 1 then Group(s[0] as nat, 0, 0)[..2]
    else []
  }

  function Padding(n: nat): string {
    if n % 3 == 1 then "==" else if n % 3 == 2 then "=" else ""
  }

  /** Three more bytes leave the padding as it was. */
  lemma PaddingStep(n: nat)
    requires n >= 3
    ensures Padding(n) == Padding(n - 3)
  {
    assert n % 3 == (n - 3) % 3;
  }

  /** A group of four sextets in front keeps both length facts. */
  lemma GroupLength(k: nat, n: nat)
    requires n >= 3 && k % 4 != 1 && (k + |Padding(n - 3)|) % 4 == 0
    ensures (k + 4) % 4 != 1 && (k + 4 + |Padding(n)|) % 4 == 0
  {
    PaddingStep(n);
  }

  /** `btoa(s)`: `None` where the browser throws, that is when a character
      does not stand for a byte. */
  function Btoa(s: string): (r: Option<string>)
    ensures r.Some? <==> IsByteString(s)
    ensures r.Some? ==> |r.value| % 4 == 0 && '.' !in r.value
  {
    if IsByteString(s) then
      var body := Sextets(s);
      Some(seq(|body|, i requires 0 <= i < |body| => AlphabetChar(body[i])) + Padding(|s|))
    else None
  }

  /** ASCII white space, as the decoder skips it. */
  predicate IsAsciiWhitespace(c: char) {
    c == '\t' || c == '\n' || c == '\U{000C}' || c == '\r' || c == ' '
  }

  function StripWhitespace(s: string): (r: string)
    ensures |r| <= |s|
    ensures forall i :: 0 <= i < |r| ==> !IsAsciiWhitespace(r[i])
  {
    if s == [] then []
    else if IsAsciiWhitespace(s[0]) then StripWhitespace(s[1..])
    else [s[0]] + StripWhitespace(s[1..])
  }

  /** Step two of the decoder: when the length is a multiple of four, one or
      two final `=` are removed. */
  function DropPadding(s: string): string {
    if |s| % 4 == 0 && |s| >= 2 && s[|s| - 2..] == "==" then s[..|s| - 2]
    else if |s| % 4 == 0 && |s| >= 1 && s[|s| - 1] == '=' then s[..|s| - 1]
    else s
  }

  /** The sextets of the characters, `None` when one is outside the
      alphabet. */
  function Values(s: string): (r: Option<seq<Sextet>>)
    ensures r.Some? ==> |r.value| == |s|
    ensures r.Some? <==> forall i :: 0 <= i < |s| ==> AlphabetValue(s[i]).Some?
  {
    if s == [] then Some([])
    else
      var rest := Values(s[1..]);
      if AlphabetValue(s[0]).Some? && rest.Some? then Some([AlphabetValue(s[0]).value] + rest.value)
      else None
  }

  /** The three bytes of four sextets. */
  function Quad(c0: nat, c1: nat, c2: nat, c3: nat): string
    requires c0 < 64 && c1 < 64 && c2 < 64 && c3 < 64
  {
    [(c0 * 4 + c1 / 16) as char, ((c1 % 16) * 16 + c2 / 4) as char, ((c2 % 4) * 64 + c3) as char]
  }

  /** The bytes of a run of sextets: three per group of four, then one for
      two left over and two for three; the bits below a byte are dropped. */
  function Bytes(c: seq<Sextet>): (r: string)
    requires |c| % 4 != 1
    ensures IsByteString(r)
  {
    if |c| >= 4 then Quad(c[0], c[1], c[2], c[3]) + Bytes(c[4..])
    else if |c| == 3 then Quad(c[0], c[1], c[2], 0)[..2]
    else if |c| == 2 then Quad(c[0], c[1], 0, 0)[..1]
    else []
  }

  /** `atob(s)`: `None` where the browser throws. */
  function Atob(s: string): (r: Option<string>)
    ensures r.Some? ==> IsByteString(r.value)
    ensures r.Some? ==> |DropPadding(StripWhitespace(s))| % 4 != 1
  {
    var d := DropPadding(StripWhitespace(s));
    if |d| % 4 == 1 then None
    else
      match Values(d)
      case None => None
      case Some(c) => Some(Bytes(c))
  }

  /** One group decodes to the three bytes it was made of. */
  lemma GroupRoundTrip(b0: nat, b1: nat, b2: nat)
    requires b0 < 256 && b1 < 256 && b2 < 256
    ensures var c := Group(b0, b1, b2);
      Quad(c[0], c[1], c[2], c[3]) == [b0 as char, b1 as char, b2 as char]
  {
    var c := Group(b0, b1, b2);
    assert c[0] as int * 4 + c[1] / 16 == b0;
    assert (c[1] as int % 16) * 16 + c[2] / 4 == b1;
    assert (c[2] as int % 4) * 64 + c[3] == b2;
  }

  /** The bytes of a group followed by more sextets. */
  lemma BytesOfGroup(b0: nat, b1: nat, b2: nat, rest: seq<Sextet>)
    requires b0 < 256 && b1 < 256 && b2 < 256 && |rest| % 4 != 1
    ensures Bytes(Group(b0, b1, b2) + rest) == [b0 as char, b1 as char, b2 as char] + Bytes(rest)
  {
    var g := Group(b0, b1, b2);
    var c := g + rest;
    assert c[0] == g[0] && c[1] == g[1] && c[2] == g[2] && c[3] == g[3] && c[4..] == rest;
    GroupRoundTrip(b0, b1, b2);
  }

  /** Two last bytes decode back from the three sextets they leave. */
  lemma TwoBytesRoundTrip(b0: nat, b1: nat)
    requires b0 < 256 && b1 < 256
    ensures Bytes(Group(b0, b1, 0)[..3]) == [b0 as char, b1 as char]
  {
    var g := Group(b0, b1, 0);
    GroupRoundTrip(b0, b1, 0);
    assert Bytes(g[..3]) == Quad(g[0], g[1], g[2], 0)[..2];
    assert Quad(g[0], g[1], g[2], 0)[..2] == Quad(g[0], g[1], g[2], g[3])[..2];
  }

  /** A last byte decodes back from the two sextets it leaves. */
  lemma OneByteRoundTrip(b0: nat)
    requires b0 < 256
    ensures Bytes(Group(b0, 0, 0)[..2]) == [b0 as char]
  {
    var g := Group(b0, 0, 0);
    GroupRoundTrip(b0, 0, 0);
    assert Bytes(g[..2]) == Quad(g[0], g[1], 0, 0)[..1];
    assert Quad(g[0], g[1], 0, 0)[..1] == Quad(g[0], g[1], g[2], g[3])[..1];
  }

  /** Decoding the sextets of a byte string gives the string back. */
  lemma {:induction false} SextetsRoundTrip(s: string)
    requires IsByteString(s)
    ensures Bytes(Sextets(s)) == s
  {
    if |s| >= 3 {
      var rest := s[3..];
      assert IsByteString(rest) by {
        assert forall i :: 0 <= i < |rest| ==> rest[i] == s[i + 3];
      }
      SextetsRoundTrip(rest);
      assert Sextets(s) == Group(s[0] as nat, s[1] as nat, s[2] as nat) + Sextets(rest);
      BytesOfGroup(s[0] as nat, s[1] as nat, s[2] as nat, Sextets(rest));
      assert s == [s[0], s[1], s[2]] + rest;
    } else if |s| == 2 {
      TwoBytesRoundTrip(s[0] as nat, s[1] as nat);
      assert s == [s[0], s[1]];
    } else if |s| == 1 {
      OneByteRoundTrip(s[0] as nat);
      assert s == [s[0]];
    }
  }

  /** The alphabet characters of an encoding read back as its sextets. */
  lemma {:induction false} ValuesOfAlphabet(c: seq<Sextet>)
    ensures Values(seq(|c|, i requires 0 <= i < |c| => AlphabetChar(c[i]))) == Some(c)
  {
    var t := seq(|c|, i requires 0 <= i < |c| => AlphabetChar(c[i]));
    if c != [] {
      ValuesOfAlphabet(c[1..]);
      assert t[1..] == seq(|c[1..]|, i requires 0 <= i < |c[1..]| => AlphabetChar(c[1..][i]));
      AlphabetRoundTrip(c[0]);
      assert c == [c[0]] + c[1..];
    }
  }

  /** The decoder removes exactly the padding the encoder added. */
  lemma PaddingDropped(t: string, n: nat)
    requires (|t| + |Padding(n)|) % 4 == 0
    requires forall i :: 0 <= i < |t| ==> t[i] != '='
    ensures DropPadding(t + Padding(n)) == t
  {
    var e := t + Padding(n);
    if n % 3 == 1 {
      assert e[|e| - 2..] == "==";
      assert e[..|e| - 2] == t;
    } else if n % 3 == 2 {
      assert e[|e| - 2] == t[|t| - 1];
      assert e[..|e| - 1] == t;
    } else {
      assert e == t;
      if |t| >= 1 {
        assert e[|e| - 2..][1] == t[|t| - 1];
      }
    }
  }

  /** `atob(btoa(s)) == s` for every string `btoa` accepts. */
  lemma {:induction false} RoundTrip(s: string)
    requires IsByteString(s)
    ensures Atob(Btoa(s).value) == Some(s)
  {
    var body := Sextets(s);
    var t := seq(|body|, i requires 0 <= i < |body| => AlphabetChar(body[i]));
    var e := t + Padding(|s|);
    assert Btoa(s).value == e;
    assert forall i :: 0 <= i < |e| ==> !IsAsciiWhitespace(e[i]) by {
      forall i | 0 <= i < |e| ensures !IsAsciiWhitespace(e[i]) {
        if i < |t| { assert e[i] == AlphabetChar(body[i]); }
      }
    }
    NoWhitespace(e);
    PaddingDropped(t, |s|);
    ValuesOfAlphabet(body);
    SextetsRoundTrip(s);
  }

  /** An encoding holds no white space, so the decoder keeps all of it. */
  lemma {:induction false} NoWhitespace(e: string)
    requires forall i :: 0 <= i < |e| ==> !IsAsciiWhitespace(e[i])
    ensures StripWhitespace(e) == e
  {
    if e != [] {
      NoWhitespace(e[1..]);
      assert e == [e[0]] + e[1..];
    }
  }
}
