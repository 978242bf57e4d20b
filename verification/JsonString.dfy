/** The JSON string syntax: how main/json.c escapes, and how section 7 of RFC 8259 reads back. */
module JsonString {
  import opened CText
  import opened Wrappers

  const BACKSPACE: octet := 8 as char
  const FORM_FEED: octet := 12 as char

  // ----- writing

  /** One digit of printf's `%x`. */
  function HexDigit(d: int): octet
    requires 0 <= d < 16
  {
    if d < 10 then ('0' as int + d) as char else ('a' as int + d - 10) as char
  }

  predicate IsPlain(c: octet) {
    c > (31 as char) && c != '\"' && c != '\\'
  }

  /** What follows the backslash when an octet has to be escaped. */
  function EscapeTail(c: octet): (r: seq<octet>)
    requires !IsPlain(c)
    ensures |r| == 1 || |r| == 5
  {
    match c
    case '\\' => ['\\']
    case '\"' => ['\"']
    case '\n' => ['n']
    case '\r' => ['r']
    case '\t' => ['t']
    case _ =>
      if c == BACKSPACE then ['b']
      else if c == FORM_FEED then ['f']
      else ['u', '0', '0', HexDigit(c as int / 16), HexDigit(c as int % 16)]
  }

  function EscapeOctet(c: octet): (r: seq<octet>) {
    if IsPlain(c) then [c] else ['\\'] + EscapeTail(c)
  }

  function Escape(s: seq<octet>): seq<octet> {
    if s == [] then [] else EscapeOctet(s[0]) + Escape(s[1..])
  }

  function Quoted(s: seq<octet>): seq<octet> {
    ['\"'] + Escape(s) + ['\"']
  }

  lemma {:induction false} EscapeAppend(s: seq<octet>, c: octet)
    ensures Escape(s + [c]) == Escape(s) + EscapeOctet(c)
  {
    hide EscapeOctet;
    var e := EscapeOctet(c);
    if s == [] {
      assert s + [c] == [c];
      assert Escape([c]) == e + Escape([]) == e;
    } else {
      EscapeAppend(s[1..], c);
      assert (s + [c])[1..] == s[1..] + [c];
      assert Escape(s + [c]) == EscapeOctet(s[0]) + (Escape(s[1..]) + e);
    }
  }

  lemma {:induction false} EscapePrefix(s: seq<octet>, i: nat)
    requires i <= |s|
    ensures |Escape(s[..i])| <= |Escape(s)|
    decreases |s| - i
  {
    if i < |s| {
      EscapeAppend(s[..i], s[i]);
      assert s[..i + 1] == s[..i] + [s[i]];
      EscapePrefix(s, i + 1);
    } else {
      assert s[..i] == s;
    }
  }

  /** The same fact along the prefixes of one text; no prefix prints longer than the whole. */
  lemma EscapeStep(s: seq<octet>, i: nat)
    requires i < |s|
    ensures Escape(s[..i + 1]) == Escape(s[..i]) + EscapeOctet(s[i])
    ensures |Escape(s[..i + 1])| <= |Escape(s)|
  {
    EscapeAppend(s[..i], s[i]);
    assert s[..i + 1] == s[..i] + [s[i]];
    EscapePrefix(s, i + 1);
  }

  // ----- reading (RFC 8259, section 7)

  function HexValue(c: octet): (v: int)
    ensures -1 <= v < 16
  {
    if '0' <= c <= '9' then c as int - '0' as int
    else if 'a' <= c <= 'f' then c as int - 'a' as int + 10
    else if 'A' <= c <= 'F' then c as int - 'A' as int + 10
    else -1
  }

  /** UTF-8 of a code point of the basic plane. */
  function Utf8(cp: int): seq<octet>
    requires 0 <= cp < 0x10000
  {
    if cp < 0x80 then [cp as char]
    else if cp < 0x800 then [(0xC0 + cp / 0x40) as char, (0x80 + cp % 0x40) as char]
    else [(0xE0 + cp / 0x1000) as char, (0x80 + cp / 0x40 % 0x40) as char, (0x80 + cp % 0x40) as char]
  }

  /** What was read, and what is left to read. */
  datatype Read<+T> = Read(got: T, rest: seq<octet>)

  /** Four hexadecimal digits; surrogates are refused. */
  function ReadCodepoint(s: seq<octet>): Option<Read<seq<octet>>> {
    if |s| < 4 || HexValue(s[0]) < 0 || HexValue(s[1]) < 0 || HexValue(s[2]) < 0 || HexValue(s[3]) < 0 then None
    else
      var cp := HexValue(s[0]) * 0x1000 + HexValue(s[1]) * 0x100 + HexValue(s[2]) * 0x10 + HexValue(s[3]);
      if 0xD800 <= cp < 0xE000 then None else Some(Read(Utf8(cp), s[4..]))
  }

  /** The part of an escape sequence after the backslash. */
  function ReadEscape(s: seq<octet>): Option<Read<seq<octet>>> {
    if s == [] then None
    else if s[0] == 'u' then ReadCodepoint(s[1..])
    else
      match s[0]
      case '\"' => Some(Read(['\"'], s[1..]))
      case '\\' => Some(Read(['\\'], s[1..]))
      case '/' => Some(Read(['/'], s[1..]))
      case 'b' => Some(Read([BACKSPACE], s[1..]))
      case 'f' => Some(Read([FORM_FEED], s[1..]))
      case 'n' => Some(Read(['\n'], s[1..]))
      case 'r' => Some(Read(['\r'], s[1..]))
      case 't' => Some(Read(['\t'], s[1..]))
      case _ => None
  }

  function Prepend(text: seq<octet>, r: Option<Read<seq<octet>>>): Option<Read<seq<octet>>> {
    match r
    case None => None
    case Some(tail) => Some(Read(text + tail.got, tail.rest))
  }

  /** The characters after an opening quote, up to and including the closing one. */
  function ReadChars(s: seq<octet>): (r: Option<Read<seq<octet>>>)
    ensures r.Some? ==> |r.value.rest| < |s|
    decreases |s|
  {
    if s == [] || s[0] < ' ' then None
    else if s[0] == '\"' then Some(Read([], s[1..]))
    else if s[0] == '\\' then
      match ReadEscape(s[1..])
      case None => None
      case Some(head) => Prepend(head.got, ReadChars(head.rest))
    else Prepend([s[0]], ReadChars(s[1..]))
  }

  function ReadString(s: seq<octet>): (r: Option<Read<seq<octet>>>)
    ensures r.Some? ==> |r.value.rest| < |s|
  {
    if s == [] || s[0] != '\"' then None else ReadChars(s[1..])
  }

  // ----- the two are inverse

  lemma {:induction false} HexRoundTrip(c: octet, more: seq<octet>)
    requires c < ' '
    ensures ReadCodepoint(['0', '0', HexDigit(c as int / 16), HexDigit(c as int % 16)] + more) == Some(Read([c], more))
  {
    var s := ['0', '0', HexDigit(c as int / 16), HexDigit(c as int % 16)] + more;
    assert s[4..] == more;
    assert HexValue(s[2]) == c as int / 16 && HexValue(s[3]) == c as int % 16;
  }

  lemma {:induction false} ReadBackOctet(c: octet, more: seq<octet>)
    ensures ReadChars(EscapeOctet(c) + more) == Prepend([c], ReadChars(more))
  {
    var s := EscapeOctet(c) + more;
    if IsPlain(c) {
      assert s[1..] == more;
    } else {
      var tail := EscapeTail(c);
      assert s[1..] == tail + more;
      assert (tail + more)[|tail|..] == more;
      if |tail| == 5 {
        HexRoundTrip(c, more);
        assert (tail + more)[1..] == ['0', '0', HexDigit(c as int / 16), HexDigit(c as int % 16)] + more;
      }
    }
  }

  lemma {:induction false} ReadBackChars(s: seq<octet>, rest: seq<octet>)
    ensures ReadChars(Escape(s) + ['\"'] + rest) == Some(Read(s, rest))
  {
    if s == [] {
      assert Escape(s) + ['\"'] + rest == ['\"'] + rest;
    } else {
      var more := Escape(s[1..]) + ['\"'] + rest;
      assert Escape(s) + ['\"'] + rest == EscapeOctet(s[0]) + more;
      ReadBackOctet(s[0], more);
      ReadBackChars(s[1..], rest);
      assert [s[0]] + s[1..] == s;
    }
  }

  /** Reading an escaped text gives the text back and stops exactly behind its closing quote, whatever follows. */
  lemma {:induction false} ReadBack(s: seq<octet>, rest: seq<octet>)
    ensures ReadString(Quoted(s) + rest) == Some(Read(s, rest))
  {
    assert (Quoted(s) + rest)[1..] == Escape(s) + ['\"'] + rest;
    ReadBackChars(s, rest);
  }

  /** Different texts never print alike, even when more output follows them. */
  lemma EscapeInjective(s: seq<octet>, t: seq<octet>, sRest: seq<octet>, tRest: seq<octet>)
    requires Quoted(s) + sRest == Quoted(t) + tRest
    ensures s == t && sRest == tRest
  {
    ReadBack(s, sRest);
    ReadBack(t, tRest);
  }

  /** No control octet survives escaping, so in particular no NUL does; the text grows at most sixfold. */
  lemma {:induction false} EscapeIsPrintable(s: seq<octet>)
    ensures forall i :: 0 <= i < |Escape(s)| ==> Escape(s)[i] >= ' '
    ensures |s| <= |Escape(s)| <= 6 * |s|
  {
    if s == [] {
    } else {
      EscapeIsPrintable(s[1..]);
      assert forall i :: 0 <= i < |EscapeOctet(s[0])| ==> EscapeOctet(s[0])[i] >= ' ';
    }
  }

  // ----- no shorter text would do

  lemma {:induction false} EscapeConcat(s: seq<octet>, t: seq<octet>)
    ensures |Escape(s + t)| == |Escape(s)| + |Escape(t)|
  {
    if s == [] {
      assert s + t == t;
    } else {
      assert (s + t)[1..] == s[1..] + t;
      EscapeConcat(s[1..], t);
    }
  }

  lemma EscapeOne(c: octet)
    ensures |Escape([c])| == |EscapeOctet(c)| <= if IsPlain(c) then 1 else 6
  {
    assert [c][1..] == [];
  }

  /** Six characters are at least what the octets of a code point print as. */
  lemma CodepointCost(cp: int)
    requires 0 <= cp < 0x10000
    ensures |Escape(Utf8(cp))| <= 6
  {
    var u := Utf8(cp);
    EscapeOne(u[0]);
    if |u| == 2 {
      EscapeConcat([u[0]], [u[1]]);
      EscapeOne(u[1]);
      assert u == [u[0]] + [u[1]];
    } else if |u| == 3 {
      EscapeConcat([u[0], u[1]], [u[2]]);
      EscapeConcat([u[0]], [u[1]]);
      EscapeOne(u[1]);
      EscapeOne(u[2]);
      assert u == [u[0], u[1]] + [u[2]] && [u[0], u[1]] == [u[0]] + [u[1]];
    }
  }

  lemma ReadEscapeCost(s: seq<octet>)
    requires ReadEscape(s).Some?
    ensures var head := ReadEscape(s).value; |Escape(head.got)| + |head.rest| <= |s| + 1
  {
    var head := ReadEscape(s).value;
    if s[0] == 'u' {
      var t := s[1..];
      CodepointCost(HexValue(t[0]) * 0x1000 + HexValue(t[1]) * 0x100 + HexValue(t[2]) * 0x10 + HexValue(t[3]));
    } else {
      EscapeOne(head.got[0]);
    }
  }

  lemma {:induction false} ReadCharsCost(w: seq<octet>)
    requires ReadChars(w).Some?
    ensures var r := ReadChars(w).value; |Escape(r.got)| + 1 + |r.rest| <= |w|
    decreases |w|
  {
    if w[0] == '\"' {
    } else if w[0] == '\\' {
      ReadEscapeCost(w[1..]);
      var head := ReadEscape(w[1..]).value;
      ReadCharsCost(head.rest);
      EscapeConcat(head.got, ReadChars(head.rest).value.got);
    } else {
      ReadCharsCost(w[1..]);
      EscapeOne(w[0]);
      EscapeConcat([w[0]], ReadChars(w[1..]).value.got);
    }
  }

  /** Whatever else a reader would take for the same text, with the same behind it, is no shorter. */
  lemma QuotedIsShortest(s: seq<octet>, w: seq<octet>, rest: seq<octet>)
    requires ReadString(w) == Some(Read(s, rest))
    ensures |Quoted(s) + rest| <= |w|
  {
    ReadCharsCost(w[1..]);
  }
}
