/** JSON texts (RFC 8259): a reader, a printer in the firmware's layout, and the proof that the one undoes the other. */
module JsonDocument {
  import opened CText
  import opened JsonString
  import opened Wrappers

  datatype Value =
    | Null
    | Bool(truth: bool)
    | Num(n: int)
    | Str(text: seq<octet>)
    | Arr(items: seq<Value>)
    | Obj(members: seq<Member>)

  datatype Member = Member(name: seq<octet>, value: Value)

  // ----- reading

  predicate IsSpace(c: octet) {
    c == ' ' || c == '\t' || c == '\n' || c == '\r'
  }

  predicate IsDigit(c: octet) {
    '0' <= c <= '9'
  }

  function SkipSpace(s: seq<octet>): (r: seq<octet>)
    ensures |r| <= |s|
    ensures r != [] ==> !IsSpace(r[0])
  {
    if s != [] && IsSpace(s[0]) then SkipSpace(s[1..]) else s
  }

  /** Digits as far as they go, appended in decimal to `n`. */
  function ReadDigits(s: seq<octet>, n: nat): (r: Read<nat>)
    ensures |r.rest| <= |s|
  {
    if s != [] && IsDigit(s[0]) then ReadDigits(s[1..], 10 * n + (s[0] as int - '0' as int)) else Read(n, s)
  }

  /** An integer: no superfluous leading zero, no fraction and no exponent. */
  function ReadNatural(s: seq<octet>): (r: Option<Read<nat>>)
    ensures r.Some? ==> |r.value.rest| < |s|
  {
    if s == [] || !IsDigit(s[0]) then None
    else
      var all := if s[0] == '0' then Read(0, s[1..]) else ReadDigits(s[1..], s[0] as int - '0' as int);
      if all.rest != [] && (IsDigit(all.rest[0]) || all.rest[0] in ['.', 'e', 'E']) then None else Some(all)
  }

  function ReadInteger(s: seq<octet>): (r: Option<Read<Value>>)
    ensures r.Some? ==> |r.value.rest| < |s|
  {
    var negative := s != [] && s[0] == '-';
    match ReadNatural(if negative then s[1..] else s)
    case None => None
    case Some(read) =>
      var n: int := read.got;
      Some(Read(Num(if negative then -n else n), read.rest))
  }

  function ReadLiteral(s: seq<octet>, word: seq<octet>, v: Value): (r: Option<Read<Value>>)
    requires word != []
    ensures r.Some? ==> |r.value.rest| < |s|
  {
    if word <= s then Some(Read(v, s[|word|..])) else None
  }

  /** One value, with white space before it. */
  function ReadValue(s: seq<octet>): (r: Option<Read<Value>>)
    ensures r.Some? ==> |r.value.rest| < |s|
    decreases |s|, 1
  {
    var t := SkipSpace(s);
    if t == [] then None
    else if t[0] == '{' then
      match ReadMembers(t[1..], true)
      case None => None
      case Some(Read(ms, rest)) => Some(Read(Obj(ms), rest))
    else if t[0] == '[' then
      match ReadItems(t[1..], true)
      case None => None
      case Some(Read(vs, rest)) => Some(Read(Arr(vs), rest))
    else if t[0] == '\"' then
      match ReadString(t)
      case None => None
      case Some(Read(text, rest)) => Some(Read(Str(text), rest))
    else if t[0] == 't' then ReadLiteral(t, "true", Bool(true))
    else if t[0] == 'f' then ReadLiteral(t, "false", Bool(false))
    else if t[0] == 'n' then ReadLiteral(t, "null", Null)
    else ReadInteger(t)
  }

  /** Array items up to the closing bracket; only the first place may be empty. */
  function ReadItems(s: seq<octet>, first: bool): (r: Option<Read<seq<Value>>>)
    ensures r.Some? ==> |r.value.rest| < |s|
    decreases |s|, 2
  {
    var t := SkipSpace(s);
    if first && t != [] && t[0] == ']' then Some(Read([], t[1..]))
    else
      match ReadValue(s)
      case None => None
      case Some(Read(v, rest)) =>
        var u := SkipSpace(rest);
        if u == [] then None
        else if u[0] == ']' then Some(Read([v], u[1..]))
        else if u[0] != ',' then None
        else
          match ReadItems(u[1..], false)
          case None => None
          case Some(Read(vs, end)) => Some(Read([v] + vs, end))
  }

  /** One `"name": value` pair, with white space before it. */
  function ReadMember(s: seq<octet>): (r: Option<Read<Member>>)
    ensures r.Some? ==> |r.value.rest| < |s|
    decreases |s|, 2
  {
    match ReadString(SkipSpace(s))
    case None => None
    case Some(Read(name, rest)) =>
      var u := SkipSpace(rest);
      if u == [] || u[0] != ':' then None
      else
        match ReadValue(u[1..])
        case None => None
        case Some(Read(v, end)) => Some(Read(Member(name, v), end))
  }

  function ReadMembers(s: seq<octet>, first: bool): (r: Option<Read<seq<Member>>>)
    ensures r.Some? ==> |r.value.rest| < |s|
    decreases |s|, 3
  {
    var t := SkipSpace(s);
    if first && t != [] && t[0] == '}' then Some(Read([], t[1..]))
    else
      match ReadMember(s)
      case None => None
      case Some(Read(m, rest)) =>
        var u := SkipSpace(rest);
        if u == [] then None
        else if u[0] == '}' then Some(Read([m], u[1..]))
        else if u[0] != ',' then None
        else
          match ReadMembers(u[1..], false)
          case None => None
          case Some(Read(ms, end)) => Some(Read([m] + ms, end))
  }

  /** A whole JSON text: one value and nothing but white space around it. */
  function ReadDocument(s: seq<octet>): Option<Value> {
    match ReadValue(s)
    case None => None
    case Some(Read(v, rest)) => if SkipSpace(rest) == [] then Some(v) else None
  }

  // ----- printing, in the firmware's layout: a newline after every comma of an array

  function Digits(n: nat): seq<octet> {
    if n < 10 then [HexDigit(n)] else Digits(n / 10) + [HexDigit(n % 10)]
  }

  /** printf's `%d`. */
  function Decimal(n: int): seq<octet> {
    if n < 0 then ['-'] + Digits(-n) else Digits(n)
  }

  function Abs(n: int): nat {
    if n < 0 then -n else n
  }

  function Pow10(k: nat): nat {
    if k == 0 then 1 else 10 * Pow10(k - 1)
  }

  lemma {:induction false} DigitsShort(n: nat, k: nat)
    requires 0 < k && n < Pow10(k)
    ensures |Digits(n)| <= k
    ensures '\0' !in Digits(n)
  {
    if n < 10 {
    } else {
      assert k > 1 by { assert Pow10(1) == 10 * Pow10(0); }
      DigitsShort(n / 10, k - 1);
    }
  }

  lemma {:induction false} DigitsNoNul(n: nat)
    ensures '\0' !in Digits(n)
  {
    if n < 10 {
    } else {
      DigitsNoNul(n / 10);
    }
  }

  lemma PowersOfTen()
    ensures Pow10(1) == 10 && Pow10(2) == 100 && Pow10(3) == 1000
    ensures Pow10(10) == 10_000_000_000
  {
    assert Pow10(2) == 100 && Pow10(4) == 10_000;
    assert Pow10(6) == 1_000_000;
    assert Pow10(8) == 100_000_000;
  }

  /** How long `%d` gets, and that it prints no terminator. */
  lemma DecimalShort(n: int)
    ensures '\0' !in Decimal(n)
    ensures 0 <= n < 10 ==> |Decimal(n)| == 1
    ensures 0 <= n < 100 ==> |Decimal(n)| <= 2
    ensures -1000 < n < 1000 ==> |Decimal(n)| <= if n < 0 then 4 else 3
    ensures -0x8000_0000 <= n < 0x8000_0000 ==> |Decimal(n)| <= 11
  {
    DigitsNoNul(Abs(n));
    PowersOfTen();
    if Abs(n) < 10 { DigitsShort(Abs(n), 1); }
    if Abs(n) < 100 { DigitsShort(Abs(n), 2); }
    if Abs(n) < 1000 { DigitsShort(Abs(n), 3); }
    if Abs(n) < Pow10(10) { DigitsShort(Abs(n), 10); }
  }

  function Print(v: Value): seq<octet>
    decreases v, 1
  {
    match v
    case Null => "null"
    case Bool(b) => if b then "true" else "false"
    case Num(n) => Decimal(n)
    case Str(text) => Quoted(text)
    case Arr(vs) => ['['] + PrintItems(vs) + [']']
    case Obj(ms) => ['{'] + PrintMembers(ms) + ['}']
  }

  function PrintItems(vs: seq<Value>): seq<octet>
    decreases vs, 0
  {
    if vs == [] then []
    else if |vs| == 1 then Print(vs[0])
    else Print(vs[0]) + ",\n" + PrintItems(vs[1..])
  }

  function PrintMember(m: Member): seq<octet>
    decreases m, 2
  {
    Quoted(m.name) + [':'] + Print(m.value)
  }

  function PrintMembers(ms: seq<Member>): seq<octet>
    decreases ms, 0
  {
    if ms == [] then []
    else if |ms| == 1 then PrintMember(ms[0])
    else PrintMember(ms[0]) + [','] + PrintMembers(ms[1..])
  }

  // ----- reading undoes printing

  /** What may follow a value: nothing that would prolong a number. */
  predicate Ends(rest: seq<octet>) {
    rest == [] || IsSpace(rest[0]) || rest[0] == ',' || rest[0] == ']' || rest[0] == '}'
  }

  lemma {:induction false} DigitsBack(n: nat, rest: seq<octet>)
    ensures Digits(n) != [] && IsDigit(Digits(n)[0])
    ensures Digits(n)[0] == '0' ==> n == 0
    ensures ReadDigits(Digits(n) + rest, 0) == ReadDigits(rest, n)
  {
    if n < 10 {
      assert ([HexDigit(n)] + rest)[1..] == rest;
    } else {
      var tail := [HexDigit(n % 10)] + rest;
      DigitsBack(n / 10, tail);
      assert Digits(n) + rest == Digits(n / 10) + tail;
      assert tail[1..] == rest;
    }
  }

  lemma {:induction false} NaturalBack(n: nat, rest: seq<octet>)
    requires Ends(rest)
    ensures ReadNatural(Digits(n) + rest) == Some(Read(n, rest))
  {
    DigitsBack(n, rest);
    var s := Digits(n) + rest;
    assert ReadDigits(s, 0) == ReadDigits(s[1..], s[0] as int - '0' as int);
    assert ReadDigits(rest, n) == Read(n, rest);
    if n == 0 {
      assert s[1..] == rest;
    }
  }

  lemma {:induction false} DecimalBack(n: int, rest: seq<octet>)
    requires Ends(rest)
    ensures Decimal(n) != [] && (Decimal(n)[0] == '-' || IsDigit(Decimal(n)[0]))
    ensures ReadInteger(Decimal(n) + rest) == Some(Read(Num(n), rest))
  {
    var s := Decimal(n) + rest;
    DigitsBack(if n < 0 then -n else n, rest);
    if n < 0 {
      NaturalBack(-n, rest);
      assert s[1..] == Digits(-n) + rest;
    } else {
      NaturalBack(n, rest);
    }
  }

  lemma IntegerBack(n: int, rest: seq<octet>)
    requires Ends(rest)
    ensures ReadValue(Decimal(n) + rest) == Some(Read(Num(n), rest))
  {
    DecimalBack(n, rest);
    var s := Decimal(n) + rest;
    var c := s[0];
    assert c == '-' || IsDigit(c);
    assert SkipSpace(s) == s;
  }

  lemma {:induction false} PrintStarts(v: Value)
    ensures Print(v) != [] && !IsSpace(Print(v)[0]) && Print(v)[0] !in [']', '}', ',']
  {
    if v.Num? {
      DigitsBack(if v.n < 0 then -v.n else v.n, []);
    }
  }

  lemma SpaceBefore(c: octet, s: seq<octet>, first: bool)
    requires IsSpace(c)
    ensures ReadItems([c] + s, first) == ReadItems(s, first)
  {
    assert ([c] + s)[1..] == s;
    assert SkipSpace([c] + s) == SkipSpace(s);
    assert ReadValue([c] + s) == ReadValue(s);
  }

  lemma LiteralBack(v: Value, rest: seq<octet>)
    requires v.Null? || v.Bool?
    ensures ReadValue(Print(v) + rest) == Some(Read(v, rest))
  {
    var s := Print(v) + rest;
    assert s[|Print(v)|..] == rest;
    assert Print(v) <= s;
  }

  lemma StringBack(text: seq<octet>, rest: seq<octet>)
    ensures ReadValue(Quoted(text) + rest) == Some(Read(Str(text), rest))
  {
    var s := Quoted(text) + rest;
    ReadBack(text, rest);
    assert s[0] == '\"';
    assert SkipSpace(s) == s;
  }

  lemma ArrayBack(vs: seq<Value>, rest: seq<octet>)
    requires vs != [] ==> ReadItems(PrintItems(vs) + [']'] + rest, true) == Some(Read(vs, rest))
    ensures ReadValue(Print(Arr(vs)) + rest) == Some(Read(Arr(vs), rest))
  {
    var s := Print(Arr(vs)) + rest;
    var t := PrintItems(vs) + [']'] + rest;
    assert s[0] == '[' && s[1..] == t;
    if vs == [] {
      assert t[0] == ']' && t[1..] == rest;
      assert SkipSpace(t) == t;
    }
  }

  lemma ObjectBack(ms: seq<Member>, rest: seq<octet>)
    requires ms != [] ==> ReadMembers(PrintMembers(ms) + ['}'] + rest, true) == Some(Read(ms, rest))
    ensures ReadValue(Print(Obj(ms)) + rest) == Some(Read(Obj(ms), rest))
  {
    var s := Print(Obj(ms)) + rest;
    var t := PrintMembers(ms) + ['}'] + rest;
    assert s[0] == '{' && s[1..] == t;
    if ms == [] {
      assert t[0] == '}' && t[1..] == rest;
      assert SkipSpace(t) == t;
    }
  }

  /** Every value printed is read back as itself, and the reader stops exactly behind it. */
  lemma {:induction false} ValueBack(v: Value, rest: seq<octet>)
    requires Ends(rest)
    ensures ReadValue(Print(v) + rest) == Some(Read(v, rest))
    decreases v, 1
  {
    match v
    case Null => LiteralBack(v, rest);
    case Bool(b) => LiteralBack(v, rest);
    case Num(n) => IntegerBack(n, rest);
    case Str(text) => StringBack(text, rest);
    case Arr(vs) =>
      if vs != [] { ItemsBack(vs, rest, true); }
      ArrayBack(vs, rest);
    case Obj(ms) =>
      if ms != [] { MembersBack(ms, rest, true); }
      ObjectBack(ms, rest);
  }

  lemma LastItem(s: seq<octet>, v: Value, rest: seq<octet>, first: bool)
    requires s != [] && !IsSpace(s[0]) && s[0] != ']'
    requires ReadValue(s) == Some(Read(v, [']'] + rest))
    ensures ReadItems(s, first) == Some(Read([v], rest))
  {
    assert ([']'] + rest)[1..] == rest;
  }

  lemma NextItem(s: seq<octet>, v: Value, more: seq<octet>, vs: seq<Value>, rest: seq<octet>, first: bool)
    requires s != [] && !IsSpace(s[0]) && s[0] != ']'
    requires ReadValue(s) == Some(Read(v, [','] + (['\n'] + more)))
    requires ReadItems(more, false) == Some(Read(vs, rest))
    ensures ReadItems(s, first) == Some(Read([v] + vs, rest))
  {
    SpaceBefore('\n', more, false);
    assert ([','] + (['\n'] + more))[1..] == ['\n'] + more;
  }

  lemma RejoinItems(one: seq<octet>, more: seq<octet>, end: seq<octet>, rest: seq<octet>)
    ensures one + ",\n" + more + end + rest == one + ([','] + (['\n'] + (more + end + rest)))
    ensures one + end + rest == one + (end + rest)
  {
    assert ",\n" == [','] + ['\n'];
  }

  lemma {:induction false} ItemsBack(vs: seq<Value>, rest: seq<octet>, first: bool)
    requires vs != []
    ensures ReadItems(PrintItems(vs) + [']'] + rest, first) == Some(Read(vs, rest))
    decreases vs, 0
  {
    hide ReadItems;
    hide ReadValue;
    var s := PrintItems(vs) + [']'] + rest;
    PrintStarts(vs[0]);
    RejoinItems(Print(vs[0]), PrintItems(vs[1..]), [']'], rest);
    if |vs| == 1 {
      assert s == Print(vs[0]) + ([']'] + rest);
      ValueBack(vs[0], [']'] + rest);
      LastItem(s, vs[0], rest, first);
      assert vs == [vs[0]];
    } else {
      var more := PrintItems(vs[1..]) + [']'] + rest;
      assert s == Print(vs[0]) + ([','] + (['\n'] + more));
      ValueBack(vs[0], [','] + (['\n'] + more));
      ItemsBack(vs[1..], rest, false);
      NextItem(s, vs[0], more, vs[1..], rest, first);
      assert vs == [vs[0]] + vs[1..];
    }
  }

  lemma {:induction false} MemberBack(m: Member, rest: seq<octet>)
    requires Ends(rest)
    ensures ReadMember(PrintMember(m) + rest) == Some(Read(m, rest))
    ensures PrintMember(m)[0] == '\"'
    decreases m, 2
  {
    var s := PrintMember(m) + rest;
    var colon := [':'] + (Print(m.value) + rest);
    assert s == Quoted(m.name) + colon;
    assert SkipSpace(s) == s && SkipSpace(colon) == colon;
    ReadBack(m.name, colon);
    ValueBack(m.value, rest);
    assert colon[1..] == Print(m.value) + rest;
  }

  lemma LastMember(s: seq<octet>, m: Member, rest: seq<octet>, first: bool)
    requires s != [] && s[0] == '\"'
    requires ReadMember(s) == Some(Read(m, ['}'] + rest))
    ensures ReadMembers(s, first) == Some(Read([m], rest))
  {
    assert (['}'] + rest)[1..] == rest;
  }

  lemma NextMember(s: seq<octet>, m: Member, more: seq<octet>, ms: seq<Member>, rest: seq<octet>, first: bool)
    requires s != [] && s[0] == '\"'
    requires ReadMember(s) == Some(Read(m, [','] + more))
    requires ReadMembers(more, false) == Some(Read(ms, rest))
    ensures ReadMembers(s, first) == Some(Read([m] + ms, rest))
  {
    assert ([','] + more)[1..] == more;
  }

  lemma Rejoin(one: seq<octet>, more: seq<octet>, end: seq<octet>, rest: seq<octet>)
    ensures one + [','] + more + end + rest == one + ([','] + (more + end + rest))
    ensures one + end + rest == one + (end + rest)
  {
  }

  lemma {:induction false} MembersBack(ms: seq<Member>, rest: seq<octet>, first: bool)
    requires ms != []
    ensures ReadMembers(PrintMembers(ms) + ['}'] + rest, first) == Some(Read(ms, rest))
    decreases ms, 0
  {
    hide ReadMembers;
    hide ReadMember;
    var s := PrintMembers(ms) + ['}'] + rest;
    Rejoin(PrintMember(ms[0]), PrintMembers(ms[1..]), ['}'], rest);
    if |ms| == 1 {
      assert s == PrintMember(ms[0]) + (['}'] + rest);
      MemberBack(ms[0], ['}'] + rest);
      LastMember(s, ms[0], rest, first);
      assert ms == [ms[0]];
    } else {
      var more := PrintMembers(ms[1..]) + ['}'] + rest;
      assert s == PrintMember(ms[0]) + ([','] + more);
      MemberBack(ms[0], [','] + more);
      MembersBack(ms[1..], rest, false);
      NextMember(s, ms[0], more, ms[1..], rest, first);
      assert ms == [ms[0]] + ms[1..];
    }
  }

  /** Hence a printed value, with a final newline or without, is a JSON text that denotes it. */
  lemma DocumentBack(v: Value)
    ensures ReadDocument(Print(v)) == Some(v)
    ensures ReadDocument(Print(v) + ['\n']) == Some(v)
  {
    ValueBack(v, []);
    assert Print(v) + [] == Print(v);
    ValueBack(v, ['\n']);
    assert SkipSpace(['\n']) == [];
  }

  // ----- printing piece by piece

  lemma {:induction false} PlainText(s: seq<octet>)
    requires forall i :: 0 <= i < |s| ==> IsPlain(s[i])
    ensures Escape(s) == s
  {
    if s == [] {
    } else {
      PlainText(s[1..]);
    }
  }

  lemma PrintMembersCons(m: Member, ms: seq<Member>)
    requires ms != []
    ensures PrintMembers([m] + ms) == PrintMember(m) + [','] + PrintMembers(ms)
  {
    assert ([m] + ms)[1..] == ms;
  }

  /** A name with nothing to escape, between quotes and before a colon. */
  function KeyOf(name: seq<octet>): seq<octet> {
    ['\"'] + name + ['\"', ':']
  }

  lemma PlainKey(name: seq<octet>, v: Value)
    requires forall i :: 0 <= i < |name| ==> IsPlain(name[i])
    ensures PrintMember(Member(name, v)) == KeyOf(name) + Print(v)
  {
    PlainText(name);
  }
}
