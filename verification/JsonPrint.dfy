/** main/json.c: the two-pass string escaper, written into a caller's buffer. */
module JsonPrint {
  import opened CText
  import opened JsonString
  import opened Wrappers

  /** `sprintf(p, "u%04x", c)`; note the terminator, one octet behind the five that count. */
  method PrintCodepoint(output: array<octet>, at: nat, c: octet)
    requires c < ' ' && at + 6 <= output.Length
    modifies output
    ensures output[at..at + 5] == ['u', '0', '0', HexDigit(c as int / 16), HexDigit(c as int % 16)]
    ensures output[at + 5] == '\0'
    ensures forall k :: 0 <= k < at || at + 6 <= k < output.Length ==> output[k] == old(output[k])
  {
    output[at], output[at + 1], output[at + 2] := 'u', '0', '0';
    output[at + 3], output[at + 4] := HexDigit(c as int / 16), HexDigit(c as int % 16);
    output[at + 5] := '\0';
  }

  /** How many octets escaping adds to one octet, as the counting pass decides it. */
  function EscapeCost(c: octet): (n: nat)
    ensures n + 1 == |EscapeOctet(c)|
    ensures n == 0 <==> EscapeOctet(c) == [c]
  {
    if c == '\"' || c == '\\' || c == BACKSPACE || c == FORM_FEED || c == '\n' || c == '\r' || c == '\t' then 1
    else if c < ' ' then 5
    else 0
  }

  lemma CountStep(text: seq<octet>, i: nat)
    requires i < |text|
    ensures |Escape(text[..i + 1])| == |Escape(text[..i])| + 1 + EscapeCost(text[i])
    ensures EscapeCost(text[i]) == 0 && Escape(text[..i]) == text[..i] ==> Escape(text[..i + 1]) == text[..i + 1]
  {
    EscapeStep(text, i);
    assert text[..i + 1] == text[..i] + [text[i]];
  }

  /** The counting pass. */
  method CountEscapes(input: seq<octet>) returns (length: nat, extra: nat)
    requires '\0' in input
    ensures length == |CString(input)|
    ensures length + extra == |Escape(CString(input))|
    ensures extra == 0 <==> Escape(CString(input)) == CString(input)
  {
    length, extra := 0, 0;
    ghost var text := CString(input);
    while input[length] != '\0'
      invariant length <= |text| < |input|
      invariant length + extra == |Escape(text[..length])|
      invariant extra == 0 ==> Escape(text[..length]) == text[..length]
      decreases |text| - length
    {
      CountStep(text, length);
      extra := extra + EscapeCost(input[length]);
      length := length + 1;
    }
    assert text[..length] == text;
  }

  /** What follows the backslash; the octet behind it may be clobbered. */
  method WriteTail(output: array<octet>, at: nat, c: octet) returns (next: nat)
    requires !IsPlain(c) && at + |EscapeTail(c)| < output.Length
    modifies output
    ensures next == at + |EscapeTail(c)|
    ensures output[at..next] == EscapeTail(c)
    ensures forall k :: 0 <= k < at || next < k < output.Length ==> output[k] == old(output[k])
  {
    next := at;
    match c {
      case '\\' => output[next] := '\\';
      case '\"' => output[next] := '\"';
      case '\n' => output[next] := 'n';
      case '\r' => output[next] := 'r';
      case '\t' => output[next] := 't';
      case _ =>
        if c == BACKSPACE {
          output[next] := 'b';
        } else if c == FORM_FEED {
          output[next] := 'f';
        } else {
          PrintCodepoint(output, next, c);
          next := next + 4;
        }
    }
    next := next + 1;
  }

  /** One turn of the writing pass: the escape of `c` goes to `at`, the next free position comes back. */
  method WriteOctet(output: array<octet>, at: nat, c: octet) returns (next: nat)
    requires at + |EscapeOctet(c)| < output.Length
    modifies output
    ensures next == at + |EscapeOctet(c)|
    ensures output[at..next] == EscapeOctet(c)
    ensures forall k :: 0 <= k < at || next < k < output.Length ==> output[k] == old(output[k])
  {
    next := at;
    if c > (31 as char) && c != '\"' && c != '\\' {
      output[next] := c;
      next := next + 1;
    } else {
      output[next] := '\\';
      next := WriteTail(output, next + 1, c);
      assert output[at..next] == [output[at]] + output[at + 1..next];
    }
  }

  /** `now` is `was` with `text` at `at`, except that the octet behind the text may hold anything. */
  ghost predicate Holds(now: seq<octet>, was: seq<octet>, at: nat, text: seq<octet>) {
    && |now| == |was|
    && at + |text| < |now|
    && now[at..at + |text|] == text
    && (forall k :: 0 <= k < at || at + |text| < k < |now| ==> now[k] == was[k])
  }

  lemma HoldsMore(before: seq<octet>, now: seq<octet>, was: seq<octet>, at: nat, text: seq<octet>, more: seq<octet>)
    requires Holds(before, was, at, text)
    requires |now| == |before| && at + |text| + |more| < |now|
    requires now[at + |text|..at + |text| + |more|] == more
    requires forall k :: 0 <= k < at + |text| || at + |text| + |more| < k < |now| ==> now[k] == before[k]
    ensures Holds(now, was, at, text + more)
  {
    var here := at + |text|;
    assert now[at..here] == before[at..here];
    assert now[at..here + |more|] == now[at..here] + now[here..here + |more|];
  }

  /** One turn of the writing pass, seen from the whole text: `i` octets are escaped at `at`, one more will be. */
  method WriteNext(ghost text: seq<octet>, i: nat, c: octet, output: array<octet>, ghost was: seq<octet>,
                   ghost at: nat, here: nat)
    returns (next: nat)
    requires i < |text| && text[i] == c
    requires at + |Escape(text)| < output.Length
    requires Holds(output[..], was, at, Escape(text[..i]))
    requires here == at + |Escape(text[..i])|
    modifies output
    ensures Holds(output[..], was, at, Escape(text[..i + 1]))
    ensures next == at + |Escape(text[..i + 1])|
  {
    EscapeStep(text, i);
    ghost var before := output[..];
    next := WriteOctet(output, here, c);
    HoldsMore(before, output[..], was, at, Escape(text[..i]), EscapeOctet(c));
  }

  /** The writing pass: the escaped text goes to `at`; at most one octet behind it is clobbered. */
  method WriteEscaped(input: seq<octet>, output: array<octet>, at: nat)
    requires '\0' in input
    requires at + |Escape(CString(input))| < output.Length
    modifies output
    ensures Holds(output[..], old(output[..]), at, Escape(CString(input)))
  {
    ghost var text := CString(input);
    ghost var was := output[..];
    var next, i := at, 0;
    while input[i] != '\0'
      invariant i <= |text| < |input|
      invariant Holds(output[..], was, at, Escape(text[..i]))
      invariant next == at + |Escape(text[..i])|
      decreases |text| - i
    {
      next := WriteNext(text, i, input[i], output, was, at, next);
      i := i + 1;
    }
    assert text[..i] == text;
  }

  /** The fast path's `memcpy`. */
  method CopyPlain(input: seq<octet>, length: nat, output: array<octet>, at: nat)
    requires length <= |input| && at + length < output.Length
    modifies output
    ensures Holds(output[..], old(output[..]), at, input[..length])
  {
    for i := 0 to length
      invariant forall k :: 0 <= k < i ==> output[at + k] == input[k]
      invariant forall k :: 0 <= k < at || at + i <= k < output.Length ==> output[k] == old(output[k])
    {
      output[at + i] := input[i];
    }
  }

  /** Opening quote, escaped text, closing quote and terminator together; a stray octet behind the text is gone. */
  lemma QuotesAround(was: seq<octet>, first: seq<octet>, body: seq<octet>, now: seq<octet>, at: nat, text: seq<octet>)
    requires at + |text| + 3 <= |was|
    requires first == was[at := '\"']
    requires Holds(body, first, at + 1, text)
    requires now == body[at + |text| + 1 := '\"'][at + |text| + 2 := '\0']
    ensures Patched(now, was, at, ['\"'] + text + ['\"'] + ['\0'])
  {
    assert now[at + 1..at + 1 + |text|] == body[at + 1..at + 1 + |text|] == text;
  }

  /** What lies between the quotes, by either path. */
  method PrintBody(input: seq<octet>, output: array<octet>, at: nat) returns (end: nat)
    requires '\0' in input
    requires at + |Escape(CString(input))| < output.Length
    modifies output
    ensures Holds(output[..], old(output[..]), at, Escape(CString(input)))
    ensures end == at + |Escape(CString(input))|
  {
    var length, extra := CountEscapes(input);
    if extra == 0 {
      CopyPlain(input, length, output, at);
    } else {
      WriteEscaped(input, output, at);
    }
    end := at + length + extra;
  }

  /**
   * `json_print_string`: the quoted text goes to `at` and the rest of the buffer keeps its content.
   * A null input fails like a null output, because the branch for it tests a pointer it never set.
   */
  method JsonPrintString(input: Option<seq<octet>>, output: array?<octet>, at: nat) returns (ok: bool)
    requires input.Some? ==> '\0' in input.value
    requires input.Some? && output != null ==> at + |Quoted(CString(input.value))| + 1 <= output.Length
    modifies output
    ensures ok <==> input.Some? && output != null
    ensures !ok && output != null ==> output[..] == old(output[..])
    ensures ok ==> Patched(output[..], old(output[..]), at, Quoted(CString(input.value)) + ['\0'])
  {
    if output == null || input.None? {
      return false;
    }
    output[at] := '\"';
    ghost var first := output[..];
    var end := PrintBody(input.value, output, at + 1);
    ghost var body := output[..];
    output[end] := '\"';
    output[end + 1] := '\0';
    QuotesAround(old(output[..]), first, body, output[..], at, Escape(CString(input.value)));
    return true;
  }

  /** `json_print_string(name, p + strlen(p))` */
  method AppendQuoted(p: array<octet>, ghost text: seq<octet>, name: seq<octet>)
    requires IsString(p[..], text) && '\0' in name
    requires |text| + |Quoted(CString(name))| < p.Length
    modifies p
    ensures IsString(p[..], text + Quoted(CString(name)))
    ensures SameBehind(p[..], old(p[..]), |text| + |Quoted(CString(name))|)
  {
    IsStringDenotes(p[..], text);
    var n := StrLen(p);
    assert n == |text|;
    var ok := JsonPrintString(Some(name), p, n);
    EscapeIsPrintable(CString(name));
    PatchExtends(p[..], old(p[..]), text, Quoted(CString(name)));
  }
}
