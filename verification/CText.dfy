/** C character buffers: octets, NUL-terminated strings and the libc calls on them. */
module CText {

  /** One `unsigned char`. Nothing here depends on its width, so every Dafny character may stand for one. */
  type octet = char

  /** The string a C pointer to the start of this buffer denotes: everything before the first NUL. */
  function CString(s: seq<octet>): (r: seq<octet>)
    ensures |r| <= |s| && r == s[..|r|]
    ensures '\0' !in r
    ensures |r| < |s| ==> s[|r|] == '\0'
  {
    if s == [] || s[0] == '\0' then [] else [s[0]] + CString(s[1..])
  }

  /** A buffer that starts with a NUL-free text and its terminator denotes that text. */
  lemma {:induction false} CStringOf(text: seq<octet>, more: seq<octet>)
    requires '\0' !in text
    ensures CString(text + ['\0'] + more) == text
  {
    if text == [] {
      assert text + ['\0'] + more == ['\0'] + more;
    } else {
      CStringOf(text[1..], more);
      assert (text + ['\0'] + more)[1..] == text[1..] + ['\0'] + more;
    }
  }

  /** `strlen(p)` for a buffer holding a terminator. */
  method StrLen(p: array<octet>) returns (n: nat)
    requires '\0' in p[..]
    ensures n < p.Length && p[..n] == CString(p[..]) && p[n] == '\0'
  {
    n := 0;
    while p[n] != '\0'
      invariant n < p.Length
      invariant '\0' !in p[..n]
      decreases p.Length - n
    {
      n := n + 1;
      assert exists k :: n <= k < p.Length && p[k] == '\0';
    }
    assert p[..] == p[..n] + ['\0'] + p[n + 1..];
    CStringOf(p[..n], p[n + 1..]);
  }

  /** `now` is `was` with `text` laid over it at `at`. */
  ghost predicate Patched(now: seq<octet>, was: seq<octet>, at: nat, text: seq<octet>) {
    && |now| == |was|
    && at + |text| <= |now|
    && now[at..at + |text|] == text
    && (forall k :: 0 <= k < at || at + |text| <= k < |now| ==> now[k] == was[k])
  }

  /** `strcpy(p + at, text)`: writes the text and its terminator, touches nothing else. */
  method StrCpy(p: array<octet>, at: nat, text: seq<octet>)
    requires '\0' !in text
    requires at + |text| + 1 <= p.Length
    modifies p
    ensures Patched(p[..], old(p[..]), at, text + ['\0'])
  {
    for i := 0 to |text|
      invariant forall k :: 0 <= k < i ==> p[at + k] == text[k]
      invariant forall k :: 0 <= k < at || at + i <= k < p.Length ==> p[k] == old(p[k])
    {
      p[at + i] := text[i];
    }
    p[at + |text|] := '\0';
  }

  /** Nothing behind position `n` has changed. */
  ghost predicate SameBehind(now: seq<octet>, was: seq<octet>, n: nat) {
    |now| == |was| && forall k :: n < k < |now| ==> now[k] == was[k]
  }

  /** The buffer holds `text` as a C string. */
  ghost predicate IsString(p: seq<octet>, text: seq<octet>) {
    && '\0' !in text
    && |text| < |p|
    && p[..|text|] == text
    && p[|text|] == '\0'
  }

  lemma IsStringDenotes(p: seq<octet>, text: seq<octet>)
    requires IsString(p, text)
    ensures '\0' in p && CString(p) == text
  {
    assert p == text + ['\0'] + p[|text| + 1..];
    CStringOf(text, p[|text| + 1..]);
  }

  lemma PatchExtends(now: seq<octet>, was: seq<octet>, text: seq<octet>, more: seq<octet>)
    requires IsString(was, text) && '\0' !in more
    requires Patched(now, was, |text|, more + ['\0'])
    ensures IsString(now, text + more)
  {
    var n := |text| + |more|;
    assert now[|text|..n + 1][..|more|] == now[|text|..n];
    assert now[..n] == now[..|text|] + now[|text|..n];
    assert now[n] == now[|text|..n + 1][|more|];
  }

  /** `strcat(p, more)` */
  method StrCat(p: array<octet>, ghost text: seq<octet>, more: seq<octet>)
    requires IsString(p[..], text) && '\0' !in more
    requires |text| + |more| < p.Length
    modifies p
    ensures IsString(p[..], text + more)
    ensures SameBehind(p[..], old(p[..]), |text| + |more|)
  {
    IsStringDenotes(p[..], text);
    var n := StrLen(p);
    assert n == |text|;
    StrCpy(p, n, more);
    PatchExtends(p[..], old(p[..]), text, more);
  }

  /** What `snprintf` with this size leaves of a text. */
  function Truncate(text: seq<octet>, size: nat): (r: seq<octet>)
    requires 0 < size
    ensures |text| < size ==> r == text
  {
    if |text| < size then text else text[..size - 1]
  }
}
