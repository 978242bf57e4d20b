/** wifi_manager_filter_unique: a scan list is reduced in place to one record per network. */
module ScanList {
  import opened CText
  import opened Wrappers

  type uint8 = n: int | 0 <= n < 0x100
  type int8 = n: int | -0x80 <= n < 0x80
  type int32 = n: int | -0x8000_0000 <= n < 0x8000_0000

  /** The 33 octets the driver fills with a name and its terminator. */
  type SsidField = s: seq<octet> | |s| == 33 && s[32] == '\0' witness ZERO_SSID
  const ZERO_SSID: seq<octet> := "\0\0\0\0\0\0\0\0\0\0\0\0\0\0\0\0\0\0\0\0\0\0\0\0\0\0\0\0\0\0\0\0\0"

  /** `wifi_ap_record_t`; `rest` stands for the fields the firmware never looks at. */
  datatype ApRecord = ApRecord(ssid: SsidField, primary: uint8, rssi: int8, authmode: int32, rest: int)

  /** What `memset(ap, 0, sizeof(wifi_ap_record_t))` leaves. */
  const ZERO_RECORD := ApRecord(ZERO_SSID, 0, 0, 0, 0)

  /** A name and an authentication mode: what makes two records the same network. */
  datatype Network = Network(name: seq<octet>, authmode: int)

  function Key(r: ApRecord): Network {
    Network(CString(r.ssid), r.authmode)
  }

  predicate Named(r: ApRecord) {
    r.ssid[0] != '\0'
  }

  // ----- what the list should become

  /** The strongest signal among the records of a network, -128 if there is none. */
  function MaxRssi(s: seq<ApRecord>, net: Network): int8 {
    if s == [] then -0x80
    else
      var best, last := MaxRssi(s[..|s| - 1], net), s[|s| - 1];
      if Key(last) == net && last.rssi > best then last.rssi else best
  }

  /** Record `i` is the first of its network. */
  predicate IsFirst(s: seq<ApRecord>, i: nat)
    requires i < |s|
  {
    Named(s[i]) && forall j :: 0 <= j < i ==> Key(s[j]) != Key(s[i])
  }

  /** The slot `i` of the list once duplicates are merged. */
  function Merged(s: seq<ApRecord>, i: nat): ApRecord
    requires i < |s|
  {
    if !Named(s[i]) then s[i]
    else if IsFirst(s, i) then s[i].(rssi := MaxRssi(s, Key(s[i])))
    else ZERO_RECORD
  }

  function MergedAll(s: seq<ApRecord>): (r: seq<ApRecord>)
    ensures |r| == |s|
  {
    seq(|s|, i requires 0 <= i < |s| => Merged(s, i))
  }

  function NamedOnly(s: seq<ApRecord>): (r: seq<ApRecord>)
    ensures |r| <= |s|
    ensures forall r' :: r' in r ==> Named(r')
  {
    if s == [] then []
    else
      var last := s[|s| - 1];
      NamedOnly(s[..|s| - 1]) + if Named(last) then [last] else []
  }

  function Unique(s: seq<ApRecord>): seq<ApRecord> {
    NamedOnly(MergedAll(s))
  }

  // ----- first pass

  /** Record `k` repeats a network that one of the first `i` records already has. */
  predicate Repeats(s: seq<ApRecord>, i: nat, k: nat)
    requires k < |s|
  {
    exists m :: 0 <= m < i && m < k && Named(s[m]) && Key(s[m]) == Key(s[k])
  }

  /** Slot `k` after the first `i` records have had their repetitions cleared. */
  function Cleared(s: seq<ApRecord>, i: nat, k: nat): ApRecord
    requires k < |s|
  {
    if Repeats(s, i, k) then ZERO_RECORD else s[k]
  }

  lemma KeyNamed(r: ApRecord)
    ensures Named(r) <==> Key(r).name != []
  {
  }

  lemma {:induction false} MaxRssiAbsent(s: seq<ApRecord>, net: Network)
    requires forall r :: r in s ==> Key(r) != net
    ensures MaxRssi(s, net) == -0x80
  {
    if s == [] {
    } else {
      MaxRssiAbsent(s[..|s| - 1], net);
    }
  }

  lemma MaxRssiStart(s: seq<ApRecord>, i: nat)
    requires i < |s| && IsFirst(s, i)
    ensures MaxRssi(s[..i + 1], Key(s[i])) == s[i].rssi
  {
    MaxRssiAbsent(s[..i], Key(s[i]));
    assert s[..i + 1][..i] == s[..i];
  }

  /** The list after record `j` was merged into `i` and cleared, if the two are the same network. */
  function MergeStep(now: seq<ApRecord>, i: nat, j: nat): seq<ApRecord>
    requires i < |now| && j < |now|
  {
    var ap, ap1 := now[i], now[j];
    if Key(ap) != Key(ap1) then now
    else now[i := ap.(rssi := if ap1.rssi > ap.rssi then ap1.rssi else ap.rssi)][j := ZERO_RECORD]
  }

  /** The inner loop's body. */
  method MergeOne(aplist: array<ApRecord>, i: nat, j: nat)
    requires i < j < aplist.Length
    modifies aplist
    ensures aplist[..] == MergeStep(old(aplist[..]), i, j)
  {
    var ap, ap1 := aplist[i], aplist[j];
    if CString(ap.ssid) == CString(ap1.ssid) && ap.authmode == ap1.authmode {
      if ap1.rssi > ap.rssi {
        aplist[i] := ap.(rssi := ap1.rssi);
      }
      aplist[j] := ZERO_RECORD;
    }
  }

  lemma ClearedStep(s: seq<ApRecord>, i: nat, k: nat)
    requires i < k < |s| && IsFirst(s, i)
    ensures Cleared(s, i + 1, k) == if Key(s[k]) == Key(s[i]) then ZERO_RECORD else Cleared(s, i, k)
    ensures Key(Cleared(s, i, k)) == Key(s[i]) <==> Key(s[k]) == Key(s[i])
    ensures Key(s[k]) == Key(s[i]) ==> Cleared(s, i, k) == s[k]
  {
    KeyNamed(s[i]);
    KeyNamed(ZERO_RECORD);
  }

  /** The list while record `i` is compared with the records behind it: those before `j` have had their turn. */
  ghost predicate Merging(now: seq<ApRecord>, s: seq<ApRecord>, i: nat, j: nat)
    requires i < j <= |s| <= |now|
  {
    && now[i] == s[i].(rssi := MaxRssi(s[..j], Key(s[i])))
    && (forall k :: 0 <= k < i ==> now[k] == Merged(s, k))
    && (forall k :: i < k < j ==> now[k] == Cleared(s, i + 1, k))
    && (forall k :: j <= k < |s| ==> now[k] == Cleared(s, i, k))
  }

  lemma MergingStep(now: seq<ApRecord>, s: seq<ApRecord>, i: nat, j: nat)
    requires i < j < |s| <= |now| && IsFirst(s, i)
    requires Merging(now, s, i, j)
    ensures Merging(MergeStep(now, i, j), s, i, j + 1)
  {
    assert s[..j + 1][..j] == s[..j];
    ClearedStep(s, i, j);
  }

  /** The list between two turns of the outer loop. */
  ghost predicate Outer(now: seq<ApRecord>, s: seq<ApRecord>, i: nat)
    requires i <= |s| <= |now|
  {
    && (forall k :: 0 <= k < i ==> now[k] == Merged(s, k))
    && (forall k :: i <= k < |s| ==> now[k] == Cleared(s, i, k))
  }

  lemma FirstIfNoRepeat(s: seq<ApRecord>, i: nat)
    requires i < |s| && Named(s[i])
    ensures IsFirst(s, i) <==> !Repeats(s, i, i)
  {
    forall j | 0 <= j < i && Key(s[j]) == Key(s[i])
      ensures Repeats(s, i, i)
    {
      KeyNamed(s[j]);
      KeyNamed(s[i]);
    }
  }

  lemma MergingBegins(now: seq<ApRecord>, s: seq<ApRecord>, i: nat)
    requires i < |s| <= |now| && Outer(now, s, i) && IsFirst(s, i)
    ensures Merging(now, s, i, i + 1)
  {
    MaxRssiStart(s, i);
    forall k | i < k < |s|
      ensures now[k] == Cleared(s, i, k)
    {
    }
    FirstIfNoRepeat(s, i);
  }

  lemma MergingEnds(now: seq<ApRecord>, s: seq<ApRecord>, i: nat)
    requires i < |s| <= |now| && IsFirst(s, i)
    requires Merging(now, s, i, |s|)
    ensures Outer(now, s, i + 1)
  {
    assert s[..|s|] == s;
  }

  /** The list after the inner loop of record `i` has come to `j`. */
  function MergeFrom(now: seq<ApRecord>, i: nat, j: nat): (r: seq<ApRecord>)
    requires i < j <= |now|
    ensures |r| == |now|
  {
    if j == i + 1 then now else MergeStep(MergeFrom(now, i, j - 1), i, j - 1)
  }

  lemma {:induction false} MergeFromMerges(now: seq<ApRecord>, s: seq<ApRecord>, i: nat, j: nat)
    requires i < j <= |s| <= |now|
    requires Outer(now, s, i) && IsFirst(s, i)
    ensures Merging(MergeFrom(now, i, j), s, i, j)
    ensures MergeFrom(now, i, j)[|s|..] == now[|s|..]
  {
    if j == i + 1 {
      MergingBegins(now, s, i);
    } else {
      MergeFromMerges(now, s, i, j - 1);
      MergingStep(MergeFrom(now, i, j - 1), s, i, j - 1);
    }
  }

  /** The inner loop. */
  method MergeInto(aplist: array<ApRecord>, aps: nat, i: nat)
    requires i < aps <= aplist.Length
    modifies aplist
    ensures aplist[..] == MergeFrom(old(aplist[..]), i, aps)
  {
    for j := i + 1 to aps
      invariant aplist[..] == MergeFrom(old(aplist[..]), i, j)
    {
      MergeOne(aplist, i, j);
    }
  }

  /** Passing over an unnamed slot changes nothing that counts. */
  lemma SkipUnnamed(s: seq<ApRecord>, i: nat)
    requires i < |s| && !Named(Cleared(s, i, i))
    ensures Merged(s, i) == Cleared(s, i, i)
    ensures forall k :: i < k < |s| ==> Cleared(s, i + 1, k) == Cleared(s, i, k)
  {
    forall k | i < k < |s| && Repeats(s, i + 1, k)
      ensures Repeats(s, i, k)
    {
      var m :| 0 <= m < i + 1 && m < k && Named(s[m]) && Key(s[m]) == Key(s[k]);
      if m == i {
        assert Repeats(s, i, i);
      }
    }
  }

  lemma OuterSkips(now: seq<ApRecord>, s: seq<ApRecord>, i: nat)
    requires i < |s| <= |now| && Outer(now, s, i) && !Named(now[i])
    ensures Outer(now, s, i + 1)
  {
    SkipUnnamed(s, i);
  }

  /** The last slot needs no turn of its own: nothing behind it could be merged into it. */
  lemma LastSlot(s: seq<ApRecord>)
    requires s != []
    ensures Cleared(s, |s| - 1, |s| - 1) == Merged(s, |s| - 1)
  {
    var i := |s| - 1;
    if Named(s[i]) {
      FirstIfNoRepeat(s, i);
      if IsFirst(s, i) {
        MaxRssiStart(s, i);
        assert s[..i + 1] == s;
      }
    } else {
      KeyNamed(s[i]);
      if Repeats(s, i, i) {
        var m :| 0 <= m < i && Named(s[m]) && Key(s[m]) == Key(s[i]);
        KeyNamed(s[m]);
      }
    }
  }

  /** At the last slot the outer loop stops: the slot needs no turn of its own. */
  lemma OuterEnds(now: seq<ApRecord>, s: seq<ApRecord>)
    requires s != [] && |s| <= |now| && Outer(now, s, |s| - 1)
    ensures now[..|s|] == MergedAll(s)
  {
    LastSlot(s);
  }

  lemma NamedIsFirst(s: seq<ApRecord>, i: nat)
    requires i < |s| && Named(Cleared(s, i, i))
    ensures IsFirst(s, i)
  {
    FirstIfNoRepeat(s, i);
  }

  /** First pass: every first record gets its network's strongest signal, every repetition is zeroed. */
  method MergeDuplicates(aplist: array<ApRecord>, aps: nat)
    requires aps <= aplist.Length
    modifies aplist
    ensures aplist[..aps] == MergedAll(old(aplist[..aps]))
    ensures aplist[aps..] == old(aplist[aps..])
  {
    ghost var s := aplist[..aps];
    var i := 0;
    while i < aps - 1
      invariant 0 <= i && (i < aps || i == aps == 0)
      invariant Outer(aplist[..], s, i)
      invariant aplist[aps..] == old(aplist[aps..])
    {
      if aplist[i].ssid[0] == '\0' {
        OuterSkips(aplist[..], s, i);
      } else {
        NamedIsFirst(s, i);
        MergeFromMerges(aplist[..], s, i, aps);
        MergingEnds(MergeFrom(aplist[..], i, aps), s, i);
        ghost var next := MergeFrom(aplist[..], i, aps);
        MergeInto(aplist, aps, i);
        assert aplist[aps..] == next[aps..];
      }
      i := i + 1;
    }
    if aps > 0 {
      OuterEnds(aplist[..], s);
    }
  }

  // ----- second pass

  /** The lowest free slot, found as the source finds it: from the start of the list. */
  method LowestFree(aplist: array<ApRecord>, aps: nat) returns (j: nat)
    requires aps <= aplist.Length && exists k :: 0 <= k < aps && !Named(aplist[k])
    ensures j < aps && !Named(aplist[j])
    ensures forall k :: 0 <= k < j ==> Named(aplist[k])
  {
    j := 0;
    while aplist[j].ssid[0] != '\0'
      invariant j < aps
      invariant forall k :: 0 <= k < j ==> Named(aplist[k])
      decreases aps - j
    {
      assert exists k :: j < k < aps && !Named(aplist[k]);
      j := j + 1;
    }
  }

  /**
   * The list during the second pass: `p` named records, free slots up to `i`, the unvisited rest of `s`.
   * No named record has been lost, doubled or reordered.
   */
  ghost predicate Compacting(now: seq<ApRecord>, s: seq<ApRecord>, p: nat, i: nat)
    requires p <= i <= |s| <= |now|
  {
    && now[..p] == NamedOnly(s[..i])
    && (forall k :: p <= k < i ==> !Named(now[k]))
    && (forall k :: i <= k < |s| ==> now[k] == s[k])
  }

  lemma CompactingFree(now: seq<ApRecord>, s: seq<ApRecord>, p: nat, i: nat)
    requires p <= i < |s| <= |now| && Compacting(now, s, p, i) && !Named(now[i])
    ensures Compacting(now, s, p, i + 1)
  {
    assert s[..i + 1][..i] == s[..i];
  }

  lemma CompactingKeeps(now: seq<ApRecord>, s: seq<ApRecord>, i: nat)
    requires i < |s| <= |now| && Compacting(now, s, i, i) && Named(now[i])
    ensures Compacting(now, s, i + 1, i + 1)
  {
    assert s[..i + 1][..i] == s[..i];
    assert now[..i + 1] == now[..i] + [s[i]];
  }

  lemma CompactingMoves(now: seq<ApRecord>, s: seq<ApRecord>, p: nat, i: nat)
    requires p < i < |s| <= |now| && Compacting(now, s, p, i) && Named(now[i])
    ensures Compacting(now[p := now[i]][i := ZERO_RECORD], s, p + 1, i + 1)
  {
    assert s[..i + 1][..i] == s[..i];
    assert now[p := now[i]][i := ZERO_RECORD][..p + 1] == now[..p] + [s[i]];
  }

  /** A named record is moved down to the lowest free slot `p`; the next lowest is then the one behind it. */
  method MoveDown(aplist: array<ApRecord>, ghost s: seq<ApRecord>, aps: nat, p: nat, i: nat) returns (j: nat)
    requires p < i < aps == |s| <= aplist.Length
    requires Compacting(aplist[..], s, p, i) && Named(aplist[i])
    modifies aplist
    ensures Compacting(aplist[..], s, p + 1, i + 1)
    ensures j == p + 1
    ensures aplist[aps..] == old(aplist[aps..])
  {
    CompactingMoves(aplist[..], s, p, i);
    aplist[p] := aplist[i];
    aplist[i] := ZERO_RECORD;
    assert aplist[..] == old(aplist[..])[p := old(aplist[i])][i := ZERO_RECORD];
    assert !Named(aplist[p + 1]);
    j := LowestFree(aplist, aps);
    assert forall k :: 0 <= k < p + 1 ==> aplist[k] == aplist[..p + 1][k];
  }

  /** Second pass; `firstFree` is the lowest free slot as soon as there is one. */
  method Compact(aplist: array<ApRecord>, aps: nat) returns (total: nat)
    requires aps <= aplist.Length
    modifies aplist
    ensures total <= aps
    ensures aplist[..total] == NamedOnly(old(aplist[..aps]))
    ensures forall k :: total <= k < aps ==> !Named(aplist[k])
    ensures aplist[aps..] == old(aplist[aps..])
  {
    ghost var s := aplist[..aps];
    var firstFree: Option<nat> := None;
    total := aps;
    ghost var p := 0;
    for i := 0 to aps
      invariant p <= i && total == aps - (i - p)
      invariant Compacting(aplist[..], s, p, i)
      invariant firstFree == if p == i then None else Some(p)
      invariant aplist[aps..] == old(aplist[aps..])
    {
      if aplist[i].ssid[0] == '\0' {
        CompactingFree(aplist[..], s, p, i);
        if firstFree.None? {
          firstFree := Some(i);
        }
        total := total - 1;
      } else {
        if firstFree.Some? {
          var j := MoveDown(aplist, s, aps, firstFree.value, i);
          firstFree := Some(j);
        } else {
          CompactingKeeps(aplist[..], s, i);
        }
        p := p + 1;
      }
    }
    assert s[..aps] == s;
  }

  /** `wifi_manager_filter_unique`; the count comes back as a result instead of through the pointer. */
  method FilterUnique(aplist: array<ApRecord>, aps: nat) returns (total: nat)
    requires aps <= aplist.Length
    modifies aplist
    ensures total <= aps
    ensures aplist[..total] == Unique(old(aplist[..aps]))
    ensures forall k :: total <= k < aps ==> !Named(aplist[k])
    ensures aplist[aps..] == old(aplist[aps..])
  {
    MergeDuplicates(aplist, aps);
    total := Compact(aplist, aps);
  }
}
