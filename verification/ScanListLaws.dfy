/** What the filtered scan list means, without reference to the two passes that compute it. */
module ScanListLaws {
  import opened CText
  import opened ScanList

  /** The places below `n` that hold the first record of their network, in order. */
  function FirstsBelow(s: seq<ApRecord>, n: nat): (idx: seq<nat>)
    requires n <= |s|
    ensures forall k :: 0 <= k < |idx| ==> idx[k] < n && IsFirst(s, idx[k])
    ensures forall k, l :: 0 <= k < l < |idx| ==> idx[k] < idx[l]
    ensures forall i :: 0 <= i < n && IsFirst(s, i) ==> i in idx
  {
    if n == 0 then [] else FirstsBelow(s, n - 1) + if IsFirst(s, n - 1) then [n - 1] else []
  }

  function Firsts(s: seq<ApRecord>): seq<nat> {
    FirstsBelow(s, |s|)
  }

  lemma NamedIffFirst(s: seq<ApRecord>, i: nat)
    requires i < |s|
    ensures Named(Merged(s, i)) <==> IsFirst(s, i)
  {
  }

  /** The list holds the merged records of these places. */
  ghost predicate Collects(u: seq<ApRecord>, s: seq<ApRecord>, idx: seq<nat>) {
    |u| == |idx| && forall k :: 0 <= k < |u| ==> idx[k] < |s| && u[k] == Merged(s, idx[k])
  }

  lemma NamedOnlyGrows(s: seq<ApRecord>, n: nat)
    requires 0 < n <= |s|
    ensures NamedOnly(s[..n]) == NamedOnly(s[..n - 1]) + if Named(s[n - 1]) then [s[n - 1]] else []
  {
    assert s[..n][..n - 1] == s[..n - 1];
  }

  lemma {:induction false} UniqueBelow(s: seq<ApRecord>, n: nat)
    requires n <= |s|
    ensures Collects(NamedOnly(MergedAll(s)[..n]), s, FirstsBelow(s, n))
  {
    if n == 0 {
    } else {
      UniqueBelow(s, n - 1);
      NamedOnlyGrows(MergedAll(s), n);
      NamedIffFirst(s, n - 1);
    }
  }

  /**
   * The filtered list is, in the order of the scan, the first record of every network with a name,
   * each with its own fields except for the strongest signal of its network.
   */
  lemma UniqueCharacterised(s: seq<ApRecord>)
    ensures |Unique(s)| == |Firsts(s)|
    ensures forall k :: 0 <= k < |Unique(s)| ==>
              var first := s[Firsts(s)[k]];
              Unique(s)[k] == first.(rssi := MaxRssi(s, Key(first)))
  {
    UniqueBelow(s, |s|);
    assert MergedAll(s)[..|s|] == MergedAll(s);
  }

  /** The signal shown is that of some record of the network, and no record of it is stronger. */
  lemma {:induction false} MaxRssiIsMaximum(s: seq<ApRecord>, net: Network)
    ensures forall r :: r in s && Key(r) == net ==> r.rssi <= MaxRssi(s, net)
    ensures (exists r :: r in s && Key(r) == net) ==> exists r :: r in s && Key(r) == net && r.rssi == MaxRssi(s, net)
  {
    if s == [] {
    } else {
      var front, last := s[..|s| - 1], s[|s| - 1];
      MaxRssiIsMaximum(front, net);
      assert s == front + [last];
      if exists r :: r in front && Key(r) == net {
        var r :| r in front && Key(r) == net && r.rssi == MaxRssi(front, net);
        assert r in s && last in s;
        if Key(last) == net && last.rssi > MaxRssi(front, net) {
          assert last.rssi == MaxRssi(s, net);
        }
      } else if Key(last) == net {
        MaxRssiAbsent(front, net);
        assert last in s && last.rssi == MaxRssi(s, net);
      }
    }
  }

  /** The networks a scan found, unnamed ones excepted. */
  function Networks(s: seq<ApRecord>): set<Network> {
    set r | r in s && Named(r) :: Network(CString(r.ssid), r.authmode)
  }

  lemma {:induction false} FirstOf(s: seq<ApRecord>, i: nat) returns (f: nat)
    requires i < |s| && Named(s[i])
    ensures f <= i && IsFirst(s, f) && Key(s[f]) == Key(s[i])
    decreases i
  {
    if IsFirst(s, i) {
      f := i;
    } else {
      var j :| 0 <= j < i && Key(s[j]) == Key(s[i]);
      KeyNamed(s[i]);
      KeyNamed(s[j]);
      f := FirstOf(s, j);
    }
  }

  lemma FirstsDiffer(s: seq<ApRecord>, i: nat, j: nat)
    requires i < j < |s| && IsFirst(s, j)
    ensures Key(s[i]) != Key(s[j])
  {
  }

  /** No two records left are of the same network, and all have names. */
  lemma UniqueKeysDiffer(s: seq<ApRecord>)
    ensures forall k :: 0 <= k < |Unique(s)| ==> Named(Unique(s)[k])
    ensures forall k, l :: 0 <= k < l < |Unique(s)| ==> Key(Unique(s)[k]) != Key(Unique(s)[l])
  {
    UniqueCharacterised(s);
    var idx := Firsts(s);
    forall k, l | 0 <= k < l < |Unique(s)|
      ensures Key(Unique(s)[k]) != Key(Unique(s)[l])
    {
      FirstsDiffer(s, idx[k], idx[l]);
    }
  }

  lemma NoNetworkLost(s: seq<ApRecord>, net: Network)
    requires net in Networks(s)
    ensures net in Networks(Unique(s))
  {
    UniqueCharacterised(s);
    var u, idx := Unique(s), Firsts(s);
    var r :| r in s && Named(r) && Key(r) == net;
    var i :| 0 <= i < |s| && s[i] == r;
    var f := FirstOf(s, i);
    var k :| 0 <= k < |idx| && idx[k] == f;
    assert Key(u[k]) == net && u[k] in u && Named(u[k]);
  }

  lemma SameSlot(s: seq<ApRecord>, k: nat)
    requires k < |Unique(s)|
    ensures k < |Firsts(s)| && Key(s[Firsts(s)[k]]) == Key(Unique(s)[k])
  {
    UniqueCharacterised(s);
    var first := s[Firsts(s)[k]];
    assert Unique(s)[k] == first.(rssi := MaxRssi(s, Key(first)));
  }

  lemma NoNetworkInvented(s: seq<ApRecord>, net: Network)
    requires net in Networks(Unique(s))
    ensures net in Networks(s)
  {
    UniqueCharacterised(s);
    var u, idx := Unique(s), Firsts(s);
    var r :| r in u && Named(r) && Key(r) == net;
    var k :| 0 <= k < |u| && u[k] == r;
    SameSlot(s, k);
    assert s[idx[k]] in s && Named(s[idx[k]]);
  }

  /** Every named network of the scan is left, with its strongest signal, and no other network appears. */
  lemma UniqueNetworks(s: seq<ApRecord>)
    ensures Networks(Unique(s)) == Networks(s)
    ensures forall r :: r in Unique(s) ==> r.rssi == MaxRssi(s, Key(r))
  {
    UniqueCharacterised(s);
    forall net
      ensures net in Networks(Unique(s)) <==> net in Networks(s)
    {
      if net in Networks(s) {
        NoNetworkLost(s, net);
      } else if net in Networks(Unique(s)) {
        NoNetworkInvented(s, net);
      }
    }
  }

  lemma PlaceOf(u: seq<ApRecord>, net: Network) returns (k: nat)
    requires net in Networks(u)
    ensures k < |u| && Key(u[k]) == net
  {
    var r :| r in u && Named(r) && Key(r) == net;
    k :| 0 <= k < |u| && u[k] == r;
  }

  /** Every record with a name is shown once, by name and authentication mode, with a signal no weaker than its own. */
  lemma UniqueShowsAll(s: seq<ApRecord>)
    ensures var u := Unique(s);
            && (forall i :: 0 <= i < |s| && CString(s[i].ssid) != [] ==>
                  exists k :: 0 <= k < |u| && CString(u[k].ssid) == CString(s[i].ssid)
                              && u[k].authmode == s[i].authmode && s[i].rssi <= u[k].rssi)
            && (forall k, l :: 0 <= k < l < |u| && CString(u[k].ssid) == CString(u[l].ssid) ==>
                                 u[k].authmode != u[l].authmode)
  {
    var u := Unique(s);
    UniqueKeysDiffer(s);
    UniqueNetworks(s);
    forall i | 0 <= i < |s| && CString(s[i].ssid) != []
      ensures exists k :: 0 <= k < |u| && CString(u[k].ssid) == CString(s[i].ssid)
                          && u[k].authmode == s[i].authmode && s[i].rssi <= u[k].rssi
    {
      assert s[i] in s && Named(s[i]);
      var k := PlaceOf(u, Key(s[i]));
      MaxRssiIsMaximum(s, Key(s[i]));
      assert u[k] in u;
    }
    forall k, l | 0 <= k < l < |u| && CString(u[k].ssid) == CString(u[l].ssid)
      ensures u[k].authmode != u[l].authmode
    {
      assert Key(u[k]) != Key(u[l]);
    }
  }

  /**
   * And nothing else is shown: each entry has a name, and is the first record of the scan with its name and mode, but
   * for a signal that some record with the same name and mode was received with.
   */
  lemma UniqueShowsOnly(s: seq<ApRecord>, k: nat) returns (first: nat, strongest: nat)
    requires k < |Unique(s)|
    ensures var r := Unique(s)[k];
            && CString(r.ssid) != []
            && first < |s| && r == s[first].(rssi := r.rssi)
            && (forall j :: 0 <= j < first && CString(s[j].ssid) == CString(r.ssid) ==> s[j].authmode != r.authmode)
            && strongest < |s| && CString(s[strongest].ssid) == CString(r.ssid)
            && s[strongest].authmode == r.authmode && s[strongest].rssi == r.rssi
  {
    UniqueCharacterised(s);
    first := Firsts(s)[k];
    var net := Key(s[first]);
    MaxRssiIsMaximum(s, net);
    assert s[first] in s;
    var r :| r in s && Key(r) == net && r.rssi == MaxRssi(s, net);
    strongest :| 0 <= strongest < |s| && s[strongest] == r;
    forall j | 0 <= j < first && CString(s[j].ssid) == CString(s[first].ssid)
      ensures s[j].authmode != s[first].authmode
    {
      FirstsDiffer(s, j, first);
    }
  }

  /** The entries come in the order of the records that they were made from. */
  lemma UniqueKeepsOrder(s: seq<ApRecord>, k: nat, l: nat) returns (i: nat, j: nat)
    requires k < l < |Unique(s)|
    ensures i < j < |s| && IsFirst(s, i) && IsFirst(s, j)
    ensures Unique(s)[k] == s[i].(rssi := Unique(s)[k].rssi) && Unique(s)[l] == s[j].(rssi := Unique(s)[l].rssi)
  {
    UniqueCharacterised(s);
    i, j := Firsts(s)[k], Firsts(s)[l];
  }

  lemma NetworksAppend(front: seq<ApRecord>, last: ApRecord)
    requires Named(last)
    ensures Networks(front + [last]) == Networks(front) + {Key(last)}
  {
    var u := front + [last];
    forall r | r in u
      ensures r in front || r == last
    {
    }
    forall r | r in front
      ensures r in u
    {
    }
    assert last in u;
  }

  lemma {:induction false} DistinctCount(u: seq<ApRecord>)
    requires forall k :: 0 <= k < |u| ==> Named(u[k])
    requires forall k, l :: 0 <= k < l < |u| ==> Key(u[k]) != Key(u[l])
    ensures |Networks(u)| == |u|
  {
    if u == [] {
      assert Networks(u) == {};
    } else {
      var front, last := u[..|u| - 1], u[|u| - 1];
      DistinctCount(front);
      assert u == front + [last];
      NetworksAppend(front, last);
      forall r | r in front
        ensures Key(r) != Key(last)
      {
        var k :| 0 <= k < |front| && front[k] == r;
        assert u[k] == r;
      }
    }
  }

  /** The new count is the number of named networks. */
  lemma UniqueCount(s: seq<ApRecord>)
    ensures |Unique(s)| == |Networks(s)|
  {
    UniqueKeysDiffer(s);
    UniqueNetworks(s);
    DistinctCount(Unique(s));
  }

  lemma {:induction false} NamedOnlyKeeps(s: seq<ApRecord>)
    requires forall r :: r in s ==> Named(r)
    ensures NamedOnly(s) == s
  {
    if s == [] {
    } else {
      NamedOnlyKeeps(s[..|s| - 1]);
    }
  }

  lemma AloneKeepsSignal(s: seq<ApRecord>, i: nat)
    requires i < |s|
    requires forall k, l :: 0 <= k < l < |s| ==> Key(s[k]) != Key(s[l])
    ensures MaxRssi(s, Key(s[i])) == s[i].rssi
  {
    MaxRssiIsMaximum(s, Key(s[i]));
    var r :| r in s && Key(r) == Key(s[i]) && r.rssi == MaxRssi(s, Key(s[i]));
    var k :| 0 <= k < |s| && s[k] == r;
    assert k == i;
  }

  /** A list of different named networks is left as it is. */
  lemma DistinctStays(u: seq<ApRecord>)
    requires forall k :: 0 <= k < |u| ==> Named(u[k])
    requires forall k, l :: 0 <= k < l < |u| ==> Key(u[k]) != Key(u[l])
    ensures Unique(u) == u
  {
    forall i | 0 <= i < |u|
      ensures Merged(u, i) == u[i]
    {
      assert IsFirst(u, i);
      AloneKeepsSignal(u, i);
    }
    assert MergedAll(u) == u;
    NamedOnlyKeeps(u);
  }

  /** Filtering a filtered list changes nothing. */
  lemma UniqueIdempotent(s: seq<ApRecord>)
    ensures Unique(Unique(s)) == Unique(s)
  {
    UniqueKeysDiffer(s);
    DistinctStays(Unique(s));
  }

  /** What the list shows, without the order: name, authentication mode and signal. */
  function Shown(s: seq<ApRecord>): set<(Network, int)> {
    set r | r in s :: (Network(CString(r.ssid), r.authmode), r.rssi as int)
  }

  lemma ShownIsNetworks(s: seq<ApRecord>)
    ensures Shown(Unique(s)) == set net | net in Networks(s) :: (net, MaxRssi(s, net) as int)
  {
    var u := Unique(s);
    UniqueNetworks(s);
    UniqueKeysDiffer(s);
    forall r | r in u
      ensures Key(r) in Networks(u)
    {
    }
    forall net | net in Networks(s)
      ensures (net, MaxRssi(s, net) as int) in Shown(u)
    {
      assert net in Networks(u);
      var r :| r in u && Named(r) && Key(r) == net;
      assert (Key(r), r.rssi as int) in Shown(u);
    }
  }

  lemma SameRecords(s: seq<ApRecord>, t: seq<ApRecord>)
    requires multiset(s) == multiset(t)
    ensures forall r :: r in s <==> r in t
  {
    forall r
      ensures r in s <==> r in t
    {
      assert r in s <==> r in multiset(s);
      assert r in t <==> r in multiset(t);
    }
  }

  /** The order in which the driver reports the records does not matter for what is shown. */
  lemma UniqueOrderFree(s: seq<ApRecord>, t: seq<ApRecord>)
    requires multiset(s) == multiset(t)
    ensures Shown(Unique(s)) == Shown(Unique(t))
  {
    SameRecords(s, t);
    assert Networks(s) == Networks(t);
    forall net | net in Networks(s)
      ensures MaxRssi(s, net) == MaxRssi(t, net)
    {
      MaxRssiIsMaximum(s, net);
      MaxRssiIsMaximum(t, net);
    }
    ShownIsNetworks(s);
    ShownIsNetworks(t);
  }
}
