/** Which lists of access points fit the buffers of wifi_manager.c, exactly, and that real ones do not. */
module ApListRoom {
  import opened CText
  import opened JsonString
  import opened JsonDocument
  import opened ScanList
  import opened ScanListLaws
  import opened ApListJson

  /** The octets of an entry that depend on the record: the escaped name and the three numbers. */
  function EntrySize(r: ApRecord): nat {
    |Escape(CString(r.ssid))| + |Decimal(r.primary)| + |Decimal(r.rssi)| + |Decimal(r.authmode)|
  }

  function EntrySizes(rs: seq<ApRecord>): nat {
    if rs == [] then 0 else EntrySizes(rs[..|rs| - 1]) + EntrySize(rs[|rs| - 1])
  }

  const ENTRY_FRAME: nat := 37

  lemma OneApSize(r: ApRecord, end: octet)
    ensures |OneAp(r, end)| == ENTRY_FRAME + EntrySize(r)
  {
  }

  /** The header's 99 octets hold an entry exactly when name and numbers take at most 62. */
  lemma OneApFits(r: ApRecord, end: octet)
    ensures |OneAp(r, end)| <= JSON_ONE_APP_SIZE <==> EntrySize(r) <= 62
  {
    OneApSize(r, end);
  }

  lemma {:induction false} ConcatSize(texts: seq<seq<octet>>, rs: seq<ApRecord>)
    requires |texts| == |rs|
    requires forall i :: 0 <= i < |rs| ==> |texts[i]| == ENTRY_FRAME + EntrySize(rs[i])
    ensures |Concat(texts)| == ENTRY_FRAME * |rs| + EntrySizes(rs)
  {
    if rs == [] {
    } else {
      ConcatSize(texts[..|texts| - 1], rs[..|rs| - 1]);
    }
  }

  lemma ListSize(rs: seq<ApRecord>)
    ensures |ApListText(rs)| == 1 + ENTRY_FRAME * |rs| + EntrySizes(rs)
  {
    var texts := OneAps(rs);
    forall i | 0 <= i < |rs|
      ensures |texts[i]| == ENTRY_FRAME + EntrySize(rs[i])
    {
      OneApSize(rs[i], if i == |rs| - 1 then ']' else ',');
    }
    ConcatSize(texts, rs);
    BuiltIsConcat(texts, |texts|);
    assert texts[..|texts|] == texts;
  }

  /** The list and its terminator stay within the 1489 octets allocated exactly when this sum does. */
  lemma ListFits(rs: seq<ApRecord>)
    ensures |ApListText(rs)| < ACCESSP_JSON_SIZE <==> ENTRY_FRAME * |rs| + EntrySizes(rs) <= 1487
  {
    ListSize(rs);
  }

  // ----- what fits

  /** The octets that escaping a record's name adds. */
  function EscapeOverhead(r: ApRecord): int {
    |Escape(CString(r.ssid))| - |CString(r.ssid)|
  }

  predicate IsOrdinary(r: ApRecord) {
    r.primary < 100 && 0 <= r.authmode < 10 && EscapeOverhead(r) <= 23
  }

  lemma OrdinaryFits(r: ApRecord)
    requires IsOrdinary(r)
    ensures EntrySize(r) <= 62
  {
    DecimalShort(r.primary);
    DecimalShort(r.rssi);
    DecimalShort(r.authmode);
    assert CString(r.ssid) == r.ssid[..|CString(r.ssid)|];
  }

  lemma {:induction false} OrdinarySizes(rs: seq<ApRecord>)
    requires forall r :: r in rs ==> IsOrdinary(r)
    ensures EntrySizes(rs) <= 62 * |rs|
  {
    if rs == [] {
    } else {
      OrdinarySizes(rs[..|rs| - 1]);
      OrdinaryFits(rs[|rs| - 1]);
    }
  }

  /** Fifteen records whose names need at most 23 extra octets fit. */
  lemma OrdinaryListFits(rs: seq<ApRecord>)
    requires |rs| <= MAX_AP_NUM
    requires forall r :: r in rs ==> IsOrdinary(r)
    ensures |ApListText(rs)| < ACCESSP_JSON_SIZE
  {
    OrdinarySizes(rs);
    ListFits(rs);
  }

  // ----- what does not

  function Quotes(n: nat): (q: seq<octet>)
    ensures |q| == n && forall i :: 0 <= i < n ==> q[i] == '\"'
  {
    seq(n, _ => '\"')
  }

  lemma {:induction false} QuotesDouble(s: seq<octet>)
    requires forall i :: 0 <= i < |s| ==> s[i] == '\"'
    ensures |Escape(s)| == 2 * |s|
  {
    if s == [] {
    } else {
      QuotesDouble(s[1..]);
    }
  }

  /** A record as the driver may report it, with this name of 32 octets. */
  function Loud(name: seq<octet>): ApRecord
    requires |name| == 32
  {
    ApRecord(name + ['\0'], 11, -100, 3, 0)
  }

  lemma LoudName(name: seq<octet>)
    requires |name| == 32 && '\0' !in name
    ensures CString(Loud(name).ssid) == name
  {
    CStringOf(name, []);
    assert name + ['\0'] + [] == name + ['\0'];
  }

  lemma LoudSize(name: seq<octet>)
    requires |name| == 32 && '\0' !in name
    ensures EntrySize(Loud(name)) == |Escape(name)| + 7
  {
    LoudName(name);
    assert |Decimal(11)| == 2 && |Decimal(-100)| == 4 && |Decimal(3)| == 1 by {
      assert Digits(11) == Digits(1) + Digits(1);
      assert Digits(100) == Digits(10) + Digits(0) && Digits(10) == Digits(1) + Digits(0);
    }
  }

  /** The header's estimate that 32 extra octets fit as well is wrong. */
  lemma EstimateTooSmall()
    ensures exists r: ApRecord ::
              r.primary < 100 && 0 <= r.authmode < 10 && EscapeOverhead(r) == 32 && |OneAp(r, ',')| > JSON_ONE_APP_SIZE
  {
    var r := Loud(Quotes(32));
    LoudName(Quotes(32));
    LoudSize(Quotes(32));
    QuotesDouble(Quotes(32));
    OneApFits(r, ',');
    assert EscapeOverhead(r) == 32;
  }

  /** 31 quotes and a letter. */
  function LoudRecords(n: nat): (rs: seq<ApRecord>)
    requires n <= 26
    ensures |rs| == n && forall i :: 0 <= i < n ==> rs[i] == Loud(Quotes(31) + ['a' + i as char])
  {
    seq(n, i requires 0 <= i < n => Loud(Quotes(31) + ['a' + i as char]))
  }

  lemma LoudRecordSize(c: octet)
    requires IsPlain(c)
    ensures EntrySize(Loud(Quotes(31) + [c])) == 70
  {
    QuotesDouble(Quotes(31));
    EscapeAppend(Quotes(31), c);
    LoudSize(Quotes(31) + [c]);
  }

  lemma {:induction false} LoudSizes(n: nat)
    requires n <= 26
    ensures EntrySizes(LoudRecords(n)) == 70 * n
  {
    if n == 0 {
    } else {
      LoudSizes(n - 1);
      LoudRecordSize('a' + (n - 1) as char);
      assert LoudRecords(n)[..n - 1] == LoudRecords(n - 1);
    }
  }

  lemma LoudRecordsDiffer(n: nat)
    requires n <= 26
    ensures Unique(LoudRecords(n)) == LoudRecords(n)
  {
    var rs := LoudRecords(n);
    forall i | 0 <= i < n
      ensures Named(rs[i]) && Key(rs[i]).name == Quotes(31) + ['a' + i as char]
    {
      LoudName(Quotes(31) + ['a' + i as char]);
    }
    forall k, l | 0 <= k < l < n
      ensures Key(rs[k]) != Key(rs[l])
    {
      assert Key(rs[k]).name[31] == 'a' + k as char && Key(rs[l]).name[31] == 'a' + l as char;
    }
    DistinctStays(rs);
  }

  /**
   * A scan can find fifteen networks, all different, whose list does not fit: the generator then writes behind the
   * buffer.
   */
  lemma ListOverruns()
    ensures exists rs: seq<ApRecord> ::
              |rs| == MAX_AP_NUM && Unique(rs) == rs && |ApListText(rs)| >= ACCESSP_JSON_SIZE
  {
    var rs := LoudRecords(MAX_AP_NUM);
    LoudRecordsDiffer(MAX_AP_NUM);
    LoudSizes(MAX_AP_NUM);
    ListFits(rs);
  }
}
