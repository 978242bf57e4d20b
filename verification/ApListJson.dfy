/** wifi_manager_generate_acess_points_json: the scan list as the text served at /ap.json. */
module ApListJson {
  import opened CText
  import opened JsonString
  import opened JsonDocument
  import opened JsonPrint
  import opened ScanList
  import opened ScanListLaws
  import opened Wrappers

  const JSON_ONE_APP_SIZE: nat := 99
  const MAX_AP_NUM: nat := 15
  const ACCESSP_JSON_SIZE: nat := MAX_AP_NUM * JSON_ONE_APP_SIZE + 4

  /** What `snprintf` prints for one access point after its name; `end` is the comma or the closing bracket. */
  function ApTail(r: ApRecord, end: octet): seq<octet> {
    ",\"chan\":" + Decimal(r.primary) + ",\"rssi\":" + Decimal(r.rssi) + ",\"auth\":" + Decimal(r.authmode)
    + "}" + [end] + "\n"
  }

  function OneAp(r: ApRecord, end: octet): seq<octet> {
    "{\"ssid\":" + Quoted(CString(r.ssid)) + ApTail(r, end)
  }

  /** The access points of a list, each as the loop prints it. */
  function OneAps(rs: seq<ApRecord>): (texts: seq<seq<octet>>)
    ensures |texts| == |rs|
    ensures forall i :: 0 <= i < |rs| ==> texts[i] == OneAp(rs[i], if i == |rs| - 1 then ']' else ',')
  {
    seq(|rs|, i requires 0 <= i < |rs| => OneAp(rs[i], if i == |rs| - 1 then ']' else ','))
  }

  function Concat(texts: seq<seq<octet>>): seq<octet> {
    if texts == [] then [] else Concat(texts[..|texts| - 1]) + texts[|texts| - 1]
  }

  /** The buffer after `i` turns of the loop. */
  function Built(texts: seq<seq<octet>>, i: nat): seq<octet>
    requires i <= |texts|
  {
    if i == 0 then ['['] else Built(texts, i - 1) + texts[i - 1]
  }

  function ApListText(rs: seq<ApRecord>): seq<octet> {
    Built(OneAps(rs), |rs|)
  }

  lemma {:induction false} BuiltIsConcat(texts: seq<seq<octet>>, i: nat)
    requires i <= |texts|
    ensures Built(texts, i) == ['['] + Concat(texts[..i])
  {
    if i == 0 {
    } else {
      BuiltIsConcat(texts, i - 1);
      var front := texts[..i - 1];
      assert texts[..i] == front + [texts[i - 1]];
      assert texts[..i][..i - 1] == front;
      assert ['['] + (Concat(front) + texts[i - 1]) == ['['] + Concat(front) + texts[i - 1];
    }
  }

  lemma {:induction false} BuiltGrows(texts: seq<seq<octet>>, i: nat)
    requires i <= |texts|
    ensures |Built(texts, i)| <= |Built(texts, |texts|)|
    decreases |texts| - i
  {
    if i == |texts| {
    } else {
      BuiltGrows(texts, i + 1);
    }
  }

  // ----- what the text says

  function ApValue(r: ApRecord): Value {
    Obj([Member("ssid", Str(CString(r.ssid))),
         Member("chan", Num(r.primary)),
         Member("rssi", Num(r.rssi)),
         Member("auth", Num(r.authmode))])
  }

  function ApValues(rs: seq<ApRecord>): (vs: seq<Value>)
    ensures |vs| == |rs| && forall i :: 0 <= i < |rs| ==> vs[i] == ApValue(rs[i])
  {
    seq(|rs|, i requires 0 <= i < |rs| => ApValue(rs[i]))
  }

  lemma FourPrinted(m1: Member, m2: Member, m3: Member, m4: Member)
    ensures Print(Obj([m1, m2, m3, m4])) ==
            ['{'] + (PrintMember(m1) + [','] + (PrintMember(m2) + [','] + (PrintMember(m3) + [','] + PrintMember(m4))))
            + ['}']
  {
    PrintMembersCons(m3, [m4]);
    PrintMembersCons(m2, [m3, m4]);
    PrintMembersCons(m1, [m2, m3, m4]);
    assert [m1, m2, m3, m4] == [m1] + [m2, m3, m4];
    assert [m2, m3, m4] == [m2] + [m3, m4];
    assert [m3, m4] == [m3] + [m4];
  }

  lemma ValuePrinted(r: ApRecord)
    ensures Print(ApValue(r)) ==
            ['{'] + ((KeyOf("ssid") + Quoted(CString(r.ssid))) + [','] + ((KeyOf("chan") + Decimal(r.primary)) + [',']
            + ((KeyOf("rssi") + Decimal(r.rssi)) + [','] + (KeyOf("auth") + Decimal(r.authmode))))) + ['}']
  {
    var name, chan, rssi, auth := Str(CString(r.ssid)), Num(r.primary), Num(r.rssi), Num(r.authmode);
    FourPrinted(Member("ssid", name), Member("chan", chan), Member("rssi", rssi), Member("auth", auth));
    PlainKey("ssid", name);
    PlainKey("chan", chan);
    PlainKey("rssi", rssi);
    PlainKey("auth", auth);
  }

  lemma OneApPrinted(r: ApRecord, end: octet)
    ensures OneAp(r, end) ==
            (['{'] + KeyOf("ssid")) + Quoted(CString(r.ssid))
            + (([','] + KeyOf("chan")) + Decimal(r.primary) + ([','] + KeyOf("rssi")) + Decimal(r.rssi)
               + ([','] + KeyOf("auth")) + Decimal(r.authmode) + ['}'] + ([end] + "\n"))
  {
    assert "{\"ssid\":" == ['{'] + KeyOf("ssid");
    assert ",\"chan\":" == [','] + KeyOf("chan");
    assert ",\"rssi\":" == [','] + KeyOf("rssi");
    assert ",\"auth\":" == [','] + KeyOf("auth");
  }

  lemma FourMembers(k1: seq<octet>, v1: seq<octet>, k2: seq<octet>, v2: seq<octet>,
                    k3: seq<octet>, v3: seq<octet>, k4: seq<octet>, v4: seq<octet>, end: seq<octet>)
    ensures (['{'] + k1) + v1 + (([','] + k2) + v2 + ([','] + k3) + v3 + ([','] + k4) + v4 + ['}'] + end)
         == ['{'] + ((k1 + v1) + [','] + ((k2 + v2) + [','] + ((k3 + v3) + [','] + (k4 + v4)))) + ['}'] + end
  {
    var t4 := ([','] + k4) + v4 + (['}'] + end);
    var t3 := ([','] + k3) + v3 + t4;
    assert ([','] + k2) + v2 + ([','] + k3) + v3 + ([','] + k4) + v4 + ['}'] + end == ([','] + k2) + v2 + t3;
    assert ((k3 + v3) + [','] + (k4 + v4)) + (['}'] + end) == (k3 + v3) + t4;
  }

  /** One access point prints as its JSON object, then the separator and a newline. */
  lemma OneApIsObject(r: ApRecord, end: octet)
    ensures OneAp(r, end) == Print(ApValue(r)) + ([end] + "\n")
  {
    ValuePrinted(r);
    OneApPrinted(r, end);
    FourMembers(KeyOf("ssid"), Quoted(CString(r.ssid)), KeyOf("chan"), Decimal(r.primary),
                KeyOf("rssi"), Decimal(r.rssi), KeyOf("auth"), Decimal(r.authmode), [end] + "\n");
  }

  lemma {:induction false} PrintItemsAppend(vs: seq<Value>, v: Value)
    requires vs != []
    ensures PrintItems(vs + [v]) == PrintItems(vs) + ",\n" + Print(v)
  {
    assert (vs + [v])[1..] == vs[1..] + [v];
    if |vs| == 1 {
    } else {
      PrintItemsAppend(vs[1..], v);
      assert Print(vs[0]) + ",\n" + (PrintItems(vs[1..]) + ",\n" + Print(v))
          == (Print(vs[0]) + ",\n" + PrintItems(vs[1..])) + ",\n" + Print(v);
    }
  }

  /** `text` is a value printed with what the loop puts behind it. */
  ghost predicate IsItem(text: seq<octet>, v: Value, last: bool) {
    text == Print(v) + ((if last then [']'] else [',']) + "\n")
  }

  lemma Rejoin(a: seq<octet>, b: seq<octet>, c: seq<octet>, d: seq<octet>)
    ensures (a + b) + (c + d) == (a + b + c) + d
  {
  }

  /** Before its last entry the loop has printed an array that is still open. */
  lemma {:induction false} OpenArray(texts: seq<seq<octet>>, vs: seq<Value>)
    requires |texts| == |vs| > 0
    requires forall i :: 0 <= i < |vs| ==> IsItem(texts[i], vs[i], false)
    ensures Concat(texts) == PrintItems(vs) + ",\n"
  {
    var n := |vs| - 1;
    var front, last := vs[..n], vs[n];
    assert vs == front + [last];
    assert IsItem(texts[n], vs[n], false);
    assert [','] + "\n" == ",\n";
    if n == 0 {
      assert texts[..0] == [];
    } else {
      OpenArray(texts[..n], front);
      PrintItemsAppend(front, last);
      Rejoin(PrintItems(front), ",\n", Print(last), ",\n");
    }
  }

  /** The last entry closes it. */
  lemma CloseArray(front: seq<Value>, last: Value)
    requires front != []
    ensures PrintItems(front) + ",\n" + (Print(last) + ([']'] + "\n")) == PrintItems(front + [last]) + ([']'] + "\n")
  {
    PrintItemsAppend(front, last);
    Rejoin(PrintItems(front), ",\n", Print(last), [']'] + "\n");
  }

  lemma Enclose(items: seq<octet>)
    ensures ['['] + (items + ([']'] + "\n")) == ['['] + items + [']'] + ['\n']
  {
  }

  /** What all entries but the last have printed, put before the last. */
  lemma ItemsPrinted(texts: seq<seq<octet>>, vs: seq<Value>)
    requires |texts| == |vs| > 0
    requires forall i :: 0 <= i < |vs| ==> IsItem(texts[i], vs[i], i == |vs| - 1)
    ensures Concat(texts) == PrintItems(vs) + ([']'] + "\n")
  {
    var n := |vs| - 1;
    assert vs == vs[..n] + [vs[n]];
    assert IsItem(texts[n], vs[n], true);
    if n == 0 {
      assert texts[..0] == [];
      assert PrintItems(vs) == Print(vs[0]);
    } else {
      assert forall i :: 0 <= i < n ==> IsItem(texts[..n][i], vs[..n][i], false);
      OpenArray(texts[..n], vs[..n]);
      CloseArray(vs[..n], vs[n]);
    }
  }

  /** The whole text is the printed array, the brackets and the commas being chosen inside the loop. */
  lemma ClosedArray(texts: seq<seq<octet>>, vs: seq<Value>)
    requires |texts| == |vs| > 0
    requires forall i :: 0 <= i < |vs| ==> IsItem(texts[i], vs[i], i == |vs| - 1)
    ensures ['['] + Concat(texts) == Print(Arr(vs)) + ['\n']
  {
    ItemsPrinted(texts, vs);
    Enclose(PrintItems(vs));
  }

  /**
   * A JSON reader of the served text gets the list: for every record the octets of its name, its channel,
   * its signal and its authentication mode, in order. Only the empty list is not served as JSON.
   */
  lemma ListReadsBack(rs: seq<ApRecord>)
    ensures ReadDocument(ApListText(rs)) == if rs == [] then None else Some(Arr(ApValues(rs)))
  {
    if rs != [] {
      var texts, vs := OneAps(rs), ApValues(rs);
      forall i | 0 <= i < |vs|
        ensures IsItem(texts[i], vs[i], i == |vs| - 1)
      {
        OneApIsObject(rs[i], if i == |rs| - 1 then ']' else ',');
      }
      ClosedArray(texts, vs);
      BuiltIsConcat(texts, |texts|);
      assert texts[..|texts|] == texts;
      DocumentBack(Arr(vs));
    } else {
      assert ReadItems([], true).None?;
      assert ['['][1..] == [];
    }
  }

  /** Entry by entry, under the keys that the front end looks for. */
  lemma EntriesRead(rs: seq<ApRecord>, k: nat)
    requires k < |rs|
    ensures var d := ReadDocument(ApListText(rs));
            && d.Some? && d.value.Arr? && |d.value.items| == |rs|
            && d.value.items[k] == Obj([Member("ssid", Str(CString(rs[k].ssid))), Member("chan", Num(rs[k].primary)),
                                        Member("rssi", Num(rs[k].rssi)), Member("auth", Num(rs[k].authmode))])
  {
    hide ReadDocument;
    ListReadsBack(rs);
  }

  /** The text that is served before the first scan is an empty array. */
  lemma EmptyListReadsBack()
    ensures ReadDocument("[]\n") == Some(Arr([]))
  {
    DocumentBack(Arr([]));
    assert Print(Arr([])) + ['\n'] == "[]\n";
  }

  // ----- room

  /** `snprintf` never cuts the numbers off: whatever the fields hold, they fit. */
  lemma TailIsShort(r: ApRecord, end: octet)
    requires end != '\0'
    ensures |ApTail(r, end)| <= 45 < JSON_ONE_APP_SIZE
    ensures r.primary < 100 && 0 <= r.authmode < 10 ==> |ApTail(r, end)| <= 34
    ensures '\0' !in ApTail(r, end)
  {
    DecimalShort(r.primary);
    DecimalShort(r.rssi);
    DecimalShort(r.authmode);
  }

  // ----- the generator

  lemma JoinThree(text: seq<octet>, a: seq<octet>, b: seq<octet>, c: seq<octet>)
    ensures text + a + b + c == text + (a + b + c)
  {
  }

  /** `strcat`, `json_print_string` and `strcat` again. */
  method AppendParts(p: array<octet>, ghost text: seq<octet>, open: seq<octet>, name: seq<octet>, tail: seq<octet>)
    requires IsString(p[..], text)
    requires '\0' !in open && '\0' in name && '\0' !in tail
    requires |text| + |open| + |Quoted(CString(name))| + |tail| < p.Length
    modifies p
    ensures IsString(p[..], text + (open + Quoted(CString(name)) + tail))
    ensures SameBehind(p[..], old(p[..]), |text + (open + Quoted(CString(name)) + tail)|)
  {
    ghost var quoted := Quoted(CString(name));
    StrCat(p, text, open);
    AppendQuoted(p, text + open, name);
    StrCat(p, text + open + quoted, tail);
    JoinThree(text, open, quoted, tail);
  }

  /** One turn of the loop. */
  method AppendOneAp(json: array<octet>, ghost text: seq<octet>, ghost more: seq<octet>, ap: ApRecord, end: octet)
    requires more == OneAp(ap, end) && end != '\0'
    requires IsString(json[..], text)
    requires |text| + |more| < json.Length
    modifies json
    ensures IsString(json[..], text + more)
    ensures SameBehind(json[..], old(json[..]), |text + more|)
  {
    TailIsShort(ap, end);
    var oneAp := Truncate(ApTail(ap, end), JSON_ONE_APP_SIZE);
    AppendParts(json, text, "{\"ssid\":", ap.ssid, oneAp);
  }

  /** `strcpy(p, "[")` */
  method StartList(p: array<octet>)
    requires p.Length > 1
    modifies p
    ensures IsString(p[..], ['[']) && SameBehind(p[..], old(p[..]), 1)
  {
    StrCpy(p, 0, "[");
    assert p[0] == p[0..2][0] && p[1] == p[0..2][1];
  }

  /**
   * `wifi_manager_generate_acess_points_json`. `json` is the memory from the buffer on, which the code does not check
   * to end where the buffer does: the text and its terminator are all that is written, wherever they lead to.
   */
  method GenerateAccessPointsJson(json: array<octet>, records: array<ApRecord>, apNum: nat)
    requires apNum <= records.Length
    requires |ApListText(records[..apNum])| < json.Length
    modifies json
    ensures IsString(json[..], ApListText(records[..apNum]))
    ensures SameBehind(json[..], old(json[..]), |ApListText(records[..apNum])|)
  {
    ghost var texts := OneAps(records[..apNum]);
    BuiltGrows(texts, 0);
    StartList(json);
    ghost var text: seq<octet> := ['['];
    for i := 0 to apNum
      invariant text == Built(texts, i)
      invariant IsString(json[..], text)
      invariant SameBehind(json[..], old(json[..]), |text|)
    {
      BuiltGrows(texts, i + 1);
      AppendOneAp(json, text, texts[i], records[i], if i == apNum - 1 then ']' else ',');
      text := text + texts[i];
    }
  }

  /** `wifi_manager_clear_access_points_json` */
  method ClearAccessPointsJson(json: array<octet>)
    requires 3 < json.Length
    modifies json
    ensures IsString(json[..], "[]\n") && SameBehind(json[..], old(json[..]), 3)
    ensures ReadDocument(CString(json[..])) == Some(Arr([]))
  {
    StrCpy(json, 0, "[]\n");
    assert json[..3] == json[0..4][..3];
    assert json[3] == json[0..4][3];
    IsStringDenotes(json[..], "[]\n");
    EmptyListReadsBack();
  }

  /** The scan branch: the records are filtered in place, then printed; readers get one entry per network. */
  method RefreshAccessPoints(json: array<octet>, records: array<ApRecord>, apNum: nat) returns (total: nat)
    requires apNum <= records.Length
    requires |ApListText(Unique(records[..apNum]))| < json.Length
    modifies json, records
    ensures total == |Networks(old(records[..apNum]))|
    ensures ReadDocument(CString(json[..])) ==
            if total == 0 then None else Some(Arr(ApValues(Unique(old(records[..apNum])))))
    ensures SameBehind(json[..], old(json[..]), |ApListText(Unique(old(records[..apNum])))|)
  {
    hide Unique;
    hide Networks;
    hide ReadDocument;
    ghost var u := Unique(records[..apNum]);
    UniqueCount(records[..apNum]);
    total := FilterUnique(records, apNum);
    assert records[..total] == u && total == |u|;
    GenerateAccessPointsJson(json, records, total);
    IsStringDenotes(json[..], ApListText(u));
    ListReadsBack(u);
  }
}
