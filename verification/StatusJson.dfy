/** wifi_manager_generate_ip_info_json: the connection status as the text served at /status.json. */
module StatusJson {
  import opened CText
  import opened JsonString
  import opened JsonDocument
  import opened JsonPrint
  import opened Wrappers

  const JSON_IP_INFO_SIZE: nat := 150

  const UPDATE_CONNECTION_OK := 0
  const UPDATE_FAILED_ATTEMPT := 1
  const UPDATE_USER_DISCONNECT := 2

  const SSID_SIZE: nat := 32
  const PASSWORD_SIZE: nat := 64

  function Zeros(n: nat): (z: seq<octet>)
    ensures |z| == n && forall i :: 0 <= i < n ==> z[i] == '\0'
  {
    if n == 0 then [] else ['\0'] + Zeros(n - 1)
  }

  /** The two fields of `wifi_sta_config_t` that the firmware sets; the structure is zero behind them. */
  type StaSsid = s: seq<octet> | |s| == SSID_SIZE witness Zeros(SSID_SIZE)
  type StaPassword = s: seq<octet> | |s| == PASSWORD_SIZE witness Zeros(PASSWORD_SIZE)
  datatype StaConfig = StaConfig(ssid: StaSsid, password: StaPassword)

  /** `memset(config, 0, sizeof(wifi_config_t))` */
  const ZERO_CONFIG := StaConfig(Zeros(SSID_SIZE), Zeros(PASSWORD_SIZE))

  /** What the accepting branch of POST /connect.json leaves in the configuration. */
  function Credentials(ssid: seq<octet>, password: seq<octet>): StaConfig
    requires |ssid| <= SSID_SIZE && |password| <= PASSWORD_SIZE
  {
    StaConfig(ssid + Zeros(SSID_SIZE - |ssid|), password + Zeros(PASSWORD_SIZE - |password|))
  }

  lemma FieldEnds(field: seq<octet>, text: seq<octet>, size: nat)
    requires |text| <= size && '\0' !in text && field == text + Zeros(size - |text|)
    ensures CString(field + ['\0']) == text
  {
    if |text| < size {
      assert field + ['\0'] == text + ['\0'] + (field + ['\0'])[|text| + 1..];
      CStringOf(text, (field + ['\0'])[|text| + 1..]);
    } else {
      assert field + ['\0'] == text + ['\0'] + [];
      CStringOf(text, []);
    }
  }

  /** Both fields hold their text and nothing behind it: what the driver reads in them is what was posted. */
  lemma CredentialsExact(ssid: seq<octet>, password: seq<octet>)
    requires |ssid| <= SSID_SIZE && |password| <= PASSWORD_SIZE
    ensures var c := Credentials(ssid, password);
            && |c.ssid| == 32 && c.ssid[..|ssid|] == ssid && (forall k :: |ssid| <= k < 32 ==> c.ssid[k] == '\0')
            && |c.password| == 64 && c.password[..|password|] == password
            && (forall k :: |password| <= k < 64 ==> c.password[k] == '\0')
            && ('\0' !in ssid ==> CString(c.ssid + ['\0']) == ssid)
            && ('\0' !in password ==> CString(c.password + ['\0']) == password)
  {
    var c := Credentials(ssid, password);
    if '\0' !in ssid {
      FieldEnds(c.ssid, ssid, SSID_SIZE);
    }
    if '\0' !in password {
      FieldEnds(c.password, password, PASSWORD_SIZE);
    }
  }

  /** The string that a pointer to the name denotes; it runs on into the password if the name fills its field. */
  function ShownName(config: StaConfig): seq<octet> {
    CString(config.ssid + config.password + ['\0'])
  }

  /**
   * A status text shows the name that was asked for exactly when the name leaves room for a terminator
   * or there is nothing behind it to run on into.
   */
  lemma ShownNameExact(ssid: seq<octet>, password: seq<octet>)
    requires |ssid| <= SSID_SIZE && |password| <= PASSWORD_SIZE
    requires '\0' !in ssid && '\0' !in password
    ensures ShownName(Credentials(ssid, password)) == ssid <==> |ssid| < SSID_SIZE || password == []
  {
    var c := Credentials(ssid, password);
    var all := c.ssid + c.password + ['\0'];
    if |ssid| < SSID_SIZE {
      assert c.ssid[|ssid|] == '\0';
      assert all == ssid + ['\0'] + all[|ssid| + 1..];
      CStringOf(ssid, all[|ssid| + 1..]);
    } else {
      var text := ssid + password;
      var n := |text|;
      assert all[..n] == text;
      assert all[n] == '\0' by {
        if n < SSID_SIZE + PASSWORD_SIZE { assert c.password[|password|] == '\0'; }
      }
      assert all == text + ['\0'] + all[n + 1..];
      CStringOf(text, all[n + 1..]);
    }
  }

  lemma ZeroConfigShowsNothing()
    ensures ShownName(ZERO_CONFIG) == []
  {
  }

  // ----- the text

  /** What `snprintf` prints behind the name. */
  function StatusTail(ip: seq<octet>, netmask: seq<octet>, gw: seq<octet>, urc: int): seq<octet> {
    ",\"ip\":\"" + ip + "\",\"netmask\":\"" + netmask + "\",\"gw\":\"" + gw + "\",\"urc\":" + Decimal(urc) + "}\n"
  }

  function StatusText(name: seq<octet>, ip: seq<octet>, netmask: seq<octet>, gw: seq<octet>, urc: int): seq<octet> {
    "{\"ssid\":" + Quoted(name) + StatusTail(ip, netmask, gw, urc)
  }

  function StatusValue(name: seq<octet>, ip: seq<octet>, netmask: seq<octet>, gw: seq<octet>, urc: int): Value {
    Obj([Member("ssid", Str(name)), Member("ip", Str(ip)), Member("netmask", Str(netmask)), Member("gw", Str(gw)),
         Member("urc", Num(urc))])
  }

  /** Dotted decimal addresses, and the "0" that stands for none. */
  predicate IsAddress(s: seq<octet>) {
    |s| <= 15 && forall i :: 0 <= i < |s| ==> s[i] == '.' || IsDigit(s[i])
  }

  lemma NoAddress()
    ensures IsAddress("0")
  {
  }

  lemma FivePrinted(m1: Member, m2: Member, m3: Member, m4: Member, m5: Member)
    ensures Print(Obj([m1, m2, m3, m4, m5])) ==
            ['{'] + (PrintMember(m1) + [','] + (PrintMember(m2) + [','] + (PrintMember(m3) + [',']
            + (PrintMember(m4) + [','] + PrintMember(m5))))) + ['}']
  {
    PrintMembersCons(m4, [m5]);
    PrintMembersCons(m3, [m4, m5]);
    PrintMembersCons(m2, [m3, m4, m5]);
    PrintMembersCons(m1, [m2, m3, m4, m5]);
    assert [m1, m2, m3, m4, m5] == [m1] + [m2, m3, m4, m5];
    assert [m2, m3, m4, m5] == [m2] + [m3, m4, m5];
    assert [m3, m4, m5] == [m3] + [m4, m5];
    assert [m4, m5] == [m4] + [m5];
  }

  lemma AddressPrinted(s: seq<octet>)
    requires IsAddress(s)
    ensures Print(Str(s)) == ['\"'] + s + ['\"']
  {
    forall i | 0 <= i < |s|
      ensures IsPlain(s[i])
    {
    }
    PlainText(s);
  }

  lemma ValuePrinted(name: seq<octet>, ip: seq<octet>, netmask: seq<octet>, gw: seq<octet>, urc: int)
    requires IsAddress(ip) && IsAddress(netmask) && IsAddress(gw)
    ensures Print(StatusValue(name, ip, netmask, gw, urc)) ==
            ['{'] + ((KeyOf("ssid") + Quoted(name)) + [','] + ((KeyOf("ip") + (['\"'] + ip + ['\"'])) + [',']
            + ((KeyOf("netmask") + (['\"'] + netmask + ['\"'])) + [',']
            + ((KeyOf("gw") + (['\"'] + gw + ['\"'])) + [','] + (KeyOf("urc") + Decimal(urc)))))) + ['}']
  {
    hide KeyOf;
    hide PrintMember;
    FivePrinted(Member("ssid", Str(name)), Member("ip", Str(ip)), Member("netmask", Str(netmask)),
                Member("gw", Str(gw)), Member("urc", Num(urc)));
    PlainKey("ssid", Str(name));
    PlainKey("ip", Str(ip));
    PlainKey("netmask", Str(netmask));
    PlainKey("gw", Str(gw));
    PlainKey("urc", Num(urc));
    AddressPrinted(ip);
    AddressPrinted(netmask);
    AddressPrinted(gw);
  }

  lemma TextPrinted(name: seq<octet>, ip: seq<octet>, netmask: seq<octet>, gw: seq<octet>, urc: int)
    ensures StatusText(name, ip, netmask, gw, urc) ==
            (['{'] + KeyOf("ssid")) + Quoted(name)
            + (([','] + KeyOf("ip") + ['\"']) + ip + (['\"', ','] + KeyOf("netmask") + ['\"']) + netmask
               + (['\"', ','] + KeyOf("gw") + ['\"']) + gw + (['\"', ','] + KeyOf("urc")) + Decimal(urc)
               + (['}'] + ['\n']))
  {
    assert "{\"ssid\":" == ['{'] + KeyOf("ssid");
    assert ",\"ip\":\"" == [','] + KeyOf("ip") + ['\"'];
    assert "\",\"netmask\":\"" == ['\"', ','] + KeyOf("netmask") + ['\"'];
    assert "\",\"gw\":\"" == ['\"', ','] + KeyOf("gw") + ['\"'];
    assert "\",\"urc\":" == ['\"', ','] + KeyOf("urc");
    assert "}\n" == ['}'] + ['\n'];
  }

  lemma FiveMembers(k1: seq<octet>, v1: seq<octet>, k2: seq<octet>, v2: seq<octet>, k3: seq<octet>, v3: seq<octet>,
                    k4: seq<octet>, v4: seq<octet>, k5: seq<octet>, v5: seq<octet>)
    ensures (['{'] + k1) + v1
            + (([','] + k2 + ['\"']) + v2 + (['\"', ','] + k3 + ['\"']) + v3
               + (['\"', ','] + k4 + ['\"']) + v4 + (['\"', ','] + k5) + v5 + (['}'] + ['\n']))
         == ['{'] + ((k1 + v1) + [','] + ((k2 + (['\"'] + v2 + ['\"'])) + [','] + ((k3 + (['\"'] + v3 + ['\"'])) + [',']
            + ((k4 + (['\"'] + v4 + ['\"'])) + [','] + (k5 + v5))))) + ['}'] + ['\n']
  {
    var t5 := k5 + v5 + (['}'] + ['\n']);
    var t4 := (k4 + (['\"'] + v4 + ['\"'])) + [','] + t5;
    var t3 := (k3 + (['\"'] + v3 + ['\"'])) + [','] + t4;
    var t2 := (k2 + (['\"'] + v2 + ['\"'])) + [','] + t3;
    var s2 := ([','] + k2 + ['\"']) + v2;
    var s3 := (['\"', ','] + k3 + ['\"']) + v3;
    var s4 := (['\"', ','] + k4 + ['\"']) + v4;
    assert s4 + (['\"', ','] + k5) + v5 + (['}'] + ['\n']) == ['\"', ','] + t4;
    assert s3 + (['\"', ','] + t4) == ['\"', ','] + t3;
    assert s2 + (['\"', ','] + t3) == [','] + t2;
    assert ([','] + k2 + ['\"']) + v2 + (['\"', ','] + k3 + ['\"']) + v3
           + (['\"', ','] + k4 + ['\"']) + v4 + (['\"', ','] + k5) + v5 + (['}'] + ['\n'])
        == s2 + (s3 + (s4 + (['\"', ','] + k5) + v5 + (['}'] + ['\n'])));
    var u5 := k5 + v5;
    var u4 := (k4 + (['\"'] + v4 + ['\"'])) + [','] + u5;
    var u3 := (k3 + (['\"'] + v3 + ['\"'])) + [','] + u4;
    var u2 := (k2 + (['\"'] + v2 + ['\"'])) + [','] + u3;
    assert u4 + ['}'] + ['\n'] == t4;
    assert u3 + ['}'] + ['\n'] == t3;
    assert u2 + ['}'] + ['\n'] == t2;
  }

  /** A JSON reader of the status text gets the name, the addresses and the reason code. */
  lemma StatusReadsBack(name: seq<octet>, ip: seq<octet>, netmask: seq<octet>, gw: seq<octet>, urc: int)
    requires IsAddress(ip) && IsAddress(netmask) && IsAddress(gw)
    ensures ReadDocument(StatusText(name, ip, netmask, gw, urc)) == Some(StatusValue(name, ip, netmask, gw, urc))
  {
    TextPrinted(name, ip, netmask, gw, urc);
    FiveMembers(KeyOf("ssid"), Quoted(name), KeyOf("ip"), ip, KeyOf("netmask"), netmask, KeyOf("gw"), gw,
                KeyOf("urc"), Decimal(urc));
    ValuePrinted(name, ip, netmask, gw, urc);
    DocumentBack(StatusValue(name, ip, netmask, gw, urc));
  }

  /** The text of a cleared status is an empty object. */
  lemma ClearedReadsBack()
    ensures ReadDocument("{}\n") == Some(Obj([]))
  {
    DocumentBack(Obj([]));
    assert Print(Obj([])) + ['\n'] == "{}\n";
  }

  /** The numbers and addresses are never cut off. */
  lemma TailIsShort(ip: seq<octet>, netmask: seq<octet>, gw: seq<octet>, urc: int)
    requires IsAddress(ip) && IsAddress(netmask) && IsAddress(gw) && 0 <= urc < 10
    ensures |StatusTail(ip, netmask, gw, urc)| <= 84 < JSON_IP_INFO_SIZE
    ensures '\0' !in StatusTail(ip, netmask, gw, urc)
  {
    DecimalShort(urc);
  }

  /** What a status text takes besides the name, escaped, and the addresses. */
  const STATUS_FRAME: nat := 49

  lemma StatusSize(name: seq<octet>, ip: seq<octet>, netmask: seq<octet>, gw: seq<octet>, urc: int)
    requires 0 <= urc < 10
    ensures |StatusText(name, ip, netmask, gw, urc)| == STATUS_FRAME + |Escape(name)| + |ip| + |netmask| + |gw|
  {
    DecimalShort(urc);
  }

  /** The buffer's 150 octets hold the text and its terminator exactly when name and addresses take at most 100. */
  lemma StatusFits(name: seq<octet>, ip: seq<octet>, netmask: seq<octet>, gw: seq<octet>, urc: int)
    requires 0 <= urc < 10
    ensures |StatusText(name, ip, netmask, gw, urc)| < JSON_IP_INFO_SIZE
            <==> |Escape(name)| + |ip| + |netmask| + |gw| <= 100
  {
    StatusSize(name, ip, netmask, gw, urc);
  }

  /** Which is so for a name that ends in its field, whatever the addresses, if escaping adds at most 23 octets. */
  lemma OrdinaryStatusFits(name: seq<octet>, ip: seq<octet>, netmask: seq<octet>, gw: seq<octet>, urc: int)
    requires IsAddress(ip) && IsAddress(netmask) && IsAddress(gw) && 0 <= urc < 10
    requires |name| <= SSID_SIZE && |Escape(name)| <= |name| + 23
    ensures |StatusText(name, ip, netmask, gw, urc)| < JSON_IP_INFO_SIZE
  {
    StatusFits(name, ip, netmask, gw, urc);
  }

  function Repeated(c: octet, n: nat): (s: seq<octet>)
    ensures |s| == n && forall i :: 0 <= i < n ==> s[i] == c
  {
    seq(n, _ => c)
  }

  // ----- the generator

  /** The addresses a status text carries: the interface's own only after a success. */
  function Address(urc: int, own: seq<octet>): seq<octet> {
    if urc == UPDATE_CONNECTION_OK then own else "0"
  }

  function StatusOf(config: Option<StaConfig>, ip: seq<octet>, netmask: seq<octet>, gw: seq<octet>, urc: int)
    : seq<octet>
  {
    match config
    case None => "{}\n"
    case Some(c) => StatusText(ShownName(c), Address(urc, ip), Address(urc, netmask), Address(urc, gw), urc)
  }

  /**
   * Nothing about the credentials has to be unusual: with all 32 octets of the name and all 64 of the password in use
   * the name runs on to 96, and every success whose addresses take five octets or more is longer than the buffer.
   */
  lemma FullCredentialsOverrun(ip: seq<octet>, netmask: seq<octet>, gw: seq<octet>)
    ensures var c := Credentials(Repeated('a', SSID_SIZE), Repeated('b', PASSWORD_SIZE));
            |StatusOf(Some(c), ip, netmask, gw, UPDATE_CONNECTION_OK)| >= JSON_IP_INFO_SIZE
            <==> |ip| + |netmask| + |gw| >= 5
  {
    var name, password := Repeated('a', SSID_SIZE), Repeated('b', PASSWORD_SIZE);
    var c := Credentials(name, password);
    assert c.ssid == name && c.password == password;
    var all := name + password;
    assert c.ssid + c.password + ['\0'] == all + ['\0'] + [];
    CStringOf(all, []);
    PlainText(all);
    StatusFits(all, ip, netmask, gw, UPDATE_CONNECTION_OK);
  }

  /** What a reader gets of the text that a report is served as: the addresses of the interface after a success only. */
  lemma ReportReadsBack(config: StaConfig, ip: seq<octet>, netmask: seq<octet>, gw: seq<octet>, urc: int)
    requires urc == 0 ==> IsAddress(ip) && IsAddress(netmask) && IsAddress(gw)
    ensures ReadDocument(StatusOf(Some(config), ip, netmask, gw, urc)) ==
            Some(Obj([Member("ssid", Str(ShownName(config))),
                      Member("ip", Str(if urc == 0 then ip else "0")),
                      Member("netmask", Str(if urc == 0 then netmask else "0")),
                      Member("gw", Str(if urc == 0 then gw else "0")),
                      Member("urc", Num(urc))]))
  {
    NoAddress();
    StatusReadsBack(ShownName(config), Address(urc, ip), Address(urc, netmask), Address(urc, gw), urc);
  }

  /** A wiped configuration always fits. */
  lemma ZeroConfigFits(ip: seq<octet>, netmask: seq<octet>, gw: seq<octet>)
    ensures |StatusOf(Some(ZERO_CONFIG), ip, netmask, gw, UPDATE_USER_DISCONNECT)| < JSON_IP_INFO_SIZE
  {
    ZeroConfigShowsNothing();
    StatusFits([], "0", "0", "0", UPDATE_USER_DISCONNECT);
  }

  /** `memset(p, 0, size)` */
  method Clear(p: array<octet>, size: nat)
    requires size <= p.Length
    modifies p
    ensures p[..size] == Zeros(size) && p[size..] == old(p[size..])
  {
    for i := 0 to size
      invariant forall k :: 0 <= k < i ==> p[k] == '\0'
      invariant p[size..] == old(p[size..])
    {
      p[i] := '\0';
    }
  }

  /** `strcpy(p, text)` */
  method SetText(p: array<octet>, text: seq<octet>)
    requires '\0' !in text && |text| < p.Length
    modifies p
    ensures IsString(p[..], text) && SameBehind(p[..], old(p[..]), |text|)
  {
    StrCpy(p, 0, text);
    ghost var n := |text|;
    assert p[..n] == p[0..n + 1][..n];
    assert p[n] == p[0..n + 1][n];
  }

  /** `wifi_manager_clear_ip_info_json` */
  method ClearIpInfoJson(json: array<octet>)
    requires 3 < json.Length
    modifies json
    ensures IsString(json[..], "{}\n") && SameBehind(json[..], old(json[..]), 3)
    ensures ReadDocument(CString(json[..])) == Some(Obj([]))
  {
    SetText(json, "{}\n");
    IsStringDenotes(json[..], "{}\n");
    ClearedReadsBack();
  }

  function Max(m: nat, n: nat): nat {
    if m < n then n else m
  }

  /** The body of the generator, for the memory that a pointer to the name leads to. */
  method WriteStatus(json: array<octet>, field: seq<octet>, tail: seq<octet>)
    requires '\0' in field && '\0' !in tail && |tail| < JSON_IP_INFO_SIZE
    requires Max(JSON_IP_INFO_SIZE, |"{\"ssid\":" + Quoted(CString(field)) + tail| + 1) <= json.Length
    modifies json
    ensures var text := "{\"ssid\":" + Quoted(CString(field)) + tail;
            IsString(json[..], text) && SameBehind(json[..], old(json[..]), Max(JSON_IP_INFO_SIZE - 1, |text|))
  {
    ghost var was := json[..];
    Clear(json, JSON_IP_INFO_SIZE);
    assert forall k :: JSON_IP_INFO_SIZE <= k < json.Length ==>
                         json[k] == json[JSON_IP_INFO_SIZE..][k - JSON_IP_INFO_SIZE];
    assert SameBehind(json[..], was, JSON_IP_INFO_SIZE - 1);
    ghost var head := "{\"ssid\":";
    SetText(json, "{\"ssid\":");
    AppendQuoted(json, head, field);
    StrCat(json, head + Quoted(CString(field)), Truncate(tail, JSON_IP_INFO_SIZE));
  }

  /**
   * `wifi_manager_generate_ip_info_json`. `json` is the memory from the buffer on; the code does not check that the
   * text ends where the buffer does. All that is written is the buffer and the text with its terminator.
   */
  method GenerateIpInfoJson(json: array<octet>, config: Option<StaConfig>, ip: seq<octet>, netmask: seq<octet>,
                            gw: seq<octet>, urc: int)
    requires 0 <= urc < 10
    requires urc == UPDATE_CONNECTION_OK ==> IsAddress(ip) && IsAddress(netmask) && IsAddress(gw)
    requires Max(JSON_IP_INFO_SIZE, |StatusOf(config, ip, netmask, gw, urc)| + 1) <= json.Length
    modifies json
    ensures IsString(json[..], StatusOf(config, ip, netmask, gw, urc))
    ensures ReadDocument(CString(json[..])) ==
            match config
            case None => Some(Obj([]))
            case Some(c) => Some(Obj([Member("ssid", Str(ShownName(c))),
                                      Member("ip", Str(if urc == 0 then ip else "0")),
                                      Member("netmask", Str(if urc == 0 then netmask else "0")),
                                      Member("gw", Str(if urc == 0 then gw else "0")),
                                      Member("urc", Num(urc))]))
    ensures SameBehind(json[..], old(json[..]), Max(JSON_IP_INFO_SIZE - 1, |StatusOf(config, ip, netmask, gw, urc)|))
  {
    hide ReadDocument;
    hide CString;
    hide IsAddress;
    NoAddress();
    match config
    case None =>
      ClearIpInfoJson(json);
    case Some(c) =>
      var tail := StatusTail(Address(urc, ip), Address(urc, netmask), Address(urc, gw), urc);
      TailIsShort(Address(urc, ip), Address(urc, netmask), Address(urc, gw), urc);
      WriteStatus(json, c.ssid + c.password + ['\0'], tail);
      IsStringDenotes(json[..], StatusOf(config, ip, netmask, gw, urc));
      ReportReadsBack(c, ip, netmask, gw, urc);
  }
}
