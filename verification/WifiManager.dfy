/** main/wifi_manager.c as imperative code: what its functions and the stretches of its loop between two waits do. */
module WifiManager {
  import opened Wrappers
  import opened CText
  import opened JsonDocument
  import opened ScanList
  import opened ApListJson
  import opened StatusJson
  import opened WifiLoop
  import opened WifiMutex
  import WifiHonesty

  // ----- stretches of the loop as a whole

  /** From the end of a disconnection to the end of its handler. */
  function ForgetRound(s: State, world: World): State {
    s.(radio := ClearLost(s.radio),
       files := s.files.(config := ZERO_CONFIG, nvs := Some(ZERO_CONFIG)),
       board := s.board.(status := Whole(StatusReport(Left, ZERO_CONFIG, world))),
       requests := s.requests.(disconnect := false),
       manager := Second(s.snapshot),
       past := History(s.past.verdicts + [Left], Forgotten))
  }

  /** From the end of a disconnection to the wait for the result of a new attempt. */
  function ConnectRound(s: State): State {
    s.(radio := Attempt(ClearLost(s.radio)), files := s.files.(used := s.files.config), manager := AwaitingResult)
  }

  /** From the result of an attempt to the end of its handler. */
  function VerdictRound(s: State, world: World): State {
    var v := Judge(s.radio);
    s.(files := if v.Joined? then s.files.(nvs := Some(s.files.config))
                else s.files.(config := ZERO_CONFIG, nvs := None),
       board := s.board.(status := Whole(StatusReport(v, s.files.config, world))),
       requests := s.requests.(connect := false),
       manager := Idle,
       past := History(s.past.verdicts + [v], if v.Joined? then Kept(s.files.used) else Forgotten))
  }

  /** A scan, to the end of its iteration. */
  function ScanRound(s: State, world: World): State {
    s.(board := if world.locks then s.board.(list := Whole(Listed(Unique(world.records)))) else s.board,
       requests := s.requests.(scan := false),
       manager := Idle)
  }

  /** An accepted POST, from the first octet it writes to the request bit it sets. */
  function PostRound(s: State, ssid: seq<octet>, password: seq<octet>): State
    requires |ssid| <= SSID_SIZE && |password| <= PASSWORD_SIZE
  {
    s.(files := s.files.(config := Credentials(ssid, password)),
       board := s.board.(status := Whole(Cleared)),
       requests := s.requests.(connect := true))
  }

  function Repeat(a: Action, k: nat): (acts: seq<Action>)
    ensures |acts| == k
  {
    if k == 0 then [] else [a] + Repeat(a, k - 1)
  }

  /** The run that does `a` again and again leads there. */
  ghost predicate Repeats(s: State, a: Action, k: nat, t: State) {
    IsRun(s, Repeat(a, k)) && After(s, Repeat(a, k)) == t
  }

  lemma RepeatsCons(s: State, a: Action, k: nat, t: State)
    requires Enabled(s, a) && Repeats(Do(s, a), a, k, t)
    ensures Repeats(s, a, k + 1, t)
  {
    assert Repeat(a, k + 1)[1..] == Repeat(a, k);
  }

  lemma RepeatsNone(s: State, a: Action)
    ensures Repeats(s, a, 0, s)
  {
  }

  lemma UnlockedIsRun(s: State, world: World, v: Verdict)
    requires s.manager == Unlocking(v)
    ensures var p := if v.Left? then ToForget else ToJoin;
            var t := s.(board := s.board.(holder := Nobody), manager := if v.Left? then Second(s.snapshot) else Idle,
                        requests := ManagerRequests(Finishing(p), s.requests));
            Repeats(s, ManagerSteps(world), 2, t)
  {
    var a := ManagerSteps(world);
    var s1 := Do(s, a);
    var s2 := Do(s1, a);
    RepeatsNone(s2, a);
    RepeatsCons(s1, a, 0, s2);
    RepeatsCons(s, a, 1, s2);
  }

  lemma PublishIsRun(s: State, world: World, v: Verdict, k: nat, t: State)
    requires s.manager == Locking(v) && s.board.holder.Nobody?
    requires Repeats(s.(board := Board(Manager, Whole(StatusReport(v, s.files.config, world)), s.board.list),
                        manager := AfterReport(v), past := s.past.(verdicts := s.past.verdicts + [v])),
                     ManagerSteps(world), k, t)
    ensures Repeats(s, ManagerSteps(world), k + 3, t)
  {
    var a := ManagerSteps(world);
    var s1 := Do(s, a);
    var s2 := Do(s1, a);
    RepeatsCons(s2, a, k, t);
    RepeatsCons(s1, a, k + 1, t);
    RepeatsCons(s, a, k + 2, t);
  }

  lemma ForgetRoundIsRun(s: State, world: World)
    requires s.manager == Resetting(ToForget) && s.board.holder.Nobody?
    ensures Repeats(s, ManagerSteps(world), 8, ForgetRound(s, world))
  {
    var a := ManagerSteps(world);
    var t := ForgetRound(s, world);
    var s1 := Do(s, a);
    var s2 := Do(s1, a);
    var s3 := Do(s2, a);
    var u := s3.(board := Board(Manager, Whole(StatusReport(Left, ZERO_CONFIG, world)), s.board.list),
                 manager := Unlocking(Left), past := s3.past.(verdicts := s.past.verdicts + [Left]));
    UnlockedIsRun(u, world, Left);
    assert Repeats(u, a, 2, t);
    PublishIsRun(s3, world, Left, 2, t);
    RepeatsCons(s2, a, 5, t);
    RepeatsCons(s1, a, 6, t);
    RepeatsCons(s, a, 7, t);
  }

  lemma ConnectRoundIsRun(s: State, world: World)
    requires s.manager == Resetting(ToJoin)
    ensures Repeats(s, ManagerSteps(world), 3, ConnectRound(s))
  {
    var a := ManagerSteps(world);
    var s1 := Do(s, a);
    var s2 := Do(s1, a);
    RepeatsNone(Do(s2, a), a);
    RepeatsCons(s2, a, 0, ConnectRound(s));
    RepeatsCons(s1, a, 1, ConnectRound(s));
    RepeatsCons(s, a, 2, ConnectRound(s));
  }

  lemma StoredIsRun(s: State, world: World, v: Verdict)
    requires s.manager == AfterReport(v) && !v.Left?
    ensures var t := s.(board := s.board.(holder := Nobody), manager := Idle,
                        requests := s.requests.(connect := false),
                        files := if v.Joined? then s.files.(nvs := Some(s.files.config))
                                 else s.files.(config := ZERO_CONFIG, nvs := None),
                        past := s.past.(stored := if v.Joined? then Kept(s.files.used) else Forgotten));
            Repeats(s, ManagerSteps(world), if v.Joined? then 3 else 4, t)
  {
    var a := ManagerSteps(world);
    var s1 := Do(s, a);
    if v.Joined? {
      UnlockedIsRun(s1, world, v);
      RepeatsCons(s, a, 2, After(s1, Repeat(a, 2)));
    } else {
      var s2 := Do(s1, a);
      UnlockedIsRun(s2, world, v);
      var t := After(s2, Repeat(a, 2));
      RepeatsCons(s1, a, 2, t);
      RepeatsCons(s, a, 3, t);
    }
  }

  /** The code that follows the wait for a result is a run of the transition system when the mutex is free. */
  lemma VerdictRoundIsRun(s: State, world: World)
    requires s.manager.AwaitingResult? && (s.radio.connected || s.radio.lost) && s.board.holder.Nobody?
    ensures Repeats(s, ManagerSteps(world), if s.radio.connected then 7 else 8, VerdictRound(s, world))
  {
    var a := ManagerSteps(world);
    var v := Judge(s.radio);
    var k := if v.Joined? then 3 else 4;
    var s1 := Do(s, a);
    var u := s1.(board := Board(Manager, Whole(StatusReport(v, s.files.config, world)), s.board.list),
                 manager := AfterReport(v), past := s.past.(verdicts := s.past.verdicts + [v]));
    StoredIsRun(u, world, v);
    PublishIsRun(s1, world, v, k, VerdictRound(s, world));
    RepeatsCons(s, a, k + 3, VerdictRound(s, world));
  }

  lemma ListWrittenIsRun(s: State, world: World, records: seq<ApRecord>)
    requires s.manager == ListErasing(records)
    ensures Repeats(s, ManagerSteps(world), 4,
                    s.(board := s.board.(holder := Nobody, list := Whole(Listed(Unique(records)))),
                       requests := s.requests.(scan := false), manager := Idle))
  {
    var a := ManagerSteps(world);
    var s1 := Do(s, a);
    var s2 := Do(s1, a);
    var s3 := Do(s2, a);
    var t := Do(s3, a);
    RepeatsNone(t, a);
    RepeatsCons(s3, a, 0, t);
    RepeatsCons(s2, a, 1, t);
    RepeatsCons(s1, a, 2, t);
    RepeatsCons(s, a, 3, t);
  }

  lemma ScanSkippedIsRun(s: State, world: World)
    requires s.manager.FinishingScan?
    ensures Repeats(s, ManagerSteps(world), 1, s.(requests := s.requests.(scan := false), manager := Idle))
  {
    var a := ManagerSteps(world);
    RepeatsNone(Do(s, a), a);
    RepeatsCons(s, a, 0, Do(s, a));
  }

  lemma ScanRoundIsRun(s: State, world: World)
    requires s.manager.Scanning? && s.board.holder.Nobody?
    ensures Repeats(s, ManagerSteps(world), if world.locks then 6 else 3, ScanRound(s, world))
  {
    var a := ManagerSteps(world);
    var t := ScanRound(s, world);
    var s1 := Do(s, a);
    var s2 := Do(s1, a);
    if world.locks {
      ListWrittenIsRun(s2, world, world.records);
      assert Repeats(s2, a, 4, t);
      RepeatsCons(s1, a, 4, t);
      RepeatsCons(s, a, 5, t);
    } else {
      ScanSkippedIsRun(s2, world);
      assert Repeats(s2, a, 1, t);
      RepeatsCons(s1, a, 1, t);
      RepeatsCons(s, a, 2, t);
    }
  }

  lemma PostRoundIsRun(s: State, ssid: seq<octet>, password: seq<octet>)
    requires Enabled(s, HttpPosts(ssid, password)) && s.board.holder.Nobody?
    ensures Repeats(Do(s, HttpPosts(ssid, password)), HttpSteps, 5, PostRound(s, ssid, password))
  {
    var a := HttpSteps;
    var t := PostRound(s, ssid, password);
    var s1 := Do(s, HttpPosts(ssid, password));
    var s2 := Do(s1, a);
    var s3 := Do(s2, a);
    var s4 := Do(s3, a);
    var s5 := Do(s4, a);
    RepeatsNone(Do(s5, a), a);
    RepeatsCons(s5, a, 0, t);
    RepeatsCons(s4, a, 1, t);
    RepeatsCons(s3, a, 2, t);
    RepeatsCons(s2, a, 3, t);
    RepeatsCons(s1, a, 4, t);
  }

  // ----- the code

  /** The interface has addresses to show, and the memory from the buffer on does not end before the text. */
  predicate Fits(status: Status, memory: nat) {
    status.Report? ==>
      && 0 <= status.urc < 10
      && (status.urc == UPDATE_CONNECTION_OK ==>
            IsAddress(status.ip) && IsAddress(status.netmask) && IsAddress(status.gw))
      && |StatusServed(status)| < memory
  }

  lemma ForgottenFits(world: World, memory: nat)
    requires JSON_IP_INFO_SIZE <= memory
    ensures Fits(StatusReport(Left, ZERO_CONFIG, world), memory)
  {
    ZeroConfigFits(world.ip, world.netmask, world.gw);
  }

  /** What lies behind a buffer of this size changes only if the text is too long for it. */
  ghost predicate Contained(now: seq<octet>, was: seq<octet>, text: seq<octet>, size: nat) {
    |text| < size ==> SameBehind(now, was, size - 1)
  }

  lemma BootedState(saved: Option<StaConfig>, config: StaConfig, requests: Requests)
    requires Fetched(requests.connect, config) == Fetch(saved) && requests == NO_REQUESTS.(connect := requests.connect)
    ensures Boot(saved) ==
            State(Radio(Down, [], 0, false, 0, false, 0), requests, Board(Nobody, Whole(Cleared), Whole(Empty)),
                  Files(config, ZERO_CONFIG, saved), Idle, Snapshot(false, NO_REQUESTS), Ready, History([], Untouched))
  {
  }

  /**
   * The globals of wifi_manager.c, the driver and flash, while neither task is in the middle of a stretch. The two
   * arrays are the memory from each buffer on: the code does not check that a text ends where its buffer does.
   */
  class Station {
    var radio: Radio
    var requests: Requests
    var holder: Holder
    var config: StaConfig
    var nvs: Option<StaConfig>
    const ipInfoJson: array<octet>
    const accesspJson: array<octet>
    ghost var used: StaConfig
    ghost var status: Status
    ghost var list: List
    ghost var past: History

    /** The buffers hold the texts that are to be served. */
    ghost predicate Valid()
      reads this, ipInfoJson, accesspJson
    {
      && ipInfoJson != accesspJson
      && JSON_IP_INFO_SIZE <= ipInfoJson.Length && ACCESSP_JSON_SIZE <= accesspJson.Length
      && IsString(ipInfoJson[..], StatusServed(status))
      && IsString(accesspJson[..], ListServed(list))
    }

    /** With the program counter of the manager and the bits its iteration looks at. */
    ghost function View(pc: ManagerPc, w: Snapshot): State
      reads this
    {
      State(radio, requests, Board(holder, Whole(status), Whole(list)), Files(config, used, nvs), pc, w, Ready, past)
    }

    /** Both texts before anything has happened */
    method ClearBuffers()
      requires ipInfoJson != accesspJson && status.Cleared? && list.Empty?
      requires JSON_IP_INFO_SIZE <= ipInfoJson.Length && ACCESSP_JSON_SIZE <= accesspJson.Length
      modifies ipInfoJson, accesspJson
      ensures Valid()
      ensures ReadDocument(CString(ipInfoJson[..])) == Some(Obj([]))
      ensures ReadDocument(CString(accesspJson[..])) == Some(Arr([]))
    {
      hide ReadDocument;
      hide IsString;
      StatusJson.ClearIpInfoJson(ipInfoJson);
      ClearAccessPointsJson(accesspJson);
      assert ListServed(list) == "[]\n" && StatusServed(status) == "{}\n";
    }

    /** The rest of what `wifi_manager` does before its loop, with the globals as the linker leaves them */
    method Start()
      requires ipInfoJson != accesspJson && status.Cleared? && list.Empty?
      requires JSON_IP_INFO_SIZE <= ipInfoJson.Length && ACCESSP_JSON_SIZE <= accesspJson.Length
      requires config == ZERO_CONFIG && used == ZERO_CONFIG && requests == NO_REQUESTS && holder.Nobody?
      requires radio == Radio(Down, [], 0, false, 0, false, 0) && past == History([], Untouched)
      modifies this`config, this`requests, ipInfoJson, accesspJson
      ensures Valid()
      ensures ReadDocument(CString(ipInfoJson[..])) == Some(Obj([]))
      ensures ReadDocument(CString(accesspJson[..])) == Some(Arr([]))
      ensures View(Idle, Snapshot(false, NO_REQUESTS)) == Boot(nvs)
    {
      hide Boot;
      hide ReadDocument;
      hide CString;
      hide IsString;
      hide Fetch;
      ClearBuffers();
      var found := FetchWifiStaConfig();
      if found {
        requests := requests.(connect := true);
      }
      BootedState(nvs, config, requests);
    }

    /** `wifi_manager` up to its loop, with `behind` octets of memory behind each buffer */
    constructor (saved: Option<StaConfig>, behind: nat)
      ensures ipInfoJson.Length == JSON_IP_INFO_SIZE + behind && accesspJson.Length == ACCESSP_JSON_SIZE + behind
      ensures Valid() && fresh(ipInfoJson) && fresh(accesspJson)
      ensures View(Idle, Snapshot(false, NO_REQUESTS)) == Boot(saved)
      ensures ReadDocument(CString(ipInfoJson[..])) == Some(Obj([]))
      ensures ReadDocument(CString(accesspJson[..])) == Some(Arr([]))
    {
      radio := Radio(Down, [], 0, false, 0, false, 0);
      requests, holder := NO_REQUESTS, Nobody;
      nvs, config, used := saved, ZERO_CONFIG, ZERO_CONFIG;
      ipInfoJson := new octet[JSON_IP_INFO_SIZE + behind];
      accesspJson := new octet[ACCESSP_JSON_SIZE + behind];
      status, list, past := Cleared, Empty, History([], Untouched);
      new;
      Start();
    }

    /** `wifi_manager_fetch_wifi_sta_config`, into the zeroed configuration that it finds at start-up */
    method FetchWifiStaConfig() returns (found: bool)
      requires config == ZERO_CONFIG
      modifies this`config
      ensures Fetched(found, config) == Fetch(nvs)
    {
      match nvs
      case None =>
        return false;
      case Some(c) =>
        config := c;
        return config.ssid[0] != '\0';
    }

    /** `wifi_manager_save_sta_config` */
    method SaveStaConfig()
      modifies this`nvs
      ensures nvs == Some(config)
    {
      nvs := Some(config);
    }

    /** `wifi_manager_remove_sta_config` */
    method RemoveStaConfig()
      modifies this`nvs
      ensures nvs == None
    {
      nvs := None;
    }

    /** `wifi_manager_event_handler` */
    method EventHandler(e: DriverEvent)
      modifies this`radio
      ensures radio == Handle(old(radio), e)
    {
      match e
      case GotIp(k) =>
        radio := radio.(connected := true, connectedBy := k);
      case Disconnected(k) =>
        radio := radio.(lost := true, lostBy := k);
        radio := radio.(connected := false);
    }

    /** The driver's next event is handled. */
    method DeliverEvent()
      requires radio.events != []
      modifies this`radio
      ensures radio == Deliver(old(radio))
      ensures old(WifiHonesty.Regular(radio)) ==> WifiHonesty.Regular(radio)
    {
      if WifiHonesty.Regular(radio) {
        WifiHonesty.DriverStaysRegular(radio);
      }
      var e := radio.events[0];
      radio := radio.(events := radio.events[1..]);
      EventHandler(e);
    }

    /** `wifi_manager_clear_ip_info_json` */
    method ClearIpInfoJson()
      requires Valid()
      modifies this`status, ipInfoJson
      ensures Valid() && status == Cleared && ReadDocument(CString(ipInfoJson[..])) == Some(Obj([]))
      ensures SameBehind(ipInfoJson[..], old(ipInfoJson[..]), 3)
    {
      hide ReadDocument;
      hide IsString;
      status := Cleared;
      StatusJson.ClearIpInfoJson(ipInfoJson);
    }

    /** What a reader gets of the status text with the addresses of the interface, or without. */
    ghost predicate Shows(name: seq<octet>, own: bool, world: World, urc: int)
      reads ipInfoJson
    {
      ReadDocument(CString(ipInfoJson[..])) ==
        if own then Some(StatusValue(name, world.ip, world.netmask, world.gw, urc))
        else Some(StatusValue(name, "0", "0", "0", urc))
    }

    /** `wifi_manager_generate_ip_info_json` */
    method GenerateIpInfo(v: Verdict, world: World)
      requires Valid() && Fits(StatusReport(v, config, world), ipInfoJson.Length)
      modifies this`status, ipInfoJson
      ensures Valid() && status == StatusReport(v, config, world)
      ensures Shows(ShownName(config), Urc(v) == 0, world, Urc(v))
      ensures Contained(ipInfoJson[..], old(ipInfoJson[..]), StatusServed(status), JSON_IP_INFO_SIZE)
    {
      hide ReadDocument;
      hide CString;
      hide IsString;
      hide IsAddress;
      hide ShownName;
      status := StatusReport(v, config, world);
      GenerateIpInfoJson(ipInfoJson, Some(config), world.ip, world.netmask, world.gw, Urc(v));
    }

    /** Locking the buffers, generating the status text, unlocking them */
    method UpdateStatus(v: Verdict, world: World)
      requires Valid() && holder.Nobody? && Fits(StatusReport(v, config, world), ipInfoJson.Length)
      modifies this`holder, this`status, this`past, ipInfoJson
      ensures Contained(ipInfoJson[..], old(ipInfoJson[..]), StatusServed(status), JSON_IP_INFO_SIZE)
      ensures Valid() && holder.Nobody? && status == StatusReport(v, config, world)
      ensures Shows(ShownName(config), Urc(v) == 0, world, Urc(v))
      ensures past == old(past).(verdicts := old(past).verdicts + [v])
    {
      hide ReadDocument;
      hide CString;
      hide IsString;
      hide IsAddress;
      hide ShownName;
      hide StatusOf;
      hide StatusValue;
      hide ListServed;
      holder := Manager;
      GenerateIpInfo(v, world);
      past := past.(verdicts := past.verdicts + [v]);
      holder := Nobody;
    }

    /** The disconnect handler, from where it is disconnected */
    method ForgetNetwork(w: Snapshot, world: World)
      requires Valid() && holder.Nobody?
      modifies this, ipInfoJson
      ensures Valid() && SameBehind(ipInfoJson[..], old(ipInfoJson[..]), JSON_IP_INFO_SIZE - 1)
      ensures View(Second(w), w) == ForgetRound(old(View(Resetting(ToForget), w)), world)
      ensures Shows([], false, world, 2)
    {
      hide StatusServed;
      hide IsString;
      hide ReadDocument;
      radio := radio.(lost := false);
      config := ZERO_CONFIG;
      SaveStaConfig();
      past := past.(stored := Forgotten);
      ForgottenFits(world, ipInfoJson.Length);
      ForgottenFits(world, JSON_IP_INFO_SIZE);
      assert ipInfoJson[..] == old(ipInfoJson[..]) && accesspJson[..] == old(accesspJson[..]);
      UpdateStatus(Left, world);
      ZeroConfigShowsNothing();
      requests := requests.(disconnect := false);
    }

    /** The connect handler, from where it is disconnected to where it waits for the result */
    method StartAttempt(w: Snapshot)
      requires Valid()
      modifies this
      ensures Valid()
      ensures View(AwaitingResult, w) == ConnectRound(old(View(Resetting(ToJoin), w)))
    {
      radio := radio.(lost := false);
      used := config;
      radio := Attempt(radio);
    }

    /** The connect handler, from its result on */
    method PublishVerdict(w: Snapshot, world: World)
      requires Valid() && holder.Nobody? && (radio.connected || radio.lost)
      requires Fits(StatusReport(Judge(radio), config, world), ipInfoJson.Length)
      modifies this, ipInfoJson
      ensures Valid()
      ensures Contained(ipInfoJson[..], old(ipInfoJson[..]), StatusServed(status), JSON_IP_INFO_SIZE)
      ensures View(Idle, w) == VerdictRound(old(View(AwaitingResult, w)), world)
      ensures Shows(ShownName(old(config)), old(radio.connected), world, if old(radio.connected) then 0 else 1)
    {
      hide StatusServed;
      hide IsString;
      hide ReadDocument;
      var v := Judge(radio);
      holder := Manager;
      GenerateIpInfo(v, world);
      if radio.connected {
        SaveStaConfig();
      } else {
        config := ZERO_CONFIG;
        RemoveStaConfig();
      }
      past := History(past.verdicts + [v], if v.Joined? then Kept(used) else Forgotten);
      holder := Nobody;
      requests := requests.(connect := false);
    }

    /** `wifi_manager_filter_unique`, then `wifi_manager_generate_acess_points_json` */
    method WriteList(records: array<ApRecord>, apNum: nat)
      requires Valid() && apNum <= records.Length && |ApListText(Unique(records[..apNum]))| < accesspJson.Length
      modifies this`list, accesspJson, records
      ensures Valid() && list == Listed(Unique(old(records[..apNum])))
      ensures ReadDocument(CString(accesspJson[..])) ==
              var u := Unique(old(records[..apNum])); if u == [] then None else Some(Arr(ApValues(u)))
      ensures Contained(accesspJson[..], old(accesspJson[..]), ListServed(list), ACCESSP_JSON_SIZE)
    {
      hide StatusServed;
      hide Unique;
      hide ReadDocument;
      ghost var u := Unique(records[..apNum]);
      var total := FilterUnique(records, apNum);
      assert records[..total] == u;
      GenerateAccessPointsJson(accesspJson, records, total);
      list := Listed(u);
      assert ListServed(list) == ApListText(u);
      IsStringDenotes(accesspJson[..], ApListText(u));
      ListReadsBack(u);
      assert ipInfoJson[..] == old(ipInfoJson[..]);
    }

    /** The scan branch, for the records that the driver found */
    method RefreshList(w: Snapshot, records: array<ApRecord>, apNum: nat, world: World)
      requires Valid() && holder.Nobody? && apNum <= records.Length && records[..apNum] == world.records
      requires |ApListText(Unique(world.records))| < accesspJson.Length
      modifies this, accesspJson, records
      ensures Valid()
      ensures Contained(accesspJson[..], old(accesspJson[..]), ListServed(list), ACCESSP_JSON_SIZE)
      ensures View(Idle, w) == ScanRound(old(View(Scanning, w)), world)
      ensures world.locks ==>
                ReadDocument(CString(accesspJson[..])) ==
                var u := Unique(world.records); if u == [] then None else Some(Arr(ApValues(u)))
    {
      hide StatusServed;
      hide ListServed;
      if world.locks {
        holder := Manager;
        WriteList(records, apNum);
        holder := Nobody;
      }
      requests := requests.(scan := false);
    }

    /** The accepting branch of POST /connect.json, with `wifi_manager_connect_async` */
    method PostConnect(ssid: seq<octet>, password: seq<octet>, pc: ManagerPc, w: Snapshot)
      requires Valid() && holder.Nobody? && |ssid| <= SSID_SIZE && |password| <= PASSWORD_SIZE
      modifies this, ipInfoJson
      ensures Valid()
      ensures View(pc, w) == PostRound(old(View(pc, w)), ssid, password)
      ensures ReadDocument(CString(ipInfoJson[..])) == Some(Obj([])) && requests == old(requests).(connect := true)
      ensures config.ssid[..|ssid|] == ssid && forall k :: |ssid| <= k < 32 ==> config.ssid[k] == '\0'
      ensures config.password[..|password|] == password
      ensures forall k :: |password| <= k < 64 ==> config.password[k] == '\0'
    {
      hide ReadDocument;
      hide IsString;
      hide Credentials;
      config := Credentials(ssid, password);
      CredentialsExact(ssid, password);
      holder := Http;
      ClearIpInfoJson();
      holder := Nobody;
      requests := requests.(connect := true);
    }
  }
}
