/** What flash remembers: after a restart the firmware asks for the network it was last connected to. */
module WifiStore {
  import opened Wrappers
  import opened CText
  import opened StatusJson
  import opened WifiLoop
  import opened WifiRequests
  import opened WifiRace

  /** From `esp_wifi_set_config` to the flash write that follows a success. */
  predicate UsesConfig(pc: ManagerPc) {
    match pc
    case Attempting => true
    case AwaitingResult => true
    case Locking(v) => !v.Left?
    case Erasing(v) => !v.Left?
    case Reporting(v) => !v.Left?
    case Storing(_) => true
    case _ => false
  }

  /**
   * No POST changes a configuration that is still to be saved: one that the driver has already been given, or one that
   * has been wiped.
   */
  predicate Apart(s: State, a: Action)
    requires Enabled(s, a)
  {
    a.HttpPosts? ==>
      && (UsesConfig(s.manager) ==> Credentials(a.ssid, a.password) == s.files.used)
      && (s.manager.Blanking? ==> Credentials(a.ssid, a.password) == ZERO_CONFIG)
  }

  predicate IsApart(s: State, acts: seq<Action>)
    requires IsRun(s, acts)
    decreases acts
  {
    acts == [] || (Apart(s, acts[0]) && IsApart(Do(s, acts[0]), acts[1..]))
  }

  predicate InFlash(nvs: Option<StaConfig>, stored: Stored, booted: Option<StaConfig>) {
    match stored
    case Untouched => nvs == booted
    case Kept(c) => nvs == Some(c)
    case Forgotten => nvs == None || nvs == Some(ZERO_CONFIG)
  }

  predicate Filed(s: State, booted: Option<StaConfig>) {
    && (UsesConfig(s.manager) ==> s.files.config == s.files.used)
    && (s.manager.Blanking? ==> s.files.config == ZERO_CONFIG)
    && InFlash(s.files.nvs, s.past.stored, booted)
  }

  lemma ManagerStaysFiled(s: State, world: World, booted: Option<StaConfig>)
    requires Filed(s, booted) && ManagerCanStep(s, world) && Coherent(s.manager, s.snapshot)
    ensures Filed(ManagerStep(s, world), booted)
  {
    if s.manager.Finishing? {
      SecondPart(s.snapshot);
    }
  }

  lemma StepStaysFiled(s: State, a: Action, booted: Option<StaConfig>)
    requires Filed(s, booted) && Enabled(s, a) && Apart(s, a) && Coherent(s.manager, s.snapshot)
    ensures Filed(Do(s, a), booted)
  {
    match a
    case ManagerSteps(world) => ManagerStaysFiled(s, world, booted);
    case _ =>
  }

  lemma {:induction false} RunStaysFiled(s: State, acts: seq<Action>, booted: Option<StaConfig>)
    requires IsRun(s, acts) && IsApart(s, acts) && Filed(s, booted) && Coherent(s.manager, s.snapshot)
    ensures Filed(After(s, acts), booted) && Coherent(After(s, acts).manager, After(s, acts).snapshot)
    decreases acts
  {
    if acts == [] {
    } else {
      StepStaysFiled(s, acts[0], booted);
      StepStaysCoherent(s, acts[0]);
      RunStaysFiled(Do(s, acts[0]), acts[1..], booted);
    }
  }

  predicate Nameable(c: StaConfig) {
    c.ssid[0] != '\0'
  }

  /**
   * Restarted at any moment, the firmware asks for a connection exactly when the last handler to reach flash had
   * connected to a network with a name, or when none had and such a network was there before; and it asks for the
   * network, with the password, that the driver was connected with.
   */
  lemma RestartAsksForTheLast(nvs: Option<StaConfig>, acts: seq<Action>)
    requires IsRun(Boot(nvs), acts) && IsApart(Boot(nvs), acts)
    ensures var s := After(Boot(nvs), acts);
            var again := Boot(s.files.nvs);
            && (again.requests.connect <==>
                  match s.past.stored
                  case Untouched => nvs.Some? && Nameable(nvs.value)
                  case Kept(c) => Nameable(c)
                  case Forgotten => false)
            && (s.past.stored.Kept? ==> again.files.config == s.past.stored.config)
  {
    RunStaysFiled(Boot(nvs), acts, nvs);
  }

  /**
   * An accepted POST is remembered octet for octet, whatever its name and password contain: after a restart the two
   * fields hold them and zeros behind, so that they end where the texts did.
   */
  lemma CredentialsKept(ssid: seq<octet>, password: seq<octet>)
    requires |ssid| <= SSID_SIZE && |password| <= PASSWORD_SIZE
    ensures var again := Boot(Some(Credentials(ssid, password)));
            && again.files.config.ssid[..|ssid|] == ssid && again.files.config.password[..|password|] == password
            && (forall k :: |ssid| <= k < 32 ==> again.files.config.ssid[k] == '\0')
            && (forall k :: |password| <= k < 64 ==> again.files.config.password[k] == '\0')
            && ('\0' !in ssid ==> CString(again.files.config.ssid + ['\0']) == ssid)
            && ('\0' !in password ==> CString(again.files.config.password + ['\0']) == password)
            && (again.requests.connect <==> ssid != [] && ssid[0] != '\0')
  {
    var c := Credentials(ssid, password);
    CredentialsExact(ssid, password);
    if ssid != [] {
      assert c.ssid[0] == ssid[0];
    }
  }

  // ----- where a POST must not come

  /** The runs on which the handler goes on towards its flash write, without a further POST. */
  predicate StaysInUse(s: State, acts: seq<Action>)
    requires IsRun(s, acts)
    decreases acts
  {
    UsesConfig(s.manager) && (acts == [] || (!acts[0].HttpPosts? && StaysInUse(Do(s, acts[0]), acts[1..])))
  }

  lemma {:induction false} InUseKeeps(s: State, acts: seq<Action>)
    requires IsRun(s, acts) && StaysInUse(s, acts)
    ensures After(s, acts).files == s.files
    decreases acts
  {
    if acts == [] {
    } else {
      InUseKeeps(Do(s, acts[0]), acts[1..]);
    }
  }

  /**
   * A POST anywhere between `esp_wifi_set_config` and the flash write: when that write comes, flash gets the network
   * that the driver was connected with exactly if the POST asked for that very network.
   */
  lemma OverlapStoresThePost(s: State, ssid: seq<octet>, password: seq<octet>, acts: seq<Action>, world: World)
    requires UsesConfig(s.manager) && Enabled(s, HttpPosts(ssid, password))
    requires IsRun(Do(s, HttpPosts(ssid, password)), acts) && StaysInUse(Do(s, HttpPosts(ssid, password)), acts)
    requires After(Do(s, HttpPosts(ssid, password)), acts).manager.Storing?
    ensures var t := ManagerStep(After(Do(s, HttpPosts(ssid, password)), acts), world);
            && t.past.stored == Kept(s.files.used) && t.files.nvs == Some(Credentials(ssid, password))
            && (InFlash(t.files.nvs, t.past.stored, None) <==> Credentials(ssid, password) == s.files.used)
  {
    InUseKeeps(Do(s, HttpPosts(ssid, password)), acts);
  }

  /** A POST between wiping the configuration and saving it: flash is blank exactly if the POST asked for nothing. */
  lemma BlankingStoresThePost(s: State, ssid: seq<octet>, password: seq<octet>, world: World)
    requires s.manager.Blanking? && Enabled(s, HttpPosts(ssid, password))
    ensures var t := ManagerStep(Do(s, HttpPosts(ssid, password)), world);
            && t.past.stored == Forgotten && t.files.nvs == Some(Credentials(ssid, password))
            && (InFlash(t.files.nvs, t.past.stored, None) <==> Credentials(ssid, password) == ZERO_CONFIG)
  {
  }

  lemma StoringLeads() returns (t: State)
    ensures Reachable(t) && t.manager.Storing? && t.http.Ready?
    ensures t.files == Files(Credentials(['a'], []), Credentials(['a'], []), None)
  {
    var s0 := Boot(None);
    assert IsRun(s0, []) && After(s0, []) == s0;
    var s1 := PostLeads(s0, ['a']);
    var s2 := WakeLeads(s1);
    var s3 := AttemptLeads(s2);
    var s4 := Leads(s3, DriverJoins);
    var s5 := Leads(s4, DriverDelivers);
    t := PublishLeads(s5);
  }

  /** A POST in the middle of a handler makes flash remember a network that the driver was not connected with. */
  lemma OverlapStoresAnother()
    ensures exists s ::
              Reachable(s) && s.past.stored.Kept? && s.files.nvs.Some? && s.files.nvs != Some(s.past.stored.config)
  {
    var s0 := StoringLeads();
    var s1 := Leads(s0, HttpPosts(['b'], []));
    var s2 := Leads(s1, STEP);
    assert s2.past.stored == Kept(Credentials(['a'], []));
    assert s2.files.nvs == Some(Credentials(['b'], []));
    assert Credentials(['a'], []).ssid[0] != Credentials(['b'], []).ssid[0];
  }
}
