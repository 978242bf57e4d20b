/** What a client that asks for a network sees at /status.json until it has its answer, and what the answer is. */
module WifiStatus {
  import opened Wrappers
  import opened CText
  import opened JsonDocument
  import opened StatusJson
  import opened WifiLoop
  import opened WifiMutex
  import opened WifiRequests

  /** The manager waits for requests, or scans for one that came before. */
  predicate Waiting(pc: ManagerPc) {
    pc.Idle? || PartOf(pc).ScanPart?
  }

  /** The manager before its verdict on the attempt with this number. */
  predicate BeforeVerdict(pc: ManagerPc, attempts: nat, attempt: nat) {
    match pc
    case AwaitingResult => attempts == attempt
    case Locking(v) => !v.Left? && v.attempt == attempt == attempts
    case Erasing(v) => !v.Left? && v.attempt == attempt == attempts
    case Reporting(v) => !v.Left? && v.attempt == attempt == attempts
    case Storing(_) => false
    case Wiping(_) => false
    case Removing(_) => false
    case Unlocking(_) => false
    case Finishing(_) => false
    case _ => attempts + 1 == attempt && !PartOf(pc).ForgetPart?
  }

  /** A client does not ask to forget the network. */
  predicate Keeps(acts: seq<Action>) {
    forall i :: 0 <= i < |acts| ==> !acts[i].HttpDeletes?
  }

  /** The credentials asked for last, `config` before the run. */
  function Asked(s: State, acts: seq<Action>, config: StaConfig): StaConfig
    requires IsRun(s, acts)
    decreases acts
  {
    if acts == [] then config
    else
      Asked(Do(s, acts[0]), acts[1..],
            if acts[0].HttpPosts? then Credentials(acts[0].ssid, acts[0].password) else config)
  }

  /** A request is made or on its way, and nothing is published yet. */
  predicate Unanswered(s: State, config: StaConfig, attempt: nat) {
    && s.files.config == config
    && !s.requests.disconnect
    && (if s.requests.connect
        then
          && BeforeVerdict(s.manager, s.radio.attempts, attempt)
          && (!s.manager.Reporting? && !s.http.PostClearing? ==> s.board.status == Whole(Cleared))
        else
          && Posting(s.http) && Waiting(s.manager) && s.radio.attempts + 1 == attempt
          && (s.http.PostUnlocking? || s.http.PostAsking? ==> s.board.status == Whole(Cleared)))
  }

  function AttemptOf(v: Verdict): Option<nat> {
    if v.Left? then None else Some(v.attempt)
  }

  /** The first new verdict is on this attempt. */
  predicate AnsweredBy(verdicts: seq<Verdict>, before: seq<Verdict>, attempt: nat) {
    && |verdicts| > |before| && verdicts[..|before|] == before
    && AttemptOf(verdicts[|before|]) == Some(attempt)
  }

  lemma UnansweredManagerStep(s: State, world: World, config: StaConfig, attempt: nat)
    requires Unanswered(s, config, attempt) && ManagerCanStep(s, world) && Coherent(s.manager, s.snapshot)
    requires !s.manager.Reporting?
    ensures Unanswered(ManagerStep(s, world), config, attempt)
    ensures ManagerStep(s, world).past.verdicts == s.past.verdicts
  {
  }

  lemma UnansweredStep(s: State, a: Action, config: StaConfig, attempt: nat)
    requires Unanswered(s, config, attempt) && Enabled(s, a) && !a.HttpDeletes? && Coherent(s.manager, s.snapshot)
    requires !(a.ManagerSteps? && s.manager.Reporting?)
    ensures Do(s, a).past.verdicts == s.past.verdicts
    ensures Unanswered(Do(s, a), if a.HttpPosts? then Credentials(a.ssid, a.password) else config, attempt)
  {
    match a
    case ManagerSteps(world) => UnansweredManagerStep(s, world, config, attempt);
    case ManagerWakes => SecondPart(Wake(s).snapshot);
    case _ =>
  }

  lemma VerdictsGrow(s: State, a: Action)
    requires Enabled(s, a)
    ensures s.past.verdicts <= Do(s, a).past.verdicts
  {
  }

  lemma {:induction false} RunVerdictsGrow(s: State, acts: seq<Action>)
    requires IsRun(s, acts)
    ensures s.past.verdicts <= After(s, acts).past.verdicts
    decreases acts
  {
    if acts == [] {
    } else {
      VerdictsGrow(s, acts[0]);
      RunVerdictsGrow(Do(s, acts[0]), acts[1..]);
    }
  }

  /** As long as nothing is published the request is unanswered, and the first verdict to be published answers it. */
  lemma {:induction false} RunWaits(s: State, acts: seq<Action>, config: StaConfig, attempt: nat)
    requires IsRun(s, acts) && Keeps(acts) && Coherent(s.manager, s.snapshot) && Unanswered(s, config, attempt)
    ensures var t := After(s, acts);
            if t.past.verdicts == s.past.verdicts then Unanswered(t, Asked(s, acts, config), attempt)
            else AnsweredBy(t.past.verdicts, s.past.verdicts, attempt)
    decreases acts
  {
    if acts == [] {
    } else {
      var a := acts[0];
      var t := Do(s, a);
      assert !a.HttpDeletes?;
      if a.ManagerSteps? && s.manager.Reporting? {
        assert t.past.verdicts == s.past.verdicts + [s.manager.v];
        RunVerdictsGrow(t, acts[1..]);
      } else {
        UnansweredStep(s, a, config, attempt);
        StepStaysCoherent(s, a);
        RunWaits(t, acts[1..], if a.HttpPosts? then Credentials(a.ssid, a.password) else config, attempt);
      }
    }
  }

  /** As long as nothing new is published a reader gets an empty object; what is published first is on this attempt. */
  predicate PromiseKept(t: State, attempt: nat, before: seq<Verdict>) {
    if t.past.verdicts == before
    then
      t.http.ReadingStatus? ==>
        && t.board.status.Whole? && StatusServed(t.board.status.text) == "{}\n"
        && ReadDocument(StatusServed(t.board.status.text)) == Some(Obj([]))
    else AnsweredBy(t.past.verdicts, before, attempt)
  }

  lemma UnansweredIsEmpty(t: State, config: StaConfig, attempt: nat)
    requires Unanswered(t, config, attempt) && Disciplined(t)
    ensures PromiseKept(t, attempt, t.past.verdicts)
  {
    ClearedReadsBack();
  }

  /** The state in which a POST finds the loop with nothing to do but to scan. */
  predicate Free(s: State) {
    && Disciplined(s) && Coherent(s.manager, s.snapshot)
    && Waiting(s.manager) && !s.requests.connect && !s.requests.disconnect
  }

  lemma PostIsUnanswered(s: State, ssid: seq<octet>, password: seq<octet>)
    requires Free(s) && Enabled(s, HttpPosts(ssid, password))
    ensures var post := Do(s, HttpPosts(ssid, password));
            && Unanswered(post, Credentials(ssid, password), s.radio.attempts + 1)
            && post.past == s.past && Disciplined(post) && Coherent(post.manager, post.snapshot)
  {
    StepStaysDisciplined(s, HttpPosts(ssid, password));
  }

  /**
   * A client posts a network while the manager waits for requests or scans, and nobody asks for a disconnection.
   * However often networks are posted again, whenever the status is read afterwards it is `{}` as long as no verdict
   * has been published; and the first verdict to come is on the attempt that this POST has brought about.
   */
  lemma StatusWaitsForItsOwnVerdict(s: State, ssid: seq<octet>, password: seq<octet>, acts: seq<Action>)
    requires Free(s)
    requires Enabled(s, HttpPosts(ssid, password)) && IsRun(Do(s, HttpPosts(ssid, password)), acts) && Keeps(acts)
    ensures PromiseKept(After(Do(s, HttpPosts(ssid, password)), acts), s.radio.attempts + 1, s.past.verdicts)
  {
    var t := Do(s, HttpPosts(ssid, password));
    PostIsUnanswered(s, ssid, password);
    RunStaysDisciplined(t, acts);
    RunWaits(t, acts, Credentials(ssid, password), s.radio.attempts + 1);
    if After(t, acts).past.verdicts == s.past.verdicts {
      UnansweredIsEmpty(After(t, acts), Asked(t, acts, Credentials(ssid, password)), s.radio.attempts + 1);
    }
  }

  // ----- what the verdict names

  predicate ShowsVerdict(status: Buffer<Status>, v: Verdict, config: StaConfig) {
    status.Whole? && status.text.Report? && status.text.urc == Urc(v) && status.text.config == config
  }

  /**
   * When that verdict is published, it is shown with the credentials asked for last: with those of this POST exactly if
   * no other POST has come since, or the last one asked for the same.
   */
  lemma VerdictNamesTheLastPost(s: State, ssid: seq<octet>, password: seq<octet>, acts: seq<Action>, world: World)
    requires Free(s)
    requires Enabled(s, HttpPosts(ssid, password)) && IsRun(Do(s, HttpPosts(ssid, password)), acts) && Keeps(acts)
    requires var t := After(Do(s, HttpPosts(ssid, password)), acts);
             t.past.verdicts == s.past.verdicts && t.manager.Reporting?
    ensures var post := Do(s, HttpPosts(ssid, password));
            var last := Asked(post, acts, Credentials(ssid, password));
            var v := After(post, acts).manager.v;
            var t := ManagerStep(After(post, acts), world);
            && t.past.verdicts == s.past.verdicts + [v] && AttemptOf(v) == Some(s.radio.attempts + 1)
            && ShowsVerdict(t.board.status, v, last)
            && (ShowsVerdict(t.board.status, v, Credentials(ssid, password)) <==> last == Credentials(ssid, password))
  {
    RunWaits(Do(s, HttpPosts(ssid, password)), acts, Credentials(ssid, password), s.radio.attempts + 1);
  }

  // ----- the answer stays

  predicate AfterVerdict(pc: ManagerPc, v: Verdict, connect: bool, files: Files) {
    match pc
    case Storing(w) => w == v && v.Joined? && connect
    case Wiping(w) => w == v && v.Failed? && connect
    case Removing(w) => w == v && v.Failed? && connect && files.config == ZERO_CONFIG
    case Unlocking(w) => w == v && connect && (v.Failed? ==> files.config == ZERO_CONFIG)
    case Finishing(p) => p.ToJoin? && connect && (v.Failed? ==> files.config == ZERO_CONFIG)
    case _ => Waiting(pc) && !connect && (v.Failed? ==> files.config == ZERO_CONFIG)
  }

  /** The verdict is published, and no POST is under way that would clear it. */
  predicate Answered(s: State, config: StaConfig, v: Verdict) {
    && !v.Left? && !s.requests.disconnect && !Posting(s.http)
    && ShowsVerdict(s.board.status, v, config)
    && AfterVerdict(s.manager, v, s.requests.connect, s.files)
  }

  lemma AnsweredStep(s: State, a: Action, config: StaConfig, v: Verdict)
    requires Answered(s, config, v) && Enabled(s, a) && Patient(a) && Coherent(s.manager, s.snapshot)
    ensures Answered(Do(s, a), config, v) && Do(s, a).past.verdicts == s.past.verdicts
  {
    match a
    case ManagerWakes => SecondPart(Wake(s).snapshot);
    case _ =>
  }

  lemma {:induction false} RunStaysAnswered(s: State, acts: seq<Action>, config: StaConfig, v: Verdict)
    requires IsRun(s, acts) && IsPatient(acts) && Answered(s, config, v) && Coherent(s.manager, s.snapshot)
    ensures Answered(After(s, acts), config, v) && After(s, acts).past.verdicts == s.past.verdicts
    decreases acts
  {
    if acts == [] {
    } else {
      assert Patient(acts[0]);
      AnsweredStep(s, acts[0], config, v);
      StepStaysCoherent(s, acts[0]);
      RunStaysAnswered(Do(s, acts[0]), acts[1..], config, v);
    }
  }

  /**
   * From the publication on the status stays as it is until a client asks for something else, and no other verdict is
   * published; once the handler has ended after a failure the configuration is wiped.
   */
  lemma AnswerStays(s: State, config: StaConfig, attempt: nat, world: World, acts: seq<Action>)
    requires Unanswered(s, config, attempt) && s.manager.Reporting? && !Posting(s.http)
    requires Coherent(s.manager, s.snapshot)
    requires IsRun(ManagerStep(s, world), acts) && IsPatient(acts)
    ensures var t := After(ManagerStep(s, world), acts);
            && t.past.verdicts == s.past.verdicts + [s.manager.v]
            && ShowsVerdict(t.board.status, s.manager.v, config)
            && (t.manager.Idle? && s.manager.v.Failed? ==> t.files.config == ZERO_CONFIG)
  {
    StepStaysCoherent(s, ManagerSteps(world));
    assert Answered(ManagerStep(s, world), config, s.manager.v);
    RunStaysAnswered(ManagerStep(s, world), acts, config, s.manager.v);
  }

  // ----- and the verdict comes

  lemma {:induction false} UndisturbedKeeps(s: State, acts: seq<Action>)
    requires IsRun(s, acts) && IsUndisturbed(s, acts)
    ensures Keeps(acts)
    decreases acts
  {
    if acts == [] {
    } else {
      UndisturbedKeeps(Do(s, acts[0]), acts[1..]);
    }
  }

  lemma DoneIsAnswered(s: State, config: StaConfig, attempt: nat)
    requires AllDone(s)
    ensures !Unanswered(s, config, attempt)
  {
  }

  lemma UnansweredEnds(s: State, more: seq<Action>, config: StaConfig, attempt: nat)
    requires IsRun(s, more) && IsUndisturbed(s, more) && Sound(s) && Unanswered(s, config, attempt)
    ensures AtRest(After(s, more)) ==> AnsweredBy(After(s, more).past.verdicts, s.past.verdicts, attempt)
  {
    hide Unanswered;
    UndisturbedRunsEnd(s, more);
    UndisturbedKeeps(s, more);
    RunWaits(s, more, config, attempt);
    if AtRest(After(s, more)) {
      DoneIsAnswered(After(s, more), Asked(s, more, config), attempt);
    }
  }

  lemma RunComes(s: State, acts: seq<Action>, more: seq<Action>, config: StaConfig, attempt: nat)
    requires IsRun(s, acts) && Keeps(acts) && Sound(s) && Unanswered(s, config, attempt)
    requires IsRun(After(s, acts), more) && IsUndisturbed(After(s, acts), more)
    ensures |more| <= Rank(After(s, acts))
    ensures var t := After(After(s, acts), more);
            AtRest(t) ==> AnsweredBy(t.past.verdicts, s.past.verdicts, attempt)
  {
    hide Unanswered;
    hide Sound;
    var t := After(s, acts);
    SoundIsCoherent(s);
    RunStaysSound(s, acts);
    UndisturbedRunsEnd(t, more);
    RunWaits(s, acts, config, attempt);
    if t.past.verdicts == s.past.verdicts {
      UnansweredEnds(t, more, Asked(s, acts, config), attempt);
    } else {
      RunVerdictsGrow(t, more);
    }
  }

  /**
   * Once the clients are quiet, the verdict on the attempt is published after a bounded number of steps: no run that
   * can go no further ends without it.
   */
  lemma VerdictComes(s: State, ssid: seq<octet>, password: seq<octet>, acts: seq<Action>, more: seq<Action>)
    requires Free(s) && Sound(s)
    requires Enabled(s, HttpPosts(ssid, password)) && IsRun(Do(s, HttpPosts(ssid, password)), acts) && Keeps(acts)
    requires var t := After(Do(s, HttpPosts(ssid, password)), acts); IsRun(t, more) && IsUndisturbed(t, more)
    ensures var t := After(Do(s, HttpPosts(ssid, password)), acts);
            && |more| <= Rank(t)
            && (AtRest(After(t, more)) ==>
                  AnsweredBy(After(t, more).past.verdicts, s.past.verdicts, s.radio.attempts + 1))
  {
    hide Unanswered;
    hide Sound;
    hide Free;
    PostIsUnanswered(s, ssid, password);
    StepStaysSound(s, HttpPosts(ssid, password));
    RunComes(Do(s, HttpPosts(ssid, password)), acts, more, Credentials(ssid, password), s.radio.attempts + 1);
  }

  // ----- what the text says

  lemma StatusNamesDiffer(name: seq<octet>, other: seq<octet>, urc: int)
    ensures StatusValue(name, "0", "0", "0", urc) == StatusValue(other, "0", "0", "0", urc) <==> name == other
  {
    var a, b := StatusValue(name, "0", "0", "0", urc), StatusValue(other, "0", "0", "0", urc);
    if a == b {
      assert a.members[0] == b.members[0];
    }
  }

  /** A failure is served as an object with the name that was asked for and reason code 1. */
  lemma FailureNamesTheNetwork(ssid: seq<octet>, password: seq<octet>, status: Status, v: Verdict)
    requires |ssid| <= SSID_SIZE && |password| <= PASSWORD_SIZE && '\0' !in ssid && '\0' !in password
    requires v.Failed? && ShowsVerdict(Whole(status), v, Credentials(ssid, password))
    ensures ReadDocument(StatusServed(status)) == Some(StatusValue(ssid, "0", "0", "0", 1))
            <==> |ssid| < SSID_SIZE || password == []
  {
    NoAddress();
    var name := ShownName(Credentials(ssid, password));
    StatusReadsBack(name, "0", "0", "0", UPDATE_FAILED_ATTEMPT);
    ShownNameExact(ssid, password);
    StatusNamesDiffer(name, ssid, 1);
  }

  /** A success is served with the name, the addresses of the interface under their own keys, and reason code 0. */
  lemma SuccessShowsTheInterface(s: State, world: World)
    requires s.manager.Reporting? && s.manager.v.Joined?
    requires IsAddress(world.ip) && IsAddress(world.netmask) && IsAddress(world.gw)
    ensures var b := ManagerStep(s, world).board;
            && b.status.Whole?
            && ReadDocument(StatusServed(b.status.text)) ==
               Some(Obj([Member("ssid", Str(ShownName(s.files.config))), Member("ip", Str(world.ip)),
                         Member("netmask", Str(world.netmask)), Member("gw", Str(world.gw)), Member("urc", Num(0))]))
  {
    ReportReadsBack(s.files.config, world.ip, world.netmask, world.gw, 0);
  }

  // ----- disconnections

  /** Between forgetting a network and saying so. */
  predicate HasForgotten(pc: ManagerPc) {
    match pc
    case Blanking => true
    case Locking(v) => v.Left?
    case Erasing(v) => v.Left?
    case Reporting(v) => v.Left?
    case _ => false
  }

  /** No POST is accepted there. */
  predicate LeavesForgotten(s: State, a: Action) {
    a.HttpPosts? ==> !HasForgotten(s.manager)
  }

  predicate IsForgetful(s: State, acts: seq<Action>)
    requires IsRun(s, acts)
    decreases acts
  {
    acts == [] || (LeavesForgotten(s, acts[0]) && IsForgetful(Do(s, acts[0]), acts[1..]))
  }

  predicate ForgottenIsBlank(s: State) {
    HasForgotten(s.manager) ==> s.files.config == ZERO_CONFIG
  }

  lemma StepStaysBlank(s: State, a: Action)
    requires ForgottenIsBlank(s) && Enabled(s, a) && LeavesForgotten(s, a)
    ensures ForgottenIsBlank(Do(s, a))
  {
  }

  lemma {:induction false} RunStaysBlank(s: State, acts: seq<Action>)
    requires IsRun(s, acts) && IsForgetful(s, acts) && ForgottenIsBlank(s)
    ensures ForgottenIsBlank(After(s, acts))
    decreases acts
  {
    if acts == [] {
    } else {
      StepStaysBlank(s, acts[0]);
      RunStaysBlank(Do(s, acts[0]), acts[1..]);
    }
  }

  /**
   * Where no POST comes between forgetting a network and saying so, a disconnection that was asked for is served with
   * no name and reason code 2.
   */
  lemma DisconnectionNamesNothing(nvs: Option<StaConfig>, acts: seq<Action>, world: World)
    requires IsRun(Boot(nvs), acts) && IsForgetful(Boot(nvs), acts)
    requires After(Boot(nvs), acts).manager == Reporting(Left)
    ensures var b := ManagerStep(After(Boot(nvs), acts), world).board;
            b.status.Whole? && ReadDocument(StatusServed(b.status.text)) == Some(StatusValue([], "0", "0", "0", 2))
  {
    RunStaysBlank(Boot(nvs), acts);
    ZeroConfigShowsNothing();
    NoAddress();
    StatusReadsBack([], "0", "0", "0", UPDATE_USER_DISCONNECT);
  }

  /** The runs that stay between forgetting and saying so, without a further POST. */
  predicate StaysForgotten(s: State, acts: seq<Action>)
    requires IsRun(s, acts)
    decreases acts
  {
    HasForgotten(s.manager) && (acts == [] || (!acts[0].HttpPosts? && StaysForgotten(Do(s, acts[0]), acts[1..])))
  }

  lemma {:induction false} ForgottenKeeps(s: State, acts: seq<Action>)
    requires IsRun(s, acts) && StaysForgotten(s, acts)
    ensures After(s, acts).files.config == s.files.config
    decreases acts
  {
    if acts == [] {
    } else {
      ForgottenKeeps(Do(s, acts[0]), acts[1..]);
    }
  }

  /**
   * A POST anywhere between forgetting a network and saying so: what is then served reads as no name and reason code 2
   * exactly if the name that the POST asked for shows as nothing.
   */
  lemma DisconnectionNamesThePost(s: State, ssid: seq<octet>, password: seq<octet>, acts: seq<Action>, world: World)
    requires HasForgotten(s.manager) && Enabled(s, HttpPosts(ssid, password))
    requires IsRun(Do(s, HttpPosts(ssid, password)), acts) && StaysForgotten(Do(s, HttpPosts(ssid, password)), acts)
    requires After(Do(s, HttpPosts(ssid, password)), acts).manager == Reporting(Left)
    ensures var b := ManagerStep(After(Do(s, HttpPosts(ssid, password)), acts), world).board;
            var name := ShownName(Credentials(ssid, password));
            && b.status.Whole?
            && (ReadDocument(StatusServed(b.status.text)) == Some(StatusValue([], "0", "0", "0", 2)) <==> name == [])
  {
    var name := ShownName(Credentials(ssid, password));
    ForgottenKeeps(Do(s, HttpPosts(ssid, password)), acts);
    NoAddress();
    StatusReadsBack(name, "0", "0", "0", UPDATE_USER_DISCONNECT);
    StatusNamesDiffer(name, [], 2);
  }
}
