/** What comes of DELETE /connect.json. */
module WifiForget {
  import opened Wrappers
  import opened JsonDocument
  import opened StatusJson
  import opened WifiLoop
  import opened WifiMutex
  import opened WifiRequests
  import opened WifiHonesty
  import opened WifiRace

  /** The disconnect handler has reported the disconnection. */
  predicate HasLeft(pc: ManagerPc) {
    match pc
    case Unlocking(v) => v.Left?
    case Finishing(p) => p.ToForget?
    case _ => false
  }

  /** The disconnect handler has wiped the configuration. */
  predicate HasWiped(pc: ManagerPc) {
    match pc
    case Blanking => true
    case Locking(v) => v.Left?
    case Erasing(v) => v.Left?
    case Reporting(v) => v.Left?
    case _ => HasLeft(pc)
  }

  // ----- a disconnection is reported

  predicate LeftSince(verdicts: seq<Verdict>, n: nat) {
    exists i :: n <= i < |verdicts| && verdicts[i] == Left
  }

  /** A disconnection is reported, or will be. */
  predicate WillLeave(s: State, n: nat) {
    n <= |s.past.verdicts| && (LeftSince(s.past.verdicts, n) || (s.requests.disconnect && !HasLeft(s.manager)))
  }

  lemma LeftStays(verdicts: seq<Verdict>, v: Verdict, n: nat)
    requires n <= |verdicts|
    ensures LeftSince(verdicts + [v], n) <==> LeftSince(verdicts, n) || v == Left
  {
    var all := verdicts + [v];
    if LeftSince(verdicts, n) {
      var i :| n <= i < |verdicts| && verdicts[i] == Left;
      assert all[i] == Left;
    }
    if v == Left {
      assert all[|verdicts|] == Left;
    }
  }

  lemma StepStaysLeaving(s: State, a: Action, n: nat)
    requires Enabled(s, a) && WillLeave(s, n) && Coherent(s.manager, s.snapshot)
    ensures WillLeave(Do(s, a), n)
  {
    if a.ManagerSteps? && s.manager.Reporting? {
      LeftStays(s.past.verdicts, s.manager.v, n);
    }
  }

  lemma {:induction false} RunStaysLeaving(s: State, acts: seq<Action>, n: nat)
    requires IsRun(s, acts) && WillLeave(s, n) && Coherent(s.manager, s.snapshot)
    ensures WillLeave(After(s, acts), n)
    decreases acts
  {
    if acts == [] {
    } else {
      StepStaysLeaving(s, acts[0], n);
      StepStaysCoherent(s, acts[0]);
      RunStaysLeaving(Do(s, acts[0]), acts[1..], n);
    }
  }

  /** The handler that clears the request has made its report before. */
  predicate WontLeave(s: State, n: nat) {
    && n <= |s.past.verdicts| && !LeftSince(s.past.verdicts, n)
    && (HasLeft(s.manager) || (!s.requests.disconnect && !PartOf(s.manager).ForgetPart?))
  }

  lemma StepStaysUnreported(s: State, a: Action, n: nat)
    requires Enabled(s, a) && Quiet(s, a) && WontLeave(s, n) && Coherent(s.manager, s.snapshot)
    ensures WontLeave(Do(s, a), n)
  {
    match a
    case ManagerSteps(world) =>
      SecondPart(s.snapshot);
      if s.manager.Reporting? {
        LeftStays(s.past.verdicts, s.manager.v, n);
      }
    case ManagerWakes => SecondPart(Wake(s).snapshot);
    case _ =>
  }

  lemma {:induction false} RunStaysUnreported(s: State, acts: seq<Action>, n: nat)
    requires IsRun(s, acts) && IsQuiet(s, acts) && WontLeave(s, n) && Coherent(s.manager, s.snapshot)
    ensures WontLeave(After(s, acts), n)
    decreases acts
  {
    if acts == [] {
    } else {
      StepStaysUnreported(s, acts[0], n);
      StepStaysCoherent(s, acts[0]);
      RunStaysUnreported(Do(s, acts[0]), acts[1..], n);
    }
  }

  lemma DeleteStaysAsked(s: State, acts: seq<Action>, n: nat)
    requires IsRun(s, acts) && s.requests.disconnect && !HasLeft(s.manager) && Coherent(s.manager, s.snapshot)
    requires n == |s.past.verdicts|
    ensures AllDone(After(s, acts)) ==> LeftSince(After(s, acts).past.verdicts, n)
  {
    RunStaysLeaving(s, acts, n);
  }

  lemma LateDeleteStaysUnreported(s: State, acts: seq<Action>, n: nat)
    requires IsRun(s, acts) && IsQuiet(s, acts) && HasLeft(s.manager) && Coherent(s.manager, s.snapshot)
    requires n == |s.past.verdicts|
    ensures !LeftSince(After(s, acts).past.verdicts, n)
  {
    RunStaysUnreported(s, acts, n);
  }

  lemma {:induction false} UndisturbedIsQuiet(s: State, acts: seq<Action>)
    requires IsRun(s, acts) && IsUndisturbed(s, acts)
    ensures IsQuiet(s, acts)
    decreases acts
  {
    if acts == [] {
    } else {
      UndisturbedIsQuiet(Do(s, acts[0]), acts[1..]);
    }
  }

  lemma AskedIsReported(s: State, acts: seq<Action>, n: nat)
    requires Sound(s) && s.requests.disconnect && n == |s.past.verdicts| && IsRun(s, acts) && IsUndisturbed(s, acts)
    ensures |acts| <= Rank(s)
    ensures AtRest(After(s, acts)) ==> (LeftSince(After(s, acts).past.verdicts, n) <==> !HasLeft(s.manager))
  {
    hide Sound;
    hide LeftSince;
    SoundIsCoherent(s);
    UndisturbedRunsEnd(s, acts);
    if HasLeft(s.manager) {
      UndisturbedIsQuiet(s, acts);
      LateDeleteStaysUnreported(s, acts, n);
    } else {
      DeleteStaysAsked(s, acts, n);
    }
  }

  /**
   * In every run without further requests that can go no further a disconnection has been reported after the DELETE, if
   * and only if the DELETE did not come between the report of an earlier one and the end of its handler.
   */
  lemma DeleteIsReported(s: State, acts: seq<Action>)
    requires Sound(s) && Enabled(s, HttpDeletes)
    requires IsRun(Do(s, HttpDeletes), acts) && IsUndisturbed(Do(s, HttpDeletes), acts)
    ensures var t := After(Do(s, HttpDeletes), acts);
            && |acts| <= Rank(Do(s, HttpDeletes))
            && (AtRest(t) ==> (LeftSince(t.past.verdicts, |s.past.verdicts|) <==> !HasLeft(s.manager)))
  {
    hide Sound;
    hide IsRun;
    hide After;
    hide IsUndisturbed;
    StepStaysSound(s, HttpDeletes);
    AskedIsReported(Do(s, HttpDeletes), acts, |s.past.verdicts|);
  }

  // ----- and what is left then

  /** Flash that asks for no connection after a restart. */
  predicate Blank(nvs: Option<StaConfig>) {
    nvs.Some? ==> nvs.value.ssid[0] == '\0'
  }

  /** An attempt is still to be made when the disconnection has been reported. */
  predicate AttemptFollows(s: State) {
    !PartOf(s.manager).JoinPart?
    && (s.requests.connect || (PartOf(s.manager).ForgetPart? && s.snapshot.wants.connect))
  }

  predicate ShowsNobody(status: Buffer<Status>) {
    status.Whole? && status.text.Report? && status.text.urc == 2 && status.text.config == ZERO_CONFIG
  }

  predicate LastIsLeft(verdicts: seq<Verdict>) {
    verdicts != [] && verdicts[|verdicts| - 1] == Left
  }

  /** The configuration is still to be wiped. */
  predicate BeforeWiping(s: State, follows: bool) {
    s.requests.disconnect && !HasWiped(s.manager) && AttemptFollows(s) == follows
  }

  predicate AfterWiping(s: State, follows: bool) {
    && HasWiped(s.manager) && AttemptFollows(s) == follows
    && s.files.config == ZERO_CONFIG && (!s.manager.Blanking? ==> Blank(s.files.nvs))
    && (HasLeft(s.manager) ==> ShowsNobody(s.board.status) && LastIsLeft(s.past.verdicts))
  }

  /** The verdict of the connect handler is not published yet. */
  predicate BeforeReport(pc: ManagerPc) {
    match pc
    case Storing(_) => false
    case Wiping(_) => false
    case Removing(_) => false
    case Unlocking(_) => false
    case Finishing(_) => false
    case _ => PartOf(pc).JoinPart?
  }

  /** The handler has ended; an attempt is made with the wiped configuration, or none is. */
  predicate AfterLeaving(s: State, follows: bool) {
    && !s.requests.disconnect && !PartOf(s.manager).ForgetPart?
    && s.files.config == ZERO_CONFIG && Blank(s.files.nvs)
    && if follows
       then (if PartOf(s.manager).JoinPart? then BeforeReport(s.manager) else s.requests.connect)
            || (s.past.verdicts != [] && !LastIsLeft(s.past.verdicts))
       else
         && !s.requests.connect && !PartOf(s.manager).JoinPart?
         && ShowsNobody(s.board.status) && LastIsLeft(s.past.verdicts)
  }

  predicate Forgets(s: State, follows: bool) {
    s.http.Ready? && (BeforeWiping(s, follows) || AfterWiping(s, follows) || AfterLeaving(s, follows))
  }

  lemma BeforeWipingStep(s: State, world: World, follows: bool)
    requires BeforeWiping(s, follows) && ManagerCanStep(s, world) && Coherent(s.manager, s.snapshot)
    ensures var t := ManagerStep(s, world);
            BeforeWiping(t, follows) || (t.manager.Blanking? && AfterWiping(t, follows))
  {
    SecondPart(s.snapshot);
  }

  lemma HandlerEnds(s: State, world: World, follows: bool)
    requires AfterWiping(s, follows) && s.manager.Finishing?
    ensures AfterLeaving(ManagerStep(s, world), follows)
  {
    SecondPart(s.snapshot);
  }

  lemma AfterWipingStep(s: State, world: World, follows: bool)
    requires AfterWiping(s, follows) && ManagerCanStep(s, world) && Coherent(s.manager, s.snapshot)
    ensures var t := ManagerStep(s, world); AfterWiping(t, follows) || AfterLeaving(t, follows)
  {
    var t := ManagerStep(s, world);
    match s.manager
    case Finishing(_) => HandlerEnds(s, world, follows);
    case Reporting(_) => assert LastIsLeft(t.past.verdicts) && AfterWiping(t, follows);
    case Blanking => assert AfterWiping(t, follows);
    case Locking(_) => assert AfterWiping(t, follows);
    case Erasing(_) => assert AfterWiping(t, follows);
    case Unlocking(_) => assert AfterWiping(t, follows);
  }

  lemma FilesStayWiped(pc: ManagerPc, f: Files)
    requires f.config == ZERO_CONFIG && Blank(f.nvs)
    ensures ManagerFiles(pc, f).config == ZERO_CONFIG && Blank(ManagerFiles(pc, f).nvs)
  {
  }

  /** A scan touches nothing but the list and its own request. */
  lemma ScanLeavesTheRest(pc: ManagerPc, r: Radio, q: Requests, b: Board, f: Files, w: Snapshot, past: History,
                          world: World)
    requires PartOf(pc).ScanPart?
    ensures PartOf(ManagerNext(pc, r, w, world)).ScanPart? || PartOf(ManagerNext(pc, r, w, world)).Between?
    ensures ManagerRequests(pc, q).connect == q.connect && ManagerRequests(pc, q).disconnect == q.disconnect
    ensures ManagerBoard(pc, b, f.config, world).status == b.status
    ensures ManagerFiles(pc, f) == f && ManagerPast(pc, past, f.used) == past
  {
  }

  lemma NothingFollowsStep(s: State, world: World)
    requires AfterLeaving(s, false) && ManagerCanStep(s, world) && PartOf(s.manager).ScanPart?
    ensures AfterLeaving(ManagerStep(s, world), false)
  {
    ScanLeavesTheRest(s.manager, s.radio, s.requests, s.board, s.files, s.snapshot, s.past, world);
    hide PartOf;
    hide ManagerBoard;
    hide ManagerNext;
  }

  lemma AttemptFollowsStep(s: State, world: World)
    requires AfterLeaving(s, true) && ManagerCanStep(s, world) && Coherent(s.manager, s.snapshot)
    ensures AfterLeaving(ManagerStep(s, world), true)
  {
    FilesStayWiped(s.manager, s.files);
    PartStays(s.manager, s.radio, s.snapshot, world);
  }

  lemma AfterLeavingStep(s: State, world: World, follows: bool)
    requires AfterLeaving(s, follows) && ManagerCanStep(s, world) && Coherent(s.manager, s.snapshot)
    ensures AfterLeaving(ManagerStep(s, world), follows)
  {
    if follows {
      AttemptFollowsStep(s, world);
    } else {
      NothingFollowsStep(s, world);
    }
  }

  lemma WakeForgets(s: State, follows: bool)
    requires Forgets(s, follows) && s.manager.Idle?
    ensures Forgets(Wake(s), follows)
  {
    SecondPart(Wake(s).snapshot);
  }

  lemma StepStaysForgetting(s: State, a: Action, follows: bool)
    requires Enabled(s, a) && Forgets(s, follows) && Coherent(s.manager, s.snapshot)
    requires !a.HttpGetsList? && !a.HttpGetsStatus? && !a.HttpDeletes? && !a.HttpPosts?
    ensures Forgets(Do(s, a), follows)
  {
    match a
    case ManagerWakes => WakeForgets(s, follows);
    case ManagerSteps(world) =>
      if BeforeWiping(s, follows) {
        BeforeWipingStep(s, world, follows);
      } else if AfterWiping(s, follows) {
        AfterWipingStep(s, world, follows);
      } else {
        AfterLeavingStep(s, world, follows);
      }
    case _ =>
  }

  lemma {:induction false} RunStaysForgetting(s: State, acts: seq<Action>, follows: bool)
    requires IsRun(s, acts) && IsUndisturbed(s, acts) && Forgets(s, follows) && Coherent(s.manager, s.snapshot)
    ensures Forgets(After(s, acts), follows)
    decreases acts
  {
    if acts == [] {
    } else {
      StepStaysForgetting(s, acts[0], follows);
      StepStaysCoherent(s, acts[0]);
      RunStaysForgetting(Do(s, acts[0]), acts[1..], follows);
    }
  }

  /**
   * A DELETE that comes before the configuration is wiped for another: where the run can go no further, flash asks for
   * no connection after a restart; and the last word is the disconnection, shown with no name and reason code 2, if and
   * only if no attempt was still to be made.
   */
  lemma DeleteForgets(s: State, acts: seq<Action>)
    requires Sound(s) && Enabled(s, HttpDeletes) && !HasWiped(s.manager)
    requires IsRun(Do(s, HttpDeletes), acts) && IsUndisturbed(Do(s, HttpDeletes), acts)
    requires AtRest(After(Do(s, HttpDeletes), acts))
    ensures var t := After(Do(s, HttpDeletes), acts);
            && !Boot(t.files.nvs).requests.connect
            && (LastIsLeft(t.past.verdicts) <==> !AttemptFollows(s))
            && (!AttemptFollows(s) ==>
                  && t.board.status.Whole?
                  && ReadDocument(StatusServed(t.board.status.text)) ==
                     Some(Obj([Member("ssid", Str("")), Member("ip", Str("0")), Member("netmask", Str("0")),
                               Member("gw", Str("0")), Member("urc", Num(2))])))
  {
    var asked := Do(s, HttpDeletes);
    StepStaysSound(s, HttpDeletes);
    UndisturbedRunsEnd(asked, acts);
    RunStaysForgetting(asked, acts, AttemptFollows(s));
    var t := After(asked, acts);
    assert AfterLeaving(t, AttemptFollows(s));
    if !AttemptFollows(s) {
      var r := t.board.status.text;
      ZeroConfigShowsNothing();
      ReportReadsBack(ZERO_CONFIG, r.ip, r.netmask, r.gw, 2);
    }
  }

  // ----- the link

  /** The wiped station has no link, and none comes up. */
  predicate Severed(s: State) {
    Forgets(s, false) && (AfterLeaving(s, false) ==> Clean(s.radio))
  }

  lemma StepStaysSevered(s: State, a: Action)
    requires Enabled(s, a) && Severed(s) && Steady(s) && Coherent(s.manager, s.snapshot)
    requires !a.HttpGetsList? && !a.HttpGetsStatus? && !a.HttpDeletes? && !a.HttpPosts?
    ensures Severed(Do(s, a))
  {
    StepStaysForgetting(s, a, false);
  }

  lemma {:induction false} RunStaysSevered(s: State, acts: seq<Action>)
    requires IsRun(s, acts) && IsUndisturbed(s, acts) && IsCalm(s, acts)
    requires Severed(s) && Steady(s) && Coherent(s.manager, s.snapshot)
    ensures Severed(After(s, acts))
    decreases acts
  {
    if acts == [] {
    } else {
      StepStaysSevered(s, acts[0]);
      StepStaysSteady(s, acts[0]);
      StepStaysCoherent(s, acts[0]);
      RunStaysSevered(Do(s, acts[0]), acts[1..]);
    }
  }

  /** On calm runs the link is down in the end, and nothing of it is left. */
  lemma DeleteCutsTheLink(s: State, acts: seq<Action>)
    requires Sound(s) && Steady(s) && Enabled(s, HttpDeletes) && !HasWiped(s.manager) && !AttemptFollows(s)
    requires IsRun(Do(s, HttpDeletes), acts) && IsUndisturbed(Do(s, HttpDeletes), acts)
    requires IsCalm(Do(s, HttpDeletes), acts) && AtRest(After(Do(s, HttpDeletes), acts))
    ensures var r := After(Do(s, HttpDeletes), acts).radio; r.link.Down? && r.events == [] && !r.connected
  {
    var asked := Do(s, HttpDeletes);
    StepStaysSound(s, HttpDeletes);
    StepStaysSteady(s, HttpDeletes);
    UndisturbedRunsEnd(asked, acts);
    RunStaysSevered(asked, acts);
    assert AfterLeaving(After(asked, acts), false);
  }

  /** A network is joined and saved; then a client has it forgotten. */
  lemma ForgettingLeads() returns (t: State)
    ensures Reachable(t) && t.manager == Resetting(ToForget) && t.http.Ready? && t.board.holder.Nobody?
    ensures t.requests == NO_REQUESTS.(disconnect := true) && t.snapshot == Snapshot(true, t.requests)
    ensures t.radio == Radio(Down, [], 1, false, 1, true, 1) && t.past.verdicts == [Joined(1, 1)]
  {
    var s0 := JoinedLeads();
    var s1 := Leads(s0, HttpDeletes);
    var s2 := Leads(s1, ManagerWakes);
    var s3 := Leads(s2, STEP);
    var s4 := Leads(s3, STEP);
    var s5 := Leads(s4, DriverDelivers);
    t := Leads(s5, STEP);
  }

  lemma WipedLeads() returns (t: State)
    ensures Reachable(t) && t.manager == Locking(Left) && t.http.Ready? && t.board.holder.Nobody?
    ensures t.requests == NO_REQUESTS.(disconnect := true) && t.snapshot.wants == t.requests
    ensures t.radio.link.Down? && t.past.verdicts == [Joined(1, 1)]
    ensures t.files.config == ZERO_CONFIG && t.files.nvs == Some(ZERO_CONFIG)
  {
    var s0 := ForgettingLeads();
    var s1 := Leads(s0, STEP);
    var s2 := Leads(s1, STEP);
    t := Leads(s2, STEP);
  }

  /** A run from start-up that ends so. */
  lemma ForgottenHappens()
    ensures exists s ::
              && Reachable(s) && s.manager.Idle? && s.requests == NO_REQUESTS && s.http.Ready? && s.radio.link.Down?
              && s.past.verdicts == [Joined(1, 1), Left] && s.files.nvs == Some(ZERO_CONFIG)
              && ShowsNobody(s.board.status)
  {
    var s0 := WipedLeads();
    var s1 := Leads(s0, STEP);
    var s2 := Leads(s1, STEP);
    var s3 := Leads(s2, STEP);
    var s4 := Leads(s3, STEP);
    var s5 := Leads(s4, STEP);
    assert s5.manager.Idle? && s5.past.verdicts == [Joined(1, 1), Left];
  }
}
