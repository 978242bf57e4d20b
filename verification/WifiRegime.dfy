/** The calm regime is exact: when calling `esp_wifi_disconnect` can make the loop misjudge attempts to come. */
module WifiRegime {
  import opened WifiLoop
  import opened WifiMutex
  import opened WifiRequests
  import opened WifiHonesty

  /** A connection attempt has just been judged. */
  predicate IsVerdict(pc: ManagerPc) {
    pc.Locking? && !pc.v.Left?
  }

  /** The run leads to the next verdict on an attempt, which is `v`. */
  predicate Reaches(s: State, acts: seq<Action>, v: Verdict)
    requires IsRun(s, acts)
    decreases acts
  {
    if acts == [] then s.manager == Locking(v) && !v.Left?
    else !IsVerdict(s.manager) && Reaches(Do(s, acts[0]), acts[1..], v)
  }

  /** Whatever happens, as long as the loop stays calm from here on: the next attempt is judged on its own event. */
  ghost predicate HonestFrom(s: State) {
    forall acts, v :: IsRun(s, acts) && IsCalm(s, acts) && Reaches(s, acts, v) ==> Own(v)
  }

  predicate SuccessOwn(pc: ManagerPc) {
    pc.Locking? && pc.v.Joined? ==> Own(pc.v)
  }

  /** Whatever happens on calm continuations: no success is ever published for an attempt that has not succeeded. */
  ghost predicate SuccessesHonestFrom(s: State) {
    forall acts :: IsRun(s, acts) && IsCalm(s, acts) ==> SuccessOwn(After(s, acts).manager)
  }

  // ----- calm calls are honest

  lemma {:induction false} WayIsHonest(s: State, acts: seq<Action>, v: Verdict)
    requires IsRun(s, acts) && IsCalm(s, acts) && Reaches(s, acts, v) && Steady(s) && Coherent(s.manager, s.snapshot)
    ensures Own(v)
    decreases acts
  {
    if acts == [] {
      assert s.manager == Locking(v);
    } else {
      StepStaysSteady(s, acts[0]);
      StepStaysCoherent(s, acts[0]);
      WayIsHonest(Do(s, acts[0]), acts[1..], v);
    }
  }

  /** On a calm run the next attempt is judged honestly, from wherever it has led to. */
  lemma SteadyIsHonest(s: State)
    requires Steady(s) && Coherent(s.manager, s.snapshot)
    ensures HonestFrom(s)
  {
    forall acts, v | IsRun(s, acts) && IsCalm(s, acts) && Reaches(s, acts, v)
      ensures Own(v)
    {
      WayIsHonest(s, acts, v);
    }
  }

  // ----- a disconnect handler with a connection to make behind it disconnects again

  predicate InLag(pc: ManagerPc) {
    match pc
    case AwaitingLoss(p) => p.ToForget?
    case Resetting(p) => p.ToForget?
    case Forgetting => true
    case Blanking => true
    case Locking(v) => v.Left?
    case Erasing(v) => v.Left?
    case Reporting(v) => v.Left?
    case Unlocking(v) => v.Left?
    case Finishing(p) => p.ToForget?
    case Preparing(p) => p.ToJoin?
    case Leaving(p) => p.ToJoin?
    case _ => false
  }

  /** Losses of the last link are outstanding, and the loop is on its way to the call that decides about them. */
  predicate Lagging(s: State) {
    var n := s.radio.attempts;
    && InLag(s.manager) && s.snapshot.connected && s.snapshot.wants.connect
    && s.radio.link.Down?
    && (forall i :: 0 <= i < |s.radio.events| ==> s.radio.events[i] == Disconnected(n))
    && (s.radio.connected ==> s.radio.connectedBy == n && s.radio.events != [])
    && (s.radio.lost ==> s.radio.lostBy == n)
    && AllOwn(s.past.verdicts)
  }

  lemma LaggingCatchesUp(s: State, world: World)
    requires Lagging(s) && s.manager.Leaving? && Calm(s, ManagerSteps(world))
    ensures Steady(s)
  {
    NoLossFirst(s.radio.events);
  }

  lemma LaggingStep(s: State, a: Action)
    requires Lagging(s) && Enabled(s, a) && !(a.ManagerSteps? && s.manager.Leaving?)
    ensures Lagging(Do(s, a))
  {
  }

  lemma {:induction false} LagIsHonest(s: State, acts: seq<Action>, v: Verdict)
    requires IsRun(s, acts) && IsCalm(s, acts) && Reaches(s, acts, v) && Lagging(s) && Coherent(s.manager, s.snapshot)
    ensures Own(v)
    decreases acts
  {
    if acts == [] {
    } else if acts[0].ManagerSteps? && s.manager.Leaving? {
      LaggingCatchesUp(s, acts[0].world);
      WayIsHonest(s, acts, v);
    } else {
      LaggingStep(s, acts[0]);
      StepStaysCoherent(s, acts[0]);
      LagIsHonest(Do(s, acts[0]), acts[1..], v);
    }
  }

  lemma LaggingIsHonest(s: State)
    requires Lagging(s) && Coherent(s.manager, s.snapshot)
    ensures HonestFrom(s)
  {
    forall acts, v | IsRun(s, acts) && IsCalm(s, acts) && Reaches(s, acts, v)
      ensures Own(v)
    {
      LagIsHonest(s, acts, v);
    }
  }

  lemma CallMayLag(s: State)
    requires Steady(s) && Coherent(s.manager, s.snapshot) && s.manager == Leaving(ToForget) && s.snapshot.wants.connect
    requires !NoLossYet(s.radio)
    ensures Lagging(ManagerStep(s, SOME_WORLD))
  {
  }

  lemma {:induction false} LagStays(s: State, acts: seq<Action>)
    requires IsRun(s, acts) && IsCalm(s, acts) && Lagging(s) && Coherent(s.manager, s.snapshot)
    ensures Lagging(After(s, acts)) || Steady(After(s, acts))
    decreases acts
  {
    if acts == [] {
    } else if acts[0].ManagerSteps? && s.manager.Leaving? {
      LaggingCatchesUp(s, acts[0].world);
      RunStaysSteady(s, acts);
    } else {
      LaggingStep(s, acts[0]);
      StepStaysCoherent(s, acts[0]);
      LagStays(Do(s, acts[0]), acts[1..]);
    }
  }

  lemma SuccessesHonest(s: State)
    requires (Steady(s) || Lagging(s)) && Coherent(s.manager, s.snapshot)
    ensures SuccessesHonestFrom(s)
  {
    forall acts | IsRun(s, acts) && IsCalm(s, acts)
      ensures SuccessOwn(After(s, acts).manager)
    {
      if Steady(s) {
        RunStaysSteady(s, acts);
      } else {
        LagStays(s, acts);
      }
    }
  }

  // ----- calm runs in pieces

  /** A calm run leads from `s` to `t`. */
  ghost predicate Calmly(s: State, acts: seq<Action>, t: State) {
    IsRun(s, acts) && IsCalm(s, acts) && After(s, acts) == t
  }

  /** No attempt is judged before the end of the run. */
  predicate Unjudged(s: State, acts: seq<Action>)
    requires IsRun(s, acts)
    decreases acts
  {
    acts == [] || (!IsVerdict(s.manager) && Unjudged(Do(s, acts[0]), acts[1..]))
  }

  lemma CalmlyCons(s: State, a: Action, acts: seq<Action>, t: State)
    requires Enabled(s, a) && Calm(s, a) && Calmly(Do(s, a), acts, t)
    ensures Calmly(s, [a] + acts, t)
    ensures !IsVerdict(s.manager) && Unjudged(Do(s, a), acts) ==> Unjudged(s, [a] + acts)
  {
    assert ([a] + acts)[1..] == acts;
  }

  lemma {:induction false} CalmlyConcat(s: State, acts: seq<Action>, t: State, more: seq<Action>, u: State)
    requires Calmly(s, acts, t) && Calmly(t, more, u)
    ensures Calmly(s, acts + more, u)
    ensures Unjudged(s, acts) && Unjudged(t, more) ==> Unjudged(s, acts + more)
    decreases acts
  {
    if acts == [] {
      assert acts + more == more;
    } else {
      CalmlyConcat(Do(s, acts[0]), acts[1..], t, more, u);
      assert (acts + more)[1..] == acts[1..] + more;
    }
  }

  lemma {:induction false} UnjudgedReaches(s: State, acts: seq<Action>, v: Verdict)
    requires IsRun(s, acts) && Unjudged(s, acts) && After(s, acts).manager == Locking(v) && !v.Left?
    ensures Reaches(s, acts, v)
    decreases acts
  {
    if acts == [] {
    } else {
      UnjudgedReaches(Do(s, acts[0]), acts[1..], v);
    }
  }

  // ----- the way to the next attempt

  /** The loop has nothing to disconnect on its way to the next attempt, and none under way. */
  predicate Steerable(s: State) {
    && Disciplined(s) && Coherent(s.manager, s.snapshot) && !s.radio.connected
    && !s.manager.Preparing? && !s.manager.Leaving? && (s.manager.AwaitingLoss? ==> s.radio.lost)
    && !s.manager.Attempting? && !s.manager.AwaitingResult?
    && (PartOf(s.manager).ForgetPart? ==> !s.snapshot.connected || !s.snapshot.wants.connect)
  }

  /** A handler that has made its attempt. */
  predicate Past(pc: ManagerPc) {
    match pc
    case Locking(v) => !v.Left?
    case Erasing(v) => !v.Left?
    case Reporting(v) => !v.Left?
    case Storing(_) => true
    case Wiping(_) => true
    case Removing(_) => true
    case Unlocking(v) => !v.Left?
    case Finishing(p) => p.ToJoin?
    case _ => false
  }

  /** How far the loop is from configuring the driver for the next attempt, in handlers and clients. */
  function Stage(s: State): nat {
    match PartOf(s.manager)
    case JoinPart => if Past(s.manager) then 7 else 1
    case ForgetPart => if s.snapshot.wants.connect then 2 else 5
    case _ =>
      if s.requests.connect || Posting(s.http) then 3
      else if s.requests.disconnect then 6 else 4
  }

  /** The next step on that way, with as few clients as possible and no event. */
  function Steer(s: State): Action {
    if s.manager.Idle? then
      if !s.http.Ready? then HttpSteps
      else if s.requests.connect || s.requests.disconnect then ManagerWakes
      else HttpPosts(['a'], [])
    else if s.manager.Locking? && !s.board.holder.Nobody? then HttpSteps
    else ManagerSteps(SOME_WORLD)
  }

  predicate Nearer(t: State, s: State) {
    || Stage(t) < Stage(s)
    || (Stage(t) == Stage(s)
        && (StepsLeft(t.manager) < StepsLeft(s.manager)
            || (StepsLeft(t.manager) == StepsLeft(s.manager) && HttpCost(t.http) < HttpCost(s.http))))
  }

  predicate Steered(s: State, t: State) {
    && Steerable(t) && t.radio == s.radio.(lost := t.radio.lost)
    && (!Past(s.manager) ==> !Past(t.manager))
  }

  lemma SteerManager(s: State)
    requires Steerable(s) && !s.manager.Configuring? && !s.manager.Idle?
    requires s.manager.Locking? ==> s.board.holder.Nobody?
    ensures var t := ManagerStep(s, SOME_WORLD); ManagerCanStep(s, SOME_WORLD) && Steered(s, t) && Nearer(t, s)
  {
    hide Disciplined;
    StepStaysDisciplined(s, ManagerSteps(SOME_WORLD));
    StepStaysCoherent(s, ManagerSteps(SOME_WORLD));
    StepsDecrease(s.manager, s.radio, s.snapshot, SOME_WORLD);
    PartStays(s.manager, s.radio, s.snapshot, SOME_WORLD);
    SecondPart(s.snapshot);
  }

  lemma SteerHttp(s: State)
    requires Steerable(s) && Enabled(s, HttpSteps)
    ensures Steered(s, HttpStep(s)) && Nearer(HttpStep(s), s)
  {
    StepStaysDisciplined(s, HttpSteps);
  }

  lemma SteerWake(s: State)
    requires Steerable(s) && s.manager.Idle? && s.http.Ready? && (s.requests.connect || s.requests.disconnect)
    ensures Steered(s, Wake(s)) && Nearer(Wake(s), s)
  {
    StepStaysDisciplined(s, ManagerWakes);
    StepStaysCoherent(s, ManagerWakes);
    SecondPart(Wake(s).snapshot);
  }

  lemma SteerPost(s: State)
    requires Steerable(s) && s.manager.Idle? && s.http.Ready? && !s.requests.connect && !s.requests.disconnect
    ensures Steered(s, Do(s, HttpPosts(['a'], []))) && Nearer(Do(s, HttpPosts(['a'], [])), s)
  {
    StepStaysDisciplined(s, HttpPosts(['a'], []));
  }

  lemma SteerStep(s: State)
    requires Steerable(s) && !s.manager.Configuring?
    ensures Enabled(s, Steer(s)) && Calm(s, Steer(s))
    ensures Steered(s, Do(s, Steer(s))) && Nearer(Do(s, Steer(s)), s)
  {
    match Steer(s)
    case HttpSteps => SteerHttp(s);
    case ManagerWakes => SteerWake(s);
    case HttpPosts(_, _) => SteerPost(s);
    case ManagerSteps(_) => SteerManager(s);
    case _ =>
  }

  /** From wherever it can be steered to it, the loop comes to configure the driver, handling no event meanwhile. */
  lemma ConfiguringLeads(s: State) returns (acts: seq<Action>, t: State)
    requires Steerable(s)
    ensures Calmly(s, acts, t) && Steered(s, t) && t.manager.Configuring?
    ensures !Past(s.manager) ==> Unjudged(s, acts)
    decreases Stage(s), StepsLeft(s.manager), HttpCost(s.http)
  {
    if s.manager.Configuring? {
      acts, t := [], s;
    } else {
      hide Steerable;
      var a := Steer(s);
      SteerStep(s);
      var more;
      more, t := ConfiguringLeads(Do(s, a));
      acts := [a] + more;
      CalmlyCons(s, a, more, t);
    }
  }

  // ----- other calls that are not calm mislead

  const STEP := ManagerSteps(SOME_WORLD)

  /** Losses of the last link: one outstanding, and the loop waits for none. */
  predicate Doomed(s: State) {
    Steerable(s) && !Past(s.manager) && |s.radio.events| == 1 && s.radio.events[0] == Disconnected(s.radio.attempts)
  }

  /** The attempt has just been judged on something else, and its link may still come up. */
  predicate Adrift(s: State) {
    Steerable(s) && s.radio.link == Joining(s.radio.attempts) && s.radio.events == []
  }

  /** From configuring the driver to waiting for the result. */
  lemma AttemptLeads(s: State) returns (t: State)
    requires s.manager.Configuring?
    ensures Calmly(s, [STEP] + ([STEP] + []), t) && Unjudged(s, [STEP] + ([STEP] + []))
    ensures t == s.(manager := AwaitingResult, radio := Attempt(s.radio), files := s.files.(used := s.files.config))
  {
    var u := Do(s, STEP);
    t := Do(u, STEP);
    CalmlyCons(u, STEP, [], t);
    CalmlyCons(s, STEP, [STEP] + [], t);
  }

  /** The loss is handled, and taken for the result. */
  lemma LossJudged(s: State) returns (t: State)
    requires s.manager.AwaitingResult? && s.radio.events != [] && s.radio.events[0].Disconnected?
    ensures Calmly(s, [DriverDelivers] + ([STEP] + []), t) && Unjudged(s, [DriverDelivers] + ([STEP] + []))
    ensures t == s.(radio := Deliver(s.radio), manager := Locking(Judge(Deliver(s.radio))))
  {
    var u := Do(s, DriverDelivers);
    t := Do(u, STEP);
    CalmlyCons(u, STEP, [], t);
    CalmlyCons(s, DriverDelivers, [STEP] + [], t);
  }

  lemma LossJudgedSteerable(s: State, t: State)
    requires Disciplined(s) && Coherent(s.manager, s.snapshot) && s.manager.AwaitingResult?
    requires s.radio.events != [] && s.radio.events[0].Disconnected?
    requires t == s.(radio := Deliver(s.radio), manager := Locking(Judge(Deliver(s.radio))))
    ensures Steerable(t)
  {
  }

  /** With a loss outstanding the next attempt is judged on that. */
  lemma StaleVerdict(s: State) returns (acts: seq<Action>, t: State)
    requires Doomed(s) && s.manager.Configuring?
    ensures Calmly(s, acts, t) && Unjudged(s, acts) && Adrift(t)
    ensures t.manager.Locking? && t.manager.v == Failed(s.radio.attempts + 1, s.radio.attempts)
  {
    var u := AttemptLeads(s);
    t := LossJudged(u);
    acts := ([STEP] + ([STEP] + [])) + ([DriverDelivers] + ([STEP] + []));
    CalmlyConcat(s, [STEP] + ([STEP] + []), u, [DriverDelivers] + ([STEP] + []), t);
    LossJudgedSteerable(u, t);
  }

  /** The link comes up while the driver is configured for another attempt. */
  lemma LateLink(s: State) returns (t: State)
    requires Adrift(s) && s.manager.Configuring?
    ensures Calmly(s, [DriverJoins] + ([DriverDelivers] + []), t) && t == s.(radio := t.radio)
    ensures t.radio.connected && t.radio.connectedBy == s.radio.attempts && t.radio.attempts == s.radio.attempts
  {
    var u := Do(s, DriverJoins);
    t := Do(u, DriverDelivers);
    CalmlyCons(u, DriverDelivers, [], t);
    CalmlyCons(s, DriverJoins, [DriverDelivers] + [], t);
  }

  /** Then its address is taken for that attempt's. */
  lemma StaleSuccess(s: State) returns (acts: seq<Action>, t: State)
    requires Adrift(s) && s.manager.Configuring?
    ensures Calmly(s, acts, t)
    ensures t.manager == Locking(Joined(s.radio.attempts + 1, s.radio.attempts))
  {
    hide Adrift;
    var u := LateLink(s);
    var w := AttemptLeads(u);
    t := Do(w, STEP);
    CalmlyCons(w, STEP, [], t);
    CalmlyConcat(u, [STEP] + ([STEP] + []), w, [STEP] + [], t);
    acts := ([DriverJoins] + ([DriverDelivers] + [])) + (([STEP] + ([STEP] + [])) + ([STEP] + []));
    CalmlyConcat(s, [DriverJoins] + ([DriverDelivers] + []), u, ([STEP] + ([STEP] + [])) + ([STEP] + []), t);
  }

  /** The next attempt is misjudged as a failure ... */
  lemma DoomedFails(s: State) returns (acts: seq<Action>, t: State)
    requires Doomed(s)
    ensures Calmly(s, acts, t) && Unjudged(s, acts) && Adrift(t)
    ensures t.manager.Locking? && t.manager.v == Failed(s.radio.attempts + 1, s.radio.attempts)
  {
    var way, u := ConfiguringLeads(s);
    var end;
    end, t := StaleVerdict(u);
    acts := way + end;
    CalmlyConcat(s, way, u, end, t);
  }

  /** ... and the one after it as a success. */
  lemma DoomedSucceeds(s: State) returns (acts: seq<Action>, t: State)
    requires Doomed(s)
    ensures Calmly(s, acts, t) && !SuccessOwn(t.manager)
  {
    var fail, u := DoomedFails(s);
    var way, w := ConfiguringLeads(u);
    var end;
    end, t := StaleSuccess(w);
    CalmlyConcat(u, way, w, end, t);
    acts := fail + (way + end);
    CalmlyConcat(s, fail, u, way + end, t);
  }

  /** A call that is not calm leads there, at once or when the first of two losses is handled. */
  lemma CallDooms(s: State) returns (acts: seq<Action>, t: State)
    requires Steady(s) && Disciplined(s) && Coherent(s.manager, s.snapshot)
    requires s.manager.Leaving? && !NoLossYet(s.radio)
    requires s.manager == Leaving(ToForget) ==> !s.snapshot.wants.connect
    ensures var u := ManagerStep(s, SOME_WORLD); Calmly(u, acts, t) && Unjudged(u, acts)
    ensures Doomed(t)
  {
    var u := ManagerStep(s, SOME_WORLD);
    StepStaysDisciplined(s, STEP);
    StepStaysCoherent(s, STEP);
    if s.radio.lost {
      acts, t := [], u;
    } else {
      assert s.radio.events == [Disconnected(s.radio.attempts)];
      t := Do(u, DriverDelivers);
      acts := [DriverDelivers] + [];
      CalmlyCons(u, DriverDelivers, [], t);
    }
  }

  lemma LossMisleads(s: State)
    requires Steady(s) && Disciplined(s) && Coherent(s.manager, s.snapshot)
    requires s.manager.Leaving? && !NoLossYet(s.radio)
    requires s.manager == Leaving(ToForget) ==> !s.snapshot.wants.connect
    ensures !HonestFrom(ManagerStep(s, SOME_WORLD))
    ensures !SuccessesHonestFrom(ManagerStep(s, SOME_WORLD))
  {
    hide Doomed;
    var u := ManagerStep(s, SOME_WORLD);
    var first, d := CallDooms(s);
    var fail, f := DoomedFails(d);
    CalmlyConcat(u, first, d, fail, f);
    UnjudgedReaches(u, first + fail, f.manager.v);
    var succeed, t := DoomedSucceeds(d);
    CalmlyConcat(u, first, d, succeed, t);
  }

  // ----- the exact condition

  /**
   * When the call of `esp_wifi_disconnect`, in either handler, is harmless: the link has not been lost since the bit
   * was cleared; or it is the call of a disconnect handler with a connection asked for in the same iteration, whose
   * connect handler disconnects again, so that its call decides.
   */
  predicate IsHarmlessCall(s: State)
    requires s.manager.Leaving?
  {
    NoLossYet(s.radio) || (s.manager.p.ToForget? && s.snapshot.wants.connect)
  }

  /**
   * What the bit was before it is cleared does not matter: seen from there, the call will be harmless, if it comes
   * next, exactly when no loss is on its way.
   */
  lemma ClearingForgetsLosses(s: State, world: World)
    requires s.manager.Preparing?
    ensures var t := ManagerStep(s, world);
            && t.manager == Leaving(s.manager.p)
            && (IsHarmlessCall(t) <==>
                  !SomeLoss(s.radio.events) || (s.manager.p.ToForget? && s.snapshot.wants.connect))
  {
  }

  /** After exactly these calls the next attempt is sure to be judged on an event of its own, success or failure. */
  lemma HonestIffNoLossYet(s: State)
    requires Steady(s) && Disciplined(s) && Coherent(s.manager, s.snapshot) && s.manager.Leaving?
    ensures HonestFrom(ManagerStep(s, SOME_WORLD)) <==> IsHarmlessCall(s)
  {
    var t := ManagerStep(s, SOME_WORLD);
    StepStaysCoherent(s, STEP);
    if NoLossYet(s.radio) {
      StepStaysSteady(s, STEP);
      SteadyIsHonest(t);
    } else if s.manager.p.ToForget? && s.snapshot.wants.connect {
      CallMayLag(s);
      LaggingIsHonest(t);
    } else {
      LossMisleads(s);
    }
  }

  /** After exactly these calls every success that is published later belongs to the attempt it is published for. */
  lemma SuccessIffNoLossYet(s: State)
    requires Steady(s) && Disciplined(s) && Coherent(s.manager, s.snapshot) && s.manager.Leaving?
    ensures SuccessesHonestFrom(ManagerStep(s, SOME_WORLD)) <==> IsHarmlessCall(s)
  {
    StepStaysCoherent(s, STEP);
    if NoLossYet(s.radio) {
      StepStaysSteady(s, STEP);
      SuccessesHonest(ManagerStep(s, SOME_WORLD));
    } else if s.manager.p.ToForget? && s.snapshot.wants.connect {
      CallMayLag(s);
      SuccessesHonest(ManagerStep(s, SOME_WORLD));
    } else {
      LossMisleads(s);
    }
  }
}
