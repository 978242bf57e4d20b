/** Whose events a connection attempt is judged on. */
module WifiHonesty {
  import opened Wrappers
  import opened StatusJson
  import opened WifiLoop
  import opened WifiRequests

  /** The verdict on an attempt rests on an event of that attempt's own. */
  predicate Own(v: Verdict) {
    !v.Left? ==> v.cause == v.attempt
  }

  predicate AllOwn(vs: seq<Verdict>) {
    forall i :: 0 <= i < |vs| ==> Own(vs[i])
  }

  // ----- when one disconnect event is outstanding at a time

  /**
   * The regime: `esp_wifi_disconnect` is called only while the link has not been lost since the loop cleared the
   * STA_DISCONNECT bit, neither with the event handled nor with the event on its way.
   */
  predicate NoLossYet(r: Radio) {
    !r.lost && !SomeLoss(r.events)
  }

  predicate Calm(s: State, a: Action) {
    a.ManagerSteps? && s.manager.Leaving? ==> NoLossYet(s.radio)
  }

  /** The link and the events outstanding agree with the bits; everything is about the last attempt. */
  predicate Regular(r: Radio) {
    var n := r.attempts;
    && (r.connected ==> r.connectedBy == n)
    && (r.lost ==> r.lostBy == n)
    && match r.link
       case Joining(k) => k == n && r.events == [] && !r.connected && !r.lost
       case Up(k) => k == n && !r.lost && (if r.connected then r.events == [] else r.events == [GotIp(n)])
       case Down =>
         || (r.events == [] && !r.connected)
         || (r.events == [Disconnected(n)] && !r.lost)
         || (r.events == [GotIp(n), Disconnected(n)] && !r.connected && !r.lost)
  }

  /** Nothing is left of any attempt. */
  predicate Clean(r: Radio) {
    r.link.Down? && r.events == [] && !r.connected
  }

  /** The last attempt has been judged: its link is up, or its loss is on its way, or it is gone. */
  predicate Judged(r: Radio) {
    || (r.link.Up? && r.connected)
    || (r.link.Down? && r.connected && r.events == [Disconnected(r.attempts)])
    || Clean(r)
  }

  predicate NeedsClean(pc: ManagerPc) {
    match pc
    case Resetting(_) => true
    case Forgetting => true
    case Blanking => true
    case Configuring => true
    case Attempting => true
    case Locking(v) => v.Left?
    case Erasing(v) => v.Left?
    case Reporting(v) => v.Left?
    case Unlocking(v) => v.Left?
    case Finishing(p) => p.ToForget?
    case _ => false
  }

  /** What the loop may count on, at each of its places. */
  predicate Expected(pc: ManagerPc, r: Radio) {
    match pc
    case AwaitingResult => true
    case AwaitingLoss(_) => Judged(r) || (r.link.Down? && r.events == [Disconnected(r.attempts)])
    case Attempting => Clean(r) && !r.lost
    case Configuring => Clean(r) && !r.lost
    case _ => if NeedsClean(pc) then Clean(r) else Judged(r)
  }

  predicate VerdictOwn(pc: ManagerPc) {
    match pc
    case Locking(v) => Own(v)
    case Erasing(v) => Own(v)
    case Reporting(v) => Own(v)
    case _ => true
  }

  predicate Steady(s: State) {
    Regular(s.radio) && Expected(s.manager, s.radio) && VerdictOwn(s.manager) && AllOwn(s.past.verdicts)
  }

  lemma DriverStaysRegular(r: Radio)
    requires Regular(r)
    ensures r.link.Joining? ==> Regular(Join(r))
    ensures !r.link.Down? ==> Regular(Drop(r))
    ensures r.events != [] ==> Regular(Deliver(r))
  {
  }

  lemma DriverStaysExpected(pc: ManagerPc, r: Radio)
    requires Regular(r) && Expected(pc, r)
    ensures r.link.Joining? ==> Expected(pc, Join(r))
    ensures !r.link.Down? ==> Expected(pc, Drop(r))
    ensures r.events != [] ==> Expected(pc, Deliver(r))
  {
  }

  lemma NoLossFirst(events: seq<DriverEvent>)
    requires !SomeLoss(events)
    ensures events == [] || events[0].GotIp?
  {
  }

  lemma LeaveStaysRegular(r: Radio)
    requires Regular(r) && Judged(r) && NoLossYet(r)
    ensures Regular(Leave(r)) && Leave(r).link.Down? && Leave(r).events == [Disconnected(r.attempts)]
  {
    NoLossFirst(r.events);
  }

  lemma JudgeIsOwn(r: Radio)
    requires Regular(r) && (r.connected || r.lost)
    ensures Own(Judge(r)) && Judged(r)
  {
  }

  lemma ManagerStaysSteady(s: State, world: World)
    requires Steady(s) && ManagerCanStep(s, world) && Calm(s, ManagerSteps(world))
    requires Coherent(s.manager, s.snapshot)
    ensures Steady(ManagerStep(s, world))
  {
    match s.manager
    case Leaving(_) => LeaveStaysRegular(s.radio);
    case AwaitingResult => JudgeIsOwn(s.radio);
    case Finishing(_) => SecondPart(s.snapshot);
    case _ =>
  }

  lemma StepStaysSteady(s: State, a: Action)
    requires Steady(s) && Enabled(s, a) && Calm(s, a) && Coherent(s.manager, s.snapshot)
    ensures Steady(Do(s, a))
  {
    match a
    case ManagerSteps(world) => ManagerStaysSteady(s, world);
    case DriverJoins => DriverStaysRegular(s.radio); DriverStaysExpected(s.manager, s.radio);
    case DriverDrops => DriverStaysRegular(s.radio); DriverStaysExpected(s.manager, s.radio);
    case DriverDelivers => DriverStaysRegular(s.radio); DriverStaysExpected(s.manager, s.radio);
    case _ =>
  }

  predicate IsCalm(s: State, acts: seq<Action>)
    requires IsRun(s, acts)
    decreases acts
  {
    acts == [] || (Calm(s, acts[0]) && IsCalm(Do(s, acts[0]), acts[1..]))
  }

  lemma {:induction false} RunStaysSteady(s: State, acts: seq<Action>)
    requires IsRun(s, acts) && IsCalm(s, acts) && Steady(s) && Coherent(s.manager, s.snapshot)
    ensures Steady(After(s, acts)) && Coherent(After(s, acts).manager, After(s, acts).snapshot)
    decreases acts
  {
    if acts == [] {
    } else {
      StepStaysSteady(s, acts[0]);
      StepStaysCoherent(s, acts[0]);
      RunStaysSteady(Do(s, acts[0]), acts[1..]);
    }
  }

  /**
   * On every calm run each attempt is judged on an event of its own: success is published only after a GOT_IP of the
   * link that its own `esp_wifi_connect` asked for, failure only after that link came to nothing.
   */
  lemma CalmRunsAreHonest(nvs: Option<StaConfig>, acts: seq<Action>)
    requires IsRun(Boot(nvs), acts) && IsCalm(Boot(nvs), acts)
    ensures AllOwn(After(Boot(nvs), acts).past.verdicts)
  {
    RunStaysSteady(Boot(nvs), acts);
  }
}
