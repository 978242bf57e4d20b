/** The request bits: what an iteration clears, how all requests drain, and why the loop never gets stuck. */
module WifiRequests {
  import opened Wrappers
  import opened StatusJson
  import opened WifiLoop
  import opened WifiMutex

  // ----- what an iteration clears

  /** The part of an iteration that a program counter lies in. */
  datatype Part = Between | ForgetPart | JoinPart | ScanPart

  function PartFor(p: Purpose): Part {
    if p.ToForget? then ForgetPart else JoinPart
  }

  function PartOf(pc: ManagerPc): Part {
    match pc
    case Idle => Between
    case Preparing(p) => PartFor(p)
    case Leaving(p) => PartFor(p)
    case AwaitingLoss(p) => PartFor(p)
    case Resetting(p) => PartFor(p)
    case Forgetting => ForgetPart
    case Blanking => ForgetPart
    case Configuring => JoinPart
    case Attempting => JoinPart
    case AwaitingResult => JoinPart
    case Locking(v) => if v.Left? then ForgetPart else JoinPart
    case Erasing(v) => if v.Left? then ForgetPart else JoinPart
    case Reporting(v) => if v.Left? then ForgetPart else JoinPart
    case Storing(_) => JoinPart
    case Wiping(_) => JoinPart
    case Removing(_) => JoinPart
    case Unlocking(v) => if v.Left? then ForgetPart else JoinPart
    case Finishing(p) => PartFor(p)
    case Scanning => ScanPart
    case ListLocking(_) => ScanPart
    case ListErasing(_) => ScanPart
    case Listing(_) => ScanPart
    case ListUnlocking => ScanPart
    case FinishingScan => ScanPart
  }

  /** The program counter and the bits that the iteration looks at belong together. */
  predicate Coherent(pc: ManagerPc, w: Snapshot) {
    && (PartOf(pc).ForgetPart? ==> w.wants.disconnect)
    && (PartOf(pc).JoinPart? ==> w.wants.connect)
    && (PartOf(pc).ScanPart? ==> w.wants.scan && !w.wants.connect)
    && (pc.Storing? || pc.Wiping? || pc.Removing? ==> !pc.v.Left?)
    && (pc.Preparing? || pc.Leaving? || pc.AwaitingLoss? ==> w.connected)
  }

  /** The requests that the rest of the iteration clears. */
  function ToClear(part: Part, w: Snapshot): Requests {
    match part
    case Between => NO_REQUESTS
    case ForgetPart => Requests(w.wants.connect, !w.wants.connect && w.wants.scan, true)
    case JoinPart => Requests(true, false, false)
    case ScanPart => Requests(false, true, false)
  }

  /** The requests that are left when the iteration is over, if no new ones come. */
  function Remaining(s: State): Requests {
    var c := ToClear(PartOf(s.manager), s.snapshot);
    Requests(s.requests.connect && !c.connect, s.requests.scan && !c.scan, s.requests.disconnect && !c.disconnect)
  }

  /** What one iteration makes of the requests it finds: a scan waits for as long as a connection is wanted. */
  function NextRound(q: Requests): Requests {
    NO_REQUESTS.(scan := q.scan && q.connect)
  }

  /** No request bit is set by this step. */
  predicate Quiet(s: State, a: Action) {
    !a.HttpDeletes? && !(a.HttpSteps? && (s.http.AskingScan? || s.http.PostAsking?))
  }

  /** Only the two finishing steps lead out of a part. */
  lemma PartStays(pc: ManagerPc, r: Radio, w: Snapshot, world: World)
    requires pc.Storing? || pc.Wiping? || pc.Removing? ==> !pc.v.Left?
    ensures var next := ManagerNext(pc, r, w, world);
            && (!pc.Finishing? && !pc.FinishingScan? ==> PartOf(next) == PartOf(pc))
            && (next.Storing? || next.Wiping? || next.Removing? ==> !next.v.Left?)
  {
  }

  lemma SecondPart(w: Snapshot)
    ensures PartOf(Second(w)) == if w.wants.connect then JoinPart else if w.wants.scan then ScanPart else Between
  {
  }

  lemma StepStaysCoherent(s: State, a: Action)
    requires Enabled(s, a) && Coherent(s.manager, s.snapshot)
    ensures Coherent(Do(s, a).manager, Do(s, a).snapshot)
  {
    match a
    case ManagerSteps(world) =>
      PartStays(s.manager, s.radio, s.snapshot, world);
      SecondPart(s.snapshot);
    case ManagerWakes => SecondPart(Wake(s).snapshot);
    case _ =>
  }

  lemma ManagerStepRemains(pc: ManagerPc, r: Radio, w: Snapshot, q: Requests, world: World)
    requires Coherent(pc, w) && !pc.Idle?
    ensures var c, d := ToClear(PartOf(pc), w), ToClear(PartOf(ManagerNext(pc, r, w, world)), w);
            var t := ManagerRequests(pc, q);
            && (t.connect && !d.connect <==> q.connect && !c.connect)
            && (t.scan && !d.scan <==> q.scan && !c.scan)
            && (t.disconnect && !d.disconnect <==> q.disconnect && !c.disconnect)
  {
    if pc.Finishing? {
      SecondPart(w);
    } else if !pc.FinishingScan? {
      PartStays(pc, r, w, world);
      assert ManagerRequests(pc, q) == q;
    }
  }

  /** An iteration clears what it said it would, whatever happens meanwhile. */
  lemma QuietStepRemains(s: State, a: Action)
    requires Enabled(s, a) && Coherent(s.manager, s.snapshot) && Quiet(s, a)
    ensures Remaining(Do(s, a)) == if a.ManagerWakes? then NextRound(s.requests) else Remaining(s)
  {
    match a
    case ManagerWakes =>
      SecondPart(Wake(s).snapshot);
      assert Remaining(Wake(s)) == NextRound(s.requests);
    case ManagerSteps(world) => ManagerStepRemains(s.manager, s.radio, s.snapshot, s.requests, world);
    case HttpSteps => assert HttpRequests(s.http, s.requests) == s.requests;
    case _ =>
  }

  predicate IsQuiet(s: State, acts: seq<Action>)
    requires IsRun(s, acts)
    decreases acts
  {
    acts == [] || (Quiet(s, acts[0]) && IsQuiet(Do(s, acts[0]), acts[1..]))
  }

  function Wakes(acts: seq<Action>): nat {
    if acts == [] then 0 else (if acts[0].ManagerWakes? then 1 else 0) + Wakes(acts[1..])
  }

  /** How many iterations it takes to be done with these requests. */
  function Rounds(q: Requests): nat {
    if !AnyRequest(q) then 0 else if q.scan && q.connect then 2 else 1
  }

  lemma RoundsDecrease(q: Requests)
    requires AnyRequest(q)
    ensures Rounds(NextRound(q)) == Rounds(q) - 1
    ensures NextRound(q).connect ==> q.connect
    ensures NextRound(q).scan ==> q.scan
    ensures NextRound(q).disconnect ==> q.disconnect
  {
  }

  /**
   * Without new requests each iteration clears at least one and never sets one, so that whatever is pending is gone
   * after two: in every run the iterations begun and those still needed add up.
   */
  lemma {:induction false} RequestsDrain(s: State, acts: seq<Action>)
    requires IsRun(s, acts) && Coherent(s.manager, s.snapshot) && IsQuiet(s, acts)
    ensures Wakes(acts) + Rounds(Remaining(After(s, acts))) == Rounds(Remaining(s)) <= 2
    ensures After(s, acts).manager.Idle? ==> Remaining(After(s, acts)) == After(s, acts).requests
    decreases acts
  {
    if acts == [] {
      assert s.manager.Idle? ==> Remaining(s) == s.requests;
    } else {
      var a := acts[0];
      StepStaysCoherent(s, a);
      QuietStepRemains(s, a);
      if a.ManagerWakes? {
        RoundsDecrease(s.requests);
        assert Remaining(s) == s.requests;
      }
      RequestsDrain(Do(s, a), acts[1..]);
    }
  }

  function After18(v: Verdict): nat {
    if v.Left? then 18 else 0
  }

  /** The steps left in the iteration, the longest way. */
  function StepsLeft(pc: ManagerPc): nat {
    match pc
    case Idle => 0
    case Preparing(p) => if p.ToForget? then 38 else 18
    case Leaving(p) => if p.ToForget? then 37 else 17
    case AwaitingLoss(p) => if p.ToForget? then 36 else 16
    case Resetting(p) => if p.ToForget? then 35 else 15
    case Forgetting => 34
    case Blanking => 33
    case Configuring => 14
    case Attempting => 13
    case AwaitingResult => 12
    case Locking(v) => 11 + After18(v)
    case Erasing(v) => 10 + After18(v)
    case Reporting(v) => 9 + After18(v)
    case Storing(v) => 8 + After18(v)
    case Wiping(v) => 8 + After18(v)
    case Removing(v) => 7 + After18(v)
    case Unlocking(v) => 6 + After18(v)
    case Finishing(p) => if p.ToForget? then 19 else 5
    case Scanning => 10
    case ListLocking(_) => 9
    case ListErasing(_) => 8
    case Listing(_) => 7
    case ListUnlocking => 6
    case FinishingScan => 5
  }

  // ----- scan requests

  function ScansBegun(s: State, acts: seq<Action>): nat
    requires IsRun(s, acts)
    decreases acts
  {
    if acts == [] then 0
    else (if s.manager.Scanning? && acts[0].ManagerSteps? then 1 else 0) + ScansBegun(Do(s, acts[0]), acts[1..])
  }

  lemma ScanKept(s: State, a: Action)
    requires Enabled(s, a) && s.requests.scan
    requires PartOf(s.manager).ScanPart? ==> s.manager.Scanning? && !a.ManagerSteps?
    ensures Do(s, a).requests.scan
    ensures PartOf(Do(s, a).manager).ScanPart? ==> Do(s, a).manager.Scanning?
  {
  }

  /** A scan request stays until a scan is begun after it, unless it came after the scan of an iteration. */
  lemma {:induction false} ScanRequestStays(s: State, acts: seq<Action>)
    requires IsRun(s, acts) && s.requests.scan && (PartOf(s.manager).ScanPart? ==> s.manager.Scanning?)
    ensures After(s, acts).requests.scan || ScansBegun(s, acts) >= 1
    decreases acts
  {
    if acts == [] {
    } else if s.manager.Scanning? && acts[0].ManagerSteps? {
      assert ScansBegun(s, acts) >= 1;
    } else {
      ScanKept(s, acts[0]);
      ScanRequestStays(Do(s, acts[0]), acts[1..]);
    }
  }

  /** No client raises a scan request in this step. */
  predicate Scanless(s: State, a: Action) {
    !(a.HttpSteps? && s.http.AskingScan?)
  }

  predicate IsScanless(s: State, acts: seq<Action>)
    requires IsRun(s, acts)
    decreases acts
  {
    acts == [] || (Scanless(s, acts[0]) && IsScanless(Do(s, acts[0]), acts[1..]))
  }

  /** The scan of the iteration is made, and its end clears the request bit. */
  predicate HasScanned(pc: ManagerPc) {
    PartOf(pc).ScanPart? && !pc.Scanning?
  }

  /** Nothing is left that would make another scan. */
  predicate ScanIsOver(s: State) {
    HasScanned(s.manager)
    || (!s.requests.scan && !PartOf(s.manager).ScanPart? && (PartOf(s.manager).ForgetPart? ==> !s.snapshot.wants.scan))
  }

  lemma ScanStaysOver(s: State, a: Action)
    requires Enabled(s, a) && Scanless(s, a) && ScanIsOver(s) && Coherent(s.manager, s.snapshot)
    ensures ScanIsOver(Do(s, a)) && !s.manager.Scanning?
  {
    match a
    case ManagerSteps(world) => SecondPart(s.snapshot);
    case ManagerWakes => SecondPart(Wake(s).snapshot);
    case _ =>
  }

  lemma {:induction false} RunStaysScanned(s: State, acts: seq<Action>)
    requires IsRun(s, acts) && IsScanless(s, acts) && ScanIsOver(s) && Coherent(s.manager, s.snapshot)
    ensures ScanIsOver(After(s, acts)) && ScansBegun(s, acts) == 0
    decreases acts
  {
    if acts == [] {
    } else {
      ScanStaysOver(s, acts[0]);
      StepStaysCoherent(s, acts[0]);
      RunStaysScanned(Do(s, acts[0]), acts[1..]);
    }
  }

  /**
   * A request raised between the scan and the end of its iteration is lost: without a further request no scan is ever
   * made, and once the iteration has ended the bit is clear.
   */
  lemma LateScanRequestIsLost(s: State, acts: seq<Action>)
    requires HasScanned(s.manager) && s.requests.scan && Coherent(s.manager, s.snapshot)
    requires IsRun(s, acts) && IsScanless(s, acts)
    ensures ScansBegun(s, acts) == 0
    ensures HasScanned(After(s, acts).manager) || !After(s, acts).requests.scan
  {
    RunStaysScanned(s, acts);
  }

  // ----- the loop never gets stuck

  predicate SomeLoss(events: seq<DriverEvent>) {
    exists i :: 0 <= i < |events| && events[i].Disconnected?
  }

  /** What the manager waits for has come or is on its way. */
  predicate Awaited(pc: ManagerPc, r: Radio) {
    && (pc.AwaitingLoss? ==> r.lost || SomeLoss(r.events))
    && (pc.AwaitingResult? ==> r.connected || r.lost || r.events != [] || r.link.Joining?)
  }

  lemma LossOnItsWay(events: seq<DriverEvent>, e: DriverEvent)
    ensures SomeLoss(events) ==> SomeLoss(events + [e])
    ensures e.Disconnected? ==> SomeLoss(events + [e])
    ensures SomeLoss(events) ==> events[0].Disconnected? || SomeLoss(events[1..])
  {
    if SomeLoss(events) {
      var i :| 0 <= i < |events| && events[i].Disconnected?;
      assert (events + [e])[i].Disconnected?;
      if i > 0 {
        assert events[1..][i - 1].Disconnected?;
      }
    }
    if e.Disconnected? {
      assert (events + [e])[|events|].Disconnected?;
    }
  }

  lemma StepStaysAwaited(s: State, a: Action)
    requires Enabled(s, a) && Awaited(s.manager, s.radio)
    ensures Awaited(Do(s, a).manager, Do(s, a).radio)
  {
    match a
    case ManagerSteps(world) =>
      if s.manager.Leaving? {
        LossOnItsWay(s.radio.events, Disconnected(s.radio.attempts));
      }
    case DriverJoins => LossOnItsWay(s.radio.events, GotIp(s.radio.link.attempt));
    case DriverDrops => LossOnItsWay(s.radio.events, Disconnected(s.radio.link.attempt));
    case DriverDelivers => LossOnItsWay(s.radio.events, s.radio.events[0]);
    case _ =>
  }

  predicate Sound(s: State) {
    Disciplined(s) && Coherent(s.manager, s.snapshot) && Awaited(s.manager, s.radio)
  }

  lemma SoundIsCoherent(s: State)
    requires Sound(s)
    ensures Coherent(s.manager, s.snapshot)
  {
  }

  lemma StepStaysSound(s: State, a: Action)
    requires Enabled(s, a) && Sound(s)
    ensures Sound(Do(s, a))
  {
    StepStaysDisciplined(s, a);
    StepStaysCoherent(s, a);
    StepStaysAwaited(s, a);
  }

  lemma {:induction false} RunStaysSound(s: State, acts: seq<Action>)
    requires IsRun(s, acts) && Sound(s)
    ensures Sound(After(s, acts))
    decreases acts
  {
    if acts == [] {
    } else {
      StepStaysSound(s, acts[0]);
      RunStaysSound(Do(s, acts[0]), acts[1..]);
    }
  }

  /** Steps that need no client and no loss of an established link. */
  predicate Internal(s: State, a: Action) {
    a.ManagerWakes? || a.ManagerSteps? || a.HttpSteps? || a.DriverDelivers? || (a.DriverDrops? && s.radio.link.Joining?)
  }

  const SOME_WORLD := World([], [], [], [], false)

  predicate AllDone(s: State) {
    s.manager.Idle? && s.requests == NO_REQUESTS && s.http.Ready?
  }

  /** No step is possible that needs nothing from outside. */
  ghost predicate AtRest(s: State) {
    forall a :: Internal(s, a) ==> !Enabled(s, a)
  }

  /** Unless everything is done, some step is possible that needs nothing from outside. */
  lemma NeverStuck(s: State)
    requires Sound(s) && !AllDone(s)
    ensures !AtRest(s)
  {
    var steps := ManagerSteps(SOME_WORLD);
    if !s.board.holder.Nobody? {
      HolderGoesOn(s, if s.board.holder.Manager? then steps else HttpSteps);
      assert Internal(s, steps) && Internal(s, HttpSteps);
    } else if !s.http.Ready? {
      assert Internal(s, HttpSteps) && Enabled(s, HttpSteps);
    } else if s.manager.Idle? {
      assert Internal(s, ManagerWakes) && Enabled(s, ManagerWakes);
    } else if Enabled(s, steps) {
      assert Internal(s, steps);
    } else if s.radio.events != [] {
      assert Internal(s, DriverDelivers) && Enabled(s, DriverDelivers);
    } else {
      assert Internal(s, DriverDrops) && Enabled(s, DriverDrops);
    }
  }

  // ----- and every quiet run ends

  function LinkCost(l: Link): nat {
    match l
    case Down => 0
    case Joining(_) => 4
    case Up(_) => 2
  }

  function HttpCost(pc: HttpPc): nat {
    match pc
    case Ready => 0
    case ReadingList => 2
    case AskingScan => 1
    case ReadingStatus => 1
    case PostLocking => 5
    case PostErasing => 4
    case PostClearing => 3
    case PostUnlocking => 2
    case PostAsking => 1
  }

  function Rank(s: State): nat {
    5 * (StepsLeft(s.manager) + 39 * Rounds(Remaining(s)))
    + LinkCost(s.radio.link) + |s.radio.events| + HttpCost(s.http)
  }

  lemma StepsDecrease(pc: ManagerPc, r: Radio, w: Snapshot, world: World)
    requires Coherent(pc, w) && !pc.Idle?
    ensures StepsLeft(ManagerNext(pc, r, w, world)) < StepsLeft(pc)
  {
  }

  lemma ManagerDecreases(s: State, world: World)
    requires ManagerCanStep(s, world) && Coherent(s.manager, s.snapshot)
    ensures Rank(ManagerStep(s, world)) < Rank(s)
  {
    StepsDecrease(s.manager, s.radio, s.snapshot, world);
    QuietStepRemains(s, ManagerSteps(world));
    var t := ManagerStep(s, world);
    assert LinkCost(t.radio.link) + |t.radio.events| <= LinkCost(s.radio.link) + |s.radio.events| + 4;
  }

  /** Every step of the firmware and of the driver that brings no request brings the end nearer. */
  lemma QuietStepDecreases(s: State, a: Action)
    requires Enabled(s, a) && Coherent(s.manager, s.snapshot) && Quiet(s, a)
    requires !a.HttpGetsList? && !a.HttpGetsStatus? && !a.HttpPosts?
    ensures Rank(Do(s, a)) < Rank(s)
  {
    match a
    case ManagerSteps(world) => ManagerDecreases(s, world);
    case ManagerWakes =>
      QuietStepRemains(s, a);
      RoundsDecrease(s.requests);
      assert Remaining(s) == s.requests;
    case _ => QuietStepRemains(s, a);
  }

  predicate IsUndisturbed(s: State, acts: seq<Action>)
    requires IsRun(s, acts)
    decreases acts
  {
    acts == []
    || (Quiet(s, acts[0]) && !acts[0].HttpGetsList? && !acts[0].HttpGetsStatus? && !acts[0].HttpPosts?
        && IsUndisturbed(Do(s, acts[0]), acts[1..]))
  }

  /** No run without clients is longer than its rank; and where it can go no further, nothing is left to do. */
  lemma {:induction false} UndisturbedRunsEnd(s: State, acts: seq<Action>)
    requires IsRun(s, acts) && Sound(s) && IsUndisturbed(s, acts)
    ensures |acts| + Rank(After(s, acts)) <= Rank(s)
    ensures AtRest(After(s, acts)) ==> AllDone(After(s, acts))
    decreases acts
  {
    if acts == [] {
      if !AllDone(s) {
        NeverStuck(s);
      }
    } else {
      var a := acts[0];
      QuietStepDecreases(s, a);
      StepStaysSound(s, a);
      UndisturbedRunsEnd(Do(s, a), acts[1..]);
    }
  }

  lemma BootIsSound(nvs: Option<StaConfig>)
    ensures Sound(Boot(nvs))
  {
  }

  /** From start-up on: once the clients are quiet, what they asked for is done after a bounded number of steps. */
  lemma EverythingGetsDone(nvs: Option<StaConfig>, acts: seq<Action>, more: seq<Action>)
    requires IsRun(Boot(nvs), acts)
    requires IsRun(After(Boot(nvs), acts), more) && IsUndisturbed(After(Boot(nvs), acts), more)
    ensures var s := After(Boot(nvs), acts);
            |more| <= Rank(s) && (AtRest(After(s, more)) ==> AllDone(After(s, more)))
  {
    BootIsSound(nvs);
    RunStaysSound(Boot(nvs), acts);
    UndisturbedRunsEnd(After(Boot(nvs), acts), more);
  }
}
