/** Which connect requests are served, and with what. */
module WifiServed {
  import opened Wrappers
  import opened StatusJson
  import opened WifiLoop
  import opened WifiRequests
  import opened WifiRace

  /** The connect handler has its attempt before it. */
  predicate Early(pc: ManagerPc) {
    match pc
    case Preparing(p) => p.ToJoin?
    case Leaving(p) => p.ToJoin?
    case AwaitingLoss(p) => p.ToJoin?
    case Resetting(p) => p.ToJoin?
    case Configuring => true
    case Attempting => true
    case _ => false
  }

  /** The connect handler has made its attempt; at its end it clears the request, also one that came meanwhile. */
  predicate Late(pc: ManagerPc) {
    PartOf(pc).JoinPart? && !Early(pc)
  }

  // ----- a request that comes before the attempt

  lemma StepKeepsRequest(s: State, a: Action)
    requires Enabled(s, a) && s.requests.connect && !Late(s.manager) && Coherent(s.manager, s.snapshot)
    ensures var t := Do(s, a);
            t.radio.attempts == s.radio.attempts + 1
            || (t.radio.attempts == s.radio.attempts && t.requests.connect && !Late(t.manager))
  {
    match a
    case ManagerWakes => SecondPart(Wake(s).snapshot);
    case ManagerSteps(world) => SecondPart(s.snapshot);
    case _ =>
  }

  lemma AttemptsGrow(s: State, a: Action)
    requires Enabled(s, a)
    ensures Do(s, a).radio.attempts >= s.radio.attempts
  {
  }

  lemma {:induction false} RunAttemptsGrow(s: State, acts: seq<Action>)
    requires IsRun(s, acts)
    ensures After(s, acts).radio.attempts >= s.radio.attempts
    decreases acts
  {
    if acts == [] {
    } else {
      AttemptsGrow(s, acts[0]);
      RunAttemptsGrow(Do(s, acts[0]), acts[1..]);
    }
  }

  /** A connect request stays until an attempt is begun after it, unless a handler was past its attempt when it came. */
  lemma {:induction false} ConnectRequestStays(s: State, acts: seq<Action>)
    requires IsRun(s, acts) && s.requests.connect && !Late(s.manager) && Coherent(s.manager, s.snapshot)
    ensures After(s, acts).requests.connect || After(s, acts).radio.attempts > s.radio.attempts
    decreases acts
  {
    if acts == [] {
    } else {
      var t := Do(s, acts[0]);
      StepKeepsRequest(s, acts[0]);
      StepStaysCoherent(s, acts[0]);
      if t.radio.attempts == s.radio.attempts {
        ConnectRequestStays(t, acts[1..]);
      } else {
        RunAttemptsGrow(t, acts[1..]);
      }
    }
  }

  // ----- a request that comes after it

  /** The attempt is made, and nothing asks for another. */
  predicate Over(s: State) {
    && !Posting(s.http)
    && (Late(s.manager)
        || (!s.requests.connect && !PartOf(s.manager).JoinPart?
            && (PartOf(s.manager).ForgetPart? ==> !s.snapshot.wants.connect)))
  }

  lemma StepStaysOver(s: State, a: Action)
    requires Enabled(s, a) && !a.HttpPosts? && Over(s) && Coherent(s.manager, s.snapshot)
    ensures Over(Do(s, a))
    ensures Do(s, a).radio.attempts == s.radio.attempts && Do(s, a).files.used == s.files.used
  {
    match a
    case ManagerWakes => SecondPart(Wake(s).snapshot);
    case ManagerSteps(world) => SecondPart(s.snapshot);
    case _ =>
  }

  lemma {:induction false} RunStaysOver(s: State, acts: seq<Action>)
    requires IsRun(s, acts) && (forall i :: 0 <= i < |acts| ==> !acts[i].HttpPosts?)
    requires Over(s) && Coherent(s.manager, s.snapshot)
    ensures var t := After(s, acts); Over(t) && t.radio.attempts == s.radio.attempts && t.files.used == s.files.used
    decreases acts
  {
    if acts == [] {
    } else {
      assert !acts[0].HttpPosts?;
      StepStaysOver(s, acts[0]);
      StepStaysCoherent(s, acts[0]);
      RunStaysOver(Do(s, acts[0]), acts[1..]);
    }
  }

  /**
   * A connect request raised when the handler is past its attempt is lost: without a further POST no attempt is ever
   * made, and once the handler has ended the request is gone.
   */
  lemma LateConnectRequestIsLost(s: State, acts: seq<Action>)
    requires s.requests.connect && Late(s.manager) && !Posting(s.http) && Coherent(s.manager, s.snapshot)
    requires IsRun(s, acts) && forall i :: 0 <= i < |acts| ==> !acts[i].HttpPosts?
    ensures var t := After(s, acts);
            t.radio.attempts == s.radio.attempts && (Late(t.manager) || !t.requests.connect)
  {
    RunStaysOver(s, acts);
  }

  // ----- what the attempt is made with

  /** A disconnect handler will wipe the configuration before the attempt is made. */
  predicate WipesFirst(pc: ManagerPc, disconnect: bool) {
    match pc
    case Preparing(p) => p.ToForget?
    case Leaving(p) => p.ToForget?
    case AwaitingLoss(p) => p.ToForget?
    case Resetting(p) => p.ToForget?
    case Forgetting => true
    case _ => (pc.Idle? || PartOf(pc).ScanPart?) && disconnect
  }

  /** The configuration that the next attempt will be made with, as the state of loop, request and files stands. */
  function DestinedBy(pc: ManagerPc, disconnect: bool, f: Files): StaConfig {
    if pc.Attempting? then f.used else if WipesFirst(pc, disconnect) then ZERO_CONFIG else f.config
  }

  function Destined(s: State): StaConfig {
    DestinedBy(s.manager, s.requests.disconnect, s.files)
  }

  lemma ManagerKeepsDestiny(pc: ManagerPc, r: Radio, w: Snapshot, q: Requests, f: Files, world: World)
    requires !pc.Idle? && !pc.Attempting? && !Late(pc) && Coherent(pc, w) && q.connect
    ensures DestinedBy(ManagerNext(pc, r, w, world), ManagerRequests(pc, q).disconnect, ManagerFiles(pc, f))
            == DestinedBy(pc, q.disconnect, f)
    ensures ManagerRadio(pc, r).attempts == r.attempts
  {
    SecondPart(w);
  }

  lemma WakeKeepsDestiny(s: State)
    requires s.manager.Idle? && s.requests.connect
    ensures Destined(Wake(s)) == Destined(s)
  {
  }

  lemma StepKeepsDestiny(s: State, a: Action)
    requires Enabled(s, a) && Patient(a) && !Posting(s.http)
    requires s.requests.connect && !Late(s.manager) && Coherent(s.manager, s.snapshot)
    requires !(s.manager.Attempting? && a.ManagerSteps?)
    ensures var t := Do(s, a);
            !Posting(t.http) && Destined(t) == Destined(s) && t.radio.attempts == s.radio.attempts
  {
    match a
    case ManagerWakes => WakeKeepsDestiny(s);
    case ManagerSteps(world) =>
      ManagerKeepsDestiny(s.manager, s.radio, s.snapshot, s.requests, s.files, world);
    case _ =>
  }

  /**
   * Exactly one attempt comes of a request, if it comes of it at all, and it is made with the configuration that can be
   * told when the request is raised: that of the POST, unless a disconnect handler has still to wipe it, or the driver
   * has been configured before.
   */
  lemma {:induction false} AttemptIsDestined(s: State, acts: seq<Action>)
    requires IsRun(s, acts) && IsPatient(acts) && !Posting(s.http)
    requires s.requests.connect && !Late(s.manager) && Coherent(s.manager, s.snapshot)
    ensures var t := After(s, acts);
            && s.radio.attempts <= t.radio.attempts <= s.radio.attempts + 1
            && (t.radio.attempts == s.radio.attempts ==> t.requests.connect)
            && (t.radio.attempts > s.radio.attempts ==> t.files.used == Destined(s))
    decreases acts
  {
    if acts == [] {
    } else {
      var t := Do(s, acts[0]);
      assert Patient(acts[0]);
      StepKeepsRequest(s, acts[0]);
      StepStaysCoherent(s, acts[0]);
      if s.manager.Attempting? && acts[0].ManagerSteps? {
        assert Late(t.manager) && t.files.used == s.files.used;
        RunStaysOver(t, acts[1..]);
      } else {
        StepKeepsDestiny(s, acts[0]);
        AttemptIsDestined(t, acts[1..]);
      }
    }
  }

  // ----- a POST that is never served

  lemma AttemptUnderWay() returns (t: State)
    ensures Reachable(t) && t.manager.AwaitingResult? && t.http.Ready? && t.board.holder.Nobody?
    ensures t.requests == CONNECT_ONLY && t.radio == Radio(Joining(1), [], 1, false, 0, false, 0)
    ensures t.files == Files(Credentials(['a'], []), Credentials(['a'], []), None)
  {
    var s0 := Boot(None);
    assert IsRun(s0, []) && After(s0, []) == s0;
    var s1 := PostLeads(s0, ['a']);
    var s2 := WakeLeads(s1);
    t := AttemptLeads(s2);
  }

  /**
   * The second of two networks is asked for while the first is being joined. Everything ends well, so it seems: nothing
   * is left to do, flash holds the second network and the status reports success for it. But it was never tried.
   */
  lemma UnservedHappens()
    ensures exists s ::
              && Reachable(s) && s.manager.Idle? && s.requests == NO_REQUESTS && s.http.Ready? && s.radio.attempts == 1
              && s.files.used == Credentials(['a'], []) && s.files.nvs == Some(Credentials(['b'], []))
              && s.board.status == Whole(Report(UPDATE_CONNECTION_OK, Credentials(['b'], []), [], [], []))
  {
    var s0 := AttemptUnderWay();
    var s1 := PostLeads(s0, ['b']);
    var s2 := Leads(s1, DriverJoins);
    var s3 := Leads(s2, DriverDelivers);
    var s4 := VerdictLeads(s3);
    assert s4.files.nvs == Some(Credentials(['b'], []));
  }
}
