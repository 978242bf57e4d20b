/** What two presses in STANDBY lead to: runs that the single-session regime rules out. */
module SessionOverlap {
  import opened TcpStream
  import opened Session
  import opened SessionTokens
  import opened SessionEnds
  import opened SessionRest
  import opened SessionHome
  import opened SessionStops

  /** Some run leads from start-up to `s`. */
  ghost predicate Reachable(s: State) {
    exists acts :: IsRun(INITIAL, acts) && After(INITIAL, acts) == s
  }

  lemma Leads(s: State, a: Action)
    requires Reachable(s) && Enabled(s, a)
    ensures Reachable(Do(s, a))
  {
    var acts :| IsRun(INITIAL, acts) && After(INITIAL, acts) == s;
    RunExtends(INITIAL, acts, a);
  }

  /** One press and release of the record button, and the push it leads to. */
  lemma PressLeads(s: State) returns (t: State)
    requires Reachable(s) && s.monitor.Waiting? && s.cur.Standby? && |s.queue| < QUEUE_SIZE
    ensures Reachable(t)
    ensures t == s.(pushed := false, queue := s.queue + [Connecting], past := s.past.(presses := s.past.presses + 1))
  {
    var s1 := Do(s, RecPressed);
    Leads(s, RecPressed);
    var s2 := Do(s1, RecReleased);
    Leads(s1, RecReleased);
    t := Do(s2, MonitorGoesOn);
    Leads(s2, MonitorGoesOn);
  }

  /** core_task takes a CONNECTING from the queue, and everything succeeds. */
  lemma ConnectLeads(s: State) returns (t: State)
    requires Reachable(s) && s.core.Receiving? && s.queue != [] && s.queue[0].Connecting?
    ensures Reachable(t)
    ensures t == s.(cur := Connecting, queue := s.queue[1..], stream := AfterOpen(s.stream, Connected),
                    recorder := DeviceStart(s.recorder), past := t.past)
    ensures t.past == s.past.(received := s.past.received + [Connecting], choices := t.past.choices)
    ensures Excess(t.past) == Excess(s.past)
  {
    CountAppend(s.past.received, Connecting, Standby);
    var s1 := Do(s, CoreReceives);
    Leads(s, CoreReceives);
    var s2 := Do(s1, CoreHandles(Connected));
    Leads(s1, CoreHandles(Connected));
    var s3 := Do(s2, CoreAuthenticates(true));
    Leads(s2, CoreAuthenticates(true));
    var s4 := Do(s3, CoreGreets(true));
    Leads(s3, CoreGreets(true));
    t := Do(s4, CoreStarts);
    Leads(s4, CoreStarts);
  }

  /** A recorder task runs from its start until it listens for its stop request. */
  lemma ListenLeads(s: State, i: nat) returns (t: State)
    requires Reachable(s) && i < |s.recorder.tasks| && s.recorder.tasks[i].Spawned?
    ensures Reachable(t)
    ensures t == s.(recorder := t.recorder)
    ensures t.recorder == s.recorder.(tasks := s.recorder.tasks[i := Listening],
                                      notices := s.recorder.notices + [Started], running := true)
  {
    var s1 := Do(s, RecorderSteps(i));
    Leads(s, RecorderSteps(i));
    var s2 := Do(s1, RecorderSteps(i));
    Leads(s1, RecorderSteps(i));
    t := Do(s2, RecorderSteps(i));
    Leads(s2, RecorderSteps(i));
    assert s.recorder.tasks[i := Piping][i := Announced][i := Listening] == s.recorder.tasks[i := Listening];
  }

  /** Start-up. */
  lemma StandbyLeads() returns (t: State)
    ensures Reachable(t) && t == INITIAL.(mainPending := false, past := t.past) && Excess(t.past) == 0
    ensures t.past.received == [Standby]
  {
    assert IsRun(INITIAL, []) && After(INITIAL, []) == INITIAL;
    var s1 := Do(INITIAL, MainPushes);
    Leads(INITIAL, MainPushes);
    var s2 := Do(s1, CoreReceives);
    Leads(s1, CoreReceives);
    t := Do(s2, CoreHandles(Connected));
    Leads(s2, CoreHandles(Connected));
    CountAppend(INITIAL.past.received, Standby, Standby);
    assert t.queue == [];
  }

  /** Then two presses before core_task has received the first CONNECTING. */
  lemma TwoPressesLead() returns (t: State)
    ensures Reachable(t) && t.recorder == IDLE_DEVICE.(tasks := [Spawned, Spawned])
    ensures t.queue == [] && t.core.Receiving? && t.monitor.Waiting? && !t.chat && Excess(t.past) == 2
    ensures t.stream == AfterOpen(AfterOpen(CLOSED_STREAM, Connected), Connected)
  {
    var s1 := StandbyLeads();
    var s2 := PressLeads(s1);
    var s3 := PressLeads(s2);
    assert s3.queue == [Connecting, Connecting];
    var s4 := ConnectLeads(s3);
    assert s4.queue == [Connecting];
    t := ConnectLeads(s4);
    assert t.recorder.tasks == [Spawned, Spawned];
  }

  /**
   * Outside the regime the promises fail: two recorders at once, the first socket lost; and while one of the two is
   * being stopped, `recorder_stop` sends nothing to the other.
   */
  lemma OverlapHappens()
    ensures exists s, d :: Reachable(s) && |s.recorder.tasks| == 2 && IsLost(s.stream, d)
    ensures exists s ::
              Reachable(s) && s.recorder.tasks == [Listening, Stopping] && DeviceStop(s.recorder) == s.recorder
  {
    var s1 := TwoPressesLead();
    var open1 := AfterOpen(CLOSED_STREAM, Connected);
    OpenKeepsBalance(CLOSED_STREAM, Connected);
    OpenKeepsBalance(open1, Connected);
    assert |s1.recorder.tasks| == 2 && IsLost(s1.stream, 0);
    var s2 := ListenLeads(s1, 0);
    var s3 := ListenLeads(s2, 1);
    assert s3.recorder.tasks == [Listening, Listening];
    var s4 := Do(s3, ServerStops);
    Leads(s3, ServerStops);
    var s5 := Do(s4, RecorderSteps(1));
    Leads(s4, RecorderSteps(1));
    assert s5.recorder.tasks == [Listening, Stopping];
    assert DeviceStop(s5.recorder) == s5.recorder;
  }

  // ----- a socket that is lost

  lemma SocketStaysLost(s: State, a: Action, d: int)
    requires Enabled(s, a) && IsLost(s.stream, d)
    ensures IsLost(Do(s, a).stream, d)
  {
    match a
    case CoreHandles(result) => LostForGood(s.stream, d, result);
    case _ =>
  }

  /** Whatever is done afterwards, the socket stays live and the stream never has it again. */
  lemma {:induction false} SocketLostForGood(s: State, acts: seq<Action>, d: int)
    requires IsRun(s, acts) && IsLost(s.stream, d)
    ensures IsLost(After(s, acts).stream, d)
    decreases acts
  {
    if acts == [] {
    } else {
      SocketStaysLost(s, acts[0], d);
      SocketLostForGood(Do(s, acts[0]), acts[1..], d);
    }
  }

  // ----- a recorder that is left behind

  /** One recorder listens, `is_running` is not set, and no recording is to come that would set it again. */
  predicate Stranded(s: State) {
    s.recorder.tasks == [Listening] && !s.recorder.running && s.recorder.stops == 0 && Recordings(s) == 1 && !s.chat
  }

  lemma ListeningAlone()
    ensures Unstopped([Listening]) == 1
  {
    assert [Listening][1..] == [];
  }

  lemma StrandedRecorder(s: State, a: Action)
    requires Stranded(s) && Enabled(s, a)
    ensures Do(s, a).recorder == s.recorder.(notices := Do(s, a).recorder.notices)
  {
    hide Count;
    ListeningAlone();
  }

  lemma StrandedStep(s: State, a: Action)
    requires Stranded(s) && Enabled(s, a) && !Prolongs(s, a)
    ensures Stranded(Do(s, a))
    ensures Excess(Do(s, a).past) <= Excess(s.past)
  {
    hide Do;
    ListeningAlone();
    StrandedRecorder(s, a);
    RecordingsStay(s, a);
    StepPast(s, a);
    assert a.CoreGreets? ==> CoreRecordings(s.core, s.cur) == 1;
  }

  /** Whatever stop requests are made: as long as no press counts and no chat goes on, the recorder stays stranded. */
  lemma {:induction false} StrandedUntilPressed(s: State, acts: seq<Action>)
    requires Stranded(s) && IsRun(s, acts) && IsLeftAlone(s, acts)
    ensures Stranded(After(s, acts)) && Excess(After(s, acts).past) <= Excess(s.past)
    decreases acts
  {
    if acts == [] {
    } else {
      StrandedStep(s, acts[0]);
      StrandedUntilPressed(Do(s, acts[0]), acts[1..]);
    }
  }

  lemma {:induction false} InternalIsLeftAlone(s: State, acts: seq<Action>)
    requires IsRun(s, acts) && forall a :: a in acts ==> Internal(a)
    ensures IsLeftAlone(s, acts)
    decreases acts
  {
    if acts == [] {
    } else {
      assert acts[0] in acts;
      InternalIsLeftAlone(Do(s, acts[0]), acts[1..]);
    }
  }

  lemma {:induction false} RunLeads(s: State, acts: seq<Action>)
    requires Reachable(s) && IsRun(s, acts)
    ensures Reachable(After(s, acts))
    decreases acts
  {
    if acts == [] {
    } else {
      Leads(s, acts[0]);
      RunLeads(Do(s, acts[0]), acts[1..]);
    }
  }

  /** The second of two recorders is stopped ... */
  lemma StopLeads(s: State) returns (t: State)
    requires Reachable(s) && s.recorder.tasks == [Listening, Listening] && s.recorder.running && s.recorder.stops == 0
    ensures Reachable(t)
    ensures t == s.(recorder := s.recorder.(tasks := [Listening], notices := s.recorder.notices + [Finished],
                                            running := false))
  {
    var s1 := Do(s, ServerStops);
    Leads(s, ServerStops);
    var s2 := Do(s1, RecorderSteps(1));
    Leads(s1, RecorderSteps(1));
    var s3 := Do(s2, RecorderSteps(1));
    Leads(s2, RecorderSteps(1));
    t := Do(s3, RecorderSteps(1));
    Leads(s3, RecorderSteps(1));
    assert t.recorder.tasks == [Listening];
  }

  /** ... and the first is stranded. */
  lemma StrandedLead() returns (t: State)
    ensures Reachable(t) && Stranded(t) && Excess(t.past) <= 3
  {
    var s1 := TwoPressesLead();
    var s2 := ListenLeads(s1, 0);
    var s3 := ListenLeads(s2, 1);
    assert s3.recorder.tasks == [Listening, Listening];
    t := StopLeads(s3);
    ListeningAlone();
  }

  /** A run can end with everything done but a recorder that no stop request reaches until another press counts. */
  lemma RecorderLeftBehind()
    ensures exists s :: Reachable(s) && AtRest(s) && RecorderWaits(s) && Stranded(s)
  {
    var s := StrandedLead();
    var acts := RestIsReached(s);
    InternalIsLeftAlone(s, acts);
    StrandedUntilPressed(s, acts);
    RunLeads(s, acts);
    var t := After(s, acts);
    var run :| IsRun(INITIAL, run) && After(INITIAL, run) == t;
    RunsEndInStandby(run);
  }
}
