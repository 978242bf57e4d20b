/** What the buttons, the server and the network bring about, on every run. */
module SessionTrace {
  import opened TcpStream
  import opened Session
  import opened SessionTokens
  import opened SessionOrder
  import opened SessionSafety
  import opened SessionRest
  import opened SessionHome
  import opened SessionStops
  import opened SessionOverlap
  import SessionJam

  // ----- the connection that a recording needs

  /** How far core_task has come with the server since it last received a mode. */
  datatype Contact = NoContact | Opened | Trusted | Greeted

  function NextContact(s: State, a: Action, c: Contact): Contact {
    match a
    case CoreReceives => NoContact
    case CoreHandles(result) => if s.cur.Connecting? && result.Connected? then Opened else NoContact
    case CoreAuthenticates(ok) => if c.Opened? && ok then Trusted else NoContact
    case CoreGreets(_) => if c.Trusted? then Greeted else NoContact
    case _ => c
  }

  function ContactAfter(s: State, acts: seq<Action>, c: Contact): Contact
    requires IsRun(s, acts)
    decreases acts
  {
    if acts == [] then c else ContactAfter(Do(s, acts[0]), acts[1..], NextContact(s, acts[0], c))
  }

  /** core_task is where its contact with the server allows it to be. */
  predicate InContact(core: CorePc, c: Contact) {
    && (core.Authenticating? ==> c.Opened?)
    && (core.Greeting? ==> c.Trusted?)
    && (core.Starting? || (core.CorePush? && core.thenStart) ==> c.Greeted?)
  }

  lemma StepStaysInContact(s: State, a: Action, c: Contact)
    requires Enabled(s, a) && InContact(s.core, c)
    ensures InContact(Do(s, a).core, NextContact(s, a, c))
  {
  }

  lemma {:induction false} RunStaysInContact(s: State, acts: seq<Action>, c: Contact)
    requires IsRun(s, acts) && InContact(s.core, c)
    ensures InContact(After(s, acts).core, ContactAfter(s, acts, c))
    decreases acts
  {
    if acts == [] {
    } else {
      StepStaysInContact(s, acts[0], c);
      RunStaysInContact(Do(s, acts[0]), acts[1..], NextContact(s, acts[0], c));
    }
  }

  /**
   * On every run `rec` is written only to a server that the same CONNECTING has connected and authenticated, and a
   * recorder is started only when `rec` has been written.
   */
  lemma RecordingNeedsContact(acts: seq<Action>, a: Action)
    requires IsRun(INITIAL, acts) && Enabled(After(INITIAL, acts), a)
    ensures var s, c := After(INITIAL, acts), ContactAfter(INITIAL, acts, NoContact);
            && (a.CoreGreets? ==> c.Trusted?)
            && (|Do(s, a).recorder.tasks| > |s.recorder.tasks| ==> c.Greeted?)
  {
    RunStaysInContact(INITIAL, acts, NoContact);
  }

  // ----- what a failure leads to

  /** A connection, an authentication or a `rec` write that failed. */
  predicate Fails(s: State, a: Action) {
    match a
    case CoreHandles(result) => s.cur.Connecting? && !result.Connected?
    case CoreAuthenticates(ok) => !ok
    case CoreGreets(ok) => !ok
    case _ => false
  }

  function Failures(s: State, acts: seq<Action>): nat
    requires IsRun(s, acts)
    decreases acts
  {
    if acts == [] then 0 else Bit(Fails(s, acts[0])) + Failures(Do(s, acts[0]), acts[1..])
  }

  function PushedResets(core: CorePc): nat {
    Bit(core.CorePush? && core.m.Reset?)
  }

  function ReportedResets(monitor: MonitorPc): nat {
    Bit(monitor.MonitorPush? && monitor.m.Reset?)
  }

  /** The RESETs received, queued, and about to be pushed. */
  function Resets(s: State): nat {
    Count(s.past.received, Reset) + Count(s.queue, Reset) + PushedResets(s.core) + ReportedResets(s.monitor)
  }

  /** No task reports anything but its start and its end. */
  predicate NoneFailed(s: State) {
    Failed !in s.recorder.notices && Failed !in s.player.notices
  }

  lemma ResetReceived(s: State)
    requires s.core.Receiving? && s.queue != []
    ensures Resets(CoreReceive(s)) == Resets(s)
  {
    CountHead(s.queue, Reset);
    CountAppend(s.past.received, s.queue[0], Reset);
  }

  lemma HandleResets(s: State, result: OpenResult)
    requires s.core.Handling?
    ensures var t := CoreHandle(s, result);
            && PushedResets(t.core) == Bit(Fails(s, CoreHandles(result)))
            && t == s.(stream := t.stream, player := t.player, core := t.core)
  {
  }

  lemma PushResets(s: State)
    requires s.core.CorePush?
    ensures Resets(CorePushed(s)) == Resets(s)
  {
    CountAppend(s.queue, s.core.m, Reset);
  }

  lemma CoreStepResets(s: State, a: Action)
    requires Enabled(s, a) && ByCore(a) && !a.CoreReceives?
    ensures Resets(Do(s, a)) == Resets(s) + Bit(Fails(s, a))
  {
    hide Count;
    match a
    case CoreHandles(result) => HandleResets(s, result);
    case CorePushes => PushResets(s);
    case _ =>
  }

  lemma DeviceStaysUnfailed(d: Device, i: nat, dataEnds: bool)
    requires DeviceCanStep(d, i, dataEnds) && Failed !in d.notices
    ensures Failed !in DeviceStep(d, i, dataEnds).notices
  {
  }

  lemma StepStaysUnfailed(s: State, a: Action)
    requires Enabled(s, a) && NoneFailed(s)
    ensures NoneFailed(Do(s, a))
  {
    match a
    case RecorderSteps(i) => DeviceStaysUnfailed(s.recorder, i, false);
    case PlayerSteps(i, dataEnds) => DeviceStaysUnfailed(s.player, i, dataEnds);
    case _ =>
  }

  lemma MonitorStepResets(s: State)
    requires !s.monitor.Waiting?
    ensures Resets(MonitorStep(s)) == Resets(s)
  {
    hide Count;
    match s.monitor
    case MonitorPush(m) => CountAppend(s.queue, m, Reset);
    case _ =>
  }

  lemma StepResets(s: State, a: Action)
    requires Enabled(s, a) && NoneFailed(s)
    ensures Resets(Do(s, a)) == Resets(s) + Bit(Fails(s, a))
  {
    hide Count;
    if a.CoreReceives? {
      ResetReceived(s);
    } else if ByCore(a) {
      CoreStepResets(s, a);
    } else if a.MonitorGoesOn? {
      MonitorStepResets(s);
    } else if a.MainPushes? {
      CountAppend(s.queue, Standby, Reset);
    } else {
      assert Do(s, a).queue == s.queue && Do(s, a).core == s.core && Do(s, a).past.received == s.past.received;
    }
  }

  lemma {:induction false} RunResets(s: State, acts: seq<Action>)
    requires IsRun(s, acts) && NoneFailed(s)
    ensures Resets(After(s, acts)) == Resets(s) + Failures(s, acts)
    decreases acts
  {
    if acts == [] {
    } else {
      StepResets(s, acts[0]);
      StepStaysUnfailed(s, acts[0]);
      RunResets(Do(s, acts[0]), acts[1..]);
    }
  }

  /** On every run each failure with the server leads to exactly one RESET, and there is no other RESET. */
  lemma ResetsAnswerFailures(acts: seq<Action>)
    requires IsRun(INITIAL, acts)
    ensures Resets(After(INITIAL, acts)) == Failures(INITIAL, acts)
  {
    RunResets(INITIAL, acts);
  }

  // ----- what the buttons did last

  function PressedLast(acts: seq<Action>): bool {
    if acts == [] then false
    else
      var front, a := acts[..|acts| - 1], acts[|acts| - 1];
      if a.RecPressed? then true else if a.RecReleased? then false else PressedLast(front)
  }

  function SaidLast(acts: seq<Action>): bool {
    if acts == [] then false
    else
      var front, a := acts[..|acts| - 1], acts[|acts| - 1];
      if a.ChatChanges? then a.chat else SaidLast(front)
  }

  lemma {:induction false} RunSplits(s: State, acts: seq<Action>)
    requires IsRun(s, acts) && acts != []
    ensures var front, a := acts[..|acts| - 1], acts[|acts| - 1];
            IsRun(s, front) && Enabled(After(s, front), a) && After(s, acts) == Do(After(s, front), a)
    decreases acts
  {
    if |acts| == 1 {
    } else {
      RunSplits(Do(s, acts[0]), acts[1..]);
      assert acts[..|acts| - 1][1..] == acts[1..][..|acts| - 2];
    }
  }

  lemma StepRemembers(s: State, a: Action)
    requires Enabled(s, a)
    ensures Do(s, a).pushed == if a.RecPressed? then true else if a.RecReleased? then false else s.pushed
    ensures Do(s, a).chat == if a.ChatChanges? then a.chat else s.chat
  {
  }

  /** What the record button did last is what a release sees, and what the server said last is what core_task sees. */
  lemma {:induction false} LastIsRemembered(acts: seq<Action>)
    requires IsRun(INITIAL, acts)
    ensures After(INITIAL, acts).pushed == PressedLast(acts) && After(INITIAL, acts).chat == SaidLast(acts)
    decreases acts
  {
    if acts == [] {
    } else {
      RunSplits(INITIAL, acts);
      var front := acts[..|acts| - 1];
      LastIsRemembered(front);
      StepRemembers(After(INITIAL, front), acts[|acts| - 1]);
    }
  }

  /**
   * The release of the record button is answered with a CONNECTING if and only if the button was pressed before and the
   * last mode received is STANDBY; the end of a playback with another CONNECTING if and only if the server said so
   * last, and otherwise with STANDBY.
   */
  lemma ReleaseCounts(acts: seq<Action>, a: Action)
    requires IsRun(INITIAL, acts) && Enabled(After(INITIAL, acts), a)
    ensures var s := After(INITIAL, acts);
            var t := Do(s, a);
            && (a.RecReleased? ==> (t.monitor == MonitorPush(Connecting) <==> PressedLast(acts) && s.cur == Standby))
            && (a.CoreChooses? ==> t.core == CorePush(if SaidLast(acts) then Connecting else Standby, false))
  {
    LastIsRemembered(acts);
  }

  // ----- the home button

  /** The recorder listens, and a stop request is there or in hand. */
  predicate WillStop(s: State) {
    && s.recorder.tasks != [] && s.recorder.tasks[0].Listening? && s.recorder.running
    && (s.monitor.StoppingRecorder? || s.recorder.stops > 0)
  }

  lemma StepStaysStopping(s: State, a: Action)
    requires Enabled(s, a) && WillStop(s) && !a.RecorderSteps?
    ensures WillStop(Do(s, a))
    ensures a.MonitorGoesOn? || s.recorder.stops > 0 ==> Do(s, a).recorder.stops > 0
  {
  }

  lemma {:induction false} RunStaysStopping(s: State, acts: seq<Action>)
    requires IsRun(s, acts) && WillStop(s) && forall i :: 0 <= i < |acts| ==> !acts[i].RecorderSteps?
    ensures MonitorGoesOn in acts || s.recorder.stops > 0 ==> DeviceCanStep(After(s, acts).recorder, 0, false)
    decreases acts
  {
    if acts == [] {
    } else {
      assert !acts[0].RecorderSteps?;
      StepStaysStopping(s, acts[0]);
      RunStaysStopping(Do(s, acts[0]), acts[1..]);
    }
  }

  /**
   * The home button in RECORDING: as soon as event_monitor_task has gone on, whatever else happens meanwhile, a
   * listening recorder finds a stop request.
   */
  lemma HomeReachesRecorder(s: State, acts: seq<Action>)
    requires s.monitor.Waiting? && s.cur.Recording?
    requires s.recorder.tasks != [] && s.recorder.tasks[0].Listening? && s.recorder.running
    requires IsRun(Do(s, HomeReleased), acts) && MonitorGoesOn in acts
    requires forall i :: 0 <= i < |acts| ==> !acts[i].RecorderSteps?
    ensures DeviceCanStep(After(Do(s, HomeReleased), acts).recorder, 0, false)
  {
    RunStaysStopping(Do(s, HomeReleased), acts);
  }

  predicate PlayerWillStop(s: State) {
    && s.player.tasks != [] && s.player.tasks[0].Listening? && s.player.running
    && (s.monitor.StoppingPlayer? || s.player.stops > 0)
  }

  lemma StepStaysPlayerStopping(s: State, a: Action)
    requires Enabled(s, a) && PlayerWillStop(s) && !a.PlayerSteps?
    ensures PlayerWillStop(Do(s, a))
    ensures a.MonitorGoesOn? || s.player.stops > 0 ==> Do(s, a).player.stops > 0
  {
  }

  lemma {:induction false} RunStaysPlayerStopping(s: State, acts: seq<Action>)
    requires IsRun(s, acts) && PlayerWillStop(s) && forall i :: 0 <= i < |acts| ==> !acts[i].PlayerSteps?
    ensures MonitorGoesOn in acts || s.player.stops > 0 ==> DeviceCanStep(After(s, acts).player, 0, false)
    decreases acts
  {
    if acts == [] {
    } else {
      assert !acts[0].PlayerSteps?;
      StepStaysPlayerStopping(s, acts[0]);
      RunStaysPlayerStopping(Do(s, acts[0]), acts[1..]);
    }
  }

  /** In PLAYING so does a listening player, which can then stop before its data ends. */
  lemma HomeReachesPlayer(s: State, acts: seq<Action>)
    requires s.monitor.Waiting? && s.cur.Playing?
    requires s.player.tasks != [] && s.player.tasks[0].Listening? && s.player.running
    requires IsRun(Do(s, HomeReleased), acts) && MonitorGoesOn in acts
    requires forall i :: 0 <= i < |acts| ==> !acts[i].PlayerSteps?
    ensures DeviceCanStep(After(Do(s, HomeReleased), acts).player, 0, false)
  {
    RunStaysPlayerStopping(Do(s, HomeReleased), acts);
  }

  // ----- the end of a session

  lemma RecorderEndOnly(n: seq<Mode>, c: seq<Mode>, r: seq<Mode>, p: seq<Mode>)
    requires Short(n + c + r + p) && r != [] && r[|r| - 1].RecordingFinished?
    ensures Connecting !in n && |n + c + r + p| > |c|
    ensures (n + c + r + p)[|n + c + r + p| - 1].RecordingFinished?
  {
    var f := n + c + r + p;
    assert f[|n| + |c| + |r| - 1] == r[|r| - 1];
    assert Connecting !in f;
    assert forall m :: m in n ==> m in f;
  }

  lemma RecordingPosition(core: CorePc, cur: Mode, f: seq<Mode>, isOpen: bool, chosen: bool)
    requires Position(core, cur, f, isOpen, chosen) && f != [] && f[|f| - 1].RecordingFinished? && !core.CorePush?
    ensures CoreRecordings(core, cur) == 0
  {
  }

  /** While the recorder listens, no recording is sure to begin. */
  lemma NoOtherRecording(s: State)
    requires Single(s) && s.recorder.tasks == [Listening]
    ensures Connecting !in s.queue && CoreRecordings(s.core, s.cur) == 0
  {
    FutureIsShort(s);
    var r := RecorderFuture(s.recorder);
    assert r != [] && r[|r| - 1] == RecordingFinished;
    RecorderEndOnly(Near(s), CoreHand(s.core), r, PlayerFuture(s.player));
    assert forall m :: m in s.queue ==> m in Near(s);
    RecordingPosition(s.core, s.cur, Future(s), s.stream.isOpen, s.past.chosen);
  }

  lemma OneRecording(s: State)
    requires Single(s) && s.recorder.tasks == [Listening] && s.monitor.Waiting?
    ensures Recordings(s) == 1
  {
    hide Single;
    NoOtherRecording(s);
    ListeningAlone();
  }

  lemma StopIsEnough(s: State, a: Action)
    requires Recordings(s) == 1 && s.recorder.tasks == [Listening] && s.recorder.running
    requires s.monitor.Waiting? && !s.chat
    requires a.ServerStops? || (a.HomeReleased? && s.cur.Recording?)
    ensures Enabled(s, a) && Recordings(Do(s, a)) <= StopsToCome(Do(s, a)) && !Do(s, a).chat
  {
    hide Count;
  }

  /**
   * In the regime, a run that is left alone after the home button in RECORDING, or after the server asks for the end of
   * the recording, ends in STANDBY with nothing alive and the stream closed.
   */
  lemma StopEndsTheSession(acts: seq<Action>, a: Action, more: seq<Action>)
    requires IsRun(INITIAL, acts) && IsOrderlyRun(INITIAL, acts)
    requires var s := After(INITIAL, acts);
             s.recorder.tasks == [Listening] && s.monitor.Waiting? && !s.chat
             && (a.ServerStops? || (a.HomeReleased? && s.cur.Recording?)) && IsRun(Do(s, a), more)
    requires var t := Do(After(INITIAL, acts), a);
             IsLeftAlone(t, more) && IsOrderlyRun(t, more) && AtRest(After(t, more))
    ensures Home(After(Do(After(INITIAL, acts), a), more))
  {
    hide Single;
    hide Home;
    hide Jammed;
    var s := After(INITIAL, acts);
    SingleAtStart();
    OrderlyIffNeverTwo(INITIAL, acts);
    RunAnswers(INITIAL, acts);
    OneRecording(s);
    OrderlyStaysSingle(s, a);
    OrderlyIffNeverTwo(Do(s, a), more);
    SingleIsNotJammed(After(Do(s, a), more));
    RunExtends(INITIAL, acts, a);
    StopIsEnough(s, a);
    EnoughStops(acts + [a], more);
  }

  // ----- a whole session

  lemma ReceiveLeads(s: State) returns (t: State)
    requires Reachable(s) && s.core.Receiving? && s.queue != []
    ensures Reachable(t)
    ensures t == s.(cur := s.queue[0], queue := s.queue[1..], core := Handling, past := t.past)
    ensures t.past.received == s.past.received + [s.queue[0]]
  {
    Leads(s, CoreReceives);
    t := Do(s, CoreReceives);
  }

  /** core_task receives a mode that only reports. */
  lemma ReportLeads(s: State) returns (t: State)
    requires Reachable(s) && s.core.Receiving? && s.queue != [] && (s.queue[0].Recording? || s.queue[0].Playing?)
    ensures Reachable(t)
    ensures t == s.(cur := s.queue[0], queue := s.queue[1..], past := t.past)
    ensures t.past.received == s.past.received + [s.queue[0]]
  {
    var u := ReceiveLeads(s);
    Leads(u, CoreHandles(Connected));
    t := Do(u, CoreHandles(Connected));
  }

  /** event_monitor_task queues the two notices of a recording. */
  lemma RecorderReportsLead(s: State) returns (t: State)
    requires Reachable(s) && s.monitor.Waiting? && s.queue == [] && s.recorder.notices == [Started, Finished]
    ensures Reachable(t)
    ensures t == s.(queue := [Recording, RecordingFinished], recorder := s.recorder.(notices := []))
  {
    var s1 := Do(s, RecorderNotifies);
    Leads(s, RecorderNotifies);
    var s2 := Do(s1, MonitorGoesOn);
    Leads(s1, MonitorGoesOn);
    var s3 := Do(s2, RecorderNotifies);
    Leads(s2, RecorderNotifies);
    t := Do(s3, MonitorGoesOn);
    Leads(s3, MonitorGoesOn);
  }

  lemma PlayerReportsLead(s: State) returns (t: State)
    requires Reachable(s) && s.monitor.Waiting? && s.queue == [] && s.player.notices == [Started, Finished]
    ensures Reachable(t)
    ensures t == s.(queue := [Playing, PlayingFinished], player := s.player.(notices := []))
  {
    var s1 := Do(s, PlayerNotifies);
    Leads(s, PlayerNotifies);
    var s2 := Do(s1, MonitorGoesOn);
    Leads(s1, MonitorGoesOn);
    var s3 := Do(s2, PlayerNotifies);
    Leads(s2, PlayerNotifies);
    t := Do(s3, MonitorGoesOn);
    Leads(s3, MonitorGoesOn);
  }

  /** The player runs from its start to the end of its data. */
  lemma PlayLeads(s: State) returns (t: State)
    requires Reachable(s) && s.player.tasks == [Spawned] && s.player.notices == []
    ensures Reachable(t)
    ensures t == s.(player := s.player.(tasks := [], notices := [Started, Finished], running := false))
  {
    var a := PlayerSteps(0, true);
    var s1 := Do(s, a);
    Leads(s, a);
    var s2 := Do(s1, a);
    Leads(s1, a);
    var s3 := Do(s2, a);
    Leads(s2, a);
    assert s3.player == s.player.(tasks := [Listening], notices := [Started], running := true);
    var s4 := Do(s3, a);
    Leads(s3, a);
    var s5 := Do(s4, a);
    Leads(s4, a);
    t := Do(s5, a);
    Leads(s5, a);
    assert t.player.tasks == [];
  }

  /** One press, a recording that the server stops, and its answer about to be played. */
  lemma RecordedLeads() returns (t: State)
    ensures Reachable(t) && t.core.Receiving? && t.monitor.Waiting? && t.queue == [] && !t.chat
    ensures t.player == IDLE_DEVICE.(tasks := [Spawned])
    ensures t.past.received == [Standby, Connecting, Recording, RecordingFinished]
  {
    var s1 := StandbyLeads();
    var s2 := PressLeads(s1);
    var s3 := ConnectLeads(s2);
    var s4 := SessionJam.RecordingLeads(s3);
    var s5 := RecorderReportsLead(s4);
    var s6 := ReportLeads(s5);
    var s7 := ReceiveLeads(s6);
    Leads(s7, CoreHandles(Connected));
    t := Do(s7, CoreHandles(Connected));
  }

  /** The answer is played to its end. */
  lemma PlayedLeads() returns (t: State)
    ensures Reachable(t) && t.core.Handling? && t.cur.PlayingFinished? && t.queue == [] && !t.chat
    ensures t.past.received ==
              [Standby, Connecting, Recording, RecordingFinished, Playing, PlayingFinished]
  {
    var s1 := RecordedLeads();
    var s2 := PlayLeads(s1);
    var s3 := PlayerReportsLead(s2);
    var s4 := ReportLeads(s3);
    t := ReceiveLeads(s4);
  }

  /** A whole session, after which the chat goes on if the server says so, and ends if it does not. */
  lemma WholeSessionHappens(chat: bool)
    ensures exists s ::
              Reachable(s)
              && s.past.received == [Standby, Connecting, Recording, RecordingFinished, Playing, PlayingFinished,
                                     if chat then Connecting else Standby]
  {
    var s1 := PlayedLeads();
    var s2 := Do(s1, ChatChanges(chat));
    Leads(s1, ChatChanges(chat));
    var s3 := Do(s2, CoreHandles(Connected));
    Leads(s2, CoreHandles(Connected));
    var s4 := Do(s3, CoreChooses);
    Leads(s3, CoreChooses);
    var s5 := Do(s4, CorePushes);
    Leads(s4, CorePushes);
    var s6 := ReceiveLeads(s5);
  }
}
