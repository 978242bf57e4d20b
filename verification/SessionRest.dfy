/** When the voice session can go no further, and what holds until then, however many sessions overlap. */
module SessionRest {
  import opened TcpStream
  import opened Session
  import opened SessionTokens
  import opened SessionOrder
  import opened SessionSafety
  import opened SessionCover
  import opened SessionEnds

  // ----- rest

  predicate AllListening(ps: seq<Phase>) {
    forall i :: 0 <= i < |ps| ==> ps[i].Listening?
  }

  /** The tasks have nothing to do: no player, and recorders only if they wait for a stop request that is not there. */
  predicate TasksRest(s: State) {
    && s.player.tasks == []
    && AllListening(s.recorder.tasks)
    && (s.recorder.tasks != [] ==> s.recorder.stops == 0)
  }

  predicate NoNews(s: State) {
    s.recorder.notices == [] && s.player.notices == []
  }

  predicate Settled(s: State) {
    && s.queue == [] && !s.mainPending && s.core.Receiving? && s.monitor.Waiting? && NoNews(s) && TasksRest(s)
  }

  /** core_task waits for room in the queue that only core_task could make. */
  predicate Jammed(s: State) {
    && |s.queue| >= QUEUE_SIZE && s.core.CorePush? && TasksRest(s)
    && (s.monitor.MonitorPush? || (s.monitor.Waiting? && NoNews(s)))
  }

  /** No step of the firmware itself is possible. */
  ghost predicate AtRest(s: State) {
    forall a :: Internal(a) ==> !Enabled(s, a)
  }

  lemma RestHasNoTasks(s: State)
    requires AtRest(s)
    ensures TasksRest(s)
  {
    if s.player.tasks != [] {
      assert Enabled(s, PlayerSteps(0, true));
      assert false;
    }
    forall i | 0 <= i < |s.recorder.tasks|
      ensures s.recorder.tasks[i].Listening? && s.recorder.stops == 0
    {
      assert !Enabled(s, RecorderSteps(i));
    }
    if s.recorder.tasks != [] {
      assert s.recorder.tasks[0].Listening? && s.recorder.stops == 0;
    }
  }

  lemma RestingMonitor(s: State)
    requires AtRest(s)
    ensures s.monitor.Waiting? || (s.monitor.MonitorPush? && |s.queue| >= QUEUE_SIZE)
    ensures s.monitor.Waiting? ==> NoNews(s)
  {
    assert !Enabled(s, MonitorGoesOn);
    assert !Enabled(s, PlayerNotifies);
    assert !Enabled(s, RecorderNotifies);
  }

  lemma RestingCore(s: State)
    requires AtRest(s)
    ensures (s.core.Receiving? && s.queue == []) || (s.core.CorePush? && |s.queue| >= QUEUE_SIZE)
    ensures s.mainPending ==> |s.queue| >= QUEUE_SIZE
  {
    assert !Enabled(s, CoreReceives);
    assert !Enabled(s, CoreHandles(Connected));
    assert !Enabled(s, CoreAuthenticates(true));
    assert !Enabled(s, CoreGreets(true));
    assert !Enabled(s, CoreStarts);
    assert !Enabled(s, CoreChooses);
    assert !Enabled(s, CorePushes);
    assert !Enabled(s, MainPushes);
  }

  lemma NothingToDo(s: State, a: Action)
    requires Settled(s) || Jammed(s)
    requires Internal(a)
    ensures !Enabled(s, a)
  {
    match a
    case RecorderSteps(i) => assert i < |s.recorder.tasks| ==> s.recorder.tasks[i].Listening?;
    case PlayerSteps(i, dataEnds) =>
    case _ =>
  }

  /** The firmware is at rest exactly when everything is done, or when core_task is stuck on a full queue. */
  lemma RestIsExact(s: State)
    ensures AtRest(s) <==> Settled(s) || Jammed(s)
  {
    if AtRest(s) {
      RestHasNoTasks(s);
      RestingMonitor(s);
      RestingCore(s);
    } else if Settled(s) || Jammed(s) {
      forall a | Internal(a)
        ensures !Enabled(s, a)
      {
        NothingToDo(s, a);
      }
    }
  }

  // ----- sessions that will still close the stream

  predicate Closes(m: Mode) {
    m.Reset? || m.RecordingFinished? || m.PlayingFinished?
  }

  function Closers(q: seq<Mode>): nat {
    Count(q, Reset) + Count(q, RecordingFinished) + Count(q, PlayingFinished)
  }

  function CoreClosers(core: CorePc, cur: Mode): nat {
    match core
    case Handling => Bit(Closes(cur))
    case CorePush(m, thenStart) => Bit(Closes(m)) + Bit(thenStart)
    case Receiving => 0
    case Choosing => 0
    case _ => 1
  }

  function MonitorClosers(monitor: MonitorPc): nat {
    match monitor
    case MonitorPush(m) => Bit(Closes(m))
    case _ => 0
  }

  function AllClosers(s: State): nat {
    Closers(s.queue) + DeviceTokens(s.recorder) + DeviceTokens(s.player)
    + CoreClosers(s.core, s.cur) + MonitorClosers(s.monitor)
  }

  lemma ClosersAppend(q: seq<Mode>, m: Mode)
    ensures Closers(q + [m]) == Closers(q) + Bit(Closes(m))
  {
  }

  lemma ClosersHead(q: seq<Mode>)
    requires q != []
    ensures Closers(q) == Bit(Closes(q[0])) + Closers(q[1..])
  {
    assert q == [q[0]] + q[1..];
  }

  /** Only closing the stream uses up a session that would close it. */
  ghost predicate KeepsClosers(s: State, t: State) {
    !t.stream.isOpen || (AllClosers(t) >= AllClosers(s) && (s.stream.isOpen || AllClosers(t) >= 1))
  }

  /** For steps of core_task that leave the queue, the monitor and the recorder alone. */
  lemma CoreOnly(s: State, t: State)
    requires t.queue == s.queue && t.monitor == s.monitor && t.recorder == s.recorder
    requires CoreClosers(t.core, t.cur) + DeviceTokens(t.player) >= CoreClosers(s.core, s.cur) + DeviceTokens(s.player)
    requires CoreClosers(t.core, t.cur) >= 1 || (t.stream.isOpen ==> s.stream.isOpen)
    ensures KeepsClosers(s, t)
  {
  }

  lemma HandleKeepsClosers(s: State, result: OpenResult)
    requires s.core.Handling?
    ensures KeepsClosers(s, CoreHandle(s, result))
  {
    var t := CoreHandle(s, result);
    match s.cur
    case Reset => assert !t.stream.isOpen;
    case PlayingFinished => assert !t.stream.isOpen;
    case RecordingFinished =>
      assert DeviceTokens(t.player) == DeviceTokens(s.player) + 1;
      CoreOnly(s, t);
    case Connecting => CoreOnly(s, t);
    case _ => CoreOnly(s, t);
  }

  lemma StartKeepsClosers(s: State)
    requires s.core.Starting?
    ensures KeepsClosers(s, CoreStart(s))
  {
    var t := CoreStart(s);
    assert DeviceTokens(t.recorder) == DeviceTokens(s.recorder) + 1;
    assert AllClosers(t) == AllClosers(s);
  }

  lemma CoreKeepsClosers(s: State, ok: bool)
    ensures s.core.Authenticating? ==> KeepsClosers(s, CoreAuthenticate(s, ok))
    ensures s.core.Greeting? ==> KeepsClosers(s, CoreGreet(s, ok))
    ensures s.core.Starting? ==> KeepsClosers(s, CoreStart(s))
    ensures s.core.Choosing? ==> KeepsClosers(s, CoreChoose(s))
  {
    if s.core.Authenticating? { CoreOnly(s, CoreAuthenticate(s, ok)); }
    if s.core.Greeting? { CoreOnly(s, CoreGreet(s, ok)); }
    if s.core.Choosing? { CoreOnly(s, CoreChoose(s)); }
    if s.core.Starting? { StartKeepsClosers(s); }
  }

  lemma QueueKeepsClosers(s: State)
    ensures s.core.Receiving? && s.queue != [] ==> AllClosers(CoreReceive(s)) == AllClosers(s)
    ensures s.core.CorePush? ==> AllClosers(CorePushed(s)) == AllClosers(s)
    ensures s.mainPending ==> AllClosers(s.(queue := s.queue + [Standby], mainPending := false)) == AllClosers(s)
  {
    ClosersAppend(s.queue, Standby);
    if s.core.CorePush? {
      ClosersAppend(s.queue, s.core.m);
      assert AllClosers(CorePushed(s)) == AllClosers(s);
    }
    if s.core.Receiving? && s.queue != [] {
      ClosersHead(s.queue);
    }
  }

  lemma NotifyKeepsClosers(s: State)
    requires s.monitor.Waiting?
    ensures s.player.notices != [] ==> AllClosers(PlayerNotify(s)) == AllClosers(s)
    ensures s.recorder.notices != [] ==> AllClosers(RecorderNotify(s)) == AllClosers(s)
  {
    if s.player.notices != [] {
      FinishesHead(s.player.notices);
      assert AllClosers(PlayerNotify(s)) == AllClosers(s);
    }
    if s.recorder.notices != [] {
      FinishesHead(s.recorder.notices);
    }
  }

  lemma MonitorKeepsClosers(s: State)
    requires !s.monitor.Waiting?
    ensures AllClosers(MonitorStep(s)) == AllClosers(s)
  {
    match s.monitor
    case MonitorPush(m) => ClosersAppend(s.queue, m);
    case StoppingPlayer => assert AllClosers(MonitorStep(s)) == AllClosers(s);
    case StoppingRecorder => assert AllClosers(MonitorStep(s)) == AllClosers(s);
    case Breaking => assert AllClosers(MonitorStep(s)) == AllClosers(s);
  }

  lemma CoreStepKeepsClosers(s: State, a: Action)
    requires Enabled(s, a)
    requires ByCore(a)
    ensures KeepsClosers(s, Do(s, a))
  {
    match a
    case CoreReceives => QueueKeepsClosers(s);
    case CorePushes => QueueKeepsClosers(s);
    case CoreHandles(result) => HandleKeepsClosers(s, result);
    case CoreAuthenticates(ok) => CoreKeepsClosers(s, ok);
    case CoreGreets(ok) => CoreKeepsClosers(s, ok);
    case CoreStarts => CoreKeepsClosers(s, true);
    case CoreChooses => CoreKeepsClosers(s, true);
  }

  lemma MonitorStepKeepsClosers(s: State, a: Action)
    requires Enabled(s, a)
    requires a.PlayerNotifies? || a.RecorderNotifies? || a.MonitorGoesOn?
    ensures AllClosers(Do(s, a)) == AllClosers(s)
  {
    match a
    case PlayerNotifies => NotifyKeepsClosers(s);
    case RecorderNotifies => NotifyKeepsClosers(s);
    case MonitorGoesOn => MonitorKeepsClosers(s);
  }

  lemma MonitorOnly(s: State, t: State)
    requires t.queue == s.queue && t.core == s.core && t.cur == s.cur
    requires t.recorder == s.recorder && t.player == s.player
    requires MonitorClosers(t.monitor) == MonitorClosers(s.monitor)
    ensures AllClosers(t) == AllClosers(s)
  {
  }

  lemma ButtonKeepsClosers(s: State)
    requires s.monitor.Waiting?
    ensures AllClosers(RecRelease(s)) == AllClosers(s)
    ensures AllClosers(HomeRelease(s)) == AllClosers(s)
  {
    MonitorOnly(s, RecRelease(s));
    MonitorOnly(s, HomeRelease(s));
  }

  lemma OtherStepKeepsClosers(s: State, a: Action)
    requires Enabled(s, a)
    requires a.MainPushes? || a.RecPressed? || a.RecReleased? || a.HomeReleased? || a.RecorderSteps? || a.PlayerSteps?
             || a.ChatChanges? || a.ServerStops?
    ensures AllClosers(Do(s, a)) == AllClosers(s)
  {
    match a
    case MainPushes => QueueKeepsClosers(s);
    case RecorderSteps(i) => DeviceKeeps(s.recorder, i, false);
    case PlayerSteps(i, dataEnds) => DeviceKeeps(s.player, i, dataEnds);
    case RecPressed =>
    case RecReleased => ButtonKeepsClosers(s);
    case HomeReleased => ButtonKeepsClosers(s);
    case ChatChanges(_) =>
    case ServerStops =>
  }

  predicate OpenHasCloser(s: State) {
    s.stream.isOpen ==> AllClosers(s) >= 1
  }

  lemma OthersKeepStream(s: State, a: Action)
    requires Enabled(s, a) && !a.CoreHandles?
    ensures Do(s, a).stream == s.stream
  {
  }

  lemma StepKeepsClosers(s: State, a: Action)
    requires Enabled(s, a) && OpenHasCloser(s)
    ensures OpenHasCloser(Do(s, a))
  {
    match a
    case CoreReceives => CoreStepKeepsClosers(s, a);
    case CoreHandles(_) => CoreStepKeepsClosers(s, a);
    case CoreAuthenticates(_) => CoreStepKeepsClosers(s, a);
    case CoreGreets(_) => CoreStepKeepsClosers(s, a);
    case CoreStarts => CoreStepKeepsClosers(s, a);
    case CoreChooses => CoreStepKeepsClosers(s, a);
    case CorePushes => CoreStepKeepsClosers(s, a);
    case PlayerNotifies => MonitorStepKeepsClosers(s, a); OthersKeepStream(s, a);
    case RecorderNotifies => MonitorStepKeepsClosers(s, a); OthersKeepStream(s, a);
    case MonitorGoesOn => MonitorStepKeepsClosers(s, a); OthersKeepStream(s, a);
    case _ => OtherStepKeepsClosers(s, a); OthersKeepStream(s, a);
  }

  // ----- all runs

  /** Outside STANDBY a session is under way, and an open stream has a session that will close it. */
  predicate Steady(s: State) {
    Modest(s) && AllCovered(s) && OpenHasCloser(s) && (s.cur.Standby? || Tokens(s) >= 1)
  }

  /** The ends to come of a device are sessions: queued, in hand, reported or carried by a task. */
  lemma CoverIsTokens(queue: seq<Mode>, monitor: MonitorPc, news: seq<Mode>, finished: Mode)
    requires finished.RecordingFinished? || finished.PlayingFinished?
    ensures Count(Flow(queue, monitor, news), finished)
            == Count(queue, finished) + Bit(monitor.MonitorPush? && monitor.m == finished) + Count(news, finished)
    ensures Count(news, finished) <= Controls(news)
  {
    assert Flow(queue, monitor, news) == queue + (MonitorHand(monitor) + news);
  }

  lemma ReceivedRecordingHasToken(s: State)
    requires AllCovered(s) && s.queue != [] && s.queue[0].Recording?
    ensures Tokens(CoreReceive(s)) >= 1
  {
    var t, news := CoreReceive(s), RecorderNews(s.recorder.notices);
    var f := Flow(s.queue, s.monitor, news);
    assert f[0] == Recording;
    CoveredNow(f, Recording, RecordingFinished, StartedCount(s.recorder.tasks));
    CoverIsTokens(s.queue, s.monitor, news, RecordingFinished);
    CountHead(s.queue, RecordingFinished);
    ControlsOfRecorderNews(s.recorder.notices);
    assert Count(f, Recording) >= 1;
  }

  lemma ReceivedPlayingHasToken(s: State)
    requires AllCovered(s) && s.queue != [] && s.queue[0].Playing?
    ensures Tokens(CoreReceive(s)) >= 1
  {
    var t, news := CoreReceive(s), PlayerNews(s.player.notices);
    var f := Flow(s.queue, s.monitor, news);
    assert f[0] == Playing;
    CoveredNow(f, Playing, PlayingFinished, StartedCount(s.player.tasks));
    CoverIsTokens(s.queue, s.monitor, news, PlayingFinished);
    CountHead(s.queue, PlayingFinished);
    ControlsOfPlayerNews(s.player.notices);
    assert Count(f, Playing) >= 1;
  }

  lemma ReceiveHasToken(s: State)
    requires Modest(s) && AllCovered(s) && s.core.Receiving? && s.queue != [] && !s.queue[0].Standby?
    ensures Tokens(CoreReceive(s)) >= 1
  {
    if s.queue[0].Recording? {
      ReceivedRecordingHasToken(s);
    } else if s.queue[0].Playing? {
      ReceivedPlayingHasToken(s);
    } else {
      assert s.queue[0] in s.queue;
      assert CoreTokens(CoreReceive(s).core, CoreReceive(s).cur) == 1;
    }
  }

  lemma OnlyReceivingChangesMode(s: State, a: Action)
    requires Enabled(s, a) && !a.CoreReceives?
    ensures Do(s, a).cur == s.cur
  {
  }

  lemma StepStaysSteady(s: State, a: Action)
    requires Enabled(s, a) && Steady(s)
    ensures Steady(Do(s, a))
  {
    StepStaysModest(s, a);
    StepCovered(s, a);
    StepKeepsClosers(s, a);
    if a.CoreReceives? {
      if !s.queue[0].Standby? {
        ReceiveHasToken(s);
      }
    } else {
      OnlyReceivingChangesMode(s, a);
      StepTokens(s, a);
    }
  }

  lemma {:induction false} RunStaysSteady(s: State, acts: seq<Action>)
    requires IsRun(s, acts) && Steady(s)
    ensures Steady(After(s, acts))
    decreases acts
  {
    if acts == [] {
    } else {
      StepStaysSteady(s, acts[0]);
      RunStaysSteady(Do(s, acts[0]), acts[1..]);
    }
  }

  /** From every state without a chat some run of the firmware's own steps leads to rest. */
  lemma {:induction false} RestIsReached(s: State) returns (acts: seq<Action>)
    requires !s.chat
    ensures IsRun(s, acts) && (forall a :: a in acts ==> Internal(a)) && |acts| <= Rank(s)
    ensures AtRest(After(s, acts))
    decreases Rank(s)
  {
    if AtRest(s) {
      acts := [];
    } else {
      var a :| Internal(a) && Enabled(s, a);
      InternalDecreases(s, a);
      var more := RestIsReached(Do(s, a));
      acts := [a] + more;
      assert acts[1..] == more;
    }
  }
}
