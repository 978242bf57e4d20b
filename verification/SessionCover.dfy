/** Whoever reports a start reports an end: on every run, behind every start that is still to be received. */
module SessionCover {
  import opened Session
  import opened SessionTokens
  import opened SessionOrder

  /** From wherever on: at most as many starts to come as ends to come and tasks that are still to report theirs. */
  predicate Covered(f: seq<Mode>, started: Mode, finished: Mode, live: nat) {
    f == [] || (Count(f, started) <= Count(f, finished) + live && Covered(f[1..], started, finished, live))
  }

  lemma CoveredNow(f: seq<Mode>, started: Mode, finished: Mode, live: nat)
    requires Covered(f, started, finished, live)
    ensures Count(f, started) <= Count(f, finished) + live
  {
  }

  lemma CountInsert(a: seq<Mode>, m: Mode, b: seq<Mode>, x: Mode)
    ensures Count(a + [m] + b, x) == Count(a + b, x) + Bit(m == x)
  {
  }

  lemma {:induction false} CoveredInsert(a: seq<Mode>, m: Mode, b: seq<Mode>, started: Mode, finished: Mode, live: nat)
    requires Covered(a + b, started, finished, live) && m != started
    ensures Covered(a + [m] + b, started, finished, live)
  {
    CountInsert(a, m, b, started);
    CountInsert(a, m, b, finished);
    CoveredNow(a + b, started, finished, live);
    if a == [] {
      assert a + b == b;
      assert (a + [m] + b)[1..] == b;
    } else {
      assert (a + b)[1..] == a[1..] + b;
      assert (a + [m] + b)[1..] == a[1..] + [m] + b;
      CoveredInsert(a[1..], m, b, started, finished, live);
    }
  }

  lemma {:induction false} CoveredStarted(f: seq<Mode>, started: Mode, finished: Mode, live: nat)
    requires Covered(f, started, finished, live) && started != finished
    ensures Covered(f + [started], started, finished, live + 1)
  {
    CountAppend(f, started, started);
    CountAppend(f, started, finished);
    CoveredNow(f, started, finished, live);
    if f == [] {
      assert (f + [started])[1..] == [];
    } else {
      assert (f + [started])[1..] == f[1..] + [started];
      CoveredStarted(f[1..], started, finished, live);
    }
  }

  lemma {:induction false} CoveredFinished(f: seq<Mode>, started: Mode, finished: Mode, live: nat)
    requires Covered(f, started, finished, live + 1) && started != finished
    ensures Covered(f + [finished], started, finished, live)
  {
    CountAppend(f, finished, started);
    CountAppend(f, finished, finished);
    CoveredNow(f, started, finished, live + 1);
    if f == [] {
      assert (f + [finished])[1..] == [];
    } else {
      assert (f + [finished])[1..] == f[1..] + [finished];
      CoveredFinished(f[1..], started, finished, live);
    }
  }

  /** What has been reported and core_task has not received, with everything else in between. */
  function Flow(queue: seq<Mode>, monitor: MonitorPc, news: seq<Mode>): seq<Mode> {
    queue + MonitorHand(monitor) + news
  }

  predicate HasStarted(p: Phase) {
    p.Announced? || p.Listening? || p.Stopping? || p.Terminated?
  }

  /** The number of tasks that have reported their start and not yet their end. */
  function StartedCount(ps: seq<Phase>): (n: nat)
    ensures n <= |ps|
  {
    if ps == [] then 0 else Bit(HasStarted(ps[0])) + StartedCount(ps[1..])
  }

  lemma {:induction false} StartedConcat(ps: seq<Phase>, qs: seq<Phase>)
    ensures StartedCount(ps + qs) == StartedCount(ps) + StartedCount(qs)
  {
    if ps == [] {
      assert ps + qs == qs;
    } else {
      StartedConcat(ps[1..], qs);
      assert (ps + qs)[1..] == ps[1..] + qs;
    }
  }

  lemma SplitAt<T>(q: seq<T>, i: nat)
    requires i < |q|
    ensures q == q[..i] + ([q[i]] + q[i + 1..])
  {
  }

  lemma StartedCons(p: Phase, ps: seq<Phase>)
    ensures StartedCount([p] + ps) == Bit(HasStarted(p)) + StartedCount(ps)
  {
    assert ([p] + ps)[1..] == ps;
  }

  lemma StartedSplit(ps: seq<Phase>, i: nat)
    requires i < |ps|
    ensures StartedCount(ps) == StartedCount(ps[..i] + ps[i + 1..]) + Bit(HasStarted(ps[i]))
  {
    hide StartedCount;
    var front, p, back := ps[..i], ps[i], ps[i + 1..];
    SplitAt(ps, i);
    StartedConcat(front, [p] + back);
    StartedCons(p, back);
    StartedConcat(front, back);
  }

  lemma StartedUpdate(ps: seq<Phase>, i: nat, p: Phase)
    requires i < |ps|
    ensures StartedCount(ps[i := p]) + Bit(HasStarted(ps[i])) == StartedCount(ps) + Bit(HasStarted(p))
  {
    hide StartedCount;
    StartedSplit(ps, i);
    StartedSplit(ps[i := p], i);
    assert ps[i := p][..i] + ps[i := p][i + 1..] == ps[..i] + ps[i + 1..];
  }

  predicate RecorderCovered(queue: seq<Mode>, monitor: MonitorPc, d: Device) {
    Covered(Flow(queue, monitor, RecorderNews(d.notices)), Recording, RecordingFinished, StartedCount(d.tasks))
  }

  predicate PlayerCovered(queue: seq<Mode>, monitor: MonitorPc, d: Device) {
    Covered(Flow(queue, monitor, PlayerNews(d.notices)), Playing, PlayingFinished, StartedCount(d.tasks))
  }

  /** Whatever is still to be received as started is still to be received as finished. */
  predicate AllCovered(s: State) {
    RecorderCovered(s.queue, s.monitor, s.recorder) && PlayerCovered(s.queue, s.monitor, s.player)
  }

  lemma FlowQueued(queue: seq<Mode>, m: Mode, monitor: MonitorPc, news: seq<Mode>, started: Mode, finished: Mode,
                   live: nat)
    requires Covered(Flow(queue, monitor, news), started, finished, live) && m != started
    ensures Covered(Flow(queue + [m], monitor, news), started, finished, live)
  {
    var rest := MonitorHand(monitor) + news;
    assert Flow(queue, monitor, news) == queue + rest;
    assert Flow(queue + [m], monitor, news) == queue + [m] + rest;
    CoveredInsert(queue, m, rest, started, finished, live);
  }

  lemma FlowReceived(queue: seq<Mode>, monitor: MonitorPc, news: seq<Mode>, started: Mode, finished: Mode, live: nat)
    requires queue != [] && Covered(Flow(queue, monitor, news), started, finished, live)
    ensures Covered(Flow(queue[1..], monitor, news), started, finished, live)
  {
    assert Flow(queue, monitor, news)[1..] == Flow(queue[1..], monitor, news);
  }

  lemma FlowTaken(queue: seq<Mode>, m: Mode, news: seq<Mode>, started: Mode, finished: Mode, live: nat)
    requires Covered(Flow(queue, Waiting, news), started, finished, live) && m != started
    ensures Covered(Flow(queue, MonitorPush(m), news), started, finished, live)
  {
    assert Flow(queue, Waiting, news) == queue + news;
    CoveredInsert(queue, m, news, started, finished, live);
  }

  lemma FlowPushed(queue: seq<Mode>, m: Mode, news: seq<Mode>)
    ensures Flow(queue + [m], Waiting, news) == Flow(queue, MonitorPush(m), news)
  {
  }

  lemma FlowNotified(queue: seq<Mode>, news: seq<Mode>)
    requires news != []
    ensures Flow(queue, MonitorPush(news[0]), news[1..]) == Flow(queue, Waiting, news)
  {
  }

  lemma FlowReported(queue: seq<Mode>, monitor: MonitorPc, news: seq<Mode>, m: Mode)
    ensures Flow(queue, monitor, news + [m]) == Flow(queue, monitor, news) + [m]
  {
  }

  // One lemma a step; everything else leaves queue, monitor and devices alone.

  lemma PushCovered(s: State, m: Mode)
    requires AllCovered(s) && !m.Recording? && !m.Playing?
    ensures AllCovered(s.(queue := s.queue + [m]))
  {
    FlowQueued(s.queue, m, s.monitor, RecorderNews(s.recorder.notices), Recording, RecordingFinished,
               StartedCount(s.recorder.tasks));
    FlowQueued(s.queue, m, s.monitor, PlayerNews(s.player.notices), Playing, PlayingFinished,
               StartedCount(s.player.tasks));
  }

  lemma ReceiveCovered(s: State)
    requires AllCovered(s) && s.queue != []
    ensures AllCovered(CoreReceive(s))
  {
    FlowReceived(s.queue, s.monitor, RecorderNews(s.recorder.notices), Recording, RecordingFinished,
                 StartedCount(s.recorder.tasks));
    FlowReceived(s.queue, s.monitor, PlayerNews(s.player.notices), Playing, PlayingFinished,
                 StartedCount(s.player.tasks));
  }

  lemma PressCovered(s: State)
    requires AllCovered(s) && s.monitor.Waiting?
    ensures AllCovered(s.(monitor := MonitorPush(Connecting)))
  {
    FlowTaken(s.queue, Connecting, RecorderNews(s.recorder.notices), Recording, RecordingFinished,
              StartedCount(s.recorder.tasks));
    FlowTaken(s.queue, Connecting, PlayerNews(s.player.notices), Playing, PlayingFinished,
              StartedCount(s.player.tasks));
  }

  lemma RecorderNotifyCovered(s: State)
    requires AllCovered(s) && s.monitor.Waiting? && s.recorder.notices != []
    ensures AllCovered(RecorderNotify(s))
  {
    var t := RecorderNotify(s);
    var m := RecorderMode(s.recorder.notices[0]);
    assert RecorderNews(s.recorder.notices)[1..] == RecorderNews(t.recorder.notices);
    FlowNotified(s.queue, RecorderNews(s.recorder.notices));
    FlowTaken(s.queue, m, PlayerNews(s.player.notices), Playing, PlayingFinished, StartedCount(s.player.tasks));
  }

  lemma PlayerNotifyCovered(s: State)
    requires AllCovered(s) && s.monitor.Waiting? && s.player.notices != []
    ensures AllCovered(PlayerNotify(s))
  {
    var t := PlayerNotify(s);
    var m := PlayerMode(s.player.notices[0]);
    assert PlayerNews(s.player.notices)[1..] == PlayerNews(t.player.notices);
    FlowNotified(s.queue, PlayerNews(s.player.notices));
    FlowTaken(s.queue, m, RecorderNews(s.recorder.notices), Recording, RecordingFinished,
              StartedCount(s.recorder.tasks));
  }

  lemma MonitorCovered(s: State)
    requires AllCovered(s) && !s.monitor.Waiting?
    ensures AllCovered(MonitorStep(s))
  {
    hide Covered;
    var t := MonitorStep(s);
    var rs, ps := RecorderNews(s.recorder.notices), PlayerNews(s.player.notices);
    if s.monitor.MonitorPush? {
      FlowPushed(s.queue, s.monitor.m, rs);
      FlowPushed(s.queue, s.monitor.m, ps);
    } else {
      assert Flow(t.queue, t.monitor, rs) == Flow(s.queue, s.monitor, rs);
      assert Flow(t.queue, t.monitor, ps) == Flow(s.queue, s.monitor, ps);
    }
  }

  /** What a step of a task reports, and how it changes the number of those that have reported their start. */
  lemma StepReports(d: Device, i: nat, dataEnds: bool)
    requires DeviceCanStep(d, i, dataEnds)
    ensures var t := DeviceStep(d, i, dataEnds);
            if d.tasks[i].Piping? then
              t.notices == d.notices + [Started] && StartedCount(t.tasks) == StartedCount(d.tasks) + 1
            else if d.tasks[i].Terminated? then
              t.notices == d.notices + [Finished] && StartedCount(t.tasks) + 1 == StartedCount(d.tasks)
            else t.notices == d.notices && StartedCount(t.tasks) == StartedCount(d.tasks)
  {
    match d.tasks[i]
    case Spawned => StartedUpdate(d.tasks, i, Piping);
    case Piping => StartedUpdate(d.tasks, i, Announced);
    case Announced => StartedUpdate(d.tasks, i, Listening);
    case Listening => StartedUpdate(d.tasks, i, Stopping);
    case Stopping => StartedUpdate(d.tasks, i, Terminated);
    case Terminated => StartedSplit(d.tasks, i);
  }

  lemma RecorderNewsAppend(ns: seq<Notice>, n: Notice)
    ensures RecorderNews(ns + [n]) == RecorderNews(ns) + [RecorderMode(n)]
  {
  }

  lemma PlayerNewsAppend(ns: seq<Notice>, n: Notice)
    ensures PlayerNews(ns + [n]) == PlayerNews(ns) + [PlayerMode(n)]
  {
  }

  lemma RecorderStepCovered(queue: seq<Mode>, monitor: MonitorPc, d: Device, i: nat)
    requires RecorderCovered(queue, monitor, d) && DeviceCanStep(d, i, false)
    ensures RecorderCovered(queue, monitor, DeviceStep(d, i, false))
  {
    hide DeviceStep;
    hide Covered;
    hide Flow;
    hide StartedCount;
    var t := DeviceStep(d, i, false);
    var news, f := RecorderNews(d.notices), Flow(queue, monitor, RecorderNews(d.notices));
    StepReports(d, i, false);
    if d.tasks[i].Piping? {
      RecorderNewsAppend(d.notices, Started);
      FlowReported(queue, monitor, news, Recording);
      CoveredStarted(f, Recording, RecordingFinished, StartedCount(d.tasks));
    } else if d.tasks[i].Terminated? {
      RecorderNewsAppend(d.notices, Finished);
      FlowReported(queue, monitor, news, RecordingFinished);
      CoveredFinished(f, Recording, RecordingFinished, StartedCount(t.tasks));
    }
  }

  lemma PlayerStepCovered(queue: seq<Mode>, monitor: MonitorPc, d: Device, i: nat, dataEnds: bool)
    requires PlayerCovered(queue, monitor, d) && DeviceCanStep(d, i, dataEnds)
    ensures PlayerCovered(queue, monitor, DeviceStep(d, i, dataEnds))
  {
    hide DeviceStep;
    hide Covered;
    hide Flow;
    hide StartedCount;
    var t := DeviceStep(d, i, dataEnds);
    var news, f := PlayerNews(d.notices), Flow(queue, monitor, PlayerNews(d.notices));
    StepReports(d, i, dataEnds);
    if d.tasks[i].Piping? {
      PlayerNewsAppend(d.notices, Started);
      FlowReported(queue, monitor, news, Playing);
      CoveredStarted(f, Playing, PlayingFinished, StartedCount(d.tasks));
    } else if d.tasks[i].Terminated? {
      PlayerNewsAppend(d.notices, Finished);
      FlowReported(queue, monitor, news, PlayingFinished);
      CoveredFinished(f, Playing, PlayingFinished, StartedCount(t.tasks));
    }
  }

  lemma StartCovered(d: Device)
    ensures StartedCount(DeviceStart(d).tasks) == StartedCount(d.tasks)
  {
    StartedConcat(d.tasks, [Spawned]);
  }

  /** core_task pushes three modes only, and nobody ever pushes SHUTDOWN. */
  predicate Modest(s: State) {
    && (s.core.CorePush? ==> s.core.m.Reset? || s.core.m.Standby? || s.core.m.Connecting?)
    && (s.monitor.MonitorPush? ==> !s.monitor.m.Shutdown?)
    && Shutdown !in s.queue
    && !s.cur.Shutdown?
  }

  lemma StepStaysModest(s: State, a: Action)
    requires Enabled(s, a) && Modest(s)
    ensures Modest(Do(s, a))
  {
    match a
    case CoreReceives => assert s.queue[0] in s.queue;
    case _ =>
  }

  lemma CoreStepCovered(s: State, a: Action)
    requires ByCore(a)
    requires Enabled(s, a) && Modest(s) && AllCovered(s)
    ensures AllCovered(Do(s, a))
  {
    hide Covered;
    hide Flow;
    hide StartedCount;
    match a
    case CoreReceives => ReceiveCovered(s);
    case CorePushes => PushCovered(s, s.core.m);
    case CoreStarts => StartCovered(s.recorder);
    case CoreHandles(_) => StartCovered(s.player);
    case _ =>
  }

  lemma StepCovered(s: State, a: Action)
    requires Enabled(s, a) && Modest(s) && AllCovered(s)
    ensures AllCovered(Do(s, a))
  {
    match a
    case MainPushes => PushCovered(s, Standby);
    case RecPressed =>
    case RecReleased => PressCovered(s);
    case HomeReleased => assert MonitorHand(Do(s, a).monitor) == MonitorHand(s.monitor);
    case PlayerNotifies => PlayerNotifyCovered(s);
    case RecorderNotifies => RecorderNotifyCovered(s);
    case MonitorGoesOn => MonitorCovered(s);
    case RecorderSteps(i) => RecorderStepCovered(s.queue, s.monitor, s.recorder, i);
    case PlayerSteps(i, dataEnds) => PlayerStepCovered(s.queue, s.monitor, s.player, i, dataEnds);
    case ChatChanges(_) =>
    case ServerStops =>
    case _ => CoreStepCovered(s, a);
  }
}
