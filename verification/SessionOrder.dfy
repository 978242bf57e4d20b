/** One session at a time: when that holds, and everything that follows from it. */
module SessionOrder {
  import opened TcpStream
  import opened Session

  // ----- what is still to be received

  function CoreHand(core: CorePc): seq<Mode> {
    if core.CorePush? then [core.m] else []
  }

  function MonitorHand(monitor: MonitorPc): seq<Mode> {
    if monitor.MonitorPush? then [monitor.m] else []
  }

  function MainHand(pending: bool): seq<Mode> {
    if pending then [Standby] else []
  }

  /** Neither recorder nor player ever reports STANDBY or CONNECTING, nor one of them what the other does. */
  predicate IsRecorderNews(m: Mode) {
    m.Recording? || m.RecordingFinished? || m.Reset?
  }

  predicate IsPlayerNews(m: Mode) {
    m.Playing? || m.PlayingFinished? || m.Reset?
  }

  function RecorderNews(ns: seq<Notice>): (f: seq<Mode>)
    ensures |f| == |ns| && forall i :: 0 <= i < |f| ==> f[i] == RecorderMode(ns[i]) && IsRecorderNews(f[i])
  {
    seq(|ns|, i requires 0 <= i < |ns| => RecorderMode(ns[i]))
  }

  function PlayerNews(ns: seq<Notice>): (f: seq<Mode>)
    ensures |f| == |ns| && forall i :: 0 <= i < |f| ==> f[i] == PlayerMode(ns[i]) && IsPlayerNews(f[i])
  {
    seq(|ns|, i requires 0 <= i < |ns| => PlayerMode(ns[i]))
  }

  /** What a task will still report. */
  function TaskNews(p: Phase, started: Mode, finished: Mode): seq<Mode> {
    if p.Spawned? || p.Piping? then [started, finished] else [finished]
  }

  function TasksNews(ps: seq<Phase>, started: Mode, finished: Mode): (f: seq<Mode>)
    ensures |f| >= |ps|
    ensures ps != [] ==> f[|f| - 1] == finished
    ensures |ps| >= 2 ==> |f| > 2 || (|f| == 2 && f == [finished, finished])
    ensures forall i :: 0 <= i < |f| ==> f[i] == started || f[i] == finished
  {
    if ps == [] then [] else TaskNews(ps[0], started, finished) + TasksNews(ps[1..], started, finished)
  }

  function RecorderFuture(d: Device): (f: seq<Mode>)
    ensures forall i :: 0 <= i < |f| ==> IsRecorderNews(f[i])
  {
    RecorderNews(d.notices) + TasksNews(d.tasks, Recording, RecordingFinished)
  }

  function PlayerFuture(d: Device): (f: seq<Mode>)
    ensures forall i :: 0 <= i < |f| ==> IsPlayerNews(f[i])
  {
    PlayerNews(d.notices) + TasksNews(d.tasks, Playing, PlayingFinished)
  }

  /** What the tasks other than core_task have in hand, from the queue backwards. */
  function Near(s: State): seq<Mode> {
    s.queue + MainHand(s.mainPending) + MonitorHand(s.monitor)
  }

  /** Everything core_task will receive if nobody presses a button, in this order. */
  function Future(s: State): seq<Mode> {
    Near(s) + CoreHand(s.core) + RecorderFuture(s.recorder) + PlayerFuture(s.player)
  }

  // ----- the grammar of a session

  predicate Follows(m: Mode, next: Mode) {
    match m
    case Standby => next.Connecting?
    case Connecting => next.Reset? || next.Recording?
    case Reset => next.Standby?
    case Recording => next.RecordingFinished?
    case RecordingFinished => next.Playing?
    case Playing => next.PlayingFinished?
    case PlayingFinished => next.Connecting? || next.Standby?
    case Shutdown => false
  }

  /** The modes received so far form one session after the other; a chat goes on exactly when `cnt_chat` said so. */
  ghost predicate Grammatical(past: History) {
    && |past.choices| == |past.received|
    && (past.received != [] ==> past.received[0].Standby?)
    && (forall i :: 0 < i < |past.received| ==> Follows(past.received[i - 1], past.received[i]))
    && (forall i :: 0 < i < |past.received| && past.received[i - 1].PlayingFinished? ==>
          (past.received[i].Connecting? <==> past.choices[i]))
  }

  // ----- one session

  /** What may lie ahead while core_task waits, having last received `cur`, and whether the stream is open then. */
  predicate Ahead(cur: Mode, f: seq<Mode>, isOpen: bool, chosen: bool) {
    match cur
    case Standby => !isOpen && (f == [] || f == [Connecting])
    case Connecting => f == [Reset] || (isOpen && f == [Recording, RecordingFinished])
    case Reset => !isOpen && f == [Standby]
    case Recording => isOpen && f == [RecordingFinished]
    case RecordingFinished => isOpen && f == [Playing, PlayingFinished]
    case Playing => isOpen && f == [PlayingFinished]
    case PlayingFinished => !isOpen && f == [if chosen then Connecting else Standby]
    case Shutdown => false
  }

  /** What core_task finds when it has just received `cur`. */
  predicate Arrived(cur: Mode, f: seq<Mode>, isOpen: bool, chosen: bool) {
    match cur
    case Connecting => !isOpen && f == []
    case Reset => f == []
    case RecordingFinished => isOpen && f == []
    case PlayingFinished => isOpen && f == []
    case _ => Ahead(cur, f, isOpen, chosen)
  }

  predicate Position(core: CorePc, cur: Mode, f: seq<Mode>, isOpen: bool, chosen: bool) {
    match core
    case Receiving => Ahead(cur, f, isOpen, chosen)
    case CorePush(m, thenStart) => !thenStart && !cur.Standby? && f == [m] && Ahead(cur, f, isOpen, chosen)
    case Handling => Arrived(cur, f, isOpen, chosen)
    case Choosing => cur.PlayingFinished? && !isOpen && f == []
    case _ => cur.Connecting? && isOpen && f == []
  }

  /** While event_monitor_task is about to write `brk`, the player cannot have come to its end. */
  predicate BreakPosition(s: State) {
    s.monitor.StoppingRecorder? || s.monitor.Breaking? ==>
      s.cur.Recording? || (s.cur.RecordingFinished? && (s.core.Handling? || s.queue == []))
  }

  /** At most one session is under way, and everything agrees on where it is. */
  ghost predicate Single(s: State) {
    && Sane(s.stream)
    && Balanced(s.stream)
    && Grammatical(s.past)
    && BreakPosition(s)
    && (if s.past.received == []
        then s.cur.Standby? && s.core.Receiving? && !s.stream.isOpen && Future(s) == [Standby]
        else
          && s.past.received[|s.past.received| - 1] == s.cur
          && Position(s.core, s.cur, Future(s), s.stream.isOpen, s.past.chosen))
  }

  // ----- the regime

  /**
   * What keeps sessions apart: the record button counts only while nothing is queued and start-up is done,
   * and the `rec` write succeeds.
   */
  predicate Orderly(s: State, a: Action) {
    && (a.RecReleased? && Accepts(s) ==> s.queue == [] && !s.mainPending)
    && (a.CoreGreets? ==> a.ok)
  }

  // ----- consequences of being single

  predicate Short(f: seq<Mode>) {
    |f| <= 1 || f == [Recording, RecordingFinished] || f == [Playing, PlayingFinished]
  }

  lemma FutureIsShort(s: State)
    requires Single(s)
    ensures Short(Future(s))
    ensures s.core.CorePush? ==> Future(s) == [s.core.m] && !s.core.thenStart
  {
    var f := Future(s);
    if s.past.received != [] {
      assert Position(s.core, s.cur, f, s.stream.isOpen, s.past.chosen);
    }
  }

  /** Two tasks would make two ends lie ahead. */
  lemma PartsOfShort(n: seq<Mode>, c: seq<Mode>, rn: seq<Mode>, rt: seq<Mode>, pn: seq<Mode>, pt: seq<Mode>)
    requires Short(n + c + (rn + rt) + (pn + pt))
    ensures |n| + |c| + |rn| + |rt| + |pn| + |pt| <= 2
    ensures |rt| == 2 ==> Short(rt)
    ensures |pt| == 2 ==> Short(pt)
    ensures !(rt == [RecordingFinished] && pt == [PlayingFinished])
  {
    var f := n + c + (rn + rt) + (pn + pt);
    if |rt| == 2 { assert f == rt; }
    if |pt| == 2 { assert f == pt; }
    assert |rt| == 1 && |pt| == 1 ==> f == rt + pt && (rt + pt)[0] == rt[0];
  }

  lemma OneTask(s: State)
    requires Short(Future(s))
    ensures |s.recorder.tasks| + |s.player.tasks| <= 1
    ensures |s.queue| <= 2
  {
    var rt := TasksNews(s.recorder.tasks, Recording, RecordingFinished);
    var pt := TasksNews(s.player.tasks, Playing, PlayingFinished);
    PartsOfShort(Near(s), CoreHand(s.core), RecorderNews(s.recorder.notices), rt, PlayerNews(s.player.notices), pt);
  }

  // ----- steps that only move what lies ahead

  lemma MainKeepsFuture(s: State)
    requires s.mainPending
    ensures Future(s.(queue := s.queue + [Standby], mainPending := false)) == Future(s)
  {
    var t := s.(queue := s.queue + [Standby], mainPending := false);
    assert Near(t) == Near(s);
  }

  lemma MonitorPushKeepsFuture(s: State)
    requires s.monitor.MonitorPush? && Short(Future(s))
    ensures Future(MonitorStep(s)) == Future(s)
  {
    assert |Near(s)| <= |Future(s)| && Near(s)[|s.queue|] == Future(s)[|s.queue|];
    assert !s.mainPending;
    assert Near(MonitorStep(s)) == Near(s);
  }

  lemma MoveAcross(n: seq<Mode>, m: Mode, r: seq<Mode>, p: seq<Mode>)
    ensures n + [] + ([m] + r) + p == (n + [m]) + [] + r + p
    ensures n + [] + [] + ([m] + p) == (n + [m]) + [] + [] + p
  {
  }

  lemma RecorderNotifyKeepsFuture(s: State)
    requires s.monitor.Waiting? && s.recorder.notices != []
    requires !s.core.CorePush?
    ensures Future(RecorderNotify(s)) == Future(s)
  {
    var t := RecorderNotify(s);
    var m := RecorderMode(s.recorder.notices[0]);
    assert RecorderNews(s.recorder.notices) == [m] + RecorderNews(t.recorder.notices);
    assert RecorderFuture(s.recorder) == [m] + RecorderFuture(t.recorder);
    assert Near(t) == Near(s) + [m];
    MoveAcross(Near(s), m, RecorderFuture(t.recorder), PlayerFuture(s.player));
  }

  lemma PlayerNotifyKeepsFuture(s: State)
    requires s.monitor.Waiting? && s.player.notices != []
    requires !s.core.CorePush? && RecorderFuture(s.recorder) == []
    ensures Future(PlayerNotify(s)) == Future(s)
  {
    var t := PlayerNotify(s);
    var m := PlayerMode(s.player.notices[0]);
    assert PlayerNews(s.player.notices) == [m] + PlayerNews(t.player.notices);
    assert PlayerFuture(s.player) == [m] + PlayerFuture(t.player);
    assert Near(t) == Near(s) + [m];
    MoveAcross(Near(s), m, [], PlayerFuture(t.player));
  }

  lemma {:induction false} OneTaskNews(p: Phase, started: Mode, finished: Mode)
    ensures TasksNews([p], started, finished) == TaskNews(p, started, finished)
  {
    assert [p][1..] == [];
  }

  /** A single task's step reports, first its start, then its end, exactly what lay ahead of it. */
  lemma RecorderStepKeepsFuture(d: Device)
    requires |d.tasks| == 1 && DeviceCanStep(d, 0, false)
    ensures RecorderFuture(DeviceStep(d, 0, false)) == RecorderFuture(d)
  {
    var t := DeviceStep(d, 0, false);
    assert d.tasks == [d.tasks[0]];
    OneTaskNews(d.tasks[0], Recording, RecordingFinished);
    match d.tasks[0]
    case Piping =>
      OneTaskNews(Announced, Recording, RecordingFinished);
      assert t.tasks == [Announced];
      assert RecorderNews(t.notices) == RecorderNews(d.notices) + [Recording];
    case Terminated =>
      assert t.tasks == [];
      assert RecorderNews(t.notices) == RecorderNews(d.notices) + [RecordingFinished];
    case _ =>
      OneTaskNews(t.tasks[0], Recording, RecordingFinished);
      assert t.tasks == [t.tasks[0]];
  }

  lemma PlayerStepKeepsFuture(d: Device, dataEnds: bool)
    requires |d.tasks| == 1 && DeviceCanStep(d, 0, dataEnds)
    ensures PlayerFuture(DeviceStep(d, 0, dataEnds)) == PlayerFuture(d)
  {
    var t := DeviceStep(d, 0, dataEnds);
    assert d.tasks == [d.tasks[0]];
    OneTaskNews(d.tasks[0], Playing, PlayingFinished);
    match d.tasks[0]
    case Piping =>
      OneTaskNews(Announced, Playing, PlayingFinished);
      assert t.tasks == [Announced];
      assert PlayerNews(t.notices) == PlayerNews(d.notices) + [Playing];
    case Terminated =>
      assert t.tasks == [];
      assert PlayerNews(t.notices) == PlayerNews(d.notices) + [PlayingFinished];
    case _ =>
      OneTaskNews(t.tasks[0], Playing, PlayingFinished);
      assert t.tasks == [t.tasks[0]];
  }

  // ----- every orderly step keeps the session single

  lemma IdleParts(s: State)
    requires Future(s) == []
    ensures s.queue == [] && !s.mainPending && !s.monitor.MonitorPush? && !s.core.CorePush?
    ensures RecorderFuture(s.recorder) == [] && PlayerFuture(s.player) == []
    ensures s.recorder.tasks == [] && s.recorder.notices == [] && s.player.tasks == [] && s.player.notices == []
  {
  }

  /** While core_task has a push in hand nobody else has anything. */
  lemma PushParts(s: State)
    requires s.core.CorePush? && Future(s) == [s.core.m]
    ensures s.queue == [] && !s.mainPending && !s.monitor.MonitorPush?
    ensures RecorderFuture(s.recorder) == [] && PlayerFuture(s.player) == []
    ensures s.recorder.tasks == [] && s.recorder.notices == [] && s.player.tasks == [] && s.player.notices == []
  {
  }

  lemma ReceiveFuture(s: State)
    requires s.core.Receiving? && s.queue != []
    ensures Future(s) == [s.queue[0]] + Future(CoreReceive(s))
  {
    var t := CoreReceive(s);
    assert Near(s) == [s.queue[0]] + Near(t);
  }

  lemma AheadArrives(cur: Mode, f: seq<Mode>, isOpen: bool, chosen: bool)
    requires f != [] && Ahead(cur, f, isOpen, chosen)
    ensures Arrived(f[0], f[1..], isOpen, chosen)
    ensures Follows(cur, f[0])
    ensures cur.PlayingFinished? ==> (f[0].Connecting? <==> chosen)
  {
    match cur
    case Standby => assert f[1..] == [];
    case Connecting => assert |f| == 1 ==> f[1..] == [];
    case Reset => assert f[1..] == [];
    case Recording => assert f[1..] == [];
    case RecordingFinished =>
    case Playing => assert f[1..] == [];
    case PlayingFinished => assert f[1..] == [];
  }

  lemma ReceiveGrammar(past: History, m: Mode)
    requires Grammatical(past)
    requires past.received == [] ==> m.Standby?
    requires past.received != [] ==>
               var last := past.received[|past.received| - 1];
               Follows(last, m) && (last.PlayingFinished? ==> (m.Connecting? <==> past.chosen))
    ensures Grammatical(past.(received := past.received + [m], choices := past.choices + [past.chosen]))
  {
  }

  lemma ReceiveStaysSingle(s: State)
    requires Single(s) && s.core.Receiving? && s.queue != []
    ensures Single(CoreReceive(s))
  {
    var f := Future(s);
    ReceiveFuture(s);
    assert Future(CoreReceive(s)) == f[1..] && s.queue[0] == f[0];
    if s.past.received != [] {
      AheadArrives(s.cur, f, s.stream.isOpen, s.past.chosen);
    }
    ReceiveGrammar(s.past, s.queue[0]);
  }

  lemma HandleReset(s: State, result: OpenResult)
    requires Single(s) && s.core.Handling? && s.cur.Reset?
    ensures Single(CoreHandle(s, result))
  {
    IdleParts(s);
    CloseKeepsBalance(s.stream);
    assert Future(CoreHandle(s, result)) == [Standby];
  }

  lemma HandleConnecting(s: State, result: OpenResult)
    requires Single(s) && s.core.Handling? && s.cur.Connecting?
    ensures Single(CoreHandle(s, result))
  {
    IdleParts(s);
    OpenKeepsBalance(s.stream, result);
    assert Future(CoreHandle(s, result)) == CoreHand(CoreHandle(s, result).core);
  }

  lemma HandleRecorded(s: State, result: OpenResult)
    requires Single(s) && s.core.Handling? && s.cur.RecordingFinished?
    ensures Single(CoreHandle(s, result))
  {
    var t := CoreHandle(s, result);
    IdleParts(s);
    OneTaskNews(Spawned, Playing, PlayingFinished);
    assert t.player.tasks == [Spawned];
    assert PlayerFuture(t.player) == [Playing, PlayingFinished];
    assert Future(t) == [Playing, PlayingFinished];
  }

  lemma HandlePlayed(s: State, result: OpenResult)
    requires Single(s) && s.core.Handling? && s.cur.PlayingFinished?
    ensures Single(CoreHandle(s, result))
  {
    IdleParts(s);
    CloseKeepsBalance(s.stream);
    assert Future(CoreHandle(s, result)) == [];
  }

  lemma HandleReport(s: State, result: OpenResult)
    requires Single(s) && s.core.Handling?
    requires s.cur.Standby? || s.cur.Recording? || s.cur.Playing?
    ensures Single(CoreHandle(s, result))
  {
    assert CoreHandle(s, result) == s.(core := Receiving);
    assert Future(s.(core := Receiving)) == Future(s);
  }

  lemma HandleStaysSingle(s: State, result: OpenResult)
    requires Single(s) && s.core.Handling?
    ensures Single(CoreHandle(s, result))
  {
    match s.cur
    case Reset => HandleReset(s, result);
    case Connecting => HandleConnecting(s, result);
    case RecordingFinished => HandleRecorded(s, result);
    case PlayingFinished => HandlePlayed(s, result);
    case _ => HandleReport(s, result);
  }

  lemma AuthenticateStaysSingle(s: State, ok: bool)
    requires Single(s) && s.core.Authenticating?
    ensures Single(CoreAuthenticate(s, ok))
  {
    IdleParts(s);
    var t := CoreAuthenticate(s, ok);
    if ok {
      assert Future(t) == Future(s);
      assert Position(t.core, t.cur, Future(t), t.stream.isOpen, t.past.chosen);
    } else {
      assert Future(t) == [Reset];
      assert Position(t.core, t.cur, Future(t), t.stream.isOpen, t.past.chosen);
    }
  }

  lemma GreetStaysSingle(s: State)
    requires Single(s) && s.core.Greeting?
    ensures Single(CoreGreet(s, true))
  {
    assert Future(CoreGreet(s, true)) == Future(s);
  }

  lemma StartStaysSingle(s: State)
    requires Single(s) && s.core.Starting?
    ensures Single(CoreStart(s))
  {
    var t := CoreStart(s);
    IdleParts(s);
    OneTaskNews(Spawned, Recording, RecordingFinished);
    assert t.recorder.tasks == [Spawned];
    assert RecorderFuture(t.recorder) == [Recording, RecordingFinished];
    assert Future(t) == [Recording, RecordingFinished];
  }

  lemma ChooseStaysSingle(s: State)
    requires Single(s) && s.core.Choosing?
    ensures Single(CoreChoose(s))
  {
    IdleParts(s);
    assert Future(CoreChoose(s)) == CoreHand(CoreChoose(s).core);
  }

  lemma CorePushStaysSingle(s: State)
    requires Single(s) && s.core.CorePush?
    ensures Single(CorePushed(s))
  {
    FutureIsShort(s);
    PushParts(s);
    assert Future(CorePushed(s)) == [s.core.m];
  }

  /** A step that changes neither what lies ahead nor what core_task and the stream know. */
  lemma StaysSingle(s: State, t: State)
    requires Single(s)
    requires Future(t) == Future(s) && BreakPosition(t)
    requires t.core == s.core && t.cur == s.cur && t.stream == s.stream
    requires t.past == s.past || t.past == s.past.(presses := t.past.presses)
    ensures Single(t)
  {
  }

  lemma NewsFirst(r: seq<Mode>, p: seq<Mode>)
    requires forall i :: 0 <= i < |r| ==> IsRecorderNews(r[i])
    requires forall i :: 0 <= i < |p| ==> IsPlayerNews(p[i])
    ensures r + p != [] ==> IsRecorderNews((r + p)[0]) || IsPlayerNews((r + p)[0])
  {
    if r != [] {
      assert (r + p)[0] == r[0];
    } else {
      assert r + p == p;
    }
  }

  lemma StandbyIsIdle(s: State)
    requires Single(s) && s.monitor.Waiting? && s.cur.Standby? && s.queue == [] && !s.mainPending
    ensures Future(s) == [] && s.past.received != [] && (s.core.Receiving? || s.core.Handling?)
    ensures s.recorder.tasks == [] && s.recorder.notices == [] && s.player.tasks == [] && s.player.notices == []
  {
    NewsFirst(RecorderFuture(s.recorder), PlayerFuture(s.player));
    assert Near(s) == [];
    assert !s.core.CorePush?;
    assert Future(s) == RecorderFuture(s.recorder) + PlayerFuture(s.player);
    IdleParts(s);
  }

  /** An accepted press puts a CONNECTING ahead of a waiting core_task with nothing else to come. */
  lemma PressStaysSingle(s: State)
    requires Single(s) && s.monitor.Waiting? && Accepts(s)
    requires s.queue == [] && !s.mainPending
    ensures Single(RecRelease(s))
  {
    var t := RecRelease(s);
    StandbyIsIdle(s);
    assert Near(t) == [Connecting];
    assert Future(t) == [Connecting];
  }

  lemma NewsApart(n: seq<Mode>, r: seq<Mode>, p: seq<Mode>)
    requires r != [] && p != []
    requires forall i :: 0 <= i < |r| ==> IsRecorderNews(r[i])
    requires forall i :: 0 <= i < |p| ==> IsPlayerNews(p[i])
    ensures !Short(n + r + p)
  {
    var f := n + r + p;
    if |f| == 2 {
      assert f[0] == r[0] && f[1] == p[0];
    }
  }

  lemma RecorderNotifyStaysSingle(s: State)
    requires Single(s) && s.monitor.Waiting? && s.recorder.notices != []
    ensures Single(RecorderNotify(s))
  {
    FutureIsShort(s);
    if s.core.CorePush? {
      PushParts(s);
    } else {
      RecorderNotifyKeepsFuture(s);
      StaysSingle(s, RecorderNotify(s));
    }
  }

  /** When the player has something to report the recorder has not. */
  lemma PlayerAlone(s: State)
    requires Short(Future(s)) && s.player.notices != []
    ensures RecorderFuture(s.recorder) == []
  {
    var rf, pf := RecorderFuture(s.recorder), PlayerFuture(s.player);
    assert |pf| >= |s.player.notices|;
    if rf != [] {
      NewsApart(Near(s) + CoreHand(s.core), rf, pf);
    }
  }

  lemma PlayerNotifyStaysSingle(s: State)
    requires Single(s) && s.monitor.Waiting? && s.player.notices != []
    ensures Single(PlayerNotify(s))
  {
    FutureIsShort(s);
    if s.core.CorePush? {
      PushParts(s);
    } else {
      PlayerAlone(s);
      PlayerNotifyKeepsFuture(s);
      StaysSingle(s, PlayerNotify(s));
    }
  }

  lemma MonitorPushStaysSingle(s: State)
    requires Single(s) && s.monitor.MonitorPush?
    ensures Single(MonitorStep(s))
  {
    FutureIsShort(s);
    MonitorPushKeepsFuture(s);
    StaysSingle(s, MonitorStep(s));
  }

  lemma MainStaysSingle(s: State)
    requires Single(s) && s.mainPending
    ensures Single(s.(queue := s.queue + [Standby], mainPending := false))
  {
    var t := s.(queue := s.queue + [Standby], mainPending := false);
    MainKeepsFuture(s);
    assert Future(s)[|s.queue|] == Near(s)[|s.queue|] == Standby;
    assert BreakPosition(t);
    StaysSingle(s, t);
  }

  lemma HomeStaysSingle(s: State)
    requires Single(s) && (s.monitor.StoppingPlayer? || s.monitor.StoppingRecorder? || s.monitor.Breaking?)
    ensures Single(MonitorStep(s))
  {
    var t := MonitorStep(s);
    assert Near(t) == Near(s);
    assert Future(t) == Future(s);
    StaysSingle(s, t);
  }

  lemma RecorderStaysSingle(s: State, i: nat)
    requires Single(s) && DeviceCanStep(s.recorder, i, false)
    ensures Single(s.(recorder := DeviceStep(s.recorder, i, false)))
  {
    FutureIsShort(s);
    OneTask(s);
    RecorderStepKeepsFuture(s.recorder);
    StaysSingle(s, s.(recorder := DeviceStep(s.recorder, i, false)));
  }

  lemma PlayerStaysSingle(s: State, i: nat, dataEnds: bool)
    requires Single(s) && DeviceCanStep(s.player, i, dataEnds)
    ensures Single(s.(player := DeviceStep(s.player, i, dataEnds)))
  {
    FutureIsShort(s);
    OneTask(s);
    PlayerStepKeepsFuture(s.player, dataEnds);
    StaysSingle(s, s.(player := DeviceStep(s.player, i, dataEnds)));
  }

  lemma RecStaysSingle(s: State)
    requires Single(s) && s.monitor.Waiting?
    requires Accepts(s) ==> s.queue == [] && !s.mainPending
    ensures Single(RecRelease(s))
  {
    if Accepts(s) {
      PressStaysSingle(s);
    } else {
      assert RecRelease(s) == s.(pushed := false);
      StaysSingle(s, RecRelease(s));
    }
  }

  lemma HomePressStaysSingle(s: State)
    requires Single(s) && s.monitor.Waiting?
    ensures Single(HomeRelease(s))
  {
    var t := HomeRelease(s);
    assert Near(t) == Near(s);
    StaysSingle(s, t);
  }

  lemma CoreStaysSingle(s: State, a: Action)
    requires ByCore(a)
    requires Single(s) && Enabled(s, a) && Orderly(s, a)
    ensures Single(Do(s, a))
  {
    match a
    case CoreReceives => ReceiveStaysSingle(s);
    case CoreHandles(result) => HandleStaysSingle(s, result);
    case CoreAuthenticates(ok) => AuthenticateStaysSingle(s, ok);
    case CoreGreets(ok) => GreetStaysSingle(s);
    case CoreStarts => StartStaysSingle(s);
    case CoreChooses => ChooseStaysSingle(s);
    case CorePushes => CorePushStaysSingle(s);
  }

  lemma MonitorStaysSingle(s: State, a: Action)
    requires a.RecPressed? || a.RecReleased? || a.HomeReleased? || a.PlayerNotifies? || a.RecorderNotifies?
             || a.MonitorGoesOn?
    requires Single(s) && Enabled(s, a) && Orderly(s, a)
    ensures Single(Do(s, a))
  {
    match a
    case RecPressed => StaysSingle(s, Do(s, a));
    case RecReleased => RecStaysSingle(s);
    case HomeReleased => HomePressStaysSingle(s);
    case PlayerNotifies => PlayerNotifyStaysSingle(s);
    case RecorderNotifies => RecorderNotifyStaysSingle(s);
    case MonitorGoesOn =>
      if s.monitor.MonitorPush? { MonitorPushStaysSingle(s); } else { HomeStaysSingle(s); }
  }

  lemma OrderlyStaysSingle(s: State, a: Action)
    requires Single(s) && Enabled(s, a) && Orderly(s, a)
    ensures Single(Do(s, a))
  {
    hide Grammatical;
    hide Position;
    match a
    case MainPushes => MainStaysSingle(s);
    case RecorderSteps(i) => RecorderStaysSingle(s, i);
    case PlayerSteps(i, dataEnds) => PlayerStaysSingle(s, i, dataEnds);
    case ChatChanges(_) => StaysSingle(s, Do(s, a));
    case ServerStops => StaysSingle(s, Do(s, a));
    case RecPressed => MonitorStaysSingle(s, a);
    case RecReleased => MonitorStaysSingle(s, a);
    case HomeReleased => MonitorStaysSingle(s, a);
    case PlayerNotifies => MonitorStaysSingle(s, a);
    case RecorderNotifies => MonitorStaysSingle(s, a);
    case MonitorGoesOn => MonitorStaysSingle(s, a);
    case _ => CoreStaysSingle(s, a);
  }
}
