/** Left alone, every run of the voice session comes to an end, and where it ends: also when sessions overlapped. */
module SessionEnds {
  import opened TcpStream
  import opened Session
  import opened SessionTokens

  // ----- a rank that every step of the firmware's own lowers

  /** The steps still to come from a mode in the queue, as long as `cnt_chat` is false. */
  function ModeCost(m: Mode): nat {
    match m
    case Reset => 5
    case Standby => 2
    case Connecting => 43
    case Recording => 2
    case RecordingFinished => 20
    case Playing => 2
    case PlayingFinished => 6
    case Shutdown => 2
  }

  function QueueCost(q: seq<Mode>): nat {
    if q == [] then 0 else ModeCost(q[0]) + QueueCost(q[1..])
  }

  function CoreCost(core: CorePc, cur: Mode): nat {
    match core
    case Receiving => 0
    case Handling => ModeCost(cur) - 1
    case Authenticating => 41
    case Greeting => 40
    case Starting => 33
    case Choosing => 4
    case CorePush(m, thenStart) => 1 + ModeCost(m) + if thenStart then 33 else 0
  }

  function MonitorCost(monitor: MonitorPc): nat {
    match monitor
    case Waiting => 0
    case MonitorPush(m) => 1 + ModeCost(m)
    case StoppingPlayer => 1
    case StoppingRecorder => 2
    case Breaking => 1
  }

  /** `finished`: the cost of a notice that a task has finished; one that it has started costs 4. */
  function NoticeCost(n: Notice, finished: nat): nat {
    match n
    case Started => 4
    case Finished => finished
    case Failed => 7
  }

  function NoticesCost(ns: seq<Notice>, finished: nat): nat {
    if ns == [] then 0 else NoticeCost(ns[0], finished) + NoticesCost(ns[1..], finished)
  }

  function PhaseCost(p: Phase, finished: nat): nat {
    match p
    case Spawned => finished + 10
    case Piping => finished + 9
    case Announced => finished + 4
    case Listening => finished + 3
    case Stopping => finished + 2
    case Terminated => finished + 1
  }

  function TasksCost(ps: seq<Phase>, finished: nat): nat {
    if ps == [] then 0 else PhaseCost(ps[0], finished) + TasksCost(ps[1..], finished)
  }

  function DeviceCost(d: Device, finished: nat): nat {
    NoticesCost(d.notices, finished) + TasksCost(d.tasks, finished)
  }

  const RECORDER_FINISHED: nat := 22
  const PLAYER_FINISHED: nat := 8

  function Rank(s: State): nat {
    QueueCost(s.queue) + CoreCost(s.core, s.cur) + MonitorCost(s.monitor) + 3 * Bit(s.mainPending)
    + DeviceCost(s.recorder, RECORDER_FINISHED) + DeviceCost(s.player, PLAYER_FINISHED)
  }

  /** Steps of the firmware itself, as against buttons, server and chat control. */
  predicate Internal(a: Action) {
    !a.RecPressed? && !a.RecReleased? && !a.HomeReleased? && !a.ChatChanges? && !a.ServerStops?
  }

  lemma {:induction false} QueueCostAppend(q: seq<Mode>, m: Mode)
    ensures QueueCost(q + [m]) == QueueCost(q) + ModeCost(m)
  {
    if q == [] {
      assert q + [m] == [m];
    } else {
      QueueCostAppend(q[1..], m);
      assert (q + [m])[1..] == q[1..] + [m];
    }
  }

  lemma {:induction false} NoticesCostAppend(ns: seq<Notice>, n: Notice, finished: nat)
    ensures NoticesCost(ns + [n], finished) == NoticesCost(ns, finished) + NoticeCost(n, finished)
  {
    if ns == [] {
      assert ns + [n] == [n];
    } else {
      NoticesCostAppend(ns[1..], n, finished);
      assert (ns + [n])[1..] == ns[1..] + [n];
    }
  }

  lemma {:induction false} TasksCostConcat(ps: seq<Phase>, qs: seq<Phase>, finished: nat)
    ensures TasksCost(ps + qs, finished) == TasksCost(ps, finished) + TasksCost(qs, finished)
  {
    if ps == [] {
      assert ps + qs == qs;
    } else {
      TasksCostConcat(ps[1..], qs, finished);
      assert (ps + qs)[1..] == ps[1..] + qs;
    }
  }

  lemma TasksCostSplit(ps: seq<Phase>, i: nat, finished: nat)
    requires i < |ps|
    ensures TasksCost(ps, finished) == TasksCost(ps[..i] + ps[i + 1..], finished) + PhaseCost(ps[i], finished)
  {
    assert ps == ps[..i] + ([ps[i]] + ps[i + 1..]);
    TasksCostConcat(ps[..i], [ps[i]] + ps[i + 1..], finished);
    TasksCostConcat(ps[..i], ps[i + 1..], finished);
    assert ([ps[i]] + ps[i + 1..])[1..] == ps[i + 1..];
  }

  lemma TasksCostUpdate(ps: seq<Phase>, i: nat, p: Phase, finished: nat)
    requires i < |ps|
    ensures TasksCost(ps[i := p], finished) + PhaseCost(ps[i], finished)
            == TasksCost(ps, finished) + PhaseCost(p, finished)
  {
    TasksCostSplit(ps, i, finished);
    TasksCostSplit(ps[i := p], i, finished);
    assert ps[i := p][..i] + ps[i := p][i + 1..] == ps[..i] + ps[i + 1..];
  }

  lemma DeviceDecreases(d: Device, i: nat, dataEnds: bool, finished: nat)
    requires DeviceCanStep(d, i, dataEnds)
    ensures DeviceCost(DeviceStep(d, i, dataEnds), finished) == DeviceCost(d, finished) - 1
  {
    var t := DeviceStep(d, i, dataEnds);
    match d.tasks[i]
    case Spawned => TasksCostUpdate(d.tasks, i, Piping, finished);
    case Piping =>
      TasksCostUpdate(d.tasks, i, Announced, finished);
      NoticesCostAppend(d.notices, Started, finished);
    case Announced => TasksCostUpdate(d.tasks, i, Listening, finished);
    case Listening => TasksCostUpdate(d.tasks, i, Stopping, finished);
    case Stopping => TasksCostUpdate(d.tasks, i, Terminated, finished);
    case Terminated =>
      TasksCostSplit(d.tasks, i, finished);
      NoticesCostAppend(d.notices, Finished, finished);
  }

  lemma StartCost(d: Device, finished: nat)
    ensures DeviceCost(DeviceStart(d), finished) == DeviceCost(d, finished) + finished + 10
  {
    TasksCostConcat(d.tasks, [Spawned], finished);
  }

  lemma HandleDecreases(s: State, result: OpenResult)
    requires s.core.Handling?
    ensures Rank(CoreHandle(s, result)) < Rank(s)
  {
    var t := CoreHandle(s, result);
    match s.cur
    case Reset => assert Rank(t) < Rank(s);
    case Standby => assert Rank(t) < Rank(s);
    case Connecting => assert Rank(t) < Rank(s);
    case Recording => assert Rank(t) < Rank(s);
    case RecordingFinished =>
      StartCost(s.player, PLAYER_FINISHED);
      assert Rank(t) < Rank(s);
    case Playing => assert Rank(t) < Rank(s);
    case PlayingFinished => assert Rank(t) < Rank(s);
    case Shutdown => assert Rank(t) < Rank(s);
  }

  lemma CoreDecreases(s: State, ok: bool)
    ensures s.core.Authenticating? ==> Rank(CoreAuthenticate(s, ok)) < Rank(s)
    ensures s.core.Greeting? ==> Rank(CoreGreet(s, ok)) < Rank(s)
    ensures s.core.Starting? ==> Rank(CoreStart(s)) < Rank(s)
    ensures s.core.Choosing? && !s.chat ==> Rank(CoreChoose(s)) < Rank(s)
  {
    StartCost(s.recorder, RECORDER_FINISHED);
  }

  lemma QueueDecreases(s: State)
    ensures s.core.Receiving? && s.queue != [] ==> Rank(CoreReceive(s)) < Rank(s)
    ensures s.core.CorePush? ==> Rank(CorePushed(s)) < Rank(s)
    ensures s.mainPending ==> Rank(s.(queue := s.queue + [Standby], mainPending := false)) < Rank(s)
  {
    QueueCostAppend(s.queue, Standby);
    if s.core.CorePush? {
      QueueCostAppend(s.queue, s.core.m);
      assert Rank(CorePushed(s)) < Rank(s);
    }
  }

  lemma NotifyDecreases(s: State)
    requires s.monitor.Waiting?
    ensures s.player.notices != [] ==> Rank(PlayerNotify(s)) < Rank(s)
    ensures s.recorder.notices != [] ==> Rank(RecorderNotify(s)) < Rank(s)
  {
    if s.player.notices != [] {
      assert Rank(PlayerNotify(s)) < Rank(s);
    }
    if s.recorder.notices != [] {
      assert Rank(RecorderNotify(s)) < Rank(s);
    }
  }

  lemma MonitorDecreases(s: State)
    requires !s.monitor.Waiting?
    ensures Rank(MonitorStep(s)) < Rank(s)
  {
    match s.monitor
    case MonitorPush(m) => QueueCostAppend(s.queue, m);
    case StoppingPlayer => assert Rank(MonitorStep(s)) < Rank(s);
    case StoppingRecorder => assert Rank(MonitorStep(s)) < Rank(s);
    case Breaking => assert Rank(MonitorStep(s)) < Rank(s);
  }

  /** Every step of the firmware itself brings the end nearer, on whatever interleaving. */
  lemma InternalDecreases(s: State, a: Action)
    requires Enabled(s, a) && Internal(a) && !s.chat
    ensures Rank(Do(s, a)) < Rank(s)
    ensures !Do(s, a).chat
  {
    match a
    case MainPushes => QueueDecreases(s);
    case CoreReceives => QueueDecreases(s);
    case CorePushes => QueueDecreases(s);
    case CoreHandles(result) => HandleDecreases(s, result);
    case CoreAuthenticates(ok) => CoreDecreases(s, ok);
    case CoreGreets(ok) => CoreDecreases(s, ok);
    case CoreStarts => CoreDecreases(s, true);
    case CoreChooses => CoreDecreases(s, true);
    case PlayerNotifies => NotifyDecreases(s);
    case RecorderNotifies => NotifyDecreases(s);
    case MonitorGoesOn => MonitorDecreases(s);
    case RecorderSteps(i) => DeviceDecreases(s.recorder, i, false, RECORDER_FINISHED);
    case PlayerSteps(i, dataEnds) => DeviceDecreases(s.player, i, dataEnds, PLAYER_FINISHED);
  }

  /** The steps that an accepted press of the record button adds, and those that the home button can add. */
  const PRESS_COST: nat := 44
  const HOME_COST: nat := 2

  /** Everything from outside, except that the server wants to go on chatting. */
  lemma OutsideAdds(s: State, a: Action)
    requires Enabled(s, a) && !Internal(a) && !s.chat && a != ChatChanges(true)
    ensures var t := Do(s, a);
            && Rank(t) <= Rank(s) + PRESS_COST * (t.past.presses - s.past.presses) + HOME_COST * Bit(a.HomeReleased?)
            && !t.chat
  {
    match a
    case RecPressed =>
    case RecReleased => assert MonitorCost(RecRelease(s).monitor) <= MonitorCost(s.monitor) + PRESS_COST;
    case HomeReleased => assert MonitorCost(HomeRelease(s).monitor) <= HOME_COST;
    case ChatChanges(_) =>
    case ServerStops =>
  }

  /** The number of the firmware's own steps in a run. */
  function InternalSteps(acts: seq<Action>): nat {
    if acts == [] then 0 else Bit(Internal(acts[0])) + InternalSteps(acts[1..])
  }

  function HomePresses(acts: seq<Action>): nat {
    if acts == [] then 0 else Bit(acts[0].HomeReleased?) + HomePresses(acts[1..])
  }

  lemma OnlyPressesCount(s: State, a: Action)
    requires Enabled(s, a) && Internal(a)
    ensures Do(s, a).past.presses == s.past.presses
  {
  }

  /**
   * As long as the server does not ask to go on, no run makes more steps of its own than the rank it starts from,
   * 44 for each press of the record button that counts, and two for each press of the home button.
   */
  lemma {:induction false} RunsEnd(s: State, acts: seq<Action>)
    requires IsRun(s, acts) && !s.chat && ChatChanges(true) !in acts
    ensures var t := After(s, acts);
            && t.past.presses >= s.past.presses && !t.chat
            && InternalSteps(acts) + Rank(t)
               <= Rank(s) + PRESS_COST * (t.past.presses - s.past.presses) + HOME_COST * HomePresses(acts)
    decreases acts
  {
    if acts == [] {
    } else {
      var a := acts[0];
      assert a in acts;
      if Internal(a) {
        InternalDecreases(s, a);
        OnlyPressesCount(s, a);
      } else {
        OutsideAdds(s, a);
      }
      RunsEnd(Do(s, a), acts[1..]);
    }
  }
}
