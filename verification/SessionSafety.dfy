/** The results about single sessions, for whole runs. */
module SessionSafety {
  import opened TcpStream
  import opened Session
  import opened SessionTokens
  import opened SessionOrder

  predicate IsOrderlyRun(s: State, acts: seq<Action>)
    requires IsRun(s, acts)
    decreases acts
  {
    acts == [] || (Orderly(s, acts[0]) && IsOrderlyRun(Do(s, acts[0]), acts[1..]))
  }

  /** Nowhere along the run is more than one session under way. */
  predicate NeverTwo(s: State, acts: seq<Action>)
    requires IsRun(s, acts)
    decreases acts
  {
    Tokens(s) <= 1 && (acts == [] || NeverTwo(Do(s, acts[0]), acts[1..]))
  }

  // ----- counting the sessions of a single state

  lemma ControlsConcat(q: seq<Mode>, r: seq<Mode>)
    ensures Controls(q + r) == Controls(q) + Controls(r)
  {
  }

  lemma ControlsOfTask(p: Phase, started: Mode, finished: Mode)
    requires !IsControl(started) && IsControl(finished)
    ensures Controls(TaskNews(p, started, finished)) == 1
  {
    var f := TaskNews(p, started, finished);
    ControlsHead(f);
    if |f| == 2 {
      ControlsHead(f[1..]);
    }
  }

  lemma {:induction false} ControlsOfTasks(ps: seq<Phase>, started: Mode, finished: Mode)
    requires !IsControl(started) && IsControl(finished)
    ensures Controls(TasksNews(ps, started, finished)) == |ps|
  {
    if ps == [] {
    } else {
      ControlsOfTasks(ps[1..], started, finished);
      ControlsConcat(TaskNews(ps[0], started, finished), TasksNews(ps[1..], started, finished));
      ControlsOfTask(ps[0], started, finished);
    }
  }

  lemma {:induction false} ControlsOfRecorderNews(ns: seq<Notice>)
    ensures Controls(RecorderNews(ns)) == Finishes(ns)
  {
    if ns == [] {
    } else {
      ControlsOfRecorderNews(ns[1..]);
      assert RecorderNews(ns)[1..] == RecorderNews(ns[1..]);
      ControlsHead(RecorderNews(ns));
      FinishesHead(ns);
    }
  }

  lemma {:induction false} ControlsOfPlayerNews(ns: seq<Notice>)
    ensures Controls(PlayerNews(ns)) == Finishes(ns)
  {
    if ns == [] {
    } else {
      ControlsOfPlayerNews(ns[1..]);
      assert PlayerNews(ns)[1..] == PlayerNews(ns[1..]);
      ControlsHead(PlayerNews(ns));
      FinishesHead(ns);
    }
  }

  lemma ControlsOfOne(m: Mode)
    ensures Controls([m]) == Bit(IsControl(m))
  {
    ControlsHead([m]);
  }

  lemma ControlsOfNear(s: State)
    ensures Controls(Near(s)) == Controls(s.queue) + Bit(s.mainPending) + MonitorTokens(s.monitor)
  {
    ControlsConcat(s.queue + MainHand(s.mainPending), MonitorHand(s.monitor));
    ControlsConcat(s.queue, MainHand(s.mainPending));
    ControlsOfOne(Standby);
    if s.monitor.MonitorPush? {
      ControlsOfOne(s.monitor.m);
    }
  }

  lemma RecorderControls(d: Device)
    ensures Controls(RecorderFuture(d)) == DeviceTokens(d)
  {
    ControlsConcat(RecorderNews(d.notices), TasksNews(d.tasks, Recording, RecordingFinished));
    ControlsOfRecorderNews(d.notices);
    ControlsOfTasks(d.tasks, Recording, RecordingFinished);
  }

  lemma PlayerControls(d: Device)
    ensures Controls(PlayerFuture(d)) == DeviceTokens(d)
  {
    ControlsConcat(PlayerNews(d.notices), TasksNews(d.tasks, Playing, PlayingFinished));
    ControlsOfPlayerNews(d.notices);
    ControlsOfTasks(d.tasks, Playing, PlayingFinished);
  }

  /** Every session not in core_task's own hands lies ahead as one control mode. */
  lemma TokensAhead(s: State)
    ensures Tokens(s) == Controls(Near(s)) + Controls(RecorderFuture(s.recorder)) + Controls(PlayerFuture(s.player))
                         + CoreTokens(s.core, s.cur)
  {
    ControlsOfNear(s);
    RecorderControls(s.recorder);
    PlayerControls(s.player);
  }

  lemma ShortControls(f: seq<Mode>)
    requires Short(f)
    ensures Controls(f) <= 1
  {
    if f != [] { ControlsHead(f); }
    if |f| == 2 { ControlsHead(f[1..]); }
  }

  lemma FourControls(n: seq<Mode>, c: seq<Mode>, r: seq<Mode>, p: seq<Mode>)
    ensures Controls(n + c + r + p) == Controls(n) + Controls(c) + Controls(r) + Controls(p)
  {
    ControlsConcat(n + c + r, p);
    ControlsConcat(n + c, r);
    ControlsConcat(n, c);
  }

  lemma FutureControls(s: State)
    requires !s.core.CorePush?
    ensures Tokens(s) == Controls(Future(s)) + CoreTokens(s.core, s.cur)
  {
    TokensAhead(s);
    FourControls(Near(s), CoreHand(s.core), RecorderFuture(s.recorder), PlayerFuture(s.player));
  }

  lemma PushTokens(s: State)
    requires s.core.CorePush? && !s.core.thenStart && Future(s) == [s.core.m]
    ensures Tokens(s) <= 1
  {
    TokensAhead(s);
    PushParts(s);
    assert Near(s) == [];
  }

  /** While core_task has a session in hand, none lies ahead. */
  lemma CoreHoldsAlone(s: State)
    requires Single(s) && !s.core.CorePush?
    ensures CoreTokens(s.core, s.cur) <= 1
    ensures CoreTokens(s.core, s.cur) == 1 ==> Future(s) == []
  {
  }

  lemma SingleTokens(s: State)
    requires Single(s)
    ensures Tokens(s) <= 1
  {
    FutureIsShort(s);
    if s.core.CorePush? {
      PushTokens(s);
    } else {
      FutureControls(s);
      ShortControls(Future(s));
      CoreHoldsAlone(s);
    }
  }

  /** A press that comes while anything is still queued in STANDBY comes on top of a session. */
  lemma UnorderlyPress(s: State)
    requires Single(s) && s.monitor.Waiting? && s.cur.Standby? && (s.queue != [] || s.mainPending)
    ensures Tokens(s) == 1
  {
    SingleTokens(s);
    if s.queue != [] {
      FutureIsShort(s);
      assert Future(s)[0] == s.queue[0];
      ControlsHead(s.queue);
    }
  }

  // ----- whole runs

  lemma SingleAtStart()
    ensures Single(INITIAL) && Tokens(INITIAL) == 1
  {
    assert Future(INITIAL) == [Standby];
  }

  lemma DisorderDoubles(s: State, a: Action)
    requires Single(s) && Enabled(s, a) && !Orderly(s, a)
    ensures Tokens(Do(s, a)) == 2
  {
    StepTokens(s, a);
    SingleTokens(s);
    if a.RecReleased? {
      UnorderlyPress(s);
    }
  }

  /** From a single state on, a run keeps to the regime exactly if it never has two sessions. */
  lemma {:induction false} OrderlyIffNeverTwo(s: State, acts: seq<Action>)
    requires IsRun(s, acts) && Single(s)
    ensures IsOrderlyRun(s, acts) <==> NeverTwo(s, acts)
    ensures IsOrderlyRun(s, acts) ==> Single(After(s, acts))
    decreases acts
  {
    SingleTokens(s);
    if acts == [] {
    } else {
      var a := acts[0];
      if Orderly(s, a) {
        OrderlyStaysSingle(s, a);
        OrderlyIffNeverTwo(Do(s, a), acts[1..]);
      } else {
        DisorderDoubles(s, a);
      }
    }
  }

  /**
   * The regime is exact: a run of the firmware has at most one session at every moment if and only if every press
   * that counts finds the queue empty after start-up, and no `rec` write fails.
   */
  lemma RegimeIsExact(acts: seq<Action>)
    requires IsRun(INITIAL, acts)
    ensures NeverTwo(INITIAL, acts) <==> IsOrderlyRun(INITIAL, acts)
  {
    SingleAtStart();
    OrderlyIffNeverTwo(INITIAL, acts);
  }

  /** A device whose audio callbacks may be running. */
  predicate Streams(d: Device) {
    exists i :: 0 <= i < |d.tasks| && UsesStream(d.tasks[i])
  }

  lemma EndOpen(core: CorePc, cur: Mode, f: seq<Mode>, isOpen: bool, chosen: bool, k: nat)
    requires Position(core, cur, f, isOpen, chosen) && k < |f|
    requires f[k].RecordingFinished? || f[k].PlayingFinished?
    ensures isOpen
  {
  }

  /** Wherever the end of a recording or of a playback lies ahead, the stream is open. */
  lemma EndAheadOpen(s: State, k: nat)
    requires Single(s) && k < |Future(s)|
    requires Future(s)[k].RecordingFinished? || Future(s)[k].PlayingFinished?
    ensures s.stream.isOpen
  {
    if s.past.received != [] {
      EndOpen(s.core, s.cur, Future(s), s.stream.isOpen, s.past.chosen, k);
    }
  }

  lemma LastOfPart(n: seq<Mode>, part: seq<Mode>, rest: seq<Mode>)
    requires part != []
    ensures (n + part + rest)[|n| + |part| - 1] == part[|part| - 1]
  {
  }

  lemma RecorderEndAhead(s: State)
    requires Single(s) && s.recorder.tasks != []
    ensures s.stream.isOpen
  {
    var r := RecorderFuture(s.recorder);
    assert r != [] && r[|r| - 1] == RecordingFinished;
    var n := Near(s) + CoreHand(s.core);
    LastOfPart(n, r, PlayerFuture(s.player));
    EndAheadOpen(s, |n| + |r| - 1);
  }

  lemma PlayerEndAhead(s: State)
    requires Single(s) && s.player.tasks != []
    ensures s.stream.isOpen
  {
    var p := PlayerFuture(s.player);
    assert p != [] && p[|p| - 1] == PlayingFinished;
    var n := Near(s) + CoreHand(s.core) + RecorderFuture(s.recorder);
    assert Future(s)[|n| + |p| - 1] == p[|p| - 1];
    EndAheadOpen(s, |n| + |p| - 1);
  }

  lemma StreamsOpen(s: State)
    requires Single(s)
    ensures Streams(s.recorder) || Streams(s.player) || s.monitor.Breaking? ==> s.stream.isOpen
  {
    if s.recorder.tasks != [] {
      RecorderEndAhead(s);
    } else if s.player.tasks != [] {
      PlayerEndAhead(s);
    }
  }

  /**
   * On every run in the regime: never more than one recorder or player task; a stream that is open while callbacks
   * run and whenever core_task or event_monitor_task writes to it, closed when a CONNECTING is handled, and with
   * exactly its own socket live; at most two entries in the queue, so that no push has to wait; and the modes received
   * form whole sessions.
   */
  lemma SessionsAreSafe(acts: seq<Action>)
    requires IsRun(INITIAL, acts) && IsOrderlyRun(INITIAL, acts)
    ensures var s := After(INITIAL, acts);
            && |s.recorder.tasks| + |s.player.tasks| <= 1
            && (Streams(s.recorder) || Streams(s.player) || s.monitor.Breaking? ==> s.stream.isOpen)
            && (s.core.Authenticating? || s.core.Greeting? ==> s.stream.isOpen)
            && (s.core.Handling? && s.cur.Connecting? ==> !s.stream.isOpen)
            && Balanced(s.stream)
            && |s.queue| <= 2 < QUEUE_SIZE
            && Grammatical(s.past)
  {
    SingleAtStart();
    OrderlyIffNeverTwo(INITIAL, acts);
    var s := After(INITIAL, acts);
    FutureIsShort(s);
    OneTask(s);
    StreamsOpen(s);
  }

  // ----- stop requests

  /** `is_running` is set exactly while the one task listens. */
  predicate Answers(d: Device) {
    d.running <==> |d.tasks| == 1 && d.tasks[0].Listening?
  }

  lemma DeviceAnswers(d: Device, i: nat, dataEnds: bool)
    requires Answers(d) && |d.tasks| <= 1 && DeviceCanStep(d, i, dataEnds)
    ensures Answers(DeviceStep(d, i, dataEnds))
  {
  }

  /** A device is started only when neither has a task. */
  lemma StartsFromIdle(s: State)
    requires Single(s) && (s.core.Starting? || (s.core.Handling? && s.cur.RecordingFinished?))
    ensures s.recorder.tasks == [] && s.player.tasks == []
  {
    IdleParts(s);
  }

  lemma StartAnswers(d: Device)
    requires d.tasks == [] && Answers(d)
    ensures Answers(DeviceStart(d))
  {
  }

  lemma StepAnswers(s: State, a: Action)
    requires Single(s) && Enabled(s, a) && Orderly(s, a) && Answers(s.recorder) && Answers(s.player)
    ensures Answers(Do(s, a).recorder) && Answers(Do(s, a).player)
  {
    hide Single;
    hide Future;
    FutureIsShort(s);
    OneTask(s);
    match a
    case RecorderSteps(i) => DeviceAnswers(s.recorder, i, false);
    case PlayerSteps(i, dataEnds) => DeviceAnswers(s.player, i, dataEnds);
    case CoreStarts =>
      StartsFromIdle(s);
      StartAnswers(s.recorder);
    case CoreHandles(_) =>
      if s.cur.RecordingFinished? {
        StartsFromIdle(s);
        StartAnswers(s.player);
      }
    case _ =>
  }

  lemma {:induction false} RunAnswers(s: State, acts: seq<Action>)
    requires IsRun(s, acts) && Single(s) && IsOrderlyRun(s, acts) && Answers(s.recorder) && Answers(s.player)
    ensures Answers(After(s, acts).recorder) && Answers(After(s, acts).player)
    decreases acts
  {
    if acts == [] {
    } else {
      OrderlyStaysSingle(s, acts[0]);
      StepAnswers(s, acts[0]);
      RunAnswers(Do(s, acts[0]), acts[1..]);
    }
  }

  /** In the regime a listening recorder or player can always be stopped: the request is sent, and the task goes on. */
  lemma StopRequestsArrive(acts: seq<Action>)
    requires IsRun(INITIAL, acts) && IsOrderlyRun(INITIAL, acts)
    ensures var s := After(INITIAL, acts);
            && (s.recorder.tasks == [Listening] ==> DeviceCanStep(DeviceStop(s.recorder), 0, false))
            && (s.player.tasks == [Listening] ==> DeviceCanStep(DeviceStop(s.player), 0, false))
  {
    SingleAtStart();
    RunAnswers(INITIAL, acts);
  }
}
