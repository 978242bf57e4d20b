/** Where every run of the voice session ends that is left alone. */
module SessionHome {
  import opened Session
  import opened SessionTokens
  import opened SessionOrder
  import opened SessionSafety
  import opened SessionCover
  import opened SessionRest

  // ----- room in the queue

  lemma {:induction false} ModesCounted(q: seq<Mode>)
    requires Shutdown !in q
    ensures |q| == Controls(q) + Count(q, Recording) + Count(q, Playing)
  {
    if q == [] {
    } else {
      assert q[0] in q;
      ModesCounted(q[1..]);
      ControlsHead(q);
      CountHead(q, Recording);
      CountHead(q, Playing);
    }
  }

  lemma QueueInFlow(queue: seq<Mode>, monitor: MonitorPc, news: seq<Mode>, m: Mode)
    ensures Count(queue, m) <= Count(Flow(queue, monitor, news), m)
  {
    assert Flow(queue, monitor, news) == queue + (MonitorHand(monitor) + news);
  }

  lemma QueuedRecordings(s: State)
    requires AllCovered(s)
    ensures Count(s.queue, Recording)
            <= Count(s.queue, RecordingFinished) + Bit(s.monitor.MonitorPush? && s.monitor.m.RecordingFinished?)
               + DeviceTokens(s.recorder)
  {
    var news := RecorderNews(s.recorder.notices);
    var f := Flow(s.queue, s.monitor, news);
    CoveredNow(f, Recording, RecordingFinished, StartedCount(s.recorder.tasks));
    CoverIsTokens(s.queue, s.monitor, news, RecordingFinished);
    ControlsOfRecorderNews(s.recorder.notices);
    QueueInFlow(s.queue, s.monitor, news, Recording);
  }

  lemma QueuedPlayings(s: State)
    requires AllCovered(s)
    ensures Count(s.queue, Playing)
            <= Count(s.queue, PlayingFinished) + Bit(s.monitor.MonitorPush? && s.monitor.m.PlayingFinished?)
               + DeviceTokens(s.player)
  {
    var news := PlayerNews(s.player.notices);
    var f := Flow(s.queue, s.monitor, news);
    CoveredNow(f, Playing, PlayingFinished, StartedCount(s.player.tasks));
    CoverIsTokens(s.queue, s.monitor, news, PlayingFinished);
    ControlsOfPlayerNews(s.player.notices);
    QueueInFlow(s.queue, s.monitor, news, Playing);
  }

  /** The queue is never longer than twice the sessions that core_task has not in hand. */
  lemma QueueBound(s: State)
    requires Steady(s)
    ensures |s.queue| + 2 * CoreTokens(s.core, s.cur) <= 2 * Tokens(s)
  {
    ModesCounted(s.queue);
    QueuedRecordings(s);
    QueuedPlayings(s);
  }

  /** The sessions begun on a run, less those ended: what the buttons and the network have brought about. */
  function Excess(past: History): int {
    1 + past.presses + past.greetFailures - Count(past.received, Standby)
  }

  /** core_task never waits for itself before six sessions overlap: that of start-up and five presses or failures. */
  lemma JamNeedsSixSessions(acts: seq<Action>)
    requires IsRun(INITIAL, acts) && Jammed(After(INITIAL, acts))
    ensures Excess(After(INITIAL, acts).past) >= 6
  {
    var s := After(INITIAL, acts);
    RunStaysSteady(INITIAL, acts);
    SessionsConserved(acts);
    QueueBound(s);
    assert CoreTokens(s.core, s.cur) >= 1;
  }

  // ----- the end

  /** In STANDBY, with nothing queued, nothing alive, and the stream closed. */
  predicate Home(s: State) {
    s.cur.Standby? && Settled(s) && s.recorder.tasks == [] && !s.stream.isOpen && Tokens(s) == 0
  }

  /** Everything else is done, and recorders wait for stop requests. */
  predicate RecorderWaits(s: State) {
    Settled(s) && s.recorder.tasks != []
  }

  lemma SettledWithoutRecorder(s: State)
    requires Steady(s) && Settled(s) && s.recorder.tasks == []
    ensures Home(s)
  {
    assert Tokens(s) == 0 && AllClosers(s) == 0;
  }

  /**
   * However sessions overlapped, a run that can go no further has come home, or recorders wait for stop requests,
   * or it is stuck on a full queue, which takes six sessions at a time.
   */
  lemma RunsEndInStandby(acts: seq<Action>)
    requires IsRun(INITIAL, acts)
    ensures var s := After(INITIAL, acts);
            && (AtRest(s) <==> Home(s) || RecorderWaits(s) || Jammed(s))
            && (Jammed(s) ==> Excess(s.past) >= 6)
  {
    var s := After(INITIAL, acts);
    RunStaysSteady(INITIAL, acts);
    RestIsExact(s);
    if Settled(s) && s.recorder.tasks == [] {
      SettledWithoutRecorder(s);
    }
    if Jammed(s) {
      JamNeedsSixSessions(acts);
    }
  }

  lemma SingleIsNotJammed(s: State)
    requires Single(s)
    ensures !Jammed(s)
  {
    FutureIsShort(s);
    OneTask(s);
  }

  lemma OneListening(ps: seq<Phase>)
    requires |ps| <= 1
    ensures ps != [] && AllListening(ps) ==> ps == [Listening]
  {
  }

  /** With one session at a time a run ends at home, or with one recorder that the next stop request reaches. */
  lemma OrderlyRunsEnd(acts: seq<Action>)
    requires IsRun(INITIAL, acts) && IsOrderlyRun(INITIAL, acts)
    ensures var s := After(INITIAL, acts);
            AtRest(s) ==>
              Home(s) || (s.recorder.tasks == [Listening] && DeviceCanStep(DeviceStop(s.recorder), 0, false))
  {
    hide Single;
    hide Future;
    hide Tokens;
    var s := After(INITIAL, acts);
    SingleAtStart();
    OrderlyIffNeverTwo(INITIAL, acts);
    RunsEndInStandby(acts);
    SingleIsNotJammed(s);
    FutureIsShort(s);
    OneTask(s);
    StopRequestsArrive(acts);
    OneListening(s.recorder.tasks);
  }
}
