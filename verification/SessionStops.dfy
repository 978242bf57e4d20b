/** How many stop requests it takes for a run that is left alone to end at home: as many as recordings to come. */
module SessionStops {
  import opened TcpStream
  import opened Session
  import opened SessionTokens
  import opened SessionCover
  import opened SessionEnds
  import opened SessionRest
  import opened SessionHome

  /** The tasks that will still take a stop request. */
  function Unstopped(ps: seq<Phase>): (n: nat)
    ensures n <= |ps|
  {
    if ps == [] then 0 else Bit(!ps[0].Stopping? && !ps[0].Terminated?) + Unstopped(ps[1..])
  }

  function CoreRecordings(core: CorePc, cur: Mode): nat {
    match core
    case Handling => Bit(cur.Connecting?)
    case Authenticating => 1
    case Greeting => 1
    case Starting => 1
    case CorePush(m, thenStart) => Bit(m.Connecting?) + Bit(thenStart)
    case _ => 0
  }

  function MonitorRecordings(monitor: MonitorPc): nat {
    Bit(monitor.MonitorPush? && monitor.m.Connecting?)
  }

  /** The recordings under way or sure to begin, each of which will take a stop request. */
  function Recordings(s: State): nat {
    Count(s.queue, Connecting) + CoreRecordings(s.core, s.cur) + MonitorRecordings(s.monitor)
    + Unstopped(s.recorder.tasks)
  }

  lemma {:induction false} UnstoppedConcat(ps: seq<Phase>, qs: seq<Phase>)
    ensures Unstopped(ps + qs) == Unstopped(ps) + Unstopped(qs)
  {
    if ps == [] {
      assert ps + qs == qs;
    } else {
      UnstoppedConcat(ps[1..], qs);
      assert (ps + qs)[1..] == ps[1..] + qs;
    }
  }

  lemma UnstoppedCons(p: Phase, ps: seq<Phase>)
    ensures Unstopped([p] + ps) == Bit(!p.Stopping? && !p.Terminated?) + Unstopped(ps)
  {
    assert ([p] + ps)[1..] == ps;
  }

  lemma UnstoppedSplit(ps: seq<Phase>, i: nat)
    requires i < |ps|
    ensures Unstopped(ps) == Unstopped(ps[..i] + ps[i + 1..]) + Bit(!ps[i].Stopping? && !ps[i].Terminated?)
  {
    hide Unstopped;
    var front, p, back := ps[..i], ps[i], ps[i + 1..];
    SplitAt(ps, i);
    UnstoppedConcat(front, [p] + back);
    UnstoppedCons(p, back);
    UnstoppedConcat(front, back);
  }

  lemma RecorderStepRecordings(d: Device, i: nat)
    requires DeviceCanStep(d, i, false)
    ensures var t := DeviceStep(d, i, false); Unstopped(t.tasks) + d.stops == Unstopped(d.tasks) + t.stops
  {
    var t := DeviceStep(d, i, false);
    UnstoppedSplit(d.tasks, i);
    if !d.tasks[i].Terminated? {
      UnstoppedSplit(t.tasks, i);
      assert t.tasks[..i] + t.tasks[i + 1..] == d.tasks[..i] + d.tasks[i + 1..];
    }
  }

  /** No press that counts, and no chat to go on with. */
  predicate Prolongs(s: State, a: Action) {
    (a.RecReleased? && Accepts(s)) || a == ChatChanges(true)
  }

  /** No more recordings than before, and no more without a stop request. */
  predicate StopsKeepUp(s: State, t: State) {
    Recordings(t) <= Recordings(s) && Recordings(t) + s.recorder.stops <= Recordings(s) + t.recorder.stops && !t.chat
  }

  lemma SameQueue(s: State, t: State)
    requires t.queue == s.queue && t.recorder == s.recorder && !t.chat
    requires CoreRecordings(t.core, t.cur) <= CoreRecordings(s.core, s.cur)
    requires MonitorRecordings(t.monitor) <= MonitorRecordings(s.monitor)
    ensures StopsKeepUp(s, t)
  {
  }

  lemma CoreRecordingsStay(s: State, a: Action)
    requires Enabled(s, a) && ByCore(a) && !s.chat
    ensures StopsKeepUp(s, Do(s, a))
  {
    var t := Do(s, a);
    match a
    case CoreReceives => CountHead(s.queue, Connecting);
    case CorePushes => CountAppend(s.queue, s.core.m, Connecting);
    case CoreStarts => UnstoppedConcat(s.recorder.tasks, [Spawned]);
    case CoreHandles(_) => SameQueue(s, t);
    case CoreAuthenticates(_) => SameQueue(s, t);
    case CoreGreets(_) => SameQueue(s, t);
    case CoreChooses => SameQueue(s, t);
  }

  lemma MonitorRecordingsStay(s: State)
    requires !s.monitor.Waiting? && !s.chat
    ensures StopsKeepUp(s, MonitorStep(s))
  {
    match s.monitor
    case MonitorPush(m) => CountAppend(s.queue, m, Connecting);
    case StoppingPlayer => SameQueue(s, MonitorStep(s));
    case StoppingRecorder => assert Recordings(MonitorStep(s)) == Recordings(s);
    case Breaking => SameQueue(s, MonitorStep(s));
  }

  lemma NotifyRecordingsStay(s: State)
    requires s.monitor.Waiting? && s.recorder.notices != [] && !s.chat
    ensures StopsKeepUp(s, RecorderNotify(s))
  {
  }

  lemma RecordingsStay(s: State, a: Action)
    requires Enabled(s, a) && !s.chat && !Prolongs(s, a)
    ensures StopsKeepUp(s, Do(s, a))
  {
    var t := Do(s, a);
    match a
    case MainPushes => CountAppend(s.queue, Standby, Connecting);
    case RecPressed => SameQueue(s, t);
    case RecReleased => SameQueue(s, t);
    case HomeReleased => SameQueue(s, t);
    case PlayerNotifies => SameQueue(s, t);
    case RecorderNotifies => NotifyRecordingsStay(s);
    case MonitorGoesOn => MonitorRecordingsStay(s);
    case RecorderSteps(i) => RecorderStepRecordings(s.recorder, i);
    case PlayerSteps(_, _) => SameQueue(s, t);
    case ChatChanges(_) => SameQueue(s, t);
    case ServerStops =>
    case _ => CoreRecordingsStay(s, a);
  }

  // ----- runs that are left alone

  predicate IsLeftAlone(s: State, acts: seq<Action>)
    requires IsRun(s, acts)
    decreases acts
  {
    acts == [] || (!Prolongs(s, acts[0]) && IsLeftAlone(Do(s, acts[0]), acts[1..]))
  }

  /**
   * The stop requests that are there, and one in the hands of event_monitor_task if nothing can keep it from being
   * sent: `is_running` is set, and no task can clear it without a request to take.
   */
  function StopsToCome(s: State): nat {
    s.recorder.stops + Bit(s.monitor.StoppingRecorder? && s.recorder.running && s.recorder.stops == 0)
  }

  /** A request in hand stays in hand until it is sent, or another comes first. */
  lemma StopInHandStays(s: State, a: Action)
    requires Enabled(s, a) && s.monitor.StoppingRecorder? && s.recorder.running && s.recorder.stops == 0
    ensures var t := Do(s, a);
            || t.recorder.stops == 1
            || (t.monitor.StoppingRecorder? && t.recorder.running && t.recorder.stops == 0)
  {
  }

  lemma LeftAloneStep(s: State, a: Action)
    requires Enabled(s, a) && !s.chat && !Prolongs(s, a) && Recordings(s) <= StopsToCome(s)
    ensures Recordings(Do(s, a)) <= StopsToCome(Do(s, a)) && !Do(s, a).chat
  {
    hide Recordings;
    RecordingsStay(s, a);
    if s.recorder.stops < Recordings(s) {
      StopInHandStays(s, a);
    }
  }

  lemma {:induction false} LeftAloneRecordings(s: State, acts: seq<Action>)
    requires IsRun(s, acts) && !s.chat && IsLeftAlone(s, acts) && Recordings(s) <= StopsToCome(s)
    ensures Recordings(After(s, acts)) <= StopsToCome(After(s, acts))
    decreases acts
  {
    if acts == [] {
    } else {
      LeftAloneStep(s, acts[0]);
      LeftAloneRecordings(Do(s, acts[0]), acts[1..]);
    }
  }

  lemma {:induction false} RunConcat(s: State, acts: seq<Action>, more: seq<Action>)
    requires IsRun(s, acts) && IsRun(After(s, acts), more)
    ensures IsRun(s, acts + more) && After(s, acts + more) == After(After(s, acts), more)
    decreases acts
  {
    if acts == [] {
      assert acts + more == more;
    } else {
      RunConcat(Do(s, acts[0]), acts[1..], more);
      assert (acts + more)[1..] == acts[1..] + more;
    }
  }

  /** From `s` on, whatever happens: a run that is left alone and can go no further is at home, or stuck. */
  ghost predicate EndsAtHome(s: State) {
    forall more :: IsRun(s, more) && IsLeftAlone(s, more) && AtRest(After(s, more)) ==>
                     Home(After(s, more)) || Jammed(After(s, more))
  }

  lemma ListeningUnstopped(ps: seq<Phase>)
    ensures ps != [] && ps[0].Listening? ==> Unstopped(ps) >= 1
    ensures ps == [] ==> Unstopped(ps) == 0
  {
  }

  lemma EnoughStops(acts: seq<Action>, more: seq<Action>)
    requires IsRun(INITIAL, acts) && IsRun(After(INITIAL, acts), more)
    requires var s := After(INITIAL, acts); !s.chat && Recordings(s) <= StopsToCome(s) && IsLeftAlone(s, more)
    requires AtRest(After(After(INITIAL, acts), more))
    ensures var t := After(After(INITIAL, acts), more); Home(t) || Jammed(t)
  {
    var s := After(INITIAL, acts);
    RunConcat(INITIAL, acts, more);
    RunsEndInStandby(acts + more);
    LeftAloneRecordings(s, more);
    ListeningUnstopped(After(s, more).recorder.tasks);
  }

  // ----- too few stop requests

  /** The same step, with everything that depends on the network going well. */
  function Favoured(a: Action): Action {
    match a
    case CoreHandles(_) => CoreHandles(Connected)
    case CoreAuthenticates(_) => CoreAuthenticates(true)
    case CoreGreets(_) => CoreGreets(true)
    case _ => a
  }

  /** No recording is given up, and no stop request made. */
  predicate KeepsShort(s: State, t: State) {
    Recordings(t) + s.recorder.stops >= Recordings(s) + t.recorder.stops
  }

  lemma SameShort(s: State, t: State)
    requires t.queue == s.queue && t.recorder.tasks == s.recorder.tasks && t.recorder.stops == s.recorder.stops
    requires CoreRecordings(t.core, t.cur) >= CoreRecordings(s.core, s.cur)
    requires MonitorRecordings(t.monitor) >= MonitorRecordings(s.monitor)
    ensures KeepsShort(s, t)
  {
  }

  lemma CoreKeepsShort(s: State, a: Action)
    requires Enabled(s, a) && ByCore(a) && a == Favoured(a)
    ensures KeepsShort(s, Do(s, a))
  {
    var t := Do(s, a);
    match a
    case CoreReceives => CountHead(s.queue, Connecting);
    case CorePushes => CountAppend(s.queue, s.core.m, Connecting);
    case CoreStarts => UnstoppedConcat(s.recorder.tasks, [Spawned]);
    case CoreHandles(_) => SameShort(s, t);
    case CoreAuthenticates(_) => SameShort(s, t);
    case CoreGreets(_) => SameShort(s, t);
    case CoreChooses => SameShort(s, t);
  }

  lemma MonitorKeepsShort(s: State)
    requires !s.monitor.Waiting? && !s.monitor.StoppingRecorder?
    ensures KeepsShort(s, MonitorStep(s))
  {
    match s.monitor
    case MonitorPush(m) => CountAppend(s.queue, m, Connecting);
    case StoppingPlayer => SameShort(s, MonitorStep(s));
    case Breaking => SameShort(s, MonitorStep(s));
  }

  lemma NotifyKeepsShort(s: State)
    requires s.monitor.Waiting? && s.recorder.notices != []
    ensures KeepsShort(s, RecorderNotify(s))
  {
    SameShort(s, RecorderNotify(s));
  }

  lemma FavouredKeepsShort(s: State, a: Action)
    requires Enabled(s, a) && Internal(a) && a == Favoured(a) && !s.monitor.StoppingRecorder?
    ensures KeepsShort(s, Do(s, a)) && !Do(s, a).monitor.StoppingRecorder?
  {
    var t := Do(s, a);
    match a
    case MainPushes => CountAppend(s.queue, Standby, Connecting);
    case PlayerNotifies => SameShort(s, t);
    case RecorderNotifies => NotifyKeepsShort(s);
    case MonitorGoesOn => MonitorKeepsShort(s);
    case RecorderSteps(i) => RecorderStepRecordings(s.recorder, i);
    case PlayerSteps(_, _) => SameShort(s, t);
    case _ => CoreKeepsShort(s, a);
  }

  /** A run of the firmware's own steps that leaves too few stop requests too few, and begins no further session. */
  ghost predicate StaysShort(s: State, more: seq<Action>) {
    && IsRun(s, more) && IsLeftAlone(s, more)
    && Recordings(After(s, more)) > After(s, more).recorder.stops
    && Excess(After(s, more).past) <= Excess(s.past)
  }

  lemma StaysShortCons(s: State, a: Action, more: seq<Action>)
    requires Enabled(s, a) && !Prolongs(s, a) && Begins(s, a) == 0 && StaysShort(Do(s, a), more)
    ensures StaysShort(s, [a] + more) && After(s, [a] + more) == After(Do(s, a), more)
  {
    assert ([a] + more)[1..] == more;
    StepPast(s, a);
  }

  lemma {:induction false} ShortRun(s: State) returns (more: seq<Action>)
    requires !s.chat && Recordings(s) > s.recorder.stops && !s.monitor.StoppingRecorder?
    ensures StaysShort(s, more) && AtRest(After(s, more))
    decreases Rank(s)
  {
    if AtRest(s) {
      more := [];
    } else {
      var any :| Internal(any) && Enabled(s, any);
      var a := Favoured(any);
      InternalDecreases(s, a);
      FavouredKeepsShort(s, a);
      var rest := ShortRun(Do(s, a));
      more := [a] + rest;
      StaysShortCons(s, a, rest);
    }
  }

  // ----- a request in hand

  /** `is_running` is set only while some task listens. */
  predicate RunningListens(d: Device) {
    d.running ==> Listening in d.tasks
  }

  lemma DeviceRunningListens(d: Device, i: nat)
    requires RunningListens(d) && DeviceCanStep(d, i, false)
    ensures RunningListens(DeviceStep(d, i, false))
  {
    var t := DeviceStep(d, i, false);
    if d.tasks[i].Announced? {
      assert t.tasks[i] == Listening;
    } else if d.running && !d.tasks[i].Listening? {
      var k :| 0 <= k < |d.tasks| && d.tasks[k] == Listening;
      assert t.tasks[if d.tasks[i].Terminated? && i < k then k - 1 else k] == Listening;
    }
  }

  lemma StepRunningListens(s: State, a: Action)
    requires Enabled(s, a) && RunningListens(s.recorder)
    ensures RunningListens(Do(s, a).recorder)
  {
    match a
    case RecorderSteps(i) => DeviceRunningListens(s.recorder, i);
    case _ =>
  }

  lemma {:induction false} RunRunningListens(s: State, acts: seq<Action>)
    requires IsRun(s, acts) && RunningListens(s.recorder)
    ensures RunningListens(After(s, acts).recorder)
    decreases acts
  {
    if acts == [] {
    } else {
      StepRunningListens(s, acts[0]);
      RunRunningListens(Do(s, acts[0]), acts[1..]);
    }
  }

  lemma SendingKeepsShort(s: State)
    requires s.monitor.StoppingRecorder? && Recordings(s) > StopsToCome(s)
    requires !s.recorder.running || s.recorder.stops == 0
    ensures var t := MonitorStep(s); Recordings(t) > t.recorder.stops && t.monitor.Breaking? && t.chat == s.chat
  {
    assert Recordings(MonitorStep(s)) == Recordings(s);
  }

  /** The request in hand is wasted if another can clear `is_running` first, and counts as one if not. */
  lemma ShortRunFromHand(s: State) returns (more: seq<Action>)
    requires !s.chat && Recordings(s) > StopsToCome(s) && RunningListens(s.recorder)
    ensures StaysShort(s, more) && AtRest(After(s, more))
  {
    if !s.monitor.StoppingRecorder? {
      more := ShortRun(s);
    } else if s.recorder.running && s.recorder.stops > 0 {
      var i :| 0 <= i < |s.recorder.tasks| && s.recorder.tasks[i] == Listening;
      var a := RecorderSteps(i);
      var t := Do(s, a);
      RecorderStepRecordings(s.recorder, i);
      assert Recordings(t) > StopsToCome(t);
      SendingKeepsShort(t);
      var rest := ShortRun(MonitorStep(t));
      StaysShortCons(t, MonitorGoesOn, rest);
      more := [a] + ([MonitorGoesOn] + rest);
      StaysShortCons(s, a, [MonitorGoesOn] + rest);
    } else {
      SendingKeepsShort(s);
      var rest := ShortRun(MonitorStep(s));
      more := [MonitorGoesOn] + rest;
      StaysShortCons(s, MonitorGoesOn, rest);
    }
  }

  lemma HomeHasNoRecordings(s: State)
    ensures Home(s) ==> Recordings(s) == 0
  {
    ListeningUnstopped(s.recorder.tasks);
  }

  /**
   * Whatever went before: if there are stop requests for all recordings under way or sure to begin, every run that is
   * left alone can end nowhere but at home, or stuck. And if there are fewer, some run ends elsewhere: always when not
   * enough sessions overlap to get stuck.
   */
  lemma StoppedRunsEndAtHome(acts: seq<Action>)
    requires IsRun(INITIAL, acts) && !After(INITIAL, acts).chat
    ensures var s := After(INITIAL, acts);
            && (Recordings(s) <= StopsToCome(s) ==> EndsAtHome(s))
            && (Excess(s.past) < 6 ==> (EndsAtHome(s) <==> Recordings(s) <= StopsToCome(s)))
  {
    var s := After(INITIAL, acts);
    if Recordings(s) <= StopsToCome(s) {
      forall more | IsRun(s, more) && IsLeftAlone(s, more) && AtRest(After(s, more))
        ensures Home(After(s, more)) || Jammed(After(s, more))
      {
        EnoughStops(acts, more);
      }
    } else if Excess(s.past) < 6 {
      RunRunningListens(INITIAL, acts);
      var more := ShortRunFromHand(s);
      RunConcat(INITIAL, acts, more);
      RunsEndInStandby(acts + more);
      HomeHasNoRecordings(After(s, more));
    }
  }
}
