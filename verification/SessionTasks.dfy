/** The tasks of the voice session as imperative code over the shared application context. */
module SessionTasks {
  import opened TcpStream
  import opened Session
  import opened SessionOrder
  import opened SessionSafety
  import SessionRest

  /** `audio_recorder` or `audio_player`, with the tasks that run on it. */
  class AudioDevice {
    var tasks: seq<Phase>
    var notices: seq<Notice>
    var isRunning: bool
    var stops: nat

    function View(): Device
      reads this
    {
      Device(tasks, notices, isRunning, stops)
    }

    constructor ()
      ensures View() == IDLE_DEVICE
    {
      tasks, notices, isRunning, stops := [], [], false, 0;
    }

    /** `recorder_start`, `player_start` */
    method Start()
      modifies this
      ensures View() == DeviceStart(old(View()))
    {
      tasks := tasks + [Spawned];
    }

    /** `recorder_stop`, `player_stop` */
    method Stop()
      modifies this
      ensures View() == DeviceStop(old(View()))
    {
      if isRunning {
        stops := stops + 1;
      }
    }

    /** The next step of one `recorder_task` or `player_task`. */
    method TaskStep(i: nat, dataEnds: bool)
      requires DeviceCanStep(View(), i, dataEnds)
      modifies this
      ensures View() == DeviceStep(old(View()), i, dataEnds)
    {
      match tasks[i]
      case Spawned =>
        tasks := tasks[i := Piping];
      case Piping =>
        notices := notices + [Started];
        tasks := tasks[i := Announced];
      case Announced =>
        isRunning := true;
        tasks := tasks[i := Listening];
      case Listening =>
        if !dataEnds {
          stops := stops - 1;
        }
        isRunning := false;
        tasks := tasks[i := Stopping];
      case Stopping =>
        tasks := tasks[i := Terminated];
      case Terminated =>
        notices := notices + [Finished];
        tasks := tasks[..i] + tasks[i + 1..];
    }
  }

  // ----- one round of each loop, as a whole

  /** What the network does during one round of core_task. */
  datatype Outcomes = Outcomes(result: OpenResult, authenticated: bool, greeted: bool)

  function Connect(r: State, net: Outcomes): State {
    var t := r.(stream := AfterOpen(r.stream, net.result));
    if !net.result.Connected? || !net.authenticated then t.(queue := r.queue + [Reset])
    else if net.greeted then t.(recorder := DeviceStart(r.recorder))
    else t.(queue := r.queue + [Reset], recorder := DeviceStart(r.recorder),
            past := r.past.(greetFailures := r.past.greetFailures + 1))
  }

  function Handled(r: State, net: Outcomes): State {
    match r.cur
    case Reset => r.(stream := AfterClose(r.stream), queue := r.queue + [Standby])
    case Connecting => Connect(r, net)
    case RecordingFinished => r.(player := DeviceStart(r.player))
    case PlayingFinished =>
      r.(stream := AfterClose(r.stream), queue := r.queue + [if r.chat then Connecting else Standby],
         past := r.past.(chosen := r.chat))
    case _ => r
  }

  /** A round of core_task, from receiving a mode to waiting for the next one. */
  function CoreRound(s: State, net: Outcomes): State
    requires s.queue != []
  {
    Handled(CoreReceive(s).(core := Receiving), net)
  }

  function ConnectScript(net: Outcomes): seq<Action> {
    if !net.result.Connected? then [CorePushes]
    else if !net.authenticated then [CoreAuthenticates(false), CorePushes]
    else if net.greeted then [CoreAuthenticates(true), CoreGreets(true), CoreStarts]
    else [CoreAuthenticates(true), CoreGreets(false), CorePushes, CoreStarts]
  }

  /** The steps that such a round consists of when no other task comes between. */
  function CoreScript(m: Mode, net: Outcomes): seq<Action> {
    match m
    case Reset => [CoreReceives, CoreHandles(net.result), CorePushes]
    case Connecting => [CoreReceives, CoreHandles(net.result)] + ConnectScript(net)
    case PlayingFinished => [CoreReceives, CoreHandles(net.result), CoreChooses, CorePushes]
    case _ => [CoreReceives, CoreHandles(net.result)]
  }

  lemma RunCons(s: State, a: Action, acts: seq<Action>)
    requires Enabled(s, a) && IsRun(Do(s, a), acts)
    ensures IsRun(s, [a] + acts) && After(s, [a] + acts) == After(Do(s, a), acts)
  {
    assert ([a] + acts)[1..] == acts;
  }

  lemma GreetIsRun(s: State, net: Outcomes)
    requires s.core.Greeting? && |s.queue| < QUEUE_SIZE && net.result.Connected? && net.authenticated
    ensures var script := ConnectScript(net)[1..];
            && IsRun(s, script)
            && After(s, script) ==
                 if net.greeted then s.(recorder := DeviceStart(s.recorder), core := Receiving)
                 else s.(queue := s.queue + [Reset], recorder := DeviceStart(s.recorder), core := Receiving,
                         past := s.past.(greetFailures := s.past.greetFailures + 1))
  {
    var g := CoreGreet(s, net.greeted);
    if net.greeted {
      RunCons(g, CoreStarts, []);
      RunCons(s, CoreGreets(true), [CoreStarts]);
      assert [CoreGreets(true)] + [CoreStarts] == ConnectScript(net)[1..];
    } else {
      RunCons(CorePushed(g), CoreStarts, []);
      RunCons(g, CorePushes, [CoreStarts]);
      RunCons(s, CoreGreets(false), [CorePushes] + [CoreStarts]);
      assert [CoreGreets(false)] + ([CorePushes] + [CoreStarts]) == ConnectScript(net)[1..];
    }
  }

  lemma ConnectIsRun(s: State, net: Outcomes)
    requires s.core.Handling? && s.cur.Connecting? && |s.queue| < QUEUE_SIZE
    ensures var h := CoreHandle(s, net.result);
            IsRun(h, ConnectScript(net)) && After(h, ConnectScript(net)) == Connect(s.(core := Receiving), net)
  {
    var h := CoreHandle(s, net.result);
    if !net.result.Connected? {
      RunCons(h, CorePushes, []);
    } else if !net.authenticated {
      RunCons(CoreAuthenticate(h, false), CorePushes, []);
      RunCons(h, CoreAuthenticates(false), [CorePushes]);
      assert [CoreAuthenticates(false)] + [CorePushes] == ConnectScript(net);
    } else {
      GreetIsRun(CoreAuthenticate(h, true), net);
      RunCons(h, CoreAuthenticates(true), ConnectScript(net)[1..]);
      assert [CoreAuthenticates(true)] + ConnectScript(net)[1..] == ConnectScript(net);
    }
  }

  lemma HandledIsRun(s: State, net: Outcomes)
    requires s.core.Handling? && |s.queue| < QUEUE_SIZE
    ensures var script := CoreScript(s.cur, net)[1..];
            IsRun(s, script) && After(s, script) == Handled(s.(core := Receiving), net)
  {
    var script := CoreScript(s.cur, net)[1..];
    var a := CoreHandles(net.result);
    var h := CoreHandle(s, net.result);
    match s.cur
    case Reset =>
      RunCons(h, CorePushes, []);
      RunCons(s, a, [CorePushes]);
      assert [a] + [CorePushes] == script;
    case Connecting =>
      ConnectIsRun(s, net);
      RunCons(s, a, ConnectScript(net));
      assert [a] + ConnectScript(net) == script;
    case PlayingFinished =>
      RunCons(CoreChoose(h), CorePushes, []);
      RunCons(h, CoreChooses, [CorePushes]);
      RunCons(s, a, [CoreChooses] + [CorePushes]);
      assert [a] + ([CoreChooses] + [CorePushes]) == script;
    case _ =>
      RunCons(s, a, []);
      assert [a] + [] == script;
  }

  /** A round of core_task that nothing comes between is a run of the transition system. */
  lemma CoreRoundIsRun(s: State, net: Outcomes)
    requires s.core.Receiving? && s.queue != [] && |s.queue| <= QUEUE_SIZE
    ensures IsRun(s, CoreScript(s.queue[0], net)) && After(s, CoreScript(s.queue[0], net)) == CoreRound(s, net)
  {
    var script := CoreScript(s.queue[0], net);
    var r := CoreReceive(s);
    HandledIsRun(r, net);
    RunCons(s, CoreReceives, script[1..]);
    assert [CoreReceives] + script[1..] == script;
  }

  /** What event_monitor_task listens to. */
  datatype Event = RecButton(pressed: bool) | HomeButton(pressed: bool) | FromPlayer | FromRecorder

  predicate Arrives(s: State, e: Event) {
    match e
    case FromPlayer => s.player.notices != []
    case FromRecorder => s.recorder.notices != []
    case _ => true
  }

  /** A round of event_monitor_task. */
  function MonitorRound(s: State, e: Event): State
    requires Arrives(s, e)
  {
    match e
    case RecButton(pressed) =>
      if pressed then s.(pushed := true)
      else if Accepts(s) then
        s.(pushed := false, queue := s.queue + [Connecting], past := s.past.(presses := s.past.presses + 1))
      else s.(pushed := false)
    case HomeButton(pressed) =>
      if pressed then s
      else if s.cur.Playing? then s.(player := DeviceStop(s.player))
      else if s.cur.Recording? then s.(recorder := DeviceStop(s.recorder))
      else s
    case FromPlayer =>
      s.(player := s.player.(notices := s.player.notices[1..]), queue := s.queue + [PlayerMode(s.player.notices[0])])
    case FromRecorder =>
      s.(recorder := s.recorder.(notices := s.recorder.notices[1..]),
         queue := s.queue + [RecorderMode(s.recorder.notices[0])])
  }

  function MonitorScript(s: State, e: Event): seq<Action> {
    match e
    case RecButton(pressed) =>
      if pressed then [RecPressed] else [RecReleased] + if Accepts(s) then [MonitorGoesOn] else []
    case HomeButton(pressed) =>
      if pressed then []
      else [HomeReleased] + if s.cur.Playing? then [MonitorGoesOn]
                            else if s.cur.Recording? then [MonitorGoesOn, MonitorGoesOn] else []
    case FromPlayer => [PlayerNotifies] + [MonitorGoesOn]
    case FromRecorder => [RecorderNotifies] + [MonitorGoesOn]
  }

  lemma RecRoundIsRun(s: State, pressed: bool)
    requires s.monitor.Waiting? && |s.queue| < QUEUE_SIZE
    ensures var e := RecButton(pressed);
            IsRun(s, MonitorScript(s, e)) && After(s, MonitorScript(s, e)) == MonitorRound(s, e)
  {
    if pressed {
      RunCons(s, RecPressed, []);
    } else if Accepts(s) {
      RunCons(RecRelease(s), MonitorGoesOn, []);
      RunCons(s, RecReleased, [MonitorGoesOn]);
    } else {
      RunCons(s, RecReleased, []);
    }
  }

  lemma HomeStopsPlayer(s: State)
    requires s.monitor.Waiting? && s.cur.Playing?
    ensures var script := [HomeReleased] + [MonitorGoesOn];
            IsRun(s, script) && After(s, script) == s.(player := DeviceStop(s.player))
  {
    RunCons(HomeRelease(s), MonitorGoesOn, []);
    RunCons(s, HomeReleased, [MonitorGoesOn]);
  }

  lemma HomeStopsRecorder(s: State)
    requires s.monitor.Waiting? && s.cur.Recording?
    ensures var script := [HomeReleased] + [MonitorGoesOn, MonitorGoesOn];
            IsRun(s, script) && After(s, script) == s.(recorder := DeviceStop(s.recorder))
  {
    var t := HomeRelease(s);
    RunCons(MonitorStep(t), MonitorGoesOn, []);
    RunCons(t, MonitorGoesOn, [MonitorGoesOn]);
    RunCons(s, HomeReleased, [MonitorGoesOn, MonitorGoesOn]);
  }

  lemma HomeRoundIsRun(s: State, pressed: bool)
    requires s.monitor.Waiting?
    ensures var e := HomeButton(pressed);
            IsRun(s, MonitorScript(s, e)) && After(s, MonitorScript(s, e)) == MonitorRound(s, e)
  {
    if pressed {
    } else if s.cur.Playing? {
      HomeStopsPlayer(s);
    } else if s.cur.Recording? {
      HomeStopsRecorder(s);
    } else {
      RunCons(s, HomeReleased, []);
    }
  }

  /** A round of event_monitor_task that nothing comes between is a run of the transition system. */
  lemma MonitorRoundIsRun(s: State, e: Event)
    requires s.monitor.Waiting? && |s.queue| < QUEUE_SIZE && Arrives(s, e)
    ensures IsRun(s, MonitorScript(s, e)) && After(s, MonitorScript(s, e)) == MonitorRound(s, e)
  {
    match e
    case FromPlayer =>
      RunCons(PlayerNotify(s), MonitorGoesOn, []);
      RunCons(s, PlayerNotifies, [MonitorGoesOn]);
    case FromRecorder =>
      RunCons(RecorderNotify(s), MonitorGoesOn, []);
      RunCons(s, RecorderNotifies, [MonitorGoesOn]);
    case RecButton(pressed) => RecRoundIsRun(s, pressed);
    case HomeButton(pressed) => HomeRoundIsRun(s, pressed);
  }

  // ----- what a round keeps

  /** Of what the regime forbids, a run of such steps could do nothing: no press, and no failed greeting. */
  predicate Harmless(a: Action) {
    !a.RecReleased? && (a.CoreGreets? ==> a.ok)
  }

  lemma {:induction false} HarmlessIsOrderly(s: State, acts: seq<Action>)
    requires IsRun(s, acts) && forall i :: 0 <= i < |acts| ==> Harmless(acts[i])
    ensures IsOrderlyRun(s, acts)
    decreases acts
  {
    if acts == [] {
    } else {
      assert Harmless(acts[0]);
      HarmlessIsOrderly(Do(s, acts[0]), acts[1..]);
    }
  }

  lemma CoreScriptIsHarmless(m: Mode, net: Outcomes)
    requires net.greeted
    ensures forall i :: 0 <= i < |CoreScript(m, net)| ==> Harmless(CoreScript(m, net)[i])
  {
  }

  /** Where a round of core_task leads from a state that some run leads to, or from one with a single session. */
  lemma CoreRoundKeeps(s: State, net: Outcomes)
    requires s.core.Receiving? && s.queue != [] && |s.queue| <= QUEUE_SIZE
    ensures SessionRest.Steady(s) ==> SessionRest.Steady(CoreRound(s, net))
    ensures Single(s) && net.greeted ==> Single(CoreRound(s, net))
  {
    var script := CoreScript(s.queue[0], net);
    CoreRoundIsRun(s, net);
    if SessionRest.Steady(s) {
      SessionRest.RunStaysSteady(s, script);
    }
    if Single(s) && net.greeted {
      CoreScriptIsHarmless(s.queue[0], net);
      HarmlessIsOrderly(s, script);
      OrderlyIffNeverTwo(s, script);
    }
  }

  /** A press that counts finds nothing queued. */
  predicate InOrder(s: State, e: Event) {
    e.RecButton? && !e.pressed && Accepts(s) ==> s.queue == [] && !s.mainPending
  }

  lemma MonitorScriptIsOrderly(s: State, e: Event)
    requires IsRun(s, MonitorScript(s, e)) && InOrder(s, e)
    ensures IsOrderlyRun(s, MonitorScript(s, e))
  {
    var script := MonitorScript(s, e);
    if script != [] {
      HarmlessIsOrderly(Do(s, script[0]), script[1..]);
    }
  }

  /** Where a round of event_monitor_task leads. */
  lemma MonitorRoundKeeps(s: State, e: Event)
    requires s.monitor.Waiting? && |s.queue| < QUEUE_SIZE && Arrives(s, e)
    ensures SessionRest.Steady(s) ==> SessionRest.Steady(MonitorRound(s, e))
    ensures Single(s) && InOrder(s, e) ==> Single(MonitorRound(s, e))
  {
    MonitorRoundIsRun(s, e);
    if SessionRest.Steady(s) {
      SessionRest.RunStaysSteady(s, MonitorScript(s, e));
    }
    if Single(s) && InOrder(s, e) {
      MonitorScriptIsOrderly(s, e);
      OrderlyIffNeverTwo(s, MonitorScript(s, e));
    }
  }

  lemma StepKeeps(s: State, a: Action)
    requires Enabled(s, a)
    ensures SessionRest.Steady(s) ==> SessionRest.Steady(Do(s, a))
    ensures Single(s) && Orderly(s, a) ==> Single(Do(s, a))
  {
    if SessionRest.Steady(s) {
      SessionRest.StepStaysSteady(s, a);
    }
    if Single(s) && Orderly(s, a) {
      OrderlyStaysSingle(s, a);
    }
  }

  lemma StartIsSteady()
    ensures SessionRest.Steady(INITIAL) && Single(INITIAL)
  {
    SingleAtStart();
  }

  // ----- the tasks

  /** `app_context`, between two rounds of its tasks; `pushed` is a local variable of event_monitor_task. */
  class AppContext {
    var queue: seq<Mode>
    var curState: Mode
    var cntChat: bool
    var pushed: bool
    var starting: bool
    const stream: StreamContext
    const ar: AudioDevice
    const ap: AudioDevice
    ghost var past: History

    ghost predicate Intact()
      reads this, stream
    {
      |queue| <= QUEUE_SIZE && ar != ap && Sane(stream.View())
    }

    /** What every run keeps: outside STANDBY a session is under way, and an open stream will be closed. */
    ghost predicate Valid()
      reads this, stream, ar, ap
    {
      Intact() && SessionRest.Steady(View())
    }

    ghost function View(): State
      reads this, stream, ar, ap
    {
      State(queue, curState, cntChat, pushed, starting, Receiving, Waiting, stream.View(), ar.View(), ap.View(), past)
    }

    /** `app_main` before its start-up push */
    constructor ()
      ensures Valid() && Single(View()) && View() == INITIAL && fresh(stream) && fresh(ar) && fresh(ap)
    {
      queue, curState, cntChat, pushed, starting := [], Standby, false, false, true;
      stream := new StreamContext();
      ar := new AudioDevice();
      ap := new AudioDevice();
      past := INITIAL.past;
      new;
      hide Single;
      hide SessionRest.Steady;
      StartIsSteady();
    }

    /** `push_state`, where the queue has room */
    method PushState(m: Mode)
      requires |queue| < QUEUE_SIZE
      modifies this`queue
      ensures queue == old(queue) + [m]
    {
      queue := queue + [m];
    }

    /** The end of `app_main` */
    method FinishStartUp()
      requires Valid() && starting && |queue| < QUEUE_SIZE
      modifies this
      ensures Valid() && View() == Do(old(View()), MainPushes)
      ensures old(Single(View())) ==> Single(View())
    {
      hide Single;
      hide SessionRest.Steady;
      StepKeeps(View(), MainPushes);
      PushState(Standby);
      starting := false;
    }

    /** The `MUBBY_STATE_CONNECTING` case */
    method HandleConnecting(net: Outcomes)
      requires Intact() && |queue| < QUEUE_SIZE
      modifies this, stream, ar
      ensures Intact() && View() == Connect(old(View()), net)
    {
      var connected := stream.Open(net.result);
      if !connected {
        PushState(Reset);
        return;
      }
      if !net.authenticated {
        PushState(Reset);
        return;
      }
      if !net.greeted {
        PushState(Reset);
        past := past.(greetFailures := past.greetFailures + 1);
      }
      ar.Start();
    }

    /** The `MUBBY_STATE_PLAYING_FINISHED` case */
    method HandlePlayingFinished()
      requires Intact() && |queue| < QUEUE_SIZE
      modifies this, stream
      ensures Intact()
      ensures var s := old(View());
              View() == s.(stream := AfterClose(s.stream), queue := s.queue + [if s.chat then Connecting else Standby],
                           past := s.past.(chosen := s.chat))
    {
      var _ := stream.Close();
      past := past.(chosen := cntChat);
      if cntChat {
        PushState(Connecting);
      } else {
        PushState(Standby);
      }
    }

    /** The `switch` */
    method HandleMode(net: Outcomes)
      requires Intact() && |queue| < QUEUE_SIZE
      modifies this, stream, ar, ap
      ensures Intact() && View() == Handled(old(View()), net)
    {
      match curState
      case Reset =>
        var _ := stream.Close();
        PushState(Standby);
      case Connecting =>
        HandleConnecting(net);
      case RecordingFinished =>
        ap.Start();
      case PlayingFinished =>
        HandlePlayingFinished();
      case _ =>
    }

    /** One round of the loop of `core_task` */
    method CoreTaskRound(net: Outcomes)
      requires Valid() && queue != []
      modifies this, stream, ar, ap
      ensures Valid() && View() == CoreRound(old(View()), net)
      ensures old(Single(View())) && net.greeted ==> Single(View())
    {
      hide Single;
      hide SessionRest.Steady;
      hide Handled;
      CoreRoundKeeps(View(), net);
      curState := queue[0];
      queue := queue[1..];
      past := past.(received := past.received + [curState], choices := past.choices + [past.chosen]);
      HandleMode(net);
    }

    method HandleButton(e: Event)
      requires Intact() && |queue| < QUEUE_SIZE && (e.RecButton? || e.HomeButton?)
      modifies this, ar, ap
      ensures Intact() && View() == MonitorRound(old(View()), e)
    {
      match e
      case RecButton(pressed) =>
        if pressed {
          pushed := true;
        } else if pushed {
          pushed := false;
          if curState.Standby? {
            PushState(Connecting);
            past := past.(presses := past.presses + 1);
          }
        }
      case HomeButton(pressed) =>
        if !pressed {
          if curState.Playing? {
            ap.Stop();
          } else if curState.Recording? {
            ar.Stop();
          }
        }
    }

    /** One round of the loop of `event_monitor_task` */
    method EventMonitorRound(e: Event)
      requires Valid() && |queue| < QUEUE_SIZE && Arrives(View(), e)
      modifies this, ar, ap
      ensures Valid() && View() == MonitorRound(old(View()), e)
      ensures old(Single(View())) && InOrder(old(View()), e) ==> Single(View())
    {
      hide Single;
      hide SessionRest.Steady;
      MonitorRoundKeeps(View(), e);
      match e
      case FromPlayer =>
        var notice := ap.notices[0];
        ap.notices := ap.notices[1..];
        PushState(PlayerMode(notice));
      case FromRecorder =>
        var notice := ar.notices[0];
        ar.notices := ar.notices[1..];
        PushState(RecorderMode(notice));
      case _ =>
        HandleButton(e);
    }

    /** The next step of one recorder task. */
    method RecorderTaskStep(i: nat)
      requires Valid() && Enabled(View(), RecorderSteps(i))
      modifies ar
      ensures Valid() && View() == Do(old(View()), RecorderSteps(i))
      ensures old(Single(View())) ==> Single(View())
    {
      hide Single;
      hide SessionRest.Steady;
      StepKeeps(View(), RecorderSteps(i));
      ar.TaskStep(i, false);
    }

    /** The next step of one player task. */
    method PlayerTaskStep(i: nat, dataEnds: bool)
      requires Valid() && Enabled(View(), PlayerSteps(i, dataEnds))
      modifies ap
      ensures Valid() && View() == Do(old(View()), PlayerSteps(i, dataEnds))
      ensures old(Single(View())) ==> Single(View())
    {
      hide Single;
      hide SessionRest.Steady;
      StepKeeps(View(), PlayerSteps(i, dataEnds));
      ap.TaskStep(i, dataEnds);
    }
  }
}
