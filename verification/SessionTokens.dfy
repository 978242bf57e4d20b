/** What every run of the voice session conserves, however often the button is pressed. */
module SessionTokens {
  import opened TcpStream
  import opened Session

  /** Modes that carry a session from one step to the next; the other two only report. */
  predicate IsControl(m: Mode) {
    m.Reset? || m.Standby? || m.Connecting? || m.RecordingFinished? || m.PlayingFinished?
  }

  function Bit(b: bool): nat {
    if b then 1 else 0
  }

  function Count<T(==)>(q: seq<T>, x: T): nat {
    multiset(q)[x]
  }

  function Controls(q: seq<Mode>): nat {
    Count(q, Reset) + Count(q, Standby) + Count(q, Connecting) + Count(q, RecordingFinished) + Count(q, PlayingFinished)
  }

  function Finishes(ns: seq<Notice>): nat {
    Count(ns, Finished) + Count(ns, Failed)
  }

  /** Live tasks and notices of their end. */
  function DeviceTokens(d: Device): nat {
    |d.tasks| + Finishes(d.notices)
  }

  /** What core_task holds between taking a control mode out of the queue and handing the session on. */
  function CoreTokens(core: CorePc, cur: Mode): nat {
    match core
    case Receiving => 0
    case Handling => Bit(IsControl(cur) && !cur.Standby?)
    case CorePush(m, thenStart) => Bit(IsControl(m)) + Bit(thenStart)
    case _ => 1
  }

  function MonitorTokens(monitor: MonitorPc): nat {
    match monitor
    case MonitorPush(m) => Bit(IsControl(m))
    case _ => 0
  }

  /** The sessions under way, wherever each of them is just now. */
  function Tokens(s: State): nat {
    Controls(s.queue) + DeviceTokens(s.recorder) + DeviceTokens(s.player)
    + CoreTokens(s.core, s.cur) + MonitorTokens(s.monitor) + Bit(s.mainPending)
  }

  /** Start-up, each accepted press and each failed `rec` write begin a session; each STANDBY received ends one. */
  ghost predicate Conserved(s: State) {
    Tokens(s) + Count(s.past.received, Standby) == 1 + s.past.presses + s.past.greetFailures
  }

  lemma CountAppend<T>(q: seq<T>, m: T, x: T)
    ensures Count(q + [m], x) == Count(q, x) + Bit(m == x)
  {
  }

  lemma CountHead<T>(q: seq<T>, x: T)
    requires q != []
    ensures Count(q, x) == Bit(q[0] == x) + Count(q[1..], x)
  {
    assert q == [q[0]] + q[1..];
  }

  lemma ControlsAppend(q: seq<Mode>, m: Mode)
    ensures Controls(q + [m]) == Controls(q) + Bit(IsControl(m))
  {
  }

  lemma ControlsHead(q: seq<Mode>)
    requires q != []
    ensures Controls(q) == Bit(IsControl(q[0])) + Controls(q[1..])
  {
    assert q == [q[0]] + q[1..];
  }

  lemma FinishesHead(ns: seq<Notice>)
    requires ns != []
    ensures Finishes(ns) == Bit(!ns[0].Started?) + Finishes(ns[1..])
  {
    assert ns == [ns[0]] + ns[1..];
  }

  lemma DeviceKeeps(d: Device, i: nat, dataEnds: bool)
    requires DeviceCanStep(d, i, dataEnds)
    ensures DeviceTokens(DeviceStep(d, i, dataEnds)) == DeviceTokens(d)
  {
  }

  lemma HandleKeeps(s: State, result: OpenResult)
    requires s.core.Handling?
    ensures Tokens(CoreHandle(s, result)) == Tokens(s)
  {
    var t := CoreHandle(s, result);
    match s.cur
    case Reset => assert Tokens(t) == Tokens(s);
    case Standby => assert Tokens(t) == Tokens(s);
    case Connecting => assert Tokens(t) == Tokens(s);
    case Recording => assert Tokens(t) == Tokens(s);
    case RecordingFinished => assert Tokens(t) == Tokens(s);
    case Playing => assert Tokens(t) == Tokens(s);
    case PlayingFinished => assert Tokens(t) == Tokens(s);
    case Shutdown => assert Tokens(t) == Tokens(s);
  }

  /** A failed `rec` write doubles the session: one is reset, the other goes on to record. */
  lemma GreetCounts(s: State, ok: bool)
    requires s.core.Greeting?
    ensures Tokens(CoreGreet(s, ok)) == Tokens(s) + Bit(!ok)
    ensures CoreGreet(s, ok).past == s.past.(greetFailures := s.past.greetFailures + Bit(!ok))
  {
  }

  lemma CoreKeeps(s: State, ok: bool)
    ensures s.core.Authenticating? ==> Tokens(CoreAuthenticate(s, ok)) == Tokens(s)
    ensures s.core.Starting? ==> Tokens(CoreStart(s)) == Tokens(s)
    ensures s.core.Choosing? ==> Tokens(CoreChoose(s)) == Tokens(s)
  {
  }

  lemma ReceiveCounts(s: State)
    requires s.core.Receiving? && s.queue != []
    ensures Tokens(CoreReceive(s)) + Bit(s.queue[0].Standby?) == Tokens(s)
    ensures Count(CoreReceive(s).past.received, Standby) == Count(s.past.received, Standby) + Bit(s.queue[0].Standby?)
  {
    CountAppend(s.past.received, s.queue[0], Standby);
    ControlsHead(s.queue);
  }

  lemma PushKeeps(s: State)
    ensures s.mainPending ==> Tokens(s.(queue := s.queue + [Standby], mainPending := false)) == Tokens(s)
    ensures s.core.CorePush? ==> Tokens(CorePushed(s)) == Tokens(s)
  {
    ControlsAppend(s.queue, Standby);
    if s.core.CorePush? {
      ControlsAppend(s.queue, s.core.m);
    }
  }

  lemma NotifyKeeps(s: State)
    requires s.monitor.Waiting?
    ensures s.player.notices != [] ==> Tokens(PlayerNotify(s)) == Tokens(s)
    ensures s.recorder.notices != [] ==> Tokens(RecorderNotify(s)) == Tokens(s)
  {
    if s.player.notices != [] {
      FinishesHead(s.player.notices);
      assert Tokens(PlayerNotify(s)) == Tokens(s);
    }
    if s.recorder.notices != [] {
      FinishesHead(s.recorder.notices);
    }
  }

  lemma RecCounts(s: State)
    requires s.monitor.Waiting?
    ensures Tokens(RecRelease(s)) == Tokens(s) + Bit(Accepts(s))
    ensures RecRelease(s).past == s.past.(presses := s.past.presses + Bit(Accepts(s)))
  {
  }

  lemma HomeKeeps(s: State)
    requires s.monitor.Waiting?
    ensures Tokens(HomeRelease(s)) == Tokens(s) && HomeRelease(s).past == s.past
  {
  }

  lemma MonitorKeeps(s: State)
    requires !s.monitor.Waiting?
    ensures Tokens(MonitorStep(s)) == Tokens(s)
  {
    match s.monitor
    case MonitorPush(m) => ControlsAppend(s.queue, m);
    case StoppingPlayer => assert Tokens(MonitorStep(s)) == Tokens(s);
    case StoppingRecorder => assert Tokens(MonitorStep(s)) == Tokens(s);
    case Breaking => assert Tokens(MonitorStep(s)) == Tokens(s);
  }

  /** The sessions a step begins: an accepted press, or the second life of a session whose `rec` write failed. */
  function Begins(s: State, a: Action): nat {
    match a
    case RecReleased => Bit(Accepts(s))
    case CoreGreets(ok) => Bit(!ok)
    case _ => 0
  }

  /** The sessions a step ends. */
  function Ends(s: State, a: Action): nat {
    Bit(a.CoreReceives? && s.queue != [] && s.queue[0].Standby?)
  }

  /** One step, whichever task takes it. */
  lemma StepTokens(s: State, a: Action)
    requires Enabled(s, a)
    ensures Tokens(Do(s, a)) + Ends(s, a) == Tokens(s) + Begins(s, a)
  {
    var t := Do(s, a);
    match a
    case MainPushes => PushKeeps(s);
    case CoreReceives => ReceiveCounts(s);
    case CorePushes => PushKeeps(s);
    case CoreHandles(result) => HandleKeeps(s, result);
    case CoreAuthenticates(ok) => CoreKeeps(s, ok);
    case CoreGreets(ok) => GreetCounts(s, ok);
    case CoreStarts => CoreKeeps(s, true);
    case CoreChooses => CoreKeeps(s, true);
    case RecPressed => assert Tokens(t) == Tokens(s);
    case RecReleased => RecCounts(s);
    case HomeReleased => HomeKeeps(s);
    case PlayerNotifies => NotifyKeeps(s);
    case RecorderNotifies => NotifyKeeps(s);
    case MonitorGoesOn => MonitorKeeps(s);
    case RecorderSteps(i) => DeviceKeeps(s.recorder, i, false);
    case PlayerSteps(i, dataEnds) => DeviceKeeps(s.player, i, dataEnds);
    case ChatChanges(_) => assert Tokens(t) == Tokens(s);
    case ServerStops => assert Tokens(t) == Tokens(s);
  }

  lemma StepPast(s: State, a: Action)
    requires Enabled(s, a)
    ensures var was, now := s.past, Do(s, a).past;
            && now.presses + now.greetFailures == was.presses + was.greetFailures + Begins(s, a)
            && Count(now.received, Standby) == Count(was.received, Standby) + Ends(s, a)
  {
    match a
    case CoreReceives => ReceiveCounts(s);
    case CoreGreets(ok) => GreetCounts(s, ok);
    case RecReleased => RecCounts(s);
    case HomeReleased => HomeKeeps(s);
    case CoreHandles(result) => assert CoreHandle(s, result).past == s.past;
    case CoreChooses => assert Do(s, a).past == s.past.(chosen := s.chat);
    case MonitorGoesOn => assert MonitorStep(s).past == s.past;
    case _ => assert Do(s, a).past == s.past;
  }

  lemma {:induction false} RunConserves(s: State, acts: seq<Action>)
    requires IsRun(s, acts) && Conserved(s)
    ensures Conserved(After(s, acts))
    decreases acts
  {
    if acts == [] {
    } else {
      StepTokens(s, acts[0]);
      StepPast(s, acts[0]);
      RunConserves(Do(s, acts[0]), acts[1..]);
    }
  }

  /** On every interleaving: sessions under way == 1 + accepted presses + failed greetings - STANDBYs received. */
  lemma SessionsConserved(acts: seq<Action>)
    requires IsRun(INITIAL, acts)
    ensures Conserved(After(INITIAL, acts))
  {
    RunConserves(INITIAL, acts);
  }
}
