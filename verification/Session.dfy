/**
 * The voice session: core_task, event_monitor_task, recorder_task, player_task and the start-up push of app_main,
 * as a transition system. One step is one access to something another task can see.
 */
module Session {
  import opened TcpStream

  /** `mubby_state_t` */
  datatype Mode =
    | Reset
    | Standby
    | Connecting
    | Recording
    | RecordingFinished
    | Playing
    | PlayingFinished
    | Shutdown

  const QUEUE_SIZE: nat := 10

  // ----- recorder and player

  /** Where a recorder or player task is; see `DeviceStep` for what each phase does next. */
  datatype Phase = Spawned | Piping | Announced | Listening | Stopping | Terminated

  /** What the tasks report: `*_STATE_STARTED`, `*_STATE_FINISHED`, and anything else. */
  datatype Notice = Started | Finished | Failed

  /** The recorder or the player: its tasks, its notices still to be delivered, `is_running`, its stop requests. */
  datatype Device = Device(tasks: seq<Phase>, notices: seq<Notice>, running: bool, stops: nat)

  const IDLE_DEVICE := Device([], [], false, 0)

  /** Audio callbacks read or write the stream from the start of the pipeline until it is terminated. */
  predicate UsesStream(p: Phase) {
    p.Piping? || p.Announced? || p.Listening? || p.Stopping?
  }

  /** A listening task goes on when a stop request is there, a player also when its data ends. */
  predicate DeviceCanStep(d: Device, i: nat, dataEnds: bool) {
    i < |d.tasks| && (d.tasks[i].Listening? ==> dataEnds || d.stops > 0)
  }

  function DeviceStep(d: Device, i: nat, dataEnds: bool): Device
    requires DeviceCanStep(d, i, dataEnds)
  {
    match d.tasks[i]
    case Spawned => d.(tasks := d.tasks[i := Piping])
    case Piping => d.(tasks := d.tasks[i := Announced], notices := d.notices + [Started])
    case Announced => d.(tasks := d.tasks[i := Listening], running := true)
    case Listening =>
      d.(tasks := d.tasks[i := Stopping], running := false, stops := if dataEnds then d.stops else d.stops - 1)
    case Stopping => d.(tasks := d.tasks[i := Terminated])
    case Terminated => d.(tasks := d.tasks[..i] + d.tasks[i + 1..], notices := d.notices + [Finished])
  }

  /** `recorder_start`, `player_start` */
  function DeviceStart(d: Device): Device {
    d.(tasks := d.tasks + [Spawned])
  }

  /**
   * `recorder_stop`, `player_stop`: reading `is_running` and sending the request are one step. A request that the code
   * sends later than it reads could as well have been sent at once: it waits in the channel until a task listens, and
   * nothing else looks at the channel.
   */
  function DeviceStop(d: Device): Device {
    if d.running then d.(stops := d.stops + 1) else d
  }

  // ----- the whole

  /** Where core_task is. `thenStart`: after this push it still goes on to start the recorder. */
  datatype CorePc =
    | Receiving
    | Handling
    | Authenticating
    | Greeting
    | Starting
    | Choosing
    | CorePush(m: Mode, thenStart: bool)

  /** Where event_monitor_task is. */
  datatype MonitorPc = Waiting | MonitorPush(m: Mode) | StoppingPlayer | StoppingRecorder | Breaking

  /**
   * What has happened so far: accepted record presses, failed `rec` writes, the modes core_task received,
   * the last `cnt_chat` it read, and for every mode received what that was at the time.
   */
  datatype History = History(presses: nat, greetFailures: nat, received: seq<Mode>, chosen: bool, choices: seq<bool>)

  datatype State = State(
    queue: seq<Mode>,
    cur: Mode,
    chat: bool,
    pushed: bool,
    mainPending: bool,
    core: CorePc,
    monitor: MonitorPc,
    stream: Stream,
    recorder: Device,
    player: Device,
    past: History)

  /** Both tasks created, start-up push not made yet; `calloc` makes `cur_state` STANDBY from the beginning. */
  const INITIAL := State([], Standby, false, false, true, Receiving, Waiting, CLOSED_STREAM, IDLE_DEVICE, IDLE_DEVICE,
                         History(0, 0, [], false, []))

  datatype Action =
    | MainPushes
    | CoreReceives
    | CoreHandles(result: OpenResult)
    | CoreAuthenticates(ok: bool)
    | CoreGreets(ok: bool)
    | CoreStarts
    | CoreChooses
    | CorePushes
    | RecPressed
    | RecReleased
    | HomeReleased
    | PlayerNotifies
    | RecorderNotifies
    | MonitorGoesOn
    | RecorderSteps(i: nat)
    | PlayerSteps(i: nat, dataEnds: bool)
    | ChatChanges(chat: bool)
    | ServerStops

  predicate ByCore(a: Action) {
    || a.CoreReceives? || a.CoreHandles? || a.CoreAuthenticates? || a.CoreGreets? || a.CoreStarts? || a.CoreChooses?
    || a.CorePushes?
  }

  predicate Enabled(s: State, a: Action) {
    match a
    case MainPushes => s.mainPending && |s.queue| < QUEUE_SIZE
    case CoreReceives => s.core.Receiving? && s.queue != []
    case CoreHandles(_) => s.core.Handling?
    case CoreAuthenticates(_) => s.core.Authenticating?
    case CoreGreets(_) => s.core.Greeting?
    case CoreStarts => s.core.Starting?
    case CoreChooses => s.core.Choosing?
    case CorePushes => s.core.CorePush? && |s.queue| < QUEUE_SIZE
    case RecPressed => s.monitor.Waiting?
    case RecReleased => s.monitor.Waiting?
    case HomeReleased => s.monitor.Waiting?
    case PlayerNotifies => s.monitor.Waiting? && s.player.notices != []
    case RecorderNotifies => s.monitor.Waiting? && s.recorder.notices != []
    case MonitorGoesOn => !s.monitor.Waiting? && (s.monitor.MonitorPush? ==> |s.queue| < QUEUE_SIZE)
    case RecorderSteps(i) => DeviceCanStep(s.recorder, i, false)
    case PlayerSteps(i, dataEnds) => DeviceCanStep(s.player, i, dataEnds)
    case ChatChanges(_) => true
    case ServerStops => true
  }

  // ----- core_task

  /** `xQueueReceive` into `cur_state` */
  function CoreReceive(s: State): State
    requires s.queue != []
  {
    s.(cur := s.queue[0], queue := s.queue[1..], core := Handling,
       past := s.past.(received := s.past.received + [s.queue[0]], choices := s.past.choices + [s.past.chosen]))
  }

  /** The `switch`, up to the first step that another task can see. */
  function CoreHandle(s: State, result: OpenResult): State {
    match s.cur
    case Reset => s.(stream := AfterClose(s.stream), core := CorePush(Standby, false))
    case Connecting =>
      s.(stream := AfterOpen(s.stream, result),
         core := if result.Connected? then Authenticating else CorePush(Reset, false))
    case RecordingFinished => s.(player := DeviceStart(s.player), core := Receiving)
    case PlayingFinished => s.(stream := AfterClose(s.stream), core := Choosing)
    case _ => s.(core := Receiving)
  }

  /** `mubby_auth` */
  function CoreAuthenticate(s: State, ok: bool): State {
    s.(core := if ok then Greeting else CorePush(Reset, false))
  }

  /** The `rec` write; when it fails a reset is pushed and the recorder is started all the same. */
  function CoreGreet(s: State, ok: bool): State {
    if ok then s.(core := Starting)
    else s.(core := CorePush(Reset, true), past := s.past.(greetFailures := s.past.greetFailures + 1))
  }

  function CoreStart(s: State): State {
    s.(recorder := DeviceStart(s.recorder), core := Receiving)
  }

  /** Where `cnt_chat` is read. */
  function CoreChoose(s: State): State {
    s.(core := CorePush(if s.chat then Connecting else Standby, false), past := s.past.(chosen := s.chat))
  }

  function CorePushed(s: State): State
    requires s.core.CorePush?
  {
    s.(queue := s.queue + [s.core.m], core := if s.core.thenStart then Starting else Receiving)
  }

  // ----- event_monitor_task

  /** A release of the record button counts only after a press, and only in STANDBY. */
  predicate Accepts(s: State) {
    s.pushed && s.cur.Standby?
  }

  function RecRelease(s: State): State {
    if Accepts(s)
    then s.(pushed := false, monitor := MonitorPush(Connecting), past := s.past.(presses := s.past.presses + 1))
    else s.(pushed := false)
  }

  /**
   * The two tests of `cur_state` are one step. If they see different modes, the press does what it would have done at
   * the moment of the test that succeeded; and if neither succeeds it does nothing, as if it had not been made.
   */
  function HomeRelease(s: State): State {
    if s.cur.Playing? then s.(monitor := StoppingPlayer)
    else if s.cur.Recording? then s.(monitor := StoppingRecorder)
    else s
  }

  function PlayerMode(n: Notice): Mode {
    match n
    case Started => Playing
    case Finished => PlayingFinished
    case Failed => Reset
  }

  function RecorderMode(n: Notice): Mode {
    match n
    case Started => Recording
    case Finished => RecordingFinished
    case Failed => Reset
  }

  function PlayerNotify(s: State): State
    requires s.player.notices != []
  {
    s.(player := s.player.(notices := s.player.notices[1..]), monitor := MonitorPush(PlayerMode(s.player.notices[0])))
  }

  function RecorderNotify(s: State): State
    requires s.recorder.notices != []
  {
    s.(recorder := s.recorder.(notices := s.recorder.notices[1..]),
       monitor := MonitorPush(RecorderMode(s.recorder.notices[0])))
  }

  /** What is left of an event: its push, or the calls of the home button. */
  function MonitorStep(s: State): State
    requires !s.monitor.Waiting?
  {
    match s.monitor
    case MonitorPush(m) => s.(queue := s.queue + [m], monitor := Waiting)
    case StoppingPlayer => s.(player := DeviceStop(s.player), monitor := Waiting)
    case StoppingRecorder => s.(recorder := DeviceStop(s.recorder), monitor := Breaking)
    case Breaking => s.(monitor := Waiting)
  }

  function Do(s: State, a: Action): State
    requires Enabled(s, a)
  {
    match a
    case MainPushes => s.(queue := s.queue + [Standby], mainPending := false)
    case CoreReceives => CoreReceive(s)
    case CoreHandles(result) => CoreHandle(s, result)
    case CoreAuthenticates(ok) => CoreAuthenticate(s, ok)
    case CoreGreets(ok) => CoreGreet(s, ok)
    case CoreStarts => CoreStart(s)
    case CoreChooses => CoreChoose(s)
    case CorePushes => CorePushed(s)
    case RecPressed => s.(pushed := true)
    case RecReleased => RecRelease(s)
    case HomeReleased => HomeRelease(s)
    case PlayerNotifies => PlayerNotify(s)
    case RecorderNotifies => RecorderNotify(s)
    case MonitorGoesOn => MonitorStep(s)
    case RecorderSteps(i) => s.(recorder := DeviceStep(s.recorder, i, false))
    case PlayerSteps(i, dataEnds) => s.(player := DeviceStep(s.player, i, dataEnds))
    case ChatChanges(chat) => s.(chat := chat)
    case ServerStops => s.(recorder := DeviceStop(s.recorder))
  }

  // ----- runs

  /** The actions can be done in this order, from `s` on. */
  predicate IsRun(s: State, acts: seq<Action>)
    decreases acts
  {
    acts == [] || (Enabled(s, acts[0]) && IsRun(Do(s, acts[0]), acts[1..]))
  }

  function After(s: State, acts: seq<Action>): State
    requires IsRun(s, acts)
    decreases acts
  {
    if acts == [] then s else After(Do(s, acts[0]), acts[1..])
  }

  lemma {:induction false} RunExtends(s: State, acts: seq<Action>, a: Action)
    requires IsRun(s, acts) && Enabled(After(s, acts), a)
    ensures IsRun(s, acts + [a]) && After(s, acts + [a]) == Do(After(s, acts), a)
    decreases acts
  {
    if acts == [] {
      assert acts + [a] == [a];
    } else {
      RunExtends(Do(s, acts[0]), acts[1..], a);
      assert (acts + [a])[1..] == acts[1..] + [a];
    }
  }
}
