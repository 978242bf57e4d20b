/**
 * main/wifi_manager.c and its callers in main/http_server.c: the request loop, the HTTP task and the Wi-Fi driver as a
 * transition system. One step is one access to something another task can see.
 */
module WifiLoop {
  import opened Wrappers
  import opened CText
  import opened ScanList
  import opened StatusJson

  // ----- the driver and its event handler

  datatype Link = Down | Joining(attempt: nat) | Up(attempt: nat)

  /** What the driver posts, with the attempt it is about. */
  datatype DriverEvent = GotIp(attempt: nat) | Disconnected(attempt: nat)

  /**
   * The link, the events posted and not yet handled, the number of `esp_wifi_connect` calls, and the CONNECTED and
   * STA_DISCONNECT bits, each with the attempt whose event set it last.
   */
  datatype Radio = Radio(link: Link, events: seq<DriverEvent>, attempts: nat,
                         connected: bool, connectedBy: nat, lost: bool, lostBy: nat)

  /** `wifi_manager_event_handler` */
  function Handle(r: Radio, e: DriverEvent): Radio {
    match e
    case GotIp(k) => r.(connected := true, connectedBy := k)
    case Disconnected(k) => r.(lost := true, lostBy := k, connected := false)
  }

  function Deliver(r: Radio): Radio
    requires r.events != []
  {
    Handle(r.(events := r.events[1..]), r.events[0])
  }

  function ClearLost(r: Radio): Radio {
    r.(lost := false)
  }

  /** `esp_wifi_disconnect`: posts one event whatever the link is. */
  function Leave(r: Radio): Radio {
    r.(link := Down, events := r.events + [Disconnected(r.attempts)])
  }

  /** `esp_wifi_connect`: a new attempt takes the place of whatever link there was. */
  function Attempt(r: Radio): Radio {
    r.(link := Joining(r.attempts + 1), attempts := r.attempts + 1)
  }

  /** The driver joins the network it was asked to join. */
  function Join(r: Radio): Radio
    requires r.link.Joining?
  {
    r.(link := Up(r.link.attempt), events := r.events + [GotIp(r.link.attempt)])
  }

  /** The attempt fails, or the link is lost. */
  function Drop(r: Radio): Radio
    requires !r.link.Down?
  {
    r.(link := Down, events := r.events + [Disconnected(r.link.attempt)])
  }

  // ----- requests, buffers and configuration

  /** The REQUEST bits of the event group. */
  datatype Requests = Requests(connect: bool, scan: bool, disconnect: bool)

  predicate AnyRequest(q: Requests) {
    q.connect || q.scan || q.disconnect
  }

  datatype Holder = Nobody | Manager | Http

  /** A buffer that is being written, or that holds the whole output of one generator or clear call. */
  datatype Buffer<+T> = Torn | Whole(text: T)

  datatype Status = Cleared | Report(urc: int, config: StaConfig, ip: seq<octet>, netmask: seq<octet>, gw: seq<octet>)

  datatype List = Empty | Listed(records: seq<ApRecord>)

  /** `wifi_manager_json_mutex` and the two texts it guards. */
  datatype Board = Board(holder: Holder, status: Buffer<Status>, list: Buffer<List>)

  /** `wifi_manager_config_sta`, what the driver was last configured with, and what flash holds. */
  datatype Files = Files(config: StaConfig, used: StaConfig, nvs: Option<StaConfig>)

  datatype Fetched = Fetched(found: bool, config: StaConfig)

  /** `wifi_manager_fetch_wifi_sta_config` */
  function Fetch(nvs: Option<StaConfig>): Fetched {
    match nvs
    case None => Fetched(false, ZERO_CONFIG)
    case Some(c) => Fetched(c.ssid[0] != '\0', c)
  }

  // ----- the tasks

  /** What a handler comes to: an attempt judged on an event of the attempt `cause`, or a disconnection asked for. */
  datatype Verdict = Joined(attempt: nat, cause: nat) | Failed(attempt: nat, cause: nat) | Left

  function Urc(v: Verdict): int {
    match v
    case Joined(_, _) => UPDATE_CONNECTION_OK
    case Failed(_, _) => UPDATE_FAILED_ATTEMPT
    case Left => UPDATE_USER_DISCONNECT
  }

  datatype Purpose = ToForget | ToJoin

  /** Where the loop of `wifi_manager` is. */
  datatype ManagerPc =
    | Idle
    | Preparing(p: Purpose)
    | Leaving(p: Purpose)
    | AwaitingLoss(p: Purpose)
    | Resetting(p: Purpose)
    | Forgetting
    | Blanking
    | Configuring
    | Attempting
    | AwaitingResult
    | Locking(v: Verdict)
    | Erasing(v: Verdict)
    | Reporting(v: Verdict)
    | Storing(v: Verdict)
    | Wiping(v: Verdict)
    | Removing(v: Verdict)
    | Unlocking(v: Verdict)
    | Finishing(p: Purpose)
    | Scanning
    | ListLocking(records: seq<ApRecord>)
    | ListErasing(records: seq<ApRecord>)
    | Listing(records: seq<ApRecord>)
    | ListUnlocking
    | FinishingScan

  /** Where `http_server_netconn_serve` is: between requests, or in one that takes more than one step. */
  datatype HttpPc =
    | Ready
    | ReadingList
    | AskingScan
    | ReadingStatus
    | PostLocking
    | PostErasing
    | PostClearing
    | PostUnlocking
    | PostAsking

  /** An accepted POST that has not raised its request yet. */
  predicate Posting(pc: HttpPc) {
    pc.PostLocking? || pc.PostErasing? || pc.PostClearing? || pc.PostUnlocking? || pc.PostAsking?
  }

  /** `uxBits` as the loop tests it. */
  datatype Snapshot = Snapshot(connected: bool, wants: Requests)

  /** What flash was last told by a handler. */
  datatype Stored = Untouched | Kept(config: StaConfig) | Forgotten

  datatype History = History(verdicts: seq<Verdict>, stored: Stored)

  datatype State = State(
    radio: Radio,
    requests: Requests,
    board: Board,
    files: Files,
    manager: ManagerPc,
    snapshot: Snapshot,
    http: HttpPc,
    past: History)

  const NO_REQUESTS := Requests(false, false, false)

  /** The loop about to start, the HTTP server just told that it may. */
  function Boot(nvs: Option<StaConfig>): State {
    var saved := Fetch(nvs);
    State(Radio(Down, [], 0, false, 0, false, 0),
          NO_REQUESTS.(connect := saved.found),
          Board(Nobody, Whole(Cleared), Whole(Empty)),
          Files(saved.config, ZERO_CONFIG, nvs),
          Idle, Snapshot(false, NO_REQUESTS), Ready, History([], Untouched))
  }

  /** What the world contributes to a step of the manager. */
  datatype World = World(records: seq<ApRecord>, ip: seq<octet>, netmask: seq<octet>, gw: seq<octet>, locks: bool)

  datatype Action =
    | ManagerWakes
    | ManagerSteps(world: World)
    | HttpGetsList(locks: bool)
    | HttpGetsStatus(locks: bool)
    | HttpDeletes
    | HttpPosts(ssid: seq<octet>, password: seq<octet>)
    | HttpSteps
    | DriverJoins
    | DriverDrops
    | DriverDelivers

  predicate ManagerCanStep(s: State, world: World) {
    match s.manager
    case Idle => false
    case AwaitingLoss(_) => s.radio.lost
    case AwaitingResult => s.radio.connected || s.radio.lost
    case Locking(_) => s.board.holder.Nobody?
    case ListLocking(_) => world.locks ==> s.board.holder.Nobody?
    case _ => true
  }

  predicate Enabled(s: State, a: Action) {
    match a
    case ManagerWakes => s.manager.Idle? && AnyRequest(s.requests)
    case ManagerSteps(world) => ManagerCanStep(s, world)
    case HttpGetsList(locks) => s.http.Ready? && (locks ==> s.board.holder.Nobody?)
    case HttpGetsStatus(locks) => s.http.Ready? && (locks ==> s.board.holder.Nobody?)
    case HttpDeletes => s.http.Ready?
    case HttpPosts(ssid, password) => s.http.Ready? && |ssid| <= SSID_SIZE && |password| <= PASSWORD_SIZE
    case HttpSteps => !s.http.Ready? && (s.http.PostLocking? ==> s.board.holder.Nobody?)
    case DriverJoins => s.radio.link.Joining?
    case DriverDrops => !s.radio.link.Down?
    case DriverDelivers => s.radio.events != []
  }

  // ----- the loop of wifi_manager

  /** Where it goes when the disconnect request is dealt with. */
  function Second(w: Snapshot): ManagerPc {
    if w.wants.connect then if w.connected then Preparing(ToJoin) else Resetting(ToJoin)
    else if w.wants.scan then Scanning
    else Idle
  }

  /** Where an iteration begins that has these bits to look at. */
  function First(w: Snapshot): ManagerPc {
    if w.wants.disconnect then if w.connected then Preparing(ToForget) else Resetting(ToForget)
    else Second(w)
  }

  function Wake(s: State): State {
    var w := Snapshot(s.radio.connected, s.requests);
    s.(snapshot := w, manager := First(w))
  }

  function Judge(r: Radio): Verdict {
    if r.connected then Joined(r.attempts, r.connectedBy) else Failed(r.attempts, r.lostBy)
  }

  function AfterReport(v: Verdict): ManagerPc {
    match v
    case Joined(_, _) => Storing(v)
    case Failed(_, _) => Wiping(v)
    case Left => Unlocking(v)
  }

  function StatusReport(v: Verdict, config: StaConfig, world: World): Status {
    Report(Urc(v), config, world.ip, world.netmask, world.gw)
  }

  function ManagerRadio(pc: ManagerPc, r: Radio): Radio {
    match pc
    case Preparing(_) => ClearLost(r)
    case Leaving(_) => Leave(r)
    case Resetting(_) => ClearLost(r)
    case Attempting => Attempt(r)
    case _ => r
  }

  function ManagerRequests(pc: ManagerPc, q: Requests): Requests {
    match pc
    case Finishing(p) => if p.ToForget? then q.(disconnect := false) else q.(connect := false)
    case FinishingScan => q.(scan := false)
    case _ => q
  }

  function ManagerBoard(pc: ManagerPc, b: Board, config: StaConfig, world: World): Board {
    match pc
    case Locking(_) => b.(holder := Manager)
    case Erasing(_) => b.(status := Torn)
    case Reporting(v) => b.(status := Whole(StatusReport(v, config, world)))
    case Unlocking(_) => b.(holder := Nobody)
    case ListLocking(_) => if world.locks then b.(holder := Manager) else b
    case ListErasing(_) => b.(list := Torn)
    case Listing(records) => b.(list := Whole(Listed(Unique(records))))
    case ListUnlocking => b.(holder := Nobody)
    case _ => b
  }

  function ManagerFiles(pc: ManagerPc, f: Files): Files {
    match pc
    case Forgetting => f.(config := ZERO_CONFIG)
    case Blanking => f.(nvs := Some(f.config))
    case Configuring => f.(used := f.config)
    case Storing(_) => f.(nvs := Some(f.config))
    case Wiping(_) => f.(config := ZERO_CONFIG)
    case Removing(_) => f.(nvs := None)
    case _ => f
  }

  function ManagerNext(pc: ManagerPc, r: Radio, w: Snapshot, world: World): ManagerPc {
    match pc
    case Idle => Idle
    case Preparing(p) => Leaving(p)
    case Leaving(p) => AwaitingLoss(p)
    case AwaitingLoss(p) => Resetting(p)
    case Resetting(p) => if p.ToForget? then Forgetting else Configuring
    case Forgetting => Blanking
    case Blanking => Locking(Left)
    case Configuring => Attempting
    case Attempting => AwaitingResult
    case AwaitingResult => Locking(Judge(r))
    case Locking(v) => Erasing(v)
    case Erasing(v) => Reporting(v)
    case Reporting(v) => AfterReport(v)
    case Storing(v) => Unlocking(v)
    case Wiping(v) => Removing(v)
    case Removing(v) => Unlocking(v)
    case Unlocking(v) => Finishing(if v.Left? then ToForget else ToJoin)
    case Finishing(p) => if p.ToForget? then Second(w) else Idle
    case Scanning => ListLocking(world.records)
    case ListLocking(records) => if world.locks then ListErasing(records) else FinishingScan
    case ListErasing(records) => Listing(records)
    case Listing(_) => ListUnlocking
    case ListUnlocking => FinishingScan
    case FinishingScan => Idle
  }

  function ManagerPast(pc: ManagerPc, past: History, used: StaConfig): History {
    match pc
    case Reporting(v) => past.(verdicts := past.verdicts + [v])
    case Storing(_) => past.(stored := Kept(used))
    case Blanking => past.(stored := Forgotten)
    case Removing(_) => past.(stored := Forgotten)
    case _ => past
  }

  function ManagerStep(s: State, world: World): State {
    State(ManagerRadio(s.manager, s.radio),
          ManagerRequests(s.manager, s.requests),
          ManagerBoard(s.manager, s.board, s.files.config, world),
          ManagerFiles(s.manager, s.files),
          ManagerNext(s.manager, s.radio, s.snapshot, world),
          s.snapshot,
          s.http,
          ManagerPast(s.manager, s.past, s.files.used))
  }

  // ----- http_server_netconn_serve

  function HttpBoard(pc: HttpPc, b: Board): Board {
    match pc
    case ReadingList => b.(holder := Nobody)
    case ReadingStatus => b.(holder := Nobody)
    case PostLocking => b.(holder := Http)
    case PostErasing => b.(status := Torn)
    case PostClearing => b.(status := Whole(Cleared))
    case PostUnlocking => b.(holder := Nobody)
    case _ => b
  }

  function HttpRequests(pc: HttpPc, q: Requests): Requests {
    match pc
    case AskingScan => q.(scan := true)
    case PostAsking => q.(connect := true)
    case _ => q
  }

  function HttpNext(pc: HttpPc): HttpPc {
    match pc
    case ReadingList => AskingScan
    case PostLocking => PostErasing
    case PostErasing => PostClearing
    case PostClearing => PostUnlocking
    case PostUnlocking => PostAsking
    case _ => Ready
  }

  function HttpStep(s: State): State {
    s.(board := HttpBoard(s.http, s.board), requests := HttpRequests(s.http, s.requests), http := HttpNext(s.http))
  }

  function Do(s: State, a: Action): State
    requires Enabled(s, a)
  {
    match a
    case ManagerWakes => Wake(s)
    case ManagerSteps(world) => ManagerStep(s, world)
    case HttpGetsList(locks) =>
      if locks then s.(board := s.board.(holder := Http), http := ReadingList) else s.(http := AskingScan)
    case HttpGetsStatus(locks) =>
      if locks then s.(board := s.board.(holder := Http), http := ReadingStatus) else s
    case HttpDeletes => s.(requests := s.requests.(disconnect := true))
    case HttpPosts(ssid, password) => s.(files := s.files.(config := Credentials(ssid, password)), http := PostLocking)
    case HttpSteps => HttpStep(s)
    case DriverJoins => s.(radio := Join(s.radio))
    case DriverDrops => s.(radio := Drop(s.radio))
    case DriverDelivers => s.(radio := Deliver(s.radio))
  }

  /** A client neither asks for a network nor to forget one. */
  predicate Patient(a: Action) {
    !a.HttpDeletes? && !a.HttpPosts?
  }

  // ----- runs

  predicate IsRun(s: State, acts: seq<Action>)
    decreases acts
  {
    acts == [] || (Enabled(s, acts[0]) && IsRun(Do(s, acts[0]), acts[1..]))
  }

  function After(s: State, acts: seq<Action>): State
    requires IsRun(s, acts)
    decreases acts
  {
    if acts == [] then s else After(Do(s, acts[0]), acts[1..])
  }

  predicate IsPatient(acts: seq<Action>) {
    forall i :: 0 <= i < |acts| ==> Patient(acts[i])
  }

  lemma {:induction false} RunConcat(s: State, acts: seq<Action>, more: seq<Action>)
    requires IsRun(s, acts) && IsRun(After(s, acts), more)
    ensures IsRun(s, acts + more) && After(s, acts + more) == After(After(s, acts), more)
    decreases acts
  {
    if acts == [] {
      assert acts + more == more;
    } else {
      RunConcat(Do(s, acts[0]), acts[1..], more);
      assert (acts + more)[1..] == acts[1..] + more;
    }
  }

  lemma {:induction false} RunExtends(s: State, acts: seq<Action>, a: Action)
    requires IsRun(s, acts) && Enabled(After(s, acts), a)
    ensures IsRun(s, acts + [a]) && After(s, acts + [a]) == Do(After(s, acts), a)
    decreases acts
  {
    if acts == [] {
      assert acts + [a] == [a];
    } else {
      RunExtends(Do(s, acts[0]), acts[1..], a);
      assert (acts + [a])[1..] == acts[1..] + [a];
    }
  }
}
