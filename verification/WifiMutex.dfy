/** The JSON buffers and their mutex, on every interleaving of the manager and the HTTP task. */
module WifiMutex {
  import opened Wrappers
  import opened CText
  import opened ApListJson
  import opened StatusJson
  import opened WifiLoop

  predicate ManagerHolds(pc: ManagerPc) {
    pc.Erasing? || pc.Reporting? || pc.Storing? || pc.Wiping? || pc.Removing? || pc.Unlocking?
    || pc.ListErasing? || pc.Listing? || pc.ListUnlocking?
  }

  predicate HttpHolds(pc: HttpPc) {
    pc.ReadingList? || pc.ReadingStatus? || pc.PostErasing? || pc.PostClearing? || pc.PostUnlocking?
  }

  /** Who has the mutex is where the code says; a buffer is torn only between the two steps of its writer. */
  predicate Guarded(m: ManagerPc, h: HttpPc, b: Board) {
    && (b.holder.Manager? <==> ManagerHolds(m))
    && (b.holder.Http? <==> HttpHolds(h))
    && (b.status.Torn? <==> m.Reporting? || h.PostClearing?)
    && (b.list.Torn? <==> m.Listing?)
  }

  predicate Disciplined(s: State) {
    Guarded(s.manager, s.http, s.board)
  }

  lemma ManagerStaysGuarded(m: ManagerPc, h: HttpPc, b: Board, r: Radio, w: Snapshot, config: StaConfig, world: World)
    requires Guarded(m, h, b) && !m.Idle?
    requires m.Locking? || (m.ListLocking? && world.locks) ==> b.holder.Nobody?
    ensures Guarded(ManagerNext(m, r, w, world), h, ManagerBoard(m, b, config, world))
  {
  }

  lemma HttpStaysGuarded(m: ManagerPc, h: HttpPc, b: Board)
    requires Guarded(m, h, b) && (h.PostLocking? ==> b.holder.Nobody?)
    ensures Guarded(m, HttpNext(h), HttpBoard(h, b))
  {
  }

  lemma StepStaysDisciplined(s: State, a: Action)
    requires Enabled(s, a) && Disciplined(s)
    ensures Disciplined(Do(s, a))
  {
    match a
    case ManagerWakes => assert !ManagerHolds(First(Wake(s).snapshot));
    case ManagerSteps(world) =>
      ManagerStaysGuarded(s.manager, s.http, s.board, s.radio, s.snapshot, s.files.config, world);
    case HttpSteps => HttpStaysGuarded(s.manager, s.http, s.board);
    case _ =>
  }

  lemma {:induction false} RunStaysDisciplined(s: State, acts: seq<Action>)
    requires IsRun(s, acts) && Disciplined(s)
    ensures Disciplined(After(s, acts))
    decreases acts
  {
    if acts == [] {
    } else {
      StepStaysDisciplined(s, acts[0]);
      RunStaysDisciplined(Do(s, acts[0]), acts[1..]);
    }
  }

  /** The text that is served at /status.json. */
  function StatusServed(status: Status): seq<octet> {
    match status
    case Cleared => "{}\n"
    case Report(urc, config, ip, netmask, gw) => StatusOf(Some(config), ip, netmask, gw, urc)
  }

  /** The text that is served at /ap.json. */
  function ListServed(list: List): seq<octet> {
    match list
    case Empty => "[]\n"
    case Listed(records) => ApListText(records)
  }

  /** Whoever reads a buffer for a client has the mutex to itself, and the buffer is whole. */
  lemma ReadersSeeWholeTexts(nvs: Option<StaConfig>, acts: seq<Action>)
    requires IsRun(Boot(nvs), acts)
    ensures var s := After(Boot(nvs), acts);
            && (s.http.ReadingStatus? ==> s.board.holder.Http? && s.board.status.Whole?)
            && (s.http.ReadingList? ==> s.board.holder.Http? && s.board.list.Whole?)
            && !(ManagerHolds(s.manager) && HttpHolds(s.http))
  {
    RunStaysDisciplined(Boot(nvs), acts);
  }

  /**
   * Between two requests the HTTP task takes up whatever comes: a DELETE, and a POST with texts that the two fields can
   * hold, at any time; and a read gets the text as it stands, if and only if the manager is not writing one.
   */
  lemma ClientsAreServed(s: State, ssid: seq<octet>, password: seq<octet>)
    requires Disciplined(s) && s.http.Ready?
    ensures Enabled(s, HttpDeletes)
    ensures Enabled(s, HttpPosts(ssid, password)) <==> |ssid| <= 32 && |password| <= 64
    ensures Enabled(s, HttpGetsStatus(true)) <==> !ManagerHolds(s.manager)
    ensures Enabled(s, HttpGetsList(true)) <==> !ManagerHolds(s.manager)
    ensures !ManagerHolds(s.manager) ==>
              var t, u := Do(s, HttpGetsStatus(true)), Do(s, HttpGetsList(true));
              && t.http.ReadingStatus? && t.board.status == s.board.status && t.board.status.Whole?
              && u.http.ReadingList? && u.board.list == s.board.list && u.board.list.Whole?
  {
  }

  /** A buffer is written only by the task that holds the mutex. */
  lemma OnlyTheHolderWrites(s: State, a: Action)
    requires Enabled(s, a) && Disciplined(s)
    requires Do(s, a).board.status != s.board.status || Do(s, a).board.list != s.board.list
    ensures (s.board.holder.Manager? && a.ManagerSteps?) || (s.board.holder.Http? && a.HttpSteps?)
  {
  }

  // ----- every acquisition is released

  /** How many steps of its own the manager still needs to release the mutex. */
  function ManagerLeft(pc: ManagerPc): nat {
    match pc
    case Erasing(v) => if v.Left? then 3 else if v.Joined? then 4 else 5
    case Reporting(v) => if v.Left? then 2 else if v.Joined? then 3 else 4
    case Storing(_) => 2
    case Wiping(_) => 3
    case Removing(_) => 2
    case Unlocking(_) => 1
    case ListErasing(_) => 3
    case Listing(_) => 2
    case ListUnlocking => 1
    case _ => 0
  }

  function HttpLeft(pc: HttpPc): nat {
    match pc
    case ReadingList => 1
    case ReadingStatus => 1
    case PostErasing => 3
    case PostClearing => 2
    case PostUnlocking => 1
    case _ => 0
  }

  /** The steps the holder needs; nobody else's steps change it. */
  function HolderLeft(s: State): nat {
    match s.board.holder
    case Nobody => 0
    case Manager => ManagerLeft(s.manager)
    case Http => HttpLeft(s.http)
  }

  predicate ByHolder(s: State, a: Action) {
    match s.board.holder
    case Nobody => false
    case Manager => a.ManagerSteps?
    case Http => a.HttpSteps?
  }

  /** The holder is never blocked, and each of its steps brings the release nearer. */
  lemma HolderGoesOn(s: State, a: Action)
    requires Disciplined(s) && !s.board.holder.Nobody? && ByHolder(s, a)
    ensures Enabled(s, a)
    ensures HolderLeft(Do(s, a)) + 1 == HolderLeft(s)
    ensures HolderLeft(Do(s, a)) == 0 <==> Do(s, a).board.holder.Nobody?
  {
  }

  lemma OthersWait(s: State, a: Action)
    requires Disciplined(s) && !s.board.holder.Nobody? && Enabled(s, a) && !ByHolder(s, a)
    ensures HolderLeft(Do(s, a)) == HolderLeft(s) && Do(s, a).board.holder == s.board.holder
  {
  }

  /** How often whoever holds the mutex at the time takes a step. */
  function HolderSteps(s: State, acts: seq<Action>): nat
    requires IsRun(s, acts)
    decreases acts
  {
    if acts == [] then 0
    else (if ByHolder(s, acts[0]) then 1 else 0) + HolderSteps(Do(s, acts[0]), acts[1..])
  }

  predicate ComesFree(s: State, acts: seq<Action>)
    requires IsRun(s, acts)
    decreases acts
  {
    s.board.holder.Nobody? || (acts != [] && ComesFree(Do(s, acts[0]), acts[1..]))
  }

  /** On any run that gives the holder as many steps as it needs, at most five, the mutex comes free. */
  lemma {:induction false} MutexComesFree(s: State, acts: seq<Action>)
    requires IsRun(s, acts) && Disciplined(s)
    ensures HolderLeft(s) <= 5
    ensures HolderSteps(s, acts) >= HolderLeft(s) ==> ComesFree(s, acts)
    decreases acts
  {
    if acts == [] || s.board.holder.Nobody? {
    } else {
      var a := acts[0];
      StepStaysDisciplined(s, a);
      if ByHolder(s, a) {
        HolderGoesOn(s, a);
      } else {
        OthersWait(s, a);
      }
      MutexComesFree(Do(s, a), acts[1..]);
    }
  }
}
