/** What comes of reading the access-point list: every read asks for a scan, and readers see what the last one found. */
module WifiScans {
  import opened Wrappers
  import opened JsonDocument
  import opened ScanList
  import opened ApListJson
  import opened StatusJson
  import opened WifiLoop
  import opened WifiMutex
  import opened WifiRequests

  // ----- every read brings a scan

  /** No client begins a request. */
  predicate Clientless(acts: seq<Action>) {
    forall i :: 0 <= i < |acts| ==>
      !acts[i].HttpGetsList? && !acts[i].HttpGetsStatus? && !acts[i].HttpDeletes? && !acts[i].HttpPosts?
  }

  /** The request for a scan is made when the scan of an iteration is over. */
  predicate AsksLate(s: State, acts: seq<Action>)
    requires IsRun(s, acts)
    decreases acts
  {
    acts != [] && if Scanless(s, acts[0]) then AsksLate(Do(s, acts[0]), acts[1..]) else HasScanned(s.manager)
  }

  /** The scans that are begun after the request for one is made. */
  function ScansOnceAsked(s: State, acts: seq<Action>): nat
    requires IsRun(s, acts)
    decreases acts
  {
    if acts == [] then 0
    else if Scanless(s, acts[0]) then ScansOnceAsked(Do(s, acts[0]), acts[1..])
    else ScansBegun(Do(s, acts[0]), acts[1..])
  }

  lemma {:induction false} ReadyStaysReady(s: State, acts: seq<Action>)
    requires IsRun(s, acts) && Clientless(acts) && s.http.Ready?
    ensures IsUndisturbed(s, acts) && IsScanless(s, acts)
    decreases acts
  {
    if acts == [] {
    } else {
      var a := acts[0];
      assert !a.HttpGetsList? && !a.HttpGetsStatus? && !a.HttpDeletes? && !a.HttpPosts?;
      ReadyStaysReady(Do(s, a), acts[1..]);
    }
  }

  lemma AskedIsScanned(s: State, acts: seq<Action>)
    requires IsRun(s, acts) && Clientless(acts) && Sound(s) && s.http.Ready? && s.requests.scan
    ensures |acts| <= Rank(s)
    ensures AtRest(After(s, acts)) ==> (ScansBegun(s, acts) >= 1 <==> !HasScanned(s.manager))
  {
    ReadyStaysReady(s, acts);
    UndisturbedRunsEnd(s, acts);
    if HasScanned(s.manager) {
      LateScanRequestIsLost(s, acts);
    } else {
      ScanRequestStays(s, acts);
    }
  }

  lemma AskingStep(s: State)
    requires s.http.AskingScan? && Coherent(s.manager, s.snapshot)
    ensures var t := HttpStep(s);
            && t.requests.scan && t.http.Ready? && t.manager == s.manager && Rank(t) < Rank(s) + 195
  {
    var t := HttpStep(s);
    assert Rounds(Remaining(t)) <= Rounds(Remaining(s)) + 1;
  }

  lemma ReadingStep(s: State, a: Action)
    requires Enabled(s, a) && Clientless([a]) && Sound(s) && Scanless(s, a)
    requires s.http.ReadingList? || s.http.AskingScan?
    ensures Do(s, a).http.ReadingList? || Do(s, a).http.AskingScan?
    ensures Rank(Do(s, a)) < Rank(s)
  {
    assert [a][0] == a;
    QuietStepDecreases(s, a);
  }

  lemma {:induction false} ReadingIsScanned(s: State, acts: seq<Action>)
    requires IsRun(s, acts) && Clientless(acts) && Sound(s) && (s.http.ReadingList? || s.http.AskingScan?)
    ensures |acts| <= Rank(s) + 195
    ensures AtRest(After(s, acts)) ==> (ScansOnceAsked(s, acts) >= 1 <==> !AsksLate(s, acts))
    decreases acts
  {
    if acts == [] {
      NeverStuck(s);
    } else {
      var a := acts[0];
      assert Clientless(acts[1..]);
      StepStaysSound(s, a);
      if Scanless(s, a) {
        assert Clientless([a]);
        ReadingStep(s, a);
        ReadingIsScanned(Do(s, a), acts[1..]);
      } else {
        AskingStep(s);
        AskedIsScanned(Do(s, a), acts[1..]);
      }
    }
  }

  /**
   * A read of the list, answered or refused: in every run that can go no further a scan is begun after the request that
   * it makes, if and only if the request did not come between the scan and the end of an iteration.
   */
  lemma ListReadBringsScan(s: State, locks: bool, acts: seq<Action>)
    requires Sound(s) && Enabled(s, HttpGetsList(locks))
    requires IsRun(Do(s, HttpGetsList(locks)), acts) && Clientless(acts)
    ensures var t := Do(s, HttpGetsList(locks));
            && |acts| <= Rank(t) + 195
            && (AtRest(After(t, acts)) ==> (ScansOnceAsked(t, acts) >= 1 <==> !AsksLate(t, acts)))
  {
    hide Sound;
    hide Rank;
    hide AtRest;
    StepStaysSound(s, HttpGetsList(locks));
    ReadingIsScanned(Do(s, HttpGetsList(locks)), acts);
  }

  // ----- readers see what was found

  /** What the driver found last, and what it found the last time that the mutex was obtained to show it. */
  datatype Findings = Findings(last: seq<ApRecord>, shown: Option<seq<ApRecord>>)

  function Finding(s: State, a: Action, f: Findings): Findings {
    if a.ManagerSteps? && s.manager.Scanning? then f.(last := a.world.records)
    else if a.ManagerSteps? && s.manager.ListLocking? && a.world.locks then f.(shown := Some(f.last))
    else f
  }

  function Found(s: State, acts: seq<Action>, f: Findings): Findings
    requires IsRun(s, acts)
    decreases acts
  {
    if acts == [] then f else Found(Do(s, acts[0]), acts[1..], Finding(s, acts[0], f))
  }

  predicate Shown(list: Buffer<List>, shown: Option<seq<ApRecord>>) {
    list == Whole(if shown.None? then Empty else Listed(Unique(shown.value)))
  }

  predicate Showing(pc: ManagerPc, list: Buffer<List>, f: Findings) {
    match pc
    case ListLocking(records) => records == f.last && Shown(list, f.shown)
    case ListErasing(records) => records == f.last && f.shown == Some(records)
    case Listing(records) => records == f.last && f.shown == Some(records)
    case _ => Shown(list, f.shown)
  }

  lemma StepStaysShowing(s: State, a: Action, f: Findings)
    requires Enabled(s, a) && Showing(s.manager, s.board.list, f)
    ensures Showing(Do(s, a).manager, Do(s, a).board.list, Finding(s, a, f))
  {
  }

  lemma {:induction false} RunStaysShowing(s: State, acts: seq<Action>, f: Findings)
    requires IsRun(s, acts) && Showing(s.manager, s.board.list, f)
    ensures Showing(After(s, acts).manager, After(s, acts).board.list, Found(s, acts, f))
    decreases acts
  {
    if acts == [] {
    } else {
      StepStaysShowing(s, acts[0], f);
      RunStaysShowing(Do(s, acts[0]), acts[1..], Finding(s, acts[0], f));
    }
  }

  /**
   * Whenever a client reads the list, it gets an empty array as long as no scan has been shown, and from then on the
   * networks of the last scan that obtained the mutex.
   */
  lemma ReadersSeeTheLastScan(nvs: Option<StaConfig>, acts: seq<Action>)
    requires IsRun(Boot(nvs), acts) && After(Boot(nvs), acts).http.ReadingList?
    ensures var list := After(Boot(nvs), acts).board.list;
            && list.Whole?
            && ReadDocument(ListServed(list.text)) ==
               match Found(Boot(nvs), acts, Findings([], None)).shown
               case None => Some(Arr([]))
               case Some(records) => if Unique(records) == [] then None else Some(Arr(ApValues(Unique(records))))
  {
    hide ReadDocument;
    RunStaysShowing(Boot(nvs), acts, Findings([], None));
    RunStaysDisciplined(Boot(nvs), acts);
    EmptyListReadsBack();
    var f := Found(Boot(nvs), acts, Findings([], None));
    if f.shown.Some? {
      ListReadsBack(Unique(f.shown.value));
    }
  }
}
