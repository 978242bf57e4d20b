/** A lost link that races with `esp_wifi_disconnect`: the run that the calm regime rules out. */
module WifiRace {
  import opened Wrappers
  import opened CText
  import opened StatusJson
  import opened WifiLoop
  import opened WifiRequests

  /** Some run leads from start-up with an empty flash to `s`. */
  ghost predicate Reachable(s: State) {
    exists acts :: IsRun(Boot(None), acts) && After(Boot(None), acts) == s
  }

  lemma Leads(s: State, a: Action) returns (t: State)
    requires Reachable(s) && Enabled(s, a)
    ensures t == Do(s, a) && Reachable(t)
  {
    var acts :| IsRun(Boot(None), acts) && After(Boot(None), acts) == s;
    RunExtends(Boot(None), acts, a);
    t := Do(s, a);
  }

  const STEP := ManagerSteps(SOME_WORLD)

  /** A client posts a network: the configuration is written and the status cleared ... */
  lemma ClearLeads(s: State, ssid: seq<octet>) returns (t: State)
    requires Reachable(s) && s.http.Ready? && s.board.holder.Nobody? && |ssid| <= SSID_SIZE
    ensures Reachable(t)
    ensures t == s.(files := s.files.(config := Credentials(ssid, [])), http := PostUnlocking,
                    board := Board(Http, Whole(Cleared), s.board.list))
  {
    var s1 := Leads(s, HttpPosts(ssid, []));
    var s2 := Leads(s1, HttpSteps);
    var s3 := Leads(s2, HttpSteps);
    t := Leads(s3, HttpSteps);
  }

  /** ... and the connection requested. */
  lemma PostLeads(s: State, ssid: seq<octet>) returns (t: State)
    requires Reachable(s) && s.http.Ready? && s.board.holder.Nobody? && |ssid| <= SSID_SIZE
    ensures Reachable(t)
    ensures t == s.(files := s.files.(config := Credentials(ssid, [])), board := s.board.(status := Whole(Cleared)),
                    requests := s.requests.(connect := true))
  {
    var s1 := ClearLeads(s, ssid);
    var s2 := Leads(s1, HttpSteps);
    t := Leads(s2, HttpSteps);
  }

  const CONNECT_ONLY := NO_REQUESTS.(connect := true)

  /** The loop takes up a connect request, not being connected, and clears the bit. */
  lemma WakeLeads(s: State) returns (t: State)
    requires Reachable(s) && s.manager.Idle? && s.requests == CONNECT_ONLY && !s.radio.connected
    ensures Reachable(t)
    ensures t == s.(manager := Configuring, snapshot := Snapshot(false, s.requests), radio := ClearLost(s.radio))
  {
    var s1 := Leads(s, ManagerWakes);
    t := Leads(s1, STEP);
  }

  lemma AttemptLeads(s: State) returns (t: State)
    requires Reachable(s) && s.manager.Configuring?
    ensures Reachable(t)
    ensures t == s.(manager := AwaitingResult, radio := Attempt(s.radio), files := s.files.(used := s.files.config))
  {
    var s1 := Leads(s, STEP);
    t := Leads(s1, STEP);
  }

  /** A verdict is published ... */
  lemma PublishLeads(s: State) returns (t: State)
    requires Reachable(s) && s.manager.AwaitingResult? && (s.radio.connected || s.radio.lost) && s.board.holder.Nobody?
    ensures Reachable(t)
    ensures t == s.(manager := AfterReport(Judge(s.radio)), board := t.board, past := t.past)
    ensures t.board.status == Whole(StatusReport(Judge(s.radio), s.files.config, SOME_WORLD))
    ensures t.past.verdicts == s.past.verdicts + [Judge(s.radio)]
  {
    var s1 := Leads(s, STEP);
    var s2 := Leads(s1, STEP);
    var s3 := Leads(s2, STEP);
    t := Leads(s3, STEP);
  }

  lemma UnlockLeads(s: State, v: Verdict) returns (t: State)
    requires Reachable(s) && s.manager == Unlocking(v) && !v.Left?
    ensures Reachable(t)
    ensures t == s.(manager := Idle, requests := s.requests.(connect := false), board := s.board.(holder := Nobody))
  {
    var u := Leads(s, STEP);
    t := Leads(u, STEP);
  }

  /** ... and the handler ends. */
  lemma VerdictLeads(s: State) returns (t: State)
    requires Reachable(s) && s.manager.AwaitingResult? && (s.radio.connected || s.radio.lost) && s.board.holder.Nobody?
    ensures Reachable(t)
    ensures t == s.(manager := Idle, requests := s.requests.(connect := false), board := t.board, files := t.files,
                    past := t.past)
    ensures s.radio.connected ==> t.files == s.files.(nvs := Some(s.files.config))
    ensures t.board.status == Whole(StatusReport(Judge(s.radio), s.files.config, SOME_WORLD))
    ensures t.board.holder.Nobody? && t.past.verdicts == s.past.verdicts + [Judge(s.radio)]
  {
    var s1 := PublishLeads(s);
    var s2 := Leads(s1, STEP);
    if !s.radio.connected {
      s2 := Leads(s2, STEP);
    }
    t := UnlockLeads(s2, Judge(s.radio));
  }

  /** The first network is joined. */
  lemma JoinedLeads() returns (t: State)
    ensures Reachable(t) && t.manager.Idle? && t.http.Ready? && t.board.holder.Nobody? && t.requests == NO_REQUESTS
    ensures t.radio == Radio(Up(1), [], 1, true, 1, false, 0)
    ensures t.past.verdicts == [Joined(1, 1)] && t.files.nvs == Some(Credentials(['a'], []))
  {
    var s0 := Boot(None);
    assert IsRun(s0, []) && After(s0, []) == s0;
    var s1 := PostLeads(s0, ['a']);
    var s2 := WakeLeads(s1);
    var s3 := AttemptLeads(s2);
    var s4 := Leads(s3, DriverJoins);
    var s5 := Leads(s4, DriverDelivers);
    t := VerdictLeads(s5);
  }

  /** A second network is asked for; the link is lost just before the loop disconnects by itself. */
  lemma RaceLeads() returns (t: State)
    ensures Reachable(t) && t.manager.Attempting? && t.http.Ready? && t.board.holder.Nobody?
    ensures t.requests == CONNECT_ONLY
    ensures t.radio == Radio(Down, [Disconnected(1)], 1, false, 1, false, 1)
  {
    var s0 := JoinedLeads();
    var s1 := PostLeads(s0, ['a']);
    var s2 := Leads(s1, ManagerWakes);
    var s3 := Leads(s2, STEP);
    var s4 := Leads(s3, DriverDrops);
    var s5 := Leads(s4, STEP);
    var s6 := Leads(s5, DriverDelivers);
    assert s6.radio == Radio(Down, [Disconnected(1)], 1, false, 1, true, 1);
    var s7 := Leads(s6, STEP);
    var s8 := Leads(s7, STEP);
    t := Leads(s8, STEP);
  }

  /** The attempt is taken for a failure, although its link comes up. */
  lemma MisjudgedLeads() returns (t: State)
    ensures Reachable(t) && t.manager.Idle? && t.http.Ready? && t.board.holder.Nobody? && t.requests == NO_REQUESTS
    ensures t.radio == Radio(Joining(2), [], 2, false, 1, true, 1)
    ensures t.past.verdicts != [] && t.past.verdicts[|t.past.verdicts| - 1] == Failed(2, 1)
  {
    var s0 := RaceLeads();
    var s1 := Leads(s0, STEP);
    var s2 := Leads(s1, DriverDelivers);
    t := VerdictLeads(s2);
  }

  /**
   * The promise fails outside the regime: a success is published for attempt 3 on the GOT_IP of attempt 2, which was
   * published as a failure before on the loss of link 1.
   */
  lemma StaleSuccessHappens()
    ensures exists s :: Reachable(s) && s.past.verdicts != [] && s.past.verdicts[|s.past.verdicts| - 1] == Joined(3, 2)
    ensures exists s :: Reachable(s) && s.past.verdicts != [] && s.past.verdicts[|s.past.verdicts| - 1] == Failed(2, 1)
  {
    var s0 := MisjudgedLeads();
    var s1 := PostLeads(s0, ['a']);
    var s2 := WakeLeads(s1);
    var s3 := Leads(s2, DriverJoins);
    var s4 := Leads(s3, DriverDelivers);
    var s5 := AttemptLeads(s4);
    var s6 := VerdictLeads(s5);
    assert s6.past.verdicts[|s6.past.verdicts| - 1] == Joined(3, 2);
  }
}
