/** Six presses in STANDBY: the shortest way to a queue that core_task itself keeps full. */
module SessionJam {
  import opened TcpStream
  import opened Session
  import opened SessionTokens
  import opened SessionRest
  import opened SessionHome
  import opened SessionOverlap

  function Repeated<T>(x: T, k: nat): (q: seq<T>)
    ensures |q| == k && forall i :: 0 <= i < k ==> q[i] == x
  {
    seq(k, _ => x)
  }

  lemma {:induction false} PressesLead(s: State, k: nat) returns (t: State)
    requires Reachable(s) && s.monitor.Waiting? && s.cur.Standby? && |s.queue| + k <= QUEUE_SIZE && !s.pushed
    ensures Reachable(t)
    ensures t == s.(queue := s.queue + Repeated(Connecting, k), past := s.past.(presses := s.past.presses + k))
    decreases k
  {
    if k == 0 {
      t := s;
    } else {
      var more := PressLeads(s);
      t := PressesLead(more, k - 1);
      assert s.queue + Repeated(Connecting, k) == s.queue + [Connecting] + Repeated(Connecting, k - 1);
    }
  }

  /** What `k` connections change, apart from the stream. */
  predicate ManyConnected(s: State, t: State, k: nat) {
    && t == s.(cur := t.cur, queue := t.queue, recorder := t.recorder, stream := t.stream, past := t.past)
    && t.queue == Repeated(Connecting, |t.queue|) && |t.queue| + k == |s.queue|
    && t.recorder == s.recorder.(tasks := s.recorder.tasks + Repeated(Spawned, k))
    && Excess(t.past) == Excess(s.past)
  }

  lemma {:induction false} ConnectsLead(s: State, k: nat) returns (t: State)
    requires Reachable(s) && s.core.Receiving? && k <= |s.queue| && s.queue == Repeated(Connecting, |s.queue|)
    ensures Reachable(t) && ManyConnected(s, t, k)
    decreases k
  {
    if k == 0 {
      t := s;
      assert s.recorder.tasks + Repeated(Spawned, 0) == s.recorder.tasks;
    } else {
      var one := ConnectLeads(s);
      assert one.queue == Repeated(Connecting, |one.queue|);
      t := ConnectsLead(one, k - 1);
      assert s.recorder.tasks + Repeated(Spawned, k) == s.recorder.tasks + [Spawned] + Repeated(Spawned, k - 1);
    }
  }

  /** The next connection gets no socket, and core_task is about to push a RESET. */
  lemma FailLeads(s: State) returns (t: State)
    requires Reachable(s) && s.core.Receiving? && s.queue == [Connecting]
    ensures Reachable(t)
    ensures t == s.(cur := Connecting, queue := [], core := CorePush(Reset, false), stream := t.stream, past := t.past)
    ensures Excess(t.past) == Excess(s.past)
  {
    CountAppend(s.past.received, Connecting, Standby);
    var u := Do(s, CoreReceives);
    Leads(s, CoreReceives);
    t := Do(u, CoreHandles(NoSocket));
    Leads(u, CoreHandles(NoSocket));
  }

  /** The first recorder runs from its start to its end, stopped by the server. */
  lemma RecordingLeads(s: State) returns (t: State)
    requires Reachable(s) && s.recorder.tasks != [] && s.recorder.tasks[0].Spawned? && !s.recorder.running
    ensures Reachable(t)
    ensures t == s.(recorder := s.recorder.(tasks := s.recorder.tasks[1..],
                                            notices := s.recorder.notices + [Started, Finished]))
  {
    var s1 := ListenLeads(s, 0);
    var s2 := Do(s1, ServerStops);
    Leads(s1, ServerStops);
    var s3 := Do(s2, RecorderSteps(0));
    Leads(s2, RecorderSteps(0));
    var s4 := Do(s3, RecorderSteps(0));
    Leads(s3, RecorderSteps(0));
    t := Do(s4, RecorderSteps(0));
    Leads(s4, RecorderSteps(0));
    assert t.recorder.tasks == s.recorder.tasks[1..];
    assert t.recorder.notices == s.recorder.notices + [Started, Finished];
  }

  lemma {:induction false} RecordingsLead(s: State) returns (t: State)
    requires Reachable(s) && s.recorder.tasks == Repeated(Spawned, |s.recorder.tasks|) && !s.recorder.running
    ensures Reachable(t) && t == s.(recorder := s.recorder.(tasks := [], notices := t.recorder.notices))
    ensures |t.recorder.notices| == |s.recorder.notices| + 2 * |s.recorder.tasks|
    decreases |s.recorder.tasks|
  {
    if s.recorder.tasks == [] {
      t := s;
    } else {
      var one := RecordingLeads(s);
      assert one.recorder.tasks == Repeated(Spawned, |one.recorder.tasks|);
      t := RecordingsLead(one);
    }
  }

  /** event_monitor_task queues everything that the recorders have reported. */
  lemma {:induction false} ReportsLead(s: State) returns (t: State)
    requires Reachable(s) && s.monitor.Waiting? && |s.queue| + |s.recorder.notices| <= QUEUE_SIZE
    ensures Reachable(t) && t == s.(queue := t.queue, recorder := s.recorder.(notices := []))
    ensures |t.queue| == |s.queue| + |s.recorder.notices|
    decreases |s.recorder.notices|
  {
    if s.recorder.notices == [] {
      t := s;
    } else {
      var s1 := Do(s, RecorderNotifies);
      Leads(s, RecorderNotifies);
      var s2 := Do(s1, MonitorGoesOn);
      Leads(s1, MonitorGoesOn);
      t := ReportsLead(s2);
    }
  }

  /** Six presses are enough: five sessions record, and the sixth cannot connect. */
  lemma JamHappens()
    ensures exists s :: Reachable(s) && AtRest(s) && Jammed(s) && Excess(s.past) == 6
  {
    var s0 := StandbyLeads();
    var s1 := PressesLead(s0, 6);
    var s2 := ConnectsLead(s1, 5);
    assert s2.queue == [Connecting];
    var s3 := FailLeads(s2);
    var s4 := RecordingsLead(s3);
    var s5 := ReportsLead(s4);
    RestIsExact(s5);
  }
}
