/** The relay's `syncPriority` counter counts the `/sync` requests in flight on its pod. */
module Priority {
  import opened Wrappers
  import opened Protocol

  predicate OnSync(th: Thread, p: Pod) {
    th.Relay? && th.sync && th.pod == p
  }

  /** The `/sync` requests a pod is serving. */
  function InFlight(s: State, p: Pod): set<Tid> {
    set t | t in s.threads && OnSync(s.threads[t], p)
  }

  ghost predicate Counted(s: State) {
    forall p :: Priority(s, p) == |InFlight(s, p)|
  }

  /** Replacing a thread by one of the same standing, or adding one without standing, changes no count. */
  lemma SameCounts(s: State, s': State)
    requires Counted(s) && s'.priority == s.priority
    requires forall t, p :: t in s'.threads && OnSync(s'.threads[t], p) <==> t in s.threads && OnSync(s.threads[t], p)
    ensures Counted(s')
  {
    forall p ensures InFlight(s', p) == InFlight(s, p) {
    }
  }

  lemma AcceptCounts(s: State, t: Tid, pod: Pod, sync: bool, j: JobId)
    requires Counted(s) && t !in s.threads
    ensures Counted(Accept(s, t, pod, sync, j))
  {
    var s' := Accept(s, t, pod, sync, j);
    forall p ensures Priority(s', p) == |InFlight(s', p)| {
      assert InFlight(s', p) == if sync && p == pod then InFlight(s, p) + {t} else InFlight(s, p);
    }
  }

  lemma RebootCounts(s: State, pod: Pod)
    requires Counted(s)
    ensures Counted(Reboot(s, pod))
  {
    var s' := Reboot(s, pod);
    forall p ensures Priority(s', p) == |InFlight(s', p)| {
      assert InFlight(s', p) == if p == pod then {} else InFlight(s, p);
    }
  }

  /** A request that returns is no longer counted. */
  lemma ReturnCounts(s: State, t: Tid, m: Move<Option<Thread>>, spawn: Tid)
    requires Counted(s) && t in s.threads && s.threads[t].Relay? && s.threads[t].relayPc.Leave?
    requires m.pc.None? && m.spawn.None?
    ensures Counted(Resume(s, t, s.threads[t], m, spawn))
  {
    var s' := Resume(s, t, s.threads[t], m, spawn);
    forall p ensures Priority(s', p) == |InFlight(s', p)| {
      assert InFlight(s', p) == if OnSync(s.threads[t], p) then InFlight(s, p) - {t} else InFlight(s, p);
    }
  }

  lemma ResumeCounts(s: State, t: Tid, m: Move<Option<Thread>>, spawn: Tid)
    requires Counted(s) && t in s.threads && spawn !in s.threads
    requires s.threads[t].Relay? ==> !s.threads[t].relayPc.Leave?
    requires s.threads[t].Relay? ==> m.pc.Some? && m.pc.value.Relay?
    requires s.threads[t].Relay? ==> m.pc.value.sync == s.threads[t].sync && m.pc.value.pod == s.threads[t].pod
    requires !s.threads[t].Relay? && m.pc.Some? ==> !m.pc.value.Relay?
    ensures Counted(Resume(s, t, s.threads[t], m, spawn))
  {
    SameCounts(s, Resume(s, t, s.threads[t], m, spawn));
  }

  lemma StepCounts(s: State, t: Tid, o: Outcome, spawn: Tid)
    requires Counted(s) && t in s.threads && spawn !in s.threads
    ensures Counted(Step(s, t, o, spawn))
  {
    var m := ThreadMove(s, s.threads[t], o);
    var s1 := Perform(s, m.effect);
    PerformThreads(s, m.effect);
    SameCounts(s, s1);
    if s.threads[t].Relay? && s.threads[t].relayPc.Leave? {
      ReturnCounts(s1, t, m, spawn);
    } else {
      ResumeCounts(s1, t, m, spawn);
    }
  }

  /** A gateway handler moves and may spawn a goroutine. */
  lemma SpawnCounts(s: State, s1: State, j: JobId, pc: GatewayPc, spawn: Tid, task: Option<Task>)
    requires Counted(s) && s1.threads == s.threads && s1.priority == s.priority
    requires j in s1.gateway && spawn !in s.threads
    ensures Counted(Spawn(Goto(s1, j, pc), spawn, j, task))
  {
    SameCounts(s, Spawn(Goto(s1, j, pc), spawn, j, task));
  }

  lemma GatewayCounts(s: State, j: JobId, o: Outcome, spawn: Tid)
    requires Counted(s) && j in s.gateway && spawn !in s.threads
    ensures Counted(GatewayNext(s, j, o, spawn))
  {
    var m := GatewayMove(s, j, o);
    PerformThreads(s, m.effect);
    SpawnCounts(s, Perform(s, m.effect), j, m.pc, spawn, m.spawn);
  }

  lemma NextCounts(s: State, a: Action)
    requires Counted(s)
    ensures Counted(Next(s, a))
  {
    if Enabled(s, a) {
      match a
      case Deliver(t, pod, sync, j) => AcceptCounts(s, t, pod, sync, j);
      case PodCrash(pod) => RebootCounts(s, pod);
      case Advance(t, o, spawn) => StepCounts(s, t, o, spawn);
      case Gateway(j, o, spawn) => GatewayCounts(s, j, o, spawn);
      case _ => SameCounts(s, Next(s, a));
    }
  }

  lemma {:induction false} RunCounts(s: State, acts: seq<Action>)
    requires Counted(s)
    ensures Counted(Run(s, acts))
    decreases |acts|
  {
    if acts != [] {
      NextCounts(s, acts[0]);
      RunCounts(Next(s, acts[0]), acts[1..]);
    }
  }

  /** In every interleaving of `/` and `/sync` requests, over any number of pods and pod crashes. */
  lemma CounterCountsSyncRequests(acts: seq<Action>, p: Pod)
    ensures var s := Run(Init(), acts); Priority(s, p) == |InFlight(s, p)|
  {
    RunCounts(Init(), acts);
  }

  /** A request for the asynchronous topic that stands before the gate. */
  predicate AtGate(s: State, t: Tid) {
    t in s.threads && s.threads[t].Relay? && s.threads[t].relayPc.Gate?
  }

  /**
  The gate opens exactly when no `/sync` request is in flight on the pod; a request
  that is deferred leaves with 503.
  */
  lemma GateOpensWhenIdle(acts: seq<Action>, t: Tid, o: Outcome, spawn: Tid)
    requires AtGate(Run(Init(), acts), t) && spawn !in Run(Init(), acts).threads
    ensures var s := Run(Init(), acts);
      var s' := Next(s, Advance(t, o, spawn));
      && t in s'.threads && s'.threads[t].Relay?
      && (InFlight(s, s.threads[t].pod) == {} <==> s'.threads[t].relayPc.Fetch?)
      && (InFlight(s, s.threads[t].pod) != {} <==> s'.threads[t].relayPc == Leave(503))
  {
    RunCounts(Init(), acts);
    var s := Run(Init(), acts);
    assert Priority(s, s.threads[t].pod) == |InFlight(s, s.threads[t].pod)|;
  }

  /** From the gate to its return, a deferred request touches neither S3, nor Kafka, nor Redis. */
  lemma DeferredHasNoEffect(s: State, t: Tid, o: Outcome, spawn: Tid)
    requires spawn !in s.threads && t in s.threads && s.threads[t].Relay?
    requires s.threads[t].relayPc.Gate? || s.threads[t].relayPc == Leave(503)
    ensures var s' := Next(s, Advance(t, o, spawn));
      && s'.objects == s.objects && s'.inputs == s.inputs && s'.results == s.results
      && s'.jobs == s.jobs && s'.trace == s.trace && spawn !in s'.threads
  {
  }
}
