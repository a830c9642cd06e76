/**
Why a job has the outcome it has: every decided record repeats an event of its job, or says
that the job was never enqueued; and how the handlers come to say so.
*/
module JobReasons {
  import opened Wrappers
  import opened Protocol
  import opened ProtocolInvariant
  import opened JobTheorems

  // ---------------------------------------------------------------- records repeat events

  /** A decided record repeats a logged event of the job, or says that the job could not be enqueued. */
  ghost predicate Explained(s: State, j: JobId)
    requires j in s.jobs
  {
    || s.jobs[j].status.Pending?
    || (exists ev :: ev in s.results && ev.id == j && Reports(ev, s.jobs[j]))
    || (Abandoned(j) in s.trace && s.jobs[j] == Record(Failed, None, "failed to enqueue"))
  }

  ghost predicate AllExplained(s: State) {
    forall j :: j in s.jobs ==> Explained(s, j)
  }

  lemma EffectExplained(s: State, e: Effect, j: JobId)
    requires AllExplained(s) && Accounted(s, e) && j in Perform(s, e).jobs
    ensures Explained(Perform(s, e), j)
  {
    var s' := Perform(s, e);
    assert j in s.jobs ==> Explained(s, j);
    assert s.results <= s'.results && s.trace <= s'.trace;
  }

  lemma NextExplained(s: State, a: Action)
    requires Inv(s) && AllExplained(s)
    ensures AllExplained(Next(s, a))
  {
    NextIsEffect(s, a);
    EffectAccounted(s, a);
    forall j | j in Next(s, a).jobs ensures Explained(Next(s, a), j) {
      EffectExplained(s, EffectOf(s, a), j);
    }
  }

  lemma {:induction false} RunExplained(s: State, acts: seq<Action>)
    requires Inv(s) && AllExplained(s)
    ensures AllExplained(Run(s, acts))
    decreases |acts|
  {
    if acts != [] {
      NextInv(s, acts[0]);
      NextExplained(s, acts[0]);
      RunExplained(Next(s, acts[0]), acts[1..]);
    }
  }

  /**
  In every reachable state a failed record's error is that of a logged failed event of the job,
  or "failed to enqueue" after a publish that reported an error; a completed record repeats a
  logged completed event.
  */
  lemma RecordsSayWhy(acts: seq<Action>, j: JobId)
    requires j in Run(Init(), acts).jobs
    ensures var s := Run(Init(), acts);
      var rec := s.jobs[j];
      && (rec.status.Failed? ==>
            || (exists ev :: ev in s.results && ev.id == j && ev.status.Failed? && ev.error == rec.error)
            || (Abandoned(j) in s.trace && rec.error == "failed to enqueue"))
      && (rec.status.Completed? ==>
            exists ev :: ev in s.results && ev.id == j && ev.status.Completed? && ev.ref == rec.ref)
  {
    InitInv();
    RunExplained(Init(), acts);
    assert Explained(Run(Init(), acts), j);
  }

  // ---------------------------------------------------------------- what events say

  /** A request about to report a failure knows what inference said, and events report nothing else. */
  ghost predicate Worded(s: State) {
    forall ev :: ev in s.results ==> WellWorded(ev)
  }

  ghost predicate WellWorded(ev: ResultEvent) {
    || (ev.status.Completed? && ev.ref == Some(ResultKey(ev.id)) && ev.error == "")
    || (ev.status.Failed? && ev.ref.None? && exists msg :: ev.error == "inference: " + msg)
  }

  lemma ThreadWorded(s: State, th: Thread, o: Outcome)
    ensures var e := ThreadMove(s, th, o).effect; e.PublishResult? ==> WellWorded(e.ev)
  {
  }

  lemma GatewayWorded(s: State, j: JobId, o: Outcome)
    requires j in s.gateway
    ensures !GatewayMove(s, j, o).effect.PublishResult?
  {
  }

  lemma NextWorded(s: State, a: Action)
    requires Worded(s)
    ensures Worded(Next(s, a))
  {
    NextIsEffect(s, a);
    if Enabled(s, a) {
      match a
      case Advance(t, o, _) => ThreadWorded(s, s.threads[t], o);
      case Gateway(j, o, _) => GatewayWorded(s, j, o);
      case _ =>
    }
  }

  lemma {:induction false} RunWorded(s: State, acts: seq<Action>)
    requires Worded(s)
    ensures Worded(Run(s, acts))
    decreases |acts|
  {
    if acts != [] {
      NextWorded(s, acts[0]);
      RunWorded(Next(s, acts[0]), acts[1..]);
    }
  }

  /** Every logged event is the completed event of its job, or reports what inference said. */
  lemma EventsSayWhy(acts: seq<Action>, ev: ResultEvent)
    requires ev in Run(Init(), acts).results
    ensures
      || (ev.status.Completed? && ev.ref == Some(ResultKey(ev.id)) && ev.error == "")
      || (ev.status.Failed? && ev.ref.None? && exists msg :: ev.error == "inference: " + msg)
  {
    RunWorded(Init(), acts);
  }

  /** When inference fails with a message, the relay publishes just that message, and then drops the input. */
  lemma InferenceReported(s: State, t: Tid, msg: string, a: bool, spawn: Tid)
    requires t in s.threads && spawn !in s.threads && s.threads[t].Relay? && s.threads[t].relayPc == Infer
    ensures var j := s.threads[t].id;
      var s1 := Next(s, Advance(t, Err(a, msg), spawn));
      var s2 := Next(s1, Advance(t, Ok, spawn));
      var s3 := Next(s2, Advance(t, Ok, spawn));
      && s1.results == s.results
      && s2.results == s.results + {ResultEvent(j, Failed, None, "inference: " + msg)}
      && s3.objects == s.objects - {InputKey(j)}
      && t in s3.threads && s3.threads[t] == s.threads[t].(relayPc := Ack)
  {
    var th := s.threads[t];
    RelayStep(s, t, th, Err(a, msg), spawn);
    var s1 := Next(s, Advance(t, Err(a, msg), spawn));
    RelayStep(s1, t, th.(relayPc := Report(msg)), Ok, spawn);
    var s2 := Next(s1, Advance(t, Ok, spawn));
    RelayStep(s2, t, th.(relayPc := Discard), Ok, spawn);
  }

  lemma RelayStep(s: State, t: Tid, th: Thread, o: Outcome, spawn: Tid)
    requires t in s.threads && spawn !in s.threads && s.threads[t] == th && th.Relay?
    requires th.relayPc.Infer? || th.relayPc.Report? || th.relayPc.Discard?
    ensures var m := RelayMove(s, th.pod, th.id, th.relayPc, o);
      Next(s, Advance(t, o, spawn)) == Perform(s, m.effect).(threads := s.threads[t := th.(relayPc := m.pc)])
  {
    PerformThreads(s, RelayMove(s, th.pod, th.id, th.relayPc, o).effect);
  }

  // ---------------------------------------------------------------- what the handlers' calls do

  /** What the call of a relay request does to the services: it is applied or not, whatever it reports. */
  lemma RelayCalls(s: State, t: Tid, o: Outcome, spawn: Tid)
    requires Enabled(s, Advance(t, o, spawn)) && s.threads[t].Relay?
    ensures var j, pc, s' := s.threads[t].id, s.threads[t].relayPc, Next(s, Advance(t, o, spawn));
      && s'.jobs == s.jobs && s'.inputs == s.inputs
      && s'.objects == (if !Applied(o) then s.objects
           else if pc.Put? then s.objects + {ResultKey(j)}
           else if pc.Discard? then s.objects - {InputKey(j)} else s.objects)
      && s'.results == (if !Applied(o) then s.results
           else if pc.Announce? then s.results + {ResultEvent(j, Completed, Some(ResultKey(j)), "")}
           else if pc.Report? then s.results + {ResultEvent(j, Failed, None, "inference: " + pc.msg)} else s.results)
      && (spawn in s'.threads <==> pc.Ack?) && (pc.Ack? ==> s'.threads[spawn] == Cleaner(j, DropInput))
  {
    var th := s.threads[t];
    var m := ThreadMove(s, th, o);
    NextIsEffect(s, Advance(t, o, spawn));
    PerformThreads(s, m.effect);
    ResumeShape(Perform(s, m.effect), t, th, m, spawn);
  }

  /** What the call of a gateway handler does to the services. */
  ghost predicate GatewayCalled(s: State, s': State, j: JobId, pc: GatewayPc, o: Outcome) {
    && s'.results == s.results
    && s'.objects == (if pc.Uploading? && Applied(o) then s.objects + {InputKey(j)} else s.objects)
    && s'.inputs == (if pc.Publishing? && Applied(o) then s.inputs + {j} else s.inputs)
    && s'.jobs == (if pc.Saving? && Applied(o) then s.jobs[j := Record(Pending, None, "")]
         else if pc.Compensating? && Applied(o) && j in s.jobs
         then s.jobs[j := Record(Failed, None, "failed to enqueue")]
         else s.jobs)
  }

  lemma GatewayPerforms(s: State, j: JobId, o: Outcome)
    requires j in s.gateway
    ensures GatewayCalled(s, Perform(s, GatewayMove(s, j, o).effect), j, s.gateway[j].pc, o)
  {
  }

  lemma GatewayCalls(s: State, j: JobId, o: Outcome, spawn: Tid)
    requires Enabled(s, Gateway(j, o, spawn))
    ensures GatewayCalled(s, Next(s, Gateway(j, o, spawn)), j, s.gateway[j].pc, o)
  {
    GatewayPerforms(s, j, o);
    NextIsEffect(s, Gateway(j, o, spawn));
  }

  /** What the call of `handleResult` does to the services. */
  lemma ApplierCalls(s: State, t: Tid, o: Outcome, spawn: Tid)
    requires Enabled(s, Advance(t, o, spawn)) && s.threads[t].Applier?
    ensures var ev, pc, s' := s.threads[t].ev, s.threads[t].applyPc, Next(s, Advance(t, o, spawn));
      && s'.objects == s.objects && s'.inputs == s.inputs && s'.results == s.results
      && s'.jobs == (if pc.Patch? && Applied(o) && ev.id in s.jobs
           then s.jobs[ev.id := Record(ev.status, ev.ref, ev.error)] else s.jobs)
      && s'.trace == (if pc.Notify? && Applied(o) then s.trace + {Notified(ev.id)} else s.trace)
  {
    NextIsEffect(s, Advance(t, o, spawn));
  }

  // ---------------------------------------------------------------- a job that was never enqueued

  /** The record of a job whose publish failed is marked, and its input is cleaned up. */
  lemma Compensates(s: State, j: JobId, o: Outcome, spawn: Tid)
    requires Enabled(s, Gateway(j, o, spawn)) && s.gateway[j].pc.Compensating?
    ensures var s' := Next(s, Gateway(j, o, spawn));
      && s'.gateway[j].pc == Closed(500)
      && s'.threads == s.threads[spawn := Cleaner(j, DropInput)]
      && s'.jobs == if Applied(o) && j in s.jobs then s.jobs[j := Record(Failed, None, "failed to enqueue")] else s.jobs
  {
  }

  /** A sync job whose publish failed is answered with 500, and its input and record are cleaned up. */
  lemma SyncPublishFails(s: State, j: JobId, o: Outcome, spawn: Tid)
    requires Enabled(s, Gateway(j, o, spawn)) && s.gateway[j].pc.Publishing? && s.gateway[j].kind.Sync? && o.Err?
    ensures var s' := Next(s, Gateway(j, o, spawn));
      && s'.gateway[j].pc == Closed(500) && Abandoned(j) in s'.trace
      && s'.threads == s.threads[spawn := Cleaner(j, DropOrphan)]
  {
  }

  /** The job was not enqueued, its publish reported so, and its handler is past it. */
  ghost predicate Unsent(s: State, j: JobId) {
    && j in s.gateway && (s.gateway[j].pc.Compensating? || s.gateway[j].pc.Closed?)
    && Abandoned(j) in s.trace && j !in s.inputs
    && (j in s.jobs ==> s.jobs[j] == Record(Failed, None, "failed to enqueue"))
  }

  /** The effect neither enqueues the job nor says anything else about it. */
  predicate Spares(e: Effect, j: JobId) {
    && !(e.Publish? && e.id == j) && !(e.LosePublish? && e.id == j) && !(e.SaveJob? && e.id == j)
    && (e.UpdateJob? && e.id == j ==> e.rec == Record(Failed, None, "failed to enqueue"))
  }

  lemma SparedUnsent(s: State, e: Effect, j: JobId)
    requires Unsent(s, j) && Spares(e, j)
    ensures Unsent(Perform(s, e), j)
  {
  }

  lemma GatewaySpares(s: State, i: JobId, o: Outcome, j: JobId)
    requires Unsent(s, j) && i in s.gateway
    ensures Spares(GatewayMove(s, i, o).effect, j)
    ensures i == j ==> GatewayMove(s, i, o).pc.Closed?
  {
  }

  lemma ThreadSpares(s: State, th: Thread, o: Outcome, j: JobId)
    requires Unsent(s, j) && Ready(s, th)
    ensures Spares(ThreadMove(s, th, o).effect, j)
  {
  }

  lemma UnsentGateway(s: State, j: JobId, i: JobId, o: Outcome, spawn: Tid)
    requires Unsent(s, j) && Enabled(s, Gateway(i, o, spawn))
    ensures Unsent(Next(s, Gateway(i, o, spawn)), j)
  {
    var m := GatewayMove(s, i, o);
    GatewaySpares(s, i, o, j);
    SparedUnsent(s, m.effect, j);
    GatewayShape(s, i, o, spawn);
  }

  lemma UnsentThread(s: State, j: JobId, t: Tid, o: Outcome, spawn: Tid)
    requires Inv(s) && Unsent(s, j) && Enabled(s, Advance(t, o, spawn))
    ensures Unsent(Next(s, Advance(t, o, spawn)), j)
  {
    var th := s.threads[t];
    var m := ThreadMove(s, th, o);
    ThreadReady(s, t);
    PerformThreads(s, m.effect);
    ResumeShape(Perform(s, m.effect), t, th, m, spawn);
    ThreadSpares(s, th, o, j);
    SparedUnsent(s, m.effect, j);
  }

  lemma UnsentOtherwise(s: State, a: Action, j: JobId)
    requires Unsent(s, j) && Enabled(s, a) && !a.Gateway? && !a.Advance?
    ensures Unsent(Next(s, a), j)
  {
  }

  lemma UnsentStays(s: State, a: Action, j: JobId)
    requires Inv(s) && Unsent(s, j)
    ensures Unsent(Next(s, a), j)
  {
    if Enabled(s, a) {
      match a
      case Gateway(i, o, spawn) => UnsentGateway(s, j, i, o, spawn);
      case Advance(t, o, spawn) => UnsentThread(s, j, t, o, spawn);
      case _ => UnsentOtherwise(s, a, j);
    }
  }

  /** A job marked as never enqueued, whose publish had indeed no effect, stays so until its record goes. */
  lemma {:induction false} CompensationIsFinal(s: State, acts: seq<Action>, j: JobId)
    requires Inv(s) && Unsent(s, j)
    ensures var s' := Run(s, acts);
      j in s'.jobs ==> s'.jobs[j].status.Failed? && s'.jobs[j].ref.None? && s'.jobs[j].error == "failed to enqueue"
    ensures j !in Run(s, acts).inputs
    decreases |acts|
  {
    if acts != [] {
      NextInv(s, acts[0]);
      UnsentStays(s, acts[0], j);
      CompensationIsFinal(Next(s, acts[0]), acts[1..], j);
    }
  }

  // ---------------------------------------------------------------- cleanups

  lemma CleanerStep(s: State, t: Tid, o: Outcome, spawn: Tid)
    requires Enabled(s, Advance(t, o, spawn)) && s.threads[t].Cleaner?
    ensures var j, m := s.threads[t].id, CleanMove(s.threads[t].id, s.threads[t].task, o);
      Next(s, Advance(t, o, spawn)) == Perform(s, m.effect).(
        threads := if m.pc.Some? then s.threads[t := Cleaner(j, m.pc.value)] else s.threads - {t})
  {
    PerformThreads(s, CleanMove(s.threads[t].id, s.threads[t].task, o).effect);
  }

  /** What a cleanup's call removes when it is applied, and what it goes on to, whether or not it was. */
  lemma CleanupSteps(s: State, t: Tid, o: Outcome, spawn: Tid)
    requires Enabled(s, Advance(t, o, spawn)) && s.threads[t].Cleaner?
    ensures var j, task, s' := s.threads[t].id, s.threads[t].task, Next(s, Advance(t, o, spawn));
      && s'.objects == s.objects - Dropped(j, task, o)
      && s'.jobs == (if Applied(o) && task.DropRecord? then s.jobs - {j} else s.jobs)
      && s'.threads == (if task.DropOrphan? || task.DropResult? then s.threads[t := Cleaner(j, DropRecord)]
                        else s.threads - {t})
  {
    CleanerStep(s, t, o, spawn);
  }

  /** The objects that a cleanup's call removes. */
  function Dropped(j: JobId, task: Task, o: Outcome): set<Key> {
    if !Applied(o) || task.DropRecord? then {} else if task.DropResult? then {ResultKey(j)} else {InputKey(j)}
  }
}
