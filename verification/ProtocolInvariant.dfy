/** The inductive invariant of the job protocol, and its proof. */
module ProtocolInvariant {
  import opened Wrappers
  import opened Protocol

  /** The result topic holds an event of the job. */
  ghost predicate Logged(s: State, j: JobId) {
    exists ev :: ev in s.results && ev.id == j
  }

  ghost predicate ResultPut(s: State, j: JobId) {
    Stored(ResultKey(j)) in s.trace
  }

  /** The relay is done with the job: an event is logged, or the publish of one was swallowed. */
  ghost predicate Settled(s: State, j: JobId) {
    Logged(s, j) || Swallowed(j) in s.trace
  }

  ghost predicate Undisturbed(s: State, j: JobId) {
    Disturbed(j) !in s.trace && Abandoned(j) !in s.trace
  }

  predicate BeforePublish(pc: GatewayPc) {
    pc.Uploading? || pc.Saving? || pc.Subscribing? || pc.Publishing?
  }

  predicate AfterPublish(pc: GatewayPc) {
    pc.Waiting? || pc.Reading? || pc.Fetching?
  }

  /** Pending without outcome, failed with an error, or completed with the job's own result object. */
  ghost predicate RecordOk(s: State, j: JobId, rec: Record) {
    match rec.status
    case Pending => rec.ref.None? && rec.error == ""
    case Failed => rec.ref.None? && rec.error != ""
    case Completed => rec.ref == Some(ResultKey(j)) && rec.error == "" && ResultPut(s, j)
  }

  ghost predicate EventOk(s: State, ev: ResultEvent) {
    ev.id in s.inputs && !ev.status.Pending? && RecordOk(s, ev.id, RecordOf(ev))
  }

  /** What the handler's place says about the services. */
  ghost predicate PlaceOk(s: State, j: JobId, h: Handler) {
    && (h.pc.Uploading? || h.pc.Saving? ==> j !in s.jobs && Gone(j) !in s.trace)
    && (h.pc.Subscribing? ==> h.kind.Sync?)
    && (BeforePublish(h.pc) ==> j !in s.inputs && Abandoned(j) !in s.trace)
    && (BeforePublish(h.pc) && !h.pc.Uploading? ==> InputKey(j) in s.objects)
    && (h.pc.Compensating? ==> Abandoned(j) in s.trace && h.kind.Async?)
    && (AfterPublish(h.pc) ==> h.kind.Sync? && j in s.inputs && Abandoned(j) !in s.trace)
    && (h.pc.Fetching? ==> RecordOk(s, j, h.pc.rec) && h.pc.rec.status.Completed?)
  }

  /** The input object outlives the job's need for it. */
  ghost predicate InputKept(s: State, j: JobId) {
    && (j in s.inputs && Abandoned(j) !in s.trace ==> InputKey(j) in s.objects || Settled(s, j))
    && (Settled(s, j) ==> j in s.inputs)
  }

  /** A notification finds its subscriber and is never taken back. */
  ghost predicate WakeUp(s: State, j: JobId, h: Handler) {
    && (Notified(j) in s.trace ==> j in s.inputs)
    && (h.pc.Waiting? && Notified(j) in s.trace ==> h.mail > 0)
    && (h.mail > 0 || h.pc.Reading? || h.pc.Fetching? ==> Notified(j) in s.trace)
    && (j in s.jobs && Notified(j) in s.trace ==> !s.jobs[j].status.Pending?)
  }

  /** Who may have removed the record: an outsider, a failed publish, or the woken handler itself. */
  ghost predicate Present(s: State, j: JobId, h: Handler) {
    && (j in s.inputs || h.pc.Subscribing? || h.pc.Publishing?)
    && Undisturbed(s, j)
    && !(h.pc.Closed? && Notified(j) in s.trace)
    ==> j in s.jobs
  }

  ghost predicate ContentsOk(s: State, j: JobId) {
    && (j in s.jobs ==> RecordOk(s, j, s.jobs[j]) && Gone(j) !in s.trace)
    && (j in s.jobs && !s.jobs[j].status.Pending? ==> Logged(s, j) || Abandoned(j) in s.trace)
    && (Swallowed(j) in s.trace ==> ResultPut(s, j))
    && (ResultPut(s, j) && ResultKey(j) !in s.objects ==> Cleaned(j) in s.trace)
    && (Cleaned(j) in s.trace ==> Delivered(j) in s.trace || Misread(j) in s.trace)
  }

  ghost predicate JobOk(s: State, j: JobId)
    requires j in s.gateway
  {
    var h := s.gateway[j];
    PlaceOk(s, j, h) && InputKept(s, j) && WakeUp(s, j, h) && Present(s, j, h) && ContentsOk(s, j)
  }

  /** A goroutine about to delete the record of the job is entitled to. */
  ghost predicate MayErase(s: State, j: JobId) {
    && j in s.gateway
    && (Disturbed(j) in s.trace
        || (s.gateway[j].pc.Closed? && (Notified(j) in s.trace || Abandoned(j) in s.trace)))
  }

  ghost predicate ThreadOk(s: State, th: Thread) {
    match th
    case Relay(_, sync, j, pc) =>
      && j in s.inputs
      && (pc.Gate? ==> !sync)
      && (pc.Announce? ==> ResultPut(s, j))
      && (pc.Discard? || pc.Ack? || pc == Leave(200) ==> Settled(s, j))
    case Applier(ev, pc) =>
      && ev in s.results
      && (!pc.Patch? && ev.id in s.jobs ==> !s.jobs[ev.id].status.Pending?)
    case Getter(j, pc) =>
      && Disturbed(j) in s.trace
      && (pc.Serve? ==> j in s.gateway && RecordOk(s, j, pc.rec) && pc.rec.status.Completed?)
    case Cleaner(j, task) =>
      match task
      case DropInput => Settled(s, j) || Abandoned(j) in s.trace
      case DropOrphan => MayErase(s, j) && Abandoned(j) in s.trace
      case DropResult => MayErase(s, j) && (Delivered(j) in s.trace || Misread(j) in s.trace)
      case DropRecord => MayErase(s, j)
  }

  /** Every object was put, and nothing mentions a job that no handler has created, except requests to read it. */
  ghost predicate Known(s: State) {
    && s.jobs.Keys <= s.gateway.Keys
    && s.inputs <= s.gateway.Keys
    && (forall k :: k in s.objects ==> Stored(k) in s.trace)
    && (forall f :: f in s.trace && !f.Disturbed? ==> FactId(f) in s.gateway)
    && (forall ev :: ev in s.results ==> EventOk(s, ev))
  }

  ghost predicate Inv(s: State) {
    && Known(s)
    && (forall j :: j in s.gateway ==> JobOk(s, j))
    && (forall t :: t in s.threads ==> ThreadOk(s, s.threads[t]))
  }

  // ---------------------------------------------------------------- what no step takes back

  /**
  Logs and history only grow, closed handlers stay closed, and a published job's record is
  neither reset nor recreated.
  */
  ghost predicate Grows(s: State, s': State) {
    && s.gateway.Keys <= s'.gateway.Keys
    && s.inputs <= s'.inputs
    && s.results <= s'.results
    && s.trace <= s'.trace
    && (forall j :: j in s.gateway && s.gateway[j].pc.Closed? ==> s'.gateway[j].pc.Closed?)
    && (forall j :: j in s.inputs && j in s'.jobs ==>
          j in s.jobs && (!s.jobs[j].status.Pending? ==> !s'.jobs[j].status.Pending?))
  }

  lemma ThreadGrows(s: State, s': State, th: Thread)
    requires Grows(s, s') && ThreadOk(s, th)
    requires forall ev :: ev in s.results ==> ev.id in s.inputs
    ensures ThreadOk(s', th)
  {
  }

  /** A step about another job leaves this one's entries alone. */
  ghost predicate Untouched(s: State, s': State, j: JobId) {
    && (j in s.gateway <==> j in s'.gateway) && (j in s.gateway ==> s'.gateway[j] == s.gateway[j])
    && (j in s'.jobs <==> j in s.jobs) && (j in s.jobs ==> s'.jobs[j] == s.jobs[j])
    && (InputKey(j) in s'.objects <==> InputKey(j) in s.objects)
    && (ResultKey(j) in s'.objects <==> ResultKey(j) in s.objects)
    && (j in s'.inputs <==> j in s.inputs)
    && (forall f :: FactId(f) == j ==> (f in s'.trace <==> f in s.trace))
    && (forall ev: ResultEvent :: ev.id == j ==> (ev in s'.results <==> ev in s.results))
  }

  lemma UntouchedOk(s: State, s': State, j: JobId)
    requires j in s.gateway && Untouched(s, s', j) && JobOk(s, j)
    ensures JobOk(s', j)
  {
    assert forall f :: FactId(f) == j && f in s.trace ==> f in s'.trace;
    assert Settled(s', j) <==> Settled(s, j);
  }

  lemma PerformUntouched(s: State, e: Effect, j: JobId)
    requires Target(e) != Some(j)
    ensures Untouched(s, Perform(s, e), j)
  {
  }

  /** The circumstances in which the handlers perform an effect. */
  ghost predicate EffectOk(s: State, e: Effect) {
    match e
    case SaveJob(j) => j in s.gateway && j !in s.inputs
    case UpdateJob(_, rec) => !rec.status.Pending?
    case PublishResult(ev) => EventOk(s, ev)
    case Note(f) => f.Disturbed? || FactId(f) in s.gateway
    case DeleteJob(_) => true
    case Nothing => true
    case _ => Target(e).value in s.gateway
  }

  lemma PerformGrows(s: State, e: Effect)
    requires Known(s) && EffectOk(s, e)
    ensures Grows(s, Perform(s, e)) && Known(Perform(s, e))
  {
  }

  /**
  A step that concerns job `j` and the threads `moved` keeps the invariant as soon as
  it does so for these.
  */
  lemma Framed(s: State, s': State, j: JobId, moved: set<Tid>)
    requires Inv(s) && Grows(s, s') && Known(s')
    requires forall k :: k != j ==> Untouched(s, s', k)
    requires j in s'.gateway ==> JobOk(s', j)
    requires forall t :: t in s'.threads && t !in moved ==> t in s.threads && s'.threads[t] == s.threads[t]
    requires forall t :: t in s'.threads && t in moved ==> ThreadOk(s', s'.threads[t])
    ensures Inv(s')
  {
    forall k | k in s'.gateway && k != j ensures JobOk(s', k) {
      assert Untouched(s, s', k);
      UntouchedOk(s, s', k);
    }
    forall t | t in s'.threads && t !in moved ensures ThreadOk(s', s'.threads[t]) {
      ThreadGrows(s, s', s.threads[t]);
    }
  }

  /** What relays, result handlers, readers and cleanups may do to a job. */
  ghost predicate Lawful(s: State, e: Effect, j: JobId) {
    match e
    case Nothing => true
    case PutObject(k) => k == ResultKey(j) && j in s.inputs
    case DeleteObject(InputKey(i)) => i == j && (Settled(s, j) || Abandoned(j) in s.trace)
    case DeleteObject(ResultKey(i)) => i == j && (Delivered(j) in s.trace || Misread(j) in s.trace)
    case UpdateJob(i, rec) =>
      i == j && !rec.status.Pending? && RecordOk(s, j, rec) && (Logged(s, j) || Abandoned(j) in s.trace)
    case DeleteJob(i) => i == j && MayErase(s, j)
    case PublishResult(ev) => ev.id == j && EventOk(s, ev)
    case NotifyDone(i) => i == j && j in s.inputs && (j in s.jobs ==> !s.jobs[j].status.Pending?)
    case ExpireJob(i) => i == j && j in s.jobs
    case Note(f) =>
      FactId(f) == j
      && (f.Delivered? || f.Misread? || f.Disturbed? || (f.Swallowed? && ResultPut(s, j) && j in s.inputs))
    case _ => false
  }

  lemma LawfulPlace(s: State, e: Effect, j: JobId)
    requires j in s.gateway && JobOk(s, j) && Lawful(s, e, j)
    ensures var s' := Perform(s, e);
      j in s'.gateway && PlaceOk(s', j, s'.gateway[j]) && ContentsOk(s', j)
  {
    assert s.gateway[j].pc.Saving? ==> j !in s.jobs;
  }

  lemma LawfulWakeUp(s: State, e: Effect, j: JobId)
    requires j in s.gateway && JobOk(s, j) && Lawful(s, e, j)
    ensures var s' := Perform(s, e);
      j in s'.gateway && InputKept(s', j) && WakeUp(s', j, s'.gateway[j]) && Present(s', j, s'.gateway[j])
  {
    assert Settled(s, j) ==> Settled(Perform(s, e), j);
  }

  /** No fact depends on which threads exist or on the priority counters. */
  lemma Rethread(s: State, s': State)
    requires s' == s.(threads := s'.threads, priority := s'.priority)
    ensures Known(s) ==> Known(s')
    ensures forall j :: j in s.gateway && JobOk(s, j) ==> JobOk(s', j)
    ensures forall th :: ThreadOk(s, th) ==> ThreadOk(s', th)
    ensures forall s0 :: Grows(s0, s) ==> Grows(s0, s')
  {
    forall j ensures Settled(s', j) <==> Settled(s, j) {
    }
  }

  /** A lawful effect followed by any change of threads that are themselves in order. */
  lemma Assemble(s: State, e: Effect, s': State, j: JobId, moved: set<Tid>)
    requires Inv(s) && Lawful(s, e, j) && (e.Nothing? || j in s.gateway || e == Note(Disturbed(j)))
    requires s' == Perform(s, e).(threads := s'.threads, priority := s'.priority)
    requires forall t :: t in s'.threads && t !in moved ==> t in s.threads && s'.threads[t] == s.threads[t]
    requires forall t :: t in s'.threads && t in moved ==> ThreadOk(Perform(s, e), s'.threads[t])
    ensures Grows(s, s') && Inv(s')
  {
    PerformGrows(s, e);
    if j in s.gateway {
      LawfulPlace(s, e, j);
      LawfulWakeUp(s, e, j);
    }
    Rethread(Perform(s, e), s');
    forall k | k != j ensures Untouched(s, s', k) {
      PerformUntouched(s, e, k);
    }
    Framed(s, s', j, moved);
  }

  // ---------------------------------------------------------------- gateway steps

  lemma GatewayEffect(s: State, j: JobId, o: Outcome)
    requires j in s.gateway && JobOk(s, j)
    ensures EffectOk(s, GatewayMove(s, j, o).effect)
    ensures GatewayMove(s, j, o).effect.Nothing? || Target(GatewayMove(s, j, o).effect) == Some(j)
  {
  }

  lemma StoringJob(s: State, j: JobId, o: Outcome, spawn: Tid)
    requires j in s.gateway && JobOk(s, j)
    requires s.gateway[j].pc.Uploading? || s.gateway[j].pc.Saving?
    ensures JobOk(GatewayNext(s, j, o, spawn), j)
  {
    assert Settled(GatewayNext(s, j, o, spawn), j) <==> Settled(s, j);
  }

  lemma PublishingJob(s: State, j: JobId, o: Outcome, spawn: Tid)
    requires j in s.gateway && JobOk(s, j)
    requires s.gateway[j].pc.Publishing? && o.Ok?
    ensures JobOk(GatewayNext(s, j, o, spawn), j)
  {
    assert Settled(GatewayNext(s, j, o, spawn), j) <==> Settled(s, j);
  }

  lemma UnpublishedJob(s: State, j: JobId, o: Outcome, spawn: Tid)
    requires j in s.gateway && JobOk(s, j)
    requires s.gateway[j].pc.Publishing? && o.Err?
    ensures JobOk(GatewayNext(s, j, o, spawn), j)
  {
    var m := GatewayMove(s, j, o);
    var s1 := Goto(Perform(s, m.effect), j, m.pc);
    AbandonedJob(s, j, o.applied, m.pc);
    Rethread(s1, GatewayNext(s, j, o, spawn));
  }

  lemma AbandonedJob(s: State, j: JobId, applied: bool, pc: GatewayPc)
    requires j in s.gateway && JobOk(s, j) && s.gateway[j].pc.Publishing?
    requires pc == if s.gateway[j].kind.Sync? then Closed(500) else Compensating
    ensures JobOk(Goto(Perform(s, LosePublish(j, applied)), j, pc), j)
  {
    assert Settled(Goto(Perform(s, LosePublish(j, applied)), j, pc), j) <==> Settled(s, j);
  }

  lemma SubscribingJob(s: State, j: JobId, o: Outcome, spawn: Tid)
    requires j in s.gateway && JobOk(s, j) && s.gateway[j].pc.Subscribing?
    ensures JobOk(GatewayNext(s, j, o, spawn), j)
  {
    assert Settled(GatewayNext(s, j, o, spawn), j) <==> Settled(s, j);
  }

  lemma MovedOn(s: State, j: JobId, pc: GatewayPc)
    requires j in s.gateway && JobOk(s, j) && !BeforePublish(s.gateway[j].pc)
    requires pc == s.gateway[j].pc || pc.Closed?
      || (pc.Reading? && s.gateway[j].pc.Waiting? && s.gateway[j].mail > 0)
      || (pc.Fetching? && s.gateway[j].pc.Reading? && RecordOk(s, j, pc.rec) && pc.rec.status.Completed?)
    ensures JobOk(Goto(s, j, pc), j)
  {
    assert Settled(Goto(s, j, pc), j) <==> Settled(s, j);
  }

  lemma FinishingEffect(s: State, j: JobId, o: Outcome)
    requires j in s.gateway && JobOk(s, j) && !BeforePublish(s.gateway[j].pc)
    ensures Lawful(s, GatewayMove(s, j, o).effect, j)
  {
  }

  /** Where the handler goes from a published job. */
  lemma FinishingPlace(s: State, j: JobId, o: Outcome)
    requires j in s.gateway && JobOk(s, j) && !BeforePublish(s.gateway[j].pc)
    ensures var m, h := GatewayMove(s, j, o), s.gateway[j];
      m.pc == h.pc || m.pc.Closed?
      || (m.pc.Reading? && h.pc.Waiting? && h.mail > 0)
      || (m.pc.Fetching? && h.pc.Reading? && RecordOk(Perform(s, m.effect), j, m.pc.rec) && m.pc.rec.status.Completed?)
  {
  }

  lemma FinishingJob(s: State, j: JobId, o: Outcome, spawn: Tid)
    requires j in s.gateway && JobOk(s, j) && !BeforePublish(s.gateway[j].pc)
    ensures JobOk(GatewayNext(s, j, o, spawn), j)
  {
    var m := GatewayMove(s, j, o);
    FinishingMove(s, j, o);
    Rethread(Goto(Perform(s, m.effect), j, m.pc), GatewayNext(s, j, o, spawn));
  }

  lemma FinishingMove(s: State, j: JobId, o: Outcome)
    requires j in s.gateway && JobOk(s, j) && !BeforePublish(s.gateway[j].pc)
    ensures var m := GatewayMove(s, j, o);
      j in Perform(s, m.effect).gateway && JobOk(Goto(Perform(s, m.effect), j, m.pc), j)
  {
    var m := GatewayMove(s, j, o);
    FinishingEffect(s, j, o);
    LawfulPlace(s, m.effect, j);
    LawfulWakeUp(s, m.effect, j);
    FinishingPlace(s, j, o);
    MovedOn(Perform(s, m.effect), j, m.pc);
  }

  lemma GatewaySpawn(s: State, j: JobId, o: Outcome, spawn: Tid)
    requires j in s.gateway && JobOk(s, j) && GatewayMove(s, j, o).spawn.Some?
    ensures ThreadOk(GatewayNext(s, j, o, spawn), Cleaner(j, GatewayMove(s, j, o).spawn.value))
  {
  }

  lemma GatewayJob(s: State, j: JobId, o: Outcome, spawn: Tid)
    requires j in s.gateway && JobOk(s, j)
    ensures JobOk(GatewayNext(s, j, o, spawn), j)
  {
    match s.gateway[j].pc
    case Uploading => StoringJob(s, j, o, spawn);
    case Saving => StoringJob(s, j, o, spawn);
    case Subscribing => SubscribingJob(s, j, o, spawn);
    case Publishing =>
      if o.Ok? {
        PublishingJob(s, j, o, spawn);
      } else {
        UnpublishedJob(s, j, o, spawn);
      }
    case _ => FinishingJob(s, j, o, spawn);
  }

  /** Where a handler stands matters to its own job only. */
  lemma GotoGrows(s: State, s1: State, s': State, j: JobId, pc: GatewayPc)
    requires Grows(s, s1) && Known(s1) && j in s1.gateway
    requires forall k :: k != j ==> Untouched(s, s1, k)
    requires j in s.gateway && s.gateway[j].pc.Closed? ==> pc.Closed?
    requires s' == Goto(s1, j, pc).(threads := s'.threads)
    ensures Grows(s, s') && Known(s')
    ensures forall k :: k != j ==> Untouched(s, s', k)
  {
    forall k | k != j ensures Untouched(s, s', k) {
      assert Untouched(s, s1, k);
    }
  }

  /** The gateway's counterpart of `Assemble`: the handler of `j` moves and may spawn a goroutine. */
  lemma AssembleGateway(s: State, e: Effect, s': State, j: JobId, pc: GatewayPc, spawn: set<Tid>)
    requires Inv(s) && EffectOk(s, e) && (e.Nothing? || Target(e) == Some(j))
    requires j in s.gateway && j in Perform(s, e).gateway && (s.gateway[j].pc.Closed? ==> pc.Closed?)
    requires s' == Goto(Perform(s, e), j, pc).(threads := s'.threads)
    requires JobOk(s', j)
    requires forall t :: t in s'.threads && t !in spawn ==> t in s.threads && s'.threads[t] == s.threads[t]
    requires forall t :: t in s'.threads && t in spawn ==> ThreadOk(s', s'.threads[t])
    ensures Grows(s, s') && Inv(s')
  {
    var s1 := Perform(s, e);
    PerformGrows(s, e);
    forall k | k != j ensures Untouched(s, s1, k) {
      PerformUntouched(s, e, k);
    }
    GotoGrows(s, s1, s', j, pc);
    Framed(s, s', j, spawn);
  }

  /** The handler's move changes nothing else but the goroutine it spawns. */
  lemma GatewayShape(s: State, j: JobId, o: Outcome, spawn: Tid)
    requires j in s.gateway && spawn !in s.threads
    ensures var m, s' := GatewayMove(s, j, o), GatewayNext(s, j, o, spawn);
      && j in Perform(s, m.effect).gateway && (s.gateway[j].pc.Closed? ==> m.pc.Closed?)
      && s' == Goto(Perform(s, m.effect), j, m.pc).(threads := s'.threads)
      && s'.threads == if m.spawn.Some? then s.threads[spawn := Cleaner(j, m.spawn.value)] else s.threads
  {
    PerformThreads(s, GatewayMove(s, j, o).effect);
  }

  lemma GatewayInv(s: State, j: JobId, o: Outcome, spawn: Tid)
    requires Inv(s) && j in s.gateway && spawn !in s.threads
    ensures Grows(s, GatewayNext(s, j, o, spawn)) && Inv(GatewayNext(s, j, o, spawn))
  {
    var m := GatewayMove(s, j, o);
    GatewayEffect(s, j, o);
    GatewayShape(s, j, o, spawn);
    GatewayJob(s, j, o, spawn);
    if m.spawn.Some? {
      GatewaySpawn(s, j, o, spawn);
    }
    AssembleGateway(s, m.effect, GatewayNext(s, j, o, spawn), j, m.pc, if m.spawn.Some? then {spawn} else {});
  }

  // ---------------------------------------------------------------- thread steps

  /** What is known about the job a thread works for. */
  ghost predicate Ready(s: State, th: Thread) {
    && ThreadOk(s, th)
    && (Subject(th) in s.gateway ==> JobOk(s, Subject(th)))
    && (th.Relay? || th.Applier? || th.Cleaner? || th.getPc.Serve? ==> Subject(th) in s.gateway)
    && (Subject(th) in s.jobs ==> Subject(th) in s.gateway)
    && (th.Applier? ==> EventOk(s, th.ev))
  }

  lemma ThreadReady(s: State, t: Tid)
    requires Inv(s) && t in s.threads
    ensures Ready(s, s.threads[t])
  {
    assert ThreadOk(s, s.threads[t]);
  }

  lemma ThreadEffect(s: State, th: Thread, o: Outcome)
    requires Ready(s, th)
    ensures Lawful(s, ThreadMove(s, th, o).effect, Subject(th))
  {
  }

  /** The thread's next form, and the goroutine it spawns, are in order. */
  ghost predicate MovedOk(s: State, th: Thread, o: Outcome) {
    var m := ThreadMove(s, th, o);
    && (m.pc.Some? ==> ThreadOk(Perform(s, m.effect), m.pc.value))
    && (m.spawn.Some? ==> ThreadOk(Perform(s, m.effect), Cleaner(Subject(th), m.spawn.value)))
  }

  lemma SettledStays(s: State, e: Effect, j: JobId)
    requires Settled(s, j)
    ensures Settled(Perform(s, e), j)
  {
    if Logged(s, j) {
      assert Logged(Perform(s, e), j);
    }
  }

  /** The relay's next form is in order after one of the calls that settle a job. */
  lemma PublisherForm(s: State, th: Thread, o: Outcome)
    requires Ready(s, th) && th.Relay? && (th.relayPc.Announce? || th.relayPc.Report?)
    ensures ThreadOk(Perform(s, ThreadMove(s, th, o).effect), ThreadMove(s, th, o).pc.value)
  {
  }

  lemma RelayForm(s: State, th: Thread, o: Outcome)
    requires Ready(s, th) && th.Relay?
    ensures var m := ThreadMove(s, th, o);
      m.pc.Some? ==> ThreadOk(Perform(s, m.effect), m.pc.value)
  {
    if th.relayPc.Announce? || th.relayPc.Report? {
      PublisherForm(s, th, o);
    } else if Settled(s, Subject(th)) {
      SettledStays(s, ThreadMove(s, th, o).effect, Subject(th));
    }
  }

  lemma RelaySpawn(s: State, th: Thread, o: Outcome)
    requires Ready(s, th) && th.Relay?
    ensures var m := ThreadMove(s, th, o);
      m.spawn.Some? ==> ThreadOk(Perform(s, m.effect), Cleaner(Subject(th), m.spawn.value))
  {
    var m := ThreadMove(s, th, o);
    if m.spawn.Some? {
      assert th.relayPc == Ack && m.effect == Nothing;
    }
  }

  lemma RelayMoved(s: State, th: Thread, o: Outcome)
    requires Ready(s, th) && th.Relay?
    ensures MovedOk(s, th, o)
  {
    RelayForm(s, th, o);
    RelaySpawn(s, th, o);
  }

  lemma CleanerMoved(s: State, th: Thread, o: Outcome)
    requires Ready(s, th) && th.Cleaner?
    ensures MovedOk(s, th, o)
  {
    var s' := Perform(s, ThreadMove(s, th, o).effect);
    assert Settled(s, Subject(th)) ==> Settled(s', Subject(th));
  }

  lemma ApplierMoved(s: State, th: Thread, o: Outcome)
    requires Ready(s, th) && th.Applier?
    ensures MovedOk(s, th, o)
  {
  }

  lemma GetterMoved(s: State, th: Thread, o: Outcome)
    requires Ready(s, th) && th.Getter?
    ensures MovedOk(s, th, o)
  {
    var s' := Perform(s, ThreadMove(s, th, o).effect);
    assert Settled(s, Subject(th)) ==> Settled(s', Subject(th));
  }

  /** `Assemble` for a thread that takes the move `m`. */
  lemma AssembleStep(s: State, t: Tid, th: Thread, m: Move<Option<Thread>>, spawn: Tid)
    requires Inv(s) && t in s.threads && spawn !in s.threads
    requires Lawful(s, m.effect, Subject(th)) && (m.effect.Nothing? || Subject(th) in s.gateway)
    requires m.pc.Some? ==> ThreadOk(Perform(s, m.effect), m.pc.value)
    requires m.spawn.Some? ==> ThreadOk(Perform(s, m.effect), Cleaner(Subject(th), m.spawn.value))
    ensures var s' := Resume(Perform(s, m.effect), t, th, m, spawn); Grows(s, s') && Inv(s')
  {
    PerformThreads(s, m.effect);
    ResumeShape(Perform(s, m.effect), t, th, m, spawn);
    Assemble(s, m.effect, Resume(Perform(s, m.effect), t, th, m, spawn), Subject(th), {t, spawn});
  }

  lemma StepInv(s: State, t: Tid, o: Outcome, spawn: Tid)
    requires Inv(s) && t in s.threads && spawn !in s.threads
    ensures Grows(s, Step(s, t, o, spawn)) && Inv(Step(s, t, o, spawn))
  {
    var th := s.threads[t];
    ThreadReady(s, t);
    ThreadEffect(s, th, o);
    match th {
      case Relay(_, _, _, _) => RelayMoved(s, th, o);
      case Cleaner(_, _) => CleanerMoved(s, th, o);
      case Applier(_, _) => ApplierMoved(s, th, o);
      case Getter(_, _) => GetterMoved(s, th, o);
    }
    AssembleStep(s, t, th, ThreadMove(s, th, o), spawn);
  }

  // ---------------------------------------------------------------- the other actions

  lemma ArrivedJob(s: State, j: JobId, kind: Kind)
    requires Inv(s) && j !in s.gateway
    ensures JobOk(Next(s, Arrive(j, kind)), j)
  {
    assert forall ev :: ev in s.results ==> ev.id != j;
  }

  lemma ArriveInv(s: State, j: JobId, kind: Kind)
    requires Inv(s) && j !in s.gateway
    ensures Grows(s, Next(s, Arrive(j, kind))) && Inv(Next(s, Arrive(j, kind)))
  {
    var s' := Next(s, Arrive(j, kind));
    ArrivedJob(s, j, kind);
    Framed(s, s', j, {});
  }

  lemma CrashInv(s: State, j: JobId)
    requires Inv(s) && j in s.gateway && !s.gateway[j].pc.Closed?
    ensures Grows(s, Goto(s, j, Closed(0))) && Inv(Goto(s, j, Closed(0)))
  {
    var s' := Goto(s, j, Closed(0));
    ClosedJob(s, j);
    GotoGrows(s, s, s', j, Closed(0));
    Framed(s, s', j, {});
  }

  lemma ClosedJob(s: State, j: JobId)
    requires j in s.gateway && JobOk(s, j)
    ensures JobOk(Goto(s, j, Closed(0)), j)
  {
    assert Settled(Goto(s, j, Closed(0)), j) <==> Settled(s, j);
  }

  lemma GrowsTransitive(s: State, s1: State, s2: State)
    requires Grows(s, s1) && Grows(s1, s2)
    ensures Grows(s, s2)
  {
  }

  lemma DeliverInv(s: State, t: Tid, pod: Pod, sync: bool, j: JobId)
    requires Inv(s) && Enabled(s, Deliver(t, pod, sync, j))
    ensures Grows(s, Next(s, Deliver(t, pod, sync, j))) && Inv(Next(s, Deliver(t, pod, sync, j)))
  {
    Assemble(s, Nothing, Next(s, Deliver(t, pod, sync, j)), j, {t});
  }

  lemma ConsumeInv(s: State, t: Tid, ev: ResultEvent)
    requires Inv(s) && Enabled(s, Consume(t, ev))
    ensures Grows(s, Next(s, Consume(t, ev))) && Inv(Next(s, Consume(t, ev)))
  {
    Assemble(s, Nothing, Next(s, Consume(t, ev)), ev.id, {t});
  }

  /** A new thread, lawful where it starts. */
  lemma NewThreadInv(s: State, a: Action)
    requires Inv(s) && Enabled(s, a) && (a.Deliver? || a.Consume?)
    ensures Grows(s, Next(s, a)) && Inv(Next(s, a))
  {
    if a.Deliver? {
      DeliverInv(s, a.t, a.pod, a.sync, a.j);
    } else {
      ConsumeInv(s, a.t, a.ev);
    }
  }

  lemma LossInv(s: State, a: Action)
    requires Inv(s) && Enabled(s, a) && (a.PodCrash? || a.Crash? || a.Expire?)
    ensures Grows(s, Next(s, a)) && Inv(Next(s, a))
  {
    match a
    case PodCrash(_) => Assemble(s, Nothing, Next(s, a), 0, {});
    case Crash(_) => Assemble(s, Nothing, Next(s, a), 0, {});
    case Expire(j) => Assemble(s, ExpireJob(j), Next(s, a), j, {});
  }

  /** Every action keeps the invariant and takes nothing back. */
  lemma NextInv(s: State, a: Action)
    requires Inv(s)
    ensures Grows(s, Next(s, a)) && Inv(Next(s, a))
  {
    if Enabled(s, a) {
      match a
      case Arrive(j, kind) => ArriveInv(s, j, kind);
      case Gateway(j, o, spawn) => GatewayInv(s, j, o, spawn);
      case GatewayCrash(j) => CrashInv(s, j);
      case Advance(t, o, spawn) => StepInv(s, t, o, spawn);
      case Deliver(_, _, _, _) => NewThreadInv(s, a);
      case Consume(_, _) => NewThreadInv(s, a);
      case Get(t, j) => Assemble(s, Note(Disturbed(j)), Next(s, a), j, {t});
      case _ => LossInv(s, a);
    }
  }

  lemma {:induction false} RunInv(s: State, acts: seq<Action>)
    requires Inv(s)
    ensures Grows(s, Run(s, acts)) && Inv(Run(s, acts))
    decreases |acts|
  {
    if acts != [] {
      NextInv(s, acts[0]);
      RunInv(Next(s, acts[0]), acts[1..]);
      GrowsTransitive(s, Next(s, acts[0]), Run(s, acts));
    }
  }

  // ---------------------------------------------------------------- steps as effects on the services

  /** What an action does to the services. */
  function EffectOf(s: State, a: Action): Effect {
    if !Enabled(s, a) then Nothing else
    match a
    case Gateway(j, o, _) => GatewayMove(s, j, o).effect
    case Advance(t, o, _) => ThreadMove(s, s.threads[t], o).effect
    case Get(_, j) => Note(Disturbed(j))
    case Expire(j) => ExpireJob(j)
    case _ => Nothing
  }

  ghost predicate SameServices(s: State, s': State) {
    && s'.jobs == s.jobs && s'.objects == s.objects && s'.inputs == s.inputs
    && s'.results == s.results && s'.trace == s.trace
  }

  lemma BookkeepingOnly(s: State, j: JobId, pc: GatewayPc, t: Tid, th: Thread, m: Move<Option<Thread>>,
                        spawn: Tid, task: Option<Task>)
    ensures SameServices(s, Resume(s, t, th, m, spawn))
    ensures j in s.gateway ==> SameServices(s, Spawn(Goto(s, j, pc), spawn, j, task))
  {
  }

  lemma NextIsEffect(s: State, a: Action)
    ensures SameServices(Perform(s, EffectOf(s, a)), Next(s, a))
  {
    if Enabled(s, a) {
      match a
      case Gateway(j, o, spawn) =>
        var m := GatewayMove(s, j, o);
        assert j in Perform(s, m.effect).gateway;
        BookkeepingOnly(Perform(s, m.effect), j, m.pc, 0, Getter(0, Lookup), Move(Nothing, None, None), spawn, m.spawn);
      case Advance(t, o, spawn) =>
        var m := ThreadMove(s, s.threads[t], o);
        BookkeepingOnly(Perform(s, m.effect), 0, Uploading, t, s.threads[t], m, spawn, None);
      case _ =>
    }
  }

  /** Every effect of a reachable state is one the invariant accounts for. */
  ghost predicate Accounted(s: State, e: Effect) {
    && (e.SaveJob? ==> e.id !in s.jobs)
    && (e.UpdateJob? ==> !e.rec.status.Pending?)
    && (e.UpdateJob? ==>
          || (exists ev :: ev in s.results && ev.id == e.id && Reports(ev, e.rec))
          || (Abandoned(e.id) in s.trace && e.rec == Record(Failed, None, "failed to enqueue")))
  }

  /** The record says what the event says. */
  predicate Reports(ev: ResultEvent, rec: Record) {
    rec.status == ev.status && rec.ref == ev.ref && rec.error == ev.error
  }

  lemma GatewayAccounted(s: State, j: JobId, o: Outcome)
    requires j in s.gateway && JobOk(s, j)
    ensures Accounted(s, GatewayMove(s, j, o).effect)
  {
  }

  lemma ThreadAccounted(s: State, th: Thread, o: Outcome)
    requires Ready(s, th)
    ensures Accounted(s, ThreadMove(s, th, o).effect)
  {
  }

  lemma EffectAccounted(s: State, a: Action)
    requires Inv(s)
    ensures Accounted(s, EffectOf(s, a))
  {
    if Enabled(s, a) {
      match a
      case Gateway(j, o, _) => GatewayAccounted(s, j, o);
      case Advance(t, o, _) => ThreadReady(s, t); ThreadAccounted(s, s.threads[t], o);
      case _ =>
    }
  }
}
