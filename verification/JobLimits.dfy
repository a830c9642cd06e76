/** Runs that show where the job protocol promises less than its comments suggest. */
module JobLimits {
  import opened Wrappers
  import opened Protocol
  import opened ProtocolInvariant

  const LOST := Err(false, "unreachable")
  const LOST_REPLY := Err(true, "unreachable")

  function Job(kind: Kind, pc: GatewayPc): map<JobId, Handler> {
    map[0 := Handler(kind, pc, 0)]
  }

  const PENDING_RECORD := Record(Pending, None, "")
  const COMPLETED_RECORD := Record(Completed, Some(ResultKey(0)), "")

  /** Job 0 has been accepted with 202 and nothing else has happened. */
  const ACCEPTED := State(
    map[0 := PENDING_RECORD], {InputKey(0)}, {0}, {},
    {Stored(InputKey(0))},
    Job(Async, Closed(202)),
    map[],
    map[])

  function Submission(): seq<Action> {
    [Arrive(0, Async), Gateway(0, Ok, 9), Gateway(0, Ok, 9), Gateway(0, Ok, 9)]
  }

  lemma {:induction false} RunConcat(s: State, a: seq<Action>, b: seq<Action>)
    ensures Run(s, a + b) == Run(Run(s, a), b)
    decreases |a|
  {
    if a == [] {
      assert a + b == b;
    } else {
      assert (a + b)[1..] == a[1..] + b;
      RunConcat(Next(s, a[0]), a[1..], b);
    }
  }

  lemma RunTwo(s: State, a: Action, b: Action)
    ensures Run(s, [a, b]) == Next(Next(s, a), b)
  {
    assert [a, b][1..] == [b];
    assert Run(Next(s, a), [b]) == Run(Next(Next(s, a), b), []);
  }

  lemma Via(start: State, a: seq<Action>, mid: State, b: seq<Action>, end: State)
    requires Run(start, a) == mid && Run(mid, b) == end
    ensures Run(start, a + b) == end
  {
    RunConcat(start, a, b);
  }

  lemma SubmissionAccepted()
    ensures Run(Init(), Submission()) == ACCEPTED
  {
    var s1 := Next(Init(), Arrive(0, Async));
    var s2 := Next(s1, Gateway(0, Ok, 9));
    RunTwo(Init(), Arrive(0, Async), Gateway(0, Ok, 9));
    RunTwo(s2, Gateway(0, Ok, 9), Gateway(0, Ok, 9));
    RunConcat(Init(), [Arrive(0, Async), Gateway(0, Ok, 9)], [Gateway(0, Ok, 9), Gateway(0, Ok, 9)]);
    assert Submission() == [Arrive(0, Async), Gateway(0, Ok, 9)] + [Gateway(0, Ok, 9), Gateway(0, Ok, 9)];
  }

  /** The relay has stored the result of job 0 and is about to publish the completed event. */
  const ANNOUNCING := State(
    map[0 := PENDING_RECORD], {InputKey(0), ResultKey(0)}, {0}, {},
    {Stored(InputKey(0)), Stored(ResultKey(0))},
    Job(Async, Closed(202)),
    map[1 := Relay(0, false, 0, Announce)],
    map[])

  const DELIVERY := [Deliver(1, 0, false, 0), Advance(1, Ok, 9)]
  const INFERENCE := [Advance(1, Ok, 9), Advance(1, Ok, 9)]

  lemma AcceptedAnnounces()
    ensures Run(ACCEPTED, DELIVERY + INFERENCE + [Advance(1, Ok, 9)]) == ANNOUNCING
  {
    RunTwo(ACCEPTED, DELIVERY[0], DELIVERY[1]);
    var s1 := Run(ACCEPTED, DELIVERY);
    RunTwo(s1, INFERENCE[0], INFERENCE[1]);
    RunConcat(ACCEPTED, DELIVERY, INFERENCE);
    RunConcat(ACCEPTED, DELIVERY + INFERENCE, [Advance(1, Ok, 9)]);
    var s2 := Run(ACCEPTED, DELIVERY + INFERENCE);
    assert s2.threads == map[1 := Relay(0, false, 0, Put)];
    assert Run(s2, [Advance(1, Ok, 9)]) == Run(Next(s2, Advance(1, Ok, 9)), []);
  }

  function ToAnnouncing(): seq<Action> {
    Submission() + (DELIVERY + INFERENCE + [Advance(1, Ok, 9)])
  }

  lemma ReachesAnnouncing()
    ensures Run(Init(), ToAnnouncing()) == ANNOUNCING
  {
    SubmissionAccepted();
    AcceptedAnnounces();
    RunConcat(Init(), Submission(), DELIVERY + INFERENCE + [Advance(1, Ok, 9)]);
  }

  // ---------------------------------------------------------------- a completed event that is never published

  /**
  The job is accepted and its record pending, but its input is gone, no event was ever
  published for it, and nobody is left who could publish one.
  */
  ghost predicate Stuck(s: State, j: JobId) {
    && j in s.inputs && InputKey(j) !in s.objects
    && j in s.gateway && s.gateway[j].pc.Closed?
    && (forall ev :: ev in s.results ==> ev.id != j)
    && (j in s.jobs ==> s.jobs[j] == PENDING_RECORD)
    && (forall t :: t in s.threads ==> Harmless(s.threads[t], j))
  }

  predicate Harmless(th: Thread, j: JobId) {
    Subject(th) == j ==>
      && !th.Applier?
      && (th.Relay? ==> th.relayPc.Gate? || th.relayPc.Fetch? || th.relayPc.Leave?)
  }

  /** What an effect must not do to a stuck job. */
  predicate Idle(e: Effect, j: JobId) {
    Target(e) == Some(j) ==> !e.UpdateJob? && !e.PublishResult? && !e.SaveJob? && e != PutObject(InputKey(j))
  }

  /** Without its input object, no request about the job gets past the download. */
  lemma HarmlessMove(s: State, th: Thread, o: Outcome, j: JobId)
    requires Harmless(th, j) && InputKey(j) !in s.objects
    ensures var m := ThreadMove(s, th, o);
      Idle(m.effect, j) && (m.pc.Some? ==> Harmless(m.pc.value, j))
  {
  }

  lemma ResumeStuck(s: State, t: Tid, th: Thread, m: Move<Option<Thread>>, spawn: Tid, j: JobId)
    requires Stuck(s, j) && t in s.threads && spawn !in s.threads
    requires m.pc.Some? ==> Harmless(m.pc.value, j)
    ensures Stuck(Resume(s, t, th, m, spawn), j)
  {
    ResumeShape(s, t, th, m, spawn);
  }

  lemma StuckThread(s: State, t: Tid, o: Outcome, spawn: Tid, j: JobId)
    requires Stuck(s, j) && t in s.threads && spawn !in s.threads
    ensures Stuck(Step(s, t, o, spawn), j)
  {
    var m := ThreadMove(s, s.threads[t], o);
    HarmlessMove(s, s.threads[t], o, j);
    PerformThreads(s, m.effect);
    PerformStuck(s, m.effect, j);
    ResumeStuck(Perform(s, m.effect), t, s.threads[t], m, spawn, j);
  }

  /** Effects of harmless threads and of other jobs' handlers leave the job stuck. */
  lemma PerformStuck(s: State, e: Effect, j: JobId)
    requires Stuck(s, j) && Idle(e, j)
    ensures Stuck(Perform(s, e), j)
  {
  }

  lemma StuckStays(s: State, a: Action, j: JobId)
    requires Stuck(s, j)
    ensures Stuck(Next(s, a), j)
  {
    if Enabled(s, a) {
      match a
      case Gateway(i, o, spawn) => StuckGateway(s, i, o, spawn, j);
      case Advance(t, o, spawn) => StuckThread(s, t, o, spawn, j);
      case _ =>
    }
  }

  lemma StuckGateway(s: State, i: JobId, o: Outcome, spawn: Tid, j: JobId)
    requires Stuck(s, j) && i in s.gateway && spawn !in s.threads
    ensures Stuck(GatewayNext(s, i, o, spawn), j)
  {
    PerformStuck(s, GatewayMove(s, i, o).effect, j);
  }

  /** However the run goes on, the job's record is never decided and no event of it is ever published. */
  lemma {:induction false} StuckForever(s: State, acts: seq<Action>, j: JobId)
    requires Stuck(s, j)
    ensures var s' := Run(s, acts);
      && (forall ev :: ev in s'.results ==> ev.id != j)
      && (j in s'.jobs ==> s'.jobs[j] == PENDING_RECORD)
    decreases |acts|
  {
    if acts != [] {
      StuckStays(s, acts[0], j);
      StuckForever(Next(s, acts[0]), acts[1..], j);
    }
  }

  const LOSING_ANNOUNCE := [Advance(1, LOST, 9), Advance(1, Ok, 2)]
  const RETIRING := [Advance(1, Ok, 9), Advance(2, Ok, 9)]

  /** The publish has failed and been swallowed; the request has answered 200. */
  const ACKNOWLEDGED := State(
    map[0 := PENDING_RECORD], {InputKey(0), ResultKey(0)}, {0}, {},
    {Stored(InputKey(0)), Stored(ResultKey(0)), Swallowed(0)},
    Job(Async, Closed(202)),
    map[1 := Relay(0, false, 0, Leave(200)), 2 := Cleaner(0, DropInput)],
    map[])

  lemma LosesAnnounce()
    ensures Run(ANNOUNCING, LOSING_ANNOUNCE) == ACKNOWLEDGED
  {
    RunTwo(ANNOUNCING, LOSING_ANNOUNCE[0], LOSING_ANNOUNCE[1]);
  }

  lemma Retires()
    ensures Stuck(Run(ACKNOWLEDGED, RETIRING), 0) && Run(ACKNOWLEDGED, RETIRING).jobs == map[0 := PENDING_RECORD]
    ensures Abandoned(0) !in Run(ACKNOWLEDGED, RETIRING).trace
  {
    RunTwo(ACKNOWLEDGED, RETIRING[0], RETIRING[1]);
  }

  /** The relay swallows a failed publish of a completed event, answers 200 and deletes the input. */
  lemma CompletedEventCanBeLost() returns (acts: seq<Action>)
    ensures Stuck(Run(Init(), acts), 0) && 0 in Run(Init(), acts).jobs
    ensures Abandoned(0) !in Run(Init(), acts).trace
  {
    acts := ToAnnouncing() + LOSING_ANNOUNCE + RETIRING;
    ReachesAnnouncing();
    LosesAnnounce();
    Retires();
    RunConcat(Init(), ToAnnouncing(), LOSING_ANNOUNCE);
    RunConcat(Init(), ToAnnouncing() + LOSING_ANNOUNCE, RETIRING);
  }

  // ---------------------------------------------------------------- a publish that failed but was applied

  const COMPENSATED := State(
    map[0 := PENDING_RECORD], {InputKey(0)}, {0}, {},
    {Stored(InputKey(0)), Abandoned(0)},
    Job(Async, Compensating),
    map[],
    map[])

  const STORING := [Arrive(0, Async), Gateway(0, Ok, 9)]
  const MISLEADING := [Gateway(0, Ok, 9), Gateway(0, LOST_REPLY, 9)]
  const DISCARDING := [Gateway(0, Ok, 2), Advance(2, Ok, 9)]

  lemma ReachesCompensated()
    ensures Run(Init(), STORING + MISLEADING) == COMPENSATED
  {
    RunTwo(Init(), STORING[0], STORING[1]);
    RunConcat(Init(), STORING, MISLEADING);
    RunTwo(Run(Init(), STORING), MISLEADING[0], MISLEADING[1]);
  }

  /** If a publish that reports an error did enqueue the event, compensation removes an input that is still needed. */
  lemma FalsePublishErrorLosesInput() returns (acts: seq<Action>)
    ensures var s := Run(Init(), acts);
      0 in s.inputs && InputKey(0) !in s.objects && !Settled(s, 0) && Abandoned(0) in s.trace
  {
    acts := STORING + MISLEADING + DISCARDING;
    ReachesCompensated();
    RunConcat(Init(), STORING + MISLEADING, DISCARDING);
    RunTwo(COMPENSATED, DISCARDING[0], DISCARDING[1]);
  }

  // ---------------------------------------------------------------- a result deleted without having been delivered

  /** The completed event is published and a gateway has started to handle it. */
  const PUBLISHED := State(
    map[0 := PENDING_RECORD], {InputKey(0), ResultKey(0)}, {0}, {CompletedEvent(0)},
    {Stored(InputKey(0)), Stored(ResultKey(0))},
    Job(Async, Closed(202)),
    map[1 := Relay(0, false, 0, Ack), 3 := Applier(CompletedEvent(0), Patch)],
    map[])

  /** `handleResult` has updated the record and is about to read it back; a client asks for the job. */
  const ASKED := State(
    map[0 := COMPLETED_RECORD], {InputKey(0), ResultKey(0)}, {0}, {CompletedEvent(0)},
    {Stored(InputKey(0)), Stored(ResultKey(0)), Disturbed(0)},
    Job(Async, Closed(202)),
    map[1 := Relay(0, false, 0, Ack), 3 := Applier(CompletedEvent(0), ReadBack), 4 := Getter(0, Lookup)],
    map[])

  /** The client has been answered without the result, and the cleanup has deleted it. */
  const CLEARED := State(
    map[0 := COMPLETED_RECORD], {InputKey(0)}, {0}, {CompletedEvent(0)},
    {Stored(InputKey(0)), Stored(ResultKey(0)), Disturbed(0), Misread(0), Cleaned(0)},
    Job(Async, Closed(202)),
    map[1 := Relay(0, false, 0, Ack), 3 := Applier(CompletedEvent(0), ReadBack), 5 := Cleaner(0, DropRecord)],
    map[])

  const TO_PUBLISHED := [Advance(1, Ok, 9), Consume(3, CompletedEvent(0))]
  const ASKING := [Advance(3, Ok, 9), Get(4, 0)]
  const ANSWERING := [Advance(4, Ok, 9), Advance(4, LOST, 5)]

  lemma ReachesPublished()
    ensures Run(ANNOUNCING, TO_PUBLISHED) == PUBLISHED
  {
    RunTwo(ANNOUNCING, TO_PUBLISHED[0], TO_PUBLISHED[1]);
  }

  lemma ReachesAsked()
    ensures Run(PUBLISHED, ASKING) == ASKED
  {
    RunTwo(PUBLISHED, ASKING[0], ASKING[1]);
  }

  /** The client has its answer, without the result. */
  const ANSWERED := State(
    map[0 := COMPLETED_RECORD], {InputKey(0), ResultKey(0)}, {0}, {CompletedEvent(0)},
    {Stored(InputKey(0)), Stored(ResultKey(0)), Disturbed(0), Misread(0)},
    Job(Async, Closed(202)),
    map[1 := Relay(0, false, 0, Ack), 3 := Applier(CompletedEvent(0), ReadBack), 5 := Cleaner(0, DropResult)],
    map[])

  lemma ReachesAnswered()
    ensures Run(ASKED, ANSWERING) == ANSWERED
  {
    RunTwo(ASKED, ANSWERING[0], ANSWERING[1]);
  }

  lemma ReachesCleared()
    ensures Run(ASKED, ANSWERING + [Advance(5, Ok, 9)]) == CLEARED
  {
    ReachesAnswered();
    RunConcat(ASKED, ANSWERING, [Advance(5, Ok, 9)]);
    assert Run(ANSWERED, [Advance(5, Ok, 9)]) == Run(Next(ANSWERED, Advance(5, Ok, 9)), []);
  }

  /**
  `GetStatus` deletes the result even when it could not read it: the client sees a
  completed job without result, and the result is gone.
  */
  lemma ResultDeletedUndelivered() returns (acts: seq<Action>)
    ensures var s := Run(Init(), acts);
      && s.jobs == map[0 := COMPLETED_RECORD]
      && ResultKey(0) !in s.objects && Delivered(0) !in s.trace && Misread(0) in s.trace
    ensures Run(Init(), acts) == CLEARED
  {
    ToAskedReaches();
    ReachesCleared();
    ClearedUnread();
    acts := ToAsked() + (ANSWERING + [Advance(5, Ok, 9)]);
    RunConcat(Init(), ToAsked(), ANSWERING + [Advance(5, Ok, 9)]);
  }

  lemma ClearedUnread()
    ensures CLEARED.jobs == map[0 := COMPLETED_RECORD] && ResultKey(0) !in CLEARED.objects
    ensures Delivered(0) !in CLEARED.trace && Misread(0) in CLEARED.trace
  {
  }

  function ToAsked(): seq<Action> {
    ToAnnouncing() + TO_PUBLISHED + ASKING
  }

  lemma ToAskedReaches()
    ensures Run(Init(), ToAsked()) == ASKED
  {
    ReachesAnnouncing();
    ReachesPublished();
    ReachesAsked();
    RunConcat(Init(), ToAnnouncing(), TO_PUBLISHED);
    RunConcat(Init(), ToAnnouncing() + TO_PUBLISHED, ASKING);
  }

  /** One step later the record is gone too, while `handleResult` is between its update and its read. */
  lemma OutsideGetBreaksReadBack() returns (acts: seq<Action>)
    ensures var s := Run(Init(), acts);
      && 3 in s.threads && s.threads[3] == Applier(CompletedEvent(0), ReadBack)
      && 0 !in s.jobs && Notified(0) !in s.trace && Abandoned(0) !in s.trace && Disturbed(0) in s.trace
  {
    var before := ResultDeletedUndelivered();
    acts := before + [Advance(5, Ok, 9)];
    RunConcat(Init(), before, [Advance(5, Ok, 9)]);
    assert Run(CLEARED, [Advance(5, Ok, 9)]) == Run(Next(CLEARED, Advance(5, Ok, 9)), []);
  }

  // ---------------------------------------------------------------- a second delivery of a result event

  /** Job 0 is a sync job whose handler waits, while the relay serves it. */
  const SERVING := State(
    map[0 := PENDING_RECORD], {InputKey(0)}, {0}, {},
    {Stored(InputKey(0))},
    Job(Sync, Waiting),
    map[1 := Relay(0, true, 0, Fetch)],
    map[0 := 1])

  const SERVED := State(
    map[0 := PENDING_RECORD], {InputKey(0), ResultKey(0)}, {0}, {CompletedEvent(0)},
    {Stored(InputKey(0)), Stored(ResultKey(0))},
    Job(Sync, Waiting),
    map[1 := Relay(0, true, 0, Ack)],
    map[0 := 1])

  const NOTIFYING := State(
    map[0 := COMPLETED_RECORD], {InputKey(0), ResultKey(0)}, {0}, {CompletedEvent(0)},
    {Stored(InputKey(0)), Stored(ResultKey(0))},
    Job(Sync, Waiting),
    map[1 := Relay(0, true, 0, Ack), 3 := Applier(CompletedEvent(0), ReadBack)],
    map[0 := 1])

  const WOKEN := State(
    map[0 := COMPLETED_RECORD], {InputKey(0), ResultKey(0)}, {0}, {CompletedEvent(0)},
    {Stored(InputKey(0)), Stored(ResultKey(0)), Notified(0)},
    map[0 := Handler(Sync, Waiting, 1)],
    map[1 := Relay(0, true, 0, Ack)],
    map[0 := 1])

  const REPLIED := State(
    map[0 := COMPLETED_RECORD], {InputKey(0), ResultKey(0)}, {0}, {CompletedEvent(0)},
    {Stored(InputKey(0)), Stored(ResultKey(0)), Notified(0), Delivered(0)},
    map[0 := Handler(Sync, Closed(200), 1)],
    map[1 := Relay(0, true, 0, Ack), 4 := Cleaner(0, DropResult), 5 := Applier(CompletedEvent(0), Patch)],
    map[0 := 1])

  const REDELIVERED := State(
    map[0 := COMPLETED_RECORD], {InputKey(0)}, {0}, {CompletedEvent(0)},
    {Stored(InputKey(0)), Stored(ResultKey(0)), Notified(0), Delivered(0), Cleaned(0)},
    map[0 := Handler(Sync, Closed(200), 1)],
    map[1 := Relay(0, true, 0, Ack), 4 := Cleaner(0, DropRecord), 5 := Applier(CompletedEvent(0), ReadBack)],
    map[0 := 1])

  const OPENING := [Arrive(0, Sync), Gateway(0, Ok, 9)]
  const TWOFOLD := [Gateway(0, Ok, 9), Gateway(0, Ok, 9)]
  const ENQUEUEING := [Gateway(0, Ok, 9), Deliver(1, 0, true, 0)]
  const TWICE := [Advance(1, Ok, 9), Advance(1, Ok, 9)]
  const PATCHING := [Consume(3, CompletedEvent(0)), Advance(3, Ok, 9)]
  const WAKING := [Advance(3, Ok, 9), Advance(3, Ok, 9)]
  const REPLYING := [Gateway(0, Ok, 4), Consume(5, CompletedEvent(0))]
  const RACING := [Advance(5, Ok, 9), Advance(4, Ok, 9)]

  lemma ReachesServing()
    ensures Run(Init(), OPENING + TWOFOLD + ENQUEUEING) == SERVING
  {
    RunTwo(Init(), OPENING[0], OPENING[1]);
    RunConcat(Init(), OPENING, TWOFOLD);
    RunConcat(Init(), OPENING + TWOFOLD, ENQUEUEING);
    var s := Run(Init(), OPENING);
    assert s.gateway == Job(Sync, Saving);
    RunTwo(s, TWOFOLD[0], TWOFOLD[1]);
    var s' := Run(s, TWOFOLD);
    assert s'.gateway == Job(Sync, Publishing);
    RunTwo(s', ENQUEUEING[0], ENQUEUEING[1]);
  }

  const INFERRED := State(
    map[0 := PENDING_RECORD], {InputKey(0)}, {0}, {},
    {Stored(InputKey(0))},
    Job(Sync, Waiting),
    map[1 := Relay(0, true, 0, Put)],
    map[0 := 1])
  const FETCHED := State(
    map[0 := COMPLETED_RECORD], {InputKey(0), ResultKey(0)}, {0}, {CompletedEvent(0)},
    {Stored(InputKey(0)), Stored(ResultKey(0)), Notified(0)},
    map[0 := Handler(Sync, Fetching(COMPLETED_RECORD), 1)],
    map[1 := Relay(0, true, 0, Ack)],
    map[0 := 1])
  const ERASED := State(
    map[], {InputKey(0)}, {0}, {CompletedEvent(0)},
    {Stored(InputKey(0)), Stored(ResultKey(0)), Notified(0), Delivered(0), Cleaned(0), Gone(0)},
    map[0 := Handler(Sync, Closed(200), 1)],
    map[1 := Relay(0, true, 0, Ack), 5 := Applier(CompletedEvent(0), ReadBack)],
    map[0 := 1])

  lemma ReachesInferred()
    ensures Run(SERVING, TWICE) == INFERRED
  {
    RunTwo(SERVING, TWICE[0], TWICE[1]);
  }

  /** The relay has stored the result and not yet published the event. */
  const STORED := State(
    map[0 := PENDING_RECORD], {InputKey(0), ResultKey(0)}, {0}, {},
    {Stored(InputKey(0)), Stored(ResultKey(0))},
    Job(Sync, Waiting),
    map[1 := Relay(0, true, 0, Announce)],
    map[0 := 1])

  lemma ReachesStored()
    ensures Next(INFERRED, TWICE[0]) == STORED
  {
  }

  lemma StoredServed()
    ensures Next(STORED, TWICE[1]) == SERVED
  {
  }

  lemma ReachesServed()
    ensures Run(INFERRED, TWICE) == SERVED
  {
    ReachesStored();
    StoredServed();
    RunTwo(INFERRED, TWICE[0], TWICE[1]);
  }

  lemma ReachesNotifying()
    ensures Run(SERVED, PATCHING) == NOTIFYING
  {
    RunTwo(SERVED, PATCHING[0], PATCHING[1]);
  }

  lemma ReachesWoken()
    ensures Run(NOTIFYING, WAKING) == WOKEN
  {
    RunTwo(NOTIFYING, WAKING[0], WAKING[1]);
  }

  lemma ReachesFetched()
    ensures Run(WOKEN, TWOFOLD) == FETCHED
  {
    RunTwo(WOKEN, TWOFOLD[0], TWOFOLD[1]);
  }

  lemma ReachesReplied()
    ensures Run(FETCHED, REPLYING) == REPLIED
  {
    RunTwo(FETCHED, REPLYING[0], REPLYING[1]);
  }

  const REPATCHED := State(
    map[0 := COMPLETED_RECORD], {InputKey(0), ResultKey(0)}, {0}, {CompletedEvent(0)},
    {Stored(InputKey(0)), Stored(ResultKey(0)), Notified(0), Delivered(0)},
    map[0 := Handler(Sync, Closed(200), 1)],
    map[1 := Relay(0, true, 0, Ack), 4 := Cleaner(0, DropResult), 5 := Applier(CompletedEvent(0), ReadBack)],
    map[0 := 1])

  lemma ReachesRepatched()
    ensures Next(REPLIED, RACING[0]) == REPATCHED
  {
  }

  lemma ReachesRedelivered()
    ensures Run(REPLIED, RACING) == REDELIVERED
  {
    RunTwo(REPLIED, RACING[0], RACING[1]);
    ReachesRepatched();
    assert Next(REPATCHED, RACING[1]) == REDELIVERED;
  }

  lemma ReachesErased()
    ensures Run(REDELIVERED, [Advance(4, Ok, 9)]) == ERASED
  {
    assert Run(REDELIVERED, [Advance(4, Ok, 9)]) == Run(Next(REDELIVERED, Advance(4, Ok, 9)), []);
  }

  lemma ServedToWoken() returns (acts: seq<Action>)
    ensures Run(SERVING, acts) == WOKEN
  {
    ReachesInferred();
    ReachesServed();
    ReachesNotifying();
    ReachesWoken();
    Via(SERVING, TWICE, INFERRED, TWICE, SERVED);
    Via(SERVING, TWICE + TWICE, SERVED, PATCHING, NOTIFYING);
    acts := TWICE + TWICE + PATCHING + WAKING;
    Via(SERVING, TWICE + TWICE + PATCHING, NOTIFYING, WAKING, WOKEN);
  }

  lemma WokenToErased() returns (acts: seq<Action>)
    ensures Run(WOKEN, acts) == ERASED
  {
    ReachesFetched();
    ReachesReplied();
    ReachesRedelivered();
    ReachesErased();
    Via(WOKEN, TWOFOLD, FETCHED, REPLYING, REPLIED);
    Via(WOKEN, TWOFOLD + REPLYING, REPLIED, RACING, REDELIVERED);
    acts := TWOFOLD + REPLYING + RACING + [Advance(4, Ok, 9)];
    Via(WOKEN, TWOFOLD + REPLYING + RACING, REDELIVERED, [Advance(4, Ok, 9)], ERASED);
  }

  /** A redelivered event races with the cleanup of the handler its first delivery woke. */
  lemma RedeliveryBreaksReadBack() returns (acts: seq<Action>)
    ensures var s := Run(Init(), acts);
      && 5 in s.threads && s.threads[5] == Applier(CompletedEvent(0), ReadBack)
      && 0 !in s.jobs && Undisturbed(s, 0) && Notified(0) in s.trace
  {
    var opening := OPENING + TWOFOLD + ENQUEUEING;
    var serving := ServedToWoken();
    var racing := WokenToErased();
    ReachesServing();
    Via(Init(), opening, SERVING, serving, WOKEN);
    acts := opening + serving + racing;
    Via(Init(), opening + serving, WOKEN, racing, ERASED);
  }
}
