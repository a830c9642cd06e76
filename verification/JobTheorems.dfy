/** What the job protocol guarantees in every reachable state, and what it does not. */
module JobTheorems {
  import opened Wrappers
  import opened Protocol
  import opened ProtocolInvariant

  lemma InitInv()
    ensures Inv(Init())
  {
  }

  lemma Reachable(acts: seq<Action>)
    ensures Inv(Run(Init(), acts))
  {
    InitInv();
    RunInv(Init(), acts);
  }

  // ---------------------------------------------------------------- guarantees

  /**
  No accepted job is lost: whatever fails and however often its event is redelivered,
  its input is still stored, or its result has been stored, or its failure is logged.
  */
  lemma InputOutlivesNeed(acts: seq<Action>, j: JobId)
    ensures var s := Run(Init(), acts);
      j in s.inputs && Abandoned(j) !in s.trace ==>
        || InputKey(j) in s.objects
        || Stored(ResultKey(j)) in s.trace
        || exists ev :: ev in s.results && ev.id == j && ev.status.Failed?
  {
    Reachable(acts);
    var s := Run(Init(), acts);
    if j in s.inputs {
      assert JobOk(s, j);
      if Logged(s, j) {
        var ev :| ev in s.results && ev.id == j;
        assert EventOk(s, ev);
      }
    }
  }

  /**
  A job is lost only through a swallowed publish: unless the relay went on after failing to
  publish a completed event of an accepted job, its input is stored or an event of it is logged.
  */
  lemma LostOnlyBySwallowing(acts: seq<Action>, j: JobId)
    ensures var s := Run(Init(), acts);
      j in s.inputs && Abandoned(j) !in s.trace && Swallowed(j) !in s.trace ==>
        InputKey(j) in s.objects || exists ev :: ev in s.results && ev.id == j
  {
    Reachable(acts);
    var s := Run(Init(), acts);
    if j in s.inputs {
      assert JobOk(s, j);
    }
  }

  /** The relay answers 200, which stops KafkaSource from retrying, only when the outcome is secured. */
  lemma AcknowledgedWhenSettled(acts: seq<Action>, t: Tid)
    ensures var s := Run(Init(), acts);
      t in s.threads && s.threads[t].Relay? && s.threads[t].relayPc == Leave(200) ==> Settled(s, s.threads[t].id)
  {
    Reachable(acts);
    var s := Run(Init(), acts);
    if t in s.threads {
      assert ThreadOk(s, s.threads[t]);
    }
  }

  /**
  Every stored record is pending and bare, failed with an error and no reference, or
  completed with a reference to the job's own result object, which was put and is
  still there unless a delivery cleanup removed it.
  */
  lemma RecordsTellTheTruth(acts: seq<Action>, j: JobId)
    requires j in Run(Init(), acts).jobs
    ensures var s := Run(Init(), acts);
      var rec := s.jobs[j];
      || (rec.status.Pending? && rec.ref.None? && rec.error == "")
      || (rec.status.Failed? && rec.ref.None? && rec.error != "")
      || (rec.status.Completed? && rec.ref == Some(ResultKey(j)) && rec.error == ""
          && Stored(ResultKey(j)) in s.trace
          && (ResultKey(j) in s.objects || Cleaned(j) in s.trace))
  {
    Reachable(acts);
    assert JobOk(Run(Init(), acts), j);
  }

  /** The result object was put before its completed event was published. */
  lemma PutBeforePublish(acts: seq<Action>, ev: ResultEvent)
    requires ev in Run(Init(), acts).results && ev.status.Completed?
    ensures ev.ref == Some(ResultKey(ev.id)) && Stored(ResultKey(ev.id)) in Run(Init(), acts).trace
  {
    Reachable(acts);
    assert EventOk(Run(Init(), acts), ev);
  }

  ghost predicate Decided(s: State, j: JobId) {
    j in s.jobs && !s.jobs[j].status.Pending?
  }

  /** Only `SaveJob` resets a record, and only its creator calls it, before the record exists. */
  lemma DecidedStays(s: State, a: Action, j: JobId)
    requires Inv(s) && Decided(s, j) && j in Next(s, a).jobs
    ensures Decided(Next(s, a), j)
  {
    NextIsEffect(s, a);
    EffectAccounted(s, a);
    EffectKeepsDecided(s, EffectOf(s, a), j);
  }

  lemma EffectKeepsDecided(s: State, e: Effect, j: JobId)
    requires Decided(s, j) && Accounted(s, e) && j in Perform(s, e).jobs
    ensures Decided(Perform(s, e), j)
    ensures Perform(s, e).jobs[j].status == s.jobs[j].status
      || (e.UpdateJob? && e.id == j && e.rec == Perform(s, e).jobs[j])
  {
  }

  /** No step recreates a removed record or makes a decided one pending again. */
  lemma NoResurrection(acts: seq<Action>, a: Action, j: JobId)
    ensures var s := Run(Init(), acts);
      && (Gone(j) in s.trace ==> j !in s.jobs && j !in Next(s, a).jobs)
      && (Decided(s, j) && j in Next(s, a).jobs ==> Decided(Next(s, a), j))
  {
    var s := Run(Init(), acts);
    Reachable(acts);
    NextInv(s, a);
    if Gone(j) in s.trace {
      assert JobOk(s, j) && JobOk(Next(s, a), j);
    }
    if Decided(s, j) && j in Next(s, a).jobs {
      DecidedStays(s, a, j);
    }
  }

  /** A gateway handler whose next call is made and succeeds. */
  function Resumes(s: State, j: JobId, spawn: Tid): State {
    Next(s, Gateway(j, Ok, spawn))
  }

  /**
  No lost wake-up: when Redis accepts a notification, the sync handler of the job has
  already subscribed.  If it is still waiting, the notification is in its mailbox and
  the wait ends.
  */
  lemma NoLostWakeUp(acts: seq<Action>, j: JobId, spawn: Tid)
    requires var s := Run(Init(), acts); Notified(j) in s.trace && spawn !in s.threads
    ensures var s := Run(Init(), acts);
      && j in s.gateway && !BeforePublish(s.gateway[j].pc)
      && (s.gateway[j].pc.Waiting? ==> s.gateway[j].mail > 0 && Resumes(s, j, spawn).gateway[j].pc.Reading?)
  {
    Reachable(acts);
    var s := Run(Init(), acts);
    assert JobOk(s, FactId(Notified(j)));
  }

  /** The subscription of a sync handler lasts from before its publish until its request ends, and it alone has one. */
  lemma SubscribedThroughout(s: State, j: JobId)
    requires j in s.gateway
    ensures var h := s.gateway[j];
      Perform(s, NotifyDone(j)).gateway[j] == h.(mail := h.mail +
        if h.kind.Sync? && (h.pc.Publishing? || h.pc.Waiting? || h.pc.Reading? || h.pc.Fetching?) then 1 else 0)
  {
  }

  /** A notification accepted for a waiting handler reaches its mailbox in that very step. */
  lemma NotificationArrives(s: State, t: Tid, o: Outcome, spawn: Tid)
    requires t in s.threads && spawn !in s.threads && s.threads[t].Applier? && s.threads[t].applyPc.Notify?
    requires Applied(o) && s.threads[t].ev.id in s.gateway && Subscribed(s.gateway[s.threads[t].ev.id])
    ensures var s', j := Next(s, Advance(t, o, spawn)), s.threads[t].ev.id;
      && Notified(j) in s'.trace
      && j in s'.gateway && s'.gateway[j].mail == s.gateway[j].mail + 1
  {
  }

  /**
  A handler that leaves the wait loop reads a decided record: it answers 422 for a
  failed job and goes on to fetch the job's own result for a completed one.
  */
  lemma WokenHandlerReadsOutcome(acts: seq<Action>, j: JobId, spawn: Tid)
    requires var s := Run(Init(), acts);
      j in s.gateway && s.gateway[j].pc.Reading? && Undisturbed(s, j) && spawn !in s.threads
    ensures var s := Run(Init(), acts);
      && Decided(s, j)
      && (s.jobs[j].status.Failed? ==> Resumes(s, j, spawn).gateway[j].pc == Closed(422))
      && (s.jobs[j].status.Completed? ==> Resumes(s, j, spawn).gateway[j].pc == Fetching(s.jobs[j]))
      && (s.jobs[j].status.Completed? ==> s.jobs[j].ref == Some(ResultKey(j)))
  {
    Reachable(acts);
    assert JobOk(Run(Init(), acts), j);
  }

  /**
  Read before notify: as long as no notification for the job has been accepted, the
  record that `handleResult` has just updated is still there when it reads it back.
  */
  lemma ReadBackFindsRecord(acts: seq<Action>, t: Tid)
    requires var s := Run(Init(), acts);
      && t in s.threads && s.threads[t].Applier? && s.threads[t].applyPc.ReadBack?
      && Undisturbed(s, s.threads[t].ev.id) && Notified(s.threads[t].ev.id) !in s.trace
    ensures var s := Run(Init(), acts); Decided(s, s.threads[t].ev.id)
  {
    Reachable(acts);
    var s := Run(Init(), acts);
    assert ThreadOk(s, s.threads[t]) && EventOk(s, s.threads[t].ev) && JobOk(s, s.threads[t].ev.id);
  }

  /** A result is removed only after it was read for a client, or after that read failed. */
  lemma CleanedAfterDelivery(acts: seq<Action>, j: JobId)
    ensures var s := Run(Init(), acts);
      Stored(ResultKey(j)) in s.trace && ResultKey(j) !in s.objects ==> Delivered(j) in s.trace || Misread(j) in s.trace
  {
    Reachable(acts);
    var s := Run(Init(), acts);
    if Stored(ResultKey(j)) in s.trace {
      assert FactId(Stored(ResultKey(j))) in s.gateway;
      assert JobOk(s, j);
    }
  }

  // ---------------------------------------------------------------- limits

  /** Every event the topic holds for the job says the same as its record, and its publish was reported truthfully. */
  ghost predicate EventsAgree(s: State, j: JobId, status: Status) {
    Abandoned(j) !in s.trace && forall ev :: ev in s.results && ev.id == j ==> ev.status == status
  }

  /** A decided status is final as long as the job's events agree with it ... */
  lemma {:induction false} FinalWhileEventsAgree(s: State, acts: seq<Action>, j: JobId)
    requires Inv(s) && Decided(s, j) && j in Run(s, acts).jobs
    requires EventsAgree(Run(s, acts), j, s.jobs[j].status)
    ensures Run(s, acts).jobs[j].status == s.jobs[j].status
    decreases |acts|
  {
    if acts != [] {
      StepFinal(s, acts[0], acts[1..], j);
      FinalWhileEventsAgree(Next(s, acts[0]), acts[1..], j);
    }
  }

  lemma StepFinal(s: State, a: Action, rest: seq<Action>, j: JobId)
    requires Inv(s) && Decided(s, j) && j in Run(Next(s, a), rest).jobs
    requires EventsAgree(Run(Next(s, a), rest), j, s.jobs[j].status)
    ensures Inv(Next(s, a)) && Decided(Next(s, a), j) && Next(s, a).jobs[j].status == s.jobs[j].status
  {
    var s1 := Next(s, a);
    NextInv(s, a);
    RunInv(s1, rest);
    GrowsTransitive(s, s1, Run(s1, rest));
    if j !in s1.jobs {
      GoneForGood(s, a, j);
      StaysGone(s1, rest, j);
    }
    DecidedStays(s, a, j);
    StatusFromEvents(s, a, j);
  }

  /** A step that changes a decided status applies an event of the job, or compensates a publish. */
  lemma StatusFromEvents(s: State, a: Action, j: JobId)
    requires Inv(s) && Decided(s, j) && j in Next(s, a).jobs
    ensures Next(s, a).jobs[j].status == s.jobs[j].status || Abandoned(j) in s.trace
      || exists ev :: ev in s.results && ev.id == j && ev.status == Next(s, a).jobs[j].status
  {
    NextIsEffect(s, a);
    EffectAccounted(s, a);
    EffectKeepsDecided(s, EffectOf(s, a), j);
  }

  lemma PerformedGone(s: State, e: Effect, j: JobId)
    requires j in s.jobs && j !in Perform(s, e).jobs
    ensures Gone(j) in Perform(s, e).trace
  {
  }

  lemma GoneForGood(s: State, a: Action, j: JobId)
    requires j in s.jobs && j !in Next(s, a).jobs
    ensures Gone(j) in Next(s, a).trace
  {
    NextIsEffect(s, a);
    PerformedGone(s, EffectOf(s, a), j);
  }

  lemma {:induction false} StaysGone(s: State, acts: seq<Action>, j: JobId)
    requires Inv(s) && Gone(j) in s.trace
    ensures j !in Run(s, acts).jobs
    decreases |acts|
  {
    assert JobOk(s, FactId(Gone(j)));
    if acts != [] {
      NextInv(s, acts[0]);
      StaysGone(Next(s, acts[0]), acts[1..], j);
    }
  }

  /** ... and a single event that says otherwise can overturn it by being redelivered. */
  lemma OverturnedByRedelivery(s: State, j: JobId, ev: ResultEvent, t: Tid, spawn: Tid)
    requires j in s.jobs && ev in s.results && ev.id == j && ev.status != s.jobs[j].status
    requires t !in s.threads && spawn !in s.threads && t != spawn
    ensures var s' := Run(s, [Consume(t, ev), Advance(t, Ok, spawn)]);
      j in s'.jobs && s'.jobs[j].status == ev.status != s.jobs[j].status
  {
    var s1 := Next(s, Consume(t, ev));
    assert Run(s, [Consume(t, ev), Advance(t, Ok, spawn)]) == Run(s1, [Advance(t, Ok, spawn)]);
    assert Run(s1, [Advance(t, Ok, spawn)]) == Next(s1, Advance(t, Ok, spawn));
  }
}
