/**
When a result is lost undelivered: a client's request cleans up whether or not it could read
the result, so a completed job can lose its result exactly until it has been read once.
*/
module JobDelivery {
  import opened Wrappers
  import opened Protocol
  import opened ProtocolInvariant
  import opened JobLimits
  import opened JobTheorems

  // ---------------------------------------------------------------- one request

  /** What serving a completed record notes: whether the result was read. */
  function Served(s: State, j: JobId, o: Outcome): Fact {
    if o.Ok? && ResultKey(j) in s.objects then Delivered(j) else Misread(j)
  }

  lemma ServeStep(s: State, t: Tid, j: JobId, rec: Record, o: Outcome, spawn: Tid)
    requires t in s.threads && spawn !in s.threads
    requires s.threads[t] == Getter(j, Serve(rec)) && rec.ref == Some(ResultKey(j))
    ensures Next(s, Advance(t, o, spawn)) ==
      s.(trace := s.trace + {Served(s, j, o)}, threads := (s.threads - {t})[spawn := Cleaner(j, DropResult)])
  {
    assert ThreadMove(s, s.threads[t], o) == Move(Note(Served(s, j, o)), None, Some(DropResult));
  }

  /**
  A GET that serves a completed record reads the result exactly when the call succeeds and the
  object is there; the cleanup follows in any case.
  */
  lemma ServingCleansUp(s: State, t: Tid, o: Outcome, spawn: Tid)
    requires Inv(s) && Enabled(s, Advance(t, o, spawn)) && s.threads[t].Getter? && s.threads[t].getPc.Serve?
    ensures var j := Subject(s.threads[t]);
      Next(s, Advance(t, o, spawn)) ==
        s.(trace := s.trace + {if o.Ok? && ResultKey(j) in s.objects then Delivered(j) else Misread(j)},
           threads := (s.threads - {t})[spawn := Cleaner(j, DropResult)])
  {
    var th := s.threads[t];
    assert ThreadOk(s, th) && RecordOk(s, Subject(th), th.getPc.rec);
    ServeStep(s, t, Subject(th), th.getPc.rec, o, spawn);
  }

  lemma FetchStep(s: State, j: JobId, rec: Record, o: Outcome, spawn: Tid)
    requires j in s.gateway && spawn !in s.threads && s.gateway[j].pc == Fetching(rec) && rec.ref == Some(ResultKey(j))
    ensures var s' := Next(s, Gateway(j, o, spawn));
      && s'.threads == s.threads[spawn := Cleaner(j, DropResult)]
      && s'.gateway[j].pc == Closed(if o.Ok? && ResultKey(j) in s.objects then 200 else 500)
      && s'.trace == s.trace + {Served(s, j, o)}
  {
    assert GatewayMove(s, j, o) ==
      Move(Note(Served(s, j, o)), Closed(if o.Ok? && ResultKey(j) in s.objects then 200 else 500), Some(DropResult));
  }

  /** So it is with the sync handler, which answers 200 exactly when it read the result. */
  lemma FetchingCleansUp(s: State, j: JobId, o: Outcome, spawn: Tid)
    requires Inv(s) && Enabled(s, Gateway(j, o, spawn)) && s.gateway[j].pc.Fetching?
    ensures var s' := Next(s, Gateway(j, o, spawn));
      && s'.threads == s.threads[spawn := Cleaner(j, DropResult)]
      && s'.gateway[j].pc == Closed(if o.Ok? && ResultKey(j) in s.objects then 200 else 500)
      && s'.trace == s.trace + {if o.Ok? && ResultKey(j) in s.objects then Delivered(j) else Misread(j)}
  {
    assert JobOk(s, j);
    FetchStep(s, j, s.gateway[j].pc.rec, o, spawn);
  }

  // ---------------------------------------------------------------- the run that loses it

  lemma {:induction false} FreshTid(m: map<Tid, Thread>) returns (t: Tid)
    ensures forall u :: u in m ==> u < t
    decreases |m|
  {
    t := 0;
    if m != map[] {
      var u :| u in m;
      var rest := m - {u};
      assert |rest.Keys| == |m.Keys - {u}|;
      var t' := FreshTid(rest);
      t := if u < t' then t' else u + 1;
      assert forall v :: v in m ==> v == u || v in rest;
    }
  }

  predicate Completed(s: State, j: JobId) {
    j in s.jobs && s.jobs[j].status.Completed?
  }

  /** A client has asked for the completed job and is about to be served. */
  function Asked(s: State, t: Tid, j: JobId): State
    requires j in s.jobs
  {
    s.(trace := s.trace + {Disturbed(j)}, threads := s.threads[t := Getter(j, Serve(s.jobs[j]))])
  }

  /** The client has been answered without the result. */
  function Answered(s: State, t: Tid, j: JobId): State {
    s.(trace := s.trace + {Disturbed(j), Misread(j)}, threads := s.threads[t := Cleaner(j, DropResult)])
  }

  lemma Asks(s: State, t: Tid, j: JobId)
    requires Inv(s) && Completed(s, j) && t !in s.threads && t + 1 !in s.threads
    ensures Run(s, [Get(t, j), Advance(t, Ok, t + 1)]) == Asked(s, t, j)
  {
    assert JobOk(s, j) && RecordOk(s, j, s.jobs[j]);
    RunTwo(s, Get(t, j), Advance(t, Ok, t + 1));
    AsksStep(s, t, j);
  }

  lemma AsksStep(s: State, t: Tid, j: JobId)
    requires Completed(s, j) && s.jobs[j].ref.Some? && t !in s.threads && t + 1 !in s.threads
    ensures Next(Next(s, Get(t, j)), Advance(t, Ok, t + 1)) == Asked(s, t, j)
  {
    var s1 := s.(trace := s.trace + {Disturbed(j)}, threads := s.threads[t := Getter(j, Lookup)]);
    assert Next(s, Get(t, j)) == s1;
  }

  lemma Misses(s: State, t: Tid, j: JobId)
    requires Completed(s, j) && t !in s.threads && t + 1 !in s.threads
    ensures Next(Asked(s, t, j), Advance(t, LOST, t + 1)) == Answered(s, t + 1, j)
  {
    var s1 := Asked(s, t, j);
    assert s1.threads - {t} == s.threads;
    assert s1.trace + {Misread(j)} == s.trace + {Disturbed(j), Misread(j)};
  }

  lemma Clears(s: State, t: Tid, j: JobId)
    requires t !in s.threads && t + 1 !in s.threads
    ensures var s' := Next(Answered(s, t, j), Advance(t, Ok, t + 1));
      && ResultKey(j) !in s'.objects && s'.jobs == s.jobs
      && s'.trace == s.trace + {Disturbed(j), Misread(j), Cleaned(j)}
  {
  }

  /** The job is completed, and its result is gone without ever having been read. */
  predicate LostUnread(s: State, j: JobId) {
    Completed(s, j) && ResultKey(j) !in s.objects && Delivered(j) !in s.trace && Misread(j) in s.trace
  }

  /** One GET whose read fails, on unused thread ids. */
  function FailingGet(t: Tid, j: JobId): seq<Action> {
    [Get(t, j), Advance(t, Ok, t + 1)] + [Advance(t, LOST, t + 1), Advance(t + 1, Ok, t + 2)]
  }

  lemma MissesAndClears(s: State, t: Tid, j: JobId)
    requires Completed(s, j) && Delivered(j) !in s.trace && forall u :: u in s.threads ==> u < t
    ensures LostUnread(Run(Asked(s, t, j), [Advance(t, LOST, t + 1), Advance(t + 1, Ok, t + 2)]), j)
  {
    Misses(s, t, j);
    Clears(s, t + 1, j);
    RunTwo(Asked(s, t, j), Advance(t, LOST, t + 1), Advance(t + 1, Ok, t + 2));
  }

  /** One GET whose read fails loses an undelivered result. */
  lemma CanLoseResult(s: State, j: JobId) returns (t: Tid)
    requires Inv(s) && Completed(s, j) && Delivered(j) !in s.trace
    ensures LostUnread(Run(s, FailingGet(t, j)), j)
  {
    t := FreshTid(s.threads);
    Asks(s, t, j);
    MissesAndClears(s, t, j);
    RunConcat(s, [Get(t, j), Advance(t, Ok, t + 1)], [Advance(t, LOST, t + 1), Advance(t + 1, Ok, t + 2)]);
  }

  ghost predicate Loses(s: State, acts: seq<Action>, j: JobId) {
    LostUnread(Run(s, acts), j)
  }

  /** A completed job can lose its result unread exactly as long as it has not been read. */
  lemma CanLoseResultIff(s: State, j: JobId)
    requires Inv(s) && Completed(s, j)
    ensures (exists acts :: Loses(s, acts, j)) <==> Delivered(j) !in s.trace
  {
    if Delivered(j) in s.trace {
      forall acts ensures !Loses(s, acts, j) {
        RunInv(s, acts);
      }
    } else {
      var t := CanLoseResult(s, j);
      assert Loses(s, FailingGet(t, j), j);
    }
  }

  /**
  In every reachable state, the missing result of a completed job was read, or a read of it
  failed and cleaned up.
  */
  lemma MissingResult(acts: seq<Action>, j: JobId)
    requires var s := Run(Init(), acts); Completed(s, j) && ResultKey(j) !in s.objects
    ensures var s := Run(Init(), acts); Delivered(j) in s.trace || LostUnread(s, j)
  {
    Reachable(acts);
    assert JobOk(Run(Init(), acts), j);
    CleanedAfterDelivery(acts, j);
  }
}
