/**
Crash and replay of a result consumer.  One partition of the result topic carries all
events of its jobs in order; the consumer applies them to the stored records, commits
what it handled without error, and restarts at the committed offset after a crash, or at
the tail while nothing has been committed.
*/
module Replay {
  import opened Wrappers
  import opened Protocol

  /**
  `source` remembers which event a record was last written from, and `missed` the stored
  jobs of which a later event was passed since: handled without a write, or skipped.
  */
  datatype Partition = Partition(
    jobs: map<JobId, Record>,
    log: seq<ResultEvent>,
    next: nat,
    committed: Option<nat>,
    source: map<JobId, nat>,
    missed: set<JobId>)

  const EMPTY := Partition(map[], [], 0, None, map[], {})

  /** What happens to the partition; the gateway's handlers save and delete records at any time. */
  datatype Happening =
    | Append(ev: ResultEvent)
    | Save(j: JobId)
    | Delete(j: JobId)
    | Handle(update: Outcome, read: Outcome, commitOk: bool)
    | Restart

  predicate Mentions(log: seq<ResultEvent>, j: JobId) {
    exists i :: 0 <= i < |log| && log[i].id == j
  }

  predicate Possible(p: Partition, h: Happening) {
    match h
    case Save(j) => j !in p.jobs && !Mentions(p.log, j)
    case Handle(_, _, _) => p.next < |p.log|
    case _ => true
  }

  /** Whether `handleResult` returns an error, and whether the record was written. */
  predicate HandleFails(p: Partition, ev: ResultEvent, update: Outcome, read: Outcome) {
    update.Err? || ev.id !in p.jobs || read.Err?
  }

  predicate Writes(p: Partition, ev: ResultEvent, update: Outcome) {
    ev.id in p.jobs && Applied(update)
  }

  /** The handling of message i leaves the record of its job behind. */
  predicate Lags(p: Partition, i: nat)
    requires i < |p.log|
  {
    var j := p.log[i].id;
    j in p.jobs && (j in p.source ==> p.source[j] < i)
  }

  /** Where a consumer starts: where the group committed, or at the tail (`LastOffset`). */
  function StartOf(p: Partition): nat {
    if p.committed.Some? then p.committed.value else |p.log|
  }

  predicate Commits(p: Partition, h: Happening) {
    h.Handle? && Possible(p, h) && !HandleFails(p, p.log[p.next], h.update, h.read) && h.commitOk
  }

  function After(p: Partition, h: Happening): Partition {
    if !Possible(p, h) then p else
    match h
    case Append(ev) => p.(log := p.log + [ev])
    case Save(j) => p.(jobs := p.jobs[j := Record(Pending, None, "")], source := p.source - {j})
    case Delete(j) => p.(jobs := p.jobs - {j})
    case Handle(update, read, commitOk) =>
      var ev := p.log[p.next];
      var written := Writes(p, ev, update);
      p.(jobs := if written then p.jobs[ev.id := RecordOf(ev)] else p.jobs,
         source := if written then p.source[ev.id := p.next] else p.source,
         missed := if written then p.missed - {ev.id} else if Lags(p, p.next) then p.missed + {ev.id} else p.missed,
         next := p.next + 1,
         committed := if Commits(p, h) then Some(p.next + 1) else p.committed)
    case Restart =>
      p.(next := StartOf(p),
         missed := p.missed + set i | p.next <= i < StartOf(p) && i < |p.log| && Lags(p, i) :: p.log[i].id)
  }

  function History(p: Partition, hs: seq<Happening>): Partition
    decreases |hs|
  {
    if hs == [] then p else History(After(p, hs[0]), hs[1..])
  }

  // ---------------------------------------------------------------- the last event of a job

  predicate IsLast(log: seq<ResultEvent>, j: JobId, i: nat) {
    i < |log| && log[i].id == j && forall k :: i < k < |log| ==> log[k].id != j
  }

  lemma {:induction false} LastExists(log: seq<ResultEvent>, j: JobId)
    requires Mentions(log, j)
    ensures exists i: nat :: IsLast(log, j, i)
  {
    var n := |log| - 1;
    if log[n].id == j {
      assert IsLast(log, j, n);
    } else {
      LastExists(log[..n], j);
      var i: nat :| IsLast(log[..n], j, i);
      assert IsLast(log, j, i);
    }
  }

  /** The record says what the last event of its job in the log says. */
  ghost predicate SaysLast(p: Partition, j: JobId)
    requires j in p.jobs
  {
    forall i: nat | IsLast(p.log, j, i) ::
      p.jobs[j].status == p.log[i].status && p.jobs[j].ref == p.log[i].ref && p.jobs[j].error == p.log[i].error
  }

  // ---------------------------------------------------------------- the invariant

  /** The record was written from an event of the job that no event passed since overrides. */
  ghost predicate Current(p: Partition, j: JobId)
    requires j in p.jobs && p.next <= |p.log|
  {
    if j in p.source then forall k :: p.source[j] < k < p.next ==> p.log[k].id != j
    else forall k :: 0 <= k < p.next ==> p.log[k].id != j
  }

  ghost predicate SourceOk(p: Partition, j: JobId)
    requires j in p.source
  {
    && p.source[j] < |p.log| && p.log[p.source[j]].id == j
    && (j in p.jobs ==> p.jobs[j] == RecordOf(p.log[p.source[j]]))
  }

  /** The log has an event of the job past the one its record was written from. */
  ghost predicate Behind(p: Partition, j: JobId) {
    exists k: nat :: k < |p.log| && p.log[k].id == j && (j in p.source ==> p.source[j] < k)
  }

  ghost predicate Consistent(p: Partition) {
    && (p.committed.Some? ==> p.committed.value <= p.next) && p.next <= |p.log|
    && (forall j :: j in p.source ==> SourceOk(p, j))
    && (forall j :: j in p.jobs && j !in p.missed ==> Current(p, j))
    && (forall j :: j in p.missed ==> Behind(p, j))
  }

  lemma AfterConsistent(p: Partition, h: Happening)
    requires Consistent(p)
    ensures Consistent(After(p, h))
  {
    var p' := After(p, h);
    forall j | j in p'.jobs && j !in p'.missed ensures Current(p', j) {
      AfterCurrent(p, h, j);
    }
    forall j | j in p'.source ensures SourceOk(p', j) {
      assert j in p.source ==> SourceOk(p, j);
    }
    forall j | j in p'.missed ensures Behind(p', j) {
      AfterBehind(p, h, j);
    }
  }

  lemma AfterCurrent(p: Partition, h: Happening, j: JobId)
    requires Consistent(p) && j in After(p, h).jobs && j !in After(p, h).missed
    ensures After(p, h).next <= |After(p, h).log| && Current(After(p, h), j)
  {
    var p' := After(p, h);
    assert j in p.jobs && j !in p.missed ==> Current(p, j);
    if h.Restart? && p.committed.None? {
      forall k | p.next <= k < |p.log| && p.log[k].id == j ensures j in p.source && k <= p.source[j] {
        assert !Lags(p, k);
      }
    }
  }

  lemma AfterBehind(p: Partition, h: Happening, j: JobId)
    requires Consistent(p) && j in After(p, h).missed
    ensures Behind(After(p, h), j)
  {
    var p' := After(p, h);
    if j in p.missed {
      assert Behind(p, j);
      var k: nat :| k < |p.log| && p.log[k].id == j && (j in p.source ==> p.source[j] < k);
      assert p'.log[k].id == j;
    } else if h.Handle? {
      assert p'.log[p.next].id == j;
    } else {
      var k: nat :| p.next <= k < |p.log| && Lags(p, k) && p.log[k].id == j;
      assert p'.log[k].id == j;
    }
  }

  lemma {:induction false} HistoryConsistent(p: Partition, hs: seq<Happening>)
    requires Consistent(p)
    ensures Consistent(History(p, hs))
    decreases |hs|
  {
    if hs != [] {
      AfterConsistent(p, hs[0]);
      HistoryConsistent(After(p, hs[0]), hs[1..]);
    }
  }

  // ---------------------------------------------------------------- crash and replay

  /** The record was written from the last event of its job. */
  predicate UpToDate(p: Partition, j: JobId) {
    && j in p.source && p.source[j] < |p.log| && p.log[p.source[j]].id == j
    && forall k :: p.source[j] < k < |p.log| ==> p.log[k].id != j
  }

  /**
  For any sequence of failures, crashes and restarts, once the partition is consumed a
  stored job that has an event was written from its last event exactly when no event of it
  was passed since its last write; its record then carries that outcome.
  */
  lemma CaughtUp(hs: seq<Happening>, j: JobId)
    requires var p := History(EMPTY, hs); p.next == |p.log| && j in p.jobs && Mentions(p.log, j)
    ensures var p := History(EMPTY, hs);
      && (UpToDate(p, j) <==> j !in p.missed)
      && (j !in p.missed ==> SaysLast(p, j))
  {
    HistoryConsistent(EMPTY, hs);
    ConsumedUpToDate(History(EMPTY, hs), j);
  }

  lemma ConsumedUpToDate(p: Partition, j: JobId)
    requires Consistent(p) && p.next == |p.log| && j in p.jobs && Mentions(p.log, j)
    ensures UpToDate(p, j) <==> j !in p.missed
    ensures j !in p.missed ==> SaysLast(p, j)
  {
    if j in p.missed {
      assert Behind(p, j);
    } else {
      assert Current(p, j) && SourceOk(p, j);
      assert IsLast(p.log, j, p.source[j]);
    }
  }

  /**
  The happening leaves no stored record behind: handling fails, and a start at the tail
  skips, only where no record lags.
  */
  predicate Harmless(p: Partition, h: Happening) {
    match h
    case Handle(update, _, _) => p.next < |p.log| && Lags(p, p.next) ==> Applied(update)
    case Restart => p.committed.None? ==> forall i :: p.next <= i < |p.log| ==> !Lags(p, i)
    case _ => true
  }

  predicate AllHarmless(p: Partition, hs: seq<Happening>)
    decreases |hs|
  {
    hs == [] || (Harmless(p, hs[0]) && AllHarmless(After(p, hs[0]), hs[1..]))
  }

  /** A step leaves a further record behind exactly when it is not harmless. */
  lemma HarmlessExactly(p: Partition, h: Happening)
    requires Consistent(p) && p.missed == {}
    ensures Harmless(p, h) <==> After(p, h).missed == {}
  {
    if !Harmless(p, h) {
      var i: nat :| p.next <= i < |p.log| && Lags(p, i) && (h.Handle? ==> i == p.next);
      assert p.log[i].id in After(p, h).missed;
    }
  }

  lemma {:induction false} HarmlessMissNothing(p: Partition, hs: seq<Happening>)
    requires Consistent(p) && AllHarmless(p, hs)
    ensures History(p, hs).missed <= p.missed
    decreases |hs|
  {
    if hs != [] {
      AfterConsistent(p, hs[0]);
      assert After(p, hs[0]).missed <= p.missed;
      HarmlessMissNothing(After(p, hs[0]), hs[1..]);
    }
  }

  /**
  Crash and replay: when updates fail only for records that are gone or not behind, and no
  start before the first commit skips an event of a stored job, no stored job is left behind.
  */
  lemma ReplayConverges(hs: seq<Happening>)
    requires AllHarmless(EMPTY, hs)
    requires var p := History(EMPTY, hs); p.next == |p.log|
    ensures var p := History(EMPTY, hs);
      forall j :: j in p.jobs && Mentions(p.log, j) ==>
        exists i: nat | IsLast(p.log, j, i) ::
          p.jobs[j].status == p.log[i].status && p.jobs[j].ref == p.log[i].ref && p.jobs[j].error == p.log[i].error
  {
    HarmlessMissNothing(EMPTY, hs);
    var p := History(EMPTY, hs);
    forall j | j in p.jobs && Mentions(p.log, j)
      ensures exists i: nat | IsLast(p.log, j, i) ::
        p.jobs[j].status == p.log[i].status && p.jobs[j].ref == p.log[i].ref && p.jobs[j].error == p.log[i].error
    {
      CaughtUp(hs, j);
      LastExists(p.log, j);
    }
  }

  // ---------------------------------------------------------------- what a restart brings back

  /** Some message from i on is handled without error and committed. */
  predicate CommitsFrom(p: Partition, hs: seq<Happening>, i: nat)
    decreases |hs|
  {
    hs != [] && ((p.next >= i && Commits(p, hs[0])) || CommitsFrom(After(p, hs[0]), hs[1..], i))
  }

  /** No restart will fetch message i again. */
  predicate Passed(p: Partition, i: nat) {
    i < p.next && (p.committed.Some? ==> i < p.committed.value)
  }

  lemma {:induction false} PassedStays(p: Partition, hs: seq<Happening>, i: nat)
    requires Consistent(p) && Passed(p, i)
    ensures Passed(History(p, hs), i)
    decreases |hs|
  {
    if hs != [] {
      AfterConsistent(p, hs[0]);
      PassedStays(After(p, hs[0]), hs[1..], i);
    }
  }

  /**
  A message that was fetched, and whose handling failed say, is fetched again by a restart
  after any further happenings exactly when the group had a committed offset, not past the
  message, and no message from this one on has been handled and committed since.
  */
  lemma RefetchedIff(p: Partition, hs: seq<Happening>, i: nat)
    requires Consistent(p) && i < p.next
    ensures After(History(p, hs), Restart).next <= i <==>
      p.committed.Some? && p.committed.value <= i && !CommitsFrom(p, hs, i)
  {
    HistoryConsistent(p, hs);
    if Passed(p, i) {
      PassedStays(p, hs, i);
    } else {
      PassedByCommit(p, hs, i);
    }
  }

  lemma {:induction false} PassedByCommit(p: Partition, hs: seq<Happening>, i: nat)
    requires Consistent(p) && p.committed.Some? && p.committed.value <= i
    ensures var q := History(p, hs);
      q.committed.Some? && (q.committed.value <= i <==> !CommitsFrom(p, hs, i))
    decreases |hs|
  {
    if hs != [] {
      var p' := After(p, hs[0]);
      AfterConsistent(p, hs[0]);
      if p.next >= i && Commits(p, hs[0]) {
        PassedStays(p', hs[1..], i);
        CommittedStays(p', hs[1..]);
      } else {
        PassedByCommit(p', hs[1..], i);
      }
    }
  }

  lemma {:induction false} CommittedStays(p: Partition, hs: seq<Happening>)
    requires p.committed.Some?
    ensures History(p, hs).committed.Some?
    decreases |hs|
  {
    if hs != [] {
      CommittedStays(After(p, hs[0]), hs[1..]);
    }
  }

  /** All events of the job in the log have been passed for good. */
  ghost predicate AllPassed(p: Partition, j: JobId) {
    forall i :: 0 <= i < |p.log| && p.log[i].id == j ==> Passed(p, i)
  }

  /** No further event of the job is published. */
  predicate NoEvents(hs: seq<Happening>, j: JobId) {
    forall i :: 0 <= i < |hs| && hs[i].Append? ==> hs[i].ev.id != j
  }

  lemma PassedStep(p: Partition, h: Happening, j: JobId)
    requires Consistent(p) && AllPassed(p, j) && Mentions(p.log, j) && (h.Append? ==> h.ev.id != j)
    ensures AllPassed(After(p, h), j)
    ensures j in After(p, h).jobs ==> j in p.jobs && After(p, h).jobs[j] == p.jobs[j]
  {
    var p' := After(p, h);
    forall i | 0 <= i < |p'.log| && p'.log[i].id == j ensures Passed(p', i) {
      assert p.log[i].id == j;
    }
  }

  lemma MentionsStays(p: Partition, h: Happening, j: JobId)
    requires Mentions(p.log, j)
    ensures Mentions(After(p, h).log, j)
  {
    var i :| 0 <= i < |p.log| && p.log[i].id == j;
    assert After(p, h).log[i].id == j;
  }

  /** Once its events have been passed for good, a job keeps its record until another event comes or it is deleted. */
  lemma {:induction false} PassedKeepsRecord(p: Partition, hs: seq<Happening>, j: JobId)
    requires Consistent(p) && AllPassed(p, j) && Mentions(p.log, j) && j in History(p, hs).jobs
    requires NoEvents(hs, j)
    ensures j in p.jobs && History(p, hs).jobs[j] == p.jobs[j]
    decreases |hs|
  {
    if hs != [] {
      AfterConsistent(p, hs[0]);
      PassedStep(p, hs[0], j);
      MentionsStays(p, hs[0], j);
      PassedKeepsRecord(After(p, hs[0]), hs[1..], j);
    }
  }

  const FINISHED := ResultEvent(0, Completed, Some(ResultKey(0)), "")
  const OTHER := ResultEvent(1, Completed, Some(ResultKey(1)), "")

  /** The stored job 0 has been overtaken: its event is in the log, and its record stays pending whatever follows. */
  ghost predicate LeftBehind(p: Partition) {
    && p.next == |p.log| && 0 in p.jobs && p.jobs[0] == Record(Pending, None, "")
    && (exists i: nat :: IsLast(p.log, 0, i) && p.log[i] == FINISHED)
    && forall hs: seq<Happening> | 0 in History(p, hs).jobs && NoEvents(hs, 0) ::
         History(p, hs).jobs[0] == Record(Pending, None, "")
  }

  lemma PassedLeftBehind(p: Partition)
    requires Consistent(p) && p.next == |p.log| && 0 in p.jobs && p.jobs[0] == Record(Pending, None, "")
    requires p.log != [] && p.log[0] == FINISHED && forall i :: 1 <= i < |p.log| ==> p.log[i].id != 0
    requires Passed(p, 0)
    ensures LeftBehind(p)
  {
    assert IsLast(p.log, 0, 0);
    forall hs: seq<Happening> | 0 in History(p, hs).jobs && NoEvents(hs, 0)
      ensures History(p, hs).jobs[0] == Record(Pending, None, "")
    {
      PassedKeepsRecord(p, hs, 0);
    }
  }

  /** A later commit passes a message whose handling failed, and nothing brings it back. */
  lemma LaterCommitPassesFailure() returns (hs: seq<Happening>)
    ensures LeftBehind(History(EMPTY, hs)) && History(EMPTY, hs).committed == Some(2)
  {
    var lost := Err(false, "redis unavailable");
    hs := [Save(0), Save(1), Append(FINISHED), Append(OTHER), Handle(lost, Ok, true), Handle(Ok, Ok, true)];
    var p2 := After(After(EMPTY, hs[0]), hs[1]);
    var p4 := After(After(p2, hs[2]), hs[3]);
    assert p4.log == [FINISHED, OTHER];
    assert p4.jobs == map[0 := Record(Pending, None, ""), 1 := Record(Pending, None, "")];
    var p6 := After(After(p4, hs[4]), hs[5]);
    HistoryTwo(EMPTY, hs);
    HistoryTwo(p2, hs[2..]);
    HistoryTwo(p4, hs[4..]);
    HistoryConsistent(EMPTY, hs);
    assert p6.log == p4.log && p6.next == 2 && p6.committed == Some(2) && p6.jobs[0] == p4.jobs[0];
    PassedLeftBehind(p6);
  }

  /** A crash before the first commit: the new start at the tail skips what was published meanwhile. */
  lemma TailStartSkips() returns (hs: seq<Happening>)
    ensures LeftBehind(History(EMPTY, hs)) && History(EMPTY, hs).committed == None
    ensures forall h <- hs :: !h.Handle?
  {
    hs := [Save(0), Append(FINISHED), Restart];
    var p2 := After(After(EMPTY, hs[0]), hs[1]);
    HistoryTwo(EMPTY, hs);
    assert History(p2, [Restart]) == After(p2, Restart);
    HistoryConsistent(EMPTY, hs);
    PassedLeftBehind(After(p2, Restart));
  }

  lemma {:induction false} HistorySnoc(p: Partition, hs: seq<Happening>, h: Happening)
    ensures History(p, hs + [h]) == After(History(p, hs), h)
    decreases |hs|
  {
    if hs == [] {
      assert hs + [h] == [h];
    } else {
      assert (hs + [h])[1..] == hs[1..] + [h];
      HistorySnoc(After(p, hs[0]), hs[1..], h);
    }
  }

  lemma HistoryTwo(p: Partition, hs: seq<Happening>)
    requires |hs| >= 2
    ensures History(p, hs) == History(After(After(p, hs[0]), hs[1]), hs[2..])
  {
    assert hs[1..][1..] == hs[2..];
  }

  // ---------------------------------------------------------------- the consumer

  class ResultConsumer {
    var p: Partition

    ghost predicate Valid()
      reads this
    {
      Consistent(p)
    }

    constructor ()
      ensures Valid() && p == EMPTY
    {
      p := EMPTY;
    }

    /** Anything that happens between two calls of the loop, except handling. */
    method Meanwhile(h: Happening)
      requires Valid() && !h.Handle?
      modifies this
      ensures Valid() && p == After(old(p), h)
    {
      AfterConsistent(p, h);
      p := After(p, h);
    }

    /** `handleResult`, without the notification; `written` tells whether the record was updated. */
    method HandleResult(ev: ResultEvent, update: Outcome, read: Outcome) returns (err: bool, written: bool)
      modifies this
      ensures err == HandleFails(old(p), ev, update, read) && written == Writes(old(p), ev, update)
      ensures p == if written then old(p).(jobs := old(p).jobs[ev.id := RecordOf(ev)]) else old(p)
    {
      written := false;
      if ev.id in p.jobs && Applied(update) {
        p := p.(jobs := p.jobs[ev.id := RecordOf(ev)]);
        written := true;
      }
      err := update.Err? || ev.id !in p.jobs;
      if err {
        return;
      }
      err := read.Err?;
    }

    /** One turn of `consume`: fetch, handle, and commit unless handling failed. */
    method Turn(update: Outcome, read: Outcome, commitOk: bool)
      requires Valid() && p.next < |p.log|
      modifies this
      ensures Valid() && p == After(old(p), Handle(update, read, commitOk))
      ensures p.next == old(p).next + 1
      ensures p.committed ==
        if update.Ok? && read.Ok? && old(p).log[old(p).next].id in old(p).jobs && commitOk then Some(p.next)
        else old(p).committed
    {
      AfterConsistent(p, Handle(update, read, commitOk));
      var offset, ev := p.next, p.log[p.next];
      p := p.(next := offset + 1);
      var err, written := HandleResult(ev, update, read);
      if written {
        p := p.(source := p.source[ev.id := offset], missed := p.missed - {ev.id});
      } else if Lags(p, offset) {
        p := p.(missed := p.missed + {ev.id});
      }
      if !err && commitOk {
        p := p.(committed := Some(offset + 1));
      }
    }

    /** The loop of `consume`, with crashes and the other handlers at work between its turns. */
    method Consume(n: nat) returns (ghost hs: seq<Happening>)
      requires Valid()
      modifies this
      ensures Valid() && p == History(old(p), hs)
    {
      hs := [];
      for i := 0 to n
        invariant Valid() && p == History(old(p), hs)
      {
        var h: Happening := *;
        HistorySnoc(old(p), hs, h);
        hs := hs + [h];
        if !h.Handle? {
          Meanwhile(h);
        } else if p.next < |p.log| {
          Turn(h.update, h.read, h.commitOk);
        }
      }
    }

    /** The loop of `consume` until the partition is exhausted; every message is handled once. */
    method Drain()
      requires Valid()
      modifies this
      ensures Valid() && p.next == |p.log| && p.log == old(p.log)
      ensures forall j :: j in p.jobs && Mentions(p.log, j) ==>
        && (UpToDate(p, j) <==> j !in p.missed)
        && (j !in p.missed ==> SaysLast(p, j))
    {
      while p.next < |p.log|
        invariant Valid() && p.log == old(p.log)
        decreases |p.log| - p.next
      {
        var update: Outcome := *;
        var read: Outcome := *;
        var commitOk: bool := *;
        Turn(update, read, commitOk);
      }
      forall j | j in p.jobs && Mentions(p.log, j)
        ensures UpToDate(p, j) <==> j !in p.missed
        ensures j !in p.missed ==> SaysLast(p, j)
      {
        ConsumedUpToDate(p, j);
      }
    }
  }
}
