/**
When an accepted job can be lost: as long as no event of it is logged, a swallowed publish
can still leave it stuck for ever, and nothing else can.
*/
module JobLoss {
  import opened Wrappers
  import opened Protocol
  import opened ProtocolInvariant
  import opened JobLimits

  lemma RunCons(s: State, a: Action, acts: seq<Action>)
    ensures Run(s, [a] + acts) == Run(Next(s, a), acts)
  {
    assert ([a] + acts)[1..] == acts;
  }

  function CrashOf(s: State, t: Tid): Action
    requires t in s.threads
  {
    if s.threads[t].Relay? then PodCrash(s.threads[t].pod) else Crash(t)
  }

  lemma CrashRemoves(s: State, t: Tid)
    requires t in s.threads
    ensures var s' := Next(s, CrashOf(s, t));
      && s' == s.(threads := s'.threads, priority := s'.priority)
      && s'.threads.Keys <= s.threads.Keys - {t}
  {
  }

  /** Every goroutine and every relay pod may die. */
  lemma {:induction false} Silence(s: State) returns (acts: seq<Action>)
    ensures Run(s, acts) == s.(threads := map[], priority := Run(s, acts).priority)
    decreases |s.threads|
  {
    acts := [];
    if s.threads != map[] {
      var t :| t in s.threads;
      var a := CrashOf(s, t);
      var s' := Next(s, a);
      CrashRemoves(s, t);
      SmallerSet(s'.threads.Keys, s.threads.Keys, t);
      var rest := Silence(s');
      RunCons(s, a, rest);
      acts := [a] + rest;
    }
  }

  lemma SmallerSet(a: set<Tid>, b: set<Tid>, t: Tid)
    requires a <= b - {t} && t in b
    ensures |a| < |b|
  {
    assert b == a + (b - a) && t in b - a;
  }

  /** Nobody works for the job any more, and its input is still there. */
  predicate Quiet(s: State, j: JobId) {
    s.threads == map[] && j in s.inputs && InputKey(j) in s.objects
  }

  function Working(s: State, j: JobId, pc: RelayPc): map<Tid, Thread> {
    map[0 := Relay(0, true, j, pc)]
  }

  function Started(s: State, j: JobId): State {
    s.(threads := Working(s, j, Infer), priority := s.priority[0 := Priority(s, 0) + 1])
  }

  function Finished(s: State, j: JobId): State {
    Started(s, j).(
      threads := Working(s, j, Announce),
      objects := s.objects + {ResultKey(j)},
      trace := s.trace + {Stored(ResultKey(j))})
  }

  function Silent(s: State, j: JobId): State {
    Finished(s, j).(
      threads := map[0 := Relay(0, true, j, Leave(200)), 1 := Cleaner(j, DropInput)],
      trace := s.trace + {Stored(ResultKey(j)), Swallowed(j)})
  }

  lemma Starts(s: State, j: JobId)
    requires Quiet(s, j)
    ensures Run(s, [Deliver(0, 0, true, j), Advance(0, Ok, 1)]) == Started(s, j)
  {
    RunTwo(s, Deliver(0, 0, true, j), Advance(0, Ok, 1));
  }

  lemma Finishes(s: State, j: JobId)
    requires Quiet(s, j)
    ensures Run(Started(s, j), [Advance(0, Ok, 1), Advance(0, Ok, 1)]) == Finished(s, j)
  {
    RunTwo(Started(s, j), Advance(0, Ok, 1), Advance(0, Ok, 1));
  }

  function Unheard(s: State, j: JobId): State {
    Silent(s, j).(threads := Working(s, j, Ack))
  }

  lemma Fails(s: State, j: JobId)
    requires Quiet(s, j)
    ensures Next(Finished(s, j), Advance(0, LOST, 1)) == Unheard(s, j)
  {
  }

  lemma Answers(s: State, j: JobId)
    requires Quiet(s, j)
    ensures Next(Unheard(s, j), Advance(0, Ok, 1)) == Silent(s, j)
  {
    assert ThreadMove(Unheard(s, j), Relay(0, true, j, Ack), Ok) ==
      Move(Nothing, Some(Relay(0, true, j, Leave(200))), Some(DropInput));
  }

  lemma Swallows(s: State, j: JobId)
    requires Quiet(s, j)
    ensures Run(Finished(s, j), [Advance(0, LOST, 1), Advance(0, Ok, 1)]) == Silent(s, j)
  {
    Fails(s, j);
    Answers(s, j);
    RunTwo(Finished(s, j), Advance(0, LOST, 1), Advance(0, Ok, 1));
  }

  lemma Drops(s: State, j: JobId)
    requires Quiet(s, j)
    ensures var s' := Run(Silent(s, j), [Advance(1, Ok, 2)]);
      s' == Silent(s, j).(threads := Working(s, j, Leave(200)), objects := s.objects + {ResultKey(j)} - {InputKey(j)})
  {
    RunCons(Silent(s, j), Advance(1, Ok, 2), []);
    assert [Advance(1, Ok, 2)] + [] == [Advance(1, Ok, 2)];
  }

  /** One more delivery, whose publish is swallowed, takes the input away. */
  lemma LosesInput(s: State, j: JobId) returns (acts: seq<Action>)
    requires Quiet(s, j)
    ensures var s' := Run(s, acts);
      && s'.jobs == s.jobs && s'.inputs == s.inputs && s'.results == s.results && s'.gateway == s.gateway
      && InputKey(j) !in s'.objects && s'.threads == Working(s, j, Leave(200)) && Swallowed(j) in s'.trace
  {
    var a, b := [Deliver(0, 0, true, j), Advance(0, Ok, 1)], [Advance(0, Ok, 1), Advance(0, Ok, 1)];
    var c, d := [Advance(0, LOST, 1), Advance(0, Ok, 1)], [Advance(1, Ok, 2)];
    Starts(s, j);
    Finishes(s, j);
    Swallows(s, j);
    Drops(s, j);
    Via(s, a, Started(s, j), b, Finished(s, j));
    Via(s, a + b, Finished(s, j), c, Silent(s, j));
    Via(s, a + b + c, Silent(s, j), d, Run(Silent(s, j), d));
    acts := a + b + c + d;
  }

  /**
  Conversely an accepted job without a logged event, in particular one whose publish was
  swallowed, can get stuck for ever.
  */
  lemma CanStillGetStuck(s: State, j: JobId) returns (acts: seq<Action>)
    requires Inv(s) && j in s.inputs && Abandoned(j) !in s.trace && !Logged(s, j)
    ensures Stuck(Run(s, acts), j)
  {
    assert JobOk(s, j);
    var quieting := Silence(s);
    var s1 := Run(s, quieting);
    var closing := [GatewayCrash(j)];
    RunCons(s1, GatewayCrash(j), []);
    assert closing + [] == closing;
    RunConcat(s, quieting, closing);
    var s2 := Run(s, quieting + closing);
    acts := quieting + closing;
    if InputKey(j) in s2.objects {
      var losing := LosesInput(s2, j);
      RunConcat(s, acts, losing);
      acts := acts + losing;
    }
  }

  ghost predicate Strands(s: State, acts: seq<Action>, j: JobId) {
    Stuck(Run(s, acts), j)
  }

  /** An accepted job can get stuck for ever exactly as long as no event of it is logged. */
  lemma CanGetStuckIff(s: State, j: JobId)
    requires Inv(s) && j in s.inputs && Abandoned(j) !in s.trace
    ensures (exists acts :: Strands(s, acts, j)) <==> !Logged(s, j)
  {
    if Logged(s, j) {
      var ev :| ev in s.results && ev.id == j;
      forall acts ensures !Strands(s, acts, j) {
        RunInv(s, acts);
        assert ev in Run(s, acts).results;
      }
    } else {
      var acts := CanStillGetStuck(s, j);
      assert Strands(s, acts, j);
    }
  }

  /** A job that is stuck for ever has had a publish swallowed. */
  lemma StuckOnlyBySwallowing(acts: seq<Action>, j: JobId)
    requires var s := Run(Init(), acts); Stuck(s, j) && Abandoned(j) !in s.trace
    ensures Swallowed(j) in Run(Init(), acts).trace
  {
    assert Inv(Init());
    RunInv(Init(), acts);
    assert JobOk(Run(Init(), acts), j);
  }
}
