/**
Reading a record back while its result is applied: with a single delivery of a single
result event the read never finds the record deleted.
*/
module SingleDelivery {
  import opened Wrappers
  import opened Protocol
  import opened ProtocolInvariant
  import opened JobTheorems

  /** The running `handleResult` calls for the job. */
  function Appliers(s: State, j: JobId): set<Tid> {
    set t | t in s.threads && s.threads[t].Applier? && s.threads[t].ev.id == j
  }

  function Notices(s: State, j: JobId): nat {
    if Notified(j) in s.trace then 1 else 0
  }

  function Delivers(s: State, a: Action, j: JobId): nat {
    if Enabled(s, a) && a.Consume? && a.ev.id == j then 1 else 0
  }

  /** How often a result event of the job is handed to `handleResult` in a run. */
  function Deliveries(s: State, acts: seq<Action>, j: JobId): nat
    decreases |acts|
  {
    if acts == [] then 0 else Delivers(s, acts[0], j) + Deliveries(Next(s, acts[0]), acts[1..], j)
  }

  lemma SubsetSize(a: set<Tid>, b: set<Tid>)
    requires a <= b
    ensures |a| <= |b|
  {
    assert b == a + (b - a);
  }

  /** Calls running and notifications made. */
  function Weight(s: State, j: JobId): nat {
    |Appliers(s, j)| + Notices(s, j)
  }

  lemma GatewayQuiet(s: State, i: JobId, o: Outcome, j: JobId)
    requires i in s.gateway
    ensures Notices(Perform(s, GatewayMove(s, i, o).effect), j) == Notices(s, j)
  {
  }

  lemma GatewayWeight(s: State, i: JobId, o: Outcome, spawn: Tid, j: JobId)
    requires Enabled(s, Gateway(i, o, spawn))
    ensures Weight(Next(s, Gateway(i, o, spawn)), j) == Weight(s, j)
  {
    var e := GatewayMove(s, i, o).effect;
    PerformThreads(s, e);
    GatewayQuiet(s, i, o, j);
    assert Appliers(Next(s, Gateway(i, o, spawn)), j) == Appliers(s, j);
  }

  /** Only the last step of `handleResult` notifies. */
  lemma NoticeFrom(s: State, th: Thread, o: Outcome, j: JobId)
    ensures var m := ThreadMove(s, th, o);
      Notices(Perform(s, m.effect), j) == Notices(s, j) || (th.Applier? && th.ev.id == j && m.pc.None?)
  {
  }

  lemma ThreadKind(s: State, th: Thread, o: Outcome)
    ensures var m := ThreadMove(s, th, o);
      m.pc.Some? ==> (m.pc.value.Applier? <==> th.Applier?) && (th.Applier? ==> m.pc.value.ev == th.ev)
  {
  }

  lemma AdvanceWeight(s: State, t: Tid, o: Outcome, spawn: Tid, j: JobId)
    requires Enabled(s, Advance(t, o, spawn))
    ensures Weight(Next(s, Advance(t, o, spawn)), j) <= Weight(s, j)
  {
    var th := s.threads[t];
    var m := ThreadMove(s, th, o);
    var s' := Next(s, Advance(t, o, spawn));
    NoticeFrom(s, th, o, j);
    ThreadKind(s, th, o);
    PerformThreads(s, m.effect);
    ResumeShape(Perform(s, m.effect), t, th, m, spawn);
    ShapeWeight(s, Perform(s, m.effect), s', t, th, m, spawn, j);
  }

  lemma ShapeWeight(s: State, s1: State, s': State, t: Tid, th: Thread, m: Move<Option<Thread>>, spawn: Tid, j: JobId)
    requires t in s.threads && s.threads[t] == th && s1.threads == s.threads && s'.trace == s1.trace
    requires Notices(s1, j) == Notices(s, j) || (th.Applier? && th.ev.id == j && m.pc.None?)
    requires m.pc.Some? ==> (m.pc.value.Applier? <==> th.Applier?) && (th.Applier? ==> m.pc.value.ev == th.ev)
    requires forall u :: u in s'.threads && u != t && u != spawn ==> u in s.threads && s'.threads[u] == s.threads[u]
    requires t in s'.threads ==> m.pc == Some(s'.threads[t])
    requires spawn != t && spawn in s'.threads ==> s'.threads[spawn].Cleaner?
    requires m.pc.None? ==> t !in s'.threads
    ensures Weight(s', j) <= Weight(s, j)
  {
    if m.pc.None? {
      SubsetSize(Appliers(s', j), Appliers(s, j) - {t});
    } else {
      SubsetSize(Appliers(s', j), Appliers(s, j));
    }
  }

  lemma OtherWeight(s: State, a: Action, j: JobId)
    requires Enabled(s, a) && !a.Gateway? && !a.Advance? && !a.Consume?
    ensures Weight(Next(s, a), j) <= Weight(s, j)
  {
    assert Notices(Next(s, a), j) == Notices(s, j);
    SubsetSize(Appliers(Next(s, a), j), Appliers(s, j));
  }

  lemma ConsumeWeight(s: State, t: Tid, ev: ResultEvent, j: JobId)
    requires Enabled(s, Consume(t, ev))
    ensures Weight(Next(s, Consume(t, ev)), j) == Weight(s, j) + if ev.id == j then 1 else 0
  {
    assert Appliers(Next(s, Consume(t, ev)), j) == Appliers(s, j) + if ev.id == j then {t} else {};
  }

  /** Calls running and notifications made never outnumber the deliveries. */
  lemma NextWeight(s: State, a: Action, j: JobId)
    ensures Weight(Next(s, a), j) <= Weight(s, j) + Delivers(s, a, j)
  {
    if Enabled(s, a) {
      match a
      case Gateway(i, o, spawn) => GatewayWeight(s, i, o, spawn, j);
      case Advance(t, o, spawn) => AdvanceWeight(s, t, o, spawn, j);
      case Consume(t, ev) => ConsumeWeight(s, t, ev, j);
      case _ => OtherWeight(s, a, j);
    }
  }

  lemma {:induction false} RunWeight(s: State, acts: seq<Action>, j: JobId)
    ensures Weight(Run(s, acts), j) <= Weight(s, j) + Deliveries(s, acts, j)
    decreases |acts|
  {
    if acts != [] {
      NextWeight(s, acts[0], j);
      RunWeight(Next(s, acts[0]), acts[1..], j);
    }
  }

  /**
  With a single delivery, no outside GET and no expiry, the record read inside
  `handleResult` is there and decided, whatever the woken handler, its timeout path and its
  cleanup goroutine do meanwhile.
  */
  lemma SingleDeliveryReadsBack(acts: seq<Action>, t: Tid)
    requires var s := Run(Init(), acts);
      && t in s.threads && s.threads[t].Applier? && s.threads[t].applyPc.ReadBack?
      && Undisturbed(s, s.threads[t].ev.id) && Deliveries(Init(), acts, s.threads[t].ev.id) == 1
    ensures var s := Run(Init(), acts); Decided(s, s.threads[t].ev.id)
  {
    var s := Run(Init(), acts);
    var j := s.threads[t].ev.id;
    RunWeight(Init(), acts, j);
    SubsetSize({t}, Appliers(s, j));
    ReadBackFindsRecord(acts, t);
  }
}
