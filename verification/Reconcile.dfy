/**
The set of result consumers.  `Start` launches one per service of the initial registry;
each `Reconcile` stops those of removed topics and launches those of added ones.
*/
module Reconcile {

  /** A service with a result topic. */
  datatype Service = Service(topic: string, typ: string)

  /** A consumer goroutine; the group it reads in carries its service type. */
  datatype Worker = Worker(topic: string, typ: string, cancelled: bool)

  /** `cancels` holds for each topic the worker its cancel function stops. */
  datatype Pool = Pool(cancels: map<string, nat>, workers: seq<Worker>)

  const NO_WORKERS := Pool(map[], [])

  function Topics(services: seq<Service>): set<string> {
    set i | 0 <= i < |services| :: services[i].topic
  }

  predicate DistinctTopics(services: seq<Service>) {
    forall i, j :: 0 <= i < j < |services| ==> services[i].topic != services[j].topic
  }

  /** Every cancel function stops a worker on its topic. */
  predicate WellFormed(p: Pool) {
    forall t :: t in p.cancels ==> p.cancels[t] < |p.workers| && p.workers[p.cancels[t]].topic == t
  }

  /** The workers that run and the cancel functions that are kept are in one-to-one correspondence. */
  ghost predicate Bijective(p: Pool) {
    && WellFormed(p)
    && (forall t :: t in p.cancels ==> !p.workers[p.cancels[t]].cancelled)
    && (forall i :: 0 <= i < |p.workers| && !p.workers[i].cancelled ==>
          p.workers[i].topic in p.cancels && p.cancels[p.workers[i].topic] == i)
  }

  /** What `Start` leaves behind: a worker per service, and the last one of each topic kept. */
  ghost predicate Started(p: Pool, services: seq<Service>) {
    && p.workers == seq(|services|, i requires 0 <= i < |services| =>
         Worker(services[i].topic, services[i].typ, false))
    && p.cancels.Keys == Topics(services)
    && forall t :: t in p.cancels ==>
         && p.cancels[t] < |services| && services[p.cancels[t]].topic == t
         && forall i :: p.cancels[t] < i < |services| ==> services[i].topic != t
  }

  /** Exactly when the initial topics are distinct does every consumer have its own cancel function. */
  lemma StartedBijective(p: Pool, services: seq<Service>)
    requires Started(p, services)
    ensures WellFormed(p) && (Bijective(p) <==> DistinctTopics(services))
  {
    if Bijective(p) {
      forall i, j | 0 <= i < j < |services| ensures services[i].topic != services[j].topic {
        assert p.cancels[p.workers[i].topic] == i && p.cancels[p.workers[j].topic] == j;
      }
    }
    if DistinctTopics(services) {
      forall i | 0 <= i < |p.workers| ensures p.workers[i].topic in p.cancels && p.cancels[p.workers[i].topic] == i {
        assert services[i].topic in Topics(services);
      }
    }
  }

  /** What `Reconcile` does to the workers. */
  ghost predicate Reconciled(p: Pool, q: Pool, services: seq<Service>) {
    && WellFormed(q)
    && q.cancels.Keys == Topics(services)
    && (forall t :: t in p.cancels && t in q.cancels ==> q.cancels[t] == p.cancels[t])
    && |p.workers| <= |q.workers|
    && (forall i :: 0 <= i < |p.workers| ==>
          q.workers[i] == p.workers[i].(cancelled := p.workers[i].cancelled || Dropped(p, q, i)))
    && (forall t :: t in q.cancels && t !in p.cancels ==> |p.workers| <= q.cancels[t])
    && (forall i :: |p.workers| <= i < |q.workers| ==> Fresh(p, q, services, i))
  }

  /** A worker for a topic that was not served, of the type that is configured last for it. */
  ghost predicate Fresh(p: Pool, q: Pool, services: seq<Service>, i: nat)
    requires i < |q.workers|
  {
    var worker := q.workers[i];
    && !worker.cancelled && worker.topic in q.cancels && worker.topic !in p.cancels
    && q.cancels[worker.topic] == i && LastService(services, worker.topic, worker.typ)
  }

  lemma LastServices(services: seq<Service>, s: Service)
    ensures Topics(services + [s]) == Topics(services) + {s.topic}
    ensures LastService(services + [s], s.topic, s.typ)
    ensures forall t, typ :: t != s.topic && LastService(services, t, typ) ==> LastService(services + [s], t, typ)
  {
    var all := services + [s];
    assert all[|services|] == s && forall i :: 0 <= i < |services| ==> all[i] == services[i];
    forall t, typ | t != s.topic && LastService(services, t, typ) ensures LastService(all, t, typ) {
      var k :| 0 <= k < |services| && services[k] == Service(t, typ)
        && forall j :: k < j < |services| ==> services[j].topic != t;
      assert all[k] == Service(t, typ);
    }
  }

  /** The last service with the topic has the type. */
  predicate LastService(services: seq<Service>, topic: string, typ: string) {
    exists k :: 0 <= k < |services| && services[k] == Service(topic, typ)
      && forall j :: k < j < |services| ==> services[j].topic != topic
  }

  /** The worker of a topic that is gone. */
  predicate Dropped(p: Pool, q: Pool, i: nat)
    requires i < |p.workers|
  {
    var t := p.workers[i].topic;
    t in p.cancels && p.cancels[t] == i && t !in q.cancels
  }

  lemma ReconciledBijective(p: Pool, q: Pool, services: seq<Service>)
    requires Bijective(p) && Reconciled(p, q, services)
    ensures Bijective(q)
  {
    forall i | 0 <= i < |q.workers| && !q.workers[i].cancelled
      ensures q.workers[i].topic in q.cancels && q.cancels[q.workers[i].topic] == i
    {
      if i < |p.workers| {
        assert q.workers[i].topic == p.workers[i].topic;
      } else {
        assert Fresh(p, q, services, i);
      }
    }
    forall t | t in q.cancels ensures !q.workers[q.cancels[t]].cancelled {
      if t !in p.cancels {
        assert Fresh(p, q, services, q.cancels[t]);
      }
    }
  }

  /** A history of registries and of the pools after each of them. */
  ghost predicate History(pools: seq<Pool>, registries: seq<seq<Service>>) {
    && |pools| == |registries| + 1
    && forall k :: 0 <= k < |registries| ==> Reconciled(pools[k], pools[k + 1], registries[k])
  }

  /**
  From distinct initial topics on, after any sequence of reloads, the running consumers are
  in one-to-one correspondence with the topics of the latest registry.
  */
  lemma {:induction false} OneConsumerPerTopic(initial: seq<Service>, pools: seq<Pool>, registries: seq<seq<Service>>)
    requires History(pools, registries) && Started(pools[0], initial) && DistinctTopics(initial)
    ensures Bijective(pools[|registries|])
    ensures pools[|registries|].cancels.Keys ==
      Topics(if registries == [] then initial else registries[|registries| - 1])
    decreases |registries|
  {
    if registries == [] {
      StartedBijective(pools[0], initial);
    } else {
      var n := |registries| - 1;
      OneConsumerPerTopic(initial, pools[..n + 1], registries[..n]);
      ReconciledBijective(pools[n], pools[n + 1], registries[n]);
    }
  }

  /** A topic that stays configured keeps its consumer, which keeps running. */
  lemma {:induction false} KeptTopicKeepsConsumer(pools: seq<Pool>, registries: seq<seq<Service>>, topic: string)
    requires History(pools, registries) && Bijective(pools[0]) && topic in pools[0].cancels
    requires forall k :: 0 <= k < |registries| ==> topic in Topics(registries[k])
    ensures var last := pools[|registries|];
      && topic in last.cancels && last.cancels[topic] == pools[0].cancels[topic]
      && Bijective(last) && last.workers[last.cancels[topic]] == pools[0].workers[pools[0].cancels[topic]]
    decreases |registries|
  {
    if registries != [] {
      var n := |registries| - 1;
      KeptTopicKeepsConsumer(pools[..n + 1], registries[..n], topic);
      ReconciledBijective(pools[n], pools[n + 1], registries[n]);
      assert topic in Topics(registries[n]);
    }
  }

  /** Reconciling with the topics already served changes nothing. */
  lemma ReconcileIdempotent(p: Pool, q: Pool, services: seq<Service>)
    requires WellFormed(p) && Reconciled(p, q, services) && p.cancels.Keys == Topics(services)
    ensures q == p
  {
    assert q.cancels == p.cancels;
    NewWorkersServeNewTopics(p, q, services);
    assert q.workers == p.workers;
  }

  lemma NewWorkersServeNewTopics(p: Pool, q: Pool, services: seq<Service>)
    requires Reconciled(p, q, services)
    ensures |p.workers| < |q.workers| ==> exists t :: t in q.cancels && t !in p.cancels
  {
    if |p.workers| < |q.workers| {
      assert Fresh(p, q, services, |p.workers|);
      var w := q.workers[|p.workers|];
      assert w.topic in q.cancels && w.topic !in p.cancels;
    }
  }

  /** A consumer whose cancel function was overwritten by a duplicate topic runs on for ever. */
  lemma {:induction false} LeakedConsumerStays(pools: seq<Pool>, registries: seq<seq<Service>>, i: nat)
    requires History(pools, registries) && i < |pools[0].workers| && !pools[0].workers[i].cancelled
    requires forall t :: t in pools[0].cancels ==> pools[0].cancels[t] != i
    ensures var last := pools[|registries|];
      && i < |last.workers| && last.workers[i] == pools[0].workers[i]
      && forall t :: t in last.cancels ==> last.cancels[t] != i
    decreases |registries|
  {
    if registries != [] {
      var n := |registries| - 1;
      LeakedConsumerStays(pools[..n + 1], registries[..n], i);
      assert Reconciled(pools[n], pools[n + 1], registries[n]);
    }
  }

  /** No sequence of reloads brings about the correspondence that duplicate initial topics have broken. */
  lemma OneConsumerIff(initial: seq<Service>, pools: seq<Pool>, registries: seq<seq<Service>>)
    requires History(pools, registries) && Started(pools[0], initial)
    ensures Bijective(pools[|registries|]) <==> DistinctTopics(initial)
  {
    if DistinctTopics(initial) {
      OneConsumerPerTopic(initial, pools, registries);
    } else {
      var i, j :| 0 <= i < j < |initial| && initial[i].topic == initial[j].topic;
      LeakedConsumerStays(pools, registries, i);
    }
  }

  // ---------------------------------------------------------------- single steps

  /** `startLocked`. */
  function Launch(p: Pool, topic: string, typ: string): Pool {
    Pool(p.cancels[topic := |p.workers|], p.workers + [Worker(topic, typ, false)])
  }

  function Cancel(p: Pool, topic: string): Pool
    requires WellFormed(p) && topic in p.cancels
  {
    var i := p.cancels[topic];
    Pool(p.cancels - {topic}, p.workers[i := p.workers[i].(cancelled := true)])
  }

  lemma StartStep(p: Pool, services: seq<Service>, s: Service)
    requires Started(p, services)
    ensures Started(Launch(p, s.topic, s.typ), services + [s])
  {
    assert Topics(services + [s]) == Topics(services) + {s.topic} by {
      assert forall i :: 0 <= i < |services| ==> (services + [s])[i] == services[i];
      assert (services + [s])[|services|] == s;
    }
  }

  /** During the first loop: topics that are neither kept nor still to be visited are stopped and dropped. */
  ghost predicate Stopped(p: Pool, q: Pool, kept: set<string>, rest: set<string>) {
    && WellFormed(q)
    && (forall t :: t in q.cancels <==> t in p.cancels && (t in kept || t in rest))
    && (forall t :: t in q.cancels ==> q.cancels[t] == p.cancels[t])
    && |q.workers| == |p.workers|
    && forall i :: 0 <= i < |p.workers| ==>
         q.workers[i] == p.workers[i].(cancelled := p.workers[i].cancelled || Dropped(p, q, i))
  }

  lemma StopStep(p: Pool, q: Pool, kept: set<string>, rest: set<string>, topic: string)
    requires WellFormed(p) && Stopped(p, q, kept, rest) && topic in q.cancels && topic !in kept
    ensures Stopped(p, Cancel(q, topic), kept, rest - {topic})
  {
    var r := Cancel(q, topic);
    forall i | 0 <= i < |p.workers|
      ensures r.workers[i] == p.workers[i].(cancelled := p.workers[i].cancelled || Dropped(p, r, i))
    {
      assert q.workers[i] == p.workers[i].(cancelled := p.workers[i].cancelled || Dropped(p, q, i));
    }
  }

  /** During the second loop: every topic visited has its worker, the new ones behind the old ones. */
  ghost predicate Adding(p: Pool, q: Pool, services: map<string, string>, rest: set<string>) {
    && WellFormed(q) && p.workers <= q.workers
    && (forall t :: t in p.cancels ==> t in q.cancels && q.cancels[t] == p.cancels[t])
    && (forall t :: t in q.cancels ==> t in services)
    && (forall t :: t in services && t !in rest ==> t in q.cancels)
    && (forall t :: t in q.cancels && t !in p.cancels ==> |p.workers| <= q.cancels[t])
    && (forall i :: |p.workers| <= i < |q.workers| ==> Added(p, q, services, i))
  }

  ghost predicate Added(p: Pool, q: Pool, services: map<string, string>, i: nat)
    requires i < |q.workers|
  {
    var worker := q.workers[i];
    && !worker.cancelled && worker.topic in services && worker.topic in q.cancels && worker.topic !in p.cancels
    && q.cancels[worker.topic] == i && worker.typ == services[worker.topic]
  }

  lemma AddStep(p: Pool, q: Pool, services: map<string, string>, rest: set<string>, topic: string)
    requires Adding(p, q, services, rest + {topic}) && topic in services && topic !in q.cancels
    ensures Adding(p, Launch(q, topic, services[topic]), services, rest)
  {
    var r := Launch(q, topic, services[topic]);
    forall i | |p.workers| <= i < |r.workers| ensures Added(p, r, services, i) {
      if i < |q.workers| {
        assert Added(p, q, services, i);
      }
    }
  }

  lemma StoppedThenAdded(p: Pool, s: Pool, q: Pool, services: map<string, string>, list: seq<Service>)
    requires WellFormed(p) && Stopped(p, s, services.Keys, {}) && Adding(s, q, services, {})
    requires services.Keys == Topics(list) && forall t :: t in services ==> LastService(list, t, services[t])
    ensures Reconciled(p, q, list)
  {
    assert q.cancels.Keys == services.Keys;
    forall i | 0 <= i < |p.workers|
      ensures q.workers[i] == p.workers[i].(cancelled := p.workers[i].cancelled || Dropped(p, q, i))
    {
      assert q.workers[i] == s.workers[i];
    }
    forall i | |p.workers| <= i < |q.workers|
      ensures Fresh(p, q, list, i)
    {
      assert Added(s, q, services, i);
      assert q.workers[i].topic in services.Keys;
    }
  }

  // ---------------------------------------------------------------- the manager

  class ConsumerManager {
    var cancels: map<string, nat>
    var workers: seq<Worker>

    ghost function State(): Pool
      reads this
    {
      Pool(cancels, workers)
    }

    constructor ()
      ensures State() == NO_WORKERS
    {
      cancels, workers := map[], [];
    }

    method StartLocked(topic: string, typ: string)
      modifies this
      ensures State() == Launch(old(State()), topic, typ)
    {
      cancels := cancels[topic := |workers|];
      workers := workers + [Worker(topic, typ, false)];
    }

    method Start(services: seq<Service>)
      requires State() == NO_WORKERS
      modifies this
      ensures Started(State(), services)
    {
      for k := 0 to |services|
        invariant Started(State(), services[..k])
      {
        StartStep(State(), services[..k], services[k]);
        assert services[..k] + [services[k]] == services[..k + 1];
        StartLocked(services[k].topic, services[k].typ);
      }
      assert services[..|services|] == services;
    }

    /** Both loops visit their map in any order. */
    method Reconcile(services: seq<Service>)
      requires WellFormed(State())
      modifies this
      ensures Reconciled(old(State()), State(), services)
    {
      var newServices := ByTopic(services);
      StopRemoved(newServices);
      ghost var stopped := State();
      StartAdded(newServices);
      StoppedThenAdded(old(State()), stopped, State(), newServices, services);
    }

    static method ByTopic(services: seq<Service>) returns (m: map<string, string>)
      ensures m.Keys == Topics(services)
      ensures forall t :: t in m ==> LastService(services, t, m[t])
    {
      m := map[];
      for k := 0 to |services|
        invariant m.Keys == Topics(services[..k])
        invariant forall t :: t in m ==> LastService(services[..k], t, m[t])
      {
        LastServices(services[..k], services[k]);
        assert services[..k + 1] == services[..k] + [services[k]];
        m := m[services[k].topic := services[k].typ];
      }
      assert services[..|services|] == services;
    }

    method StopRemoved(newServices: map<string, string>)
      requires WellFormed(State())
      modifies this
      ensures Stopped(old(State()), State(), newServices.Keys, {})
    {
      var rest := cancels.Keys;
      while rest != {}
        invariant forall t :: t in rest ==> t in cancels
        invariant Stopped(old(State()), State(), newServices.Keys, rest)
        decreases |rest|
      {
        var topic :| topic in rest;
        if topic !in newServices {
          StopStep(old(State()), State(), newServices.Keys, rest, topic);
          CancelTopic(topic);
        }
        rest := rest - {topic};
      }
    }

    method CancelTopic(topic: string)
      requires WellFormed(State()) && topic in cancels
      modifies this
      ensures State() == Cancel(old(State()), topic)
    {
      var i := cancels[topic];
      workers := workers[i := workers[i].(cancelled := true)];
      cancels := cancels - {topic};
    }

    method StartAdded(newServices: map<string, string>)
      requires WellFormed(State()) && forall t :: t in cancels ==> t in newServices
      modifies this
      ensures Adding(old(State()), State(), newServices, {})
    {
      var rest := newServices.Keys;
      while rest != {}
        invariant rest <= newServices.Keys
        invariant Adding(old(State()), State(), newServices, rest)
        decreases |rest|
      {
        var topic :| topic in rest;
        assert rest == (rest - {topic}) + {topic};
        rest := rest - {topic};
        if topic !in cancels {
          AddStep(old(State()), State(), newServices, rest, topic);
          StartLocked(topic, newServices[topic]);
        }
      }
    }
  }
}
