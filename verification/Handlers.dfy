/**
The handlers as the sequential code they are, running against services that every
other handler keeps using.  Each external call first lets all others take any number
of steps and is then one step of the protocol machine; the place a call is made at is
its argument, so the code can only make the calls the machine expects, in its order.
*/
module Handlers {
  import opened Wrappers
  import opened Protocol
  import opened ProtocolInvariant
  import opened Priority

  /** The handler whose code is running: a gateway request that created a job, or a thread. */
  datatype Me = Request(j: JobId) | Worker(t: Tid)

  /** Actions that advance or kill the running handler. */
  predicate By(s: State, a: Action, me: Me) {
    match me
    case Request(j) => (a.Gateway? && a.j == j) || (a.GatewayCrash? && a.j == j)
    case Worker(t) =>
      || (a.Advance? && a.t == t)
      || (a.Crash? && a.t == t)
      || (a.PodCrash? && t in s.threads && s.threads[t].Relay? && s.threads[t].pod == a.pod)
  }

  predicate Alive(s: State, me: Me) {
    match me
    case Request(j) => j in s.gateway
    case Worker(t) => t in s.threads
  }

  /** What the running handler knows of itself, whatever the others do. */
  predicate SameSelf(s: State, s': State, me: Me)
    requires Alive(s, me)
  {
    match me
    case Request(j) => j in s'.gateway && s'.gateway[j].pc == s.gateway[j].pc && s'.gateway[j].kind == s.gateway[j].kind
    case Worker(t) => t in s'.threads && s'.threads[t] == s.threads[t]
  }

  lemma PerformKeepsPlace(s: State, e: Effect, j: JobId)
    requires j in s.gateway
    ensures SameSelf(s, Perform(s, e), Request(j))
  {
  }

  lemma ResumeKeepsPlace(s: State, s1: State, t: Tid, th: Thread, m: Move<Option<Thread>>, spawn: Tid, j: JobId)
    requires j in s.gateway && SameSelf(s, s1, Request(j))
    ensures SameSelf(s, Resume(s1, t, th, m, spawn), Request(j))
  {
  }

  lemma OthersStepKeepsGateway(s: State, a: Action, j: JobId)
    requires j in s.gateway && !By(s, a, Request(j))
    ensures SameSelf(s, Next(s, a), Request(j))
  {
    if Enabled(s, a) {
      match a
      case Advance(t, o, spawn) =>
        var m := ThreadMove(s, s.threads[t], o);
        PerformKeepsPlace(s, m.effect, j);
        ResumeKeepsPlace(s, Perform(s, m.effect), t, s.threads[t], m, spawn, j);
      case Gateway(i, o, _) => PerformKeepsPlace(s, GatewayMove(s, i, o).effect, j);
      case _ =>
    }
  }

  lemma OthersStepKeepsThread(s: State, a: Action, t: Tid)
    requires t in s.threads && !By(s, a, Worker(t))
    ensures SameSelf(s, Next(s, a), Worker(t))
  {
    if Enabled(s, a) {
      match a
      case Advance(u, o, spawn) =>
        var m := ThreadMove(s, s.threads[u], o);
        PerformThreads(s, m.effect);
        ResumeShape(Perform(s, m.effect), u, s.threads[u], m, spawn);
      case Gateway(j, o, _) => PerformThreads(s, GatewayMove(s, j, o).effect);
      case _ =>
    }
  }

  /** Thread ids never run out. */
  ghost function Above(ids: set<Tid>): (b: Tid)
    ensures forall t :: t in ids ==> t < b
  {
    if ids == {} then 0 else
      var t :| t in ids;
      var b := Above(ids - {t});
      assert forall u :: u in ids ==> u == t || u in ids - {t};
      if t < b then b else t + 1
  }

  // ---------------------------------------------------------------- what a call leads to

  /** Where the relay goes after the call made at `op`, given whether its code saw it succeed. */
  predicate AfterRelay(op: RelayPc, ok: bool, pc: RelayPc) {
    match op
    case Gate => pc == if ok then Fetch else Leave(503)
    case Fetch => pc == if ok then Infer else Leave(500)
    case Infer => if ok then pc.Put? else pc.Report?
    case Put => pc == if ok then Announce else Leave(500)
    case Announce => pc.Ack?
    case Report(_) => pc == if ok then Discard else Leave(500)
    case Discard => pc.Ack?
    case Ack => pc == Leave(200)
    case Leave(_) => false
  }

  predicate AfterGateway(op: GatewayPc, kind: Kind, ok: bool, pc: GatewayPc) {
    match op
    case Uploading => pc == if ok then Saving else Closed(500)
    case Saving => pc == if !ok then Closed(500) else if kind.Sync? then Subscribing else Publishing
    case Subscribing => pc.Publishing?
    case Publishing =>
      pc == if kind.Sync? then (if ok then Waiting else Closed(500)) else if ok then Closed(202) else Compensating
    case Compensating => pc == Closed(500)
    case Waiting => pc == if ok then Reading else Closed(504)
    case Reading => if ok then pc.Fetching? || pc == Closed(422) else pc == Closed(500)
    case Fetching(_) => pc == Closed(if ok then 200 else 500)
    case Closed(_) => false
  }

  /** Whether the relay's code sees its call succeed. */
  predicate RelaySees(s: State, pod: Pod, j: JobId, op: RelayPc, o: Outcome) {
    match op
    case Gate => Protocol.Priority(s, pod) <= 0
    case Fetch => o.Ok? && InputKey(j) in s.objects
    case _ => o.Ok?
  }

  lemma RelayFollows(s: State, t: Tid, o: Outcome, spawn: Tid)
    requires t in s.threads && s.threads[t].Relay? && !s.threads[t].relayPc.Leave? && spawn !in s.threads
    ensures var s', th := Next(s, Advance(t, o, spawn)), s.threads[t];
      && t in s'.threads && s'.threads[t].Relay?
      && s'.threads[t] == th.(relayPc := s'.threads[t].relayPc)
      && AfterRelay(th.relayPc, RelaySees(s, th.pod, th.id, th.relayPc, o), s'.threads[t].relayPc)
  {
    var m := ThreadMove(s, s.threads[t], o);
    PerformThreads(s, m.effect);
    ResumeShape(Perform(s, m.effect), t, s.threads[t], m, spawn);
  }

  predicate GatewaySees(s: State, j: JobId, op: GatewayPc, o: Outcome)
    requires j in s.gateway
  {
    match op
    case Waiting => o.Ok? && s.gateway[j].mail > 0
    case Reading => o.Ok? && j in s.jobs
    case Fetching(rec) => CanRead(s, rec, o)
    case _ => o.Ok?
  }

  lemma GatewayMoves(s: State, j: JobId, o: Outcome)
    requires j in s.gateway && !s.gateway[j].pc.Closed?
    requires s.gateway[j].pc.Waiting? ==> o.Err? || s.gateway[j].mail > 0
    ensures var h := s.gateway[j];
      AfterGateway(h.pc, h.kind, GatewaySees(s, j, h.pc, o), GatewayMove(s, j, o).pc)
  {
  }

  lemma GatewayFollows(s: State, j: JobId, o: Outcome, spawn: Tid)
    requires j in s.gateway && spawn !in s.threads
    ensures var s' := Next(s, Protocol.Gateway(j, o, spawn));
      && j in s'.gateway && s'.gateway[j].kind == s.gateway[j].kind
      && s'.gateway[j].pc == GatewayMove(s, j, o).pc
  {
    PerformKeepsPlace(s, GatewayMove(s, j, o).effect, j);
  }

  /** What the call at `op` leaves behind, beyond the handler's own place. */
  ghost predicate GatewayLeaves(s: State, j: JobId, op: GatewayPc, ok: bool) {
    match op
    case Publishing => if ok then j in s.inputs && Abandoned(j) !in s.trace else Abandoned(j) in s.trace
    case Reading => Notified(j) in s.trace
    case Fetching(_) => (if ok then Delivered(j) else Misread(j)) in s.trace
    case Compensating => ok && j in s.jobs ==> s.jobs[j] == Record(Failed, None, "failed to enqueue")
    case _ => BeforePublish(op) ==> j !in s.inputs
  }

  lemma GatewayLeft(s: State, j: JobId, o: Outcome, spawn: Tid)
    requires j in s.gateway && JobOk(s, j) && spawn !in s.threads
    ensures GatewayLeaves(GatewayNext(s, j, o, spawn), j, s.gateway[j].pc, GatewaySees(s, j, s.gateway[j].pc, o))
  {
  }

  /** `ok` is what the code of `handleResult` sees; it goes on to `next`, or has returned. */
  lemma ApplierFollows(s: State, t: Tid, o: Outcome, spawn: Tid)
    requires t in s.threads && s.threads[t].Applier? && spawn !in s.threads
    ensures var s', th := Next(s, Advance(t, o, spawn)), s.threads[t];
      var ok := o.Ok? && (th.applyPc.Notify? || th.ev.id in s.jobs);
      && (t in s'.threads <==> ok && !th.applyPc.Notify?)
      && (t in s'.threads ==> s'.threads[t] == Applier(th.ev, if th.applyPc.Patch? then ReadBack else Notify))
      && (th.applyPc.Notify? && ok ==> Notified(th.ev.id) in s'.trace)
      && (th.applyPc.Patch? && ok ==> th.ev.id in s'.jobs && s'.jobs[th.ev.id] == RecordOf(th.ev))
      && (th.applyPc.ReadBack? && ok ==> th.ev.id in s'.jobs)
  {
    var m := ThreadMove(s, s.threads[t], o);
    PerformThreads(s, m.effect);
    ResumeShape(Perform(s, m.effect), t, s.threads[t], m, spawn);
    NextIsEffect(s, Advance(t, o, spawn));
  }

  /** A completed record leads the reader to the result object; a cleanup follows whether or not it was read. */
  lemma GetterFollows(s: State, t: Tid, o: Outcome, spawn: Tid)
    requires t in s.threads && s.threads[t].Getter? && spawn !in s.threads
    ensures var s', th := Next(s, Advance(t, o, spawn)), s.threads[t];
      && (t in s'.threads ==> th.getPc.Lookup? && s'.threads[t].Getter? && s'.threads[t].id == th.id)
      && (t in s'.threads ==> s'.threads[t].getPc.Serve?)
      && (th.getPc.Serve? ==> (if CanRead(s, th.getPc.rec, o) then Delivered(th.id) else Misread(th.id)) in s'.trace)
      && (th.getPc.Serve? ==> spawn in s'.threads && s'.threads[spawn] == Cleaner(th.id, DropResult))
  {
    var m := ThreadMove(s, s.threads[t], o);
    PerformThreads(s, m.effect);
    ResumeShape(Perform(s, m.effect), t, s.threads[t], m, spawn);
    NextIsEffect(s, Advance(t, o, spawn));
  }

  class Cluster {
    var s: State

    ghost predicate Valid()
      reads this
    {
      Inv(s) && Counted(s)
    }

    constructor ()
      ensures Valid() && s == Init()
    {
      s := Init();
    }

    /** One step of anyone. */
    method Take(a: Action)
      requires Valid()
      modifies this
      ensures Valid() && s == Next(old(s), a) && Grows(old(s), s)
    {
      NextInv(s, a);
      NextCounts(s, a);
      s := Next(s, a);
    }

    /** Everyone else takes any number of steps. */
    method Others(me: Me)
      requires Valid() && Alive(s, me)
      modifies this
      ensures Valid() && Grows(old(s), s) && SameSelf(old(s), s, me)
    {
      var n: nat :| true;
      for i := 0 to n
        invariant Valid() && Grows(old(s), s) && SameSelf(old(s), s, me)
      {
        var a: Action := *;
        if !By(s, a, me) {
          ghost var before := s;
          Take(a);
          GrowsTransitive(old(s), before, s);
          match me {
            case Request(j) => OthersStepKeepsGateway(before, a, j);
            case Worker(t) => OthersStepKeepsThread(before, a, t);
          }
        }
      }
    }

    /** Some thread id that is free. */
    method FreshId() returns (spawn: Tid)
      ensures spawn !in s.threads
    {
      assert Above(s.threads.Keys) !in s.threads;
      spawn :| spawn !in s.threads;
    }

    predicate RelayAt(t: Tid, op: RelayPc)
      reads this
    {
      t in s.threads && s.threads[t].Relay? && s.threads[t].relayPc == op
    }

    /** The relay request `t` makes the call at `op` in state `at`; `ok` is what its code sees. */
    method Relay(t: Tid, op: RelayPc) returns (ok: bool, ghost at: State)
      requires Valid() && RelayAt(t, op) && !op.Leave?
      modifies this
      ensures Valid() && Grows(old(s), s) && Counted(at) && Grows(old(s), at)
      ensures op.Gate? ==> ok == (Protocol.Priority(at, old(s.threads[t].pod)) <= 0)
      ensures t in s.threads && s.threads[t].Relay? && AfterRelay(op, ok, s.threads[t].relayPc)
      ensures s.threads[t] == old(s.threads[t]).(relayPc := s.threads[t].relayPc)
    {
      Others(Worker(t));
      at := s;
      var o: Outcome := *;
      var spawn := FreshId();
      ok := RelaySees(s, s.threads[t].pod, s.threads[t].id, op, o);
      RelayFollows(s, t, o, spawn);
      Take(Advance(t, o, spawn));
      GrowsTransitive(old(s), at, s);
    }

    predicate GatewayAt(j: JobId, kind: Kind, op: GatewayPc)
      reads this
    {
      j in s.gateway && s.gateway[j].kind == kind && s.gateway[j].pc == op
    }

    /** The gateway request of job `j` makes the call at `op`; `ok` is what its code sees. */
    method Gateway(j: JobId, kind: Kind, op: GatewayPc) returns (ok: bool)
      requires Valid() && GatewayAt(j, kind, op) && !op.Closed?
      modifies this
      ensures Valid() && Grows(old(s), s)
      ensures j in s.gateway && s.gateway[j].kind == kind && AfterGateway(op, kind, ok, s.gateway[j].pc)
      ensures GatewayLeaves(s, j, op, ok)
    {
      Others(Request(j));
      ghost var mid := s;
      var o: Outcome := *;
      if op.Waiting? && s.gateway[j].mail == 0 {
        o := Err(false, "context done");
      }
      var spawn := FreshId();
      ok := GatewaySees(s, j, op, o);
      GatewayMoves(s, j, o);
      GatewayFollows(s, j, o, spawn);
      GatewayLeft(s, j, o, spawn);
      Take(Protocol.Gateway(j, o, spawn));
      GrowsTransitive(old(s), mid, s);
    }

    predicate ApplierAt(t: Tid, ev: ResultEvent, op: ApplyPc)
      reads this
    {
      t in s.threads && s.threads[t] == Applier(ev, op)
    }

    /** The result handler `t` makes the call at `op`; success of an update or read shows in the record. */
    method Apply(t: Tid, ev: ResultEvent, op: ApplyPc) returns (ok: bool)
      requires Valid() && ApplierAt(t, ev, op)
      modifies this
      ensures Valid() && Grows(old(s), s)
      ensures if ok && !op.Notify? then ApplierAt(t, ev, if op.Patch? then ReadBack else Notify) else t !in s.threads
      ensures op.Notify? && ok ==> Notified(ev.id) in s.trace
      ensures op.Patch? && ok ==> ev.id in s.jobs && s.jobs[ev.id] == RecordOf(ev)
      ensures op.ReadBack? && ok ==> ev.id in s.jobs
    {
      Others(Worker(t));
      ghost var mid := s;
      var o: Outcome := *;
      var spawn := FreshId();
      ok := o.Ok? && (op.Notify? || ev.id in s.jobs);
      ApplierFollows(s, t, o, spawn);
      Take(Advance(t, o, spawn));
      GrowsTransitive(old(s), mid, s);
    }

    predicate GetterAt(t: Tid, j: JobId)
      reads this
    {
      t in s.threads && s.threads[t].Getter? && s.threads[t].id == j
    }

    /** The status request `t` makes its next call. */
    method Read(t: Tid, j: JobId) returns (ok: bool, ghost op: GetPc)
      requires Valid() && GetterAt(t, j)
      modifies this
      ensures Valid() && Grows(old(s), s) && op == old(s.threads[t].getPc)
      ensures t in s.threads ==> GetterAt(t, j) && op.Lookup? && s.threads[t].getPc.Serve?
      ensures op.Serve? ==> (if ok then Delivered(j) else Misread(j)) in s.trace
      ensures op.Serve? ==> exists u :: u in s.threads && s.threads[u] == Cleaner(j, DropResult)
    {
      op := s.threads[t].getPc;
      Others(Worker(t));
      ghost var mid := s;
      var o: Outcome := *;
      var spawn := FreshId();
      ok := match s.threads[t].getPc
        case Lookup => o.Ok?
        case Serve(rec) => CanRead(s, rec, o);
      GetterFollows(s, t, o, spawn);
      Take(Advance(t, o, spawn));
      GrowsTransitive(old(s), mid, s);
    }
  }

  // ---------------------------------------------------------------- the relay

  /** `process`: an error asks KafkaSource to retry; success means the outcome is secured. */
  method Process(c: Cluster, t: Tid) returns (err: bool)
    requires c.Valid() && c.RelayAt(t, Fetch)
    modifies c
    ensures c.Valid() && Grows(old(c.s), c.s)
    ensures err ==> c.RelayAt(t, Leave(500))
    ensures !err ==> c.RelayAt(t, Ack) && Settled(c.s, c.s.threads[t].id)
    ensures c.s.threads[t].id == old(c.s.threads[t].id) && c.s.threads[t].sync == old(c.s.threads[t].sync)
  {
    var ok, at := c.Relay(t, Fetch);                        // s3.GetObject
    if !ok {
      return true;
    }
    ok, at := c.Relay(t, Infer);                            // adapter.Call
    if !ok {
      var report := c.s.threads[t].relayPc;
      ok, at := c.Relay(t, report);                         // publishFailure
      if !ok {
        return true;
      }
      ok, at := c.Relay(t, Discard);                        // s3.DeleteObject, errors are logged
    } else {
      ok, at := c.Relay(t, Put);                            // s3.PutObject
      if !ok {
        return true;
      }
      ok, at := c.Relay(t, Announce);                       // PublishResultEvent, errors are logged
    }
    err := false;
    assert ThreadOk(c.s, c.s.threads[t]);
  }

  /** `serveHTTP` for a well-formed event. */
  method ServeEvent(c: Cluster, t: Tid) returns (code: nat)
    requires c.Valid() && c.RelayAt(t, Fetch)
    modifies c
    ensures c.Valid() && Grows(old(c.s), c.s) && (code == 200 || code == 500)
    ensures c.RelayAt(t, Leave(code)) && (code == 200 ==> Settled(c.s, c.s.threads[t].id))
    ensures c.s.threads[t].id == old(c.s.threads[t].id) && c.s.threads[t].sync == old(c.s.threads[t].sync)
  {
    var err := Process(c, t);
    if err {
      return 500;
    }
    var _, _ := c.Relay(t, Ack);                           // WriteHeader(200), then go DeleteObject
    code := 200;
    assert ThreadOk(c.s, c.s.threads[t]);
  }

  lemma LeaveEnds(s: State, t: Tid, spawn: Tid)
    requires t in s.threads && s.threads[t].Relay? && s.threads[t].relayPc.Leave? && spawn !in s.threads
    ensures t !in Next(s, Advance(t, Ok, spawn)).threads
  {
    ResumeShape(s, t, s.threads[t], ThreadMove(s, s.threads[t], Ok), spawn);
  }

  /** The handler returns; for `/sync` the deferred decrement runs. */
  method Return(c: Cluster, t: Tid)
    requires c.Valid() && t in c.s.threads && c.s.threads[t].Relay? && c.s.threads[t].relayPc.Leave?
    modifies c
    ensures c.Valid() && Grows(old(c.s), c.s) && t !in c.s.threads
  {
    c.Others(Worker(t));
    ghost var mid := c.s;
    var spawn := c.FreshId();
    LeaveEnds(mid, t, spawn);
    c.Take(Advance(t, Ok, spawn));
    GrowsTransitive(old(c.s), mid, c.s);
  }

  /** `POST /`: deferred with 503 exactly when, at the gate, a `/sync` request is in flight on the pod. */
  method ServeHTTP(c: Cluster, t: Tid, pod: Pod, j: JobId) returns (code: nat, ghost gate: State)
    requires c.Valid() && t !in c.s.threads && j in c.s.inputs
    modifies c
    ensures c.Valid() && Grows(old(c.s), c.s) && t !in c.s.threads
    ensures code == 200 || code == 500 || code == 503
    ensures code == 200 ==> Settled(c.s, j)
    ensures Grows(old(c.s), gate) && (code == 503 <==> InFlight(gate, pod) != {})
  {
    c.Take(Deliver(t, pod, false, j));
    var open;
    open, gate := c.Relay(t, Gate);
    code := 503;
    if open {
      code := ServeEvent(c, t);
    }
    assert Protocol.Priority(gate, pod) == |InFlight(gate, pod)|;
    Return(c, t);
  }

  /** `POST /sync`: counted from its first statement to its return. */
  method ServeHTTPSync(c: Cluster, t: Tid, pod: Pod, j: JobId) returns (code: nat)
    requires c.Valid() && t !in c.s.threads && j in c.s.inputs
    modifies c
    ensures c.Valid() && Grows(old(c.s), c.s) && t !in c.s.threads
    ensures code == 200 || code == 500
    ensures code == 200 ==> Settled(c.s, j)
  {
    c.Take(Deliver(t, pod, true, j));
    code := ServeEvent(c, t);
    Return(c, t);
  }

  // ---------------------------------------------------------------- the gateway

  /**
  `handleResult`: without an error the record was updated in state `updated`, then found in
  state `found`, and only then could anyone be notified; an error keeps the offset uncommitted.
  */
  method HandleResult(c: Cluster, t: Tid, ev: ResultEvent)
    returns (err: bool, notified: bool, ghost updated: State, ghost found: State)
    requires c.Valid() && t !in c.s.threads && ev in c.s.results
    modifies c
    ensures c.Valid() && t !in c.s.threads
    ensures Grows(old(c.s), updated) && Grows(updated, found) && Grows(found, c.s)
    ensures err ==> !notified
    ensures !err ==>
      && ev.id in updated.jobs && ev.id in found.jobs
      && updated.jobs[ev.id].status == ev.status && updated.jobs[ev.id].ref == ev.ref
      && updated.jobs[ev.id].error == ev.error
    ensures notified ==> Notified(ev.id) in c.s.trace
  {
    ghost var start := c.s;
    c.Take(Consume(t, ev));
    ghost var began := c.s;
    var ok := c.Apply(t, ev, Patch);                    // UpdateJobResult
    GrowsTransitive(start, began, c.s);
    updated, found := c.s, c.s;
    if !ok {
      return true, false, updated, found;
    }
    ok := c.Apply(t, ev, ReadBack);                     // GetJob, before notifying
    found := c.s;
    if !ok {
      return true, false, updated, found;
    }
    notified := c.Apply(t, ev, Notify);                 // NotifyJobDone, errors are logged
    err := false;
  }

  /**
  `Submit` after validation, with a fresh job id: 202 exactly when the event was enqueued
  without error.  When the publish failed, and marking the job as failed succeeded, its record
  says so, if it is still there.
  */
  method Submit(c: Cluster, j: JobId) returns (code: nat, ghost marked: bool)
    requires c.Valid() && j !in c.s.gateway
    modifies c
    ensures c.Valid() && Grows(old(c.s), c.s) && (code == 202 || code == 500)
    ensures code == 202 <==> j in c.s.inputs && Abandoned(j) !in c.s.trace
    ensures marked ==> code == 500 && Abandoned(j) in c.s.trace
    ensures marked && j in c.s.jobs ==>
      c.s.jobs[j].status.Failed? && c.s.jobs[j].ref.None? && c.s.jobs[j].error == "failed to enqueue"
  {
    marked := false;
    c.Take(Arrive(j, Async));
    var ok := c.Gateway(j, Async, Uploading);           // store.Upload
    if !ok {
      return 500, marked;
    }
    ok := c.Gateway(j, Async, Saving);                  // redis.SaveJob
    if !ok {
      return 500, marked;
    }
    ok := c.Gateway(j, Async, Publishing);              // producer.PublishInputEvent
    if !ok {
      ok := c.Gateway(j, Async, Compensating);          // redis.UpdateJobResult, then go DeleteObject
      marked := ok;
      return 500, marked;
    }
    return 202, marked;
  }

  /**
  `handleMultipartViaKafka` after validation: 200 only when the result was read for a
  client, 422 and 500-after-wait only once the job's notification was accepted.
  */
  method HandleMultipartViaKafka(c: Cluster, j: JobId) returns (code: nat)
    requires c.Valid() && j !in c.s.gateway
    modifies c
    ensures c.Valid() && Grows(old(c.s), c.s)
    ensures code == 200 || code == 422 || code == 500 || code == 504
    ensures code == 200 ==> Delivered(j) in c.s.trace
    ensures code == 422 ==> Notified(j) in c.s.trace
    ensures code == 504 ==> j in c.s.inputs
    ensures code == 500 ==> j !in c.s.inputs || Abandoned(j) in c.s.trace || Notified(j) in c.s.trace
  {
    c.Take(Arrive(j, Sync));
    var ok := c.Gateway(j, Sync, Uploading);            // s3.Upload
    if !ok {
      return 500;
    }
    ok := c.Gateway(j, Sync, Saving);                   // redis.SaveJob
    if !ok {
      return 500;
    }
    ok := c.Gateway(j, Sync, Subscribing);              // redis.SubscribeJobDone, before publishing
    ok := c.Gateway(j, Sync, Publishing);               // producer.PublishInputEvent
    if !ok {
      return 500;
    }
    code := AwaitResult(c, j);
  }

  /** The second half of `handleMultipartViaKafka`, once the event is enqueued. */
  method AwaitResult(c: Cluster, j: JobId) returns (code: nat)
    requires c.Valid() && c.GatewayAt(j, Sync, Waiting)
    modifies c
    ensures c.Valid() && Grows(old(c.s), c.s)
    ensures code == 200 || code == 422 || code == 500 || code == 504
    ensures code == 200 ==> Delivered(j) in c.s.trace
    ensures code == 422 || code == 500 ==> Notified(j) in c.s.trace
  {
    var ok := c.Gateway(j, Sync, Waiting);              // sub.Wait
    if !ok {
      return 504;
    }
    ok := c.Gateway(j, Sync, Reading);                  // redis.GetJob
    if !ok {
      return 500;
    }
    if c.s.gateway[j].pc == Closed(422) {
      return 422;
    }
    var fetch := c.s.gateway[j].pc;
    ok := c.Gateway(j, Sync, fetch);                    // s3.GetObject, then go cleanup
    return if ok then 200 else 500;
  }

  /** `GetStatus`: for a completed job the cleanup is started whether or not the result could be read. */
  method GetStatus(c: Cluster, t: Tid, j: JobId) returns (completed: bool, inlined: bool)
    requires c.Valid() && t !in c.s.threads
    modifies c
    ensures c.Valid() && Grows(old(c.s), c.s) && t !in c.s.threads
    ensures inlined ==> completed && Delivered(j) in c.s.trace
    ensures completed ==> exists u :: u in c.s.threads && c.s.threads[u] == Cleaner(j, DropResult)
    ensures completed && !inlined ==> Misread(j) in c.s.trace
  {
    c.Take(Get(t, j));
    var _, op := c.Read(t, j);                          // redis.GetJob and the checks on its result
    completed := t in c.s.threads;
    inlined := false;
    if completed {
      inlined, op := c.Read(t, j);                      // store.GetObject, then go cleanup
    }
  }
}
