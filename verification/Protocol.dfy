/**
The job protocol between the gateway, Redis, Kafka, S3 and the relay, as a state
machine.  One action is one external call of one handler (or goroutine), together
with the local bookkeeping up to its next external call; every interleaving of the
handlers is therefore a sequence of actions.  Any external call may fail, and a
failing S3 or Redis call may or may not have taken effect.
*/
module Protocol {
  import opened Wrappers

  type JobId = nat
  type Tid = nat
  type Pod = nat

  /** S3 object keys: `{id}/input.ext` and `{id}/result.json`. */
  datatype Key = InputKey(id: JobId) | ResultKey(id: JobId)

  datatype Status = Pending | Completed | Failed

  /** The mutable part of the job record kept in Redis. */
  datatype Record = Record(status: Status, ref: Option<Key>, error: string)

  datatype ResultEvent = ResultEvent(id: JobId, status: Status, ref: Option<Key>, error: string)

  /** What a caller learns from an external call, and whether a failed call took effect. */
  datatype Outcome = Ok | Err(applied: bool, msg: string)

  predicate Applied(o: Outcome) {
    o.Ok? || o.applied
  }

  // ---------------------------------------------------------------- handlers

  datatype Kind = Async | Sync

  /** Where the gateway handler that created a job stands; `Closed` carries the HTTP status. */
  datatype GatewayPc =
    | Uploading
    | Saving
    | Subscribing
    | Publishing
    | Compensating
    | Waiting
    | Reading
    | Fetching(rec: Record)
    | Closed(code: nat)

  /** `mail` counts the notifications buffered in the handler's subscription. */
  datatype Handler = Handler(kind: Kind, pc: GatewayPc, mail: nat)

  /** The subscription lives from `SubscribeJobDone` to the deferred `Close`. */
  predicate Subscribed(h: Handler) {
    h.kind.Sync? && (h.pc.Publishing? || h.pc.Waiting? || h.pc.Reading? || h.pc.Fetching?)
  }

  /** The relay's `serveHTTP` and `process`; `Leave` carries the HTTP status. */
  datatype RelayPc = Gate | Fetch | Infer | Put | Announce | Report(msg: string) | Discard | Ack | Leave(code: nat)

  /** `handleResult`: update the record, read it back, notify. */
  datatype ApplyPc = Patch | ReadBack | Notify

  /** `GetStatus`. */
  datatype GetPc = Lookup | Serve(rec: Record)

  /** Detached delete goroutines. */
  datatype Task = DropInput | DropResult | DropRecord | DropOrphan

  datatype Thread =
    | Relay(pod: Pod, sync: bool, id: JobId, relayPc: RelayPc)
    | Applier(ev: ResultEvent, applyPc: ApplyPc)
    | Getter(id: JobId, getPc: GetPc)
    | Cleaner(id: JobId, task: Task)

  function Subject(th: Thread): JobId {
    if th.Applier? then th.ev.id else th.id
  }

  // ---------------------------------------------------------------- the services

  /**
  What has happened so far: an object was put; a record was removed; Redis accepted a
  notification; an input publish reported an error; a completed event was not
  published and the relay went on; a cleanup removed a result; a result was, or could
  not be, read for a client; an outside GET or the TTL touched the job.
  */
  datatype Fact =
    | Stored(key: Key)
    | Gone(id: JobId)
    | Notified(id: JobId)
    | Abandoned(id: JobId)
    | Swallowed(id: JobId)
    | Cleaned(id: JobId)
    | Delivered(id: JobId)
    | Misread(id: JobId)
    | Disturbed(id: JobId)

  /** The services' contents, the history, the handlers, and each relay pod's `syncPriority`. */
  datatype State = State(
    jobs: map<JobId, Record>,
    objects: set<Key>,
    inputs: set<JobId>,
    results: set<ResultEvent>,
    trace: set<Fact>,
    gateway: map<JobId, Handler>,
    threads: map<Tid, Thread>,
    priority: map<Pod, int>)

  function Init(): State {
    State(map[], {}, {}, {}, {}, map[], map[], map[])
  }

  /** What one external call does to the services. */
  datatype Effect =
    | Nothing
    | PutObject(key: Key)
    | DeleteObject(key: Key)
    | SaveJob(id: JobId)
    | UpdateJob(id: JobId, rec: Record)
    | DeleteJob(id: JobId)
    | ExpireJob(id: JobId)
    | Publish(id: JobId)
    | LosePublish(id: JobId, applied: bool)
    | PublishResult(ev: ResultEvent)
    | NotifyDone(id: JobId)
    | Note(fact: Fact)

  /** The job an effect is about. */
  function Target(e: Effect): Option<JobId> {
    match e
    case Nothing => None
    case PutObject(key) => Some(key.id)
    case DeleteObject(key) => Some(key.id)
    case PublishResult(ev) => Some(ev.id)
    case Note(fact) => Some(FactId(fact))
    case SaveJob(id) => Some(id)
    case UpdateJob(id, _) => Some(id)
    case DeleteJob(id) => Some(id)
    case ExpireJob(id) => Some(id)
    case Publish(id) => Some(id)
    case LosePublish(id, _) => Some(id)
    case NotifyDone(id) => Some(id)
  }

  function FactId(f: Fact): JobId {
    if f.Stored? then f.key.id else f.id
  }

  /**
  `UpdateJob` is an error reply without effect when the record is missing, and a
  notification reaches the subscription that exists at that moment.
  */
  function Perform(s: State, e: Effect): State {
    match e
    case Nothing => s
    case PutObject(key) => s.(objects := s.objects + {key}, trace := s.trace + {Stored(key)})
    case DeleteObject(key) =>
      s.(objects := s.objects - {key},
         trace := if key.ResultKey? then s.trace + {Cleaned(key.id)} else s.trace)
    case SaveJob(j) => s.(jobs := s.jobs[j := Record(Pending, None, "")])
    case UpdateJob(j, rec) => if j in s.jobs then s.(jobs := s.jobs[j := rec]) else s
    case DeleteJob(j) => if j in s.jobs then s.(jobs := s.jobs - {j}, trace := s.trace + {Gone(j)}) else s
    case ExpireJob(j) => s.(jobs := s.jobs - {j}, trace := s.trace + {Gone(j), Disturbed(j)})
    case Publish(j) => s.(inputs := s.inputs + {j})
    case LosePublish(j, applied) =>
      s.(inputs := if applied then s.inputs + {j} else s.inputs, trace := s.trace + {Abandoned(j)})
    case PublishResult(ev) => s.(results := s.results + {ev})
    case NotifyDone(j) =>
      s.(trace := s.trace + {Notified(j)},
         gateway := if j in s.gateway && Subscribed(s.gateway[j])
           then s.gateway[j := s.gateway[j].(mail := s.gateway[j].mail + 1)]
           else s.gateway)
    case Note(fact) => s.(trace := s.trace + {fact})
  }

  /** The effect of a call that may have failed without being applied. */
  function When(o: Outcome, e: Effect): Effect {
    if Applied(o) then e else Nothing
  }

  // ---------------------------------------------------------------- one step of each handler

  /** One step: the call's effect, where the handler goes next, and the goroutine it spawns. */
  datatype Move<Pc> = Move(effect: Effect, pc: Pc, spawn: Option<Task>)

  /** `Submit` and `handleMultipartViaKafka`. */
  function GatewayMove(s: State, j: JobId, o: Outcome): Move<GatewayPc>
    requires j in s.gateway
  {
    var h := s.gateway[j];
    match h.pc
    case Uploading => Move(When(o, PutObject(InputKey(j))), if o.Ok? then Saving else Closed(500), None)
    case Saving =>
      Move(When(o, SaveJob(j)),
           if o.Err? then Closed(500) else if h.kind.Sync? then Subscribing else Publishing,
           None)
    case Subscribing => Move(Nothing, Publishing, None)
    case Publishing =>
      if o.Ok? then Move(Publish(j), if h.kind.Sync? then Waiting else Closed(202), None)
      else if h.kind.Sync? then Move(LosePublish(j, o.applied), Closed(500), Some(DropOrphan))
      else Move(LosePublish(j, o.applied), Compensating, None)
    case Compensating =>
      Move(When(o, UpdateJob(j, Record(Failed, None, "failed to enqueue"))), Closed(500), Some(DropInput))
    case Waiting =>
      Move(Nothing, if o.Err? then Closed(504) else if h.mail > 0 then Reading else Waiting, None)
    case Reading =>
      if o.Err? || j !in s.jobs then Move(Nothing, Closed(500), None)
      else if s.jobs[j].status.Failed? then Move(Nothing, Closed(422), Some(Cleanup(s.jobs[j])))
      else Move(Nothing, Fetching(s.jobs[j]), None)
    case Fetching(rec) =>
      if CanRead(s, rec, o)
      then Move(Note(Delivered(j)), Closed(200), Some(Cleanup(rec)))
      else Move(Note(Misread(j)), Closed(500), Some(Cleanup(rec)))
    case Closed(_) => Move(Nothing, h.pc, None)
  }

  /** The cleanup goroutine of the sync handler: the result object only if the record named one. */
  function Cleanup(rec: Record): Task {
    if rec.ref.Some? then DropResult else DropRecord
  }

  /** Reading the result object a record refers to. */
  predicate CanRead(s: State, rec: Record, o: Outcome) {
    o.Ok? && rec.ref.Some? && rec.ref.value in s.objects
  }

  function Priority(s: State, p: Pod): int {
    if p in s.priority then s.priority[p] else 0
  }

  /** What `updateJobScript` makes of a record. */
  function RecordOf(ev: ResultEvent): (rec: Record)
    ensures rec.status == ev.status && rec.ref == ev.ref && rec.error == ev.error
  {
    Record(ev.status, ev.ref, ev.error)
  }

  function CompletedEvent(j: JobId): ResultEvent {
    ResultEvent(j, Completed, Some(ResultKey(j)), "")
  }

  function FailedEvent(j: JobId, msg: string): ResultEvent {
    ResultEvent(j, Failed, None, "inference: " + msg)
  }

  /** `ServeHTTP`, `serveHTTP` and `process`; at `Leave` the response is written and the request is over. */
  function RelayMove(s: State, pod: Pod, j: JobId, pc: RelayPc, o: Outcome): Move<RelayPc> {
    match pc
    case Gate => Move(Nothing, if Priority(s, pod) > 0 then Leave(503) else Fetch, None)
    case Fetch => Move(Nothing, if o.Ok? && InputKey(j) in s.objects then Infer else Leave(500), None)
    case Infer => Move(Nothing, if o.Ok? then Put else Report(o.msg), None)
    case Put => Move(When(o, PutObject(ResultKey(j))), if o.Ok? then Announce else Leave(500), None)
    case Announce => Move(if Applied(o) then PublishResult(CompletedEvent(j)) else Note(Swallowed(j)), Ack, None)
    case Report(msg) =>
      Move(When(o, PublishResult(FailedEvent(j, msg))), if o.Ok? then Discard else Leave(500), None)
    case Discard => Move(When(o, DeleteObject(InputKey(j))), Ack, None)
    case Ack => Move(Nothing, Leave(200), Some(DropInput))
    case Leave(_) => Move(Nothing, pc, None)
  }

  /** `handleResult`; no next place when it returns. */
  function ApplyMove(s: State, ev: ResultEvent, pc: ApplyPc, o: Outcome): Move<Option<ApplyPc>> {
    match pc
    case Patch =>
      Move(When(o, UpdateJob(ev.id, RecordOf(ev))), if o.Ok? && ev.id in s.jobs then Some(ReadBack) else None, None)
    case ReadBack => Move(Nothing, if o.Ok? && ev.id in s.jobs then Some(Notify) else None, None)
    case Notify => Move(When(o, NotifyDone(ev.id)), None, None)
  }

  /** `GetStatus`: the cleanup runs for every completed record, also when its result could not be read. */
  function GetMove(s: State, j: JobId, pc: GetPc, o: Outcome): Move<Option<GetPc>> {
    match pc
    case Lookup =>
      Move(Nothing,
           if o.Ok? && j in s.jobs && s.jobs[j].status.Completed? && s.jobs[j].ref.Some?
           then Some(Serve(s.jobs[j])) else None,
           None)
    case Serve(rec) =>
      Move(Note(if CanRead(s, rec, o) then Delivered(j) else Misread(j)), None, Some(DropResult))
  }

  /** Detached goroutines: a failed delete is logged and the next one still runs. */
  function CleanMove(j: JobId, task: Task, o: Outcome): Move<Option<Task>> {
    match task
    case DropInput => Move(When(o, DeleteObject(InputKey(j))), None, None)
    case DropOrphan => Move(When(o, DeleteObject(InputKey(j))), Some(DropRecord), None)
    case DropResult => Move(When(o, DeleteObject(ResultKey(j))), Some(DropRecord), None)
    case DropRecord => Move(When(o, DeleteJob(j)), None, None)
  }

  // ---------------------------------------------------------------- the machine

  datatype Action =
    | Arrive(j: JobId, kind: Kind)
    | Gateway(j: JobId, o: Outcome, spawn: Tid)
    | GatewayCrash(j: JobId)
    | Deliver(t: Tid, pod: Pod, sync: bool, j: JobId)
    | Consume(t: Tid, ev: ResultEvent)
    | Get(t: Tid, j: JobId)
    | Advance(t: Tid, o: Outcome, spawn: Tid)
    | PodCrash(pod: Pod)
    | Crash(t: Tid)
    | Expire(j: JobId)

  predicate Enabled(s: State, a: Action) {
    match a
    case Arrive(j, _) => j !in s.gateway
    case Gateway(j, _, spawn) => j in s.gateway && spawn !in s.threads
    case GatewayCrash(j) => j in s.gateway && !s.gateway[j].pc.Closed?
    case Deliver(t, _, _, j) => t !in s.threads && j in s.inputs
    case Consume(t, ev) => t !in s.threads && ev in s.results
    case Get(t, _) => t !in s.threads
    case Advance(t, _, spawn) => t in s.threads && spawn !in s.threads
    case PodCrash(_) => true
    case Crash(t) => t in s.threads && !s.threads[t].Relay?
    case Expire(j) => j in s.jobs
  }

  /** One step; an action that is not enabled changes nothing. */
  function Next(s: State, a: Action): State {
    if !Enabled(s, a) then s else
    match a
    case Arrive(j, kind) => s.(gateway := s.gateway[j := Handler(kind, Uploading, 0)])
    case Gateway(j, o, spawn) => GatewayNext(s, j, o, spawn)
    case GatewayCrash(j) => Goto(s, j, Closed(0))
    case Deliver(t, pod, sync, j) => Accept(s, t, pod, sync, j)
    case Consume(t, ev) => Go(s, t, Applier(ev, Patch))
    case Get(t, j) => Go(Perform(s, Note(Disturbed(j))), t, Getter(j, Lookup))
    case Advance(t, o, spawn) => Step(s, t, o, spawn)
    case PodCrash(pod) => Reboot(s, pod)
    case Crash(t) => End(s, t)
    case Expire(j) => Perform(s, ExpireJob(j))
  }

  function Goto(s: State, j: JobId, pc: GatewayPc): State
    requires j in s.gateway
  {
    s.(gateway := s.gateway[j := s.gateway[j].(pc := pc)])
  }

  function Go(s: State, t: Tid, th: Thread): State {
    s.(threads := s.threads[t := th])
  }

  function End(s: State, t: Tid): State {
    s.(threads := s.threads - {t})
  }

  function Spawn(s: State, t: Tid, j: JobId, task: Option<Task>): State {
    if task.Some? then Go(s, t, Cleaner(j, task.value)) else s
  }

  function GatewayNext(s: State, j: JobId, o: Outcome, spawn: Tid): State
    requires j in s.gateway
  {
    var m := GatewayMove(s, j, o);
    Spawn(Goto(Perform(s, m.effect), j, m.pc), spawn, j, m.spawn)
  }

  /** The thread's move: its effect, its next form (none when it ends) and what it spawns. */
  function ThreadMove(s: State, th: Thread, o: Outcome): Move<Option<Thread>> {
    match th
    case Relay(pod, sync, j, pc) =>
      var m := RelayMove(s, pod, j, pc, o);
      Move(m.effect, if pc.Leave? then None else Some(th.(relayPc := m.pc)), m.spawn)
    case Applier(ev, pc) =>
      var m := ApplyMove(s, ev, pc, o);
      Move(m.effect, if m.pc.Some? then Some(th.(applyPc := m.pc.value)) else None, m.spawn)
    case Getter(j, pc) =>
      var m := GetMove(s, j, pc, o);
      Move(m.effect, if m.pc.Some? then Some(th.(getPc := m.pc.value)) else None, m.spawn)
    case Cleaner(j, task) =>
      var m := CleanMove(j, task, o);
      Move(m.effect, if m.pc.Some? then Some(th.(task := m.pc.value)) else None, m.spawn)
  }

  function Step(s: State, t: Tid, o: Outcome, spawn: Tid): State
    requires t in s.threads
  {
    var m := ThreadMove(s, s.threads[t], o);
    Resume(Perform(s, m.effect), t, s.threads[t], m, spawn)
  }

  /** The bookkeeping after a thread's call. */
  function Resume(s: State, t: Tid, th: Thread, m: Move<Option<Thread>>, spawn: Tid): State {
    var s1 := if m.pc.Some? then Go(s, t, m.pc.value) else End(s, t);
    var s2 := Spawn(s1, spawn, Subject(th), m.spawn);
    if th.Relay? && th.relayPc.Leave? then Release(s2, th) else s2
  }

  /** KafkaSource posts an enqueued event to `/` or `/sync`; the latter raises the counter first. */
  function Accept(s: State, t: Tid, pod: Pod, sync: bool, j: JobId): State {
    var s1 := Go(s, t, Relay(pod, sync, j, if sync then Fetch else Gate));
    if sync then s1.(priority := s1.priority[pod := Priority(s1, pod) + 1]) else s1
  }

  /** The deferred decrement of `ServeHTTPSync`. */
  function Release(s: State, th: Thread): State
    requires th.Relay?
  {
    if th.sync then s.(priority := s.priority[th.pod := Priority(s, th.pod) - 1]) else s
  }

  /** A relay pod dies: its requests vanish and its counter starts again from zero. */
  function Reboot(s: State, pod: Pod): State {
    s.(threads := map t | t in s.threads && !(s.threads[t].Relay? && s.threads[t].pod == pod) :: s.threads[t],
       priority := s.priority[pod := 0])
  }

  /** The state after a sequence of actions. */
  function Run(s: State, acts: seq<Action>): State
    decreases |acts|
  {
    if acts == [] then s else Run(Next(s, acts[0]), acts[1..])
  }

  lemma PerformThreads(s: State, e: Effect)
    ensures Perform(s, e).threads == s.threads && Perform(s, e).priority == s.priority
    ensures Perform(s, e).gateway.Keys == s.gateway.Keys
  {
  }

  /** The bookkeeping changes the thread itself, the one it spawns and the counters. */
  lemma ResumeShape(s: State, t: Tid, th: Thread, m: Move<Option<Thread>>, spawn: Tid)
    requires t in s.threads && spawn !in s.threads
    ensures var s' := Resume(s, t, th, m, spawn);
      && s' == s.(threads := s'.threads, priority := s'.priority)
      && (forall u :: u in s.threads && u != t ==> u in s'.threads && s'.threads[u] == s.threads[u])
      && (forall u :: u in s'.threads && u != t && u != spawn ==> u in s.threads)
      && (t in s'.threads <==> m.pc.Some?)
      && (t in s'.threads ==> m.pc == Some(s'.threads[t]))
      && (spawn in s'.threads <==> m.spawn.Some?)
      && (spawn in s'.threads ==> s'.threads[spawn] == Cleaner(Subject(th), m.spawn.value))
  {
  }
}
