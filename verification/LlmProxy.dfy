/**
The LLM proxy: cache lookup, forwarding, delivery and delayed cache fills, for any number
of interleaved requests.  The backend, the text encodings and the hash are parameters.
*/
module LlmProxy {
  import opened Wrappers
  import opened Json
  import opened CacheKey
  import opened Usage

  datatype Provider = OpenAI | Anthropic | Ollama | Passthrough

  function NameOf(p: Provider): string {
    match p
    case OpenAI => "openai"
    case Anthropic => "anthropic"
    case Ollama => "ollama"
    case Passthrough => "passthrough"
  }

  /** The provider that a configured name selects. */
  function Named(name: string): Option<Provider> {
    if name == "openai" then Some(OpenAI)
    else if name == "anthropic" then Some(Anthropic)
    else if name == "ollama" then Some(Ollama)
    else if name == "passthrough" then Some(Passthrough)
    else None
  }

  /** The name in the cache key selects the provider that is asked, and no other. */
  lemma NameSelects(p: Provider, name: string)
    ensures Named(name) == Some(p) <==> name == NameOf(p)
  {
  }

  datatype Def = Def(provider: Provider, model: string, backendModel: string, ttl: nat)

  datatype Request = Request(
    def: Def, path: string, body: string, noCache: bool, consumer: string, userType: string)

  datatype Response = Response(status: nat, body: string)

  /** What came back from the backend. */
  datatype Raw = TransportError | Answered(status: nat, body: string)

  /** A float64, as an opaque code. */
  datatype Float = Float(code: nat)

  /**
  decode and marshal read and write bodies for the key, decodeUsage and marshalUsage for
  token counts; build makes the upstream request, or fails; backend tells which answers the
  backend may give to an upstream request.
  */
  datatype World = World(
    key: Encoding<Float>,
    decode: string -> Body<Float>,
    marshal: Json<Float> -> string,
    decodeUsage: string -> Option<Value>,
    marshalUsage: Value -> string,
    build: (Def, string, string) -> Option<string>,
    backend: (Def, string, string, Raw) -> bool)

  // ---------------------------------------------------------------- one request

  /** The cache key of a request; None when the cache is bypassed. */
  function KeyFor(w: World, r: Request): Outcome {
    if r.noCache || r.def.ttl == 0 then NotCacheable
    else KeyOf(w.key, NameOf(r.def.provider), r.def.model, w.decode(r.body))
  }

  /** The outcome of preparing the upstream request. */
  datatype Prepared = Refused(response: Response) | Crashed | Sent(body: string)

  const SERVER_ERROR := 500
  const BAD_GATEWAY := 502

  function ErrorResponse(status: nat): Response {
    Response(status, "error")
  }

  /** `rewriteBodyModel`: like the key, it panics on a JSON null. */
  function Rewrite(w: World, def: Def, body: string): Prepared {
    if def.backendModel == "" then Sent(body)
    else
      match w.decode(body)
      case Value(Obj(members)) => Sent(w.marshal(Obj(members["model" := Str(def.backendModel)])))
      case Value(Null) => Crashed
      case _ => Refused(ErrorResponse(SERVER_ERROR))
  }

  function Prepare(w: World, r: Request): Prepared {
    match Rewrite(w, r.def, r.body)
    case Sent(body) =>
      (match w.build(r.def, r.path, body)
       case None => Refused(ErrorResponse(SERVER_ERROR))
       case Some(upstream) => Sent(upstream))
    case other => other
  }

  /**
  `rewriteBodyModel` for any provider: without a backend model the body is forwarded as it is;
  else it is the client's body with that model and every other member as before.
  */
  lemma RewriteSetsModel(w: World, def: Def, body: string)
    requires forall m: map<string, Json<Float>> :: w.decode(w.marshal(Obj(m))) == Value(Obj(m))
    ensures def.backendModel == "" ==> Rewrite(w, def, body) == Sent(body)
    ensures def.backendModel != "" && IsObject(w, body) ==>
      && Rewrite(w, def, body).Sent? && IsObject(w, Rewrite(w, def, body).body)
      && var m, n := w.decode(body).j.members, w.decode(Rewrite(w, def, body).body).j.members;
         && n.Keys == m.Keys + {"model"} && n["model"] == Str(def.backendModel)
         && forall k :: k in m && k != "model" ==> n[k] == m[k]
    ensures def.backendModel != "" && !IsObject(w, body) && w.decode(body) != Value(Null) ==>
      Rewrite(w, def, body).Refused? && Rewrite(w, def, body).response.status == 500
  {
  }

  predicate IsObject(w: World, body: string) {
    w.decode(body).Value? && w.decode(body).j.Obj?
  }

  /**
  The cache is used exactly for requests that do not forbid it, to cached definitions, with an
  object that asks for no stream.
  */
  lemma CachedIff(w: World, r: Request)
    ensures KeyFor(w, r).Cacheable? <==>
      && !r.noCache && r.def.ttl > 0 && IsObject(w, r.body)
      && !("stream" in w.decode(r.body).j.members && w.decode(r.body).j.members["stream"] == Bool(true))
  {
    CacheableIff(w.key, NameOf(r.def.provider), r.def.model, w.decode(r.body));
  }

  /** A response with the usage that is counted for it; `genuine` is false for the proxy's own errors. */
  datatype Final = Final(response: Response, usage: Option<Usage>, genuine: bool)

  function BodyUsage(w: World, body: string): Option<Usage> {
    match w.decodeUsage(body)
    case None => None
    case Some(v) => UsageOf(v)
  }

  /** The transport error branch, or `TranslateResponse`. */
  function Translate(w: World, p: Provider, raw: Raw): Final {
    match raw
    case TransportError => Final(ErrorResponse(BAD_GATEWAY), None, false)
    case Answered(status, body) =>
      if p != Anthropic then Final(Response(status, body), BodyUsage(w, body), true)
      else if status != 200 then Final(Response(status, body), None, true)
      else
        match w.decodeUsage(body)
        case None => Final(ErrorResponse(SERVER_ERROR), None, false)
        case Some(v) =>
          match Translation(v)
          case None => Final(ErrorResponse(SERVER_ERROR), None, false)
          case Some((translated, usage)) => Final(Response(200, w.marshalUsage(translated)), Some(usage), true)
  }

  /** The responses a request may get when there is no cache. */
  ghost predicate Direct(w: World, r: Request, response: Response) {
    match Prepare(w, r)
    case Refused(refusal) => response == refusal
    case Crashed => false
    case Sent(body) =>
      exists raw :: w.backend(r.def, r.path, body, raw) && response == Translate(w, r.def.provider, raw).response
  }

  // ---------------------------------------------------------------- the machine

  datatype TokenKind = Prompt | Completion

  datatype Account = Account(consumer: string, userType: string, kind: TokenKind)

  datatype Delivery = Delivery(request: Request, final: Final)

  datatype Fill = Fill(key: string, response: Response)

  datatype State = State(
    cache: map<string, Response>,
    fills: seq<Fill>,
    inflight: seq<Request>,
    delivered: seq<Delivery>,
    tracked: map<Account, int>)

  const START := State(map[], [], [], [], map[])

  datatype Step =
    | Arrive(request: Request, lookupFails: bool)
    | Finish(i: nat, raw: Raw)
    | Store(i: nat, succeeds: bool)
    | Expire(key: string)

  /** `ConsumerTracker.Track`. */
  function Track(tracked: map<Account, int>, a: Account, count: int): map<Account, int> {
    if a.consumer == "" || count == 0 then tracked
    else tracked[a := (if a in tracked then tracked[a] else 0) + count]
  }

  function TrackUsage(tracked: map<Account, int>, r: Request, usage: Option<Usage>): map<Account, int> {
    match usage
    case None => tracked
    case Some(u) =>
      if r.consumer == "" then tracked
      else Track(Track(tracked, Account(r.consumer, r.userType, Prompt), u.prompt),
                 Account(r.consumer, r.userType, Completion), u.completion)
  }

  function Deliver(s: State, r: Request, f: Final): State {
    s.(delivered := s.delivered + [Delivery(r, f)], tracked := TrackUsage(s.tracked, r, f.usage))
  }

  function Remove<T>(s: seq<T>, i: nat): seq<T>
    requires i < |s|
  {
    s[..i] + s[i + 1..]
  }

  /** The cached entry a request is served from. */
  function Hit(w: World, s: State, r: Request, lookupFails: bool): Option<Response> {
    var k := KeyFor(w, r);
    if k.Cacheable? && !lookupFails && k.key in s.cache then Some(s.cache[k.key]) else None
  }

  function Next(w: World, s: State, step: Step): State {
    match step
    case Arrive(r, lookupFails) =>
      if KeyFor(w, r).Panics? then s
      else
        var hit := Hit(w, s, r, lookupFails);
        if hit.Some? then Deliver(s, r, Final(hit.value, BodyUsage(w, hit.value.body), true))
        else
          (match Prepare(w, r)
           case Refused(response) => Deliver(s, r, Final(response, None, false))
           case Crashed => s
           case Sent(_) => s.(inflight := s.inflight + [r]))
    case Finish(i, raw) =>
      if i < |s.inflight| && CanFinish(w, s.inflight[i], raw) then Finished(w, s, i, raw) else s
    case Store(i, succeeds) =>
      if i < |s.fills| then
        s.(fills := Remove(s.fills, i),
           cache := if succeeds then s.cache[s.fills[i].key := s.fills[i].response] else s.cache)
      else s
    case Expire(key) => s.(cache := s.cache - {key})
  }

  predicate CanFinish(w: World, r: Request, raw: Raw) {
    Prepare(w, r).Sent? && w.backend(r.def, r.path, Prepare(w, r).body, raw)
  }

  function Finished(w: World, s: State, i: nat, raw: Raw): State
    requires i < |s.inflight|
  {
    var r := s.inflight[i];
    var f := Translate(w, r.def.provider, raw);
    var k := KeyFor(w, r);
    var s' := Deliver(s.(inflight := Remove(s.inflight, i)), r, f);
    if k.Cacheable? && f.genuine && f.response.status == 200 then
      s'.(fills := s'.fills + [Fill(k.key, f.response)])
    else s'
  }

  function Run(w: World, s: State, steps: seq<Step>): State
    decreases |steps|
  {
    if steps == [] then s else Run(w, Next(w, s, steps[0]), steps[1..])
  }

  /** Every request of the run is one of the requests considered. */
  ghost predicate Within(steps: seq<Step>, considered: Request -> bool) {
    forall i :: 0 <= i < |steps| && steps[i].Arrive? ==> considered(steps[i].request)
  }

  // ---------------------------------------------------------------- transparency

  ghost predicate Transparent(w: World, s: State) {
    forall i :: 0 <= i < |s.delivered| ==> Direct(w, s.delivered[i].request, s.delivered[i].final.response)
  }

  predicate ShareKey(w: World, q: Request, r: Request) {
    KeyFor(w, q).Cacheable? && KeyFor(w, q) == KeyFor(w, r)
  }

  /** Requests that share a key share their successful answers. */
  ghost predicate KeysDecide(w: World, considered: Request -> bool) {
    forall q, r, response: Response | considered(q) && considered(r) && ShareKey(w, q, r) ::
      response.status == 200 && Direct(w, q, response) ==> Direct(w, r, response)
  }

  /** A response was a direct answer to some request with this key. */
  ghost predicate Vouched(w: World, considered: Request -> bool, key: string, response: Response) {
    response.status == 200
    && exists q :: considered(q) && KeyFor(w, q) == Cacheable(key) && Direct(w, q, response)
  }

  ghost predicate Sound(w: World, considered: Request -> bool, s: State) {
    && (forall k :: k in s.cache ==> Vouched(w, considered, k, s.cache[k]))
    && (forall i :: 0 <= i < |s.fills| ==> Vouched(w, considered, s.fills[i].key, s.fills[i].response))
    && (forall i :: 0 <= i < |s.inflight| ==> considered(s.inflight[i]))
    && Transparent(w, s)
  }

  lemma FinishSound(w: World, considered: Request -> bool, s: State, i: nat, raw: Raw)
    requires Sound(w, considered, s) && i < |s.inflight| && CanFinish(w, s.inflight[i], raw)
    ensures Sound(w, considered, Finished(w, s, i, raw))
  {
    var r := s.inflight[i];
    var f := Translate(w, r.def.provider, raw);
    assert Direct(w, r, f.response);
  }

  lemma ArriveSound(w: World, considered: Request -> bool, s: State, r: Request, lookupFails: bool)
    requires Sound(w, considered, s) && KeysDecide(w, considered) && considered(r)
    ensures Sound(w, considered, Next(w, s, Arrive(r, lookupFails)))
  {
    var hit := Hit(w, s, r, lookupFails);
    if hit.Some? {
      var k := KeyFor(w, r).key;
      assert Vouched(w, considered, k, s.cache[k]);
      var q :| considered(q) && KeyFor(w, q) == Cacheable(k) && Direct(w, q, hit.value);
      assert ShareKey(w, q, r);
    }
  }

  lemma StoreSound(w: World, considered: Request -> bool, s: State, i: nat, succeeds: bool)
    requires Sound(w, considered, s)
    ensures Sound(w, considered, Next(w, s, Store(i, succeeds)))
  {
  }

  lemma NextSound(w: World, considered: Request -> bool, s: State, step: Step)
    requires Sound(w, considered, s) && KeysDecide(w, considered)
    requires step.Arrive? ==> considered(step.request)
    ensures Sound(w, considered, Next(w, s, step))
  {
    match step {
      case Arrive(r, lookupFails) => ArriveSound(w, considered, s, r, lookupFails);
      case Finish(i, raw) =>
        if i < |s.inflight| && CanFinish(w, s.inflight[i], raw) {
          FinishSound(w, considered, s, i, raw);
        }
      case Store(i, succeeds) => StoreSound(w, considered, s, i, succeeds);
      case Expire(_) =>
    }
  }

  lemma {:induction false} RunSound(w: World, considered: Request -> bool, s: State, steps: seq<Step>)
    requires Sound(w, considered, s) && KeysDecide(w, considered) && Within(steps, considered)
    ensures Sound(w, considered, Run(w, s, steps))
    decreases |steps|
  {
    if steps != [] {
      NextSound(w, considered, s, steps[0]);
      RunSound(w, considered, Next(w, s, steps[0]), steps[1..]);
    }
  }

  /** A run in which one request fills the cache and another with its key is served from it. */
  function Replayed(q: Request, raw: Raw, r: Request): seq<Step> {
    [Arrive(q, false), Finish(0, raw), Store(0, true), Arrive(r, false)]
  }

  /** Serving q and storing its answer leaves just that entry in the cache. */
  lemma FillFromEmpty(w: World, q: Request, raw: Raw)
    requires KeyFor(w, q).Cacheable? && CanFinish(w, q, raw)
    requires var f := Translate(w, q.def.provider, raw); f.genuine && f.response.status == 200
    ensures var s := Next(w, Next(w, Next(w, START, Arrive(q, false)), Finish(0, raw)), Store(0, true));
      && s.cache == map[KeyFor(w, q).key := Translate(w, q.def.provider, raw).response]
      && |s.delivered| == 1
  {
    var s1 := Next(w, START, Arrive(q, false));
    assert s1 == START.(inflight := [q]);
    var s2 := Finished(w, s1, 0, raw);
    assert s2.fills == [Fill(KeyFor(w, q).key, Translate(w, q.def.provider, raw).response)];
    assert s2.cache == map[] && |s2.delivered| == 1;
  }

  lemma ServedFromCache(w: World, s: State, r: Request)
    requires KeyFor(w, r).Cacheable? && KeyFor(w, r).key in s.cache
    ensures var s' := Next(w, s, Arrive(r, false));
      && |s'.delivered| == |s.delivered| + 1
      && s'.delivered[|s.delivered|].request == r
      && s'.delivered[|s.delivered|].final.response == s.cache[KeyFor(w, r).key]
  {
  }

  lemma RunCons(w: World, s: State, step: Step, steps: seq<Step>)
    ensures Run(w, s, [step] + steps) == Run(w, Next(w, s, step), steps)
  {
    assert ([step] + steps)[1..] == steps;
  }

  lemma RunTwo(w: World, s: State, a: Step, b: Step)
    ensures Run(w, s, [a, b]) == Next(w, Next(w, s, a), b)
  {
    RunCons(w, s, a, [b]);
    RunCons(w, Next(w, s, a), b, []);
    assert [a] + [b] == [a, b] && [b] + [] == [b];
  }

  lemma RunFour(w: World, s: State, a: Step, b: Step, c: Step, d: Step)
    ensures Run(w, s, [a, b, c, d]) == Next(w, Next(w, Next(w, Next(w, s, a), b), c), d)
  {
    RunCons(w, s, a, [b, c, d]);
    RunCons(w, Next(w, s, a), b, [c, d]);
    RunTwo(w, Next(w, Next(w, s, a), b), c, d);
    assert [a] + [b, c, d] == [a, b, c, d] && [b] + [c, d] == [b, c, d];
  }

  lemma ReplayedDelivers(w: World, q: Request, raw: Raw, r: Request)
    requires ShareKey(w, q, r) && CanFinish(w, q, raw)
    requires var f := Translate(w, q.def.provider, raw); f.genuine && f.response.status == 200
    ensures var s := Run(w, START, Replayed(q, raw, r));
      && |s.delivered| == 2 && s.delivered[1].request == r
      && s.delivered[1].final.response == Translate(w, q.def.provider, raw).response
  {
    RunFour(w, START, Arrive(q, false), Finish(0, raw), Store(0, true), Arrive(r, false));
    FillFromEmpty(w, q, raw);
    ServedFromCache(w, Next(w, Next(w, Next(w, START, Arrive(q, false)), Finish(0, raw)), Store(0, true)), r);
  }

  /**
  The cache is transparent exactly when requests that share a key share their successful
  answers: in every interleaving of requests with delayed, failed and expired fills, each
  response is one the request may get without the cache.
  */
  lemma TransparentIff(w: World, considered: Request -> bool)
    ensures KeysDecide(w, considered) <==>
      forall steps :: Within(steps, considered) ==> Transparent(w, Run(w, START, steps))
  {
    if KeysDecide(w, considered) {
      forall steps | Within(steps, considered) ensures Transparent(w, Run(w, START, steps)) {
        RunSound(w, considered, START, steps);
      }
    } else {
      var q, r, response: Response :| considered(q) && considered(r) && ShareKey(w, q, r)
        && response.status == 200 && Direct(w, q, response) && !Direct(w, r, response);
      var steps := WrongAnswer(w, q, r, response, considered);
    }
  }

  lemma AnswerOf(w: World, q: Request, response: Response) returns (raw: Raw)
    requires response.status == 200 && Direct(w, q, response)
    ensures var f := Translate(w, q.def.provider, raw); CanFinish(w, q, raw) && f.genuine && f.response == response
  {
    raw :| w.backend(q.def, q.path, Prepare(w, q).body, raw)
      && response == Translate(w, q.def.provider, raw).response;
  }

  lemma NotTransparent(w: World, s: State, r: Request, response: Response)
    requires |s.delivered| == 2 && s.delivered[1].request == r && s.delivered[1].final.response == response
    requires !Direct(w, r, response)
    ensures !Transparent(w, s)
  {
  }

  lemma WrongAnswer(w: World, q: Request, r: Request, response: Response, considered: Request -> bool)
    returns (steps: seq<Step>)
    requires considered(q) && considered(r) && ShareKey(w, q, r)
    requires response.status == 200 && Direct(w, q, response) && !Direct(w, r, response)
    ensures Within(steps, considered) && !Transparent(w, Run(w, START, steps))
  {
    var raw := AnswerOf(w, q, response);
    ReplayedDelivers(w, q, raw, r);
    steps := Replayed(q, raw, r);
    NotTransparent(w, Run(w, START, steps), r, response);
  }

  // ---------------------------------------------------------------- one definition, one path

  predicate Plain(w: World, body: string) {
    w.decode(body).Value? && w.decode(body).j.Obj? && !Streams(w.decode(body).j.members)
  }

  function Fields(w: World, def: Def, body: string): map<string, Json<Float>>
    requires Plain(w, body)
  {
    Filtered(w.decode(body).j.members, def.model)
  }

  function Ask(def: Def, path: string, body: string): Request {
    Request(def, path, body, false, "", "")
  }

  /** On one path, the fields that count decide the successful answers. */
  ghost predicate FieldsDecide(w: World, def: Def, path: string) {
    forall b, c, response: Response | Plain(w, b) && Plain(w, c) && Fields(w, def, b) == Fields(w, def, c) ::
      response.status == 200 && Direct(w, Ask(def, path, b), response) ==> Direct(w, Ask(def, path, c), response)
  }

  function Only(def: Def, path: string): Request -> bool {
    (r: Request) => r.def == def && r.path == path
  }

  lemma DirectAsk(w: World, r: Request, response: Response)
    ensures Direct(w, r, response) <==> Direct(w, Ask(r.def, r.path, r.body), response)
  {
    assert Prepare(w, r) == Prepare(w, Ask(r.def, r.path, r.body));
  }

  lemma ShareKeyIffFields(w: World, def: Def, path: string, b: string, c: string)
    requires Faithful(w.key) && def.ttl > 0
    ensures KeyFor(w, Ask(def, path, b)).Cacheable? <==> Plain(w, b)
    ensures Plain(w, b) && Plain(w, c) ==>
      (ShareKey(w, Ask(def, path, b), Ask(def, path, c)) <==> Fields(w, def, b) == Fields(w, def, c))
  {
    if Plain(w, b) && Plain(w, c) {
      var p := NameOf(def.provider);
      assert p in PROVIDERS;
      KeyInjective(w.key, p, def.model, w.decode(b).j.members, p, def.model, w.decode(c).j.members);
    }
  }

  /**
  With an injective key and one cached definition and path, the cache is transparent exactly
  when the backend's successful answers are decided by the fields that count.
  */
  lemma TransparentOnOnePath(w: World, def: Def, path: string)
    requires Faithful(w.key) && def.ttl > 0
    ensures FieldsDecide(w, def, path) <==>
      forall steps :: Within(steps, Only(def, path)) ==> Transparent(w, Run(w, START, steps))
  {
    TransparentIff(w, Only(def, path));
    if FieldsDecide(w, def, path) {
      forall q, r, response: Response | Only(def, path)(q) && Only(def, path)(r) && ShareKey(w, q, r)
          && response.status == 200 && Direct(w, q, response)
        ensures Direct(w, r, response)
      {
        KeyOfAsk(w, q);
        KeyOfAsk(w, r);
        ShareKeyIffFields(w, def, path, q.body, r.body);
        ShareKeyIffFields(w, def, path, r.body, q.body);
        DirectAsk(w, q, response);
        DirectAsk(w, r, response);
      }
      assert KeysDecide(w, Only(def, path));
    }
    if KeysDecide(w, Only(def, path)) {
      forall b, c, response: Response | Plain(w, b) && Plain(w, c) && Fields(w, def, b) == Fields(w, def, c)
          && response.status == 200 && Direct(w, Ask(def, path, b), response)
        ensures Direct(w, Ask(def, path, c), response)
      {
        ShareKeyIffFields(w, def, path, b, c);
        assert Only(def, path)(Ask(def, path, b)) && Only(def, path)(Ask(def, path, c));
      }
    }
  }

  lemma KeyOfAsk(w: World, r: Request)
    ensures KeyFor(w, r).Cacheable? ==> KeyFor(w, Ask(r.def, r.path, r.body)) == KeyFor(w, r)
  {
  }
}
