/**
`ServeJSON` as the sequential code it is, while other requests, cache fills and expiries
keep going between its calls.  Each of its effects is a step of the proxy machine.
*/
module LlmHandler {
  import opened Wrappers
  import opened Json
  import opened CacheKey
  import opened LlmProxy
  import opened LlmTokens

  lemma {:induction false} RunAppend(w: World, s: State, steps: seq<Step>, more: seq<Step>)
    ensures Run(w, s, steps + more) == Run(w, Run(w, s, steps), more)
    decreases |steps|
  {
    if steps == [] {
      assert steps + more == more;
    } else {
      assert (steps + more)[1..] == steps[1..] + more;
      RunAppend(w, Next(w, s, steps[0]), steps[1..], more);
    }
  }

  /**
  What the client gets for an answer of the backend: 502 when there is none; the answer as it is,
  except that a successful one of Anthropic is translated, or becomes a 500 where it cannot be.
  */
  predicate Relays(w: World, p: Provider, raw: Raw, response: Response) {
    match raw
    case TransportError => response.status == 502
    case Answered(status, body) =>
      if p.Anthropic? && status == 200 then
        match ReplyBody(w, body)
        case Some(translated) => response.status == 200 && response.body == w.marshalUsage(translated)
        case None => response.status == 500
      else response.status == status && response.body == body
  }

  lemma TranslateRelays(w: World, p: Provider, raw: Raw)
    ensures Relays(w, p, raw, Translate(w, p, raw).response)
  {
  }

  class Handler {
    const w: World
    const considered: Request -> bool
    var s: State
    ghost var trace: seq<Step>

    /** The shared state is that of a run of the considered requests. */
    ghost predicate Valid()
      reads this
    {
      s == Run(w, START, trace) && Within(trace, considered)
    }

    constructor (w: World, considered: Request -> bool)
      ensures Valid() && s == START && this.w == w && this.considered == considered
    {
      this.w, this.considered, s, trace := w, considered, START, [];
    }

    method Take(step: Step)
      requires Valid() && (step.Arrive? ==> considered(step.request))
      modifies this
      ensures Valid() && s == Next(w, old(s), step)
    {
      RunAppend(w, START, trace, [step]);
      assert Run(w, s, [step]) == Next(w, s, step);
      trace := trace + [step];
      s := Next(w, s, step);
    }

    /** Other requests, fills and expiries take any number of steps. */
    method Others()
      requires Valid()
      modifies this
      ensures Valid()
    {
      var n: nat :| true;
      while n > 0
        invariant Valid()
      {
        var step: Step := *;
        if !step.Arrive? || considered(step.request) {
          Take(step);
        }
        n := n - 1;
      }
    }

    /** Enters steps that led to the present state into the trace. */
    ghost method Record(before: State, steps: seq<Step>)
      requires before == Run(w, START, trace) && s == Run(w, before, steps)
      requires Within(trace, considered) && Within(steps, considered)
      modifies `trace
      ensures Valid()
    {
      RunAppend(w, START, trace, steps);
      trace := trace + steps;
    }

    method AddTokens(a: Account, count: int)
      modifies `s
      ensures s == old(s).(tracked := Track(old(s).tracked, a, count))
      ensures forall b :: Tracked(s, b) == Tracked(old(s), b) + if b == a && a.consumer != "" then count else 0
    {
      if a.consumer == "" || count == 0 {
        return;
      }
      var total := if a in s.tracked then s.tracked[a] else 0;
      s := s.(tracked := s.tracked[a := total + count]);
    }

    /** Counts the usage for the consumer, where its provider reports it truly, and writes the response. */
    method Respond(r: Request, f: Final)
      modifies `s
      ensures s == Deliver(old(s), r, f)
      ensures UsageTrue(w, r.def.provider, f) ==> forall a: Account ::
                Tracked(s, a) == Tracked(old(s), a) +
                  if a.consumer != "" && ToAccount(Delivery(r, f), a) && Billed(Delivery(r, f))
                  then Tokens(w, f.response.body, a.kind) else 0
    {
      if f.usage.Some? && r.consumer != "" {
        AddTokens(Account(r.consumer, r.userType, Prompt), f.usage.value.prompt);
        AddTokens(Account(r.consumer, r.userType, Completion), f.usage.value.completion);
      }
      s := s.(delivered := s.delivered + [Delivery(r, f)]);
      if UsageTrue(w, r.def.provider, f) {
        forall a: Account
          ensures Tracked(s, a) == Tracked(old(s), a) +
            if a.consumer != "" && ToAccount(Delivery(r, f), a) && Billed(Delivery(r, f))
            then Tokens(w, f.response.body, a.kind) else 0
        {
          TrackedChange(w, old(s), r, f, a);
        }
      }
    }

    /** Writes the response, and then starts to fill the cache with it where it may. */
    method RespondAndFill(r: Request, key: Outcome, f: Final)
      modifies `s
      ensures var s' := Deliver(old(s), r, f);
        s == if key.Cacheable? && f.genuine && f.response.status == 200
             then s'.(fills := s'.fills + [Fill(key.key, f.response)]) else s'
    {
      Respond(r, f);
      if key.Cacheable? && f.genuine && f.response.status == 200 {
        s := s.(fills := s.fills + [Fill(key.key, f.response)]);
      }
    }

    /** Whether the last response written is this one. */
    ghost predicate Answered(r: Request, response: Response)
      reads this
    {
      && s.delivered != [] && s.delivered[|s.delivered| - 1].request == r
      && s.delivered[|s.delivered| - 1].final.response == response
    }

    method Refuse(r: Request, response: Response)
      requires Valid() && considered(r) && !KeyFor(w, r).Panics? && Prepare(w, r) == Refused(response)
      modifies this
      ensures Valid() && Answered(r, response)
    {
      ghost var before := s;
      Respond(r, Final(response, None, false));
      assert Run(w, before, [Arrive(r, true)]) == Next(w, before, Arrive(r, true));
      Record(before, [Arrive(r, true)]);
    }

    /** The part of `ServeJSON` after a cache miss. */
    method Forward(r: Request, key: Outcome, raw: Raw) returns (response: Option<Response>)
      requires Valid() && considered(r) && key == KeyFor(w, r) && !key.Panics?
      requires Prepare(w, r).Sent? ==> w.backend(r.def, r.path, Prepare(w, r).body, raw)
      modifies this
      ensures Valid()
      ensures response.None? <==> w.decode(r.body) == Value(Null) && r.def.backendModel != ""
      ensures response.Some? && Prepare(w, r).Refused? ==> response.value.status == 500
      ensures Prepare(w, r).Sent? ==> response.Some? && Relays(w, r.def.provider, raw, response.value)
      ensures response.Some? ==> Answered(r, response.value)
    {
      var upstream := Rewrite(w, r.def, r.body);
      if upstream.Crashed? {
        return None;
      }
      if upstream.Sent? {
        var request := w.build(r.def, r.path, upstream.body);
        upstream := if request.None? then Refused(ErrorResponse(SERVER_ERROR)) else Sent(request.value);
      }
      if upstream.Refused? {
        Refuse(r, upstream.response);
        return Some(upstream.response);
      }
      Others();
      TranslateRelays(w, r.def.provider, raw);
      var answer := Finish(r, key, raw);
      return Some(answer);
    }

    /** Translates what the backend answered, delivers it and starts to fill the cache. */
    method Finish(r: Request, key: Outcome, raw: Raw) returns (response: Response)
      requires Valid() && considered(r) && key == KeyFor(w, r) && !key.Panics? && CanFinish(w, r, raw)
      modifies this
      ensures Valid() && Answered(r, response) && response == Translate(w, r.def.provider, raw).response
    {
      ghost var before := s;
      var f := Translate(w, r.def.provider, raw);
      RespondAndFill(r, key, f);
      MissIsTwoSteps(w, before, r, raw);
      Record(before, [Arrive(r, true), LlmProxy.Finish(|before.inflight|, raw)]);
      return f.response;
    }

    /**
    The handler.  `lookupFails` and `raw` are what the cache and the backend do.  It panics
    exactly on a JSON null, and only where the cache is used or the model is rewritten;
    otherwise its answer is the last one delivered.
    */
    method ServeJSON(r: Request, lookupFails: bool, raw: Raw) returns (response: Option<Response>)
      requires Valid() && considered(r)
      requires Prepare(w, r).Sent? ==> w.backend(r.def, r.path, Prepare(w, r).body, raw)
      modifies this
      ensures Valid()
      ensures response.None? <==>
        w.decode(r.body) == Value(Null) && ((!r.noCache && r.def.ttl > 0) || r.def.backendModel != "")
      ensures response.Some? && (lookupFails || r.noCache || r.def.ttl == 0) && Prepare(w, r).Sent? ==>
        Relays(w, r.def.provider, raw, response.value)
      ensures response.Some? ==> Answered(r, response.value)
    {
      var key := NotCacheable;
      if !r.noCache && r.def.ttl > 0 {
        key := Key(w.key, NameOf(r.def.provider), r.def.model, w.decode(r.body));
        if key.Panics? {
          return None;
        }
      }
      Others();
      if key.Cacheable? && !lookupFails && key.key in s.cache {
        var entry := FromCache(r, key.key);
        response := Some(entry);
      } else {
        response := Forward(r, key, raw);
      }
    }

    method FromCache(r: Request, key: string) returns (entry: Response)
      requires Valid() && considered(r) && KeyFor(w, r) == Cacheable(key) && key in s.cache
      modifies this
      ensures Valid() && Answered(r, entry)
    {
      ghost var before := s;
      entry := s.cache[key];
      Respond(r, Final(entry, BodyUsage(w, entry.body), true));
      RunCons(w, before, Arrive(r, false), []);
      assert [Arrive(r, false)] + [] == [Arrive(r, false)];
      Record(before, [Arrive(r, false)]);
    }

    /** What was just delivered is what the request may get without the cache, whatever goes on besides. */
    ghost method ServedDirectly(r: Request, response: Response)
      requires Valid() && Answered(r, response) && KeysDecide(w, considered)
      ensures Direct(w, r, response)
    {
      RunSound(w, considered, START, trace);
    }
  }

  /** A miss amounts to arriving, unheard by the cache, and finishing at once. */
  lemma MissIsTwoSteps(w: World, s: State, r: Request, raw: Raw)
    requires !KeyFor(w, r).Panics? && CanFinish(w, r, raw)
    ensures var f, k := Translate(w, r.def.provider, raw), KeyFor(w, r);
      var s' := Deliver(s, r, f);
      Run(w, s, [Arrive(r, true), Finish(|s.inflight|, raw)]) ==
        if k.Cacheable? && f.genuine && f.response.status == 200 then
          s'.(fills := s'.fills + [Fill(k.key, f.response)])
        else s'
  {
    RunTwo(w, s, Arrive(r, true), Finish(|s.inflight|, raw));
    var s1 := Next(w, s, Arrive(r, true));
    assert s1 == s.(inflight := s.inflight + [r]);
    assert Remove(s1.inflight, |s.inflight|) == s.inflight;
    assert s1.(inflight := s.inflight) == s;
  }
}
