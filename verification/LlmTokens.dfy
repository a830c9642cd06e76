/**
Token conservation: the tokens tracked for a consumer are those in the bodies delivered to it.
*/
module LlmTokens {
  import opened Wrappers
  import opened Json
  import opened Usage
  import opened LlmProxy

  /** What a body says was used. */
  function Tokens(w: World, body: string, kind: TokenKind): int {
    match BodyUsage(w, body)
    case None => 0
    case Some(u) => if kind == Prompt then u.prompt else u.completion
  }

  /** Every answered request is billed, except that Anthropic reports usage with a 200 only. */
  predicate Billed(d: Delivery) {
    d.final.genuine && (d.final.response.status == 200 || d.request.def.provider != Anthropic)
  }

  predicate ToAccount(d: Delivery, a: Account) {
    d.request.consumer == a.consumer && d.request.userType == a.userType
  }

  /** The tokens in the billed bodies delivered to an account, those with status 200 or the others. */
  function Consumed(w: World, ds: seq<Delivery>, a: Account, ok: bool): int {
    if ds == [] then 0
    else
      var d := ds[|ds| - 1];
      Consumed(w, ds[..|ds| - 1], a, ok)
      + if ToAccount(d, a) && Billed(d) && (d.final.response.status == 200) == ok
        then Tokens(w, d.final.response.body, a.kind) else 0
  }

  function Tracked(s: State, a: Account): int {
    if a in s.tracked then s.tracked[a] else 0
  }

  /** A translated Anthropic body is decoded again as it was marshalled. */
  ghost predicate Coherent(w: World) {
    forall b :: ReplyBody(w, b).Some? ==> w.decodeUsage(w.marshalUsage(ReplyBody(w, b).value)) == ReplyBody(w, b)
  }

  /** The body that a reply of Anthropic is translated into. */
  function ReplyBody(w: World, body: string): Option<Value> {
    match w.decodeUsage(body)
    case None => None
    case Some(v) => if Translation(v).Some? then Some(Translation(v).value.0) else None
  }

  /** The usage counted with a final response is the usage in its body. */
  ghost predicate UsageTrue(w: World, p: Provider, f: Final) {
    && f.usage == (if f.genuine && (f.response.status == 200 || p != Anthropic)
                   then BodyUsage(w, f.response.body) else None)
    && (f.response.status == 200 ==> f.genuine)
  }

  lemma TranslateUsageTrue(w: World, p: Provider, raw: Raw)
    requires Coherent(w)
    ensures UsageTrue(w, p, Translate(w, p, raw))
  {
    if p == Anthropic && raw.Answered? && raw.status == 200 {
      if ReplyBody(w, raw.body).Some? {
        TranslationKeepsUsage(w.decodeUsage(raw.body).value);
      }
    }
  }

  /** The ledger: tracked tokens are the billed tokens, and only successful responses are cached. */
  ghost predicate Balanced(w: World, s: State) {
    && (forall k :: k in s.cache ==> s.cache[k].status == 200)
    && (forall i :: 0 <= i < |s.fills| ==> s.fills[i].response.status == 200)
    && (forall a: Account :: a.consumer != "" ==>
          Tracked(s, a) == Consumed(w, s.delivered, a, true) + Consumed(w, s.delivered, a, false))
  }

  lemma DeliverBalanced(w: World, s: State, r: Request, f: Final)
    requires Balanced(w, s) && UsageTrue(w, r.def.provider, f)
    ensures Balanced(w, Deliver(s, r, f))
  {
    var s' := Deliver(s, r, f);
    assert s'.delivered[..|s.delivered|] == s.delivered;
    forall a: Account | a.consumer != ""
      ensures Tracked(s', a) == Consumed(w, s'.delivered, a, true) + Consumed(w, s'.delivered, a, false)
    {
      TrackedChange(w, s, r, f, a);
    }
  }

  /**
  A delivery adds the tokens in its body to the account of its request, and nothing to any
  other; anonymous ones add nothing.
  */
  lemma TrackedChange(w: World, s: State, r: Request, f: Final, a: Account)
    requires UsageTrue(w, r.def.provider, f)
    ensures Tracked(Deliver(s, r, f), a) == Tracked(s, a) +
      if a.consumer != "" && ToAccount(Delivery(r, f), a) && Billed(Delivery(r, f))
      then Tokens(w, f.response.body, a.kind) else 0
  {
  }

  lemma ArriveBalanced(w: World, s: State, r: Request, lookupFails: bool)
    requires Balanced(w, s)
    ensures Balanced(w, Next(w, s, Arrive(r, lookupFails)))
  {
    var hit := Hit(w, s, r, lookupFails);
    if hit.Some? {
      DeliverBalanced(w, s, r, Final(hit.value, BodyUsage(w, hit.value.body), true));
    } else if !KeyFor(w, r).Panics? && Prepare(w, r).Refused? {
      DeliverBalanced(w, s, r, Final(Prepare(w, r).response, None, false));
    }
  }

  lemma FinishBalanced(w: World, s: State, i: nat, raw: Raw)
    requires Balanced(w, s) && Coherent(w) && i < |s.inflight|
    ensures Balanced(w, Finished(w, s, i, raw))
  {
    var r := s.inflight[i];
    TranslateUsageTrue(w, r.def.provider, raw);
    DeliverBalanced(w, s.(inflight := Remove(s.inflight, i)), r, Translate(w, r.def.provider, raw));
  }

  lemma NextBalanced(w: World, s: State, step: Step)
    requires Balanced(w, s) && Coherent(w)
    ensures Balanced(w, Next(w, s, step))
  {
    match step {
      case Arrive(r, lookupFails) => ArriveBalanced(w, s, r, lookupFails);
      case Finish(i, raw) =>
        if i < |s.inflight| && CanFinish(w, s.inflight[i], raw) {
          FinishBalanced(w, s, i, raw);
        }
      case Store(_, _) =>
      case Expire(_) =>
    }
  }

  lemma {:induction false} RunBalanced(w: World, s: State, steps: seq<Step>)
    requires Balanced(w, s) && Coherent(w)
    ensures Balanced(w, Run(w, s, steps))
    decreases |steps|
  {
    if steps != [] {
      NextBalanced(w, s, steps[0]);
      RunBalanced(w, Next(w, s, steps[0]), steps[1..]);
    }
  }

  /**
  Over any run, the tokens tracked for a consumer are the tokens in the bodies delivered to
  it, from hits, misses and the Anthropic translation alike; when no other status carries
  usage, they are those of its 200 responses.
  */
  lemma TokensConserved(w: World, steps: seq<Step>, a: Account)
    requires Coherent(w) && a.consumer != ""
    ensures var s := Run(w, START, steps);
      Tracked(s, a) == Consumed(w, s.delivered, a, true) + Consumed(w, s.delivered, a, false)
  {
    RunBalanced(w, START, steps);
  }

  // ---------------------------------------------------------------- a decoder with 64-bit integers

  /** A decoder that yields 64-bit integers only, and reads back what is marshalled of such values, is coherent. */
  lemma SixtyFourBitsSuffice(w: World)
    requires forall b :: w.decodeUsage(b).Some? ==> Fits(w.decodeUsage(b).value)
    requires forall v :: Fits(v) ==> w.decodeUsage(w.marshalUsage(v)) == Some(v)
    ensures Coherent(w)
  {
    forall b | ReplyBody(w, b).Some? ensures w.decodeUsage(w.marshalUsage(ReplyBody(w, b).value)) == ReplyBody(w, b) {
      TranslationFits(w.decodeUsage(b).value);
    }
  }

  function Digits(n: Option<int>): string {
    match n
    case None => "."
    case Some(k) => if k >= 0 then "+" + Zeros(k) else "-" + Zeros(-k)
  }

  lemma DigitsDiffer(m: Option<int>, n: Option<int>)
    requires Digits(m) == Digits(n)
    ensures m == n
  {
    assert Digits(m)[0] == Digits(n)[0] && |Digits(m)| == |Digits(n)|;
  }

  /** In every world, usage can be decoded so. */
  lemma CoherentExists(w: World) returns (w': World)
    ensures Coherent(w') && w' == w.(decodeUsage := w'.decodeUsage, marshalUsage := w'.marshalUsage)
    ensures forall b :: w'.decodeUsage(b).Some? ==> Fits(w'.decodeUsage(b).value)
    ensures forall v :: Fits(v) ==> w'.decodeUsage(w'.marshalUsage(v)) == Some(v)
  {
    assert NUMBER_CHARS[10] == '+' && NUMBER_CHARS[11] == '-' && NUMBER_CHARS[12] == '.';
    forall m, n | Digits(m) == Digits(n) ensures m == n {
      DigitsDiffer(m, n);
    }
    var sc := BackslashEscapes(Digits);
    w' := w.(decodeUsage := b => ReadFitting(sc, b), marshalUsage := v => Print(sc, v));
    forall v | Fits(v) ensures w'.decodeUsage(w'.marshalUsage(v)) == Some(v) {
      ReadPrint(sc, v);
    }
    SixtyFourBitsSuffice(w');
  }

  ghost function ReadFitting(sc: Scalars<Option<int>>, b: string): Option<Value> {
    var v := Read(sc, b);
    if v.Some? && Fits(v.value) then v else None
  }
}
