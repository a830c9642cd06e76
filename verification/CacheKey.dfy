/**
The key of a cached LLM response: the provider, and the canonical text of the request
fields that count, with the model taken from the registry.  The hash and the scalar
printing are parameters.
*/
module CacheKey {
  import opened Json

  const CACHEABLE_FIELDS := {
    "model", "messages", "temperature", "top_p", "top_k", "max_tokens", "max_completion_tokens",
    "response_format", "tools", "tool_choice", "seed", "stop", "presence_penalty",
    "frequency_penalty", "n", "logit_bias", "system"
  }

  /** A request body, as far as `json.Unmarshal` goes. */
  datatype Body<N> = Empty | Malformed | Value(j: Json<N>)

  /** `Key` panics on a JSON null: it decodes to a nil map, which is then assigned to. */
  datatype Outcome = NotCacheable | Error | Panics | Cacheable(key: string)

  /** The printing of scalars and the hex digest of the hash. */
  datatype Encoding<!N> = Encoding(scalars: Scalars<N>, digest: string -> string)

  /** Scalars are read back, and no two texts that are hashed collide. */
  ghost predicate Faithful<N(!new)>(c: Encoding<N>) {
    Readable(c.scalars) && forall s, t :: c.digest(s) == c.digest(t) ==> s == t
  }

  /** The fields that count, with the registry's model. */
  function Filtered<N>(members: map<string, Json<N>>, model: string): map<string, Json<N>> {
    var raw := members["model" := Str(model)];
    Counted(raw, raw.Keys)
  }

  /** The fields that count among those visited. */
  function Counted<N>(raw: map<string, Json<N>>, visited: set<string>): map<string, Json<N>> {
    map k | k in raw && k in visited && k in CACHEABLE_FIELDS :: raw[k]
  }

  function Canonical<N>(c: Encoding<N>, v: Json<N>): string {
    Print(c.scalars, SortedValue(v))
  }

  function KeyText<N>(c: Encoding<N>, provider: string, model: string, members: map<string, Json<N>>): string {
    provider + ":" + Canonical(c, Obj(Filtered(members, model)))
  }

  predicate Streams<N>(members: map<string, Json<N>>) {
    "stream" in members && members["stream"].Bool? && members["stream"].b
  }

  function KeyOf<N>(c: Encoding<N>, provider: string, model: string, body: Body<N>): Outcome {
    match body
    case Empty => NotCacheable
    case Malformed => Error
    case Value(Null) => Panics
    case Value(Obj(members)) =>
      if Streams(members) then NotCacheable
      else Cacheable("llm:cache:" + c.digest(KeyText(c, provider, model, members)))
    case Value(_) => Error
  }

  /** `Key`; the loop over the decoded map may visit its fields in any order. */
  method Key<N(==)>(c: Encoding<N>, provider: string, model: string, body: Body<N>) returns (r: Outcome)
    ensures r == KeyOf(c, provider, model, body)
  {
    if body.Empty? {
      return NotCacheable;
    }
    if body.Malformed? || !(body.j.Obj? || body.j.Null?) {
      return Error;
    }
    if body.j.Null? {
      return Panics;
    }
    var raw := body.j.members;
    if "stream" in raw && raw["stream"].Bool? && raw["stream"].b {
      return NotCacheable;
    }
    raw := raw["model" := Str(model)];
    var filtered: map<string, Json<N>> := map[];
    var rest := raw.Keys;
    while rest != {}
      invariant rest <= raw.Keys
      invariant filtered == Counted(raw, raw.Keys - rest)
      decreases |rest|
    {
      var k :| k in rest;
      rest := rest - {k};
      if k in CACHEABLE_FIELDS {
        filtered := filtered[k := raw[k]];
      }
    }
    assert filtered == Filtered(body.j.members, model) by {
      assert raw.Keys - rest == raw.Keys;
    }
    r := Cacheable("llm:cache:" + c.digest(provider + ":" + Canonical(c, Obj(filtered))));
  }

  // ---------------------------------------------------------------- injective

  const PROVIDERS := {"openai", "anthropic", "ollama", "passthrough"}

  lemma NoColon(p: string)
    requires p in PROVIDERS
    ensures ':' !in p
  {
  }

  lemma SplitAtColon(p: string, q: string, s: string, t: string)
    requires ':' !in p && ':' !in q && p + ":" + s == q + ":" + t
    ensures p == q && s == t
  {
    var a, b := p + ":" + s, q + ":" + t;
    assert a[|p|] == ':' && b[|q|] == ':';
    assert forall i :: 0 <= i < |p| ==> a[i] == p[i];
    assert forall i :: 0 <= i < |q| ==> b[i] == q[i];
    assert |p| == |q|;
    assert a[..|p|] == p && b[..|q|] == q && a[|p| + 1..] == s && b[|q| + 1..] == t;
  }

  /**
  Two cacheable requests to validated providers share a key exactly when the providers are
  equal and the fields that count, with the model overridden, are equal JSON values.
  */
  lemma KeyInjective<N(!new)>(c: Encoding<N>, provider: string, model: string, a: map<string, Json<N>>,
                              provider': string, model': string, b: map<string, Json<N>>)
    requires Faithful(c) && provider in PROVIDERS && provider' in PROVIDERS
    requires !Streams(a) && !Streams(b)
    ensures KeyOf(c, provider, model, Value(Obj(a))) == KeyOf(c, provider', model', Value(Obj(b))) <==>
      provider == provider' && Filtered(a, model) == Filtered(b, model')
  {
    var s, t := KeyText(c, provider, model, a), KeyText(c, provider', model', b);
    KeyTextInjective(c, provider, model, a, provider', model', b);
    var k, l := "llm:cache:" + c.digest(s), "llm:cache:" + c.digest(t);
    assert k[10..] == c.digest(s) && l[10..] == c.digest(t);
  }

  /** The same for the text that is hashed. */
  lemma KeyTextInjective<N(!new)>(c: Encoding<N>, provider: string, model: string, a: map<string, Json<N>>,
                                  provider': string, model': string, b: map<string, Json<N>>)
    requires Readable(c.scalars) && provider in PROVIDERS && provider' in PROVIDERS
    ensures KeyText(c, provider, model, a) == KeyText(c, provider', model', b) <==>
      provider == provider' && Filtered(a, model) == Filtered(b, model')
  {
    var u, v := Obj(Filtered(a, model)), Obj(Filtered(b, model'));
    if KeyText(c, provider, model, a) == KeyText(c, provider', model', b) {
      NoColon(provider);
      NoColon(provider');
      SplitAtColon(provider, provider', Canonical(c, u), Canonical(c, v));
      CanonicalInjective(c, u, v);
    }
  }

  lemma CanonicalInjective<N(!new)>(c: Encoding<N>, u: Json<N>, v: Json<N>)
    requires Readable(c.scalars) && Canonical(c, u) == Canonical(c, v)
    ensures u == v
  {
    SortedValueSame(u);
    SortedValueSame(v);
    PrintInjective(c.scalars, u, v);
  }

  predicate SameMember<N(==)>(a: map<string, Json<N>>, b: map<string, Json<N>>, name: string) {
    (name in a <==> name in b) && (name in a ==> a[name] == b[name])
  }

  /**
  Two bodies that are not streamed share a key exactly when the providers and the registry's
  models are the same and the bodies agree on each of these sixteen fields.
  */
  lemma KeyCounts<N(!new)>(c: Encoding<N>, provider: string, model: string, a: map<string, Json<N>>,
                           provider': string, model': string, b: map<string, Json<N>>)
    requires Faithful(c) && provider in PROVIDERS && provider' in PROVIDERS
    requires !Streams(a) && !Streams(b)
    ensures KeyOf(c, provider, model, Value(Obj(a))) == KeyOf(c, provider', model', Value(Obj(b))) <==>
      && provider == provider' && model == model'
      && forall k | k in {
             "messages", "temperature", "top_p", "top_k", "max_tokens", "max_completion_tokens", "response_format",
             "tools", "tool_choice", "seed", "stop", "presence_penalty", "frequency_penalty", "n", "logit_bias",
             "system"} :: SameMember(a, b, k)
  {
    KeyInjective(c, provider, model, a, provider', model', b);
    FilteredIff(a, model, b, model');
    forall k: string {
      CountedIff(k);
    }
  }

  lemma CountedIff(k: string)
    ensures k in CACHEABLE_FIELDS - {"model"} <==> k in {
      "messages", "temperature", "top_p", "top_k", "max_tokens", "max_completion_tokens", "response_format",
      "tools", "tool_choice", "seed", "stop", "presence_penalty", "frequency_penalty", "n", "logit_bias",
      "system"}
  {
  }

  lemma FilteredIff<N>(a: map<string, Json<N>>, model: string, b: map<string, Json<N>>, model': string)
    ensures Filtered(a, model) == Filtered(b, model') <==>
      model == model' && forall k :: k in CACHEABLE_FIELDS - {"model"} ==> SameMember(a, b, k)
  {
    var f, g := Filtered(a, model), Filtered(b, model');
    assert f["model"] == Str(model) && g["model"] == Str(model');
    forall k | k in CACHEABLE_FIELDS && k != "model" ensures SameMember(f, g, k) <==> SameMember(a, b, k) {
    }
    if model == model' && forall k :: k in CACHEABLE_FIELDS && k != "model" ==> SameMember(a, b, k) {
      forall k ensures SameMember(f, g, k) {
        assert k in CACHEABLE_FIELDS && k != "model" ==> SameMember(a, b, k);
      }
      assert f == g;
    }
    if f == g {
      forall k | k in CACHEABLE_FIELDS && k != "model" ensures SameMember(a, b, k) {
        assert SameMember(f, g, k);
      }
    }
  }

  /**
  A body is cacheable exactly when it is an object that does not ask for a stream; null
  panics, nothing else is an object.
  */
  lemma CacheableIff<N>(c: Encoding<N>, provider: string, model: string, body: Body<N>)
    ensures KeyOf(c, provider, model, body).Cacheable? <==>
      body.Value? && body.j.Obj? && !("stream" in body.j.members && body.j.members["stream"] == Bool(true))
    ensures KeyOf(c, provider, model, body).Panics? <==> body == Value(Null)
    ensures KeyOf(c, provider, model, body).Error? <==>
      body.Malformed? || (body.Value? && !body.j.Obj? && !body.j.Null?)
  {
  }

  // ---------------------------------------------------------------- order-blind

  /** A value as it is written, with the members of every object in order. */
  datatype Text<N> =
    | Scalar(v: Json<N>)
    | List(items: seq<Text<N>>)
    | Fields(fields: seq<(string, Text<N>)>)

  /** What `json.Unmarshal` makes of it. */
  function Decode<N>(t: Text<N>): Json<N>
    decreases t, 0
  {
    match t
    case Scalar(v) => v
    case List(items) => Arr(seq(|items|, i requires 0 <= i < |items| => Decode(items[i])))
    case Fields(fields) => Obj(DecodeFields(t, |fields|))
  }

  /** The first n members; a later one replaces an earlier one of its name. */
  function DecodeFields<N>(t: Text<N>, n: nat): map<string, Json<N>>
    requires t.Fields? && n <= |t.fields|
    decreases t, 0, n
  {
    if n == 0 then map[]
    else DecodeFields(t, n - 1)[t.fields[n - 1].0 := Decode(t.fields[n - 1].1)]
  }

  predicate DistinctNames<N>(fields: seq<(string, Text<N>)>) {
    forall i, j :: 0 <= i < j < |fields| ==> fields[i].0 != fields[j].0
  }

  /** Some member of the fields is the given one, reordered inside. */
  ghost predicate Occurs<N(!new)>(name: string, t: Text<N>, fields: seq<(string, Text<N>)>)
    decreases t, 1
  {
    exists j :: 0 <= j < |fields| && fields[j].0 == name && Reordered(t, fields[j].1)
  }

  predicate Names<N>(fields: seq<(string, Text<N>)>, name: string) {
    exists i :: 0 <= i < |fields| && fields[i].0 == name
  }

  /** The same value written with the members of its objects, at any depth, in another order; names are distinct. */
  ghost predicate Reordered<N(!new)>(a: Text<N>, b: Text<N>)
    decreases a, 0
  {
    match (a, b)
    case (Scalar(u), Scalar(v)) => u == v
    case (List(s), List(t)) => |s| == |t| && forall i :: 0 <= i < |s| ==> Reordered(s[i], t[i])
    case (Fields(f), Fields(g)) =>
      && DistinctNames(f) && DistinctNames(g)
      && (forall i :: 0 <= i < |f| ==> Occurs(f[i].0, f[i].1, g))
      && (forall j :: 0 <= j < |g| ==> Names(f, g[j].0))
    case _ => false
  }

  lemma {:induction false} DecodeAt<N>(t: Text<N>, n: nat, i: nat)
    requires t.Fields? && DistinctNames(t.fields) && i < n <= |t.fields|
    ensures t.fields[i].0 in DecodeFields(t, n) && DecodeFields(t, n)[t.fields[i].0] == Decode(t.fields[i].1)
  {
    if i < n - 1 {
      DecodeAt(t, n - 1, i);
    }
  }

  lemma {:induction false} DecodedNames<N>(t: Text<N>, n: nat, name: string)
    requires t.Fields? && n <= |t.fields|
    ensures name in DecodeFields(t, n) <==> Names(t.fields[..n], name)
  {
    if n > 0 {
      DecodedNames(t, n - 1, name);
      var init, all := t.fields[..n - 1], t.fields[..n];
      assert all == init + [t.fields[n - 1]];
      assert Names(init, name) ==> Names(all, name) by {
        if Names(init, name) {
          var i :| 0 <= i < |init| && init[i].0 == name;
          assert all[i].0 == name;
        }
      }
      assert all[n - 1].0 == t.fields[n - 1].0;
    }
  }

  lemma {:induction false} ReorderedDecode<N(!new)>(a: Text<N>, b: Text<N>)
    requires Reordered(a, b)
    ensures Decode(a) == Decode(b)
    decreases a, 0
  {
    match (a, b)
    case (Scalar(_), Scalar(_)) =>
    case (List(s), List(t)) =>
      forall i | 0 <= i < |s| ensures Decode(s[i]) == Decode(t[i]) {
        ReorderedDecode(s[i], t[i]);
      }
      assert Decode(a).items == Decode(b).items;
    case (Fields(f), Fields(g)) => FieldsDecode(a, b);
  }

  lemma {:induction false} FieldsDecode<N(!new)>(a: Text<N>, b: Text<N>)
    requires a.Fields? && b.Fields? && Reordered(a, b)
    ensures Decode(a) == Decode(b)
    decreases a, 0, 0
  {
    var f, g := a.fields, b.fields;
    var m, n := DecodeFields(a, |f|), DecodeFields(b, |g|);
    assert f[..|f|] == f && g[..|g|] == g;
    forall k | k in n ensures k in m {
      DecodedNames(a, |f|, k);
      DecodedNames(b, |g|, k);
      var j :| 0 <= j < |g| && g[j].0 == k;
      assert Names(f, g[j].0);
    }
    forall k | k in m ensures k in n && n[k] == m[k] {
      DecodedNames(a, |f|, k);
      var i :| 0 <= i < |f| && f[i].0 == k;
      DecodeAt(a, |f|, i);
      assert Occurs(f[i].0, f[i].1, g);
      var j :| 0 <= j < |g| && g[j].0 == k && Reordered(f[i].1, g[j].1);
      ReorderedDecode(f[i].1, g[j].1);
      DecodeAt(b, |g|, j);
    }
    assert m == n;
  }

  /** Reordering the members of a body's objects, at any depth, leaves its key as it is. */
  lemma OrderBlind<N(!new)>(c: Encoding<N>, provider: string, model: string, a: Text<N>, b: Text<N>)
    requires Reordered(a, b)
    ensures KeyOf(c, provider, model, Value(Decode(a))) == KeyOf(c, provider, model, Value(Decode(b)))
  {
    ReorderedDecode(a, b);
  }

  /** What the client names its model, and every field that does not count, are left out of the key. */
  lemma IgnoredFields<N>(c: Encoding<N>, provider: string, model: string, members: map<string, Json<N>>,
                         name: string, value: Json<N>)
    requires name !in {
      "messages", "temperature", "top_p", "top_k", "max_tokens", "max_completion_tokens", "response_format",
      "tools", "tool_choice", "seed", "stop", "presence_penalty", "frequency_penalty", "n", "logit_bias",
      "system", "stream"}
    ensures KeyOf(c, provider, model, Value(Obj(members[name := value]))) ==
      KeyOf(c, provider, model, Value(Obj(members)))
  {
    CountedIff(name);
    UncountedFiltered(members, name, value, model);
  }

  lemma UncountedFiltered<N>(members: map<string, Json<N>>, name: string, value: Json<N>, model: string)
    requires name !in CACHEABLE_FIELDS - {"model"}
    ensures Filtered(members[name := value], model) == Filtered(members, model)
  {
  }
}
