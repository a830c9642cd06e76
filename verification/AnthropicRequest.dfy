/**
The request side of the Anthropic provider: `openAIToAnthropic`, and what it makes of the
response cache, since it reduces a request to some of its fields.
*/
module AnthropicRequest {
  import opened Wrappers
  import opened Json
  import opened CacheKey
  import opened Usage
  import opened LlmProxy

  type Object = map<string, Json<Float>>

  datatype Message = Message(role: string, content: Json<Float>)

  datatype Turn = Turn(role: string, content: string)

  /** The request that is sent to Anthropic. */
  datatype Upstream = Upstream(
    model: string,
    turns: seq<Turn>,
    system: string,
    maxTokens: int,
    temperature: Option<Float>,
    topP: Option<Float>,
    stops: seq<string>,
    stream: bool)

  // ---------------------------------------------------------------- decoding the request

  function DecodeMessage(j: Json<Float>): Option<Message> {
    match Members(j)
    case None => None
    case Some(m) =>
      match StringField(m, "role")
      case None => None
      case Some(role) => Some(Message(role, if "content" in m then m["content"] else Null))
  }

  function DecodeMessages(items: seq<Json<Float>>): Option<seq<Message>> {
    if items == [] then Some([])
    else
      match (DecodeMessage(items[0]), DecodeMessages(items[1..]))
      case (Some(x), Some(xs)) => Some([x] + xs)
      case _ => None
  }

  predicate Absent(m: Object, name: string) {
    name !in m || m[name].Null?
  }

  function MessagesField(m: Object): Option<seq<Message>> {
    if Absent(m, "messages") then Some([])
    else if m["messages"].Arr? then DecodeMessages(m["messages"].items)
    else None
  }

  /** A `*int` field; ints tells how number literals read as integers. */
  function IntPointer(m: Object, ints: string -> Option<int>, name: string): Option<Option<int>> {
    if Absent(m, name) then Some(None)
    else if m[name].Num? && ints(name).Some? then Some(ints(name))
    else None
  }

  function FloatPointer(m: Object, name: string): Option<Option<Float>> {
    if Absent(m, name) then Some(None)
    else if m[name].Num? then Some(Some(m[name].n))
    else None
  }

  function StreamField(m: Object): Option<bool> {
    if Absent(m, "stream") then Some(false)
    else if m["stream"].Bool? then Some(m["stream"].b)
    else None
  }

  datatype Params = Params(
    model: string,
    messages: seq<Message>,
    maxTokens: Option<int>,
    maxCompTokens: Option<int>,
    temperature: Option<Float>,
    topP: Option<Float>,
    stop: Json<Float>,
    stream: bool)

  /** `json.Unmarshal` into `openAIRequest`. */
  function DecodeParams(m: Object, ints: string -> Option<int>): Option<Params> {
    if !Absent(m, "tools") && !m["tools"].Arr? then None
    else
      match (StringField(m, "model"), MessagesField(m), IntPointer(m, ints, "max_tokens"),
             IntPointer(m, ints, "max_completion_tokens"), FloatPointer(m, "temperature"), FloatPointer(m, "top_p"),
             StreamField(m))
      case (Some(model), Some(messages), Some(tokens), Some(comp), Some(temperature), Some(topP), Some(stream)) =>
        Some(Params(model, messages, tokens, comp, temperature, topP, if "stop" in m then m["stop"] else Null, stream))
      case _ => None
  }

  // ---------------------------------------------------------------- translating it

  function PartText(part: Json<Float>): string {
    if part.Obj? && "text" in part.members && part.members["text"].Str? then part.members["text"].s else ""
  }

  function PartsText(parts: seq<Json<Float>>): string {
    if parts == [] then "" else PartsText(parts[..|parts| - 1]) + PartText(parts[|parts| - 1])
  }

  function ContentText(content: Json<Float>): string {
    match content
    case Str(s) => s
    case Arr(parts) => PartsText(parts)
    case _ => ""
  }

  /** `contentToString`. */
  method ContentToString(content: Json<Float>) returns (text: string)
    ensures text == ContentText(content)
  {
    if content.Str? {
      return content.s;
    }
    text := "";
    if content.Arr? {
      var parts := content.items;
      for i := 0 to |parts|
        invariant text == PartsText(parts[..i])
      {
        assert parts[..i + 1][..i] == parts[..i];
        if parts[i].Obj? && "text" in parts[i].members && parts[i].members["text"].Str? {
          text := text + parts[i].members["text"].s;
        }
      }
      assert parts[..|parts|] == parts;
    }
  }

  /** The contents of the system messages, one to a line. */
  function SystemText(messages: seq<Message>): string {
    if messages == [] then ""
    else
      var before, last := SystemText(messages[..|messages| - 1]), messages[|messages| - 1];
      if last.role != "system" then before
      else (if before != "" then before + "\n" else before) + ContentText(last.content)
  }

  function RoleOf(role: string): string {
    if role == "user" || role == "assistant" then role else "user"
  }

  /** The other messages, in order. */
  function TurnsOf(messages: seq<Message>): seq<Turn> {
    if messages == [] then []
    else
      var last := messages[|messages| - 1];
      TurnsOf(messages[..|messages| - 1])
      + if last.role == "system" then [] else [Turn(RoleOf(last.role), ContentText(last.content))]
  }

  function StringsOf(items: seq<Json<Float>>): seq<string> {
    if items == [] then []
    else
      StringsOf(items[..|items| - 1]) + if items[|items| - 1].Str? then [items[|items| - 1].s] else []
  }

  function StopsOf(stop: Json<Float>): seq<string> {
    match stop
    case Str(s) => if s != "" then [s] else []
    case Arr(items) => StringsOf(items)
    case _ => []
  }

  function UpstreamOf(p: Params): Upstream {
    Upstream(p.model, TurnsOf(p.messages), SystemText(p.messages),
             p.maxTokens.GetOr(p.maxCompTokens.GetOr(4096)),
             p.temperature, p.topP, StopsOf(p.stop), p.stream)
  }

  function UpstreamFor(m: Object, ints: string -> Option<int>): Option<Upstream> {
    match DecodeParams(m, ints)
    case None => None
    case Some(p) => Some(UpstreamOf(p))
  }

  /** `openAIToAnthropic` on a decoded body, up to the marshalling of the result. */
  method OpenAIToAnthropic(m: Object, ints: string -> Option<int>) returns (r: Option<Upstream>)
    ensures r == UpstreamFor(m, ints)
  {
    var params := DecodeParams(m, ints);
    if params.None? {
      return None;
    }
    var p := params.value;
    var system, turns := "", [];
    for i := 0 to |p.messages|
      invariant system == SystemText(p.messages[..i]) && turns == TurnsOf(p.messages[..i])
    {
      assert p.messages[..i + 1][..i] == p.messages[..i];
      var message := p.messages[i];
      var content := ContentToString(message.content);
      if message.role == "system" {
        if system != "" {
          system := system + "\n";
        }
        system := system + content;
        continue;
      }
      var role := message.role;
      if role != "user" && role != "assistant" {
        role := "user";
      }
      turns := turns + [Turn(role, content)];
    }
    assert p.messages[..|p.messages|] == p.messages;
    var maxTokens := 4096;
    if p.maxTokens.Some? {
      maxTokens := p.maxTokens.value;
    } else if p.maxCompTokens.Some? {
      maxTokens := p.maxCompTokens.value;
    }
    var stops := StopSequences(p.stop);
    r := Some(Upstream(p.model, turns, system, maxTokens, p.temperature, p.topP, stops, p.stream));
  }

  method StopSequences(stop: Json<Float>) returns (stops: seq<string>)
    ensures stops == StopsOf(stop)
  {
    stops := [];
    if stop.Str? {
      if stop.s != "" {
        stops := [stop.s];
      }
    } else if stop.Arr? {
      var items := stop.items;
      for i := 0 to |items|
        invariant stops == StringsOf(items[..i])
      {
        assert items[..i + 1][..i] == items[..i];
        if items[i].Str? {
          stops := stops + [items[i].s];
        }
      }
      assert items[..|items|] == items;
    }
  }

  // ---------------------------------------------------------------- which fields count

  const FIELDS := {
    "model", "messages", "max_tokens", "max_completion_tokens", "temperature", "top_p",
    "stop", "stream", "tools", "tool_choice"
  }

  /** Those of them that decide the upstream request and are counted by the key. */
  const COUNTED := {
    "model", "messages", "max_tokens", "max_completion_tokens", "temperature", "top_p", "stop", "tools", "tool_choice"
  }

  const INTS := {"max_tokens", "max_completion_tokens"}

  /** The same members under these names. */
  predicate AgreeOn(names: set<string>, m: Object, n: Object) {
    forall k :: k in names ==> (k in m <==> k in n) && (k in m ==> m[k] == n[k])
  }

  /**
  Two requests that agree on the model, the integers, `stream` and the fields the cache key
  counts are translated alike.
  */
  lemma CountedFieldsDecide(m: Object, ints: string -> Option<int>, n: Object, ints': string -> Option<int>)
    requires AgreeOn(COUNTED, m, n) && StreamField(m) == StreamField(n)
    requires forall k :: k in INTS && k in m && m[k].Num? ==> ints(k) == ints'(k)
    ensures UpstreamFor(m, ints) == UpstreamFor(n, ints')
  {
    assert IntPointer(m, ints, "max_tokens") == IntPointer(n, ints', "max_tokens");
    assert IntPointer(m, ints, "max_completion_tokens") == IntPointer(n, ints', "max_completion_tokens");
    assert StringField(m, "model") == StringField(n, "model");
    assert MessagesField(m) == MessagesField(n);
    assert FloatPointer(m, "temperature") == FloatPointer(n, "temperature");
    assert FloatPointer(m, "top_p") == FloatPointer(n, "top_p");
    assert DecodeParams(m, ints) == DecodeParams(n, ints');
  }

  lemma FilteredAgree(m: Object, n: Object, model: string)
    requires Filtered(m, model) == Filtered(n, model)
    ensures AgreeOn(CACHEABLE_FIELDS - {"model"}, m, n)
  {
    forall k | k in CACHEABLE_FIELDS - {"model"} ensures (k in m <==> k in n) && (k in m ==> m[k] == n[k]) {
      assert k in m <==> k in Filtered(m, model);
      assert k in n <==> k in Filtered(n, model);
      assert k in m ==> Filtered(m, model)[k] == m[k];
      assert k in n ==> Filtered(n, model)[k] == n[k];
    }
  }

  // ---------------------------------------------------------------- the provider in the world

  /**
  How Go decodes a body into the request's fields.  It compares member names without regard to
  case: fold is what it compares, read the fields as members of any spelling decide them, and
  integer how the literal of a field in a text reads as a 64-bit integer; printed tells that of
  a marshalled number.  render marshals the result; addressable tells whether the configured
  URL parses.
  */
  datatype Reader = Reader(
    fold: string -> string,
    read: Object -> Object,
    integer: (string, string) -> Option<int>,
    printed: Float -> Option<int>,
    render: Upstream -> string,
    addressable: Def -> bool)

  predicate Folds(x: Reader, k: string, f: string) {
    x.fold(k) == x.fold(f)
  }

  predicate SameAt(m: Object, n: Object, k: string) {
    (k in m <==> k in n) && (k in m ==> m[k] == n[k])
  }

  /** The two objects have the same members that may decide a field. */
  ghost predicate SameSpellings(x: Reader, m: Object, n: Object, f: string) {
    forall k :: Folds(x, k, f) ==> SameAt(m, n, k)
  }

  predicate NoSpelling(x: Reader, m: Object, f: string) {
    forall k :: k in m ==> !Folds(x, k, f)
  }

  predicate OnlySpelling(x: Reader, m: Object, f: string, k: string) {
    k in m && Folds(x, k, f) && forall l :: l in m && Folds(x, l, f) ==> l == k
  }

  ghost predicate FieldsApart(fold: string -> string) {
    forall f, g | f in FIELDS && g in FIELDS :: fold(f) == fold(g) ==> f == g
  }

  /** The members whose names fold to a field's decide the field. */
  ghost predicate SpellingsDecide(x: Reader) {
    forall m: Object, n: Object, f | f in FIELDS && SameSpellings(x, m, n, f) :: SameAt(x.read(m), x.read(n), f)
  }

  /** Without such a member the field is missing. */
  ghost predicate SpellingNeeded(x: Reader) {
    forall m: Object, f | f in FIELDS && NoSpelling(x, m, f) :: f !in x.read(m)
  }

  /** With one such member the field has its value, apart from the names in the messages. */
  ghost predicate SpellingRead(x: Reader) {
    forall m: Object, f, k | f in FIELDS && f != "messages" && OnlySpelling(x, m, f, k) ::
      f in x.read(m) && x.read(m)[f] == m[k]
  }

  /** What several spellings of one field give, and how names are spelled in the messages, is left open. */
  ghost predicate Resolves(x: Reader) {
    FieldsApart(x.fold) && SpellingsDecide(x) && SpellingNeeded(x) && SpellingRead(x)
  }

  function Ints(x: Reader, body: string): string -> Option<int> {
    (name: string) => x.integer(body, name)
  }

  /** `BuildRequest` for Anthropic, given an object and its text. */
  function Built(x: Reader, def: Def, m: Object, body: string): Option<string> {
    if !x.addressable(def) then None
    else
      match UpstreamFor(x.read(m), Ints(x, body))
      case None => None
      case Some(u) => Some(x.render(u))
  }

  /** Marshalled objects are read back, number literals included. */
  ghost predicate ReadsBack(w: World, x: Reader) {
    && Resolves(x)
    && (forall m: Object :: w.decode(w.marshal(Obj(m))) == Value(Obj(m)))
    && (forall m: Object, f | f in INTS && f in x.read(m) && x.read(m)[f].Num? ::
          x.integer(w.marshal(Obj(m)), f) == x.printed(x.read(m)[f].n))
  }

  /** Requests to Anthropic are built so, and all go to one URL whatever path the client used. */
  ghost predicate Speaks(w: World, x: Reader) {
    && ReadsBack(w, x)
    && (forall def: Def, path, m: Object | def.provider.Anthropic? ::
          w.build(def, path, w.marshal(Obj(m))) == Built(x, def, m, w.marshal(Obj(m))))
    && (forall def: Def, path, path', body, raw | def.provider.Anthropic? ::
          w.backend(def, path, body, raw) ==> w.backend(def, path', body, raw))
  }

  function Unary(f: Float): string {
    "+" + Zeros(f.code)
  }

  lemma UnaryDiffer(f: Float, g: Float)
    requires Unary(f) == Unary(g)
    ensures f == g
  {
    assert |Unary(f)| == |Unary(g)|;
  }

  ghost function IntegerIn(decode: string -> Body<Float>, read: Object -> Object, printed: Float -> Option<int>,
                           body: string, f: string): Option<int>
  {
    match decode(body)
    case Value(Obj(m)) => if f in read(m) && read(m)[f].Num? then printed(read(m)[f].n) else None
    case _ => None
  }

  /** The members that may decide a field, and one of them. */
  function Spellings(fold: string -> string, m: Object, f: string): Object {
    map k | k in m && fold(k) == fold(f) :: m[k]
  }

  ghost function AnyOf(m: Object): Json<Float>
    requires m != map[]
  {
    var k :| k in m;
    m[k]
  }

  ghost function ReadAny(fold: string -> string, m: Object): Object {
    map f | f in FIELDS && Spellings(fold, m, f) != map[] :: AnyOf(Spellings(fold, m, f))
  }

  lemma ReadAnyResolves(x: Reader)
    requires FieldsApart(x.fold) && forall m: Object :: x.read(m) == ReadAny(x.fold, m)
    ensures Resolves(x)
  {
    forall m: Object, n: Object, f | f in FIELDS && SameSpellings(x, m, n, f) ensures SameAt(x.read(m), x.read(n), f) {
      SameAny(x, m, n, f);
    }
    forall m: Object, f | f in FIELDS && NoSpelling(x, m, f) ensures f !in x.read(m) {
      assert Spellings(x.fold, m, f) == map[];
    }
    forall m: Object, f, k | f in FIELDS && f != "messages" && OnlySpelling(x, m, f, k)
      ensures f in x.read(m) && x.read(m)[f] == m[k]
    {
      OnlyAny(x, m, f, k);
    }
  }

  lemma SameAny(x: Reader, m: Object, n: Object, f: string)
    requires SameSpellings(x, m, n, f)
    ensures SameAt(ReadAny(x.fold, m), ReadAny(x.fold, n), f)
  {
    forall k ensures k in Spellings(x.fold, m, f) <==> k in Spellings(x.fold, n, f) {
      assert Folds(x, k, f) ==> SameAt(m, n, k);
    }
    forall k | k in Spellings(x.fold, m, f) ensures Spellings(x.fold, m, f)[k] == Spellings(x.fold, n, f)[k] {
      assert Folds(x, k, f) ==> SameAt(m, n, k);
    }
    assert Spellings(x.fold, m, f) == Spellings(x.fold, n, f);
  }

  lemma OnlyAny(x: Reader, m: Object, f: string, k: string)
    requires OnlySpelling(x, m, f, k) && f in FIELDS
    ensures f in ReadAny(x.fold, m) && ReadAny(x.fold, m)[f] == m[k]
  {
    assert k in Spellings(x.fold, m, f);
    assert Spellings(x.fold, m, f) == map[k := m[k]];
  }

  function OnePath(def: Def, path: string): string {
    if def.provider.Anthropic? then "" else path
  }

  /** Any world is made to speak so by its own building of requests. */
  function Speaking(w: World, x: Reader): World {
    w.(build := (def: Def, path, body) =>
                  if def.provider.Anthropic? && w.decode(body).Value? && w.decode(body).j.Obj?
                  then Built(x, def, w.decode(body).j.members, body) else w.build(def, path, body),
       backend := (def: Def, path, body, raw) => w.backend(def, OnePath(def, path), body, raw))
  }

  lemma SpeakingSpeaks(w: World, x: Reader)
    requires ReadsBack(w, x)
    ensures Speaks(Speaking(w, x), x)
  {
    var w' := Speaking(w, x);
    assert w'.decode == w.decode && w'.marshal == w.marshal;
    assert ReadsBack(w', x);
    forall def: Def, path, m: Object | def.provider.Anthropic?
      ensures w'.build(def, path, w'.marshal(Obj(m))) == Built(x, def, m, w'.marshal(Obj(m)))
    {
      assert w.decode(w.marshal(Obj(m))) == Value(Obj(m));
    }
    forall def: Def, path, path', body, raw | def.provider.Anthropic? && w'.backend(def, path, body, raw)
      ensures w'.backend(def, path', body, raw)
    {
      assert OnePath(def, path) == OnePath(def, path') == "";
    }
  }

  lemma UnaryReadable() returns (sc: Scalars<Float>)
    ensures Readable(sc)
  {
    assert NUMBER_CHARS[10] == '+';
    forall f, g | Unary(f) == Unary(g) ensures f == g {
      UnaryDiffer(f, g);
    }
    sc := BackslashEscapes(Unary);
  }

  /**
  There is such a world, whatever the backend answers to the requests on one path, however
  names fold as long as the fields stay apart, and however floats read as integers.
  */
  lemma SpeaksExists(w: World, fold: string -> string, printed: Float -> Option<int>, render: Upstream -> string)
    returns (w': World, x: Reader)
    requires FieldsApart(fold)
    ensures Speaks(w', x) && x.fold == fold && x.printed == printed && x.render == render
    ensures forall def, path, body, raw ::
      w'.backend(def, path, body, raw) == w.backend(def, OnePath(def, path), body, raw)
  {
    var w1;
    w1, x := ReadsBackExists(w, fold, printed, render);
    SpeakingSpeaks(w1, x);
    w' := Speaking(w1, x);
  }

  lemma ReadsBackExists(w: World, fold: string -> string, printed: Float -> Option<int>, render: Upstream -> string)
    returns (w1: World, x: Reader)
    requires FieldsApart(fold)
    ensures ReadsBack(w1, x) && w1 == w.(decode := w1.decode, marshal := w1.marshal)
    ensures x.fold == fold && x.printed == printed && x.render == render
  {
    var sc := UnaryReadable();
    w1 := w.(decode := b => (match Read(sc, b) case Some(j) => Value(j) case None => Malformed),
             marshal := j => Print(sc, j));
    forall m: Object ensures w1.decode(w1.marshal(Obj(m))) == Value(Obj(m)) {
      ReadPrint(sc, Obj(m));
    }
    x := ReaderFor(w1, fold, printed, render);
  }

  lemma ReaderFor(w: World, fold: string -> string, printed: Float -> Option<int>, render: Upstream -> string)
    returns (x: Reader)
    requires FieldsApart(fold) && forall m: Object :: w.decode(w.marshal(Obj(m))) == Value(Obj(m))
    ensures ReadsBack(w, x) && x.fold == fold && x.printed == printed && x.render == render
  {
    var read := (m: Object) => ReadAny(fold, m);
    x := Reader(fold, read, (b, f) => IntegerIn(w.decode, read, printed, b, f), printed, render, _ => true);
    ReadAnyResolves(x);
    forall m: Object, f | f in INTS && f in x.read(m) && x.read(m)[f].Num?
      ensures x.integer(w.marshal(Obj(m)), f) == x.printed(x.read(m)[f].n)
    {
      assert w.decode(w.marshal(Obj(m))) == Value(Obj(m));
      assert read(m) == x.read(m);
    }
  }

  // ---------------------------------------------------------------- the cache in front of it

  /** Every spelling of `stream` is boolean or null. */
  predicate StreamOk(w: World, x: Reader, r: Request)
    requires Plain(w, r.body)
  {
    var m := w.decode(r.body).j.members;
    forall k :: k in m && Folds(x, k, "stream") ==> m[k].Null? || m[k].Bool?
  }

  /** Members that decide a field under another spelling than its own, which the key does not count. */
  predicate Variant(x: Reader, k: string) {
    k !in FIELDS && exists f :: f in FIELDS && Folds(x, k, f)
  }

  ghost predicate VariantsAgree(x: Reader, m: Object, n: Object) {
    forall k :: Variant(x, k) ==> SameAt(m, n, k)
  }

  predicate OneStream(x: Reader, m: Object) {
    forall k, l | k in m && l in m :: Folds(x, k, "stream") && Folds(x, l, "stream") ==> k == l
  }

  lemma SharedFields(w: World, q: Request, r: Request)
    requires Faithful(w.key) && ShareKey(w, q, r) && q.def == r.def
    ensures Plain(w, q.body) && Plain(w, r.body)
    ensures Filtered(w.decode(q.body).j.members, q.def.model) == Filtered(w.decode(r.body).j.members, q.def.model)
  {
    var p := NameOf(q.def.provider);
    assert p in PROVIDERS;
    KeyInjective(w.key, p, q.def.model, w.decode(q.body).j.members, p, q.def.model, w.decode(r.body).j.members);
  }

  /** The body that is forwarded, when the backend's model name is filled in. */
  function Renamed(m: Object, def: Def): Object {
    m["model" := Str(def.backendModel)]
  }

  function Forwarded(w: World, r: Request): Object
    requires Plain(w, r.body)
  {
    Renamed(w.decode(r.body).j.members, r.def)
  }

  lemma PreparedRenamed(w: World, x: Reader, r: Request)
    requires Speaks(w, x) && Plain(w, r.body) && r.def.provider.Anthropic? && r.def.backendModel != ""
    ensures var m := Forwarded(w, r);
      var u := UpstreamFor(x.read(m), Ints(x, w.marshal(Obj(m))));
      Prepare(w, r) ==
        if x.addressable(r.def) && u.Some? then Sent(x.render(u.value)) else Refused(ErrorResponse(SERVER_ERROR))
  {
    var m := Forwarded(w, r);
    var body := w.marshal(Obj(m));
    assert w.build(r.def, r.path, body) == Built(x, r.def, m, body);
    assert Rewrite(w, r.def, r.body) == Sent(body);
  }

  lemma ReadAgrees(x: Reader, m: Object, n: Object, names: set<string>)
    requires Resolves(x) && AgreeOn(names, m, n) && VariantsAgree(x, m, n)
    ensures AgreeOn(names * FIELDS, x.read(m), x.read(n))
  {
    forall f | f in names * FIELDS ensures SameAt(x.read(m), x.read(n), f) {
      forall k | Folds(x, k, f) ensures SameAt(m, n, k) {
        assert k in FIELDS ==> k == f;
        assert k !in FIELDS ==> Variant(x, k);
      }
      assert SameSpellings(x, m, n, f);
    }
  }

  /** What `stream` decodes to when it has one spelling. */
  lemma StreamRead(x: Reader, m: Object)
    requires Resolves(x) && OneStream(x, m)
    ensures StreamField(x.read(m)) ==
      if k :| k in m && Folds(x, k, "stream") then StreamField(map["stream" := m[k]]) else Some(false)
  {
    assert "stream" in FIELDS;
    if k :| k in m && Folds(x, k, "stream") {
      assert OnlySpelling(x, m, "stream", k);
    } else {
      assert NoSpelling(x, m, "stream");
    }
  }

  /** Where it is well-formed, and not true under its own spelling, it is the same in objects whose variants agree. */
  lemma StreamsEqual(x: Reader, m: Object, n: Object)
    requires Resolves(x) && OneStream(x, m) && OneStream(x, n) && VariantsAgree(x, m, n)
    requires !Streams(m) && !Streams(n)
    requires StreamField(x.read(m)).Some? && StreamField(x.read(n)).Some?
    ensures StreamField(x.read(m)) == StreamField(x.read(n))
  {
    StreamRead(x, m);
    StreamRead(x, n);
    if k :| k in m && Folds(x, k, "stream") && k != "stream" {
      StreamVariant(x, m, n, k);
    } else if k :| k in n && Folds(x, k, "stream") && k != "stream" {
      StreamVariant(x, n, m, k);
    }
  }

  lemma StreamVariant(x: Reader, m: Object, n: Object, k: string)
    requires Resolves(x) && OneStream(x, m) && OneStream(x, n) && VariantsAgree(x, m, n)
    requires k in m && Folds(x, k, "stream") && k != "stream"
    ensures k in n && n[k] == m[k]
  {
    assert "stream" in FIELDS;
    assert Variant(x, k);
  }

  /** A field that is read is a field of the request. */
  lemma CountedRead(x: Reader, m: Object, n: Object)
    requires AgreeOn(CACHEABLE_FIELDS * FIELDS, x.read(m), x.read(n))
    ensures AgreeOn(COUNTED, x.read(m), x.read(n))
  {
    assert COUNTED <= CACHEABLE_FIELDS * FIELDS;
  }

  lemma MarshalledInts(w: World, x: Reader, m: Object)
    requires ReadsBack(w, x)
    ensures forall f :: f in INTS && f in x.read(m) && x.read(m)[f].Num? ==>
      Ints(x, w.marshal(Obj(m)))(f) == x.printed(x.read(m)[f].n)
  {
  }

  lemma SameInts(w: World, x: Reader, m: Object, n: Object)
    requires ReadsBack(w, x)
    requires SameAt(x.read(m), x.read(n), "max_tokens") && SameAt(x.read(m), x.read(n), "max_completion_tokens")
    ensures forall f :: f in INTS && f in x.read(m) && x.read(m)[f].Num? ==>
      Ints(x, w.marshal(Obj(m)))(f) == Ints(x, w.marshal(Obj(n)))(f)
  {
    MarshalledInts(w, x, m);
    MarshalledInts(w, x, n);
  }

  lemma ForwardedTranslated(w: World, x: Reader, m: Object, n: Object)
    requires ReadsBack(w, x) && AgreeOn(CACHEABLE_FIELDS, m, n) && VariantsAgree(x, m, n)
    requires StreamField(x.read(m)) == StreamField(x.read(n))
    ensures UpstreamFor(x.read(m), Ints(x, w.marshal(Obj(m)))) == UpstreamFor(x.read(n), Ints(x, w.marshal(Obj(n))))
  {
    ReadAgrees(x, m, n, CACHEABLE_FIELDS);
    CountedRead(x, m, n);
    MarshalledInts(w, x, m);
    MarshalledInts(w, x, n);
    CountedFieldsDecide(x.read(m), Ints(x, w.marshal(Obj(m))), x.read(n), Ints(x, w.marshal(Obj(n))));
  }

  lemma RenamedAgree(x: Reader, m: Object, n: Object, def: Def)
    requires Filtered(m, def.model) == Filtered(n, def.model) && VariantsAgree(x, m, n)
    ensures AgreeOn(CACHEABLE_FIELDS, Renamed(m, def), Renamed(n, def))
    ensures VariantsAgree(x, Renamed(m, def), Renamed(n, def))
  {
    FilteredAgree(m, n, def.model);
    forall k | Variant(x, k) ensures SameAt(Renamed(m, def), Renamed(n, def), k) {
      assert SameAt(m, n, k);
    }
  }

  /** Requests that may share a key: their other spellings agree, and `stream` has one spelling. */
  ghost predicate Comparable(w: World, x: Reader, q: Request, r: Request)
    requires Plain(w, q.body) && Plain(w, r.body)
  {
    var m, n := w.decode(q.body).j.members, w.decode(r.body).j.members;
    VariantsAgree(x, m, n) && OneStream(x, m) && OneStream(x, n)
  }

  lemma StreamOkRead(w: World, x: Reader, r: Request)
    requires Resolves(x) && Plain(w, r.body) && OneStream(x, w.decode(r.body).j.members)
    ensures OneStream(x, Forwarded(w, r)) && !Streams(Forwarded(w, r))
    ensures StreamOk(w, x, r) <==> StreamField(x.read(Forwarded(w, r))).Some?
  {
    var m, m' := w.decode(r.body).j.members, Forwarded(w, r);
    assert "model" in FIELDS && "stream" in FIELDS;
    forall k | k in m' && Folds(x, k, "stream") ensures k in m && m'[k] == m[k] {
    }
    StreamRead(x, m');
  }

  /**
  With the backend's model name filled in, requests that share a key are sent alike, unless
  `stream` makes one of them fail.
  */
  lemma SharedKeySentAlike(w: World, x: Reader, q: Request, r: Request)
    requires Speaks(w, x) && Faithful(w.key) && ShareKey(w, q, r) && q.def == r.def
    requires q.def.provider.Anthropic? && q.def.backendModel != ""
    requires Plain(w, q.body) && Plain(w, r.body) && Comparable(w, x, q, r)
    ensures !StreamOk(w, x, q) ==> Prepare(w, q) == Refused(ErrorResponse(SERVER_ERROR))
    ensures StreamOk(w, x, q) && StreamOk(w, x, r) ==> Prepare(w, q) == Prepare(w, r)
  {
    var m, n := w.decode(q.body).j.members, w.decode(r.body).j.members;
    SharedFields(w, q, r);
    PreparedRenamed(w, x, q);
    PreparedRenamed(w, x, r);
    StreamOkRead(w, x, q);
    StreamOkRead(w, x, r);
    RenamedAgree(x, m, n, q.def);
    if StreamOk(w, x, q) && StreamOk(w, x, r) {
      StreamsEqual(x, Forwarded(w, q), Forwarded(w, r));
      ForwardedTranslated(w, x, Forwarded(w, q), Forwarded(w, r));
    }
  }

  /**
  The requests are for one Anthropic definition whose model name at the backend is set, and
  those that share a key agree on the members whose names differ from a field's in case.
  */
  ghost predicate ForAnthropic(w: World, x: Reader, def: Def, considered: Request -> bool) {
    && def.provider.Anthropic? && def.backendModel != ""
    && (forall r :: considered(r) ==> r.def == def)
    && (forall q, r | considered(q) && considered(r) && Plain(w, q.body) && Plain(w, r.body) ::
          ShareKey(w, q, r) ==> Comparable(w, x, q, r))
  }

  ghost predicate Succeeds(w: World, r: Request) {
    exists response: Response :: response.status == 200 && Direct(w, r, response)
  }

  /** No request with a malformed `stream` shares its key with one that can succeed. */
  ghost predicate StreamsAgree(w: World, x: Reader, considered: Request -> bool) {
    forall q, r | considered(q) && considered(r) && Plain(w, r.body) ::
      ShareKey(w, q, r) && Succeeds(w, q) ==> StreamOk(w, x, r)
  }

  /**
  In front of Anthropic, whatever it answers and on whatever paths it is asked, the cache is
  transparent exactly when no request whose `stream` is neither boolean nor null shares a
  key with one that can succeed: the key ignores such a `stream`, the translation refuses it.
  */
  lemma AnthropicTransparentIff(w: World, x: Reader, def: Def, considered: Request -> bool)
    requires Speaks(w, x) && Faithful(w.key) && ForAnthropic(w, x, def, considered)
    ensures StreamsAgree(w, x, considered) <==>
      forall steps :: Within(steps, considered) ==> Transparent(w, Run(w, START, steps))
  {
    TransparentIff(w, considered);
    if StreamsAgree(w, x, considered) {
      StreamsDecide(w, x, def, considered);
    }
    if KeysDecide(w, considered) {
      StreamsNeeded(w, x, def, considered);
    }
  }

  lemma StreamsDecide(w: World, x: Reader, def: Def, considered: Request -> bool)
    requires Speaks(w, x) && Faithful(w.key) && ForAnthropic(w, x, def, considered) && StreamsAgree(w, x, considered)
    ensures KeysDecide(w, considered)
  {
    forall q, r, response: Response | considered(q) && considered(r) && ShareKey(w, q, r)
        && response.status == 200 && Direct(w, q, response)
      ensures Direct(w, r, response)
    {
      SharedFields(w, q, r);
      AnswerShared(w, x, q, r, response);
    }
  }

  lemma StreamsNeeded(w: World, x: Reader, def: Def, considered: Request -> bool)
    requires Speaks(w, x) && Faithful(w.key) && ForAnthropic(w, x, def, considered) && KeysDecide(w, considered)
    ensures StreamsAgree(w, x, considered)
  {
    forall q, r | considered(q) && considered(r) && Plain(w, r.body) && ShareKey(w, q, r) && Succeeds(w, q)
      ensures StreamOk(w, x, r)
    {
      var response: Response :| response.status == 200 && Direct(w, q, response);
      assert Direct(w, r, response);
      SharedFields(w, q, r);
      SharedKeySentAlike(w, x, r, q);
    }
  }

  lemma AnswerShared(w: World, x: Reader, q: Request, r: Request, response: Response)
    requires Speaks(w, x) && Faithful(w.key) && ShareKey(w, q, r) && q.def == r.def
    requires q.def.provider.Anthropic? && q.def.backendModel != ""
    requires Plain(w, q.body) && Plain(w, r.body) && Comparable(w, x, q, r)
    requires response.status == 200 && Direct(w, q, response) && StreamOk(w, x, r)
    ensures Direct(w, r, response)
  {
    SharedKeySentAlike(w, x, q, r);
    var raw := AnswerOf(w, q, response);
    assert w.backend(r.def, r.path, Prepare(w, r).body, raw);
  }

  // ---------------------------------------------------------------- what the key leaves out

  /** A field under another spelling reaches Anthropic, and the key ignores it: here the token limit. */
  lemma SpellingReaches(w: World, x: Reader, provider: string, model: string, m: Object, k: string, v: Float,
                        limit: int)
    requires ReadsBack(w, x) && NoSpelling(x, m, "max_tokens") && x.printed(v) == Some(limit)
    requires Folds(x, k, "max_tokens") && k !in CACHEABLE_FIELDS && k !in FIELDS
    requires UpstreamFor(x.read(m), Ints(x, w.marshal(Obj(m)))).Some?
    ensures var n := m[k := Num(v)];
      && KeyOf(w.key, provider, model, Value(Obj(n))) == KeyOf(w.key, provider, model, Value(Obj(m)))
      && UpstreamFor(x.read(n), Ints(x, w.marshal(Obj(n)))) ==
         Some(UpstreamFor(x.read(m), Ints(x, w.marshal(Obj(m)))).value.(maxTokens := limit))
  {
    var n := m[k := Num(v)];
    IgnoredFields(w.key, provider, model, m, k, Num(v));
    OneMoreSpelling(x, m, "max_tokens", k, Num(v));
    MarshalledInts(w, x, m);
    MarshalledInts(w, x, n);
    AgreeSome(x.read(m), x.read(n), "max_tokens", "max_completion_tokens");
    LimitReaches(x.read(m), Ints(x, w.marshal(Obj(m))), x.read(n), Ints(x, w.marshal(Obj(n))), limit);
  }

  lemma OneMoreSpelling(x: Reader, m: Object, f: string, k: string, v: Json<Float>)
    requires Resolves(x) && NoSpelling(x, m, f) && f in FIELDS && f != "messages" && Folds(x, k, f) && k !in FIELDS
    ensures var n := m[k := v];
      f !in x.read(m) && f in x.read(n) && x.read(n)[f] == v && AgreeOn(FIELDS - {f}, x.read(m), x.read(n))
  {
    var n := m[k := v];
    assert OnlySpelling(x, n, f, k);
    forall g | g in FIELDS - {f} ensures SameAt(x.read(m), x.read(n), g) {
      assert SameSpellings(x, m, n, g);
    }
  }

  lemma AgreeSome(m: Object, n: Object, f: string, g: string)
    requires AgreeOn(FIELDS - {f}, m, n) && g in FIELDS && g != f
    ensures SameAt(m, n, g)
  {
  }

  lemma LimitReaches(m: Object, ints: string -> Option<int>, n: Object, ints': string -> Option<int>, limit: int)
    requires AgreeOn(FIELDS - {"max_tokens"}, m, n) && "max_tokens" !in m
    requires "max_tokens" in n && n["max_tokens"].Num? && ints'("max_tokens") == Some(limit)
    requires "max_completion_tokens" in m && m["max_completion_tokens"].Num? ==>
               ints("max_completion_tokens") == ints'("max_completion_tokens")
    requires UpstreamFor(m, ints).Some?
    ensures UpstreamFor(n, ints') == Some(UpstreamFor(m, ints).value.(maxTokens := limit))
  {
    assert FIELDS - {"max_tokens"} == {"model", "messages", "max_completion_tokens", "temperature", "top_p",
      "stop", "stream", "tools", "tool_choice"};
    assert IntPointer(n, ints', "max_completion_tokens") == IntPointer(m, ints, "max_completion_tokens");
    assert MessagesField(m) == MessagesField(n);
    assert StreamField(m) == StreamField(n);
  }

  /** So does a `stream` that is true under another spelling, on which the key does not stand aside. */
  lemma StreamSpellingReaches(w: World, x: Reader, provider: string, model: string, m: Object, k: string)
    requires ReadsBack(w, x) && NoSpelling(x, m, "stream")
    requires Folds(x, k, "stream") && k !in CACHEABLE_FIELDS && k !in FIELDS
    requires UpstreamFor(x.read(m), Ints(x, w.marshal(Obj(m)))).Some?
    ensures var n := m[k := Bool(true)];
      && KeyOf(w.key, provider, model, Value(Obj(n))) == KeyOf(w.key, provider, model, Value(Obj(m)))
      && UpstreamFor(x.read(n), Ints(x, w.marshal(Obj(n)))) ==
         Some(UpstreamFor(x.read(m), Ints(x, w.marshal(Obj(m)))).value.(stream := true))
  {
    var n := m[k := Bool(true)];
    IgnoredFields(w.key, provider, model, m, k, Bool(true));
    OneMoreSpelling(x, m, "stream", k, Bool(true));
    AgreeSome(x.read(m), x.read(n), "stream", "max_tokens");
    AgreeSome(x.read(m), x.read(n), "stream", "max_completion_tokens");
    SameInts(w, x, m, n);
    StreamReaches(x.read(m), Ints(x, w.marshal(Obj(m))), x.read(n), Ints(x, w.marshal(Obj(n))));
  }

  lemma StreamReaches(m: Object, ints: string -> Option<int>, n: Object, ints': string -> Option<int>)
    requires AgreeOn(FIELDS - {"stream"}, m, n) && "stream" in n && n["stream"] == Bool(true)
    requires forall f :: f in INTS && f in m && m[f].Num? ==> ints(f) == ints'(f)
    requires UpstreamFor(m, ints).Some?
    ensures UpstreamFor(n, ints') == Some(UpstreamFor(m, ints).value.(stream := true))
  {
    assert FIELDS - {"stream"} == {"model", "messages", "max_tokens", "max_completion_tokens", "temperature", "top_p",
      "stop", "tools", "tool_choice"};
    assert IntPointer(n, ints', "max_tokens") == IntPointer(m, ints, "max_tokens");
    assert IntPointer(n, ints', "max_completion_tokens") == IntPointer(m, ints, "max_completion_tokens");
    assert MessagesField(m) == MessagesField(n);
  }

  /**
  Without a backend model name, requests that share a key and are translated differ in the
  model and the integers at most, if their other spellings agree.
  */
  lemma UnrenamedDiffer(x: Reader, model: string, m: Object, b: string, n: Object, c: string)
    requires Resolves(x) && VariantsAgree(x, m, n) && OneStream(x, m) && OneStream(x, n)
    requires Filtered(m, model) == Filtered(n, model) && !Streams(m) && !Streams(n)
    requires UpstreamFor(x.read(m), Ints(x, b)).Some? && UpstreamFor(x.read(n), Ints(x, c)).Some?
    ensures var u, v := UpstreamFor(x.read(m), Ints(x, b)).value, UpstreamFor(x.read(n), Ints(x, c)).value;
      v == u.(model := v.model, maxTokens := v.maxTokens)
  {
    FilteredAgree(m, n, model);
    ReadAgrees(x, m, n, CACHEABLE_FIELDS - {"model"});
    StreamsEqual(x, m, n);
    assert {"messages", "temperature", "top_p", "stop"} <= (CACHEABLE_FIELDS - {"model"}) * FIELDS;
    assert MessagesField(x.read(m)) == MessagesField(x.read(n));
  }

  /** The client's model name then reaches Anthropic, and the key ignores it. */
  lemma ClientModelReaches(c: Encoding<Float>, def: Def, m: Object, ints: string -> Option<int>, a: string, b: string)
    requires UpstreamFor(m, ints).Some? && a != b
    ensures var n, n' := m["model" := Str(a)], m["model" := Str(b)];
      && KeyOf(c, NameOf(def.provider), def.model, Value(Obj(n))) ==
         KeyOf(c, NameOf(def.provider), def.model, Value(Obj(n')))
      && UpstreamFor(n, ints).Some? && UpstreamFor(n', ints).Some?
      && UpstreamFor(n, ints).value.model == a && UpstreamFor(n', ints).value.model == b
  {
    IgnoredFields(c, NameOf(def.provider), def.model, m, "model", Str(a));
    IgnoredFields(c, NameOf(def.provider), def.model, m, "model", Str(b));
    ModelReaches(m, ints, a);
    ModelReaches(m, ints, b);
  }

  lemma ModelReaches(m: Object, ints: string -> Option<int>, a: string)
    requires UpstreamFor(m, ints).Some?
    ensures var n := m["model" := Str(a)];
      UpstreamFor(n, ints) == Some(UpstreamFor(m, ints).value.(model := a))
  {
    var n := m["model" := Str(a)];
    assert MessagesField(n) == MessagesField(m);
    assert StreamField(n) == StreamField(m);
  }
}
