/**
Token usage in response bodies: how it is read from an OpenAI-format body, and how an
Anthropic response is translated into one.
*/
module Usage {
  import opened Wrappers
  import opened Json
  import opened Sequences

  /** A number as a Go int field decodes it: None when it is no 64-bit integer. */
  type Value = Json<Option<int>>

  datatype Usage = Usage(prompt: int, completion: int)

  /** Fields of a Go struct: a missing or null member leaves the zero value, another type is an error. */
  function IntField(m: map<string, Value>, name: string): Option<int> {
    if name !in m || m[name].Null? then Some(0)
    else if m[name].Num? then m[name].n
    else None
  }

  function StringField<N>(m: map<string, Json<N>>, name: string): Option<string> {
    if name !in m || m[name].Null? then Some("")
    else if m[name].Str? then Some(m[name].s)
    else None
  }

  function ObjectField<N>(m: map<string, Json<N>>, name: string): Option<map<string, Json<N>>> {
    if name !in m || m[name].Null? then Some(map[])
    else if m[name].Obj? then Some(m[name].members)
    else None
  }

  /** The members of a body decoded into a struct; null decodes like an empty object. */
  function Members<N>(j: Json<N>): Option<map<string, Json<N>>> {
    match j
    case Null => Some(map[])
    case Obj(m) => Some(m)
    case _ => None
  }

  function Counts(m: map<string, Value>, prompt: string, completion: string): Option<Usage> {
    match (IntField(m, prompt), IntField(m, completion))
    case (Some(p), Some(c)) => Some(Usage(p, c))
    case _ => None
  }

  /** `parseOpenAIUsage`, and the same decoding in `emitTokenMetrics`. */
  function UsageOf(j: Value): Option<Usage> {
    match Members(j)
    case None => None
    case Some(m) =>
      match ObjectField(m, "usage")
      case None => None
      case Some(u) => Counts(u, "prompt_tokens", "completion_tokens")
  }

  // ---------------------------------------------------------------- Anthropic responses

  datatype Block = Block(typ: string, text: string)

  datatype Reply = Reply(id: string, model: string, blocks: seq<Block>, stopReason: string, usage: Usage)

  function DecodeBlock(j: Value): Option<Block> {
    match Members(j)
    case None => None
    case Some(m) =>
      match (StringField(m, "type"), StringField(m, "text"))
      case (Some(typ), Some(text)) => Some(Block(typ, text))
      case _ => None
  }

  function DecodeBlocks(items: seq<Value>): Option<seq<Block>> {
    if items == [] then Some([])
    else
      match (DecodeBlock(items[0]), DecodeBlocks(items[1..]))
      case (Some(b), Some(bs)) => Some([b] + bs)
      case _ => None
  }

  function DecodeContent(m: map<string, Value>): Option<seq<Block>> {
    if "content" !in m || m["content"].Null? then Some([])
    else if m["content"].Arr? then DecodeBlocks(m["content"].items)
    else None
  }

  function DecodeUsage(m: map<string, Value>): Option<Usage> {
    match ObjectField(m, "usage")
    case None => None
    case Some(u) => Counts(u, "input_tokens", "output_tokens")
  }

  function DecodeReply(j: Value): Option<Reply> {
    match Members(j)
    case None => None
    case Some(m) =>
      if StringField(m, "type").None? then None
      else
        match (StringField(m, "id"), StringField(m, "model"), DecodeContent(m), StringField(m, "stop_reason"),
               DecodeUsage(m))
        case (Some(id), Some(model), Some(blocks), Some(stop), Some(usage)) =>
          Some(Reply(id, model, blocks, stop, usage))
        case _ => None
  }

  function TextOf(blocks: seq<Block>): string {
    if blocks == [] then ""
    else TextOf(blocks[..|blocks| - 1]) + if blocks[|blocks| - 1].typ == "text" then blocks[|blocks| - 1].text else ""
  }

  function FinishReason(stopReason: string): string {
    if stopReason == "end_turn" || stopReason == "stop_sequence" then "stop"
    else if stopReason == "max_tokens" then "length"
    else if stopReason == "tool_use" then "tool_calls"
    else stopReason
  }

  function Choice(text: string, finishReason: string): Value {
    Obj(map[
      "index" := Num(Some(0)),
      "message" := Obj(map["role" := Str("assistant"), "content" := Str(text)]),
      "finish_reason" := Str(finishReason)])
  }

  function UsageOut(u: Usage): Value {
    Obj(map[
      "prompt_tokens" := Num(Some(u.prompt)),
      "completion_tokens" := Num(Some(u.completion)),
      "total_tokens" := Num(Some(Wrap64(u.prompt + u.completion)))])
  }

  function Translated(r: Reply, text: string): Value {
    Obj(map[
      "id" := Str(r.id),
      "object" := Str("chat.completion"),
      "model" := Str(r.model),
      "choices" := Arr([Choice(text, FinishReason(r.stopReason))]),
      "usage" := UsageOut(r.usage)])
  }

  /** `anthropicToOpenAI`: the translated body and the usage reported beside it. */
  method AnthropicToOpenAI(j: Value) returns (r: Option<(Value, Usage)>)
    ensures r == Translation(j)
  {
    var reply := DecodeReply(j);
    if reply.None? {
      return None;
    }
    var blocks := reply.value.blocks;
    var text := "";
    for i := 0 to |blocks|
      invariant text == TextOf(blocks[..i])
    {
      assert blocks[..i + 1][..i] == blocks[..i];
      if blocks[i].typ == "text" {
        text := text + blocks[i].text;
      }
    }
    assert blocks[..|blocks|] == blocks;
    r := Some((Translated(reply.value, text), reply.value.usage));
  }

  function Translation(j: Value): Option<(Value, Usage)> {
    match DecodeReply(j)
    case None => None
    case Some(r) => Some((Translated(r, TextOf(r.blocks)), r.usage))
  }

  lemma CountsOfUsageOut(u: Usage)
    ensures Counts(UsageOut(u).members, "prompt_tokens", "completion_tokens") == Some(u)
  {
  }

  lemma UsageOfMember(m: map<string, Value>, u: Usage)
    requires "usage" in m && m["usage"] == UsageOut(u)
    ensures UsageOf(Obj(m)) == Some(u)
  {
    CountsOfUsageOut(u);
  }

  /** A translated body carries the usage that is reported for it. */
  lemma TranslationKeepsUsage(j: Value)
    requires Translation(j).Some?
    ensures UsageOf(Translation(j).value.0) == Some(Translation(j).value.1)
  {
    var r := DecodeReply(j).value;
    UsageOfMember(Translated(r, TextOf(r.blocks)).members, r.usage);
  }

  // ---------------------------------------------------------------- what is read and what is written

  /** Members as a reader finds them, whatever the decoding: a string, an integer, an object or an array, or nothing. */
  function StringIn<N>(m: map<string, Json<N>>, name: string): string {
    if name in m && m[name].Str? then m[name].s else ""
  }

  function IntIn(m: map<string, Value>, name: string): int {
    if name in m && m[name].Num? && m[name].n.Some? then m[name].n.value else 0
  }

  function ObjectIn<N>(m: map<string, Json<N>>, name: string): map<string, Json<N>> {
    if name in m && m[name].Obj? then m[name].members else map[]
  }

  function ItemsIn<N>(m: map<string, Json<N>>, name: string): seq<Json<N>> {
    if name in m && m[name].Arr? then m[name].items else []
  }

  /** An OpenAI body reports its prompt tokens and its completion tokens. */
  lemma UsageRead(m: map<string, Value>)
    requires UsageOf(Obj(m)).Some?
    ensures UsageOf(Obj(m)).value.prompt == IntIn(ObjectIn(m, "usage"), "prompt_tokens")
    ensures UsageOf(Obj(m)).value.completion == IntIn(ObjectIn(m, "usage"), "completion_tokens")
  {
  }

  /** Anthropic's input tokens are the prompt tokens, its output tokens the completion tokens, here and in the body. */
  lemma TranslatedUsage(m: map<string, Value>)
    requires Translation(Obj(m)).Some?
    ensures var (t, usage) := Translation(Obj(m)).value;
      var p, c := IntIn(ObjectIn(m, "usage"), "input_tokens"), IntIn(ObjectIn(m, "usage"), "output_tokens");
      && usage.prompt == p && usage.completion == c
      && t.Obj? && "usage" in t.members
      && t.members["usage"] == Obj(map[
           "prompt_tokens" := Num(Some(p)),
           "completion_tokens" := Num(Some(c)),
           "total_tokens" := Num(Some(Wrap64(p + c)))])
  {
    UsageDecoded(m);
  }

  lemma UsageDecoded(m: map<string, Value>)
    requires DecodeUsage(m).Some?
    ensures DecodeUsage(m).value.prompt == IntIn(ObjectIn(m, "usage"), "input_tokens")
    ensures DecodeUsage(m).value.completion == IntIn(ObjectIn(m, "usage"), "output_tokens")
  {
  }

  predicate Textual(block: Value) {
    block.Obj? && "type" in block.members && block.members["type"] == Str("text")
  }

  function TextIn<N>(block: Json<N>): string {
    if block.Obj? then StringIn(block.members, "text") else ""
  }

  predicate Matches(b: Block, item: Value) {
    (b.typ == "text" <==> Textual(item)) && b.text == TextIn(item)
  }

  lemma {:induction false} BlocksDecoded(items: seq<Value>)
    requires DecodeBlocks(items).Some?
    ensures var bs := DecodeBlocks(items).value;
      |bs| == |items| && forall i :: 0 <= i < |bs| ==> Matches(bs[i], items[i])
  {
    if items != [] {
      BlocksDecoded(items[1..]);
    }
  }

  function TextsAt<N>(items: seq<Json<N>>, idx: seq<nat>): seq<string>
    requires forall k :: 0 <= k < |idx| ==> idx[k] < |items|
  {
    seq(|idx|, k requires 0 <= k < |idx| => TextIn(items[idx[k]]))
  }

  lemma TextOfSnoc(blocks: seq<Block>, b: Block, item: Value, text: string, parts: seq<string>)
    requires Matches(b, item) && text == TextOf(blocks) && Laid(text, parts, "")
    ensures Laid(TextOf(blocks + [b]), if Textual(item) then parts + [TextIn(item)] else parts, "")
  {
    var all := blocks + [b];
    assert all[..|all| - 1] == blocks && all[|all| - 1] == b;
    if Textual(item) {
      LaidMore(text, parts, b.text);
    } else {
      assert text + "" == text;
    }
  }

  ghost predicate TextLaid(blocks: seq<Block>, items: seq<Value>, idx: seq<nat>) {
    Selects(idx, items, Textual) && Laid(TextOf(blocks), TextsAt(items, idx), "")
  }

  lemma TextLaidSnoc(blocks: seq<Block>, b: Block, items: seq<Value>, x: Value, before: seq<nat>)
    requires TextLaid(blocks, items, before) && Matches(b, x)
    ensures TextLaid(blocks + [b], items + [x], if Textual(x) then before + [|items|] else before)
  {
    SelectsSnoc(before, items, x, Textual);
    TextsSnoc(items, x, before);
    TextOfSnoc(blocks, b, x, TextOf(blocks), TextsAt(items, before));
  }

  lemma TextLaidLast(blocks: seq<Block>, items: seq<Value>, before: seq<nat>) returns (idx: seq<nat>)
    requires |blocks| == |items| > 0 && Matches(blocks[|blocks| - 1], items[|items| - 1])
    requires TextLaid(blocks[..|blocks| - 1], items[..|items| - 1], before)
    ensures TextLaid(blocks, items, idx)
  {
    var n := |blocks| - 1;
    var b, x := blocks[n], items[n];
    idx := if Textual(x) then before + [|items[..n]|] else before;
    TextLaidSnoc(blocks[..n], b, items[..n], x, before);
    InitAndLast(blocks);
    InitAndLast(items);
    SameTextLaid(blocks[..n] + [b], blocks, items[..n] + [x], items, idx);
  }

  lemma SameTextLaid(bs: seq<Block>, blocks: seq<Block>, xs: seq<Value>, items: seq<Value>, idx: seq<nat>)
    requires TextLaid(bs, xs, idx) && bs == blocks && xs == items
    ensures TextLaid(blocks, items, idx)
  {
  }

  lemma {:induction false} TextOfLaid(blocks: seq<Block>, items: seq<Value>) returns (idx: seq<nat>)
    requires |blocks| == |items|
    requires forall i :: 0 <= i < |items| ==> Matches(blocks[i], items[i])
    ensures TextLaid(blocks, items, idx)
  {
    if blocks == [] {
      idx := NoTextLaid();
      assert items == [];
    } else {
      var n := |blocks| - 1;
      var before := TextOfLaid(blocks[..n], items[..n]);
      idx := TextLaidLast(blocks, items, before);
    }
  }

  lemma NoTextLaid() returns (idx: seq<nat>)
    ensures TextLaid([], [], idx)
  {
    idx := [];
    LaidNone("");
    assert TextsAt<Option<int>>([], idx) == [];
  }

  lemma TextsSnoc<N>(items: seq<Json<N>>, x: Json<N>, idx: seq<nat>)
    requires forall k :: 0 <= k < |idx| ==> idx[k] < |items|
    ensures TextsAt(items + [x], idx) == TextsAt(items, idx)
    ensures TextsAt(items + [x], idx + [|items|]) == TextsAt(items, idx) + [TextIn(x)]
  {
  }

  lemma ChoiceShape(r: Reply, text: string)
    ensures ItemsIn(Translated(r, text).members, "choices") == [Choice(text, FinishReason(r.stopReason))]
    ensures ObjectIn(Choice(text, FinishReason(r.stopReason)).members, "message") ==
      map["role" := Str("assistant"), "content" := Str(text)]
  {
  }

  /** The delivered message is the texts of the text blocks, one after the other in their order. */
  lemma TranslatedText(m: map<string, Value>) returns (idx: seq<nat>, text: string)
    requires Translation(Obj(m)).Some?
    ensures Selects(idx, ItemsIn(m, "content"), Textual)
    ensures Laid(text, TextsAt(ItemsIn(m, "content"), idx), "")
    ensures var choices := ItemsIn(Translation(Obj(m)).value.0.members, "choices");
      && |choices| == 1 && choices[0].Obj?
      && ObjectIn(choices[0].members, "message") == map["role" := Str("assistant"), "content" := Str(text)]
  {
    var r := DecodeReply(Obj(m)).value;
    ContentDecoded(m);
    idx := TextOfLaid(r.blocks, ItemsIn(m, "content"));
    assert TextLaid(r.blocks, ItemsIn(m, "content"), idx);
    text := TextOf(r.blocks);
    ChoiceShape(r, text);
  }

  lemma ContentDecoded(m: map<string, Value>)
    requires DecodeContent(m).Some?
    ensures var bs, items := DecodeContent(m).value, ItemsIn(m, "content");
      |bs| == |items| && forall i :: 0 <= i < |bs| ==> Matches(bs[i], items[i])
  {
    if "content" in m && m["content"].Arr? {
      BlocksDecoded(m["content"].items);
    }
  }

  lemma ReplyDecoded(m: map<string, Value>)
    requires DecodeReply(Obj(m)).Some?
    ensures var r := DecodeReply(Obj(m)).value;
      r.id == StringIn(m, "id") && r.model == StringIn(m, "model") && r.stopReason == StringIn(m, "stop_reason")
  {
  }

  /** The other members of the translated body: id and model are kept ... */
  lemma TranslatedRest(m: map<string, Value>)
    requires Translation(Obj(m)).Some?
    ensures var t := Translation(Obj(m)).value.0.members;
      && t.Keys == {"id", "object", "model", "choices", "usage"}
      && t["id"] == Str(StringIn(m, "id")) && t["model"] == Str(StringIn(m, "model"))
      && t["object"] == Str("chat.completion")
  {
    ReplyDecoded(m);
    var r := DecodeReply(Obj(m)).value;
    TranslatedMembers(r, TextOf(r.blocks));
  }

  lemma TranslatedMembers(r: Reply, text: string)
    ensures var t := Translated(r, text).members;
      && t.Keys == {"id", "object", "model", "choices", "usage"}
      && t["id"] == Str(r.id) && t["model"] == Str(r.model) && t["object"] == Str("chat.completion")
  {
  }

  /** ... and each stop reason has its finish reason. */
  lemma TranslatedStop(m: map<string, Value>)
    requires Translation(Obj(m)).Some?
    ensures var choices, stop := ItemsIn(Translation(Obj(m)).value.0.members, "choices"), StringIn(m, "stop_reason");
      && |choices| == 1 && choices[0].Obj?
      && choices[0].members.Keys == {"index", "message", "finish_reason"} && choices[0].members["index"] == Num(Some(0))
      && Finishes(stop, choices[0].members["finish_reason"])
  {
    var r := DecodeReply(Obj(m)).value;
    ReplyDecoded(m);
    ChoiceShape(r, TextOf(r.blocks));
    ChoiceFinishes(r.stopReason, TextOf(r.blocks));
  }

  lemma ChoiceFinishes(stop: string, text: string)
    ensures var choice := Choice(text, FinishReason(stop)).members;
      && choice.Keys == {"index", "message", "finish_reason"} && choice["index"] == Num(Some(0))
      && Finishes(stop, choice["finish_reason"])
  {
  }

  predicate Finishes(stop: string, finish: Value) {
    && (stop == "end_turn" || stop == "stop_sequence" ==> finish == Str("stop"))
    && (stop == "max_tokens" ==> finish == Str("length"))
    && (stop == "tool_use" ==> finish == Str("tool_calls"))
    && (stop !in {"end_turn", "stop_sequence", "max_tokens", "tool_use"} ==> finish == Str(stop))
  }

  // ---------------------------------------------------------------- which replies are accepted

  predicate MaybeString<N>(m: map<string, Json<N>>, name: string) {
    name in m ==> m[name].Null? || m[name].Str?
  }

  predicate MaybeInt(m: map<string, Value>, name: string) {
    name in m ==> m[name].Null? || (m[name].Num? && m[name].n.Some?)
  }

  predicate MaybeBlock(j: Value) {
    j.Null? || (j.Obj? && MaybeString(j.members, "type") && MaybeString(j.members, "text"))
  }

  lemma {:induction false} BlocksAccepted(items: seq<Value>)
    ensures DecodeBlocks(items).Some? <==> forall i :: 0 <= i < |items| ==> MaybeBlock(items[i])
  {
    if items != [] {
      BlocksAccepted(items[1..]);
      assert forall i :: 0 <= i < |items[1..]| ==> items[1..][i] == items[i + 1];
    }
  }

  predicate MaybeContent(j: Value) {
    j.Null? || (j.Arr? && forall i :: 0 <= i < |j.items| ==> MaybeBlock(j.items[i]))
  }

  predicate MaybeUsage(j: Value) {
    j.Null? || (j.Obj? && MaybeInt(j.members, "input_tokens") && MaybeInt(j.members, "output_tokens"))
  }

  predicate MaybeReply(m: map<string, Value>) {
    && MaybeString(m, "id") && MaybeString(m, "type") && MaybeString(m, "model") && MaybeString(m, "stop_reason")
    && ("content" in m ==> MaybeContent(m["content"]))
    && ("usage" in m ==> MaybeUsage(m["usage"]))
  }

  /** A reply is refused exactly when it is no object, or one of the members that are read has another type. */
  lemma ReplyAccepted(j: Value)
    ensures Translation(j).Some? <==> j.Null? || (j.Obj? && MaybeReply(j.members))
  {
    if j.Obj? && "content" in j.members && j.members["content"].Arr? {
      BlocksAccepted(j.members["content"].items);
    }
  }

  // ---------------------------------------------------------------- 64-bit counts

  predicate Int64(n: int) {
    -0x8000_0000_0000_0000 <= n < 0x8000_0000_0000_0000
  }

  /** Every number that decodes as an integer is a 64-bit one. */
  predicate Fits(j: Value) {
    match j
    case Num(n) => n.Some? ==> Int64(n.value)
    case Arr(items) => forall i :: 0 <= i < |items| ==> Fits(items[i])
    case Obj(m) => forall k :: k in m ==> Fits(m[k])
    case _ => true
  }

  lemma DecodedUsageFits(m: map<string, Value>)
    requires Fits(Obj(m)) && DecodeUsage(m).Some?
    ensures Int64(DecodeUsage(m).value.prompt) && Int64(DecodeUsage(m).value.completion)
  {
    var u := ObjectField(m, "usage").value;
    assert Fits(Obj(u)) by {
      if "usage" in m {
        assert Fits(m["usage"]);
      }
    }
    assert "input_tokens" in u ==> Fits(u["input_tokens"]);
    assert "output_tokens" in u ==> Fits(u["output_tokens"]);
  }

  lemma ChoiceFits(text: string, finishReason: string)
    ensures Fits(Choice(text, finishReason))
  {
    assert Fits(Num(Some(0)));
    assert Fits(Obj(map["role" := Str("assistant"), "content" := Str(text)]));
  }

  lemma UsageOutFits(u: Usage)
    requires Int64(u.prompt) && Int64(u.completion)
    ensures Fits(UsageOut(u))
  {
  }

  lemma TranslatedFits(r: Reply, text: string)
    requires Int64(r.usage.prompt) && Int64(r.usage.completion)
    ensures Fits(Translated(r, text))
  {
    ChoiceFits(text, FinishReason(r.stopReason));
    UsageOutFits(r.usage);
    assert Fits(Arr([Choice(text, FinishReason(r.stopReason))]));
  }

  /** The translation of a body with 64-bit counts has 64-bit counts; the total wraps around. */
  lemma TranslationFits(j: Value)
    requires Fits(j) && Translation(j).Some?
    ensures Fits(Translation(j).value.0)
  {
    var r := DecodeReply(j).value;
    DecodedUsageFits(Members(j).value);
    TranslatedFits(r, TextOf(r.blocks));
  }
}
