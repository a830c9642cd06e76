/**
What `openAIToAnthropic` sends, said without its loops: which messages become turns, in which
order and with which text, and where every other parameter comes from.
*/
module AnthropicMessages {
  import opened Wrappers
  import opened Sequences
  import opened Json
  import opened Usage
  import opened LlmProxy
  import opened AnthropicRequest

  type Item = Json<Float>

  function RoleIn(item: Item): string {
    if item.Obj? then StringIn(item.members, "role") else ""
  }

  function ContentIn(item: Item): Item {
    if item.Obj? && "content" in item.members then item.members["content"] else Null
  }

  // ---------------------------------------------------------------- the text of a message

  predicate HasText(part: Item) {
    part.Obj? && "text" in part.members && part.members["text"].Str?
  }

  /** The text of a message: the string itself, or the texts of its parts one after the other. */
  ghost predicate Says(content: Item, text: string) {
    match content
    case Str(s) => text == s
    case Arr(parts) => exists idx: seq<nat> :: Picked(parts, idx, text)
    case _ => text == ""
  }

  ghost predicate Picked(parts: seq<Item>, idx: seq<nat>, text: string) {
    Selects(idx, parts, HasText) && Laid(text, TextsAt(parts, idx), "")
  }

  lemma PickedSnoc(parts: seq<Item>, x: Item, idx: seq<nat>, text: string)
    requires Picked(parts, idx, text)
    ensures HasText(x) ==> Picked(parts + [x], idx + [|parts|], text + TextIn(x))
    ensures !HasText(x) ==> Picked(parts + [x], idx, text)
  {
    SelectsSnoc(idx, parts, x, HasText);
    TextsSnoc(parts, x, idx);
    LaidMore(text, TextsAt(parts, idx), TextIn(x));
  }

  lemma {:induction false} PartsPicked(parts: seq<Item>) returns (idx: seq<nat>)
    ensures Picked(parts, idx, PartsText(parts))
  {
    if parts == [] {
      idx := [];
      LaidNone("");
      assert TextsAt(parts, idx) == [];
    } else {
      var n := |parts| - 1;
      idx := PartsPicked(parts[..n]);
      PickedSnoc(parts[..n], parts[n], idx, PartsText(parts[..n]));
      InitAndLast(parts);
      assert |parts[..n]| == n && PartsText(parts[..n]) + "" == PartsText(parts[..n]);
      if HasText(parts[n]) {
        idx := idx + [n];
      }
    }
  }

  lemma ContentSays(content: Item)
    ensures Says(content, ContentText(content))
  {
    if content.Arr? {
      var idx := PartsPicked(content.items);
    }
  }

  // ---------------------------------------------------------------- turns

  predicate Conversational(item: Item) {
    RoleIn(item) != "system"
  }

  predicate OfSystem(item: Item) {
    RoleIn(item) == "system"
  }

  /** A turn has the text of its message; the roles user and assistant are kept, any other becomes user. */
  ghost predicate TurnOf(item: Item, turn: Turn) {
    && Says(ContentIn(item), turn.content)
    && (RoleIn(item) == "user" || RoleIn(item) == "assistant" ==> turn.role == RoleIn(item))
    && (RoleIn(item) != "user" && RoleIn(item) != "assistant" ==> turn.role == "user")
  }

  predicate Decoded(messages: seq<Message>, items: seq<Item>) {
    |messages| == |items|
    && forall i :: 0 <= i < |items| ==>
         messages[i].role == RoleIn(items[i]) && messages[i].content == ContentIn(items[i])
  }

  lemma {:induction false} ItemsDecoded(items: seq<Item>)
    requires DecodeMessages(items).Some?
    ensures Decoded(DecodeMessages(items).value, items)
  {
    if items != [] {
      ItemsDecoded(items[1..]);
    }
  }

  ghost predicate TurnsTaken(turns: seq<Turn>, items: seq<Item>, idx: seq<nat>) {
    Selects(idx, items, Conversational) && Yields(idx, items, turns, TurnOf)
  }

  lemma TurnsSnoc(turns: seq<Turn>, items: seq<Item>, x: Item, idx: seq<nat>)
    requires TurnsTaken(turns, items, idx)
    ensures OfSystem(x) ==> TurnsTaken(turns, items + [x], idx)
    ensures !OfSystem(x) ==>
      TurnsTaken(turns + [Turn(RoleOf(RoleIn(x)), ContentText(ContentIn(x)))], items + [x], idx + [|items|])
  {
    SelectsSnoc(idx, items, x, Conversational);
    ContentSays(ContentIn(x));
    assert TurnOf(x, Turn(RoleOf(RoleIn(x)), ContentText(ContentIn(x))));
    YieldsSnoc(idx, items, x, turns, TurnOf);
  }

  lemma {:induction false} TurnsOfTaken(messages: seq<Message>, items: seq<Item>) returns (idx: seq<nat>)
    requires Decoded(messages, items)
    ensures TurnsTaken(TurnsOf(messages), items, idx)
  {
    if messages == [] {
      idx := [];
    } else {
      var n := |messages| - 1;
      idx := TurnsOfTaken(messages[..n], items[..n]);
      TurnsSnoc(TurnsOf(messages[..n]), items[..n], items[n], idx);
      InitAndLast(items);
      assert |items[..n]| == n && TurnsOf(messages[..n]) + [] == TurnsOf(messages[..n]);
      if !OfSystem(items[n]) {
        idx := idx + [n];
      }
    }
  }

  lemma ParamsDecoded(m: Object, ints: string -> Option<int>)
    requires DecodeParams(m, ints).Some?
    ensures Decoded(DecodeParams(m, ints).value.messages, ItemsIn(m, "messages"))
  {
    if "messages" in m && m["messages"].Arr? {
      ItemsDecoded(m["messages"].items);
    }
  }

  /** The turns are the messages that are not of the system, in order and each with its role and text. */
  lemma TurnsInOrder(m: Object, ints: string -> Option<int>) returns (idx: seq<nat>)
    requires UpstreamFor(m, ints).Some?
    ensures var turns, items := UpstreamFor(m, ints).value.turns, ItemsIn(m, "messages");
      && Selects(idx, items, Conversational) && |turns| == |idx|
      && forall k :: 0 <= k < |idx| ==> TurnOf(items[idx[k]], turns[k])
  {
    ParamsDecoded(m, ints);
    var p := DecodeParams(m, ints).value;
    idx := TurnsOfTaken(p.messages, ItemsIn(m, "messages"));
    assert TurnsTaken(TurnsOf(p.messages), ItemsIn(m, "messages"), idx);
  }

  // ---------------------------------------------------------------- the system text

  /** Leading empty lines are left out, and the others follow each other, a line each. */
  ghost predicate Lines(text: string, lines: seq<string>, skipped: nat) {
    && skipped <= |lines|
    && (forall k :: 0 <= k < skipped ==> lines[k] == "")
    && (skipped < |lines| ==> lines[skipped] != "")
    && Laid(text, lines[skipped..], "\n")
  }

  ghost predicate SystemTaken(items: seq<Item>, idx: seq<nat>, lines: seq<string>) {
    Selects(idx, items, OfSystem) && Yields(idx, items, lines, Speaks)
  }

  ghost predicate Speaks(item: Item, text: string) {
    Says(ContentIn(item), text)
  }

  lemma SystemSnoc(items: seq<Item>, x: Item, idx: seq<nat>, lines: seq<string>)
    requires SystemTaken(items, idx, lines)
    ensures !OfSystem(x) ==> SystemTaken(items + [x], idx, lines)
    ensures OfSystem(x) ==> SystemTaken(items + [x], idx + [|items|], lines + [ContentText(ContentIn(x))])
  {
    SelectsSnoc(idx, items, x, OfSystem);
    ContentSays(ContentIn(x));
    assert Speaks(x, ContentText(ContentIn(x)));
    YieldsSnoc(idx, items, x, lines, Speaks);
  }

  lemma LinesSnoc(text: string, lines: seq<string>, skipped: nat, x: string) returns (skipped': nat)
    requires Lines(text, lines, skipped) && (text == "" <==> skipped == |lines|)
    ensures var text' := (if text != "" then text + "\n" else text) + x;
      Lines(text', lines + [x], skipped') && (text' == "" <==> skipped' == |lines| + 1)
  {
    var all := lines + [x];
    if text != "" {
      skipped' := skipped;
      LaidSnoc(text, lines[skipped..], x, "\n");
      assert all[skipped..] == lines[skipped..] + [x];
    } else {
      skipped' := if x == "" then |all| else |lines|;
      assert text + x == x;
      LaidOne(x, "\n");
      LaidNone("\n");
      assert all[|lines|..] == [x] && all[|all|..] == [];
    }
  }

  ghost predicate SystemSays(text: string, items: seq<Item>, idx: seq<nat>, lines: seq<string>, skipped: nat) {
    SystemTaken(items, idx, lines) && Lines(text, lines, skipped) && (text == "" <==> skipped == |lines|)
  }

  lemma SystemTextSnoc(before: seq<Message>, message: Message)
    ensures SystemText(before + [message]) ==
      if message.role != "system" then SystemText(before)
      else (if SystemText(before) != "" then SystemText(before) + "\n" else SystemText(before))
           + ContentText(message.content)
  {
    var all := before + [message];
    assert all[..|all| - 1] == before && all[|all| - 1] == message;
  }

  lemma SystemStep(before: seq<Message>, message: Message, items: seq<Item>, x: Item, idx: seq<nat>,
                   lines: seq<string>, skipped: nat)
    returns (idx': seq<nat>, lines': seq<string>, skipped': nat)
    requires message.role == RoleIn(x) && message.content == ContentIn(x)
    requires SystemSays(SystemText(before), items, idx, lines, skipped)
    ensures SystemSays(SystemText(before + [message]), items + [x], idx', lines', skipped')
  {
    idx', lines', skipped' := idx, lines, skipped;
    SystemTextSnoc(before, message);
    if OfSystem(x) {
      skipped' := SystemMore(SystemText(before), items, x, idx, lines, skipped);
      idx', lines' := idx + [|items|], lines + [ContentText(ContentIn(x))];
    } else {
      SystemSnoc(items, x, idx, lines);
    }
  }

  lemma SystemMore(text: string, items: seq<Item>, x: Item, idx: seq<nat>, lines: seq<string>, skipped: nat)
    returns (skipped': nat)
    requires OfSystem(x) && SystemSays(text, items, idx, lines, skipped)
    ensures var line := ContentText(ContentIn(x));
      SystemSays((if text != "" then text + "\n" else text) + line, items + [x], idx + [|items|], lines + [line],
                 skipped')
  {
    SystemSnoc(items, x, idx, lines);
    skipped' := LinesSnoc(text, lines, skipped, ContentText(ContentIn(x)));
  }

  lemma {:induction false} SystemTextTaken(messages: seq<Message>, items: seq<Item>)
    returns (idx: seq<nat>, lines: seq<string>, skipped: nat)
    requires Decoded(messages, items)
    ensures SystemSays(SystemText(messages), items, idx, lines, skipped)
  {
    if messages == [] {
      idx, lines, skipped := [], [], 0;
      LaidNone("\n");
    } else {
      var n := |messages| - 1;
      idx, lines, skipped := SystemTextTaken(messages[..n], items[..n]);
      idx, lines, skipped := SystemStep(messages[..n], messages[n], items[..n], items[n], idx, lines, skipped);
      InitAndLast(messages);
      InitAndLast(items);
    }
  }

  /** The system prompt is the texts of the system messages in order, a line each. */
  lemma SystemInOrder(m: Object, ints: string -> Option<int>)
    returns (idx: seq<nat>, lines: seq<string>, skipped: nat)
    requires UpstreamFor(m, ints).Some?
    ensures var items := ItemsIn(m, "messages");
      && Selects(idx, items, OfSystem) && |lines| == |idx|
      && (forall k :: 0 <= k < |idx| ==> Says(ContentIn(items[idx[k]]), lines[k]))
      && Lines(UpstreamFor(m, ints).value.system, lines, skipped)
  {
    ParamsDecoded(m, ints);
    idx, lines, skipped := SystemTextTaken(DecodeParams(m, ints).value.messages, ItemsIn(m, "messages"));
  }

  // ---------------------------------------------------------------- the parameters

  predicate IsText(item: Item) {
    item.Str?
  }

  predicate IsStr(item: Item, s: string) {
    item == Str(s)
  }

  ghost predicate StopsTaken(stops: seq<string>, items: seq<Item>, idx: seq<nat>) {
    Selects(idx, items, IsText) && Yields(idx, items, stops, IsStr)
  }

  lemma {:induction false} StringsTaken(items: seq<Item>) returns (idx: seq<nat>)
    ensures StopsTaken(StringsOf(items), items, idx)
  {
    if items == [] {
      idx := [];
    } else {
      var n := |items| - 1;
      idx := StringsTaken(items[..n]);
      StopsSnoc(StringsOf(items[..n]), items[..n], items[n], idx);
      InitAndLast(items);
      assert |items[..n]| == n && StringsOf(items[..n]) + [] == StringsOf(items[..n]);
      if items[n].Str? {
        idx := idx + [n];
      }
    }
  }

  lemma StopsSnoc(stops: seq<string>, items: seq<Item>, x: Item, idx: seq<nat>)
    requires StopsTaken(stops, items, idx)
    ensures x.Str? ==> StopsTaken(stops + [x.s], items + [x], idx + [|items|])
    ensures !x.Str? ==> StopsTaken(stops, items + [x], idx)
  {
    SelectsSnoc(idx, items, x, IsText);
    YieldsSnoc(idx, items, x, stops, IsStr);
    if x.Str? {
      assert IsStr(x, x.s);
    }
  }

  /** The stop sequences are the non-empty string, or the strings of the list in order. */
  lemma StopsInOrder(m: Object, ints: string -> Option<int>) returns (idx: seq<nat>)
    requires UpstreamFor(m, ints).Some?
    ensures var stops := UpstreamFor(m, ints).value.stops;
      if "stop" in m && m["stop"].Str? then stops == if m["stop"].s == "" then [] else [m["stop"].s]
      else StopsTaken(stops, ItemsIn(m, "stop"), idx)
  {
    idx := StringsTaken(ItemsIn(m, "stop"));
  }

  /** Max tokens come from `max_tokens`, else from `max_completion_tokens`, else they are 4096; the rest is copied. */
  lemma ParametersCopied(m: Object, ints: string -> Option<int>)
    requires UpstreamFor(m, ints).Some?
    ensures var u := UpstreamFor(m, ints).value;
      && u.model == StringIn(m, "model")
      && (!Absent(m, "max_tokens") ==> Some(u.maxTokens) == ints("max_tokens"))
      && (Absent(m, "max_tokens") && !Absent(m, "max_completion_tokens") ==>
            Some(u.maxTokens) == ints("max_completion_tokens"))
      && (Absent(m, "max_tokens") && Absent(m, "max_completion_tokens") ==> u.maxTokens == 4096)
      && (if Absent(m, "temperature") then u.temperature == None
          else u.temperature.Some? && m["temperature"] == Num(u.temperature.value))
      && (if Absent(m, "top_p") then u.topP == None else u.topP.Some? && m["top_p"] == Num(u.topP.value))
      && (if Absent(m, "stream") then !u.stream else m["stream"] == Bool(u.stream))
  {
  }

  // ---------------------------------------------------------------- which requests are accepted

  predicate MaybeMessage(item: Item) {
    item.Null? || (item.Obj? && MaybeString(item.members, "role"))
  }

  lemma {:induction false} MessagesAccepted(items: seq<Item>)
    ensures DecodeMessages(items).Some? <==> forall i :: 0 <= i < |items| ==> MaybeMessage(items[i])
  {
    if items != [] {
      MessagesAccepted(items[1..]);
      assert forall i :: 0 <= i < |items[1..]| ==> items[1..][i] == items[i + 1];
    }
  }

  /** A request is refused exactly when one of the fields that are read has another type. */
  lemma RequestAccepted(m: Object, ints: string -> Option<int>)
    ensures UpstreamFor(m, ints).Some? <==>
      && MaybeString(m, "model")
      && (Absent(m, "messages") || (m["messages"].Arr? && forall i :: 0 <= i < |m["messages"].items| ==>
            MaybeMessage(m["messages"].items[i])))
      && (forall f | f in {"max_tokens", "max_completion_tokens"} && !Absent(m, f) :: m[f].Num? && ints(f).Some?)
      && (forall f | f in {"temperature", "top_p"} && !Absent(m, f) :: m[f].Num?)
      && (Absent(m, "stream") || m["stream"].Bool?) && (Absent(m, "tools") || m["tools"].Arr?)
  {
    if "messages" in m && m["messages"].Arr? {
      MessagesAccepted(m["messages"].items);
    }
  }
}
