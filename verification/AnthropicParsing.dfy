/**
 * What the parser makes of any Messages body, on its JSON.
 */
module AnthropicParsing {
  import opened Options
  import opened Text
  import opened Jsons
  import opened AnthropicMessages

  // What the parser makes of any Messages body, on the JSON of the body itself: which bodies it accepts
  // and with which error it refuses the others, and that nothing of an accepted one is lost. Every text,
  // every tool call and every tool result of a message comes out once, in order, with its own fields.

  // ---- the fields of a block ----

  predicate Typed(block: Json, kind: string) {
    block.Obj? && "type" in block.fields && block.fields["type"] == Str(kind)
  }

  predicate HasText(fields: map<string, Json>, name: string) {
    name in fields && fields[name].Str?
  }

  function TextIn(block: Json, name: string): string {
    if block.Obj? && HasText(block.fields, name) then block.fields[name].s else ""
  }

  /** The blocks of one type, in order. */
  function OfType(items: seq<Json>, kind: string): seq<Json> {
    if items == [] then []
    else (if Typed(items[0], kind) then [items[0]] else []) + OfType(items[1..], kind)
  }

  /** The texts of all blocks, one after the other. */
  function AllText(blocks: seq<Json>): string {
    if blocks == [] then "" else TextIn(blocks[0], "text") + AllText(blocks[1..])
  }

  /** Text as it may be given: a string, or an array of text blocks. */
  predicate Textual(content: Json) {
    content.Str? || (content.Arr? && forall i :: 0 <= i < |content.items| ==> PlainText(content.items[i]))
  }

  predicate PlainText(block: Json) {
    Typed(block, "text") && HasText(block.fields, "text")
  }

  function TextGiven(content: Json): string {
    if content.Str? then content.s else if content.Arr? then AllText(content.items) else ""
  }

  predicate NoContent(fields: map<string, Json>) {
    "content" !in fields || fields["content"] == Null
  }

  /** A block that can be represented. */
  predicate BlockOk(block: Json) {
    && block.Obj?
    && var fields := block.fields;
       || (Typed(block, "text") && HasText(fields, "text"))
       || (Typed(block, "tool_use") && HasText(fields, "id") && HasText(fields, "name")
           && ("input" in fields ==> fields["input"].Obj?))
       || (Typed(block, "tool_result") && HasText(fields, "tool_use_id")
           && ("is_error" in fields ==> fields["is_error"].Bool?)
           && (NoContent(fields) || Textual(fields["content"])))
  }

  /** A block of a type that is not known is unsupported; any other block that is refused is invalid. */
  function BlockError(block: Json): Error {
    if block.Obj? && !Typed(block, "text") && !Typed(block, "tool_use") && !Typed(block, "tool_result")
    then Unsupported else InvalidRequest
  }

  /** The call in a `tool_use` block: its own id, name and input, an absent input being the empty object. */
  function CallIn(codec: Codec, block: Json): Call {
    Call(TextIn(block, "id"), TextIn(block, "name"),
         codec.write(if block.Obj? && "input" in block.fields then block.fields["input"] else Obj(map[])))
  }

  /** The message for a `tool_result` block: its own id and text, and failure only when it says so. */
  function ResultIn(block: Json): Message
    requires block.Obj?
  {
    var fields := block.fields;
    Message(ToolResult, Some(if NoContent(fields) then "" else TextGiven(fields["content"])),
            Some(TextIn(block, "tool_use_id")),
            Some(if "is_error" in fields && fields["is_error"] == Bool(true) then Failure else Success), None)
  }

  // ---- sorting the blocks of one message ----

  lemma {:induction false} OfTypeMore(items: seq<Json>, block: Json, kind: string)
    ensures OfType(items + [block], kind)
         == if Typed(block, kind) then OfType(items, kind) + [block] else OfType(items, kind)
  {
    if items != [] {
      OfTypeMore(items[1..], block, kind);
      assert (items + [block])[1..] == items[1..] + [block];
      assert (items + [block])[0] == items[0];
    }
  }

  lemma {:induction false} OfTypeIsTyped(items: seq<Json>, kind: string)
    ensures forall i :: 0 <= i < |OfType(items, kind)| ==> Typed(OfType(items, kind)[i], kind)
  {
    if items != [] {
      OfTypeIsTyped(items[1..], kind);
    }
  }

  lemma {:induction false} AllTextMore(blocks: seq<Json>, block: Json)
    ensures AllText(blocks + [block]) == AllText(blocks) + TextIn(block, "text")
  {
    if blocks == [] {
      assert [block][1..] == [];
    } else {
      AllTextMore(blocks[1..], block);
      assert (blocks + [block])[1..] == blocks[1..] + [block];
      Associative(TextIn(blocks[0], "text"), AllText(blocks[1..]), TextIn(block, "text"));
    }
  }

  lemma TextsMore(front: seq<Json>, block: Json)
    ensures BlockTexts(front + [block])
         == if BlockTexts(front).Some? && PlainText(block)
            then Some(BlockTexts(front).value + [TextIn(block, "text")]) else None
  {
    assert (front + [block])[..|front|] == front;
  }

  lemma {:induction false} TextsJoin(items: seq<Json>)
    ensures BlockTexts(items).Some? <==> forall i :: 0 <= i < |items| ==> PlainText(items[i])
    ensures BlockTexts(items).Some? ==> Concat(BlockTexts(items).value) == AllText(items)
    decreases |items|
  {
    if items == [] {
    } else {
      hide BlockTexts, PlainText, TextIn, Concat, AllText;
      var front, block := items[..|items| - 1], items[|items| - 1];
      TextsJoin(front);
      assert items == front + [block];
      assert forall i :: 0 <= i < |front| ==> front[i] == items[i];
      TextsMore(front, block);
      AllTextMore(front, block);
      if BlockTexts(items).Some? {
        ConcatMore(BlockTexts(front).value, TextIn(block, "text"));
      }
    }
  }

  lemma ConcatMore(parts: seq<string>, part: string)
    ensures Concat(parts + [part]) == Concat(parts) + part
  {
    assert (parts + [part])[..|parts|] == parts;
  }

  lemma TextIsGiven(content: Json)
    ensures TextOf(content).Some? <==> Textual(content)
    ensures TextOf(content).Some? ==> TextOf(content).value == TextGiven(content)
  {
    if content.Arr? {
      TextsJoin(content.items);
      hide BlockTexts, Concat, AllText;
    }
  }

  ghost predicate CallsAre(codec: Codec, calls: seq<Call>, blocks: seq<Json>) {
    |calls| == |blocks| && forall i :: 0 <= i < |blocks| ==> calls[i] == CallIn(codec, blocks[i])
  }

  ghost predicate ResultIs(result: Outcome, block: Json) {
    && block.Obj?
    && Message(ToolResult, Some(result.text), Some(result.id), Some(result.status), None) == ResultIn(block)
  }

  ghost predicate ResultsAre(results: seq<Outcome>, blocks: seq<Json>) {
    |results| == |blocks| && forall i :: 0 <= i < |blocks| ==> ResultIs(results[i], blocks[i])
  }

  /** The blocks came out sorted by type, each in order. */
  ghost predicate Sorted(codec: Codec, items: seq<Json>, b: Blocks) {
    && |b.texts| == |OfType(items, "text")| && Concat(b.texts) == AllText(OfType(items, "text"))
    && CallsAre(codec, b.calls, OfType(items, "tool_use"))
    && ResultsAre(b.results, OfType(items, "tool_result"))
  }

  lemma OneMoreCall(codec: Codec, calls: seq<Call>, blocks: seq<Json>, block: Json)
    requires CallsAre(codec, calls, blocks)
    ensures CallsAre(codec, calls + [CallIn(codec, block)], blocks + [block])
  {
    hide CallIn;
  }

  lemma OneMoreResult(results: seq<Outcome>, blocks: seq<Json>, result: Outcome, block: Json)
    requires ResultsAre(results, blocks) && ResultIs(result, block)
    ensures ResultsAre(results + [result], blocks + [block])
  {
    hide ResultIs;
  }

  lemma OneBlock(codec: Codec, b: Blocks, block: Json)
    ensures OnBlock(codec, b, block).Ok? <==> BlockOk(block)
    ensures OnBlock(codec, b, block).Err? ==> OnBlock(codec, b, block).error == BlockError(block)
  {
    if block.Obj? && "content" in block.fields {
      TextIsGiven(block.fields["content"]);
    }
    hide TextOf, Textual;
  }

  lemma OneText(codec: Codec, b: Blocks, block: Json)
    requires BlockOk(block) && Typed(block, "text")
    ensures OnBlock(codec, b, block) == Ok(b.(texts := b.texts + [TextIn(block, "text")]))
  {
  }

  lemma OneCall(codec: Codec, b: Blocks, block: Json)
    requires BlockOk(block) && Typed(block, "tool_use")
    ensures OnBlock(codec, b, block) == Ok(b.(calls := b.calls + [CallIn(codec, block)]))
  {
  }

  lemma OneResult(codec: Codec, b: Blocks, block: Json) returns (result: Outcome)
    requires BlockOk(block) && Typed(block, "tool_result")
    ensures OnBlock(codec, b, block) == Ok(b.(results := b.results + [result])) && ResultIs(result, block)
  {
    if "content" in block.fields {
      TextIsGiven(block.fields["content"]);
    }
    hide TextOf, Textual, TextGiven;
    var results := OnBlock(codec, b, block).value.results;
    result := results[|b.results|];
  }

  lemma TextSorted(codec: Codec, front: seq<Json>, block: Json, b: Blocks)
    requires Sorted(codec, front, b) && BlockOk(block) && Typed(block, "text")
    ensures OnBlock(codec, b, block).Ok? && Sorted(codec, front + [block], OnBlock(codec, b, block).value)
  {
    hide OnBlock, OfType, AllText, Concat, CallsAre, ResultsAre, BlockOk, TextIn;
    OneText(codec, b, block);
    OfTypeMore(front, block, "text");
    OfTypeMore(front, block, "tool_use");
    OfTypeMore(front, block, "tool_result");
    AllTextMore(OfType(front, "text"), block);
    ConcatMore(b.texts, TextIn(block, "text"));
  }

  lemma CallSorted(codec: Codec, front: seq<Json>, block: Json, b: Blocks)
    requires Sorted(codec, front, b) && BlockOk(block) && Typed(block, "tool_use")
    ensures OnBlock(codec, b, block).Ok? && Sorted(codec, front + [block], OnBlock(codec, b, block).value)
  {
    hide OnBlock, OfType, AllText, Concat, CallIn, CallsAre, ResultsAre, BlockOk;
    OneCall(codec, b, block);
    OfTypeMore(front, block, "text");
    OfTypeMore(front, block, "tool_use");
    OfTypeMore(front, block, "tool_result");
    OneMoreCall(codec, b.calls, OfType(front, "tool_use"), block);
  }

  lemma ResultSorted(codec: Codec, front: seq<Json>, block: Json, b: Blocks)
    requires Sorted(codec, front, b) && BlockOk(block) && Typed(block, "tool_result")
    ensures OnBlock(codec, b, block).Ok? && Sorted(codec, front + [block], OnBlock(codec, b, block).value)
  {
    hide OnBlock, OfType, AllText, Concat, ResultIs, CallsAre, ResultsAre, BlockOk;
    var result := OneResult(codec, b, block);
    OfTypeMore(front, block, "text");
    OfTypeMore(front, block, "tool_use");
    OfTypeMore(front, block, "tool_result");
    OneMoreResult(b.results, OfType(front, "tool_result"), result, block);
  }

  lemma SortedMore(codec: Codec, front: seq<Json>, block: Json, b: Blocks)
    requires Sorted(codec, front, b) && BlockOk(block)
    ensures OnBlock(codec, b, block).Ok? && Sorted(codec, front + [block], OnBlock(codec, b, block).value)
  {
    hide Sorted, OnBlock;
    if Typed(block, "text") {
      TextSorted(codec, front, block, b);
    } else if Typed(block, "tool_use") {
      CallSorted(codec, front, block, b);
    } else {
      ResultSorted(codec, front, block, b);
    }
  }

  /** An array of blocks is accepted exactly when each of its blocks is, and is sorted without loss. */
  lemma {:induction false} BlocksAreSorted(codec: Codec, items: seq<Json>)
    ensures ParseBlocks(codec, items).Ok? <==> forall i :: 0 <= i < |items| ==> BlockOk(items[i])
    ensures ParseBlocks(codec, items).Ok? ==> Sorted(codec, items, ParseBlocks(codec, items).value)
    decreases |items|
  {
    hide Sorted, OnBlock, BlockOk;
    if items == [] {
      NothingSorted(codec);
    } else {
      var front, block := items[..|items| - 1], items[|items| - 1];
      BlocksAreSorted(codec, front);
      assert items == front + [block];
      assert forall i :: 0 <= i < |front| ==> front[i] == items[i];
      if ParseBlocks(codec, front).Ok? {
        OneBlock(codec, ParseBlocks(codec, front).value, block);
        if BlockOk(block) {
          SortedMore(codec, front, block, ParseBlocks(codec, front).value);
        }
      }
    }
  }

  lemma NothingSorted(codec: Codec)
    ensures Sorted(codec, [], Blocks([], [], []))
  {
  }

  /** The first block that cannot be represented decides how the array is refused. */
  lemma {:induction false} FirstBadBlockDecides(codec: Codec, items: seq<Json>, i: nat)
    requires i < |items| && !BlockOk(items[i]) && forall j :: 0 <= j < i ==> BlockOk(items[j])
    ensures ParseBlocks(codec, items) == Err(BlockError(items[i]))
    decreases |items|
  {
    hide OnBlock, BlockOk, BlockError;
    var front := items[..|items| - 1];
    BlocksAreSorted(codec, front);
    assert forall j :: 0 <= j < |front| ==> front[j] == items[j];
    if i < |front| {
      FirstBadBlockDecides(codec, front, i);
    } else {
      OneBlock(codec, ParseBlocks(codec, front).value, items[i]);
    }
  }

  // ---- one message ----

  predicate Named(json: Json, role: string) {
    json.Obj? && "role" in json.fields && json.fields["role"] == Str(role)
  }

  predicate MessageOk(json: Json) {
    && (Named(json, "user") || Named(json, "assistant"))
    && "content" in json.fields
    && var content := json.fields["content"];
       content.Str? || (content.Arr? && forall i :: 0 <= i < |content.items| ==> BlockOk(content.items[i]))
  }

  ghost predicate CallsCarried(codec: Codec, calls: seq<Json>, carried: Option<seq<Call>>) {
    if calls == [] then carried == None
    else carried.Some? && |carried.value| == |calls|
         && forall i :: 0 <= i < |calls| ==> carried.value[i] == CallIn(codec, calls[i])
  }

  /** One message for each result block, in order, and nothing else. */
  ghost predicate ResultsFollow(results: seq<Json>, messages: seq<Message>) {
    |messages| == |results| && forall i :: 0 <= i < |results| ==> results[i].Obj? && messages[i] == ResultIn(results[i])
  }

  /**
   * What an array of blocks becomes: one message with all the texts and all the calls, if there is any, and then one
   * message for each result.
   */
  ghost predicate Carries(codec: Codec, role: Role, items: seq<Json>, messages: seq<Message>) {
    var texts, calls, results := OfType(items, "text"), OfType(items, "tool_use"), OfType(items, "tool_result");
    var first := if texts != [] || calls != [] then 1 else 0;
    && |messages| >= first && ResultsFollow(results, messages[first..])
    && (first == 1 ==>
          && messages[0] == Message(role, messages[0].content, None, None, messages[0].calls)
          && messages[0].content == (if texts == [] then None else Some(AllText(texts)))
          && CallsCarried(codec, calls, messages[0].calls))
  }

  /** What one message of the body becomes. */
  ghost predicate Becomes(codec: Codec, json: Json, messages: seq<Message>) {
    && MessageOk(json)
    && var role, content := if Named(json, "user") then User else Assistant, json.fields["content"];
       if content.Str? then messages == [Message(role, Some(content.s), None, None, None)]
       else Carries(codec, role, content.items, messages)
  }

  lemma ResultsCome(results: seq<Outcome>, blocks: seq<Json>)
    requires ResultsAre(results, blocks)
    ensures ResultsFollow(blocks, ResultMessages(results))
  {
    ResultsAreMessages(results);
    hide ResultMessages, ResultIn;
  }

  lemma SortedCarries(codec: Codec, role: Role, items: seq<Json>, b: Blocks)
    requires Sorted(codec, items, b)
    ensures Carries(codec, role, items, FromBlocks(role, b))
  {
    var texts, calls, results := OfType(items, "text"), OfType(items, "tool_use"), OfType(items, "tool_result");
    ResultsCome(b.results, results);
    CallsCome(codec, b.calls, calls);
    hide OfType, AllText, Concat, CallsAre, ResultsAre, ResultMessages, ResultsFollow, CallsCarried;
    var messages, last := FromBlocks(role, b), ResultMessages(b.results);
    assert messages[if texts != [] || calls != [] then 1 else 0..] == last;
  }

  lemma CallsCome(codec: Codec, calls: seq<Call>, blocks: seq<Json>)
    requires CallsAre(codec, calls, blocks)
    ensures |calls| == |blocks| && CallsCarried(codec, blocks, if calls != [] then Some(calls) else None)
  {
  }

  /** A message is accepted exactly when it can be represented, and nothing of an accepted one is lost. */
  lemma NothingOfAMessageIsLost(codec: Codec, json: Json)
    ensures ParseMessage(codec, json).Ok? <==> MessageOk(json)
    ensures ParseMessage(codec, json).Ok? ==> Becomes(codec, json, ParseMessage(codec, json).value)
  {
    if json.Obj? && "content" in json.fields && json.fields["content"].Arr? {
      var items := json.fields["content"].items;
      BlocksAreSorted(codec, items);
      if ParseBlocks(codec, items).Ok? {
        SortedCarries(codec, User, items, ParseBlocks(codec, items).value);
        SortedCarries(codec, Assistant, items, ParseBlocks(codec, items).value);
      }
    }
    hide ParseBlocks, FromBlocks, BlockOk, Carries, Sorted;
  }

  // ---- the whole body ----

  function Flattened(parts: seq<seq<Message>>): seq<Message> {
    if parts == [] then [] else parts[0] + Flattened(parts[1..])
  }

  lemma {:induction false} FlattenedMore(parts: seq<seq<Message>>, part: seq<Message>)
    ensures Flattened(parts + [part]) == Flattened(parts) + part
  {
    if parts == [] {
      assert [part][1..] == [];
    } else {
      FlattenedMore(parts[1..], part);
      assert (parts + [part])[1..] == parts[1..] + [part];
      Associative(parts[0], Flattened(parts[1..]), part);
    }
  }

  predicate AllOk(items: seq<Json>) {
    forall i :: 0 <= i < |items| ==> MessageOk(items[i])
  }

  ghost predicate AllBecome(codec: Codec, items: seq<Json>, parts: seq<seq<Message>>) {
    |parts| == |items| && forall i :: 0 <= i < |items| ==> Becomes(codec, items[i], parts[i])
  }

  lemma AllMore(codec: Codec, front: seq<Json>, json: Json, parts: seq<seq<Message>>, part: seq<Message>)
    ensures AllOk(front + [json]) <==> AllOk(front) && MessageOk(json)
    ensures AllBecome(codec, front, parts) && Becomes(codec, json, part) ==>
              AllBecome(codec, front + [json], parts + [part])
  {
    hide MessageOk, Becomes;
    var items := front + [json];
    assert forall i :: 0 <= i < |front| ==> items[i] == front[i];
    assert items[|front|] == json;
  }

  lemma ParsedMore(codec: Codec, front: seq<Json>, json: Json)
    ensures ParseMessages(codec, front + [json])
         == if ParseMessages(codec, front).Err? then ParseMessages(codec, front)
            else if ParseMessage(codec, json).Err? then ParseMessage(codec, json)
            else Ok(ParseMessages(codec, front).value + ParseMessage(codec, json).value)
  {
    hide ParseMessage;
    assert (front + [json])[..|front|] == front;
  }

  lemma {:induction false} MessagesBecome(codec: Codec, items: seq<Json>) returns (parts: seq<seq<Message>>)
    ensures ParseMessages(codec, items).Ok? <==> AllOk(items)
    ensures ParseMessages(codec, items).Ok? ==>
              AllBecome(codec, items, parts) && ParseMessages(codec, items).value == Flattened(parts)
    decreases |items|
  {
    if items == [] {
      parts := [];
    } else {
      hide ParseMessages, ParseMessage, MessageOk, Becomes, Flattened, AllOk, AllBecome;
      var front, json := items[..|items| - 1], items[|items| - 1];
      parts := MessagesBecome(codec, front);
      assert items == front + [json];
      NothingOfAMessageIsLost(codec, json);
      ParsedMore(codec, front, json);
      AllMore(codec, front, json, parts, []);
      if ParseMessages(codec, items).Ok? {
        var part := ParseMessage(codec, json).value;
        FlattenedMore(parts, part);
        AllMore(codec, front, json, parts, part);
        parts := parts + [part];
      }
    }
  }

  /** The first message that cannot be represented decides how the body's messages are refused. */
  lemma {:induction false} FirstBadMessageDecides(codec: Codec, items: seq<Json>, i: nat)
    requires i < |items| && !MessageOk(items[i]) && forall j :: 0 <= j < i ==> MessageOk(items[j])
    ensures ParseMessages(codec, items) == ParseMessage(codec, items[i])
    decreases |items|
  {
    hide ParseMessages, ParseMessage, MessageOk, Becomes, Flattened;
    var front, json := items[..|items| - 1], items[|items| - 1];
    assert items == front + [json];
    assert forall j :: 0 <= j < |front| ==> front[j] == items[j];
    ParsedMore(codec, front, json);
    if i < |front| {
      FirstBadMessageDecides(codec, front, i);
      NothingOfAMessageIsLost(codec, front[i]);
    } else {
      var _ := MessagesBecome(codec, front);
      NothingOfAMessageIsLost(codec, json);
    }
  }

  predicate ToolOk(json: Json) {
    && json.Obj? && HasText(json.fields, "name")
    && ("type" in json.fields ==> json.fields["type"] == Str("function"))
    && ("input_schema" in json.fields ==> json.fields["input_schema"].Obj?)
  }

  /** The tool a declaration declares: its own name, description and schema, an absent schema being empty. */
  function ToolIn(json: Json): Tool {
    var fields := if json.Obj? then json.fields else map[];
    Tool(TextIn(json, "name"), if HasText(fields, "description") then Some(fields["description"].s) else None,
         if "input_schema" in fields && fields["input_schema"].Obj? then fields["input_schema"].fields else map[])
  }

  lemma OneTool(json: Json)
    ensures ParseTool(json).Ok? <==> ToolOk(json)
    ensures ParseTool(json).Ok? ==> ParseTool(json).value == ToolIn(json)
  {
  }

  lemma {:induction false} ToolsAreDeclared(items: seq<Json>)
    ensures ParseTools(items).Ok? <==> forall i :: 0 <= i < |items| ==> ToolOk(items[i])
    ensures ParseTools(items).Ok? ==>
              && |ParseTools(items).value| == |items|
              && forall i :: 0 <= i < |items| ==> ParseTools(items).value[i] == ToolIn(items[i])
    decreases |items|
  {
    hide ParseTool, ToolOk, ToolIn;
    if items != [] {
      var front, json := items[..|items| - 1], items[|items| - 1];
      ToolsAreDeclared(front);
      OneTool(json);
      assert forall i :: 0 <= i < |front| ==> front[i] == items[i];
    }
  }

  predicate ChoiceOk(json: Json) {
    && json.Obj? && HasText(json.fields, "type")
    && TextIn(json, "type") in {"auto", "none", "any", "tool"}
    && (TextIn(json, "type") == "tool" ==> TextIn(json, "name") != "")
    && ("disable_parallel_tool_use" in json.fields ==> json.fields["disable_parallel_tool_use"].Bool?)
  }

  function ChoiceIn(json: Json): Choice {
    var kind := TextIn(json, "type");
    if kind == "none" then Never else if kind == "any" then Required
    else if kind == "tool" then Choice.Named(TextIn(json, "name")) else Auto
  }

  /** Whether calls may be parallel: only where the body says so, and the body says it in the negative. */
  function ParallelIn(json: Json): Option<bool> {
    if json.Obj? && "disable_parallel_tool_use" in json.fields && json.fields["disable_parallel_tool_use"].Bool?
    then Some(!json.fields["disable_parallel_tool_use"].b) else None
  }

  lemma OneChoice(json: Json)
    ensures ParseChoice(json).Ok? <==> ChoiceOk(json)
    ensures ParseChoice(json).Ok? ==> ParseChoice(json).value == (ChoiceIn(json), ParallelIn(json))
  {
  }

  predicate KeysOk(body: map<string, Json>) {
    forall key :: key in body ==>
      key in {"model", "messages", "system", "tools", "tool_choice", "stream", "max_tokens"}
  }

  predicate MessagesOk(body: map<string, Json>) {
    "messages" in body && body["messages"].Arr? && body["messages"].items != [] && AllOk(body["messages"].items)
  }

  predicate ToolsOk(body: map<string, Json>) {
    "tools" in body ==>
      body["tools"].Arr? && forall i :: 0 <= i < |body["tools"].items| ==> ToolOk(body["tools"].items[i])
  }

  /** A body that can be represented, on its own fields. */
  predicate BodyOk(body: map<string, Json>) {
    && KeysOk(body) && MessagesOk(body) && ToolsOk(body)
    && ("max_tokens" in body ==> body["max_tokens"].Num? && body["max_tokens"].n > 0)
    && ("system" in body ==> Textual(body["system"]))
    && ("tool_choice" in body ==> ChoiceOk(body["tool_choice"]))
  }

  lemma KeysExactly(body: map<string, Json>)
    ensures (exists key :: key in body && key !in Accepted()) <==> !KeysOk(body)
  {
  }

  lemma MessagesExactly(codec: Codec, body: map<string, Json>)
    ensures MessagesOk(body) <==> "messages" in body && body["messages"].Arr? && body["messages"].items != []
                                  && ParseMessages(codec, body["messages"].items).Ok?
  {
    hide ParseMessages, AllOk, Becomes, Flattened;
    if "messages" in body && body["messages"].Arr? {
      var _ := MessagesBecome(codec, body["messages"].items);
    }
  }

  lemma ToolsExactly(body: map<string, Json>)
    ensures ("tools" in body ==> body["tools"].Arr? && ParseTools(body["tools"].items).Ok?) <==> ToolsOk(body)
  {
    hide ParseTools, ToolOk, ToolIn;
    if "tools" in body && body["tools"].Arr? {
      ToolsAreDeclared(body["tools"].items);
    }
  }

  /** The parser accepts exactly the bodies it can represent. */
  lemma BodyIsAcceptedExactly(codec: Codec, body: map<string, Json>)
    ensures Parse(codec, body).Ok? <==> BodyOk(body)
  {
    KeysExactly(body);
    MessagesExactly(codec, body);
    ToolsExactly(body);
    if "system" in body {
      TextIsGiven(body["system"]);
    }
    if "tool_choice" in body {
      OneChoice(body["tool_choice"]);
    }
    hide ParseMessages, ParseTools, ParseChoice, TextOf, Textual, KeysOk, MessagesOk, ToolsOk, ChoiceOk, Accepted;
  }

  /** A key of the body that is not known is refused before anything else is looked at. */
  lemma UnknownKeyDecides(codec: Codec, body: map<string, Json>)
    requires !KeysOk(body)
    ensures Parse(codec, body) == Err(Unsupported)
  {
    hide ParseMessages, ParseTools, ParseChoice, TextOf;
  }

  /**
   * Nothing of an accepted body is lost and nothing is made up: the system text first, then what each message becomes,
   * in order; each tool as it was declared; and the choice and the parallel flag exactly where the body has them.
   */
  lemma NothingIsLost(codec: Codec, body: map<string, Json>) returns (parts: seq<seq<Message>>)
    requires Parse(codec, body).Ok?
    ensures BodyOk(body)
    ensures var items := body["messages"].items;
            AllBecome(codec, items, parts)
    ensures Parse(codec, body).value.messages
         == (if "system" in body then [Message(System, Some(TextGiven(body["system"])), None, None, None)] else [])
            + Flattened(parts)
    ensures var tools := if "tools" in body then body["tools"].items else [];
            && |Parse(codec, body).value.tools| == |tools|
            && forall i :: 0 <= i < |tools| ==> Parse(codec, body).value.tools[i] == ToolIn(tools[i])
    ensures var r := Parse(codec, body).value;
            if "tool_choice" in body
            then r.choice == Some(ChoiceIn(body["tool_choice"])) && r.parallel == ParallelIn(body["tool_choice"])
            else r.choice == None && r.parallel == None
  {
    BodyIsAcceptedExactly(codec, body);
    parts := MessagesBecome(codec, body["messages"].items);
    if "tools" in body {
      ToolsAreDeclared(body["tools"].items);
    }
    if "system" in body {
      TextIsGiven(body["system"]);
    }
    if "tool_choice" in body {
      OneChoice(body["tool_choice"]);
    }
    hide ParseMessages, ParseTools, ParseChoice, TextOf, TextGiven, Textual, AllOk, AllBecome, ToolOk, ChoiceOk, ToolIn,
        ChoiceIn, ParallelIn, Flattened, KeysOk;
  }

  // ---- what the normal form keeps ----

  /** The texts of the system messages that say something, in order. */
  function SystemTexts(messages: seq<Message>): seq<string> {
    if messages == [] then []
    else (if messages[0].role == System && Spoken(messages[0]) != "" then [Spoken(messages[0])] else [])
         + SystemTexts(messages[1..])
  }

  function Spoken(m: Message): string {
    match m.content case Some(text) => text case None => ""
  }

  function CallsMade(m: Message): seq<Call> {
    match m.calls case Some(calls) => calls case None => []
  }

  /** The messages that are not system messages, in order. */
  function Others(messages: seq<Message>): seq<Message> {
    if messages == [] then []
    else (if messages[0].role == System then [] else [messages[0]]) + Others(messages[1..])
  }

  lemma {:induction false} SystemTextsMore(front: seq<Message>, m: Message)
    ensures SystemTexts(front + [m])
         == SystemTexts(front) + (if m.role == System && Spoken(m) != "" then [Spoken(m)] else [])
  {
    if front == [] {
      assert [m][1..] == [];
    } else {
      SystemTextsMore(front[1..], m);
      assert (front + [m])[1..] == front[1..] + [m];
      Associative(if front[0].role == System && Spoken(front[0]) != "" then [Spoken(front[0])] else [],
                  SystemTexts(front[1..]), if m.role == System && Spoken(m) != "" then [Spoken(m)] else []);
    }
  }

  lemma {:induction false} SystemPartsAreTexts(messages: seq<Message>)
    ensures SystemParts(messages) == SystemTexts(messages)
    decreases |messages|
  {
    if messages != [] {
      var front, m := messages[..|messages| - 1], messages[|messages| - 1];
      SystemPartsAreTexts(front);
      SystemTextsMore(front, m);
      assert messages == front + [m];
    }
  }

  lemma {:induction false} JoinMore(parts: seq<string>, part: string)
    requires parts != []
    ensures Join(parts + [part], '\n') == Join(parts, '\n') + ['\n'] + part
  {
    assert (parts + [part])[1..] == parts[1..] + [part];
    if |parts| > 1 {
      JoinMore(parts[1..], part);
      Associative(parts[0] + ['\n'], Join(parts[1..], '\n'), ['\n'] + part);
      Associative(Join(parts[1..], '\n'), ['\n'], part);
      Associative(Join(parts, '\n'), ['\n'], part);
    }
  }

  lemma {:induction false} LinesAreJoined(parts: seq<string>)
    requires parts != []
    ensures JoinLines(parts) == Join(parts, '\n')
    decreases |parts|
  {
    if |parts| > 1 {
      LinesAreJoined(parts[..|parts| - 1]);
      JoinMore(parts[..|parts| - 1], parts[|parts| - 1]);
      assert parts == parts[..|parts| - 1] + [parts[|parts| - 1]];
    }
  }

  /** The same call, its arguments perhaps written differently. */
  ghost predicate SameCall(codec: Codec, c: Call, d: Call) {
    c.id == d.id && c.name == d.name && codec.parse(c.args) == codec.parse(d.args)
  }

  /** `n` says what `m` says: the same text, the same calls, or the same result of the same call. */
  ghost predicate Keeps(codec: Codec, m: Message, n: Message) {
    && n.role == m.role && Spoken(n) == Spoken(m)
    && (m.role == ToolResult ==>
          n.toolCallId == m.toolCallId && (n.status == Some(Failure) <==> m.status == Some(Failure)))
    && (m.role == Assistant ==>
          && |CallsMade(n)| == |CallsMade(m)|
          && forall i :: 0 <= i < |CallsMade(m)| ==> SameCall(codec, CallsMade(m)[i], CallsMade(n)[i]))
  }

  lemma NormalKeeps(codec: Codec, m: Message)
    requires Lawful(codec)
    ensures Keeps(codec, m, NormalMessage(codec, m))
  {
    var calls := NormalCalls(codec, CallsOf(m));
    forall i | 0 <= i < |calls| ensures SameCall(codec, CallsOf(m)[i], calls[i]) {
      var input := codec.parse(CallsOf(m)[i].args);
      assert input.Some? ==> codec.parse(codec.write(input.value)) == Some(input.value);
    }
    hide NormalCalls, SameCall;
  }

  lemma {:induction false} OthersMore(front: seq<Message>, m: Message)
    ensures Others(front + [m]) == if m.role == System then Others(front) else Others(front) + [m]
  {
    if front == [] {
      assert [m][1..] == [];
    } else {
      OthersMore(front[1..], m);
      assert (front + [m])[1..] == front[1..] + [m];
    }
  }

  ghost predicate AllKept(codec: Codec, messages: seq<Message>, kept: seq<Message>) {
    |kept| == |messages| && forall i :: 0 <= i < |messages| ==> Keeps(codec, messages[i], kept[i])
  }

  lemma OneMoreKept(codec: Codec, messages: seq<Message>, kept: seq<Message>, m: Message, n: Message)
    requires AllKept(codec, messages, kept) && Keeps(codec, m, n)
    ensures AllKept(codec, messages + [m], kept + [n])
  {
    hide Keeps;
  }

  lemma {:induction false} OthersAreKept(codec: Codec, messages: seq<Message>)
    requires Lawful(codec)
    ensures AllKept(codec, Others(messages), NormalMessages(codec, messages))
    decreases |messages|
  {
    hide Lawful, Keeps, NormalMessage;
    if messages != [] {
      var front, m := messages[..|messages| - 1], messages[|messages| - 1];
      OthersAreKept(codec, front);
      OthersMore(front, m);
      assert messages == front + [m];
      if m.role != System {
        NormalKeeps(codec, m);
        OneMoreKept(codec, Others(front), NormalMessages(codec, front), m, NormalMessage(codec, m));
      }
    }
  }

  /**
   * The normal form says what the request says: the system texts as lines of one message, then every other message with
   * its text, its calls, or its result, in order; and the same tools, choice and flag, up to what is the default.
   */
  lemma NormalSaysTheSame(codec: Codec, r: Request) returns (kept: seq<Message>)
    requires Lawful(codec)
    ensures AllKept(codec, Others(r.messages), kept)
    ensures var texts := SystemTexts(r.messages);
            Normal(codec, r).messages
              == (if texts != [] then [Message(System, Some(Join(texts, '\n')), None, None, None)] else []) + kept
    ensures var n := Normal(codec, r);
            && n.tools == r.tools
            && (r.choice.Some? ==> n.choice == r.choice)
            && (r.choice.None? ==> n.choice == if r.parallel.Some? then Some(Auto) else None)
            && (n.parallel == Some(false) <==> r.parallel == Some(false)) && n.parallel != Some(true)
  {
    SystemPartsAreTexts(r.messages);
    OthersAreKept(codec, r.messages);
    if SystemTexts(r.messages) != [] {
      LinesAreJoined(SystemTexts(r.messages));
    }
    kept := NormalMessages(codec, r.messages);
    hide AllKept, NormalMessages, SystemParts, SystemTexts, JoinLines, Join, Lawful;
  }
}
