/** The builder and the parser as the loops they are, each proved to compute what `AnthropicMessages` says. */
module AnthropicLoops {
  import opened Options
  import opened Jsons
  import opened AnthropicMessages
  import opened AnthropicRoundTrip

  method BuildCalls(codec: Codec, calls: seq<Call>) returns (r: Result<seq<Json>, Error>)
    ensures r == CallBlocks(codec, calls)
  {
    hide CallBlock;
    var blocks: seq<Json> := [];
    for i := 0 to |calls|
      invariant CallBlocks(codec, calls[..i]) == Ok(blocks)
    {
      assert calls[..i + 1][..i] == calls[..i];
      var block := CallBlock(codec, calls[i]);
      if block.Err? {
        RefusedCallsStay(codec, calls, i + 1);
        return Err(block.error);
      }
      blocks := blocks + [block.value];
    }
    assert calls[..|calls|] == calls;
    r := Ok(blocks);
  }

  lemma {:induction false} RefusedCallsStay(codec: Codec, calls: seq<Call>, i: nat)
    requires i <= |calls| && CallBlocks(codec, calls[..i]).Err?
    ensures CallBlocks(codec, calls) == CallBlocks(codec, calls[..i])
    decreases |calls|
  {
    if i < |calls| {
      assert calls[..|calls| - 1][..i] == calls[..i];
      RefusedCallsStay(codec, calls[..|calls| - 1], i);
    } else {
      assert calls[..i] == calls;
    }
  }

  /** One pass over the messages: system texts aside, everything else converted in order. */
  method BuildAnthropicRequestBody(codec: Codec, model: string, r: Request, maxTokens: Option<int>)
    returns (body: Result<map<string, Json>, Error>)
    ensures body == Build(codec, model, r, maxTokens)
  {
    hide Convert, Converted, SystemParts, JoinLines, ChoiceJson, ToolsJson, Optional, Bounded;
    var converted: seq<Json> := [];
    var systemParts: seq<string> := [];
    NoMessages(codec, r.messages[..0]);
    for i := 0 to |r.messages|
      invariant Converted(codec, r.messages[..i]) == Ok(converted) && SystemParts(r.messages[..i]) == systemParts
    {
      var message := r.messages[i];
      OneMoreMessage(codec, r.messages, i);
      if message.role == System {
        if Content(message) != "" {
          systemParts := systemParts + [Content(message)];
        }
      } else {
        var json := BuildMessage(codec, message);
        if json.Err? {
          RefusedMessagesStay(codec, r.messages, i + 1);
          return Err(json.error);
        }
        converted := converted + [json.value];
      }
    }
    assert r.messages[..|r.messages|] == r.messages;
    if converted == [] {
      return Err(InvalidRequest);
    }
    var choice := ChoiceJson(r.choice, r.parallel);
    if choice.Err? {
      return Err(choice.error);
    }
    body := Ok(map["model" := Str(model), "max_tokens" := Num(Bounded(maxTokens)), "messages" := Arr(converted),
        "stream" := Bool(true)]
               + Optional("system", if systemParts != [] then Some(Str(JoinLines(systemParts))) else None)
               + Optional("tools", if r.tools != [] then Some(Arr(ToolsJson(r.tools))) else None)
               + Optional("tool_choice", choice.value));
  }

  method BuildMessage(codec: Codec, m: Message) returns (json: Result<Json, Error>)
    requires m.role != System
    ensures json == Convert(codec, m)
  {
    if m.role == ToolResult {
      if m.toolCallId == None || m.toolCallId.value == "" {
        return Err(ProtocolError);
      }
      return Ok(MessageJson("user", Arr([ResultBlock(m.toolCallId.value, Content(m), m.status == Some(Failure))])));
    }
    if m.role == User {
      return Ok(MessageJson("user", Str(Content(m))));
    }
    var blocks := if Content(m) != "" then [TextBlock(Content(m))] else [];
    var calls := BuildCalls(codec, CallsOf(m));
    if calls.Err? {
      return Err(calls.error);
    }
    blocks := blocks + calls.value;
    json := Ok(MessageJson("assistant", if blocks != [] then Arr(blocks) else Str(Content(m))));
  }

  lemma NoMessages(codec: Codec, messages: seq<Message>)
    requires messages == []
    ensures Converted(codec, messages) == Ok([]) && SystemParts(messages) == []
  {
  }

  lemma OneMoreMessage(codec: Codec, messages: seq<Message>, i: nat)
    requires i < |messages| && Converted(codec, messages[..i]).Ok?
    ensures var m, before := messages[i], Converted(codec, messages[..i]).value;
            if m.role == System then
              && Converted(codec, messages[..i + 1]) == Ok(before)
              && SystemParts(messages[..i + 1]) == SystemParts(messages[..i]) +
                  if Content(m) != "" then [Content(m)] else []
            else
              && SystemParts(messages[..i + 1]) == SystemParts(messages[..i])
              && Converted(codec, messages[..i + 1])
                   == if Convert(codec, m).Err? then Err(Convert(codec, m).error)
                       else Ok(before + [Convert(codec, m).value])
  {
    hide Convert;
    assert messages[..i + 1][..i] == messages[..i];
    assert SystemParts(messages[..i]) + [] == SystemParts(messages[..i]);
  }

  lemma {:induction false} RefusedMessagesStay(codec: Codec, messages: seq<Message>, i: nat)
    requires i <= |messages| && Converted(codec, messages[..i]).Err?
    ensures Converted(codec, messages) == Converted(codec, messages[..i])
    decreases |messages|
  {
    hide Convert;
    if i < |messages| {
      assert messages[..|messages| - 1][..i] == messages[..i];
      RefusedMessagesStay(codec, messages[..|messages| - 1], i);
    } else {
      assert messages[..i] == messages;
    }
  }

  // ---- parsing ----

  method ParseContent(codec: Codec, items: seq<Json>) returns (r: Result<Blocks, Error>)
    ensures r == ParseBlocks(codec, items)
  {
    hide OnBlock;
    var blocks := Blocks([], [], []);
    for i := 0 to |items|
      invariant ParseBlocks(codec, items[..i]) == Ok(blocks)
    {
      assert items[..i + 1][..i] == items[..i];
      var next := OnBlock(codec, blocks, items[i]);
      if next.Err? {
        RefusedBlocksStay(codec, items, i + 1);
        return next;
      }
      blocks := next.value;
    }
    assert items[..|items|] == items;
    r := Ok(blocks);
  }

  lemma {:induction false} RefusedBlocksStay(codec: Codec, items: seq<Json>, i: nat)
    requires i <= |items| && ParseBlocks(codec, items[..i]).Err?
    ensures ParseBlocks(codec, items) == ParseBlocks(codec, items[..i])
    decreases |items|
  {
    hide OnBlock;
    if i < |items| {
      assert items[..|items| - 1][..i] == items[..i];
      RefusedBlocksStay(codec, items[..|items| - 1], i);
    } else {
      assert items[..i] == items;
    }
  }

  /** A message's text and calls first, then its results, one message each. */
  method PushMessage(role: Role, blocks: Blocks) returns (messages: seq<Message>)
    ensures messages == FromBlocks(role, blocks)
    ensures var first := if blocks.texts != [] || blocks.calls != [] then 1 else 0;
            && |messages| == first + |blocks.results|
            && var rest := messages[first..];
               forall i :: 0 <= i < |blocks.results| ==>
                 rest[i] == Message(ToolResult, Some(blocks.results[i].text), Some(blocks.results[i].id),
                                    Some(blocks.results[i].status), None)
  {
    messages := [];
    if blocks.texts != [] || blocks.calls != [] {
      messages := [Plain(role, if blocks.texts != [] then Some(Concat(blocks.texts)) else None,
                         if blocks.calls != [] then Some(blocks.calls) else None)];
    }
    var first := messages;
    for i := 0 to |blocks.results|
      invariant messages == first + ResultMessages(blocks.results[..i])
    {
      var result := blocks.results[i];
      assert blocks.results[..i + 1][..i] == blocks.results[..i];
      messages := messages + [Message(ToolResult, Some(result.text), Some(result.id), Some(result.status), None)];
    }
    assert blocks.results[..|blocks.results|] == blocks.results;
    ResultsAreMessages(blocks.results);
    assert messages[|first|..] == ResultMessages(blocks.results);
  }

  method ParseAll(codec: Codec, items: seq<Json>) returns (r: Result<seq<Message>, Error>)
    ensures r == ParseMessages(codec, items)
  {
    hide ParseBlocks, FromBlocks;
    var messages: seq<Message> := [];
    for i := 0 to |items|
      invariant ParseMessages(codec, items[..i]) == Ok(messages)
    {
      assert items[..i + 1] == items[..i] + [items[i]];
      NextMessage(codec, items[..i], items[i]);
      var one := ParseOne(codec, items[i]);
      if one.Err? {
        RefusedParseStays(codec, items, i + 1);
        return one;
      }
      messages := messages + one.value;
    }
    assert items[..|items|] == items;
    r := Ok(messages);
  }

  method ParseOne(codec: Codec, json: Json) returns (r: Result<seq<Message>, Error>)
    ensures r == ParseMessage(codec, json)
  {
    hide ParseBlocks, FromBlocks;
    if !json.Obj? {
      return Err(InvalidRequest);
    }
    var role := Field(json.fields, "role");
    if role != Some(Str("user")) && role != Some(Str("assistant")) {
      return Err(InvalidRequest);
    }
    var author := if role == Some(Str("user")) then User else Assistant;
    var content := Field(json.fields, "content");
    if content.Some? && content.value.Str? {
      return Ok([Plain(author, Some(content.value.s), None)]);
    }
    if content == None || !content.value.Arr? {
      return Err(InvalidRequest);
    }
    var blocks := ParseContent(codec, content.value.items);
    if blocks.Err? {
      return Err(blocks.error);
    }
    var messages := PushMessage(author, blocks.value);
    r := Ok(messages);
  }

  lemma {:induction false} RefusedParseStays(codec: Codec, items: seq<Json>, i: nat)
    requires i <= |items| && ParseMessages(codec, items[..i]).Err?
    ensures ParseMessages(codec, items) == ParseMessages(codec, items[..i])
    decreases |items|
  {
    hide ParseMessage;
    if i < |items| {
      assert items[..|items| - 1][..i] == items[..i];
      RefusedParseStays(codec, items[..|items| - 1], i);
    } else {
      assert items[..i] == items;
    }
  }

  method ParseDeclarations(items: seq<Json>) returns (r: Result<seq<Tool>, Error>)
    ensures r == ParseTools(items)
  {
    hide ParseTool;
    var tools: seq<Tool> := [];
    for i := 0 to |items|
      invariant ParseTools(items[..i]) == Ok(tools)
    {
      assert items[..i + 1][..i] == items[..i];
      var tool := ParseTool(items[i]);
      if tool.Err? {
        RefusedToolsStay(items, i + 1);
        return Err(tool.error);
      }
      tools := tools + [tool.value];
    }
    assert items[..|items|] == items;
    r := Ok(tools);
  }

  lemma {:induction false} RefusedToolsStay(items: seq<Json>, i: nat)
    requires i <= |items| && ParseTools(items[..i]).Err?
    ensures ParseTools(items) == ParseTools(items[..i])
    decreases |items|
  {
    hide ParseTool;
    if i < |items| {
      assert items[..|items| - 1][..i] == items[..i];
      RefusedToolsStay(items[..|items| - 1], i);
    } else {
      assert items[..i] == items;
    }
  }

  method ParseAnthropicRequest(codec: Codec, body: map<string, Json>) returns (r: Result<Request, Error>)
    ensures r == Parse(codec, body)
  {
    hide ParseMessages, ParseTools, ParseChoice, TextOf, Accepted;
    var keys := body.Keys;
    while keys != {}
      invariant keys <= body.Keys && forall key :: key in body && key !in keys ==> key in Accepted()
      decreases keys
    {
      var key :| key in keys;
      if key !in Accepted() {
        return Err(Unsupported);
      }
      keys := keys - {key};
    }
    if "max_tokens" in body && !(body["max_tokens"].Num? && body["max_tokens"].n > 0) {
      return Err(InvalidRequest);
    }
    var first: seq<Message> := [];
    if "system" in body {
      var system := TextOf(body["system"]);
      if system == None {
        return Err(InvalidRequest);
      }
      first := [Plain(System, system, None)];
    }
    if "messages" !in body || !body["messages"].Arr? || body["messages"].items == [] {
      return Err(InvalidRequest);
    }
    var messages := ParseAll(codec, body["messages"].items);
    if messages.Err? {
      return Err(messages.error);
    }
    var tools: Result<seq<Tool>, Error> := Ok([]);
    if "tools" in body {
      if !body["tools"].Arr? {
        return Err(InvalidRequest);
      }
      tools := ParseDeclarations(body["tools"].items);
      if tools.Err? {
        return Err(tools.error);
      }
    }
    if "tool_choice" !in body {
      return Ok(Request(first + messages.value, tools.value, None, None));
    }
    var choice := ParseChoice(body["tool_choice"]);
    if choice.Err? {
      return Err(choice.error);
    }
    r := Ok(Request(first + messages.value, tools.value, Some(choice.value.0), choice.value.1));
  }
}
