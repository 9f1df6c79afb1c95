/** Building a body and parsing it back gives the normal form; building that again gives the same body. */
module AnthropicRoundTrip {
  import opened Options
  import opened Jsons
  import opened AnthropicMessages

  // ---- when building succeeds ----

  lemma {:induction false} CallBlocksReady(codec: Codec, calls: seq<Call>)
    ensures CallBlocks(codec, calls).Ok? <==> CallsReady(codec, calls)
    decreases |calls|
  {
    if calls != [] {
      var front, c := calls[..|calls| - 1], calls[|calls| - 1];
      CallBlocksReady(codec, front);
      assert calls == front + [c];
      assert CallsReady(codec, calls) <==> CallsReady(codec, front) && CallReady(codec, c) by {
        assert c in calls;
        assert forall x :: x in calls <==> x in front || x == c;
      }
    }
  }

  lemma ConvertReady(codec: Codec, m: Message)
    ensures Convert(codec, m).Ok? <==> MessageReady(codec, m)
  {
    CallBlocksReady(codec, CallsOf(m));
  }

  ghost predicate AllReady(codec: Codec, messages: seq<Message>) {
    forall m :: m in messages ==> MessageReady(codec, m)
  }

  ghost predicate SomebodySpeaks(messages: seq<Message>) {
    exists m :: m in messages && m.role != System
  }

  lemma {:induction false} ConvertedReady(codec: Codec, messages: seq<Message>)
    ensures Converted(codec, messages).Ok? <==> AllReady(codec, messages)
    ensures Converted(codec, messages).Ok? ==> (Converted(codec, messages).value != [] <==> SomebodySpeaks(messages))
    decreases |messages|
  {
    hide Convert, MessageReady;
    if messages != [] {
      var front, m := messages[..|messages| - 1], messages[|messages| - 1];
      ConvertedReady(codec, front);
      assert messages == front + [m];
      assert forall x :: x in messages <==> x in front || x == m;
      ConvertReady(codec, m);
      SystemIsReady(codec, m);
    }
  }

  lemma SystemIsReady(codec: Codec, m: Message)
    ensures m.role == System ==> MessageReady(codec, m)
  {
  }

  /**
   * A body can be built exactly when every result names its call, every call is complete, somebody speaks, and a named
   * choice has a name.
   */
  lemma BuildsExactlyWhenBuildable(codec: Codec, model: string, r: Request, maxTokens: Option<int>)
    ensures Build(codec, model, r, maxTokens).Ok? <==> Buildable(codec, r)
  {
    hide Converted, MessageReady, Optional, JoinLines, SystemParts;
    ConvertedReady(codec, r.messages);
  }

  // ---- messages ----

  lemma CallBlockBack(codec: Codec, b: Blocks, c: Call)
    requires Lawful(codec) && CallReady(codec, c)
    ensures CallBlock(codec, c).Ok?
    ensures OnBlock(codec, b, CallBlock(codec, c).value)
         == if codec.parse(c.args).value.Obj? then Ok(b.(calls := b.calls + [NormalCall(codec, c)]))
             else Err(InvalidRequest)
  {
  }

  lemma ObjectCallsMore(codec: Codec, front: seq<Call>, c: Call)
    ensures ObjectCalls(codec, front + [c]) <==>
        ObjectCalls(codec, front) && codec.parse(c.args).Some? && codec.parse(c.args).value.Obj?
  {
    assert c in front + [c];
    assert forall x :: x in front + [c] <==> x in front || x == c;
  }

  lemma {:induction false} CallBlocksBack(codec: Codec, pre: seq<Json>, texts: seq<string>, calls: seq<Call>)
    requires Lawful(codec) && CallsReady(codec, calls) && ParseBlocks(codec, pre) == Ok(Blocks(texts, [], []))
    ensures CallBlocks(codec, calls).Ok?
    ensures ParseBlocks(codec, pre + CallBlocks(codec, calls).value)
         == if ObjectCalls(codec, calls) then Ok(Blocks(texts, NormalCalls(codec, calls), [])) else Err(InvalidRequest)
    decreases |calls|
  {
    hide OnBlock, CallBlock, NormalCall, Lawful, ObjectCalls;
    if calls == [] {
      assert pre + [] == pre;
      assert ObjectCalls(codec, []) by { NoCalls(codec); }
    } else {
      var front, c := calls[..|calls| - 1], calls[|calls| - 1];
      assert calls == front + [c];
      assert forall x :: x in front ==> x in calls;
      CallBlocksBack(codec, pre, texts, front);
      ObjectCallsMore(codec, front, c);
      assert c in calls;
      CallBlockBack(codec, Blocks(texts, NormalCalls(codec, front), []), c);
      hide ParseBlocks;
      NextBlock(codec, pre + CallBlocks(codec, front).value, CallBlock(codec, c).value);
      assert pre + CallBlocks(codec, calls).value == pre + CallBlocks(codec, front).value + [CallBlock(codec, c).value];
    }
  }

  lemma NextBlock(codec: Codec, items: seq<Json>, block: Json)
    ensures ParseBlocks(codec, items + [block])
         == (var before := ParseBlocks(codec, items); if before.Err? then before
             else OnBlock(codec, before.value, block))
  {
    hide OnBlock;
    assert (items + [block])[..|items|] == items;
  }

  lemma NextMessage(codec: Codec, items: seq<Json>, json: Json)
    ensures ParseMessages(codec, items + [json])
         == (var before := ParseMessages(codec, items);
             if before.Err? then before
             else var last := ParseMessage(codec, json); if last.Err? then last else Ok(before.value + last.value))
  {
    hide ParseMessage;
    assert (items + [json])[..|items|] == items;
  }

  lemma NoCalls(codec: Codec)
    ensures ObjectCalls(codec, [])
  {
  }

  lemma NothingBefore(codec: Codec, text: string)
    ensures ParseBlocks(codec, []) == Ok(Blocks([], [], []))
    ensures ParseBlocks(codec, [TextBlock(text)]) == Ok(Blocks([text], [], []))
  {
    assert [TextBlock(text)][..0] == [];
    assert [] + [text] == [text];
  }

  lemma AssistantBack(codec: Codec, m: Message)
    requires Lawful(codec) && MessageReady(codec, m) && m.role == Assistant
    ensures Convert(codec, m).Ok?
    ensures ParseMessage(codec, Convert(codec, m).value)
         == if ObjectCalls(codec, CallsOf(m)) then Ok([NormalMessage(codec, m)]) else Err(InvalidRequest)
  {
    hide Lawful, CallBlocks, ParseBlocks, CallsReady, TextBlock, ObjectCalls, FromBlocks;
    var text := Content(m);
    var pre := if text != "" then [TextBlock(text)] else [];
    var texts := if text != "" then [text] else [];
    NothingBefore(codec, text);
    CallBlocksBack(codec, pre, texts, CallsOf(m));
    var calls := CallBlocks(codec, CallsOf(m)).value;
    NoCalls(codec);
    if pre + calls != [] {
      OneMessage(Assistant, text, NormalCalls(codec, CallsOf(m)));
      assert Convert(codec, m) == Ok(MessageJson("assistant", Arr(pre + calls)));
      assert ParseMessage(codec, MessageJson("assistant", Arr(pre + calls)))
          == (var blocks := ParseBlocks(codec, pre + calls);
              if blocks.Err? then Err(blocks.error) else Ok(FromBlocks(Assistant, blocks.value)));
    } else {
      assert text == "" && CallsOf(m) == [];
    }
  }

  lemma OneMessage(role: Role, text: string, calls: seq<Call>)
    requires text != "" || calls != []
    ensures FromBlocks(role, Blocks(if text != "" then [text] else [], calls, []))
         == [Plain(role, if text != "" then Some(text) else None, if calls != [] then Some(calls) else None)]
  {
    assert [text][..0] == [];
    assert Concat([]) == "" && Concat([text]) == "" + text;
    assert "" + text == text;
    var one := [Plain(role, if text != "" then Some(text) else None, if calls != [] then Some(calls) else None)];
    assert ResultMessages([]) == [] && one + [] == one;
  }

  lemma ResultBack(codec: Codec, m: Message)
    requires MessageReady(codec, m) && m.role == ToolResult
    ensures Convert(codec, m).Ok?
    ensures ParseMessage(codec, Convert(codec, m).value) == Ok([NormalMessage(codec, m)])
  {
    hide ParseBlocks, FromBlocks;
    var failed := m.status == Some(Failure);
    var block := ResultBlock(m.toolCallId.value, Content(m), failed);
    var outcome := Outcome(m.toolCallId.value, Content(m), if failed then Failure else Success);
    OneBlock(codec, block);
    ResultIsOutcome(codec, m.toolCallId.value, Content(m), failed);
    OneResult(User, outcome);
  }

  lemma OneBlock(codec: Codec, block: Json)
    ensures ParseBlocks(codec, [block]) == OnBlock(codec, Blocks([], [], []), block)
  {
    hide OnBlock;
    assert [block][..0] == [];
    assert ParseBlocks(codec, []) == Ok(Blocks([], [], []));
  }

  lemma ResultIsOutcome(codec: Codec, id: string, text: string, failed: bool)
    ensures OnBlock(codec, Blocks([], [], []), ResultBlock(id, text, failed))
         == Ok(Blocks([], [], [Outcome(id, text, if failed then Failure else Success)]))
  {
    var outcome := Outcome(id, text, if failed then Failure else Success);
    assert [] + [outcome] == [outcome];
  }

  lemma OneResult(role: Role, r: Outcome)
    ensures FromBlocks(role, Blocks([], [], [r]))
        == [Message(ToolResult, Some(r.text), Some(r.id), Some(r.status), None)]
  {
    assert [r][..0] == [] && ResultMessages([]) == [];
  }

  lemma MessageBack(codec: Codec, m: Message)
    requires Lawful(codec) && MessageReady(codec, m) && m.role != System
    ensures Convert(codec, m).Ok?
    ensures ParseMessage(codec, Convert(codec, m).value)
         == if ObjectCalls(codec, CallsOf(m)) then Ok([NormalMessage(codec, m)]) else Err(InvalidRequest)
  {
    match m.role
    case Assistant =>
      hide Convert, ParseMessage, NormalMessage, MessageReady;
      AssistantBack(codec, m);
    case ToolResult =>
      hide Convert, ParseMessage, NormalMessage, MessageReady;
      ResultBack(codec, m);
    case User =>
      NoCalls(codec);
  }

  lemma {:induction false} MessagesBack(codec: Codec, messages: seq<Message>)
    requires Lawful(codec) && AllReady(codec, messages)
    ensures Converted(codec, messages).Ok?
    ensures ParseMessages(codec, Converted(codec, messages).value)
         == if ObjectArguments(codec, messages) then Ok(NormalMessages(codec, messages)) else Err(InvalidRequest)
    decreases |messages|
  {
    hide Lawful, Convert, ParseMessage, NormalMessage, MessageReady, ObjectArguments;
    if messages == [] {
      assert ObjectArguments(codec, []) by { NobodyCalls(codec); }
    } else {
      var front, m := messages[..|messages| - 1], messages[|messages| - 1];
      assert messages == front + [m];
      assert forall x :: x in front ==> x in messages;
      MessagesBack(codec, front);
      ArgumentsMore(codec, front, m);
      assert m in messages;
      if m.role != System {
        MessageBack(codec, m);
        hide ParseMessages;
        NextMessage(codec, Converted(codec, front).value, Convert(codec, m).value);
      } else {
        assert NormalMessages(codec, front) + [] == NormalMessages(codec, front);
      }
    }
  }

  lemma NobodyCalls(codec: Codec)
    ensures ObjectArguments(codec, [])
  {
  }

  lemma ArgumentsMore(codec: Codec, front: seq<Message>, m: Message)
    ensures ObjectArguments(codec, front + [m]) <==> ObjectArguments(codec, front) && ObjectCalls(codec, CallsOf(m))
    ensures m.role == System ==> ObjectCalls(codec, CallsOf(m))
  {
    hide ObjectCalls, CallsOf;
    assert m in front + [m];
    assert forall x :: x in front + [m] <==> x in front || x == m;
    if m.role == System {
      SystemCallsNothing(codec, m);
    }
  }

  lemma SystemCallsNothing(codec: Codec, m: Message)
    requires m.role == System
    ensures ObjectCalls(codec, CallsOf(m))
  {
  }

  // ---- tools and choice ----

  lemma ToolBack(t: Tool)
    ensures ParseTool(ToolJson(t)) == Ok(t)
  {
  }

  lemma {:induction false} ToolsBack(tools: seq<Tool>)
    ensures ParseTools(ToolsJson(tools)) == Ok(tools)
    decreases |tools|
  {
    hide ParseTool, ToolJson;
    if tools != [] {
      var front, last := tools[..|tools| - 1], tools[|tools| - 1];
      ToolsBack(front);
      ToolBack(last);
      var all := ToolsJson(tools);
      assert all[..|all| - 1] == ToolsJson(front) && all[|all| - 1] == ToolJson(last);
      hide ToolsJson;
      assert ParseTools(all) == Ok(front + [last]);
      assert front + [last] == tools;
    }
  }

  lemma ChoiceBack(choice: Option<Choice>, parallel: Option<bool>)
    requires choice != Some(Named("")) && (choice.Some? || parallel.Some?)
    ensures ChoiceJson(choice, parallel).Ok? && ChoiceJson(choice, parallel).value.Some?
    ensures ParseChoice(ChoiceJson(choice, parallel).value.value)
         == Ok((if choice == None then Auto else choice.value, if parallel == Some(false) then parallel else None))
  {
    assert "auto"[0] == 'a' && "none"[0] == 'n' && "tool"[0] == 't' && |"any"| == 3 && |"auto"| == 4 && |"none"| == 4
        && |"tool"| == 4;
    var fields := ChoiceJson(choice, parallel).value.value.fields;
    var expected := if choice == None then Auto else choice.value;
    assert TextField(fields, "type")
        == Some(match expected case Auto => "auto" case Never => "none" case Required => "any" case Named(_) => "tool");
    assert expected.Named? ==> TextField(fields, "name") == Some(expected.name);
    assert Field(fields, "disable_parallel_tool_use") == if parallel == Some(false) then Some(Bool(true)) else None;
    assert "type"[0] == 't' && "name"[0] == 'n' && |"disable_parallel_tool_use"| == 25;
  }

  // ---- the round trip ----

  lemma BuiltBody(codec: Codec, model: string, r: Request, maxTokens: Option<int>)
    requires Build(codec, model, r, maxTokens).Ok?
    ensures var body := Build(codec, model, r, maxTokens).value;
            && Converted(codec, r.messages).Ok? && Converted(codec, r.messages).value != []
                && ChoiceJson(r.choice, r.parallel).Ok?
            && (forall key :: key in body ==> key in Accepted())
            && "messages" in body && body["messages"] == Arr(Converted(codec, r.messages).value)
            && "max_tokens" in body && body["max_tokens"].Num? && body["max_tokens"].n > 0
            && Field(body, "system") == (if SystemParts(r.messages) != []
                then Some(Str(JoinLines(SystemParts(r.messages)))) else None)
            && Field(body, "tools") == (if r.tools != [] then Some(Arr(ToolsJson(r.tools))) else None)
            && Field(body, "tool_choice") == ChoiceJson(r.choice, r.parallel).value
  {
    hide Converted, SystemParts, JoinLines, ToolsJson, ChoiceJson;
  }

  /**
   * The rest of a built body: the model as given, a stream, and as many output tokens as were asked for, within one and
   * 4096, or 1024 when none were.
   */
  lemma BuiltControls(codec: Codec, model: string, r: Request, maxTokens: Option<int>)
    requires Build(codec, model, r, maxTokens).Ok?
    ensures var body := Build(codec, model, r, maxTokens).value;
            && Field(body, "model") == Some(Str(model)) && Field(body, "stream") == Some(Bool(true))
            && "max_tokens" in body && body["max_tokens"].Num? && 1 <= body["max_tokens"].n <= 4096
            && (maxTokens.None? ==> body["max_tokens"].n == 1024)
            && (maxTokens.Some? && 1 <= maxTokens.value <= 4096 ==> body["max_tokens"].n == maxTokens.value)
            && (maxTokens.Some? && maxTokens.value < 1 ==> body["max_tokens"].n == 1)
            && (maxTokens.Some? && maxTokens.value > 4096 ==> body["max_tokens"].n == 4096)
            && body.Keys <= {"model", "max_tokens", "messages", "stream", "system", "tools", "tool_choice"}
  {
    hide Converted, SystemParts, JoinLines, ToolsJson, ChoiceJson;
  }

  lemma ParsedParts(codec: Codec, body: map<string, Json>, messages: seq<Message>)
    requires (forall key :: key in body ==> key in Accepted()) && "max_tokens" in body && body["max_tokens"].Num?
        && body["max_tokens"].n > 0
    requires "system" in body ==> body["system"].Str?
    requires "messages" in body && body["messages"].Arr? && body["messages"].items != []
    requires "tools" in body ==> body["tools"].Arr? && ParseTools(body["tools"].items).Ok?
    requires "tool_choice" in body ==> ParseChoice(body["tool_choice"]).Ok?
    ensures Parse(codec, body).Ok? <==> ParseMessages(codec, body["messages"].items).Ok?
    ensures Parse(codec, body).Ok? ==>
              Parse(codec, body) == Ok(Request(
                (if "system" in body then [Plain(System, Some(body["system"].s), None)] else [])
                    + ParseMessages(codec, body["messages"].items).value,
                if "tools" in body then ParseTools(body["tools"].items).value else [],
                if "tool_choice" in body then Some(ParseChoice(body["tool_choice"]).value.0) else None,
                if "tool_choice" in body then ParseChoice(body["tool_choice"]).value.1 else None))
  {
    hide ParseMessages, ParseTools, ParseChoice, Accepted;
  }

  /**
   * What was built is accepted exactly when every call's arguments are a JSON object, and what comes
   * back is the canonical request in its normal form.
   */
  lemma ParseBuiltIsNormal(codec: Codec, model: string, r: Request, maxTokens: Option<int>)
    requires Lawful(codec) && Buildable(codec, r)
    ensures Build(codec, model, r, maxTokens).Ok?
    ensures Parse(codec, Build(codec, model, r, maxTokens).value).Ok? <==> ObjectArguments(codec, r.messages)
    ensures ObjectArguments(codec, r.messages) ==>
        Parse(codec, Build(codec, model, r, maxTokens).value) == Ok(Normal(codec, r))
  {
    BuildsExactlyWhenBuildable(codec, model, r, maxTokens);
    hide Lawful, Build, Parse, MessageReady, SystemParts, JoinLines, Converted, ParseMessages, ParseTools,
        ToolsJson, ParseChoice,
         NormalMessages, ObjectArguments;
    var body := Build(codec, model, r, maxTokens).value;
    BuiltBody(codec, model, r, maxTokens);
    MessagesBack(codec, r.messages);
    ToolsBack(r.tools);
    if r.choice.Some? || r.parallel.Some? {
      ChoiceBack(r.choice, r.parallel);
    }
    hide ChoiceJson;
    ParsedParts(codec, body, r.messages);
  }

  // ---- the normal form ----

  lemma NormalCallAgain(codec: Codec, c: Call)
    requires Lawful(codec) && CallReady(codec, c)
    ensures CallReady(codec, NormalCall(codec, c)) && NormalCall(codec, NormalCall(codec, c)) == NormalCall(codec, c)
    ensures CallBlock(codec, NormalCall(codec, c)) == CallBlock(codec, c)
    ensures codec.parse(NormalCall(codec, c).args) == codec.parse(c.args)
  {
  }

  lemma {:induction false} NormalCallsAgain(codec: Codec, calls: seq<Call>)
    requires Lawful(codec) && CallsReady(codec, calls)
    ensures CallsReady(codec, NormalCalls(codec, calls))
    ensures NormalCalls(codec, NormalCalls(codec, calls)) == NormalCalls(codec, calls)
    ensures CallBlocks(codec, NormalCalls(codec, calls)) == CallBlocks(codec, calls)
    decreases |calls|
  {
    hide Lawful, CallReady, CallBlock, NormalCall;
    if calls != [] {
      var front, c := calls[..|calls| - 1], calls[|calls| - 1];
      assert forall x :: x in front ==> x in calls;
      assert c in calls;
      NormalCallsAgain(codec, front);
      NormalCallAgain(codec, c);
      var normal := NormalCalls(codec, calls);
      assert normal[..|normal| - 1] == NormalCalls(codec, front);
      forall x | x in normal ensures CallReady(codec, x) {
        if x != NormalCall(codec, c) {
          assert x in NormalCalls(codec, front);
        }
      }
    }
  }

  lemma NormalMessageAgain(codec: Codec, m: Message)
    requires Lawful(codec) && MessageReady(codec, m) && m.role != System
    ensures MessageReady(codec, NormalMessage(codec, m)) && NormalMessage(codec, m).role == m.role
    ensures NormalMessage(codec, NormalMessage(codec, m)) == NormalMessage(codec, m)
    ensures Convert(codec, NormalMessage(codec, m)) == Convert(codec, m)
  {
    hide Lawful, CallReady, CallBlocks, NormalCall;
    if m.role == Assistant {
      NormalCallsAgain(codec, CallsOf(m));
      var n := NormalMessage(codec, m);
      assert CallsOf(n) == NormalCalls(codec, CallsOf(m)) && Content(n) == Content(m);
      hide CallsReady;
    }
  }

  ghost predicate NobodyIsSystem(messages: seq<Message>) {
    forall m :: m in messages ==> m.role != System
  }

  lemma {:induction false} NormalMessagesAgain(codec: Codec, messages: seq<Message>)
    requires Lawful(codec) && AllReady(codec, messages)
    ensures var normal := NormalMessages(codec, messages);
            && AllReady(codec, normal) && NobodyIsSystem(normal)
            && NormalMessages(codec, normal) == normal && Converted(codec, normal) == Converted(codec, messages)
            && (normal != [] <==> SomebodySpeaks(messages))
    decreases |messages|
  {
    hide Lawful, MessageReady, NormalMessage, NormalMessages, Convert, Converted, AllReady, NobodyIsSystem,
        SomebodySpeaks;
    if messages == [] {
      NobodyAtAll(codec);
    } else {
      var front, m := messages[..|messages| - 1], messages[|messages| - 1];
      assert messages == front + [m];
      OneMoreMessage(codec, front, m);
      NextMessageConverts(codec, front, m);
      NormalMessagesAgain(codec, front);
      if m.role != System {
        NormalMessageAgain(codec, m);
        OneMoreMessage(codec, NormalMessages(codec, front), NormalMessage(codec, m));
        NextMessageConverts(codec, NormalMessages(codec, front), NormalMessage(codec, m));
      }
    }
  }

  lemma NextMessageConverts(codec: Codec, front: seq<Message>, m: Message)
    ensures NormalMessages(codec, front + [m]) ==
        if m.role == System then NormalMessages(codec, front)
        else NormalMessages(codec, front) + [NormalMessage(codec, m)]
    ensures Converted(codec, front + [m])
         == (var before := Converted(codec, front);
             if before.Err? || m.role == System then before
             else var json := Convert(codec, m); if json.Err? then Err(json.error) else Ok(before.value + [json.value]))
  {
    hide Convert, NormalMessage;
    assert (front + [m])[..|front|] == front;
    assert NormalMessages(codec, front) + [] == NormalMessages(codec, front);
  }

  lemma NobodyAtAll(codec: Codec)
    ensures AllReady(codec, []) && NobodyIsSystem([]) && !SomebodySpeaks([]) && NormalMessages(codec, []) == []
  {
  }

  lemma OneMoreMessage(codec: Codec, front: seq<Message>, m: Message)
    ensures AllReady(codec, front + [m]) <==> AllReady(codec, front) && MessageReady(codec, m)
    ensures NobodyIsSystem(front + [m]) <==> NobodyIsSystem(front) && m.role != System
    ensures SomebodySpeaks(front + [m]) <==> SomebodySpeaks(front) || m.role != System
  {
    hide MessageReady;
    assert m in front + [m];
    assert forall x :: x in front + [m] <==> x in front || x == m;
  }

  lemma {:induction false} NoSystemParts(messages: seq<Message>)
    requires NobodyIsSystem(messages)
    ensures SystemParts(messages) == []
    decreases |messages|
  {
    if messages != [] {
      var front := messages[..|messages| - 1];
      assert forall x :: x in front ==> x in messages;
      assert messages[|messages| - 1] in messages;
      NoSystemParts(front);
    }
  }

  /** A system message in front of messages that are none. */
  lemma {:induction false} SystemFirst(codec: Codec, s: Message, messages: seq<Message>)
    requires s.role == System && NobodyIsSystem(messages)
    ensures Converted(codec, [s] + messages) == Converted(codec, messages)
    ensures NormalMessages(codec, [s] + messages) == NormalMessages(codec, messages)
    ensures SystemParts([s] + messages) == if Content(s) != "" then [Content(s)] else []
    decreases |messages|
  {
    hide Convert, Converted, NormalMessage, NormalMessages, SystemParts;
    if messages == [] {
      assert [s] + messages == [] + [s];
      NextMessageConverts(codec, [], s);
      NextPart([], s);
    } else {
      var front, m := messages[..|messages| - 1], messages[|messages| - 1];
      assert forall x :: x in front ==> x in messages;
      assert m in messages;
      SystemFirst(codec, s, front);
      NextMessageConverts(codec, front, m);
      NextMessageConverts(codec, [s] + front, m);
      NextPart([s] + front, m);
      assert [s] + messages == [s] + front + [m] && messages == front + [m];
    }
  }

  lemma NextPart(front: seq<Message>, m: Message)
    ensures SystemParts(front + [m]) == SystemParts(front) +
        if m.role == System && Content(m) != "" then [Content(m)] else []
    ensures SystemParts([]) == []
  {
    assert (front + [m])[..|front|] == front;
  }

  lemma {:induction false} PartsAreFilled(messages: seq<Message>)
    ensures forall p :: p in SystemParts(messages) ==> p != ""
    decreases |messages|
  {
    if messages != [] {
      PartsAreFilled(messages[..|messages| - 1]);
    }
  }

  lemma JoinedIsFilled(parts: seq<string>)
    requires parts != [] && forall p :: p in parts ==> p != ""
    ensures JoinLines(parts) != ""
  {
    assert parts[0] in parts;
    if |parts| > 1 {
      assert |JoinLines(parts)| > 0;
    }
  }

  /** Normalising a second time changes nothing, and the normal form can be built whenever the request can. */
  lemma NormalIsNormal(codec: Codec, r: Request)
    requires Lawful(codec) && Buildable(codec, r)
    ensures Buildable(codec, Normal(codec, r)) && Normal(codec, Normal(codec, r)) == Normal(codec, r)
    ensures Converted(codec, Normal(codec, r).messages) == Converted(codec, r.messages)
    ensures SystemParts(Normal(codec, r).messages) ==
        if SystemParts(r.messages) != [] then [JoinLines(SystemParts(r.messages))] else []
  {
    hide Lawful, MessageReady, NormalMessages, Converted, SystemParts, JoinLines;
    NormalMessagesAgain(codec, r.messages);
    var normal := NormalMessages(codec, r.messages);
    NoSystemParts(normal);
    var parts := SystemParts(r.messages);
    var n := Normal(codec, r);
    assert normal[0] in normal;
    if parts != [] {
      PartsAreFilled(r.messages);
      JoinedIsFilled(parts);
      var s := Plain(System, Some(JoinLines(parts)), None);
      SystemFirst(codec, s, normal);
      SystemIsReady(codec, s);
      assert forall m :: m in n.messages <==> m == s || m in normal;
      assert [JoinLines(parts)] != [];
      OneLine(JoinLines(parts));
    } else {
      assert n.messages == normal by { assert [] + normal == normal; }
    }
    assert normal[0] in n.messages;
  }

  lemma OneLine(text: string)
    ensures JoinLines([text]) == text
  {
  }

  lemma SameChoice(choice: Option<Choice>, parallel: Option<bool>)
    ensures ChoiceJson(if choice == None
        && parallel.Some? then Some(Auto) else choice, if parallel == Some(false) then parallel else None)
         == ChoiceJson(choice, parallel)
  {
  }

  /** Building the normal form gives the same body again. */
  lemma BuildNormalIsSame(codec: Codec, model: string, r: Request, maxTokens: Option<int>)
    requires Lawful(codec) && Buildable(codec, r)
    ensures Build(codec, model, Normal(codec, r), maxTokens) == Build(codec, model, r, maxTokens)
  {
    hide Lawful, Buildable, Build, Normal, Converted, SystemParts, JoinLines, ChoiceJson;
    NormalIsNormal(codec, r);
    SameChoice(r.choice, r.parallel);
    OneLine(JoinLines(SystemParts(r.messages)));
    OtherParts(codec, r);
    SameBody(codec, model, r, Normal(codec, r), maxTokens);
  }

  lemma OtherParts(codec: Codec, r: Request)
    ensures var n := Normal(codec, r);
            && n.tools == r.tools && n.choice == (if r.choice == None && r.parallel.Some? then Some(Auto) else r.choice)
            && n.parallel == if r.parallel == Some(false) then r.parallel else None
  {
  }

  /** What a body is made of. */
  lemma SameBody(codec: Codec, model: string, r: Request, n: Request, maxTokens: Option<int>)
    requires Converted(codec, n.messages) == Converted(codec, r.messages) && n.tools == r.tools
    requires ChoiceJson(n.choice, n.parallel) == ChoiceJson(r.choice, r.parallel)
    requires (SystemParts(n.messages) == [] <==> SystemParts(r.messages) == [])
    requires JoinLines(SystemParts(n.messages)) == JoinLines(SystemParts(r.messages))
    ensures Build(codec, model, n, maxTokens) == Build(codec, model, r, maxTokens)
  {
    hide Converted, SystemParts, JoinLines, ChoiceJson, ToolsJson, Optional, Bounded;
  }

  /** Parsing what was built and building it again gives the same body: a body the builder wrote is a fixed point. */
  lemma BuildParseBuild(codec: Codec, model: string, r: Request, maxTokens: Option<int>)
    requires Lawful(codec) && Buildable(codec, r) && ObjectArguments(codec, r.messages)
    ensures Build(codec, model, r, maxTokens).Ok?
    ensures var body := Build(codec, model, r, maxTokens).value;
            Parse(codec, body).Ok? && Build(codec, model, Parse(codec, body).value, maxTokens) == Ok(body)
  {
    hide Lawful, Buildable, ObjectArguments, Build, Parse, Normal;
    ParseBuiltIsNormal(codec, model, r, maxTokens);
    BuildNormalIsSame(codec, model, r, maxTokens);
  }
}
