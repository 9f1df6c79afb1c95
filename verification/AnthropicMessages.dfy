/**
 * The canonical request as an Anthropic Messages body and back: what the builder writes, what the
 * parser accepts, and the normal form between them.
 */
module AnthropicMessages {
  import opened Options
  import opened Jsons

  datatype Role = System | User | Assistant | ToolResult

  datatype Status = Success | Failure

  datatype Call = Call(id: string, name: string, args: string)

  datatype Message = Message(role: Role, content: Option<string>, toolCallId: Option<string>, status: Option<Status>,
      calls: Option<seq<Call>>)

  datatype Tool = Tool(name: string, description: Option<string>, parameters: map<string, Json>)

  datatype Choice = Auto | Never | Required | Named(name: string)

  datatype Request = Request(messages: seq<Message>, tools: seq<Tool>, choice: Option<Choice>, parallel: Option<bool>)

  datatype Error = ProtocolError | InvalidRequest | Unsupported

  function Content(m: Message): string {
    if m.content.Some? then m.content.value else ""
  }

  function CallsOf(m: Message): seq<Call> {
    if m.role == Assistant && m.calls.Some? then m.calls.value else []
  }

  function JoinLines(parts: seq<string>): string {
    if parts == [] then "" else if |parts| == 1 then parts[0]
    else JoinLines(parts[..|parts| - 1]) + ['\n'] + parts[|parts| - 1]
  }

  function Concat(parts: seq<string>): string {
    if parts == [] then "" else Concat(parts[..|parts| - 1]) + parts[|parts| - 1]
  }

  // ---- building ----

  /** A complete call needs an id, a name, and arguments that parse. */
  function CallBlock(codec: Codec, c: Call): Result<Json, Error> {
    if c.id == "" || c.name == "" then Err(ProtocolError)
    else
      var input := codec.parse(c.args);
      if input == None then Err(ProtocolError)
      else Ok(Obj(map["type" := Str("tool_use"), "id" := Str(c.id), "name" := Str(c.name), "input" := input.value]))
  }

  function CallBlocks(codec: Codec, calls: seq<Call>): (r: Result<seq<Json>, Error>)
    ensures r.Ok? ==> |r.value| == |calls|
  {
    if calls == [] then Ok([])
    else
      var before := CallBlocks(codec, calls[..|calls| - 1]);
      if before.Err? then before
      else
        var block := CallBlock(codec, calls[|calls| - 1]);
        if block.Err? then Err(block.error) else Ok(before.value + [block.value])
  }

  function TextBlock(text: string): Json {
    Obj(map["type" := Str("text"), "text" := Str(text)])
  }

  function ResultBlock(id: string, text: string, failed: bool): Json {
    var block: map<string, Json> := map["type" := Str("tool_result"), "tool_use_id" := Str(id), "content" := Str(text)];
    Obj(if failed then block["is_error" := Bool(true)] else block)
  }

  function MessageJson(role: string, content: Json): Json {
    Obj(map["role" := Str(role), "content" := content])
  }

  /** One message that is not a system message. */
  function Convert(codec: Codec, m: Message): Result<Json, Error> {
    match m.role
    case ToolResult =>
      if m.toolCallId == None || m.toolCallId.value == "" then Err(ProtocolError)
      else Ok(MessageJson("user", Arr([ResultBlock(m.toolCallId.value, Content(m), m.status == Some(Failure))])))
    case Assistant =>
      var calls := CallBlocks(codec, CallsOf(m));
      if calls.Err? then Err(calls.error)
      else
        var blocks := (if Content(m) != "" then [TextBlock(Content(m))] else []) + calls.value;
        Ok(MessageJson("assistant", if blocks != [] then Arr(blocks) else Str(Content(m))))
    case _ => Ok(MessageJson("user", Str(Content(m))))
  }

  function Converted(codec: Codec, messages: seq<Message>): Result<seq<Json>, Error> {
    if messages == [] then Ok([])
    else
      var before := Converted(codec, messages[..|messages| - 1]);
      var m := messages[|messages| - 1];
      if before.Err? || m.role == System then before
      else
        var json := Convert(codec, m);
        if json.Err? then Err(json.error) else Ok(before.value + [json.value])
  }

  /** The texts of the system messages that say something. */
  function SystemParts(messages: seq<Message>): seq<string> {
    if messages == [] then []
    else
      var m := messages[|messages| - 1];
      SystemParts(messages[..|messages| - 1]) + if m.role == System && Content(m) != "" then [Content(m)] else []
  }

  /** `toAnthropicToolChoice`: a named choice needs a name; parallel calls are the default and are not written. */
  function ChoiceJson(choice: Option<Choice>, parallel: Option<bool>): Result<Option<Json>, Error> {
    if choice == Some(Named("")) then Err(InvalidRequest)
    else if choice == None && parallel == None then Ok(None)
    else
      var fields: map<string, Json> :=
        if choice == None || choice == Some(Auto) then map["type" := Str("auto")]
        else if choice == Some(Never) then map["type" := Str("none")]
        else if choice == Some(Required) then map["type" := Str("any")]
        else map["type" := Str("tool"), "name" := Str(choice.value.name)];
      Ok(Some(Obj(if parallel == Some(false) then fields["disable_parallel_tool_use" := Bool(true)] else fields)))
  }

  function ToolJson(t: Tool): Json {
    var fields: map<string, Json> := map["name" := Str(t.name), "input_schema" := Obj(t.parameters)];
    Obj(if t.description.Some? then fields["description" := Str(t.description.value)] else fields)
  }

  function ToolsJson(tools: seq<Tool>): (r: seq<Json>)
    ensures |r| == |tools| && forall i :: 0 <= i < |tools| ==> r[i] == ToolJson(tools[i])
  {
    if tools == [] then [] else ToolsJson(tools[..|tools| - 1]) + [ToolJson(tools[|tools| - 1])]
  }

  function Bounded(maxTokens: Option<int>): int {
    var requested := if maxTokens.Some? then maxTokens.value else 1024;
    var capped := if requested < 4096 then requested else 4096;
    if capped < 1 then 1 else capped
  }

  function Optional(name: string, value: Option<Json>): map<string, Json> {
    if value.Some? then map[name := value.value] else map[]
  }

  function Build(codec: Codec, model: string, r: Request, maxTokens: Option<int>): Result<map<string, Json>, Error> {
    var converted := Converted(codec, r.messages);
    if converted.Err? then Err(converted.error)
    else if converted.value == [] then Err(InvalidRequest)
    else
      var choice := ChoiceJson(r.choice, r.parallel);
      if choice.Err? then Err(choice.error)
      else
        var parts := SystemParts(r.messages);
        Ok(map["model" := Str(model), "max_tokens" := Num(Bounded(maxTokens)), "messages" := Arr(converted.value),
            "stream" := Bool(true)]
           + Optional("system", if parts != [] then Some(Str(JoinLines(parts))) else None)
           + Optional("tools", if r.tools != [] then Some(Arr(ToolsJson(r.tools))) else None)
           + Optional("tool_choice", choice.value))
  }

  // ---- parsing ----

  function Accepted(): set<string> {
    {"model", "messages", "system", "tools", "tool_choice", "stream", "max_tokens"}
  }

  /** The texts of an array of text blocks, or nothing when there is any other block. */
  function BlockTexts(items: seq<Json>): Option<seq<string>> {
    if items == [] then Some([])
    else
      var before := BlockTexts(items[..|items| - 1]);
      var block := items[|items| - 1];
      if before == None || !block.Obj? || Field(block.fields, "type") != Some(Str("text")) then None
      else
        var text := TextField(block.fields, "text");
        if text == None then None else Some(before.value + [text.value])
  }

  function TextOf(content: Json): Option<string> {
    match content
    case Str(s) => Some(s)
    case Arr(items) => (var texts := BlockTexts(items); if texts == None then None else Some(Concat(texts.value)))
    case _ => None
  }

  function ResultText(content: Option<Json>): Option<string> {
    if content == None || content == Some(Null) then Some("") else TextOf(content.value)
  }

  datatype Outcome = Outcome(id: string, text: string, status: Status)

  /** What the blocks of one message hold, sorted into texts, calls and results. */
  datatype Blocks = Blocks(texts: seq<string>, calls: seq<Call>, results: seq<Outcome>)

  function OnBlock(codec: Codec, b: Blocks, json: Json): Result<Blocks, Error> {
    if !json.Obj? then Err(InvalidRequest)
    else
      var fields := json.fields;
      var kind := Field(fields, "type");
      if kind == Some(Str("text")) then
        (var text := TextField(fields, "text");
         if text == None then Err(InvalidRequest) else Ok(b.(texts := b.texts + [text.value])))
      else if kind == Some(Str("tool_use")) then
        (var id, name := TextField(fields, "id"), TextField(fields, "name");
         var input := if "input" in fields then fields["input"] else Obj(map[]);
         if id == None || name == None || !input.Obj? then Err(InvalidRequest)
         else Ok(b.(calls := b.calls + [Call(id.value, name.value, codec.write(input))])))
      else if kind == Some(Str("tool_result")) then
        (var id, failed := TextField(fields, "tool_use_id"), Field(fields, "is_error");
         var text := ResultText(Field(fields, "content"));
         if id == None || (failed.Some? && !failed.value.Bool?) || text == None then Err(InvalidRequest)
         else Ok(b.(results := b.results
             + [Outcome(id.value, text.value, if failed == Some(Bool(true)) then Failure else Success)])))
      else Err(Unsupported)
  }

  function ParseBlocks(codec: Codec, items: seq<Json>): Result<Blocks, Error> {
    if items == [] then Ok(Blocks([], [], []))
    else
      var before := ParseBlocks(codec, items[..|items| - 1]);
      if before.Err? then before else OnBlock(codec, before.value, items[|items| - 1])
  }

  function ResultMessages(results: seq<Outcome>): seq<Message> {
    if results == [] then []
    else
      var r := results[|results| - 1];
      ResultMessages(results[..|results| - 1]) + [Message(ToolResult, Some(r.text), Some(r.id), Some(r.status), None)]
  }

  lemma {:induction false} ResultsAreMessages(results: seq<Outcome>)
    ensures |ResultMessages(results)| == |results|
    ensures forall i :: 0 <= i < |results| ==>
              ResultMessages(results)[i]
                == Message(ToolResult, Some(results[i].text), Some(results[i].id), Some(results[i].status), None)
    decreases |results|
  {
    if results != [] {
      ResultsAreMessages(results[..|results| - 1]);
    }
  }

  function Plain(role: Role, content: Option<string>, calls: Option<seq<Call>>): Message {
    Message(role, content, None, None, calls)
  }

  /** One message becomes its text and calls together, and then one message for each result. */
  function FromBlocks(role: Role, b: Blocks): seq<Message> {
    (if b.texts != [] || b.calls != []
     then [Plain(role, if b.texts != [] then Some(Concat(b.texts)) else None, if b.calls != []
         then Some(b.calls) else None)]
     else [])
    + ResultMessages(b.results)
  }

  function ParseMessage(codec: Codec, json: Json): Result<seq<Message>, Error> {
    if !json.Obj? then Err(InvalidRequest)
    else
      var role := Field(json.fields, "role");
      if role != Some(Str("user")) && role != Some(Str("assistant")) then Err(InvalidRequest)
      else
        var r := if role == Some(Str("user")) then User else Assistant;
        var content := Field(json.fields, "content");
        if content.Some? && content.value.Str? then Ok([Plain(r, Some(content.value.s), None)])
        else if content == None || !content.value.Arr? then Err(InvalidRequest)
        else
          var blocks := ParseBlocks(codec, content.value.items);
          if blocks.Err? then Err(blocks.error) else Ok(FromBlocks(r, blocks.value))
  }

  function ParseMessages(codec: Codec, items: seq<Json>): Result<seq<Message>, Error> {
    if items == [] then Ok([])
    else
      var before := ParseMessages(codec, items[..|items| - 1]);
      if before.Err? then before
      else
        var last := ParseMessage(codec, items[|items| - 1]);
        if last.Err? then last else Ok(before.value + last.value)
  }

  function ParseTool(json: Json): Result<Tool, Error> {
    if !json.Obj? then Err(InvalidRequest)
    else
      var fields := json.fields;
      var name := TextField(fields, "name");
      if name == None then Err(InvalidRequest)
      else if "type" in fields && fields["type"] != Str("function") then Err(Unsupported)
      else
        var schema := if "input_schema" in fields then fields["input_schema"] else Obj(map[]);
        if !schema.Obj? then Err(InvalidRequest)
            else Ok(Tool(name.value, TextField(fields, "description"), schema.fields))
  }

  function ParseTools(items: seq<Json>): Result<seq<Tool>, Error> {
    if items == [] then Ok([])
    else
      var before := ParseTools(items[..|items| - 1]);
      if before.Err? then before
      else
        var last := ParseTool(items[|items| - 1]);
        if last.Err? then Err(last.error) else Ok(before.value + [last.value])
  }

  function ParseChoice(json: Json): Result<(Choice, Option<bool>), Error> {
    if !json.Obj? || TextField(json.fields, "type") == None then Err(InvalidRequest)
    else
      var fields := json.fields;
      var kind := TextField(fields, "type").value;
      var choice: Result<Choice, Error> :=
        if kind == "auto" then Ok(Auto)
        else if kind == "none" then Ok(Never)
        else if kind == "any" then Ok(Required)
        else if kind == "tool" then
          (var name := TextField(fields, "name");
           if name == None || name.value == "" then Err(InvalidRequest) else Ok(Named(name.value)))
        else Err(Unsupported);
      if choice.Err? then Err(choice.error)
      else
        match Field(fields, "disable_parallel_tool_use")
        case None => Ok((choice.value, None))
        case Some(flag) => if flag.Bool? then Ok((choice.value, Some(!flag.b))) else Err(InvalidRequest)
  }

  /** Checks in the order the parser makes them. */
  function Parse(codec: Codec, body: map<string, Json>): Result<Request, Error> {
    if exists key :: key in body && key !in Accepted() then Err(Unsupported)
    else if "max_tokens" in body && !(body["max_tokens"].Num? && body["max_tokens"].n > 0) then Err(InvalidRequest)
    else
      var system := if "system" in body then TextOf(body["system"]) else None;
      if "system" in body && system == None then Err(InvalidRequest)
      else if "messages" !in body || !body["messages"].Arr? || body["messages"].items == [] then Err(InvalidRequest)
      else
        var messages := ParseMessages(codec, body["messages"].items);
        if messages.Err? then Err(messages.error)
        else if "tools" in body && !body["tools"].Arr? then Err(InvalidRequest)
        else
          var tools := if "tools" in body then ParseTools(body["tools"].items) else Ok([]);
          if tools.Err? then Err(tools.error)
          else
            var first := if system.Some? then [Plain(System, system, None)] else [];
            if "tool_choice" !in body then Ok(Request(first + messages.value, tools.value, None, None))
            else
              var choice := ParseChoice(body["tool_choice"]);
              if choice.Err? then Err(choice.error)
              else Ok(Request(first + messages.value, tools.value, Some(choice.value.0), choice.value.1))
  }

  // ---- the normal form ----

  function NormalCall(codec: Codec, c: Call): Call {
    var input := codec.parse(c.args);
    c.(args := if input.Some? then codec.write(input.value) else c.args)
  }

  function NormalCalls(codec: Codec, calls: seq<Call>): (r: seq<Call>)
    ensures |r| == |calls| && forall i :: 0 <= i < |calls| ==> r[i] == NormalCall(codec, calls[i])
  {
    if calls == [] then [] else NormalCalls(codec, calls[..|calls| - 1]) + [NormalCall(codec, calls[|calls| - 1])]
  }

  /** Absent content is empty, except beside calls, where empty content is absent; an absent status is success. */
  function NormalMessage(codec: Codec, m: Message): Message {
    match m.role
    case ToolResult => Message(ToolResult, Some(Content(m)), m.toolCallId,
        Some(if m.status == Some(Failure) then Failure else Success), None)
    case Assistant =>
      var calls := NormalCalls(codec, CallsOf(m));
      Plain(Assistant, if Content(m) != "" || calls == [] then Some(Content(m)) else None, if calls != []
          then Some(calls) else None)
    case _ => Plain(m.role, Some(Content(m)), None)
  }

  function NormalMessages(codec: Codec, messages: seq<Message>): seq<Message> {
    if messages == [] then []
    else
      var m := messages[|messages| - 1];
      NormalMessages(codec, messages[..|messages| - 1]) + if m.role == System then [] else [NormalMessage(codec, m)]
  }

  /**
   * System messages are joined first; an absent choice with a parallel flag is auto; parallel calls are the default.
   */
  function Normal(codec: Codec, r: Request): Request {
    var parts := SystemParts(r.messages);
    Request((if parts != [] then [Plain(System, Some(JoinLines(parts)), None)] else [])
        + NormalMessages(codec, r.messages),
            r.tools,
            if r.choice == None && r.parallel.Some? then Some(Auto) else r.choice,
            if r.parallel == Some(false) then r.parallel else None)
  }

  // ---- what can be built ----

  predicate CallReady(codec: Codec, c: Call) {
    c.id != "" && c.name != "" && codec.parse(c.args).Some?
  }

  predicate CallsReady(codec: Codec, calls: seq<Call>) {
    forall c :: c in calls ==> CallReady(codec, c)
  }

  predicate MessageReady(codec: Codec, m: Message) {
    && (m.role == ToolResult ==> m.toolCallId.Some? && m.toolCallId.value != "")
    && CallsReady(codec, CallsOf(m))
  }

  /** What a caller can check: every result names its call, every call is complete, and somebody speaks. */
  predicate Buildable(codec: Codec, r: Request) {
    && (forall m :: m in r.messages ==> MessageReady(codec, m))
    && (exists m :: m in r.messages && m.role != System)
    && r.choice != Some(Named(""))
  }

  predicate ObjectCalls(codec: Codec, calls: seq<Call>) {
    forall c :: c in calls ==> codec.parse(c.args).Some? && codec.parse(c.args).value.Obj?
  }

  /** Every call's arguments are a JSON object. */
  predicate ObjectArguments(codec: Codec, messages: seq<Message>) {
    forall m :: m in messages ==> ObjectCalls(codec, CallsOf(m))
  }
}
