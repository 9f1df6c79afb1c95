/**
 * The streamed Anthropic surface: text blocks are sent as they come, tool blocks only at the end.
 * What reaches the client is judged by a monitor that knows only the protocol of content blocks.
 */
module AnthropicStream {
  import opened Options
  import opened ChatStream
  import opened PendingCalls

  datatype Out =
    | MessageStart
    | TextStart(k: nat)
    | ToolStart(k: nat, id: string, name: string)
    | TextPiece(k: nat, text: string)
    | JsonPiece(k: nat, json: string)
    | BlockStop(k: nat)
    | MessageDelta(stop: Finish, outputTokens: nat)
    | MessageStop
    | ErrorOut(error: Failure)

  // ---- what the server does ----

  /** `texts` is a tape: the text sent under each block index. */
  datatype Server = Server(
    out: seq<Out>,
    nextIndex: nat,
    textIndex: Option<nat>,
    tools: seq<Pending>,
    outputTokens: nat,
    ended: bool,
    texts: map<nat, string>)

  function TextAt(texts: map<nat, string>, k: nat): string {
    if k in texts then texts[k] else ""
  }

  function OnText(s: Server, text: string): Server {
    var s1 := if s.textIndex.Some? then s
              else s.(textIndex := Some(s.nextIndex), nextIndex := s.nextIndex + 1,
                  out := s.out + [TextStart(s.nextIndex)]);
    var k := s1.textIndex.value;
    s1.(out := s1.out + [TextPiece(k, text)], texts := s1.texts[k := TextAt(s1.texts, k) + text])
  }

  function CloseText(s: Server): Server {
    if s.textIndex == None then s else s.(out := s.out + [BlockStop(s.textIndex.value)], textIndex := None)
  }

  /** The id and the name are the first ones sent for this tool. */
  function OnDelta(s: Server, key: nat, id: string, name: Option<string>, args: Option<string>): Server {
    var s1 := CloseText(s);
    var i := FindKey(s1.tools, key);
    if i < |s1.tools| then s1.(tools := s1.tools[i := s1.tools[i].(args := s1.tools[i].args + Or(args))])
    else s1.(tools := s1.tools + [Pending(key, s1.nextIndex, id, Or(name), "" + Or(args))],
        nextIndex := s1.nextIndex + 1)
  }

  function ToolOut(t: Pending): seq<Out> {
    [ToolStart(t.place, t.id, t.name)] + if t.args != "" then [JsonPiece(t.place, t.args)] else []
  }

  function Starts(tools: seq<Pending>): seq<Out> {
    if tools == [] then [] else Starts(tools[..|tools| - 1]) + ToolOut(tools[|tools| - 1])
  }

  function Stops(tools: seq<Pending>): seq<Out> {
    if tools == [] then [] else Stops(tools[..|tools| - 1]) + [BlockStop(tools[|tools| - 1].place)]
  }

  function FirstMalformed(tools: seq<Pending>, usable: string -> bool): (m: nat)
    ensures m <= |tools| && (m < |tools| ==> !usable(tools[m].args)) && forall j :: 0 <= j < m ==> usable(tools[j].args)
  {
    if tools == [] || !usable(tools[0].args) then 0 else 1 + FirstMalformed(tools[1..], usable)
  }

  /** Checking and showing happen in one pass: the tools before the first malformed one have been shown. */
  function OnCompleted(s: Server, reason: Finish, usable: string -> bool): Server {
    var s1 := CloseText(s);
    var ordered := SortByPlace(s1.tools);
    var m := FirstMalformed(ordered, usable);
    if m < |ordered| then s1.(out := s1.out + Starts(ordered[..m]) + [ErrorOut(MALFORMED), MessageStop], ended := true)
    else s1.(out := s1.out + Starts(ordered) + Stops(ordered) + [MessageDelta(reason, s1.outputTokens), MessageStop],
        ended := true)
  }

  function Serve(s: Server, e: Event, usable: string -> bool): Server {
    if s.ended then s
    else match e
      case Text(text) => OnText(s, text)
      case ToolDelta(index, id, name, args) => OnDelta(s, index, id, name, args)
      case Usage(_, output) => if output.Some? then s.(outputTokens := output.value) else s
      case Completed(reason) => OnCompleted(s, reason, usable)
      case Error(error) => s.(out := s.out + [ErrorOut(error)], ended := true)
  }

  function Begin(): Server {
    Server([MessageStart], 0, None, [], 0, false, map[])
  }

  function Served(events: seq<Event>, usable: string -> bool): Server {
    if events == [] then Begin() else Serve(Served(events[..|events| - 1], usable), events[|events| - 1], usable)
  }

  // ---- what a client may expect ----

  datatype Block = TextBlock(text: string) | ToolBlock(id: string, name: string, json: string)

  datatype Monitor =
    | Silent
    | Watching(open: map<nat, Block>, closed: map<nat, Block>)
    | Summed(closed: map<nat, Block>, stop: Finish)
    | Finished(closed: map<nat, Block>, stop: Finish)
    | Failing(open: map<nat, Block>, closed: map<nat, Block>, error: Failure)
    | Violated

  /**
   * An index is started once; a text block is open alone; tool blocks are only open beside each other; all are stopped
   * before the summary.
   */
  ghost function Observe(m: Monitor, e: Out): Monitor {
    match e
    case MessageStart => if m.Silent? then Watching(map[], map[]) else Violated
    case TextStart(k) =>
      if m.Watching? && m.open == map[] && k !in m.closed then Watching(map[k := TextBlock("")], m.closed) else Violated
    case ToolStart(k, id, name) =>
      if m.Watching? && k !in m.open && k !in m.closed && (forall j :: j in m.open ==> m.open[j].ToolBlock?)
      then Watching(m.open[k := ToolBlock(id, name, "")], m.closed) else Violated
    case TextPiece(k, text) =>
      if m.Watching? && k in m.open && m.open[k].TextBlock?
          then Watching(m.open[k := TextBlock(m.open[k].text + text)], m.closed) else Violated
    case JsonPiece(k, json) =>
      if m.Watching? && k in m.open && m.open[k].ToolBlock?
      then Watching(m.open[k := ToolBlock(m.open[k].id, m.open[k].name, m.open[k].json + json)], m.closed) else Violated
    case BlockStop(k) => if m.Watching? && k in m.open
        then Watching(m.open - {k}, m.closed[k := m.open[k]]) else Violated
    case MessageDelta(stop, _) => if m.Watching? && m.open == map[] then Summed(m.closed, stop) else Violated
    case MessageStop => if m.Summed? then Finished(m.closed, m.stop) else if m.Failing? then m else Violated
    case ErrorOut(error) => if m.Watching? then Failing(m.open, m.closed, error) else Violated
  }

  ghost function Watched(out: seq<Out>): Monitor {
    if out == [] then Silent else Observe(Watched(out[..|out| - 1]), out[|out| - 1])
  }

  lemma WatchedNext(out: seq<Out>, e: Out)
    ensures Watched(out + [e]) == Observe(Watched(out), e)
  {
    assert (out + [e])[..|out|] == out;
  }

  // ---- while the stream runs ----

  /** Indices are handed out in order, each to one text block or one tool; an open text block has the last one. */
  ghost predicate Placed(s: Server) {
    && Rising(s.tools)
    && (forall i :: 0 <= i < |s.tools| ==> s.tools[i].place < s.nextIndex && s.tools[i].place !in s.texts)
    && (forall k :: k in s.texts ==> k < s.nextIndex)
    && (s.textIndex.Some? ==> s.textIndex.value in s.texts && s.textIndex.value + 1 == s.nextIndex)
    && (forall k: nat :: k < s.nextIndex ==> k in s.texts || HasPlace(s.tools, k))
  }

  ghost function ClosedTexts(texts: map<nat, string>, open: Option<nat>): map<nat, Block> {
    map k | k in texts && open != Some(k) :: TextBlock(texts[k])
  }

  ghost function Expected(s: Server): Monitor {
    Watching(if s.textIndex.Some? then map[s.textIndex.value := TextBlock(TextAt(s.texts, s.textIndex.value))]
        else map[],
             ClosedTexts(s.texts, s.textIndex))
  }

  /** All text blocks in the order of their indices. */
  function Joined(texts: map<nat, string>, n: nat): string {
    if n == 0 then "" else Joined(texts, n - 1) + TextAt(texts, n - 1)
  }

  lemma {:induction false} JoinedBelow(texts: map<nat, string>, k: nat, text: string, n: nat)
    requires n <= k
    ensures Joined(texts[k := text], n) == Joined(texts, n)
  {
    if n > 0 {
      JoinedBelow(texts, k, text, n - 1);
    }
  }

  ghost predicate Sound(s: Server, events: seq<Event>) {
    !s.ended && Placed(s) && Watched(s.out) == Expected(s) && Joined(s.texts, s.nextIndex) == TextOf(events)
  }

  lemma {:induction false} RunningIsSound(events: seq<Event>, usable: string -> bool)
    requires Running(events)
    ensures Sound(Served(events, usable), events)
    decreases |events|
  {
    hide Sound, OnText, OnDelta;
    if events == [] {
      BeginIsSound();
    } else {
      var front, e := events[..|events| - 1], events[|events| - 1];
      assert forall x :: x in front ==> x in events;
      RunningIsSound(front, usable);
      var s := Served(front, usable);
      SoundRuns(s, front);
      if e.Text? {
        TextIsSound(s, front, events);
      } else if e.ToolDelta? {
        DeltaIsSound(s, front, events);
      } else {
        UsageIsSound(s, front, events);
      }
    }
  }

  lemma SoundRuns(s: Server, events: seq<Event>)
    requires Sound(s, events)
    ensures !s.ended
  {
    hide Watched, Placed, Expected;
  }

  lemma BeginIsSound()
    ensures Sound(Begin(), [])
  {
    assert [MessageStart][..0] == [];
  }

  lemma UsageIsSound(s: Server, front: seq<Event>, events: seq<Event>)
    requires Sound(s, front) && events != [] && front == events[..|events| - 1] && events[|events| - 1].Usage?
    ensures forall n :: Sound(s.(outputTokens := n), events)
    ensures Sound(s, events)
  {
    hide Watched;
  }

  lemma OpenedPlaces(s: Server)
    requires Placed(s) && s.textIndex == None
    ensures var k := s.nextIndex;
            Placed(s.(textIndex := Some(k), nextIndex := k + 1, out := s.out + [TextStart(k)],
                texts := s.texts[k := ""]))
    ensures s.nextIndex !in s.texts
  {
  }

  lemma GrownPlaces(s: Server, text: string)
    requires Placed(s) && s.textIndex.Some?
    ensures var k := s.textIndex.value;
            Placed(s.(out := s.out + [TextPiece(k, text)], texts := s.texts[k := TextAt(s.texts, k) + text]))
    ensures s.textIndex.value in s.texts && s.textIndex.value + 1 == s.nextIndex
  {
  }

  /** A text block is open, whatever was before. */
  lemma TextOpens(s: Server)
    requires Placed(s) && Watched(s.out) == Expected(s) && s.textIndex == None
    ensures var k := s.nextIndex;
            var t := s.(textIndex := Some(k), nextIndex := k + 1, out := s.out + [TextStart(k)],
                texts := s.texts[k := ""]);
            Placed(t) && Watched(t.out) == Expected(t) && Joined(t.texts, t.nextIndex) == Joined(s.texts, s.nextIndex)
  {
    hide Watched, Placed;
    var k := s.nextIndex;
    OpenedPlaces(s);
    WatchedNext(s.out, TextStart(k));
    JoinedBelow(s.texts, k, "", k);
    assert ClosedTexts(s.texts[k := ""], Some(k)) == ClosedTexts(s.texts, None);
  }

  lemma TextGrows(s: Server, text: string)
    requires Placed(s) && Watched(s.out) == Expected(s) && s.textIndex.Some?
    ensures var k := s.textIndex.value;
            var t := s.(out := s.out + [TextPiece(k, text)], texts := s.texts[k := TextAt(s.texts, k) + text]);
            Placed(t) && Watched(t.out) == Expected(t)
                && Joined(t.texts, t.nextIndex) == Joined(s.texts, s.nextIndex) + text
  {
    hide Watched, Placed;
    var k := s.textIndex.value;
    var texts := s.texts[k := TextAt(s.texts, k) + text];
    GrownPlaces(s, text);
    WatchedNext(s.out, TextPiece(k, text));
    JoinedBelow(s.texts, k, TextAt(s.texts, k) + text, k);
    assert ClosedTexts(texts, Some(k)) == ClosedTexts(s.texts, Some(k));
    assert Joined(s.texts, k) + (TextAt(s.texts, k) + text) == Joined(s.texts, k) + TextAt(s.texts, k) + text;
  }

  lemma TextIsSound(s: Server, front: seq<Event>, events: seq<Event>)
    requires Sound(s, front) && events != [] && front == events[..|events| - 1] && events[|events| - 1].Text?
    ensures Sound(OnText(s, events[|events| - 1].text), events)
  {
    hide Watched, Placed, Expected, Joined;
    var text := events[|events| - 1].text;
    if s.textIndex == None {
      var k := s.nextIndex;
      TextOpens(s);
      var t := s.(textIndex := Some(k), nextIndex := k + 1, out := s.out + [TextStart(k)], texts := s.texts[k := ""]);
      TextGrows(t, text);
      NotYetUsed(s);
      assert s.texts[k := ""][k := "" + text] == s.texts[k := "" + text];
    } else {
      TextGrows(s, text);
    }
  }

  lemma NotYetUsed(s: Server)
    requires Placed(s)
    ensures s.nextIndex !in s.texts
  {
  }

  lemma CloseIsSound(s: Server)
    requires Placed(s) && Watched(s.out) == Expected(s)
    ensures Placed(CloseText(s)) && Watched(CloseText(s).out) == Expected(CloseText(s))
        && CloseText(s).textIndex == None
  {
    hide Watched;
    if s.textIndex.Some? {
      var k := s.textIndex.value;
      WatchedNext(s.out, BlockStop(k));
      assert map[k := TextBlock(TextAt(s.texts, k))] - {k} == map[];
      assert ClosedTexts(s.texts, Some(k))[k := TextBlock(s.texts[k])] == ClosedTexts(s.texts, None);
    }
  }

  lemma SamePlaces(s: Server, t: Server)
    requires Placed(s) && t.textIndex == s.textIndex && t.nextIndex == s.nextIndex && t.texts == s.texts
        && |t.tools| == |s.tools|
    requires forall j :: 0 <= j < |s.tools| ==> t.tools[j].place == s.tools[j].place
    ensures Placed(t)
  {
    forall k: nat | k < t.nextIndex ensures k in t.texts || HasPlace(t.tools, k) {
      if k !in t.texts {
        var j :| 0 <= j < |s.tools| && s.tools[j].place == k;
        assert t.tools[j].place == k;
      }
    }
  }

  lemma NewPlace(s: Server, tool: Pending)
    requires Placed(s) && tool.place == s.nextIndex && s.textIndex == None
    ensures Placed(s.(tools := s.tools + [tool], nextIndex := s.nextIndex + 1))
  {
    var t := s.(tools := s.tools + [tool], nextIndex := s.nextIndex + 1);
    assert forall i :: 0 <= i < |s.tools| ==> t.tools[i] == s.tools[i];
    assert t.tools[|s.tools|] == tool;
    forall k: nat | k < t.nextIndex ensures k in t.texts || HasPlace(t.tools, k) {
      if k == s.nextIndex {
        assert t.tools[|s.tools|].place == k;
      } else if k !in t.texts {
        var j :| 0 <= j < |s.tools| && s.tools[j].place == k;
        assert t.tools[j].place == k;
      }
    }
  }

  lemma DeltaIsSound(s: Server, front: seq<Event>, events: seq<Event>)
    requires Sound(s, front) && events != [] && front == events[..|events| - 1] && events[|events| - 1].ToolDelta?
    ensures var e := events[|events| - 1];
            Sound(OnDelta(s, e.index, e.id, e.name, e.args), events)
  {
    hide Watched, Placed, FindKey;
    var e := events[|events| - 1];
    var s1 := CloseText(s);
    CloseIsSound(s);
    var t := OnDelta(s, e.index, e.id, e.name, e.args);
    var i := FindKey(s1.tools, e.index);
    if i < |s1.tools| {
      SamePlaces(s1, t);
    } else {
      NewPlace(s1, t.tools[|s1.tools|]);
      assert TextAt(s1.texts, s1.nextIndex) == "" by { NotYetUsed(s1); }
    }
  }

  // ---- the end of the stream ----

  function BlockOf(t: Pending): Block {
    ToolBlock(t.id, t.name, t.args)
  }

  /** These tools as blocks, by index. */
  ghost function BlocksOf(tools: seq<Pending>): map<nat, Block> {
    if tools == [] then map[]
        else BlocksOf(tools[..|tools| - 1])[tools[|tools| - 1].place := BlockOf(tools[|tools| - 1])]
  }

  lemma {:induction false} BlocksKeys(tools: seq<Pending>)
    ensures forall k :: k in BlocksOf(tools) <==> HasPlace(tools, k)
    ensures forall k :: k in BlocksOf(tools) ==> BlocksOf(tools)[k].ToolBlock?
    decreases |tools|
  {
    if tools != [] {
      var front, t := tools[..|tools| - 1], tools[|tools| - 1];
      BlocksKeys(front);
      forall k ensures HasPlace(tools, k) <==> HasPlace(front, k) || k == t.place {
        if HasPlace(front, k) {
          var i :| 0 <= i < |front| && front[i].place == k;
          assert tools[i].place == k;
        }
        assert tools[|tools| - 1].place == t.place;
      }
    }
  }

  /** Each tool's block carries its id, its name and all of its arguments. */
  lemma {:induction false} ToolIsItsBlock(tools: seq<Pending>, i: nat)
    requires i < |tools| && Rising(tools)
    ensures tools[i].place in BlocksOf(tools) && BlocksOf(tools)[tools[i].place] == BlockOf(tools[i])
    decreases |tools|
  {
    if i < |tools| - 1 {
      ToolIsItsBlock(tools[..|tools| - 1], i);
    }
  }

  lemma OneStarts(out: seq<Out>, t: Pending)
    requires Watched(out).Watching? && t.place !in Watched(out).open && t.place !in Watched(out).closed
    requires forall j :: j in Watched(out).open ==> Watched(out).open[j].ToolBlock?
    ensures Watched(out + ToolOut(t)) == Watching(Watched(out).open[t.place := BlockOf(t)], Watched(out).closed)
  {
    hide Watched;
    WatchedNext(out, ToolStart(t.place, t.id, t.name));
    if t.args != "" {
      WatchedNext(out + [ToolStart(t.place, t.id, t.name)], JsonPiece(t.place, t.args));
      assert out + ToolOut(t) == out + [ToolStart(t.place, t.id, t.name)] + [JsonPiece(t.place, t.args)];
      assert "" + t.args == t.args;
    } else {
      assert out + ToolOut(t) == out + [ToolStart(t.place, t.id, t.name)];
    }
  }

  lemma {:induction false} ToolsStart(out: seq<Out>, tools: seq<Pending>, closed: map<nat, Block>)
    requires Watched(out) == Watching(map[], closed) && Rising(tools)
    requires forall i :: 0 <= i < |tools| ==> tools[i].place !in closed
    ensures Watched(out + Starts(tools)) == Watching(BlocksOf(tools), closed)
    decreases |tools|
  {
    hide Watched, ToolOut, HasPlace;
    if tools == [] {
      assert out + Starts(tools) == out;
    } else {
      var front, t := tools[..|tools| - 1], tools[|tools| - 1];
      ToolsStart(out, front, closed);
      BlocksKeys(front);
      LastPlaceIsNew(tools);
      OneStarts(out + Starts(front), t);
      assert out + Starts(tools) == out + Starts(front) + ToolOut(t);
    }
  }

  /** Of the started blocks, those not among the first tools. */
  ghost function StillOpen(blocks: map<nat, Block>, stopped: seq<Pending>): map<nat, Block> {
    map k | k in blocks && !HasPlace(stopped, k) :: blocks[k]
  }

  lemma OneFewerOpen(blocks: map<nat, Block>, stopped: seq<Pending>)
    requires stopped != [] && Rising(stopped) && stopped[|stopped| - 1].place in blocks
    ensures var t := stopped[|stopped| - 1];
            var before := StillOpen(blocks, stopped[..|stopped| - 1]);
            t.place in before && before[t.place] == blocks[t.place] && StillOpen(blocks, stopped) == before - {t.place}
  {
    LastPlaceIsNew(stopped);
    OneMorePlace(stopped);
    hide HasPlace;
  }

  /** Stopping the first tools of those that were started. */
  lemma {:induction false} ToolsStop(out: seq<Out>, tools: seq<Pending>, n: nat, closed: map<nat, Block>)
    requires n <= |tools| && Watched(out) == Watching(BlocksOf(tools), closed) && Rising(tools)
    ensures Watched(out + Stops(tools[..n]))
        == Watching(StillOpen(BlocksOf(tools), tools[..n]), closed + BlocksOf(tools[..n]))
  {
    hide Watched, StillOpen, BlocksOf, Stops, Rising;
    if n == 0 {
      NoStops(tools[..0]);
      assert out + [] == out;
      NoneStopped(BlocksOf(tools), tools[..0]);
      assert closed + map[] == closed;
    } else {
      ToolsStop(out, tools, n - 1, closed);
      var t := tools[n - 1];
      assert tools[..n][..n - 1] == tools[..n - 1];
      ToolIsItsBlock(tools, n - 1);
      RisingPrefix(tools, n);
      OneFewerOpen(BlocksOf(tools), tools[..n]);
      WatchedNext(out + Stops(tools[..n - 1]), BlockStop(t.place));
      StopsOneMore(tools, n - 1);
      assert out + Stops(tools[..n]) == out + Stops(tools[..n - 1]) + [BlockStop(t.place)];
      BlocksOneMore(tools[..n]);
      assert (closed + BlocksOf(tools[..n - 1]))[t.place := BlockOf(t)] == closed + BlocksOf(tools[..n]);
    }
  }

  lemma RisingPrefix(tools: seq<Pending>, n: nat)
    requires n <= |tools| && Rising(tools)
    ensures Rising(tools[..n])
  {
  }

  lemma BlocksOneMore(tools: seq<Pending>)
    requires tools != []
    ensures BlocksOf(tools) == BlocksOf(tools[..|tools| - 1])[tools[|tools| - 1].place := BlockOf(tools[|tools| - 1])]
  {
  }

  lemma NoneStopped(blocks: map<nat, Block>, stopped: seq<Pending>)
    requires stopped == []
    ensures StillOpen(blocks, stopped) == blocks && BlocksOf(stopped) == map[]
  {
  }

  /** All blocks of a stream: its texts and its tools, by index. */
  ghost function AllBlocks(s: Server): map<nat, Block> {
    ClosedTexts(s.texts, None) + BlocksOf(s.tools)
  }

  lemma ClosedThenTools(s: Server)
    requires Placed(s) && Watched(s.out) == Expected(s)
    ensures var t := CloseText(s);
            && Watched(t.out) == Watching(map[], ClosedTexts(s.texts, None)) && t.tools == s.tools && Rising(s.tools)
            && t.outputTokens == s.outputTokens && t.texts == s.texts
            && forall i :: 0 <= i < |s.tools| ==> s.tools[i].place !in ClosedTexts(s.texts, None)
  {
    CloseIsSound(s);
    hide Watched, HasPlace;
  }

  lemma DenseBlocks(s: Server)
    requires Placed(s)
    ensures forall k: nat :: k in AllBlocks(s) <==> k < s.nextIndex
  {
    BlocksKeys(s.tools);
    assert forall k: nat :: HasPlace(s.tools, k) ==> k < s.nextIndex;
    hide HasPlace, BlocksOf;
  }

  lemma AllStopped(tools: seq<Pending>)
    ensures StillOpen(BlocksOf(tools), tools) == map[]
  {
    BlocksKeys(tools);
    hide HasPlace, BlocksOf;
  }

  lemma CompletionIsObserved(s: Server, reason: Finish, usable: string -> bool)
    requires Placed(s) && Watched(s.out) == Expected(s) && FirstMalformed(s.tools, usable) == |s.tools|
    ensures Watched(OnCompleted(s, reason, usable).out) == Finished(AllBlocks(s), reason)
  {
    hide Watched, Placed, Expected, CloseText, Starts, Stops, BlocksOf, ClosedTexts, StillOpen, FirstMalformed;
    ClosedThenTools(s);
    AlreadySorted(s.tools);
    hide SortByPlace, Rising;
    var out := CloseText(s).out;
    ToolsStart(out, s.tools, ClosedTexts(s.texts, None));
    ToolsStop(out + Starts(s.tools), s.tools, |s.tools|, ClosedTexts(s.texts, None));
    assert s.tools[..|s.tools|] == s.tools;
    AllStopped(s.tools);
    var all := out + Starts(s.tools) + Stops(s.tools);
    WatchedNext(all, MessageDelta(reason, s.outputTokens));
    WatchedNext(all + [MessageDelta(reason, s.outputTokens)], MessageStop);
    assert OnCompleted(s, reason, usable).out == all + [MessageDelta(reason, s.outputTokens)] + [MessageStop];
  }

  lemma MalformedIsObserved(s: Server, reason: Finish, usable: string -> bool)
    requires Placed(s) && Watched(s.out) == Expected(s) && FirstMalformed(s.tools, usable) < |s.tools|
    ensures Watched(OnCompleted(s, reason, usable).out)
         == Failing(BlocksOf(s.tools[..FirstMalformed(s.tools, usable)]), ClosedTexts(s.texts, None), MALFORMED)
  {
    hide Watched, Placed, Expected, CloseText, Starts, BlocksOf, ClosedTexts, FirstMalformed;
    ClosedThenTools(s);
    AlreadySorted(s.tools);
    hide SortByPlace;
    var out := CloseText(s).out;
    var m := FirstMalformed(s.tools, usable);
    ToolsStart(out, s.tools[..m], ClosedTexts(s.texts, None));
    var all := out + Starts(s.tools[..m]);
    WatchedNext(all, ErrorOut(MALFORMED));
    WatchedNext(all + [ErrorOut(MALFORMED)], MessageStop);
    assert OnCompleted(s, reason, usable).out == all + [ErrorOut(MALFORMED)] + [MessageStop];
  }

  lemma SoundParts(s: Server, events: seq<Event>)
    requires Sound(s, events)
    ensures !s.ended && Placed(s) && Watched(s.out) == Expected(s) && Joined(s.texts, s.nextIndex) == TextOf(events)
  {
    hide Watched, Placed, Expected;
  }

  lemma NextServed(front: seq<Event>, e: Event, usable: string -> bool)
    ensures Served(front + [e], usable) == Serve(Served(front, usable), e, usable)
  {
    assert (front + [e])[..|front|] == front;
  }

  /**
   * A stream that ends in a completion with usable arguments keeps the protocol to the end: every
   * block index from zero to the last is started once and stopped once, no text block is open while
   * a tool block starts, the text blocks together are the whole text, and the summary gives the reason.
   */
  lemma CompletedStreamIsWellFormed(events: seq<Event>, usable: string -> bool)
    requires EndsCompleted(events)
    requires var tools := Served(events[..|events| - 1], usable).tools; FirstMalformed(tools, usable) == |tools|
    ensures var front := Served(events[..|events| - 1], usable);
            && Watched(Served(events, usable).out) == Finished(AllBlocks(front), events[|events| - 1].reason)
            && (forall k: nat :: k in AllBlocks(front) <==> k < front.nextIndex)
            && Joined(front.texts, front.nextIndex) == TextOf(events)
  {
    hide Watched, Placed, Expected, OnCompleted, FirstMalformed, Served, AllBlocks, Running, Sound;
    var front, e := events[..|events| - 1], events[|events| - 1];
    RunningIsSound(front, usable);
    SoundParts(Served(front, usable), front);
    assert events == front + [e];
    NextServed(front, e, usable);
    CompletionIsObserved(Served(front, usable), e.reason, usable);
    DenseBlocks(Served(front, usable));
  }

  /**
   * With a malformed call the message fails, and exactly the tools before the first malformed one, in
   * block order, have been shown, open and never stopped. So no tool is shown exactly when the very
   * first one is malformed.
   */
  lemma MalformedStreamShowsThePrefix(events: seq<Event>, usable: string -> bool)
    requires EndsCompleted(events)
    requires var tools := Served(events[..|events| - 1], usable).tools; FirstMalformed(tools, usable) < |tools|
    ensures var front := Served(events[..|events| - 1], usable);
            var m := FirstMalformed(front.tools, usable);
            && Watched(Served(events, usable).out) == Failing(BlocksOf(front.tools[..m]),
                ClosedTexts(front.texts, None), MALFORMED)
            && (BlocksOf(front.tools[..m]) == map[] <==> !usable(front.tools[0].args))
  {
    hide Watched, Placed, Expected, OnCompleted, FirstMalformed, Served, Running, Sound, BlocksOf;
    var front, e := events[..|events| - 1], events[|events| - 1];
    RunningIsSound(front, usable);
    SoundParts(Served(front, usable), front);
    assert events == front + [e];
    NextServed(front, e, usable);
    var s := Served(front, usable);
    MalformedIsObserved(s, e.reason, usable);
    ShownFirst(s.tools, FirstMalformed(s.tools, usable));
  }

  lemma ShownFirst(tools: seq<Pending>, m: nat)
    requires m <= |tools|
    ensures BlocksOf(tools[..m]) == map[] <==> m == 0
  {
    if m > 0 {
      assert tools[m - 1].place in BlocksOf(tools[..m]);
    }
  }

  /** On an error of the provider no tool was ever shown: at most one text block is open. */
  lemma ErrorShowsNoTool(events: seq<Event>, usable: string -> bool)
    requires events != [] && events[|events| - 1].Error? && Running(events[..|events| - 1])
    ensures var m := Watched(Served(events, usable).out);
            m.Failing? && m.error == events[|events| - 1].error
            && (forall k :: k in m.open ==> m.open[k].TextBlock?)
                && (forall k :: k in m.closed ==> m.closed[k].TextBlock?)
  {
    hide Watched, Placed, Expected, Served, Running, Sound, OnText, OnDelta, OnCompleted, TextOf, Joined;
    var front, e := events[..|events| - 1], events[|events| - 1];
    RunningIsSound(front, usable);
    SoundParts(Served(front, usable), front);
    assert events == front + [e];
    NextServed(front, e, usable);
    WatchedNext(Served(front, usable).out, ErrorOut(e.error));
    OnlyTexts(Served(front, usable));
  }

  lemma OnlyTexts(s: Server)
    ensures var m := Expected(s);
            m.Watching? && (forall k :: k in m.open ==> m.open[k].TextBlock?)
                && (forall k :: k in m.closed ==> m.closed[k].TextBlock?)
  {
  }

  // ---- what a tool block is made of ----

  /** Every field but the name agrees with the call the Chat surface collects. */
  ghost predicate SameButName(tools: seq<Pending>, calls: seq<Call>) {
    |tools| == |calls| && forall i :: 0 <= i < |tools| ==>
        tools[i].key == calls[i].index && tools[i].id == calls[i].id && tools[i].args == calls[i].args
  }

  /** The name that came with the first fragment of a tool. */
  function FirstName(events: seq<Event>, key: nat): string {
    if events == [] then ""
    else if events[0].ToolDelta? && events[0].index == key then Or(events[0].name)
    else FirstName(events[1..], key)
  }

  predicate Begun(events: seq<Event>, key: nat) {
    exists i :: 0 <= i < |events| && events[i].ToolDelta? && events[i].index == key
  }

  lemma {:induction false} FirstNameMore(front: seq<Event>, e: Event, key: nat)
    ensures Begun(front, key) ==> FirstName(front + [e], key) == FirstName(front, key)
    ensures !Begun(front, key) && e.ToolDelta? && e.index == key ==> FirstName(front + [e], key) == Or(e.name)
    ensures Begun(front + [e], key) <==> Begun(front, key) || (e.ToolDelta? && e.index == key)
    decreases |front|
  {
    var all := front + [e];
    if front == [] {
      assert all == [e] && all[0] == e;
    } else {
      assert all[1..] == front[1..] + [e] && all[0] == front[0];
      FirstNameMore(front[1..], e, key);
      assert forall k :: Begun(front, k) <==>
          (front[0].ToolDelta? && front[0].index == k) || Begun(front[1..], k) by { BegunHead(front); }
      BegunHead(all);
    }
  }

  lemma BegunHead(events: seq<Event>)
    requires events != []
    ensures forall k :: Begun(events, k) <==> (events[0].ToolDelta? && events[0].index == k) || Begun(events[1..], k)
  {
    forall k | Begun(events, k) ensures (events[0].ToolDelta? && events[0].index == k) || Begun(events[1..], k) {
      var i :| 0 <= i < |events| && events[i].ToolDelta? && events[i].index == k;
      if i > 0 {
        assert events[1..][i - 1] == events[i];
      }
    }
    forall k | Begun(events[1..], k) ensures Begun(events, k) {
      var i :| 0 <= i < |events[1..]| && events[1..][i].ToolDelta? && events[1..][i].index == k;
      assert events[i + 1] == events[1..][i];
    }
  }

  ghost predicate NamedFirst(tools: seq<Pending>, events: seq<Event>) {
    && (forall i :: 0 <= i < |tools| ==>
        Begun(events, tools[i].key) && tools[i].name == FirstName(events, tools[i].key))
    && (forall k :: Begun(events, k) ==> FindKey(tools, k) < |tools|)
  }

  /**
   * A tool block carries the same id and all of the same arguments as on the Chat surface, and the first name that was
   * sent.
   */
  lemma {:induction false} ToolsGatherEverything(events: seq<Event>, usable: string -> bool)
    requires Running(events)
    ensures !Served(events, usable).ended && !Streamed(events, usable).ended
    ensures SameButName(Served(events, usable).tools, Streamed(events, usable).calls)
    ensures NamedFirst(Served(events, usable).tools, events)
    decreases |events|
  {
    hide SameButName, NamedFirst, FindKey, FindIndex;
    if events == [] {
      NothingGathered();
    } else {
      var front, e := events[..|events| - 1], events[|events| - 1];
      assert forall x :: x in front ==> x in events;
      ToolsGatherEverything(front, usable);
      assert events == front + [e];
      if e.ToolDelta? {
        SameCollected(Served(front, usable), Streamed(front, usable).calls, e);
        GatheredTool(Served(front, usable), front, e);
      } else {
        NoFragment(Served(front, usable).tools, front, e);
      }
    }
  }

  lemma NothingGathered()
    ensures SameButName([], []) && NamedFirst([], [])
  {
  }

  lemma NoFragment(tools: seq<Pending>, front: seq<Event>, e: Event)
    requires NamedFirst(tools, front) && !e.ToolDelta?
    ensures NamedFirst(tools, front + [e])
  {
    hide Begun, FirstName, FindKey;
    forall k ensures (Begun(front + [e], k) <==> Begun(front, k))
        && (Begun(front, k) ==> FirstName(front + [e], k) == FirstName(front, k)) {
      FirstNameMore(front, e, k);
    }
  }

  lemma SameLookup(tools: seq<Pending>, calls: seq<Call>, key: nat)
    requires SameButName(tools, calls)
    ensures FindKey(tools, key) == FindIndex(calls, key)
  {
    var i, j := FindKey(tools, key), FindIndex(calls, key);
    assert i < |tools| ==> calls[i].index == key;
    assert j < |calls| ==> tools[j].key == key;
  }

  lemma DeltaTools(s: Server, e: Event)
    requires e.ToolDelta?
    ensures var i := FindKey(s.tools, e.index);
            var place := CloseText(s).nextIndex;
            OnDelta(s, e.index, e.id, e.name, e.args).tools
              == if i < |s.tools| then s.tools[i := s.tools[i].(args := s.tools[i].args + Or(e.args))]
                 else s.tools + [Pending(e.index, place, e.id, Or(e.name), Or(e.args))]
  {
    hide FindKey;
    assert "" + Or(e.args) == Or(e.args);
  }

  lemma SameCollected(s: Server, calls: seq<Call>, e: Event)
    requires e.ToolDelta? && SameButName(s.tools, calls)
    ensures SameButName(OnDelta(s, e.index, e.id, e.name, e.args).tools, Collect(calls, e))
  {
    hide FindKey, FindIndex, OnDelta, CloseText;
    SameLookup(s.tools, calls, e.index);
    DeltaTools(s, e);
    assert "" + Or(e.args) == Or(e.args);
  }

  /** What a fragment does to the tools: it lengthens one, or begins one. */
  lemma OneToolChanges(s: Server, e: Event)
    requires e.ToolDelta?
    ensures var tools := OnDelta(s, e.index, e.id, e.name, e.args).tools;
            var i := FindKey(s.tools, e.index);
            && |tools| == (if i < |s.tools| then |s.tools| else |s.tools| + 1)
            && (forall j :: 0 <= j < |s.tools| ==> tools[j].key == s.tools[j].key && tools[j].name == s.tools[j].name)
            && (i == |s.tools| ==> tools[i].key == e.index && tools[i].name == Or(e.name))
  {
    hide FindKey;
  }

  lemma GatheredTool(s: Server, front: seq<Event>, e: Event)
    requires e.ToolDelta? && NamedFirst(s.tools, front)
    ensures NamedFirst(OnDelta(s, e.index, e.id, e.name, e.args).tools, front + [e])
  {
    hide FindKey, Begun, FirstName, OnDelta;
    OneToolChanges(s, e);
    AbsentTool(s.tools, front, e.index);
    var tools := OnDelta(s, e.index, e.id, e.name, e.args).tools;
    forall k ensures Begun(front + [e], k) <==> Begun(front, k) || k == e.index {
      FirstNameMore(front, e, k);
    }
    forall i | 0 <= i < |tools| ensures Begun(front + [e], tools[i].key)
        && tools[i].name == FirstName(front + [e], tools[i].key) {
      FirstNameMore(front, e, tools[i].key);
    }
    forall k | Begun(front + [e], k) ensures FindKey(tools, k) < |tools| {
      FoundAfter(s.tools, tools, e.index, k);
    }
  }

  lemma AbsentTool(tools: seq<Pending>, front: seq<Event>, key: nat)
    requires NamedFirst(tools, front)
    ensures FindKey(tools, key) == |tools| ==> !Begun(front, key)
  {
    hide Begun;
  }

  lemma FoundAfter(a: seq<Pending>, b: seq<Pending>, key: nat, k: nat)
    requires |b| >= |a| && (forall i :: 0 <= i < |a| ==> b[i].key == a[i].key)
    requires (FindKey(a, key) == |a| ==> |b| == |a| + 1 && b[|a|].key == key)
    requires FindKey(a, k) < |a| || k == key
    ensures FindKey(b, k) < |b|
  {
    if FindKey(a, k) < |a| {
      assert b[FindKey(a, k)].key == k;
    } else {
      assert b[|a|].key == k;
    }
  }

  // ---- the summary ----

  /** `n` is the last output size that the provider reported, or zero. */
  ghost predicate LastOutput(n: nat, events: seq<Event>) {
    && (forall i | 0 <= i < |events| && events[i].Usage? && events[i].output.Some?
                   && forall j :: i < j < |events| && events[j].Usage? ==> events[j].output.None? ::
          n == events[i].output.value)
    && ((forall i :: 0 <= i < |events| && events[i].Usage? ==> events[i].output.None?) ==> n == 0)
  }

  lemma {:induction false} OutputIsTheLast(events: seq<Event>, usable: string -> bool)
    requires Running(events)
    ensures LastOutput(Served(events, usable).outputTokens, events)
    decreases |events|
  {
    hide LastOutput, OnText, OnDelta, OnCompleted;
    if events == [] {
      assert LastOutput(0, []) by { NothingReported(); }
    } else {
      var front, e := events[..|events| - 1], events[|events| - 1];
      assert e in events && forall x :: x in front ==> x in events;
      OutputIsTheLast(front, usable);
      RunningIsSound(front, usable);
      SoundRuns(Served(front, usable), front);
      assert events == front + [e];
      ServedOutput(Served(front, usable), e, usable);
      OutputMore(Served(front, usable).outputTokens, front, e);
    }
  }

  lemma NothingReported()
    ensures LastOutput(0, [])
  {
  }

  lemma ServedOutput(s: Server, e: Event, usable: string -> bool)
    requires !s.ended && !e.Completed? && !e.Error?
    ensures Serve(s, e, usable).outputTokens
         == if e.Usage? && e.output.Some? then e.output.value else s.outputTokens
  {
    hide FindKey;
  }

  lemma OutputMore(n: nat, front: seq<Event>, e: Event)
    requires LastOutput(n, front)
    ensures LastOutput(if e.Usage? && e.output.Some? then e.output.value else n, front + [e])
  {
    var events := front + [e];
    assert forall i :: 0 <= i < |front| ==> events[i] == front[i];
    assert events[|front|] == e;
  }

  /** A completed stream ends with the reason of the completion and the last output size that was reported. */
  lemma SummaryIsTheLast(events: seq<Event>, usable: string -> bool) returns (n: nat)
    requires EndsCompleted(events)
    requires var tools := Served(events[..|events| - 1], usable).tools; FirstMalformed(tools, usable) == |tools|
    ensures LastOutput(n, events[..|events| - 1])
    ensures var out := Served(events, usable).out;
            |out| >= 2 && out[|out| - 2..] == [MessageDelta(events[|events| - 1].reason, n), MessageStop]
  {
    hide Served, FirstMalformed, Running, LastOutput, Sound, Starts, Stops, Placed, Watched, Expected;
    var front, e := events[..|events| - 1], events[|events| - 1];
    var s := Served(front, usable);
    OutputIsTheLast(front, usable);
    RunningIsSound(front, usable);
    SoundParts(s, front);
    PlacedTools(s);
    AlreadySorted(s.tools);
    hide SortByPlace, Rising;
    assert events == front + [e];
    NextServed(front, e, usable);
    n := s.outputTokens;
  }

  lemma PlacedTools(s: Server)
    requires Placed(s)
    ensures Rising(s.tools)
  {
    hide HasPlace;
  }

  // ---- the handler ----

  method StreamMessages(events: seq<Event>, usable: string -> bool) returns (out: seq<Out>)
    ensures out == Served(events, usable).out
  {
    hide FindKey, OnCompleted, Served;
    out := [MessageStart];
    var nextIndex: nat, textIndex: Option<nat>, tools: seq<Pending>, outputTokens: nat := 0, None, [], 0;
    ghost var texts: map<nat, string> := map[];
    StartsServing(usable);
    for i := 0 to |events|
      invariant Served(events[..i], usable) == Server(out, nextIndex, textIndex, tools, outputTokens, false, texts)
    {
      var event := events[i];
      NextServed(events[..i], event, usable);
      assert events[..i + 1] == events[..i] + [event];
      match event
      case Text(text) =>
        if textIndex == None {
          textIndex := Some(nextIndex);
          nextIndex := nextIndex + 1;
          out := out + [TextStart(textIndex.value)];
        }
        out := out + [TextPiece(textIndex.value, text)];
        texts := texts[textIndex.value := TextAt(texts, textIndex.value) + text];
      case ToolDelta(index, id, name, args) =>
        if textIndex.Some? {
          out := out + [BlockStop(textIndex.value)];
          textIndex := None;
        }
        var k := FindKey(tools, index);
        if k == |tools| {
          tools := tools + [Pending(index, nextIndex, id, Or(name), "")];
          nextIndex := nextIndex + 1;
        }
        tools := tools[k := tools[k].(args := tools[k].args + Or(args))];
      case Usage(_, output) =>
        if output.Some? {
          outputTokens := output.value;
        }
      case Completed(reason) =>
        EndsServing(Server(out, nextIndex, textIndex, tools, outputTokens, false, texts), reason, usable);
        out := Complete(out, nextIndex, textIndex, tools, outputTokens, texts, reason, usable);
        EndedIsServed(events, i + 1, usable);
        return;
      case Error(error) =>
        out := out + [ErrorOut(error)];
        EndedIsServed(events, i + 1, usable);
        return;
    }
    assert events[..|events|] == events;
  }

  /** Checks and shows the tools one after the other, and stops them together at the end. */
  method Complete(sent: seq<Out>, nextIndex: nat, textIndex: Option<nat>, tools: seq<Pending>, outputTokens: nat,
                  ghost texts: map<nat, string>, reason: Finish, usable: string -> bool) returns (out: seq<Out>)
    ensures out == OnCompleted(Server(sent, nextIndex, textIndex, tools, outputTokens, false, texts),
        reason, usable).out
  {
    hide Starts, Stops, SortByPlace, FirstMalformed;
    out := sent;
    if textIndex.Some? {
      out := out + [BlockStop(textIndex.value)];
    }
    var ordered := SortByPlace(tools);
    var shown, valid := ShowTools(ordered, usable);
    out := out + shown;
    if valid < |ordered| {
      out := out + [ErrorOut(MALFORMED), MessageStop];
      return;
    }
    assert ordered[..|ordered|] == ordered;
    var before := out;
    assert Stops(ordered[..0]) == [] by { NoStops(ordered[..0]); }
    for i := 0 to |ordered|
      invariant out == before + Stops(ordered[..i])
    {
      StopsOneMore(ordered, i);
      out := out + [BlockStop(ordered[i].place)];
    }
    out := out + [MessageDelta(reason, outputTokens), MessageStop];
  }

  lemma StopsOneMore(tools: seq<Pending>, i: nat)
    requires i < |tools|
    ensures Stops(tools[..i + 1]) == Stops(tools[..i]) + [BlockStop(tools[i].place)]
  {
    assert tools[..i + 1][..i] == tools[..i];
  }

  lemma NoStops(tools: seq<Pending>)
    requires tools == []
    ensures Stops(tools) == []
  {
  }

  /** Shows one tool after the other, up to the first that is malformed. */
  method ShowTools(ordered: seq<Pending>, usable: string -> bool) returns (shown: seq<Out>, valid: nat)
    ensures valid == FirstMalformed(ordered, usable)
    ensures shown == Starts(ordered[..valid])
  {
    hide ToolOut;
    shown, valid := [], 0;
    while valid < |ordered| && usable(ordered[valid].args)
      invariant valid <= |ordered| && forall j :: 0 <= j < valid ==> usable(ordered[j].args)
      invariant shown == Starts(ordered[..valid])
    {
      assert ordered[..valid + 1][..valid] == ordered[..valid];
      shown := shown + ToolOut(ordered[valid]);
      valid := valid + 1;
    }
  }

  lemma StartsServing(usable: string -> bool)
    ensures Served([], usable) == Begin()
  {
  }

  lemma EndsServing(s: Server, reason: Finish, usable: string -> bool)
    ensures OnCompleted(s, reason, usable).ended
  {
  }

  lemma {:induction false} EndedIsServed(events: seq<Event>, i: nat, usable: string -> bool)
    requires i <= |events| && Served(events[..i], usable).ended
    ensures Served(events, usable) == Served(events[..i], usable)
    decreases |events|
  {
    if i < |events| {
      assert events[..|events| - 1][..i] == events[..i];
      EndedIsServed(events[..|events| - 1], i, usable);
    } else {
      assert events[..i] == events;
    }
  }
}
