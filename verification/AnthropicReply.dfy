/**
 * The Anthropic message a client gathers, and the one it is streamed. The first keys calls by id, keeps the
 * last name and sorts by index; the second keys by index, keeps the first name and keeps their order.
 */
module AnthropicReply {
  import opened Options
  import opened ChatStream
  import opened PendingCalls
  import opened AnthropicStream

  /** What is sent to a client that does not stream; the text block is left out when the text is empty. */
  datatype Message = Message(text: string, tools: seq<Block>, stop: Finish)

  // ---- the gathered message ----

  /** Keyed by id, with the index and place of the first fragment; an empty name never replaces one. */
  function Absorbed(calls: seq<Call>, e: Event): seq<Call>
    requires e.ToolDelta?
  {
    var k := FindId(calls, e.id);
    var existing := if k < |calls| then calls[k] else Call(e.index, e.id, Or(e.name), "");
    SetAt(calls, k, existing.(name := if Or(e.name) != "" then Or(e.name)
        else existing.name, args := existing.args + Or(e.args)))
  }

  function AbsorbedAll(events: seq<Event>): seq<Call> {
    if events == [] then []
    else
      var before, e := AbsorbedAll(events[..|events| - 1]), events[|events| - 1];
      if e.ToolDelta? then Absorbed(before, e) else before
  }

  function ToolBlocks(calls: seq<Call>): (r: seq<Block>)
    ensures |r| == |calls| && forall i :: 0 <= i < |calls| ==>
        r[i] == ToolBlock(calls[i].id, calls[i].name, calls[i].args)
  {
    if calls == [] then []
    else
      var c := calls[|calls| - 1];
      ToolBlocks(calls[..|calls| - 1]) + [ToolBlock(c.id, c.name, c.args)]
  }

  function StopOf(events: seq<Event>): Finish {
    if events == [] then Stop
    else if events[|events| - 1].Completed? then events[|events| - 1].reason
    else StopOf(events[..|events| - 1])
  }

  function FirstError(events: seq<Event>): Option<Failure> {
    if events == [] then None else if events[0].Error? then Some(events[0].error) else FirstError(events[1..])
  }

  /** The first error of the provider, a malformed call, or the message. */
  function MessageOf(events: seq<Event>, usable: string -> bool): Result<Message, Failure> {
    var calls := SortByIndex(AbsorbedAll(events));
    if FirstError(events).Some? then Err(FirstError(events).value)
    else if !AllUsable(calls, usable) then Err(MALFORMED)
    else Ok(Message(TextOf(events), ToolBlocks(calls), StopOf(events)))
  }

  lemma {:induction false} NoErrorSoFar(events: seq<Event>, i: nat)
    requires i < |events| && events[i].Error? && forall j :: 0 <= j < i ==> !events[j].Error?
    ensures FirstError(events) == Some(events[i].error)
    decreases i
  {
    if i > 0 {
      NoErrorSoFar(events[1..], i - 1);
    }
  }

  lemma {:induction false} NoErrorAtAll(events: seq<Event>)
    requires forall e :: e in events ==> !e.Error?
    ensures FirstError(events) == None
  {
    if events != [] {
      NoErrorAtAll(events[1..]);
    }
  }

  method GatherMessage(events: seq<Event>, usable: string -> bool) returns (r: Result<Message, Failure>)
    ensures r == MessageOf(events, usable)
    ensures forall i | 0 <= i < |events| && events[i].Error? && (forall j :: 0 <= j < i ==> !events[j].Error?) ::
              r == Err(events[i].error)
  {
    hide Absorbed, SortByIndex, AllUsable, ToolBlocks;
    var text, calls: seq<Call>, stop := "", [], Stop;
    for i := 0 to |events|
      invariant text == TextOf(events[..i]) && calls == AbsorbedAll(events[..i]) && stop == StopOf(events[..i])
      invariant forall j :: 0 <= j < i ==> !events[j].Error?
    {
      assert events[..i + 1][..i] == events[..i];
      match events[i]
      case Text(delta) => text := text + delta;
      case ToolDelta(_, _, _, _) => calls := Absorbed(calls, events[i]);
      case Usage(_, _) =>
      case Completed(reason) => stop := reason;
      case Error(error) =>
        NoErrorSoFar(events, i);
        return Err(error);
    }
    assert events[..|events|] == events;
    NoErrorAtAll(events);
    var content := ToolContent(SortByIndex(calls), usable);
    r := if content.Err? then Err(content.error) else Ok(Message(text, content.value, stop));
  }

  /** A call whose arguments are malformed fails the message; nothing is made up in their place. */
  method ToolContent(ordered: seq<Call>, usable: string -> bool) returns (content: Result<seq<Block>, Failure>)
    ensures content == if AllUsable(ordered, usable) then Ok(ToolBlocks(ordered)) else Err(MALFORMED)
  {
    var blocks: seq<Block> := [];
    for i := 0 to |ordered|
      invariant blocks == ToolBlocks(ordered[..i]) && forall j :: 0 <= j < i ==> usable(ordered[j].args)
    {
      if !usable(ordered[i].args) {
        assert ordered[i] in ordered;
        return Err(MALFORMED);
      }
      assert ordered[..i + 1][..i] == ordered[..i];
      blocks := blocks + [ToolBlock(ordered[i].id, ordered[i].name, ordered[i].args)];
    }
    assert ordered[..|ordered|] == ordered;
    content := Ok(blocks);
  }

  // ---- what a client that streams has at the end ----

  function TextsIn(blocks: map<nat, Block>, n: nat): string {
    if n == 0 then ""
    else
      var k := n - 1;
      TextsIn(blocks, k) + if k in blocks && blocks[k].TextBlock? then blocks[k].text else ""
  }

  /** The tool blocks by rising index. */
  function ToolsIn(blocks: map<nat, Block>, n: nat): seq<Block> {
    if n == 0 then []
    else
      var k := n - 1;
      ToolsIn(blocks, k) + if k in blocks && blocks[k].ToolBlock? then [blocks[k]] else []
  }

  function ShownBlocks(tools: seq<Pending>): (r: seq<Block>)
    ensures |r| == |tools| && forall i :: 0 <= i < |tools| ==> r[i] == BlockOf(tools[i])
  {
    if tools == [] then [] else ShownBlocks(tools[..|tools| - 1]) + [BlockOf(tools[|tools| - 1])]
  }

  lemma {:induction false} AllTextsShown(s: Server, n: nat)
    requires Placed(s) && n <= s.nextIndex
    ensures TextsIn(AllBlocks(s), n) == Joined(s.texts, n)
  {
    hide BlocksOf, HasPlace;
    if n > 0 {
      AllTextsShown(s, n - 1);
      BlockKinds(s, n - 1);
      hide AllBlocks, Placed;
    }
  }

  /** A block index belongs to a text block or to a tool. */
  lemma BlockKinds(s: Server, k: nat)
    requires Placed(s) && k < s.nextIndex
    ensures k in AllBlocks(s)
    ensures k in s.texts ==> AllBlocks(s)[k] == TextBlock(s.texts[k])
    ensures k !in s.texts ==> HasPlace(s.tools, k) && AllBlocks(s)[k].ToolBlock?
  {
    BlocksKeys(s.tools);
    hide BlocksOf;
  }

  lemma PlacedRises(s: Server)
    requires Placed(s)
    ensures Rising(s.tools)
  {
    hide HasPlace;
  }

  /** The tools placed below `n` are the first `c`. */
  ghost predicate Below(tools: seq<Pending>, n: nat, c: nat) {
    c <= |tools| && forall i :: 0 <= i < |tools| ==> (i < c <==> tools[i].place < n)
  }

  lemma NoneBelow(tools: seq<Pending>, c: nat)
    requires Below(tools, 0, c)
    ensures c == 0
  {
    if 0 < |tools| {
      var first := tools[0].place;
      assert first >= 0;
    }
  }

  lemma OneBelow(tools: seq<Pending>, n: nat, c: nat)
    requires Rising(tools) && Below(tools, n + 1, c) && HasPlace(tools, n)
    ensures 0 < c <= |tools| && tools[c - 1].place == n && Below(tools, n, c - 1)
  {
    var i :| 0 <= i < |tools| && tools[i].place == n;
    if i + 1 < |tools| {
      assert tools[i].place < tools[i + 1].place;
    }
    assert i + 1 == c;
  }

  lemma NoMoreBelow(tools: seq<Pending>, n: nat, c: nat)
    requires Below(tools, n + 1, c) && !HasPlace(tools, n)
    ensures Below(tools, n, c)
  {
  }

  lemma OneMoreShown(tools: seq<Pending>, i: nat)
    requires i < |tools|
    ensures ShownBlocks(tools[..i + 1]) == ShownBlocks(tools[..i]) + [BlockOf(tools[i])]
  {
    assert tools[..i + 1][..i] == tools[..i];
  }

  lemma BlockOfPlace(s: Server, n: nat)
    requires Placed(s) && n < s.nextIndex
    ensures n in AllBlocks(s) && (AllBlocks(s)[n].ToolBlock? <==> HasPlace(s.tools, n))
  {
    BlockKinds(s, n);
    hide AllBlocks;
    if n in s.texts {
      PlacesApart(s, n);
    }
  }

  lemma PlacesApart(s: Server, n: nat)
    requires Placed(s) && n in s.texts
    ensures !HasPlace(s.tools, n)
  {
  }

  /** The tools placed below `n` have their blocks shown in their order. */
  lemma {:induction false} AllToolsShown(s: Server, n: nat, c: nat)
    requires Placed(s) && n <= s.nextIndex && Below(s.tools, n, c)
    ensures ToolsIn(AllBlocks(s), n) == ShownBlocks(s.tools[..c])
  {
    hide AllBlocks, Placed, HasPlace, Below, Rising, BlockOf;
    PlacedRises(s);
    if n == 0 {
      NoneBelow(s.tools, c);
    } else {
      BlockOfPlace(s, n - 1);
      if HasPlace(s.tools, n - 1) {
        OneBelow(s.tools, n - 1, c);
        AllToolsShown(s, n - 1, c - 1);
        ToolShown(s, c - 1);
        OneMoreShown(s.tools, c - 1);
      } else {
        NoMoreBelow(s.tools, n - 1, c);
        AllToolsShown(s, n - 1, c);
      }
    }
  }

  lemma ToolShown(s: Server, i: nat)
    requires Placed(s) && i < |s.tools|
    ensures s.tools[i].place in AllBlocks(s) && AllBlocks(s)[s.tools[i].place] == BlockOf(s.tools[i])
  {
    ToolIsItsBlock(s.tools, i);
    hide BlocksOf, HasPlace;
  }

  // ---- the two gather the same calls ----

  lemma {:induction false} AbsorbedIsGathered(events: seq<Event>)
    requires OneToOne(events) && Running(events)
    ensures Aggregated(events).Ok? && AbsorbedAll(events) == Aggregated(events).value.calls
        && From(AbsorbedAll(events), events)
    decreases |events|
  {
    hide OneToOne, From, Gather, ChatStream.Absorb, Absorbed;
    if events == [] {
      NothingCollected();
    } else {
      var front, e := events[..|events| - 1], events[|events| - 1];
      FrontIsOneToOne(events);
      assert forall x :: x in front ==> x in events;
      assert !e.Error?;
      AbsorbedIsGathered(front);
      assert events == front + [e];
      var calls := AbsorbedAll(front);
      if e.ToolDelta? {
        AbsorbedOne(calls, front, e);
      } else {
        FromMore(calls, front, e);
      }
      assert Aggregated(events).value.calls ==
          if e.ToolDelta? then Gather(calls, e) else calls by { AbsorbCalls(Aggregated(front).value, e); }
    }
  }

  lemma AbsorbCalls(a: Aggregate, e: Event)
    ensures ChatStream.Absorb(a, e).calls == if e.ToolDelta? then Gather(a.calls, e) else a.calls
  {
    hide Gather;
  }

  lemma FrontIsOneToOne(events: seq<Event>)
    requires events != [] && OneToOne(events)
    ensures OneToOne(events[..|events| - 1])
  {
    assert forall x :: x in events[..|events| - 1] ==> x in events;
  }

  lemma AbsorbedOne(calls: seq<Call>, events: seq<Event>, e: Event)
    requires e.ToolDelta? && OneToOne(events + [e]) && From(calls, events)
    ensures Absorbed(calls, e) == Gather(calls, e) && From(Absorbed(calls, e), events + [e])
  {
    SameKey(calls, events, e);
    hide OneToOne, From, FindId, FindIndex;
    var k := FindId(calls, e.id);
    assert k < |calls| ==> calls[k].index == e.index;
    CollectedFrom(calls, events, e);
    SameKeysFrom(Collect(calls, e), Absorbed(calls, e), events + [e]);
  }

  lemma SameKeysFrom(a: seq<Call>, b: seq<Call>, events: seq<Event>)
    requires From(a, events) && |a| == |b| && forall i :: 0 <= i < |a| ==>
        a[i].id == b[i].id && a[i].index == b[i].index
    ensures From(b, events)
  {
    forall c | c in b ensures exists x :: x in events && x.ToolDelta? && x.id == c.id && x.index == c.index {
      var i :| 0 <= i < |b| && b[i] == c;
      assert a[i] in a;
    }
  }

  lemma {:induction false} ToolsAreCalls(events: seq<Event>, usable: string -> bool)
    requires OneToOne(events) && Running(events)
    ensures !Served(events, usable).ended && SameButName(Served(events, usable).tools, AbsorbedAll(events))
    decreases |events|
  {
    hide SameButName, OneToOne, From, Absorbed, OnText, OnDelta, CloseText;
    if events == [] {
      AnthropicStream.NothingGathered();
    } else {
      var front, e := events[..|events| - 1], events[|events| - 1];
      FrontIsOneToOne(events);
      assert forall x :: x in front ==> x in events;
      ToolsAreCalls(front, usable);
      AbsorbedIsGathered(front);
      assert events == front + [e];
      var s := Served(front, usable);
      if e.ToolDelta? {
        SameAbsorbed(s, AbsorbedAll(front), front, e);
      }
      SameTools(s, e, usable);
    }
  }

  lemma SameTools(s: Server, e: Event, usable: string -> bool)
    requires !s.ended && !e.Completed? && !e.Error?
    ensures !Serve(s, e, usable).ended
    ensures !e.ToolDelta? ==> Serve(s, e, usable).tools == s.tools
  {
    hide FindKey;
  }

  lemma SameAbsorbed(s: Server, calls: seq<Call>, events: seq<Event>, e: Event)
    requires e.ToolDelta? && SameButName(s.tools, calls) && From(calls, events) && OneToOne(events + [e])
    ensures SameButName(OnDelta(s, e.index, e.id, e.name, e.args).tools, Absorbed(calls, e))
  {
    SameKey(calls, events, e);
    hide From, OneToOne, FindId, FindIndex, OnDelta, SameButName;
    SameCollected(s, calls, e);
    CollectedAlike(calls, e);
    AlikeButName(OnDelta(s, e.index, e.id, e.name, e.args).tools, Collect(calls, e), Absorbed(calls, e));
  }

  predicate Alike(a: seq<Call>, b: seq<Call>) {
    |a| == |b| && forall i :: 0 <= i < |a| ==> a[i].(name := b[i].name) == b[i]
  }

  lemma CollectedAlike(calls: seq<Call>, e: Event)
    requires e.ToolDelta? && FindId(calls, e.id) == FindIndex(calls, e.index)
    ensures Alike(Collect(calls, e), Absorbed(calls, e))
  {
    hide FindId, FindIndex;
  }

  lemma AlikeButName(tools: seq<Pending>, a: seq<Call>, b: seq<Call>)
    requires SameButName(tools, a) && Alike(a, b)
    ensures SameButName(tools, b)
  {
    forall i | 0 <= i < |tools| ensures tools[i].key == b[i].index && tools[i].id == b[i].id
        && tools[i].args == b[i].args {
      assert a[i].(name := b[i].name) == b[i];
    }
  }

  // ---- in which order, and under which names ----

  predicate Seen(events: seq<Event>, index: nat) {
    exists x :: x in events && x.ToolDelta? && x.index == index
  }

  predicate AllBelow(events: seq<Event>, index: nat) {
    forall x :: x in events && x.ToolDelta? ==> x.index < index
  }

  /** A tool that begins has a higher index than all that began before it. */
  predicate InIndexOrder(events: seq<Event>) {
    events == [] ||
    (var front, e := events[..|events| - 1], events[|events| - 1];
     InIndexOrder(front) && (e.ToolDelta? ==> Seen(front, e.index) || AllBelow(front, e.index)))
  }

  /** The first name sent for a tool, blank or not, is the last one that is not blank. */
  predicate FirstNamesStay(events: seq<Event>) {
    forall e :: e in events && e.ToolDelta? ==> FirstName(events, e.index) == NameOf(events, e.id)
  }

  predicate StrictlyAscending(calls: seq<Call>) {
    forall i, j :: 0 <= i < j < |calls| ==> calls[i].index < calls[j].index
  }

  ghost predicate HasIndex(calls: seq<Call>, index: nat) {
    exists i :: 0 <= i < |calls| && calls[i].index == index
  }

  /** The indices of the calls are those of the fragments. */
  ghost predicate Covers(calls: seq<Call>, events: seq<Event>) {
    forall index :: Seen(events, index) <==> HasIndex(calls, index)
  }

  lemma {:induction false} OrderOfCalls(events: seq<Event>)
    requires OneToOne(events) && Running(events)
    ensures InIndexOrder(events) <==> StrictlyAscending(AbsorbedAll(events))
    ensures Covers(AbsorbedAll(events), events)
    decreases |events|
  {
    hide OneToOne, From, Absorbed, StrictlyAscending, Covers, Seen, AllBelow;
    if events == [] {
      NothingToOrder();
    } else {
      var front, e := events[..|events| - 1], events[|events| - 1];
      FrontIsOneToOne(events);
      assert forall x :: x in front ==> x in events;
      assert events == front + [e];
      OrderOfCalls(front);
      AbsorbedIsGathered(front);
      if e.ToolDelta? {
        IndicesMore(AbsorbedAll(front), front, e);
        OrderMore(AbsorbedAll(front), Absorbed(AbsorbedAll(front), e), front, e.index);
        CoversMore(AbsorbedAll(front), Absorbed(AbsorbedAll(front), e), front, e);
      } else {
        CoversStill(AbsorbedAll(front), front, e);
      }
    }
  }

  lemma NothingToOrder()
    ensures StrictlyAscending([]) && Covers([], [])
  {
  }

  lemma SeenMore(events: seq<Event>, e: Event)
    ensures forall index :: Seen(events + [e], index) <==> Seen(events, index) || (e.ToolDelta? && e.index == index)
  {
    assert forall x :: x in events + [e] <==> x in events || x == e;
  }

  lemma CoversStill(calls: seq<Call>, events: seq<Event>, e: Event)
    requires Covers(calls, events) && !e.ToolDelta?
    ensures Covers(calls, events + [e])
  {
    SeenMore(events, e);
    hide Seen, HasIndex;
  }

  lemma CoversMore(calls: seq<Call>, more: seq<Call>, events: seq<Event>, e: Event)
    requires Covers(calls, events) && e.ToolDelta? && OneIndexMore(calls, more, e.index)
    ensures Covers(more, events + [e])
  {
    SeenMore(events, e);
    HasIndexMore(calls, more, e.index);
    hide Seen, HasIndex, OneIndexMore;
  }

  lemma HasIndexMore(calls: seq<Call>, more: seq<Call>, index: nat)
    requires OneIndexMore(calls, more, index)
    ensures forall k :: HasIndex(more, k) <==> HasIndex(calls, k) || k == index
  {
    forall k | HasIndex(calls, k) ensures HasIndex(more, k) {
      var i :| 0 <= i < |calls| && calls[i].index == k;
      assert more[i].index == k;
    }
    assert more[FindIndex(calls, index)].index == index;
  }

  /** The calls keep their indices, and a new index comes last. */
  ghost predicate OneIndexMore(calls: seq<Call>, more: seq<Call>, index: nat) {
    && |more| == (if FindIndex(calls, index) < |calls| then |calls| else |calls| + 1)
    && (forall i :: 0 <= i < |calls| ==> more[i].index == calls[i].index)
    && (FindIndex(calls, index) == |calls| ==> more[|calls|].index == index)
  }

  lemma IndicesMore(calls: seq<Call>, events: seq<Event>, e: Event)
    requires e.ToolDelta? && OneToOne(events + [e]) && From(calls, events)
    ensures OneIndexMore(calls, Absorbed(calls, e), e.index)
  {
    SameKey(calls, events, e);
    hide OneToOne, From, FindId, FindIndex;
  }

  lemma OrderMore(calls: seq<Call>, more: seq<Call>, events: seq<Event>, index: nat)
    requires OneIndexMore(calls, more, index) && Covers(calls, events)
    ensures StrictlyAscending(more) <==> StrictlyAscending(calls) && (Seen(events, index) || AllBelow(events, index))
  {
    SeenIsCalled(calls, events, index);
    AboveAll(calls, events, index);
    hide Seen, AllBelow, Covers, HasIndex, FindIndex;
    if StrictlyAscending(more) && FindIndex(calls, index) == |calls| {
      forall i | 0 <= i < |calls| ensures calls[i].index < index {
        assert more[i].index < more[|calls|].index;
      }
    }
  }

  lemma SeenIsCalled(calls: seq<Call>, events: seq<Event>, index: nat)
    requires Covers(calls, events)
    ensures Seen(events, index) <==> FindIndex(calls, index) < |calls|
  {
    hide Seen;
  }

  lemma AboveAll(calls: seq<Call>, events: seq<Event>, index: nat)
    requires Covers(calls, events)
    ensures AllBelow(events, index) <==> forall i :: 0 <= i < |calls| ==> calls[i].index < index
  {
    if forall i :: 0 <= i < |calls| ==> calls[i].index < index {
      forall x | x in events && x.ToolDelta? ensures x.index < index {
        assert Seen(events, x.index);
        assert HasIndex(calls, x.index);
      }
    }
    if AllBelow(events, index) {
      forall i | 0 <= i < |calls| ensures calls[i].index < index {
        assert HasIndex(calls, calls[i].index);
        assert Seen(events, calls[i].index);
      }
    }
  }

  lemma {:induction false} InsertAtEnd(call: Call, sorted: seq<Call>)
    requires forall i :: 0 <= i < |sorted| ==> sorted[i].index < call.index
    ensures Insert(call, sorted) == sorted + [call]
  {
    if sorted != [] {
      InsertAtEnd(call, sorted[1..]);
      assert [sorted[0]] + (sorted[1..] + [call]) == sorted + [call];
    }
  }

  lemma {:induction false} SortedAlready(calls: seq<Call>)
    requires StrictlyAscending(calls)
    ensures SortByIndex(calls) == calls
    decreases |calls|
  {
    if calls != [] {
      var front := calls[..|calls| - 1];
      SortedAlready(front);
      InsertAtEnd(calls[|calls| - 1], front);
      assert front + [calls[|calls| - 1]] == calls;
    }
  }

  lemma SameById(calls: seq<Call>, c: Call, i: nat)
    requires i < |calls| && c in calls && c.id == calls[i].id
    requires forall i, j :: 0 <= i < j < |calls| ==> calls[i].id != calls[j].id
    ensures c == calls[i]
  {
    var k :| 0 <= k < |calls| && calls[k] == c;
  }

  lemma SortAscends(calls: seq<Call>)
    requires SortByIndex(calls) == calls && DistinctIndices(calls)
    ensures StrictlyAscending(calls)
  {
    hide SortByIndex;
    SortSorts(calls);
  }

  /** With distinct ids, sorting leaves the ids where they were exactly when the calls are in order. */
  lemma SortMovesNothing(calls: seq<Call>)
    requires DistinctIndices(calls) && forall i, j :: 0 <= i < j < |calls| ==> calls[i].id != calls[j].id
    ensures (forall i :: 0 <= i < |calls| ==> SortByIndex(calls)[i].id == calls[i].id) <==> StrictlyAscending(calls)
  {
    hide SortByIndex, StrictlyAscending, DistinctIndices;
    SortDistinct(calls);
    var sorted := SortByIndex(calls);
    if StrictlyAscending(calls) {
      SortedAlready(calls);
    } else if forall i :: 0 <= i < |calls| ==> sorted[i].id == calls[i].id {
      forall i | 0 <= i < |calls| ensures sorted[i] == calls[i] {
        assert sorted[i] in sorted;
        SameById(calls, sorted[i], i);
      }
      assert sorted == calls;
      SortAscends(calls);
    }
  }

  /** The two lists of tools are the same exactly when order and names are. */
  lemma SameBlocks(tools: seq<Pending>, calls: seq<Call>)
    requires SameButName(tools, calls) && DistinctIndices(calls)
    requires forall i, j :: 0 <= i < j < |calls| ==> calls[i].id != calls[j].id
    ensures ShownBlocks(tools) == ToolBlocks(SortByIndex(calls)) <==>
            StrictlyAscending(calls) && forall i :: 0 <= i < |tools| ==> tools[i].name == calls[i].name
  {
    SortMovesNothing(calls);
    hide SortByIndex, StrictlyAscending, DistinctIndices;
    var sorted := SortByIndex(calls);
    if StrictlyAscending(calls) {
      SortedAlready(calls);
      forall i | 0 <= i < |tools| && ShownBlocks(tools) == ToolBlocks(sorted) ensures tools[i].name == calls[i].name {
        assert ShownBlocks(tools)[i] == ToolBlocks(sorted)[i];
      }
    } else if ShownBlocks(tools) == ToolBlocks(sorted) {
      forall i | 0 <= i < |calls| ensures sorted[i].id == calls[i].id {
        assert ShownBlocks(tools)[i] == ToolBlocks(sorted)[i];
      }
    }
  }

  /** A fragment and the call it belongs to: the tool's two names are those of the call's index and id. */
  lemma CallOfFragment(events: seq<Event>, calls: seq<Call>, e: Event) returns (i: nat)
    requires From(calls, events) && OneToOne(events) && Covers(calls, events) && e in events && e.ToolDelta?
    ensures i < |calls| && calls[i].index == e.index && calls[i].id == e.id
  {
    assert Seen(events, e.index);
    i :| 0 <= i < |calls| && calls[i].index == e.index;
    var c := calls[i];
    assert c in calls;
    var x :| x in events && x.ToolDelta? && x.id == c.id && x.index == c.index;
  }

  lemma FragmentOfCall(events: seq<Event>, calls: seq<Call>, i: nat) returns (x: Event)
    requires From(calls, events) && i < |calls|
    ensures x in events && x.ToolDelta? && x.id == calls[i].id && x.index == calls[i].index
  {
    var c := calls[i];
    assert c in calls;
    x :| x in events && x.ToolDelta? && x.id == c.id && x.index == c.index;
  }

  lemma SameNames(events: seq<Event>, tools: seq<Pending>, calls: seq<Call>)
    requires SameButName(tools, calls) && NamedFirst(tools, events) && From(calls, events) && OneToOne(events)
        && Covers(calls, events)
    requires forall c :: c in calls ==> c.name == NameOf(events, c.id)
    ensures FirstNamesStay(events) <==> forall i :: 0 <= i < |tools| ==> tools[i].name == calls[i].name
  {
    hide FirstName, NameOf, Begun, FindKey, From, OneToOne, Covers;
    assert forall i :: 0 <= i < |tools| ==>
        tools[i].name == FirstName(events, calls[i].index) && calls[i].name == NameOf(events, calls[i].id);
    hide SameButName, NamedFirst;
    if FirstNamesStay(events) {
      forall i | 0 <= i < |tools| ensures tools[i].name == calls[i].name {
        var x := FragmentOfCall(events, calls, i);
      }
    }
    if forall i :: 0 <= i < |tools| ==> tools[i].name == calls[i].name {
      forall e | e in events && e.ToolDelta? ensures FirstName(events, e.index) == NameOf(events, e.id) {
        var i := CallOfFragment(events, calls, e);
      }
    }
  }

  // ---- the result ----

  lemma SameArgs(tools: seq<Pending>, calls: seq<Call>, usable: string -> bool)
    requires SameButName(tools, calls)
    ensures AnthropicStream.FirstMalformed(tools, usable) == |tools| <==> AllUsable(calls, usable)
  {
    var m := AnthropicStream.FirstMalformed(tools, usable);
    if m == |tools| {
      forall c | c in calls ensures usable(c.args) {
        var i :| 0 <= i < |calls| && calls[i] == c;
        assert usable(tools[i].args);
      }
    } else {
      assert calls[m] in calls;
    }
  }

  lemma {:induction false} NothingAfter(front: seq<Event>, e: Event)
    requires e.Completed?
    ensures AbsorbedAll(front + [e]) == AbsorbedAll(front) && TextOf(front + [e]) == TextOf(front)
        && StopOf(front + [e]) == e.reason
    ensures InIndexOrder(front + [e]) == InIndexOrder(front)
  {
    assert (front + [e])[..|front|] == front;
    assert TextOf(front) + "" == TextOf(front);
  }

  lemma NamesStayToTheEnd(front: seq<Event>, e: Event)
    requires e.Completed?
    ensures FirstNamesStay(front + [e]) == FirstNamesStay(front)
  {
    forall x: Event | x in front && x.ToolDelta?
      ensures FirstName(front + [e], x.index) == FirstName(front, x.index)
          && NameOf(front + [e], x.id) == NameOf(front, x.id)
    {
      var i :| 0 <= i < |front| && front[i] == x;
      FirstNameMore(front, e, x.index);
      TextsMore(front, e, x.id);
    }
    hide FirstName, NameOf;
    assert forall x :: x in front + [e] && x.ToolDelta? <==> x in front && x.ToolDelta?;
  }

  /** The tools of the running stream against the calls of the message, sorted. */
  lemma RunningTools(front: seq<Event>, usable: string -> bool)
    requires OneToOne(front) && Running(front)
    ensures var tools, calls := Served(front, usable).tools, AbsorbedAll(front);
            && (AnthropicStream.FirstMalformed(tools, usable) == |tools| <==> AllUsable(SortByIndex(calls), usable))
            && (ShownBlocks(tools) == ToolBlocks(SortByIndex(calls)) <==> InIndexOrder(front) && FirstNamesStay(front))
  {
    hide OneToOne, Running, From, Served, AbsorbedAll, SortByIndex, AllUsable, SameButName, NamedFirst, InIndexOrder,
        FirstNamesStay, StrictlyAscending,
      AnthropicStream.FirstMalformed, ShownBlocks, ToolBlocks, DistinctIndices;
    var tools, calls := Served(front, usable).tools, AbsorbedAll(front);
    ToolsAreCalls(front, usable);
    ToolsGatherEverything(front, usable);
    AbsorbedIsGathered(front);
    FromDistinct(calls, front);
    SortDistinct(calls);
    SameArgs(tools, calls, usable);
    SameUsable(SortByIndex(calls), calls, usable);
    CallsNamed(front);
    SameBlocks(tools, calls);
    OrderOfCalls(front);
    SameNames(front, tools, calls);
  }

  lemma CallsNamed(front: seq<Event>)
    requires OneToOne(front) && Running(front)
    ensures forall c :: c in AbsorbedAll(front) ==> c.name == NameOf(front, c.id)
    ensures var calls := AbsorbedAll(front); forall i, j :: 0 <= i < j < |calls| ==> calls[i].id != calls[j].id
  {
    hide OneToOne, From, AbsorbedAll, Aggregated, NameOf, ArgsOf, Mentioned, HasId;
    AbsorbedIsGathered(front);
    AggregateGathersEverything(front);
  }

  /**
   * For every stream that ends in a completion, with ids and indices one to one: the streamed message
   * fails exactly when the gathered one does, and otherwise has the same text and stop reason. It has
   * the same tools, in the same order, exactly when tools begin by rising index and the first name
   * sent for each is the last that is not blank.
   */
  lemma StreamedMessageIsGatheredMessage(events: seq<Event>, usable: string -> bool)
    requires EndsCompleted(events) && OneToOne(events)
    ensures var m, r := Watched(Served(events, usable).out), MessageOf(events, usable);
            var n := Served(events[..|events| - 1], usable).nextIndex;
            && (r.Ok? ==> m.Finished? && (forall k: nat :: k in m.closed <==> k < n)
                          && m.stop == r.value.stop && TextsIn(m.closed, n) == r.value.text
                          && (ToolsIn(m.closed, n) == r.value.tools <==>
                              InIndexOrder(events) && FirstNamesStay(events)))
            && (r.Err? ==> m.Failing? && m.error == r.error == MALFORMED)
  {
    hide OneToOne, Running, Watched, Served, Placed, Expected, AbsorbedAll, SortByIndex, AllUsable, InIndexOrder,
        FirstNamesStay, AnthropicStream.FirstMalformed,
      AllBlocks, TextsIn, ToolsIn, ShownBlocks, ToolBlocks, Joined, TextOf, StopOf, FirstError, BlocksOf;
    var front, e := events[..|events| - 1], events[|events| - 1];
    assert events == front + [e];
    NoErrors(events);
    FrontIsOneToOne(events);
    NothingAfter(front, e);
    NamesStayToTheEnd(front, e);
    RunningTools(front, usable);
    var s := Served(front, usable);
    RunningIsSound(front, usable);
    SoundParts(s, front);
    if AnthropicStream.FirstMalformed(s.tools, usable) == |s.tools| {
      CompletedStreamIsWellFormed(events, usable);
      AllTextsShown(s, s.nextIndex);
      EveryToolShown(s);
    } else {
      MalformedStreamShowsThePrefix(events, usable);
    }
  }

  lemma EveryToolShown(s: Server)
    requires Placed(s)
    ensures ToolsIn(AllBlocks(s), s.nextIndex) == ShownBlocks(s.tools)
  {
    AllToolsShown(s, s.nextIndex, |s.tools|);
    assert s.tools[..|s.tools|] == s.tools;
  }

  lemma NoErrors(events: seq<Event>)
    requires EndsCompleted(events)
    ensures FirstError(events) == None
  {
    var front := events[..|events| - 1];
    forall e | e in events ensures !e.Error? {
      var i :| 0 <= i < |events| && events[i] == e;
      if i < |front| {
        assert front[i] in front;
      }
    }
    NoErrorAtAll(events);
  }

  // ---- errors of the provider ----

  /**
   * The first error of the provider is the whole answer of a client that does not stream: whatever came before it,
   * whatever follows, and whatever the arguments of the calls are.
   */
  lemma MessageReportsTheFirstError(events: seq<Event>, usable: string -> bool, i: nat)
    requires i < |events| && events[i].Error? && forall j :: 0 <= j < i ==> !events[j].Error?
    ensures MessageOf(events, usable) == Err(events[i].error)
  {
    hide AbsorbedAll, SortByIndex, AllUsable, ToolBlocks, StopOf, FirstError;
    NoErrorSoFar(events, i);
  }

  /**
   * An error that the stream has not ended before is what both clients are told, whatever follows it. The one that
   * streams has by then all the text that came before the error, and no tool.
   */
  lemma BothReportTheError(events: seq<Event>, usable: string -> bool, i: nat)
    requires i < |events| && events[i].Error? && Running(events[..i])
    ensures MessageOf(events, usable) == Err(events[i].error)
    ensures var m := Watched(Served(events, usable).out);
            var n := Served(events[..i], usable).nextIndex;
            && m.Failing? && m.error == events[i].error
            && ToolsIn(m.open, n) == [] && ToolsIn(m.closed, n) == []
            && TextsIn(m.open + m.closed, n) == TextOf(events[..i])
  {
    hide AbsorbedAll, SortByIndex, AllUsable, ToolBlocks, StopOf, FirstError, Watched, Served, Running, Placed, Sound,
        Expected, Joined, TextOf, TextsIn, ToolsIn, Serve;
    var front, e := events[..i], events[i];
    assert forall j :: 0 <= j < i ==> !events[j].Error? by { RunningHasNoError(events, i); }
    MessageReportsTheFirstError(events, usable, i);
    assert events[..i + 1] == front + [e];
    assert (front + [e])[..|front + [e]| - 1] == front;
    ErrorShowsNoTool(front + [e], usable);
    NextServed(front, e, usable);
    RunningIsSound(front, usable);
    SoundParts(Served(front, usable), front);
    ErrorEnds(Served(front, usable), e, usable);
    EndedIsServed(events, i + 1, usable);
    ErrorKeepsTexts(Served(front, usable), e, usable);
    TextsBeforeTheError(Served(front, usable), Served(front, usable).nextIndex);
    NoToolsIn(Watched(Served(events, usable).out).open, Served(front, usable).nextIndex);
    NoToolsIn(Watched(Served(events, usable).out).closed, Served(front, usable).nextIndex);
  }

  lemma RunningHasNoError(events: seq<Event>, i: nat)
    requires i <= |events| && Running(events[..i])
    ensures forall j :: 0 <= j < i ==> !events[j].Error?
  {
    forall j | 0 <= j < i ensures !events[j].Error? {
      assert events[j] in events[..i];
    }
  }

  lemma ErrorEnds(s: Server, e: Event, usable: string -> bool)
    requires e.Error? && !s.ended
    ensures Serve(s, e, usable).ended && Serve(s, e, usable).out == s.out + [ErrorOut(e.error)]
  {
  }

  lemma ErrorKeepsTexts(s: Server, e: Event, usable: string -> bool)
    requires e.Error? && !s.ended && Watched(s.out) == Expected(s)
    ensures var m := Watched(Serve(s, e, usable).out);
            m.Failing? && m.open == Expected(s).open && m.closed == Expected(s).closed
  {
    hide Expected, Watched;
    WatchedNext(s.out, ErrorOut(e.error));
    OnlyTexts(s);
  }

  lemma {:induction false} TextsBeforeTheError(s: Server, n: nat)
    requires Placed(s) && n <= s.nextIndex
    ensures TextsIn(Expected(s).open + Expected(s).closed, n) == Joined(s.texts, n)
  {
    hide HasPlace;
    if n > 0 {
      TextsBeforeTheError(s, n - 1);
      ShownText(s, n - 1);
      hide Expected, Placed;
    }
  }

  lemma ShownText(s: Server, k: nat)
    requires Placed(s)
    ensures var blocks := Expected(s).open + Expected(s).closed;
            (k in blocks <==> k in s.texts) && (k in blocks ==> blocks[k] == TextBlock(TextAt(s.texts, k)))
  {
    hide HasPlace;
  }

  lemma {:induction false} NoToolsIn(blocks: map<nat, Block>, n: nat)
    requires forall k :: k in blocks ==> blocks[k].TextBlock?
    ensures ToolsIn(blocks, n) == []
  {
    if n > 0 {
      NoToolsIn(blocks, n - 1);
    }
  }

  // ---- what the gathered message is made of ----

  /** The index that came with the first fragment of an id. */
  ghost function FirstIndex(events: seq<Event>, id: string): nat {
    if events == [] then 0
    else
      var front, e := events[..|events| - 1], events[|events| - 1];
      if e.ToolDelta? && e.id == id && !Mentioned(front, id) then e.index else FirstIndex(front, id)
  }

  ghost predicate FirstIndices(calls: seq<Call>, events: seq<Event>) {
    forall c :: c in calls ==> c.index == FirstIndex(events, c.id)
  }

  /** Two lists of calls that agree on all but the index. */
  predicate SameButIndex(a: seq<Call>, b: seq<Call>) {
    |a| == |b| && forall i :: 0 <= i < |a| ==> a[i].id == b[i].id && a[i].name == b[i].name && a[i].args == b[i].args
  }

  lemma GatheredButIndex(a: seq<Call>, b: seq<Call>, events: seq<Event>)
    requires SameButIndex(a, b) && Gathered(a, events)
    ensures Gathered(b, events)
  {
    hide Mentioned, NameOf, ArgsOf;
    forall c | c in b ensures c.name == NameOf(events, c.id) && c.args == ArgsOf(events, c.id) {
      var i :| 0 <= i < |b| && b[i] == c;
      assert a[i] in a;
    }
    forall id ensures HasId(a, id) <==> HasId(b, id) {
      if HasId(a, id) {
        var c :| c in a && c.id == id;
        var i :| 0 <= i < |a| && a[i] == c;
        assert b[i] in b;
      }
      if HasId(b, id) {
        var c :| c in b && c.id == id;
        var i :| 0 <= i < |b| && b[i] == c;
        assert a[i] in a;
      }
    }
  }

  lemma AbsorbedLikeGather(calls: seq<Call>, e: Event)
    requires e.ToolDelta?
    ensures SameButIndex(Gather(calls, e), Absorbed(calls, e))
  {
  }

  lemma FirstIndexMore(front: seq<Event>, e: Event, id: string)
    ensures FirstIndex(front + [e], id)
         == if e.ToolDelta? && e.id == id && !Mentioned(front, id) then e.index else FirstIndex(front, id)
  {
    assert (front + [e])[..|front|] == front;
  }

  lemma FirstIndicesMore(calls: seq<Call>, front: seq<Event>, e: Event)
    requires e.ToolDelta? && Gathered(calls, front) && FirstIndices(calls, front)
    ensures FirstIndices(Absorbed(calls, e), front + [e])
  {
    var k := FindId(calls, e.id);
    var after := Absorbed(calls, e);
    AbsentId(calls, e.id);
    assert k < |calls| ==> calls[k] in calls && HasId(calls, e.id);
    assert Mentioned(front, e.id) <==> k < |calls|;
    hide Gathered, Mentioned, FirstIndex, FindId, HasId;
    forall c | c in after ensures c.index == FirstIndex(front + [e], c.id) {
      FirstIndexMore(front, e, c.id);
      var i :| 0 <= i < |after| && after[i] == c;
      if i != k {
        assert calls[i] == c && c in calls;
        assert c.id != e.id;
      }
    }
  }

  lemma {:induction false} AbsorbedGathersEverything(events: seq<Event>)
    ensures Gathered(AbsorbedAll(events), events) && FirstIndices(AbsorbedAll(events), events)
    decreases |events|
  {
    hide Gathered, FirstIndices, Absorbed, Gather, SameButIndex;
    if events == [] {
      ChatStream.NothingGathered();
      NothingFirst();
    } else {
      var front, e := events[..|events| - 1], events[|events| - 1];
      AbsorbedGathersEverything(front);
      assert events == front + [e];
      var calls := AbsorbedAll(front);
      if e.ToolDelta? {
        GatheredOne(calls, front, e);
        AbsorbedLikeGather(calls, e);
        GatheredButIndex(Gather(calls, e), Absorbed(calls, e), events);
        FirstIndicesMore(calls, front, e);
      } else {
        GatheredSame(calls, front, e);
        FirstIndicesSame(calls, front, e);
      }
    }
  }

  lemma NothingFirst()
    ensures FirstIndices([], [])
  {
  }

  lemma FirstIndicesSame(calls: seq<Call>, front: seq<Event>, e: Event)
    requires !e.ToolDelta? && FirstIndices(calls, front)
    ensures FirstIndices(calls, front + [e])
  {
    forall c | c in calls ensures c.index == FirstIndex(front + [e], c.id) {
      FirstIndexMore(front, e, c.id);
    }
    hide FirstIndex;
  }

  /** One tool block for each id mentioned, with everything sent for it, by rising first index. */
  ghost predicate ToolsAreTheSum(tools: seq<Block>, events: seq<Event>) {
    && (forall i :: 0 <= i < |tools| ==>
          && tools[i].ToolBlock? && Mentioned(events, tools[i].id)
          && tools[i].name == NameOf(events, tools[i].id) && tools[i].json == ArgsOf(events, tools[i].id))
    && (forall i, j :: 0 <= i < j < |tools| ==>
          && tools[i].ToolBlock? && tools[j].ToolBlock? && tools[i].id != tools[j].id
          && FirstIndex(events, tools[i].id) <= FirstIndex(events, tools[j].id))
    && (forall id :: Mentioned(events, id) ==>
          exists i :: 0 <= i < |tools| && tools[i].ToolBlock? && tools[i].id == id)
  }

  lemma SortedToolsAreTheSum(calls: seq<Call>, events: seq<Event>)
    requires Gathered(calls, events) && FirstIndices(calls, events) && Ascending(calls)
    ensures ToolsAreTheSum(ToolBlocks(calls), events)
  {
    hide Mentioned, NameOf, ArgsOf, FirstIndex, ToolBlocks;
    var tools := ToolBlocks(calls);
    forall i | 0 <= i < |tools|
      ensures tools[i] == ToolBlock(calls[i].id, NameOf(events, calls[i].id), ArgsOf(events, calls[i].id))
      ensures Mentioned(events, tools[i].id) && calls[i].index == FirstIndex(events, calls[i].id)
    {
      assert calls[i] in calls;
      assert HasId(calls, calls[i].id);
    }
    forall id | Mentioned(events, id) ensures exists i :: 0 <= i < |tools| && tools[i].ToolBlock? && tools[i].id == id {
      assert HasId(calls, id);
      var c :| c in calls && c.id == id;
      var i :| 0 <= i < |calls| && calls[i] == c;
      assert tools[i].id == id;
    }
  }

  lemma FirstIndicesPermuted(calls: seq<Call>, sorted: seq<Call>, events: seq<Event>)
    requires FirstIndices(calls, events) && multiset(sorted) == multiset(calls)
    ensures FirstIndices(sorted, events)
  {
    assert forall c :: c in sorted <==> c in multiset(sorted);
    assert forall c :: c in calls <==> c in multiset(calls);
    hide FirstIndex;
  }

  /**
   * The gathered message, event by event, when the provider reported no error: it fails exactly when the arguments of
   * some call are malformed, and otherwise holds all the text, the tools, and the reason of the last completion.
   */
  lemma MessageIsTheSum(events: seq<Event>, usable: string -> bool)
    requires forall e :: e in events ==> !e.Error?
    ensures MessageOf(events, usable).Err? <==> !ArgumentsUsable(events, usable)
    ensures var r := MessageOf(events, usable);
            && (r.Err? ==> r.error == MALFORMED)
            && (r.Ok? ==> r.value.text == TextOf(events) && ToolsAreTheSum(r.value.tools, events)
                          && LastReason(r.value.stop, events))
  {
    var calls := AbsorbedAll(events);
    NoErrorAtAll(events);
    AbsorbedGathersEverything(events);
    StopIsTheLast(events);
    hide AbsorbedAll, FirstError, FirstIndices, Ascending, SortByIndex, Gathered, AllUsable, ArgumentsUsable, TextOf,
        ToolBlocks, StopOf, ToolsAreTheSum, LastReason;
    SortSorts(calls);
    GatheredPermuted(calls, SortByIndex(calls), events);
    FirstIndicesPermuted(calls, SortByIndex(calls), events);
    UsableArguments(SortByIndex(calls), events, usable);
    SortedToolsAreTheSum(SortByIndex(calls), events);
  }

  ghost predicate LastReason(stop: Finish, events: seq<Event>) {
    && (forall i | 0 <= i < |events| && events[i].Completed? && forall j :: i < j < |events| ==>
        !events[j].Completed? ::
          stop == events[i].reason)
    && ((forall i :: 0 <= i < |events| ==> !events[i].Completed?) ==> stop == Stop)
  }

  lemma {:induction false} StopIsTheLast(events: seq<Event>)
    ensures LastReason(StopOf(events), events)
    decreases |events|
  {
    if events != [] {
      var front, e := events[..|events| - 1], events[|events| - 1];
      StopIsTheLast(front);
      assert events == front + [e];
      assert forall i :: 0 <= i < |front| ==> events[i] == front[i];
    }
  }
}
