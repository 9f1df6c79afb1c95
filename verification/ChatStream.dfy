/**
 * The Chat Completions surface answers one event stream in two ways: as one aggregated reply, or as
 * chunks that a client folds. `usable` says which argument texts are blank or valid JSON.
 */
module ChatStream {
  import opened Options

  datatype Finish = Stop | ToolCalls | Length

  type Failure = string

  datatype Event =
    | Text(text: string)
    | ToolDelta(index: nat, id: string, name: Option<string>, args: Option<string>)
    | Usage(input: Option<nat>, output: Option<nat>)
    | Completed(reason: Finish)
    | Error(error: Failure)

  datatype Call = Call(index: nat, id: string, name: string, args: string)

  const MALFORMED: Failure := "provider_protocol_error"

  // ---- the insertion-ordered map of calls, under either key ----

  function FindId(calls: seq<Call>, id: string): (k: nat)
    ensures k <= |calls| && (k < |calls| ==> calls[k].id == id) && forall j :: 0 <= j < k ==> calls[j].id != id
  {
    if calls == [] || calls[0].id == id then 0 else 1 + FindId(calls[1..], id)
  }

  function FindIndex(calls: seq<Call>, index: nat): (k: nat)
    ensures k <= |calls| && (k < |calls| ==> calls[k].index == index) && forall j :: 0 <= j < k ==>
        calls[j].index != index
  {
    if calls == [] || calls[0].index == index then 0 else 1 + FindIndex(calls[1..], index)
  }

  function Or(text: Option<string>): string {
    if text.Some? then text.value else ""
  }

  function SetAt(calls: seq<Call>, k: nat, call: Call): seq<Call>
    requires k <= |calls|
  {
    if k < |calls| then calls[k := call] else calls + [call]
  }

  /** Keyed by id; an empty name never replaces one, and the index is the latest. */
  function Gather(calls: seq<Call>, e: Event): seq<Call>
    requires e.ToolDelta?
  {
    var k := FindId(calls, e.id);
    var existing := if k < |calls| then calls[k] else Call(e.index, e.id, Or(e.name), "");
    SetAt(calls, k, Call(e.index, e.id, if Or(e.name) != "" then Or(e.name)
        else existing.name, existing.args + Or(e.args)))
  }

  /** Keyed by index; any name that is present replaces, and the id is the first. */
  function Collect(calls: seq<Call>, e: Event): seq<Call>
    requires e.ToolDelta?
  {
    var k := FindIndex(calls, e.index);
    var existing := if k < |calls| then calls[k] else Call(e.index, e.id, Or(e.name), "");
    SetAt(calls, k, existing.(name := if e.name.Some? then e.name.value
        else existing.name, args := existing.args + Or(e.args)))
  }

  // ---- sorting by index, stably ----

  function Insert(call: Call, sorted: seq<Call>): (r: seq<Call>)
    ensures |r| == |sorted| + 1
  {
    if sorted == [] || call.index < sorted[0].index then [call] + sorted else [sorted[0]] + Insert(call, sorted[1..])
  }

  /** Later calls go behind earlier ones of the same index. */
  function SortByIndex(calls: seq<Call>): (r: seq<Call>)
    ensures |r| == |calls|
  {
    if calls == [] then [] else Insert(calls[|calls| - 1], SortByIndex(calls[..|calls| - 1]))
  }

  predicate Ascending(calls: seq<Call>) {
    forall i, j :: 0 <= i < j < |calls| ==> calls[i].index <= calls[j].index
  }

  lemma {:induction false} InsertMembers(call: Call, sorted: seq<Call>)
    ensures multiset(Insert(call, sorted)) == multiset(sorted) + multiset{call}
    ensures forall c :: c in Insert(call, sorted) <==> c == call || c in sorted
  {
    if sorted != [] {
      assert sorted == [sorted[0]] + sorted[1..];
      if call.index >= sorted[0].index {
        InsertMembers(call, sorted[1..]);
      }
    }
  }

  lemma {:induction false} InsertSorts(call: Call, sorted: seq<Call>)
    requires Ascending(sorted)
    ensures Ascending(Insert(call, sorted))
  {
    if sorted != [] && call.index >= sorted[0].index {
      InsertSorts(call, sorted[1..]);
      InsertMembers(call, sorted[1..]);
      var rest := Insert(call, sorted[1..]);
      forall x | x in rest ensures sorted[0].index <= x.index {
        if x != call {
          var k :| 0 <= k < |sorted[1..]| && sorted[1..][k] == x;
          assert sorted[k + 1] == x;
        }
      }
    }
  }

  lemma {:induction false} SortSorts(calls: seq<Call>)
    ensures Ascending(SortByIndex(calls)) && multiset(SortByIndex(calls)) == multiset(calls)
    decreases |calls|
  {
    if calls != [] {
      var front, last := calls[..|calls| - 1], calls[|calls| - 1];
      SortSorts(front);
      var sorted := SortByIndex(front);
      assert SortByIndex(calls) == Insert(last, sorted);
      assert multiset(calls) == multiset(front) + multiset{last} by { assert calls == front + [last]; }
      hide SortByIndex, Insert;
      InsertSorts(last, sorted);
      InsertMembers(last, sorted);
    }
  }

  /** The calls of one index, in their order. */
  function WithIndex(calls: seq<Call>, index: nat): seq<Call> {
    if calls == [] then []
    else (if calls[0].index == index then [calls[0]] else []) + WithIndex(calls[1..], index)
  }

  lemma {:induction false} WithIndexSnoc(calls: seq<Call>, call: Call, index: nat)
    ensures WithIndex(calls + [call], index) == WithIndex(calls, index) + (if call.index == index then [call] else [])
  {
    if calls != [] {
      WithIndexSnoc(calls[1..], call, index);
      assert (calls + [call])[1..] == calls[1..] + [call];
    }
  }

  lemma {:induction false} NoneAbove(sorted: seq<Call>, call: Call)
    requires Ascending(sorted) && (sorted == [] || call.index < sorted[0].index)
    ensures WithIndex(sorted, call.index) == []
  {
    if sorted != [] {
      assert sorted[1..] != [] ==> sorted[0].index <= sorted[1].index;
      NoneAbove(sorted[1..], call);
    }
  }

  lemma {:induction false} InsertIsStable(call: Call, sorted: seq<Call>, index: nat)
    requires Ascending(sorted)
    ensures WithIndex(Insert(call, sorted), index)
         == WithIndex(sorted, index) + (if call.index == index then [call] else [])
  {
    if sorted == [] || call.index < sorted[0].index {
      NoneAbove(sorted, call);
      assert ([call] + sorted)[1..] == sorted;
    } else {
      InsertIsStable(call, sorted[1..], index);
    }
  }

  /** Sorting keeps the order of calls that share an index. */
  lemma {:induction false} SortIsStable(calls: seq<Call>, index: nat)
    ensures WithIndex(SortByIndex(calls), index) == WithIndex(calls, index)
    decreases |calls|
  {
    if calls != [] {
      var front, last := calls[..|calls| - 1], calls[|calls| - 1];
      SortIsStable(front, index);
      SortSorts(front);
      InsertIsStable(last, SortByIndex(front), index);
      WithIndexSnoc(front, last, index);
      assert calls == front + [last];
      hide Insert, WithIndex;
    }
  }

  // ---- the aggregated reply ----

  datatype Aggregate = Aggregate(content: string, calls: seq<Call>, finish: Finish, input: Option<nat>,
      output: Option<nat>)

  function Absorb(a: Aggregate, e: Event): Aggregate {
    match e
    case Text(text) => a.(content := a.content + text)
    case ToolDelta(_, _, _, _) => a.(calls := Gather(a.calls, e))
    case Usage(input, output) => a.(input := if input.Some? then input else a.input, output :=
        if output.Some? then output else a.output)
    case Completed(reason) => a.(finish := reason)
    case Error(_) => a
  }

  /** `aggregateEvents`: the first error ends it. */
  function Aggregated(events: seq<Event>): Result<Aggregate, Failure> {
    if events == [] then Ok(Aggregate("", [], Stop, None, None))
    else
      var before := Aggregated(events[..|events| - 1]);
      var e := events[|events| - 1];
      if before.Err? then before else if e.Error? then Err(e.error) else Ok(Absorb(before.value, e))
  }

  datatype Completion = Completion(content: string, calls: seq<Call>, finish: Finish)

  predicate AllUsable(calls: seq<Call>, usable: string -> bool) {
    forall c :: c in calls ==> usable(c.args)
  }

  /** What a client that does not stream is sent. */
  function Reply(events: seq<Event>, usable: string -> bool): Result<Completion, Failure> {
    var a := Aggregated(events);
    if a.Err? then Err(a.error)
    else
      var calls := SortByIndex(a.value.calls);
      if AllUsable(calls, usable) then Ok(Completion(a.value.content, calls, a.value.finish)) else Err(MALFORMED)
  }

  method AggregateEvents(events: seq<Event>) returns (r: Result<Aggregate, Failure>)
    ensures r == Aggregated(events)
  {
    var a := Aggregate("", [], Stop, None, None);
    for i := 0 to |events|
      invariant Aggregated(events[..i]) == Ok(a)
    {
      var event := events[i];
      assert events[..i + 1][..i] == events[..i];
      match event
      case Text(text) => a := a.(content := a.content + text);
      case ToolDelta(index, id, name, args) =>
        var k := FindId(a.calls, id);
        var existing := if k < |a.calls| then a.calls[k] else Call(index, id, Or(name), "");
        if name.Some? && name.value != "" {
          existing := existing.(name := name.value);
        }
        if args.Some? {
          existing := existing.(args := existing.args + args.value);
        }
        existing := existing.(index := index);
        assert existing.args == (if k < |a.calls| then a.calls[k].args else "") + Or(args);
        a := a.(calls := SetAt(a.calls, k, existing));
      case Usage(input, output) =>
        if input.Some? {
          a := a.(input := input);
        }
        if output.Some? {
          a := a.(output := output);
        }
      case Completed(reason) => a := a.(finish := reason);
      case Error(error) =>
        ErrorsStick(events, i + 1);
        return Err(error);
    }
    assert events[..|events|] == events;
    r := Ok(a);
  }

  lemma {:induction false} ErrorsStick(events: seq<Event>, i: nat)
    requires i <= |events| && Aggregated(events[..i]).Err?
    ensures Aggregated(events) == Aggregated(events[..i])
    decreases |events|
  {
    if i < |events| {
      assert events[..|events| - 1][..i] == events[..i];
      ErrorsStick(events[..|events| - 1], i);
    } else {
      assert events[..i] == events;
    }
  }

  // ---- the streamed reply ----

  datatype Chunk =
    | ContentChunk(text: string)
    | CallChunk(index: nat, id: string, name: Option<string>, args: Option<string>)
    | FinishChunk(reason: Finish)
    | ErrorChunk(error: Failure)

  function Filled(text: string): Option<string> {
    if text != "" then Some(text) else None
  }

  function CallChunks(calls: seq<Call>): (r: seq<Chunk>)
    ensures |r| == |calls|
    ensures forall i :: 0 <= i < |calls| ==>
        r[i] == CallChunk(calls[i].index, calls[i].id, Filled(calls[i].name), Filled(calls[i].args))
  {
    if calls == [] then []
    else
      var c := calls[|calls| - 1];
      CallChunks(calls[..|calls| - 1]) + [CallChunk(c.index, c.id, Filled(c.name), Filled(c.args))]
  }

  datatype Streaming = Streaming(chunks: seq<Chunk>, calls: seq<Call>, ended: bool)

  function Forward(s: Streaming, e: Event, usable: string -> bool): Streaming {
    if s.ended then s
    else match e
      case Text(text) => s.(chunks := s.chunks + [ContentChunk(text)])
      case ToolDelta(_, _, _, _) => s.(calls := Collect(s.calls, e))
      case Usage(_, _) => s
      case Completed(reason) =>
        var sorted := SortByIndex(s.calls);
        if AllUsable(sorted, usable) then s.(chunks := s.chunks + CallChunks(sorted) + [FinishChunk(reason)],
            ended := true)
        else s.(chunks := s.chunks + [ErrorChunk(MALFORMED)], ended := true)
      case Error(error) => s.(chunks := s.chunks + [ErrorChunk(error)], ended := true)
  }

  function Streamed(events: seq<Event>, usable: string -> bool): Streaming {
    if events == [] then Streaming([], [], false)
    else Forward(Streamed(events[..|events| - 1], usable), events[|events| - 1], usable)
  }

  method StreamChat(events: seq<Event>, usable: string -> bool) returns (chunks: seq<Chunk>)
    ensures chunks == Streamed(events, usable).chunks
  {
    hide SortByIndex, AllUsable, FindIndex, CallChunks, Streamed, Aggregated;
    chunks := [];
    var calls: seq<Call> := [];
    StartsEmpty(usable);
    for i := 0 to |events|
      invariant Streamed(events[..i], usable) == Streaming(chunks, calls, false)
    {
      var event := events[i];
      NextEvent(events[..i], event, usable);
      assert events[..i + 1] == events[..i] + [event];
      match event
      case Text(text) => chunks := chunks + [ContentChunk(text)];
      case ToolDelta(index, id, name, args) =>
        var k := FindIndex(calls, index);
        var existing := if k < |calls| then calls[k] else Call(index, id, Or(name), "");
        if name.Some? {
          existing := existing.(name := name.value);
        }
        if args.Some? {
          existing := existing.(args := existing.args + args.value);
        }
        assert existing.args == (if k < |calls| then calls[k].args else "") + Or(args);
        calls := SetAt(calls, k, existing);
      case Usage(_, _) =>
      case Completed(reason) =>
        var last := SendCalls(calls, reason, usable);
        assert Streamed(events[..i + 1], usable) == Forward(Streaming(chunks, calls, false), event, usable);
        chunks := chunks + last;
        EndedStays(events, i + 1, usable);
        return;
      case Error(error) =>
        chunks := chunks + [ErrorChunk(error)];
        EndedStays(events, i + 1, usable);
        return;
    }
    assert events[..|events|] == events;
  }

  /** The end of the stream: every call is checked before any is sent. */
  method SendCalls(calls: seq<Call>, reason: Finish, usable: string -> bool) returns (chunks: seq<Chunk>)
    ensures forall before :: before + chunks == Forward(Streaming(before, calls, false), Completed(reason),
        usable).chunks
  {
    hide SortByIndex;
    var sorted := SortByIndex(calls);
    var malformed := FirstMalformed(sorted, usable);
    if malformed {
      return [ErrorChunk(MALFORMED)];
    }
    hide AllUsable;
    chunks := [];
    for j := 0 to |sorted|
      invariant chunks == CallChunks(sorted[..j])
    {
      var call := sorted[j];
      assert sorted[..j + 1][..j] == sorted[..j];
      chunks := chunks + [CallChunk(call.index, call.id, Filled(call.name), Filled(call.args))];
    }
    assert sorted[..|sorted|] == sorted;
    chunks := chunks + [FinishChunk(reason)];
    assert forall before: seq<Chunk> :: before + chunks == before + CallChunks(sorted) + [FinishChunk(reason)];
  }

  method FirstMalformed(calls: seq<Call>, usable: string -> bool) returns (found: bool)
    ensures found == !AllUsable(calls, usable)
  {
    for i := 0 to |calls|
      invariant forall j :: 0 <= j < i ==> usable(calls[j].args)
    {
      if !usable(calls[i].args) {
        return true;
      }
    }
    found := false;
  }

  lemma {:induction false} EndedStays(events: seq<Event>, i: nat, usable: string -> bool)
    requires i <= |events| && Streamed(events[..i], usable).ended
    ensures Streamed(events, usable) == Streamed(events[..i], usable)
    decreases |events|
  {
    if i < |events| {
      assert events[..|events| - 1][..i] == events[..i];
      EndedStays(events[..|events| - 1], i, usable);
    } else {
      assert events[..i] == events;
    }
  }

  // ---- the client that folds the chunks ----

  datatype Client = Client(content: string, calls: seq<Call>, finish: Option<Finish>, error: Option<Failure>)

  /** The protocol's rule: text is appended, and call fragments are merged by index. */
  function Take(c: Client, chunk: Chunk): Client {
    match chunk
    case ContentChunk(text) => c.(content := c.content + text)
    case CallChunk(index, id, name, args) =>
      var k := FindIndex(c.calls, index);
      if k < |c.calls| then c.(calls := c.calls[k := c.calls[k].(args := c.calls[k].args + Or(args))])
      else c.(calls := c.calls + [Call(index, id, Or(name), Or(args))])
    case FinishChunk(reason) => c.(finish := Some(reason))
    case ErrorChunk(error) => c.(error := Some(error))
  }

  function Folded(chunks: seq<Chunk>): Client {
    if chunks == [] then Client("", [], None, None) else Take(Folded(chunks[..|chunks| - 1]), chunks[|chunks| - 1])
  }

  // ---- the two agree ----

  /** Each index belongs to one id and each id to one index. */
  predicate OneToOne(events: seq<Event>) {
    forall a, b | a in events && b in events && a.ToolDelta? && b.ToolDelta? :: a.id == b.id <==> a.index == b.index
  }

  predicate NamesFilled(events: seq<Event>) {
    forall e :: e in events && e.ToolDelta? && e.name.Some? ==> e.name.value != ""
  }

  /** Neither a completion nor an error so far. */
  predicate Running(events: seq<Event>) {
    forall e :: e in events ==> !e.Completed? && !e.Error?
  }

  predicate EndsCompleted(events: seq<Event>) {
    events != [] && events[|events| - 1].Completed? && Running(events[..|events| - 1])
  }

  /** Where a collected call's keys come from. */
  predicate From(calls: seq<Call>, events: seq<Event>) {
    && (forall c :: c in calls ==> exists e :: e in events && e.ToolDelta? && e.id == c.id && e.index == c.index)
    && (forall i, j :: 0 <= i < j < |calls| ==> calls[i].index != calls[j].index)
  }

  /** What a client has folded and what the server has gathered, while the stream runs. */
  lemma {:induction false} RunningAgrees(events: seq<Event>, usable: string -> bool)
    requires OneToOne(events) && NamesFilled(events) && Running(events)
    ensures Aggregated(events).Ok? && !Streamed(events, usable).ended
    ensures Streamed(events, usable).calls == Aggregated(events).value.calls
    ensures From(Streamed(events, usable).calls, events)
    ensures Folded(Streamed(events, usable).chunks) == Client(Aggregated(events).value.content, [], None, None)
    decreases |events|
  {
    hide OneToOne, NamesFilled, From, Gather, Collect, SortByIndex, AllUsable, Folded;
    if events == [] {
      assert From([], []) by { NothingCollected(); }
      assert Folded([]) == Client("", [], None, None) by { NothingFolded(); }
    } else {
      var front, e := events[..|events| - 1], events[|events| - 1];
      FrontIsWellFormed(events);
      RunningAgrees(front, usable);
      assert events == front + [e];
      var calls := Streamed(front, usable).calls;
      if e.ToolDelta? {
        SameCall(calls, front, e);
      } else {
        FromMore(calls, front, e);
        if e.Text? {
          FoldsOne(Streamed(front, usable).chunks, ContentChunk(e.text));
        }
      }
    }
  }

  lemma NothingCollected()
    ensures From([], [])
  {
  }

  lemma NothingFolded()
    ensures Folded([]) == Client("", [], None, None)
  {
  }

  lemma FromMore(calls: seq<Call>, events: seq<Event>, e: Event)
    requires From(calls, events)
    ensures From(calls, events + [e])
  {
    forall c | c in calls ensures exists x :: x in events + [e] && x.ToolDelta? && x.id == c.id && x.index == c.index {
      var x :| x in events && x.ToolDelta? && x.id == c.id && x.index == c.index;
      assert x in events + [e];
    }
  }

  lemma SameKey(calls: seq<Call>, events: seq<Event>, e: Event)
    requires e.ToolDelta? && OneToOne(events + [e]) && From(calls, events)
    ensures FindId(calls, e.id) == FindIndex(calls, e.index)
  {
    assert e in events + [e];
    forall c | c in calls ensures c.id == e.id <==> c.index == e.index {
      var x :| x in events && x.ToolDelta? && x.id == c.id && x.index == c.index;
      assert x in events + [e];
    }
    hide From, OneToOne;
    var k := FindId(calls, e.id);
    assert k < |calls| ==> calls[k] in calls;
  }

  /** With one-to-one keys, looking a call up by id or by index finds the same one. */
  lemma SameCall(calls: seq<Call>, events: seq<Event>, e: Event)
    requires e.ToolDelta? && OneToOne(events + [e]) && NamesFilled(events + [e]) && From(calls, events)
    ensures Gather(calls, e) == Collect(calls, e) && From(Collect(calls, e), events + [e])
  {
    SameKey(calls, events, e);
    assert e in events + [e];
    hide OneToOne, From, FindId, FindIndex;
    CollectedFrom(calls, events, e);
    var k := FindId(calls, e.id);
    assert k < |calls| ==> calls[k].index == e.index;
  }

  lemma CollectedFrom(calls: seq<Call>, events: seq<Event>, e: Event)
    requires e.ToolDelta? && From(calls, events)
        && (FindIndex(calls, e.index) < |calls| ==> calls[FindIndex(calls, e.index)].id == e.id)
    ensures From(Collect(calls, e), events + [e])
  {
    var after := Collect(calls, e);
    CollectedKeys(calls, e);
    hide Collect, FindIndex;
    FromMore(calls, events, e);
    hide From;
    assert e in events + [e];
    FromKeys(calls, after, events + [e], e);
  }

  /** A collected call is one there was, or has the fragment's own keys; indices stay distinct. */
  lemma CollectedKeys(calls: seq<Call>, e: Event)
    requires e.ToolDelta? && (forall i, j :: 0 <= i < j < |calls| ==> calls[i].index != calls[j].index)
    requires FindIndex(calls, e.index) < |calls| ==> calls[FindIndex(calls, e.index)].id == e.id
    ensures var after := Collect(calls, e);
            && (forall c :: c in after ==> c in calls || (c.index == e.index && c.id == e.id))
            && (forall i, j :: 0 <= i < j < |after| ==> after[i].index != after[j].index)
  {
    hide FindIndex;
    var k := FindIndex(calls, e.index);
    var after := Collect(calls, e);
    assert forall i :: 0 <= i < |calls| && i != k ==> after[i] == calls[i];
    assert after[k].index == e.index && after[k].id == e.id;
  }

  lemma FromKeys(calls: seq<Call>, after: seq<Call>, events: seq<Event>, e: Event)
    requires From(calls, events) && e in events && e.ToolDelta?
    requires forall c :: c in after ==> c in calls || (c.index == e.index && c.id == e.id)
    requires forall i, j :: 0 <= i < j < |after| ==> after[i].index != after[j].index
    ensures From(after, events)
  {
    forall c | c in after ensures exists x :: x in events && x.ToolDelta? && x.id == c.id && x.index == c.index {
      if c !in calls {
        assert c.index == e.index && c.id == e.id;
      }
    }
  }

  predicate DistinctIndices(calls: seq<Call>) {
    forall i, j :: 0 <= i < j < |calls| ==> calls[i].index != calls[j].index
  }

  lemma {:induction false} InsertDistinct(call: Call, sorted: seq<Call>)
    requires DistinctIndices(sorted) && forall c :: c in sorted ==> c.index != call.index
    ensures DistinctIndices(Insert(call, sorted)) && forall c :: c in Insert(call, sorted) <==> c == call || c in sorted
  {
    if sorted != [] && call.index >= sorted[0].index {
      InsertDistinct(call, sorted[1..]);
      assert forall c :: c in sorted <==> c == sorted[0] || c in sorted[1..];
      var rest := Insert(call, sorted[1..]);
      forall i | 0 <= i < |rest| ensures rest[i].index != sorted[0].index {
        assert rest[i] in rest;
        if rest[i] != call {
          var k :| 0 <= k < |sorted[1..]| && sorted[1..][k] == rest[i];
          assert sorted[k + 1] == rest[i];
        }
      }
    }
  }

  lemma {:induction false} SortDistinct(calls: seq<Call>)
    requires DistinctIndices(calls)
    ensures DistinctIndices(SortByIndex(calls)) && forall c :: c in SortByIndex(calls) <==> c in calls
    decreases |calls|
  {
    if calls != [] {
      var front := calls[..|calls| - 1];
      SortDistinct(front);
      assert forall c :: c in calls <==> c in front || c == calls[|calls| - 1];
      InsertDistinct(calls[|calls| - 1], SortByIndex(front));
    }
  }

  lemma {:induction false} FoldsCalls(chunks: seq<Chunk>, calls: seq<Call>)
    requires DistinctIndices(calls) && Folded(chunks).calls == []
    ensures Folded(chunks + CallChunks(calls)) == Folded(chunks).(calls := calls)
    decreases |calls|
  {
    hide Folded;
    if calls == [] {
      assert chunks + CallChunks(calls) == chunks;
    } else {
      var front, last := calls[..|calls| - 1], calls[|calls| - 1];
      FoldsCalls(chunks, front);
      var chunk := CallChunk(last.index, last.id, Filled(last.name), Filled(last.args));
      assert chunks + CallChunks(calls) == chunks + CallChunks(front) + [chunk];
      FoldsOne(chunks + CallChunks(front), chunk);
      assert FindIndex(front, last.index) == |front|;
      assert calls == front + [last];
    }
  }

  lemma FoldsOne(chunks: seq<Chunk>, last: Chunk)
    ensures Folded(chunks + [last]) == Take(Folded(chunks), last)
  {
    assert (chunks + [last])[..|chunks|] == chunks;
  }

  /**
   * For every stream that ends in a completion, with ids and indices one to one and names never
   * blank, the client that folds the chunks has exactly the text, the ordered calls and the finish
   * reason of the aggregated reply; and both fail, with no call surfaced, on the same arguments.
   */
  lemma StreamingIsAggregating(events: seq<Event>, usable: string -> bool)
    requires EndsCompleted(events) && OneToOne(events) && NamesFilled(events)
    ensures var reply := Reply(events, usable);
            var client := Folded(Streamed(events, usable).chunks);
            && (reply.Ok? ==> client == Client(reply.value.content, reply.value.calls, Some(reply.value.finish), None))
            && (reply.Err? ==> client.error == Some(reply.error) && client.calls == [] && client.finish == None)
    ensures Aggregated(events).Ok? && (Reply(events, usable).Err? <==>
        !AllUsable(Aggregated(events).value.calls, usable))
  {
    hide OneToOne, NamesFilled, From, Running, SortByIndex, AllUsable, DistinctIndices, Folded;
    var front, reason := events[..|events| - 1], events[|events| - 1].reason;
    FrontIsWellFormed(events);
    RunningAgrees(front, usable);
    var s := Streamed(front, usable);
    FromDistinct(s.calls, front);
    SortDistinct(s.calls);
    var sorted := SortByIndex(s.calls);
    SameUsable(sorted, s.calls, usable);
    if AllUsable(sorted, usable) {
      FoldsCalls(s.chunks, sorted);
      FoldsOne(s.chunks + CallChunks(sorted), FinishChunk(reason));
    } else {
      FoldsOne(s.chunks, ErrorChunk(MALFORMED));
    }
  }

  lemma FrontIsWellFormed(events: seq<Event>)
    requires events != [] && OneToOne(events) && NamesFilled(events)
    ensures OneToOne(events[..|events| - 1]) && NamesFilled(events[..|events| - 1])
  {
    assert forall x :: x in events[..|events| - 1] ==> x in events;
  }

  lemma FromDistinct(calls: seq<Call>, events: seq<Event>)
    requires From(calls, events)
    ensures DistinctIndices(calls)
  {
  }

  lemma SameUsable(a: seq<Call>, b: seq<Call>, usable: string -> bool)
    requires forall c :: c in a <==> c in b
    ensures AllUsable(a, usable) == AllUsable(b, usable)
  {
  }

  /** On a stream that ends in an error instead, both report that error. */
  lemma BothReportTheError(events: seq<Event>, usable: string -> bool)
    requires events != [] && events[|events| - 1].Error? && Running(events[..|events| - 1])
    requires OneToOne(events) && NamesFilled(events)
    ensures Reply(events, usable) == Err(events[|events| - 1].error)
    ensures var client := Folded(Streamed(events, usable).chunks);
            client.error == Some(events[|events| - 1].error) && client.calls == []
  {
    hide OneToOne, NamesFilled, From, Running, SortByIndex, AllUsable, Folded;
    var front := events[..|events| - 1];
    FrontIsWellFormed(events);
    RunningAgrees(front, usable);
    FoldsOne(Streamed(front, usable).chunks, ErrorChunk(events[|events| - 1].error));
  }

  /** The first error of the provider is the whole reply, whatever came before it and whatever follows. */
  lemma FirstErrorIsTheReply(events: seq<Event>, i: nat, usable: string -> bool)
    requires i < |events| && events[i].Error? && forall j :: 0 <= j < i ==> !events[j].Error?
    ensures Reply(events, usable) == Err(events[i].error)
  {
    NoErrorYet(events, i);
    ErrorAdded(events[..i], events[i]);
    assert events[..i + 1] == events[..i] + [events[i]];
    hide Aggregated, SortByIndex, AllUsable;
    ErrorsStick(events, i + 1);
  }

  lemma ErrorAdded(front: seq<Event>, e: Event)
    requires Aggregated(front).Ok? && e.Error?
    ensures Aggregated(front + [e]) == Err(e.error)
  {
    assert (front + [e])[..|front|] == front;
  }

  /** A stream that has not ended by then sends that error last, after nothing but text. */
  lemma FirstErrorEndsTheStream(events: seq<Event>, i: nat, usable: string -> bool)
    requires i < |events| && events[i].Error? && forall j :: 0 <= j < i ==> !events[j].Error? && !events[j].Completed?
    ensures Streamed(events, usable).chunks == Streamed(events[..i], usable).chunks + [ErrorChunk(events[i].error)]
    ensures forall c :: c in Streamed(events[..i], usable).chunks ==> c.ContentChunk?
  {
    hide Streamed, Forward;
    OnlyTextYet(events, i, usable);
    NextEvent(events[..i], events[i], usable);
    ErrorForwarded(Streamed(events[..i], usable), events[i], usable);
    assert events[..i + 1] == events[..i] + [events[i]];
    EndedStays(events, i + 1, usable);
  }

  lemma ErrorForwarded(s: Streaming, e: Event, usable: string -> bool)
    requires e.Error? && !s.ended
    ensures Forward(s, e, usable).ended && Forward(s, e, usable).chunks == s.chunks + [ErrorChunk(e.error)]
  {
  }

  lemma {:induction false} NoErrorYet(events: seq<Event>, i: nat)
    requires i <= |events| && forall j :: 0 <= j < i ==> !events[j].Error?
    ensures Aggregated(events[..i]).Ok?
  {
    hide Absorb;
    if i > 0 {
      NoErrorYet(events, i - 1);
      assert events[..i][..i - 1] == events[..i - 1];
    }
  }

  lemma {:induction false} OnlyTextYet(events: seq<Event>, i: nat, usable: string -> bool)
    requires i <= |events| && forall j :: 0 <= j < i ==> !events[j].Error? && !events[j].Completed?
    ensures !Streamed(events[..i], usable).ended
    ensures forall c :: c in Streamed(events[..i], usable).chunks ==> c.ContentChunk?
  {
    hide Collect, SortByIndex, AllUsable;
    if i > 0 {
      OnlyTextYet(events, i - 1, usable);
      NextEvent(events[..i - 1], events[i - 1], usable);
      assert events[..i] == events[..i - 1] + [events[i - 1]];
    }
  }

  /** Two ids under one index: the aggregated reply has two calls, and the stream merges them into one. */
  lemma SharedIndexMerges(index: nat, a: string, b: string, f: string, g: string, x: string, y: string,
      usable: string -> bool)
    requires a != b && f != "" && g != ""
    ensures var events := [ToolDelta(index, a, Some(f), Some(x)), ToolDelta(index, b, Some(g), Some(y))];
            && NamesFilled(events) && !OneToOne(events)
            && Aggregated(events).Ok? && Aggregated(events).value.calls == [Call(index, a, f, x), Call(index, b, g, y)]
            && Streamed(events, usable).calls == [Call(index, a, g, x + y)]
  {
    var d, e := ToolDelta(index, a, Some(f), Some(x)), ToolDelta(index, b, Some(g), Some(y));
    assert [d, e][0] == d && [d, e][1] == e && d in [d, e] && e in [d, e];
    hide Aggregated, Streamed, NamesFilled, OneToOne, Gather, Collect;
    StartsEmpty(usable);
    NextEvent([], d, usable);
    NextEvent([d], e, usable);
    assert [] + [d] == [d] && [d] + [e] == [d, e];
    TwoIdsOneIndex(d, e);
  }

  lemma TwoIdsOneIndex(d: Event, e: Event)
    requires d.ToolDelta? && e.ToolDelta? && d.index == e.index && d.id != e.id
    requires d.name.Some? && e.name.Some? && d.name.value != "" && e.name.value != "" && d.args.Some? && e.args.Some?
    ensures var one := [Call(d.index, d.id, d.name.value, d.args.value)];
            && Gather([], d) == one && Collect([], d) == one
            && Gather(one, e) == one + [Call(e.index, e.id, e.name.value, e.args.value)]
            && Collect(one, e) == [Call(d.index, d.id, e.name.value, d.args.value + e.args.value)]
  {
    assert [] + d.args.value == d.args.value && "" + d.args.value == d.args.value && "" + e.args.value == e.args.value;
  }

  lemma StartsEmpty(usable: string -> bool)
    ensures Aggregated([]) == Ok(Aggregate("", [], Stop, None, None))
        && Streamed([], usable) == Streaming([], [], false)
  {
  }

  lemma NextEvent(front: seq<Event>, e: Event, usable: string -> bool)
    ensures Streamed(front + [e], usable) == Forward(Streamed(front, usable), e, usable)
    ensures Aggregated(front).Ok? && !e.Error? ==> Aggregated(front + [e]) == Ok(Absorb(Aggregated(front).value, e))
  {
    assert (front + [e])[..|front|] == front;
  }

  // ---- what a gathered call is ----

  /** All argument text sent for one id, in order. */
  function ArgsOf(events: seq<Event>, id: string): string {
    if events == [] then ""
    else
      var e := events[|events| - 1];
      ArgsOf(events[..|events| - 1], id) + if e.ToolDelta? && e.id == id then Or(e.args) else ""
  }

  /** The last name that was sent for one id and not blank. */
  function NameOf(events: seq<Event>, id: string): string {
    if events == [] then ""
    else
      var e := events[|events| - 1];
      if e.ToolDelta? && e.id == id && Or(e.name) != "" then e.name.value else NameOf(events[..|events| - 1], id)
  }

  function TextOf(events: seq<Event>): string {
    if events == [] then ""
    else TextOf(events[..|events| - 1]) + if events[|events| - 1].Text? then events[|events| - 1].text else ""
  }

  predicate Mentioned(events: seq<Event>, id: string) {
    exists e :: e in events && e.ToolDelta? && e.id == id
  }

  /**
   * The aggregated reply holds, for each id mentioned, one call with all of its arguments and its name; and all of the
   * text.
   */
  ghost predicate HasId(calls: seq<Call>, id: string) {
    exists c :: c in calls && c.id == id
  }

  ghost predicate Gathered(calls: seq<Call>, events: seq<Event>) {
    && (forall c :: c in calls ==> c.name == NameOf(events, c.id) && c.args == ArgsOf(events, c.id))
    && (forall i, j :: 0 <= i < j < |calls| ==> calls[i].id != calls[j].id)
    && (forall id :: Mentioned(events, id) <==> HasId(calls, id))
    && (forall id :: !Mentioned(events, id) ==> NameOf(events, id) == "" && ArgsOf(events, id) == "")
  }

  lemma {:induction false} AggregateGathersEverything(events: seq<Event>)
    requires forall e :: e in events ==> !e.Error?
    ensures Aggregated(events).Ok?
    ensures Aggregated(events).value.content == TextOf(events) && Gathered(Aggregated(events).value.calls, events)
    decreases |events|
  {
    hide Gathered, Gather;
    if events == [] {
      NothingGathered();
    } else {
      var front, e := events[..|events| - 1], events[|events| - 1];
      assert forall x :: x in front ==> x in events;
      AggregateGathersEverything(front);
      assert events == front + [e];
      if e.ToolDelta? {
        GatheredOne(Aggregated(front).value.calls, front, e);
      } else {
        GatheredSame(Aggregated(front).value.calls, front, e);
      }
    }
  }

  lemma NothingGathered()
    ensures Gathered([], [])
  {
  }

  lemma MentionedMore(front: seq<Event>, e: Event)
    ensures forall id :: Mentioned(front + [e], id) <==> Mentioned(front, id) || (e.ToolDelta? && e.id == id)
  {
    forall id | Mentioned(front, id) ensures Mentioned(front + [e], id) {
      var x :| x in front && x.ToolDelta? && x.id == id;
      assert x in front + [e];
    }
    assert e in front + [e];
  }

  lemma TextsMore(front: seq<Event>, e: Event, id: string)
    ensures ArgsOf(front + [e], id) == ArgsOf(front, id) + if e.ToolDelta? && e.id == id then Or(e.args) else ""
    ensures NameOf(front + [e], id) == if e.ToolDelta? && e.id == id && Or(e.name) != "" then e.name.value
        else NameOf(front, id)
  {
    assert (front + [e])[..|front|] == front;
  }

  lemma GatheredSame(calls: seq<Call>, front: seq<Event>, e: Event)
    requires Gathered(calls, front) && !e.ToolDelta?
    ensures Gathered(calls, front + [e])
  {
    MentionedMore(front, e);
    forall id ensures NameOf(front + [e], id) == NameOf(front, id) && ArgsOf(front + [e], id) == ArgsOf(front, id) {
      TextsMore(front, e, id);
    }
    hide Mentioned, NameOf, ArgsOf;
  }

  lemma GatheredOne(calls: seq<Call>, front: seq<Event>, e: Event)
    requires Gathered(calls, front) && e.ToolDelta?
    ensures Gathered(Gather(calls, e), front + [e])
  {
    hide Mentioned, NameOf, ArgsOf, HasId, FindId;
    MentionedMore(front, e);
    forall id ensures NameOf(front + [e], id)
        == (if id == e.id && Or(e.name) != "" then e.name.value else NameOf(front, id))
      ensures ArgsOf(front + [e], id) == ArgsOf(front, id) + if id == e.id then Or(e.args) else ""
    {
      TextsMore(front, e, id);
    }
    var k := FindId(calls, e.id);
    var after := Gather(calls, e);
    assert after[k] in after && after[k].id == e.id;
    assert k < |calls| ==> calls[k] in calls;
    GatheredIds(calls, e);
    AbsentId(calls, e.id);
    forall c | c in after ensures c.name == NameOf(front + [e], c.id) && c.args == ArgsOf(front + [e], c.id) {
      if c.id != e.id {
        assert c in calls;
      } else {
        assert c == after[k];
      }
    }
  }

  lemma AbsentId(calls: seq<Call>, id: string)
    ensures FindId(calls, id) == |calls| ==> !HasId(calls, id)
  {
  }

  /** Gathering adds at most the event's own id, and touches only its call. */
  lemma GatheredIds(calls: seq<Call>, e: Event)
    requires e.ToolDelta? && forall i, j :: 0 <= i < j < |calls| ==> calls[i].id != calls[j].id
    ensures var after := Gather(calls, e);
            && (forall i, j :: 0 <= i < j < |after| ==> after[i].id != after[j].id)
            && (forall id :: HasId(after, id) <==> id == e.id || HasId(calls, id))
            && (forall c :: c in after && c.id != e.id ==> c in calls)
            && (forall c :: c in after && c.id == e.id ==> c == after[FindId(calls, e.id)])
  {
    var k := FindId(calls, e.id);
    var after := Gather(calls, e);
    assert after[k] in after;
    forall c | c in calls ensures HasId(after, c.id) {
      var j :| 0 <= j < |calls| && calls[j] == c;
      assert after[j] in after && after[j].id == c.id;
    }
  }

  // ---- what the aggregate takes from the latest event ----

  /** The index sent last for one id. */
  function LatestIndex(events: seq<Event>, id: string): nat {
    if events == [] then 0
    else
      var e := events[|events| - 1];
      if e.ToolDelta? && e.id == id then e.index else LatestIndex(events[..|events| - 1], id)
  }

  ghost predicate LatestIndices(calls: seq<Call>, events: seq<Event>) {
    && (forall i, j :: 0 <= i < j < |calls| ==> calls[i].id != calls[j].id)
    && (forall c :: c in calls ==> c.index == LatestIndex(events, c.id))
  }

  /** The last completion, if any, gives the reason, and the last sizes that were sent are the ones reported. */
  ghost predicate Latest(a: Aggregate, events: seq<Event>) {
    && (forall i | 0 <= i < |events| && events[i].Completed? && forall j :: i < j < |events| ==>
        !events[j].Completed? ::
          a.finish == events[i].reason)
    && ((forall i :: 0 <= i < |events| ==> !events[i].Completed?) ==> a.finish == Stop)
    && (forall i | 0 <= i < |events| && events[i].Usage? && events[i].input.Some?
                   && forall j :: i < j < |events| && events[j].Usage? ==> events[j].input.None? ::
          a.input == events[i].input)
    && (forall i | 0 <= i < |events| && events[i].Usage? && events[i].output.Some?
                   && forall j :: i < j < |events| && events[j].Usage? ==> events[j].output.None? ::
          a.output == events[i].output)
  }

  ghost predicate KeptLatest(r: Result<Aggregate, Failure>, events: seq<Event>) {
    r.Ok? && Latest(r.value, events) && LatestIndices(r.value.calls, events)
  }

  lemma {:induction false} AggregateKeepsTheLatest(events: seq<Event>)
    requires forall e :: e in events ==> !e.Error?
    ensures KeptLatest(Aggregated(events), events)
    decreases |events|
  {
    hide KeptLatest, Aggregated;
    if events == [] {
      NothingIsLatest();
    } else {
      var front, e := events[..|events| - 1], events[|events| - 1];
      assert e in events && forall x :: x in front ==> x in events;
      AggregateKeepsTheLatest(front);
      assert events == front + [e];
      OneMoreIsLatest(front, e);
    }
  }

  lemma OneMoreIsLatest(front: seq<Event>, e: Event)
    requires KeptLatest(Aggregated(front), front) && !e.Error?
    ensures KeptLatest(Aggregated(front + [e]), front + [e])
  {
    hide Latest, LatestIndices, Gather, Absorb, Aggregated;
    AbsorbedNext(front, e);
    LatestMore(Aggregated(front).value, front, e);
    if e.ToolDelta? {
      LatestGathered(Aggregated(front).value.calls, front, e);
    } else {
      LatestSame(Aggregated(front).value.calls, front, e);
    }
  }

  lemma AbsorbedNext(front: seq<Event>, e: Event)
    requires Aggregated(front).Ok? && !e.Error?
    ensures Aggregated(front + [e]) == Ok(Absorb(Aggregated(front).value, e))
    ensures Absorb(Aggregated(front).value, e).calls
         == if e.ToolDelta? then Gather(Aggregated(front).value.calls, e) else Aggregated(front).value.calls
  {
    hide Gather;
    assert (front + [e])[..|front|] == front;
  }

  lemma NothingIsLatest()
    ensures KeptLatest(Aggregated([]), [])
  {
  }

  lemma LatestMore(a: Aggregate, front: seq<Event>, e: Event)
    requires Latest(a, front) && !e.Error?
    ensures Latest(Absorb(a, e), front + [e])
  {
    hide Gather;
    var events := front + [e];
    assert forall i :: 0 <= i < |front| ==> events[i] == front[i];
    assert events[|front|] == e;
  }

  lemma LatestIndexMore(front: seq<Event>, e: Event, id: string)
    ensures LatestIndex(front + [e], id) == if e.ToolDelta? && e.id == id then e.index else LatestIndex(front, id)
  {
    assert (front + [e])[..|front|] == front;
  }

  lemma LatestSame(calls: seq<Call>, front: seq<Event>, e: Event)
    requires LatestIndices(calls, front) && !e.ToolDelta?
    ensures LatestIndices(calls, front + [e])
  {
    forall c | c in calls ensures c.index == LatestIndex(front + [e], c.id) {
      LatestIndexMore(front, e, c.id);
    }
    hide LatestIndex;
  }

  lemma LatestGathered(calls: seq<Call>, front: seq<Event>, e: Event)
    requires LatestIndices(calls, front) && e.ToolDelta?
    ensures LatestIndices(Gather(calls, e), front + [e])
  {
    GatheredIds(calls, e);
    var after := Gather(calls, e);
    assert after[FindId(calls, e.id)].index == e.index;
    hide Gather, FindId, LatestIndex, HasId;
    forall c | c in after ensures c.index == LatestIndex(front + [e], c.id) {
      LatestIndexMore(front, e, c.id);
    }
  }

  lemma GatheredPermuted(calls: seq<Call>, sorted: seq<Call>, events: seq<Event>)
    requires Gathered(calls, events) && multiset(sorted) == multiset(calls)
    ensures Gathered(sorted, events)
  {
    assert forall c :: c in sorted <==> c in multiset(sorted);
    assert forall c :: c in calls <==> c in multiset(calls);
    hide Mentioned, NameOf, ArgsOf;
    IdsApart(calls, sorted);
  }

  /** Reordering keeps ids apart. */
  lemma IdsApart(calls: seq<Call>, sorted: seq<Call>)
    requires forall i, j :: 0 <= i < j < |calls| ==> calls[i].id != calls[j].id
    requires multiset(sorted) == multiset(calls)
    ensures forall i, j :: 0 <= i < j < |sorted| ==> sorted[i].id != sorted[j].id
  {
    forall i, j | 0 <= i < j < |sorted| ensures sorted[i].id != sorted[j].id {
      assert sorted[i] in multiset(sorted) && sorted[j] in multiset(sorted);
      var a :| 0 <= a < |calls| && calls[a] == sorted[i];
      var b :| 0 <= b < |calls| && calls[b] == sorted[j];
      if a == b {
        TwiceInside(sorted, i, j);
        OnceInside(calls, a);
      }
    }
  }

  lemma TwiceInside(calls: seq<Call>, i: nat, j: nat)
    requires i < j < |calls| && calls[i] == calls[j]
    ensures multiset(calls)[calls[i]] >= 2
  {
    assert calls == calls[..j] + [calls[j]] + calls[j + 1..];
    assert calls[..j][i] in calls[..j];
  }

  lemma OnceInside(calls: seq<Call>, a: nat)
    requires a < |calls| && forall i, j :: 0 <= i < j < |calls| ==> calls[i].id != calls[j].id
    ensures multiset(calls)[calls[a]] == 1
  {
    assert calls == calls[..a] + [calls[a]] + calls[a + 1..];
    assert calls[a] !in calls[..a] && calls[a] !in calls[a + 1..];
  }

  /** All the argument texts that the provider sent are usable, each put together over its id. */
  ghost predicate ArgumentsUsable(events: seq<Event>, usable: string -> bool) {
    forall id :: Mentioned(events, id) ==> usable(ArgsOf(events, id))
  }

  lemma UsableArguments(calls: seq<Call>, events: seq<Event>, usable: string -> bool)
    requires Gathered(calls, events)
    ensures AllUsable(calls, usable) <==> ArgumentsUsable(events, usable)
  {
    hide Mentioned, NameOf, ArgsOf;
    if AllUsable(calls, usable) {
      forall id | Mentioned(events, id) ensures usable(ArgsOf(events, id)) {
        assert HasId(calls, id);
        var c :| c in calls && c.id == id;
      }
    } else {
      var c :| c in calls && !usable(c.args);
      assert HasId(calls, c.id);
    }
  }

  /**
   * The reply, event by event: it fails exactly when the arguments of some call are malformed. Otherwise it has all the
   * text, one call for each id mentioned with everything sent for it, by rising index, and the last reason.
   */
  lemma ReplyIsTheSum(events: seq<Event>, usable: string -> bool)
    requires forall e :: e in events ==> !e.Error?
    ensures Reply(events, usable).Err? <==> !ArgumentsUsable(events, usable)
    ensures var r := Reply(events, usable);
            && (r.Err? ==> r.error == MALFORMED)
            && (r.Ok? ==> r.value.content == TextOf(events) && Ascending(r.value.calls)
                          && Gathered(r.value.calls, events) && LatestIndices(r.value.calls, events))
  {
    AggregateGathersEverything(events);
    AggregateKeepsTheLatest(events);
    var calls := Aggregated(events).value.calls;
    hide Aggregated, Latest, LatestIndices, Ascending, SortByIndex, Gathered, AllUsable, ArgumentsUsable, TextOf;
    SortSorts(calls);
    GatheredPermuted(calls, SortByIndex(calls), events);
    LatestPermuted(calls, SortByIndex(calls), events);
    UsableArguments(SortByIndex(calls), events, usable);
  }

  lemma LatestPermuted(calls: seq<Call>, sorted: seq<Call>, events: seq<Event>)
    requires LatestIndices(calls, events) && multiset(sorted) == multiset(calls)
    ensures LatestIndices(sorted, events)
  {
    assert forall c :: c in sorted <==> c in multiset(sorted);
    assert forall c :: c in calls <==> c in multiset(calls);
    hide LatestIndex;
    IdsApart(calls, sorted);
  }

  // ---- what a streamed call is ----

  /** All argument text sent under one index, in order. */
  function ArgsAt(events: seq<Event>, index: nat): string {
    if events == [] then ""
    else
      var e := events[|events| - 1];
      ArgsAt(events[..|events| - 1], index) + if e.ToolDelta? && e.index == index then Or(e.args) else ""
  }

  /** The last name that was sent under one index; one that is blank replaces one that is not. */
  function NameAt(events: seq<Event>, index: nat): string {
    if events == [] then ""
    else
      var e := events[|events| - 1];
      if e.ToolDelta? && e.index == index && e.name.Some? then e.name.value
      else NameAt(events[..|events| - 1], index)
  }

  predicate Touched(events: seq<Event>, index: nat) {
    exists e :: e in events && e.ToolDelta? && e.index == index
  }

  /** The id that came with the first fragment under one index. */
  ghost function IdAt(events: seq<Event>, index: nat): string {
    if events == [] then ""
    else
      var front, e := events[..|events| - 1], events[|events| - 1];
      if e.ToolDelta? && e.index == index && !Touched(front, index) then e.id else IdAt(front, index)
  }

  ghost predicate CallAt(events: seq<Event>, c: Call) {
    && Touched(events, c.index)
    && c.id == IdAt(events, c.index) && c.name == NameAt(events, c.index) && c.args == ArgsAt(events, c.index)
  }

  /** One call for each index that was used, made of everything that came under it. */
  ghost predicate CollectedAll(calls: seq<Call>, events: seq<Event>) {
    && (forall i :: 0 <= i < |calls| ==> CallAt(events, calls[i]))
    && DistinctIndices(calls)
    && (forall index :: Touched(events, index) ==> FindIndex(calls, index) < |calls|)
  }

  lemma AtMore(front: seq<Event>, e: Event, index: nat)
    ensures var mine := e.ToolDelta? && e.index == index;
            && ArgsAt(front + [e], index) == ArgsAt(front, index) + (if mine then Or(e.args) else "")
            && NameAt(front + [e], index) == (if mine && e.name.Some? then e.name.value else NameAt(front, index))
            && IdAt(front + [e], index) == (if mine && !Touched(front, index) then e.id else IdAt(front, index))
            && (Touched(front + [e], index) <==> Touched(front, index) || mine)
  {
    assert (front + [e])[..|front|] == front;
    assert (front + [e])[|front|] == e;
    if Touched(front, index) {
      var x :| x in front && x.ToolDelta? && x.index == index;
      assert x in front + [e];
    }
  }

  lemma {:induction false} UntouchedIsEmpty(events: seq<Event>, index: nat)
    requires !Touched(events, index)
    ensures ArgsAt(events, index) == "" && NameAt(events, index) == ""
    decreases |events|
  {
    if events != [] {
      var front, e := events[..|events| - 1], events[|events| - 1];
      assert events == front + [e];
      AtMore(front, e, index);
      UntouchedIsEmpty(front, index);
    }
  }

  lemma CollectedSame(calls: seq<Call>, front: seq<Event>, e: Event)
    requires CollectedAll(calls, front) && !e.ToolDelta?
    ensures CollectedAll(calls, front + [e])
  {
    forall index: nat ensures Touched(front + [e], index) <==> Touched(front, index) {
      AtMore(front, e, index);
    }
    forall i | 0 <= i < |calls| ensures CallAt(front + [e], calls[i]) {
      AtMore(front, e, calls[i].index);
    }
    hide CallAt, Touched, FindIndex;
  }

  lemma CollectedMore(calls: seq<Call>, front: seq<Event>, e: Event)
    requires CollectedAll(calls, front) && e.ToolDelta?
    ensures CollectedAll(Collect(calls, e), front + [e])
  {
    hide Touched, ArgsAt, NameAt, IdAt, FindIndex;
    var k := FindIndex(calls, e.index);
    var after := Collect(calls, e);
    if k == |calls| {
      UntouchedIsEmpty(front, e.index);
    }
    forall i | 0 <= i < |after| ensures CallAt(front + [e], after[i]) {
      AtMore(front, e, after[i].index);
      if i != k {
        assert after[i] == calls[i];
      }
    }
    forall index: nat | Touched(front + [e], index) ensures FindIndex(after, index) < |after| {
      AtMore(front, e, index);
      var j := FindIndex(calls, index);
      if index == e.index {
        assert after[k].index == index;
      } else {
        assert after[j].index == index;
      }
    }
  }

  /** While a stream runs, it has collected one call for each index that was used, with everything sent under it. */
  lemma {:induction false} StreamCollectsEverything(events: seq<Event>, usable: string -> bool)
    requires Running(events)
    ensures !Streamed(events, usable).ended && CollectedAll(Streamed(events, usable).calls, events)
    decreases |events|
  {
    hide CollectedAll, Collect, SortByIndex, AllUsable;
    if events == [] {
      NothingAt();
    } else {
      var front, e := events[..|events| - 1], events[|events| - 1];
      assert forall x :: x in front ==> x in events;
      StreamCollectsEverything(front, usable);
      assert events == front + [e];
      assert e in events;
      if e.ToolDelta? {
        CollectedMore(Streamed(front, usable).calls, front, e);
      } else {
        CollectedSame(Streamed(front, usable).calls, front, e);
      }
    }
  }

  lemma NothingAt()
    ensures CollectedAll([], [])
  {
  }
}
