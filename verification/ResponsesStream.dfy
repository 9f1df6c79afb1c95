/**
 * The streamed Responses surface: each output item is announced, filled and finished under its own
 * index. What reaches the client is judged by a monitor that knows only the protocol.
 */
module ResponsesStream {
  import opened Options
  import opened ChatStream
  import opened PendingCalls

  datatype Item = Message(text: string) | FunctionCall(itemId: string, callId: string, name: string, args: string)

  datatype Out =
    | Created
    | MessageAdded(k: nat)
    | CallAdded(k: nat, itemId: string, callId: string, name: string)
    | PartAdded(k: nat)
    | TextDelta(k: nat, text: string)
    | TextDone(k: nat, text: string)
    | PartDone(k: nat, text: string)
    | ArgsDelta(k: nat, args: string, name: string)
    | ArgsDone(k: nat, args: string, name: string)
    | ItemDone(k: nat, item: Item)
    | ResponseCompleted(output: seq<Item>)
    | ResponseFailed(error: Failure)

  // ---- what the server does ----

  datatype Server = Server(
    out: seq<Out>,
    nextOutput: nat,
    textIndex: Option<nat>,
    text: string,
    calls: seq<Pending>,
    ended: bool)

  function OnText(s: Server, text: string): Server {
    var s1 := if s.textIndex.Some? then s
              else s.(textIndex := Some(s.nextOutput), nextOutput := s.nextOutput + 1,
                      out := s.out + [MessageAdded(s.nextOutput), PartAdded(s.nextOutput)]);
    s1.(text := s1.text + text, out := s1.out + [TextDelta(s1.textIndex.value, text)])
  }

  /** Any name that is present replaces the last one; the id stays the first. */
  function OnDelta(s: Server, key: nat, id: string, name: Option<string>, args: Option<string>): Server {
    var i := FindKey(s.calls, key);
    if i < |s.calls| then
      var call := s.calls[i];
      s.(calls := s.calls[i := call.(name :=
          if name.Some? then name.value else call.name, args := call.args + Or(args))])
    else s.(calls := s.calls + [Pending(key, s.nextOutput, id, Or(name), "" + Or(args))],
        nextOutput := s.nextOutput + 1)
  }

  function TextEnd(k: nat, text: string): seq<Out> {
    [TextDone(k, text), PartDone(k, text), ItemDone(k, Message(text))]
  }

  function ItemIdOf(id: string): string {
    "fc_" + id
  }

  function CallItem(c: Pending): Item {
    FunctionCall(ItemIdOf(c.id), c.id, c.name, c.args)
  }

  function CallOut(c: Pending): seq<Out> {
    [CallAdded(c.place, ItemIdOf(c.id), c.id, c.name)]
    + (if c.args != "" then [ArgsDelta(c.place, c.args, c.name)] else [])
    + [ArgsDone(c.place, c.args, c.name), ItemDone(c.place, CallItem(c))]
  }

  function CallsOut(calls: seq<Pending>): seq<Out> {
    if calls == [] then [] else CallsOut(calls[..|calls| - 1]) + CallOut(calls[|calls| - 1])
  }

  predicate CallsUsable(calls: seq<Pending>, usable: string -> bool) {
    forall c :: c in calls ==> usable(c.args)
  }

  /** The completed items by index: what the final snapshot lists. */
  function Snapshot(items: map<nat, Item>, n: nat): seq<Item> {
    if n == 0 then [] else Snapshot(items, n - 1) + if n - 1 in items then [items[n - 1]] else []
  }

  function DoneItems(textIndex: Option<nat>, text: string, calls: seq<Pending>): map<nat, Item> {
    if calls == [] then (if textIndex.Some? then map[textIndex.value := Message(text)] else map[])
    else DoneItems(textIndex, text, calls[..|calls| - 1])[calls[|calls| - 1].place := CallItem(calls[|calls| - 1])]
  }

  function OnCompleted(s: Server, usable: string -> bool): Server {
    var s1 := if s.textIndex.Some? then s.(out := s.out + TextEnd(s.textIndex.value, s.text)) else s;
    var ordered := SortByPlace(s.calls);
    if !CallsUsable(ordered, usable) then s1.(out := s1.out + [ResponseFailed(MALFORMED)], ended := true)
    else
      var output := Snapshot(DoneItems(s.textIndex, s.text, ordered), s.nextOutput);
      s1.(out := s1.out + CallsOut(ordered) + [ResponseCompleted(output)], ended := true)
  }

  function Serve(s: Server, e: Event, usable: string -> bool): Server {
    if s.ended then s
    else match e
      case Text(text) => OnText(s, text)
      case ToolDelta(index, id, name, args) => OnDelta(s, index, id, name, args)
      case Usage(_, _) => s
      case Completed(_) => OnCompleted(s, usable)
      case Error(error) => s.(out := s.out + [ResponseFailed(error)], ended := true)
  }

  function Served(events: seq<Event>, usable: string -> bool): Server {
    if events == [] then Server([Created], 0, None, "", [], false)
    else Serve(Served(events[..|events| - 1], usable), events[|events| - 1], usable)
  }

  // ---- what a client may expect ----

  /** An item that has been announced and not finished: how far it is. */
  datatype Open =
    | OpenMessage
    | OpenPart(text: string)
    | DonePart(text: string)
    | ClosedPart(text: string)
    | OpenCall(itemId: string, callId: string, name: string, args: string)
    | DoneCall(itemId: string, callId: string, name: string, args: string)

  datatype Monitor =
    | Watching(open: map<nat, Open>, closed: map<nat, Item>)
    | Finished(closed: map<nat, Item>)
    | Failing(open: map<nat, Open>, closed: map<nat, Item>, error: Failure)
    | Violated

  /** The protocol: an index is announced once, filled in order, and finished with exactly what it was filled with. */
  ghost function Observe(m: Monitor, e: Out): Monitor {
    if !m.Watching? then Violated
    else
      var open, closed := m.open, m.closed;
      match e
      case Created => if open == map[] && closed == map[] then m else Violated
      case MessageAdded(k) => if k in open || k in closed then Violated else Watching(open[k := OpenMessage], closed)
      case CallAdded(k, itemId, callId, name) =>
        if k in open || k in closed then Violated else Watching(open[k := OpenCall(itemId, callId, name, "")], closed)
      case PartAdded(k) => if k in open && open[k].OpenMessage?
          then Watching(open[k := OpenPart("")], closed) else Violated
      case TextDelta(k, text) =>
        if k in open && open[k].OpenPart? then Watching(open[k := OpenPart(open[k].text + text)], closed) else Violated
      case TextDone(k, text) => if k in open && open[k] == OpenPart(text)
          then Watching(open[k := DonePart(text)], closed) else Violated
      case PartDone(k, text) => if k in open && open[k] == DonePart(text)
          then Watching(open[k := ClosedPart(text)], closed) else Violated
      case ArgsDelta(k, args, name) =>
        if k in open && open[k].OpenCall? && open[k].name == name
            then Watching(open[k := OpenCall(open[k].itemId, open[k].callId, name, open[k].args + args)], closed)
        else Violated
      case ArgsDone(k, args, name) =>
        if k in open && open[k].OpenCall? && open[k].name == name && open[k].args == args
        then Watching(open[k := DoneCall(open[k].itemId, open[k].callId, name, args)], closed)
        else Violated
      case ItemDone(k, item) =>
        if k in open && Matches(open[k], item) then Watching(open - {k}, closed[k := item]) else Violated
      case ResponseCompleted(output) =>
        if open == map[] && Lists(output, closed) then Finished(closed) else Violated
      case ResponseFailed(error) => Failing(open, closed, error)
  }

  predicate Matches(open: Open, item: Item) {
    match item
    case Message(text) => open == ClosedPart(text)
    case FunctionCall(itemId, callId, name, args) => open == DoneCall(itemId, callId, name, args)
  }

  /** The snapshot lists exactly the finished items, by index, from zero without gaps. */
  ghost predicate Lists(output: seq<Item>, closed: map<nat, Item>) {
    (forall k: nat :: k in closed <==> k < |output|) && (forall k: nat :: k in closed ==> closed[k] == output[k])
  }

  ghost function Watched(out: seq<Out>): Monitor {
    if out == [] then Watching(map[], map[]) else Observe(Watched(out[..|out| - 1]), out[|out| - 1])
  }

  lemma WatchedNext(out: seq<Out>, e: Out)
    ensures Watched(out + [e]) == Observe(Watched(out), e)
  {
    assert (out + [e])[..|out|] == out;
  }

  // ---- while the stream runs ----

  /** Output places are handed out in order, each to one call or to the message. */
  ghost predicate Placed(s: Server) {
    && Rising(s.calls)
    && (forall i :: 0 <= i < |s.calls| ==> s.calls[i].place < s.nextOutput && s.textIndex != Some(s.calls[i].place))
    && (s.textIndex.Some? ==> s.textIndex.value < s.nextOutput)
    && (forall k: nat :: k < s.nextOutput ==> s.textIndex == Some(k) || HasPlace(s.calls, k))
  }

  /** So far the client has seen at most the message, open and filled with all of the text. */
  ghost function Expected(textIndex: Option<nat>, text: string): Monitor {
    Watching(if textIndex.Some? then map[textIndex.value := OpenPart(text)] else map[], map[])
  }

  lemma {:induction false} RunningIsExpected(events: seq<Event>, usable: string -> bool)
    requires Running(events)
    ensures var s := Served(events, usable);
            && !s.ended && Placed(s) && Watched(s.out) == Expected(s.textIndex, s.text)
            && s.text == TextOf(events) && (s.textIndex == None ==> s.text == "")
    decreases |events|
  {
    hide Placed, Watched, Expected, OnText, OnDelta;
    if events == [] {
      StartIsExpected();
    } else {
      var front, e := events[..|events| - 1], events[|events| - 1];
      assert forall x :: x in front ==> x in events;
      RunningIsExpected(front, usable);
      var s := Served(front, usable);
      if e.Text? {
        TextIsExpected(s, e.text);
      } else if e.ToolDelta? {
        DeltaIsPlaced(s, e.index, e.id, e.name, e.args);
      }
    }
  }

  lemma StartIsExpected()
    ensures Placed(Server([Created], 0, None, "", [], false)) && Watched([Created]) == Expected(None, "")
  {
    assert [Created][..0] == [];
  }

  lemma TextIsExpected(s: Server, text: string)
    requires Placed(s) && Watched(s.out) == Expected(s.textIndex, s.text) && (s.textIndex == None ==> s.text == "")
    ensures var t := OnText(s, text);
            && Placed(t) && Watched(t.out) == Expected(t.textIndex, t.text) && t.textIndex.Some?
                && t.text == s.text + text && t.ended == s.ended
            && t.calls == s.calls
  {
    hide Watched;
    var t := OnText(s, text);
    var k := t.textIndex.value;
    if s.textIndex == None {
      WatchedNext(s.out, MessageAdded(k));
      WatchedNext(s.out + [MessageAdded(k)], PartAdded(k));
      assert s.out + [MessageAdded(k), PartAdded(k)] == s.out + [MessageAdded(k)] + [PartAdded(k)];
      WatchedNext(s.out + [MessageAdded(k), PartAdded(k)], TextDelta(k, text));
    } else {
      WatchedNext(s.out, TextDelta(k, text));
    }
  }

  lemma DeltaIsPlaced(s: Server, key: nat, id: string, name: Option<string>, args: Option<string>)
    requires Placed(s)
    ensures var t := OnDelta(s, key, id, name, args);
            Placed(t) && t.out == s.out && t.textIndex == s.textIndex && t.text == s.text && t.ended == s.ended
  {
    var i := FindKey(s.calls, key);
    hide FindKey;
    var t := OnDelta(s, key, id, name, args);
    if i < |s.calls| {
      assert forall j :: 0 <= j < |s.calls| ==> t.calls[j].place == s.calls[j].place;
      SamePlaces(s, t);
    } else {
      NewPlace(s, t.calls[|s.calls|]);
    }
  }

  lemma SamePlaces(s: Server, t: Server)
    requires Placed(s) && t.textIndex == s.textIndex && t.nextOutput == s.nextOutput && |t.calls| == |s.calls|
    requires forall j :: 0 <= j < |s.calls| ==> t.calls[j].place == s.calls[j].place
    ensures Placed(t)
  {
    forall k: nat | k < t.nextOutput ensures t.textIndex == Some(k) || HasPlace(t.calls, k) {
      if t.textIndex != Some(k) {
        var j :| 0 <= j < |s.calls| && s.calls[j].place == k;
        assert t.calls[j].place == k;
      }
    }
  }

  lemma NewPlace(s: Server, c: Pending)
    requires Placed(s) && c.place == s.nextOutput
    ensures Placed(s.(calls := s.calls + [c], nextOutput := s.nextOutput + 1))
  {
    var t := s.(calls := s.calls + [c], nextOutput := s.nextOutput + 1);
    assert forall i :: 0 <= i < |s.calls| ==> t.calls[i] == s.calls[i];
    assert t.calls[|s.calls|] == c;
    forall k: nat | k < t.nextOutput ensures t.textIndex == Some(k) || HasPlace(t.calls, k) {
      if k == s.nextOutput {
        assert t.calls[|s.calls|].place == k;
      } else if t.textIndex != Some(k) {
        var j :| 0 <= j < |s.calls| && s.calls[j].place == k;
        assert t.calls[j].place == k;
      }
    }
  }

  // ---- the end of the stream ----

  /** Finishing the message: it closes with exactly its text. */
  lemma MessageEnds(out: seq<Out>, k: nat, text: string)
    requires Watched(out) == Expected(Some(k), text)
    ensures Watched(out + TextEnd(k, text)) == Watching(map[], map[k := Message(text)])
  {
    hide Watched;
    WatchedNext(out, TextDone(k, text));
    WatchedNext(out + [TextDone(k, text)], PartDone(k, text));
    WatchedNext(out + [TextDone(k, text)] + [PartDone(k, text)], ItemDone(k, Message(text)));
    assert out + TextEnd(k, text) == out + [TextDone(k, text)] + [PartDone(k, text)] + [ItemDone(k, Message(text))];
    assert map[k := OpenPart(text)][k := DonePart(text)][k := ClosedPart(text)] - {k} == map[];
  }

  lemma OneCallEnds(out: seq<Out>, c: Pending)
    requires Watched(out).Watching? && Watched(out).open == map[] && c.place !in Watched(out).closed
    ensures Watched(out + CallOut(c)) == Watching(map[], Watched(out).closed[c.place := CallItem(c)])
  {
    hide Watched, ItemIdOf;
    var added := CallAdded(c.place, ItemIdOf(c.id), c.id, c.name);
    WatchedNext(out, added);
    var filling := if c.args != "" then [ArgsDelta(c.place, c.args, c.name)] else [];
    var filled := out + [added] + filling;
    if c.args != "" {
      WatchedNext(out + [added], ArgsDelta(c.place, c.args, c.name));
      assert "" + c.args == c.args;
    } else {
      assert filled == out + [added];
    }
    var closed := Watched(out).closed;
    assert Watched(filled) == Watching(map[c.place := OpenCall(ItemIdOf(c.id), c.id, c.name, c.args)], closed);
    WatchedNext(filled, ArgsDone(c.place, c.args, c.name));
    WatchedNext(filled + [ArgsDone(c.place, c.args, c.name)], ItemDone(c.place, CallItem(c)));
    assert out + CallOut(c) == filled + [ArgsDone(c.place, c.args, c.name)] + [ItemDone(c.place, CallItem(c))];
    var done := DoneCall(ItemIdOf(c.id), c.id, c.name, c.args);
    assert map[c.place := OpenCall(ItemIdOf(c.id), c.id, c.name, c.args)][c.place := done] - {c.place} == map[];
  }

  lemma {:induction false} DoneKeys(textIndex: Option<nat>, text: string, calls: seq<Pending>)
    ensures forall k :: k in DoneItems(textIndex, text, calls) <==> textIndex == Some(k) || HasPlace(calls, k)
    decreases |calls|
  {
    if calls != [] {
      var front, c := calls[..|calls| - 1], calls[|calls| - 1];
      DoneKeys(textIndex, text, front);
      forall k ensures HasPlace(calls, k) <==> HasPlace(front, k) || k == c.place {
        if HasPlace(front, k) {
          var i :| 0 <= i < |front| && front[i].place == k;
          assert calls[i].place == k;
        }
        assert calls[|calls| - 1].place == c.place;
      }
    }
  }

  lemma {:induction false} CallsEnd(out: seq<Out>, textIndex: Option<nat>, text: string, calls: seq<Pending>)
    requires Watched(out) == Watching(map[], DoneItems(textIndex, text, []))
    requires Rising(calls)
    requires forall i :: 0 <= i < |calls| ==> textIndex != Some(calls[i].place)
    ensures Watched(out + CallsOut(calls)) == Watching(map[], DoneItems(textIndex, text, calls))
    decreases |calls|
  {
    hide Watched, CallOut, CallItem, HasPlace;
    if calls == [] {
      assert out + CallsOut(calls) == out;
    } else {
      var front, c := calls[..|calls| - 1], calls[|calls| - 1];
      CallsEnd(out, textIndex, text, front);
      DoneKeys(textIndex, text, front);
      LastPlaceIsNew(calls);
      OneCallEnds(out + CallsOut(front), c);
      assert out + CallsOut(calls) == out + CallsOut(front) + CallOut(c);
    }
  }

  lemma {:induction false} SnapshotLists(items: map<nat, Item>, n: nat)
    requires forall k: nat :: k < n ==> k in items
    ensures |Snapshot(items, n)| == n && forall k: nat :: k < n ==> Snapshot(items, n)[k] == items[k]
  {
    if n > 0 {
      SnapshotLists(items, n - 1);
    }
  }

  /** The finished items of a stream, by output place. */
  function ItemsOf(s: Server): map<nat, Item> {
    DoneItems(s.textIndex, s.text, s.calls)
  }

  lemma MessageEndsIfAny(s: Server)
    requires Watched(s.out) == Expected(s.textIndex, s.text)
    ensures var ended := if s.textIndex.Some? then s.out + TextEnd(s.textIndex.value, s.text) else s.out;
            Watched(ended) == Watching(map[], DoneItems(s.textIndex, s.text, []))
  {
    hide Watched, TextEnd;
    if s.textIndex.Some? {
      MessageEnds(s.out, s.textIndex.value, s.text);
    }
  }

  lemma ItemsAreDense(s: Server)
    requires Placed(s)
    ensures forall k: nat :: k in ItemsOf(s) <==> k < s.nextOutput
  {
    DoneKeys(s.textIndex, s.text, s.calls);
    hide DoneItems;
  }

  lemma ItemsFillTheOutput(s: Server)
    requires Placed(s)
    ensures Lists(Snapshot(ItemsOf(s), s.nextOutput), ItemsOf(s))
        && |Snapshot(ItemsOf(s), s.nextOutput)| == s.nextOutput
  {
    ItemsAreDense(s);
    hide DoneItems, ItemsOf;
    SnapshotLists(ItemsOf(s), s.nextOutput);
  }

  lemma CompletionIsObserved(s: Server, usable: string -> bool)
    requires Placed(s) && Watched(s.out) == Expected(s.textIndex, s.text) && CallsUsable(s.calls, usable)
    ensures var t := OnCompleted(s, usable);
            && Watched(t.out) == Finished(ItemsOf(s))
            && t.out != [] && t.out[|t.out| - 1] == ResponseCompleted(Snapshot(ItemsOf(s), s.nextOutput))
            && (forall k: nat :: k in ItemsOf(s) <==> k < s.nextOutput)
  {
    hide Watched, Placed, DoneItems, CallsOut, TextEnd, Expected, CallsUsable, Lists;
    PlacedOrder(s);
    AlreadySorted(s.calls);
    hide SortByPlace;
    MessageEndsIfAny(s);
    var ended := if s.textIndex.Some? then s.out + TextEnd(s.textIndex.value, s.text) else s.out;
    CallsEnd(ended, s.textIndex, s.text, s.calls);
    ItemsFillTheOutput(s);
    WatchedNext(ended + CallsOut(s.calls), ResponseCompleted(Snapshot(ItemsOf(s), s.nextOutput)));
    ListedIsDense(Snapshot(ItemsOf(s), s.nextOutput), ItemsOf(s));
  }

  lemma ListedIsDense(output: seq<Item>, closed: map<nat, Item>)
    requires Lists(output, closed)
    ensures forall k: nat :: k in closed <==> k < |output|
  {
  }

  /**
   * A stream that ends in a completion with usable arguments: the protocol is kept to the end, every
   * output index from zero to the last is announced once and finished once, and the final snapshot
   * lists exactly the finished items by index.
   */
  lemma CompletedStreamIsWellFormed(events: seq<Event>, usable: string -> bool)
    requires EndsCompleted(events) && CallsUsable(Served(events[..|events| - 1], usable).calls, usable)
    ensures var front := Served(events[..|events| - 1], usable);
            var s := Served(events, usable);
            && Watched(s.out) == Finished(ItemsOf(front))
            && s.out != [] && s.out[|s.out| - 1] == ResponseCompleted(Snapshot(ItemsOf(front), front.nextOutput))
            && (forall k: nat :: k in ItemsOf(front) <==> k < front.nextOutput)
            && (front.textIndex.Some? ==>
                  && front.textIndex.value in ItemsOf(front)
                  && ItemsOf(front)[front.textIndex.value] == Message(TextOf(events)))
  {
    hide Watched, Placed, DoneItems, OnCompleted, Expected, CallsUsable, Served, Running;
    var front, e := events[..|events| - 1], events[|events| - 1];
    var s := Served(front, usable);
    RunningIsExpected(front, usable);
    assert events == front + [e];
    NextServed(front, e, usable);
    CompletionIsObserved(s, usable);
    PlacedOrder(s);
    if s.textIndex.Some? {
      MessageItem(s.textIndex, s.text, s.calls);
    }
  }

  lemma PlacedOrder(s: Server)
    requires Placed(s)
    ensures Rising(s.calls)
    ensures forall i :: 0 <= i < |s.calls| ==> s.textIndex != Some(s.calls[i].place)
  {
  }

  lemma {:induction false} MessageItem(textIndex: Option<nat>, text: string, calls: seq<Pending>)
    requires textIndex.Some? && forall i :: 0 <= i < |calls| ==> textIndex != Some(calls[i].place)
    ensures textIndex.value in DoneItems(textIndex, text, calls)
        && DoneItems(textIndex, text, calls)[textIndex.value] == Message(text)
    decreases |calls|
  {
    if calls != [] {
      MessageItem(textIndex, text, calls[..|calls| - 1]);
    }
  }

  /** Each gathered call is finished under its own place, with its id, name and arguments. */
  lemma {:induction false} CallIsItsItem(textIndex: Option<nat>, text: string, calls: seq<Pending>, i: nat)
    requires i < |calls| && Rising(calls)
    ensures calls[i].place in DoneItems(textIndex, text, calls)
        && DoneItems(textIndex, text, calls)[calls[i].place] == CallItem(calls[i])
    decreases |calls|
  {
    hide CallItem;
    if i < |calls| - 1 {
      CallIsItsItem(textIndex, text, calls[..|calls| - 1], i);
    }
  }

  predicate ShowsCall(e: Out) {
    e.CallAdded? || e.ArgsDelta? || e.ArgsDone? || (e.ItemDone? && e.item.FunctionCall?)
  }

  /** No call has been shown, and the response has not been completed. */
  predicate Bare(out: seq<Out>) {
    forall e :: e in out ==> !ShowsCall(e) && !e.ResponseCompleted?
  }

  lemma BareMore(a: seq<Out>, b: seq<Out>)
    ensures Bare(a + b) <==> Bare(a) && Bare(b)
  {
    hide ShowsCall;
    assert forall e :: e in a + b <==> e in a || e in b;
  }

  lemma TextIsBare(s: Server, text: string)
    requires Bare(s.out)
    ensures Bare(OnText(s, text).out)
  {
  }

  /** While the stream runs, no call is shown and nothing is completed. */
  lemma {:induction false} RunningIsBare(events: seq<Event>, usable: string -> bool)
    requires Running(events)
    ensures Bare(Served(events, usable).out) && !Served(events, usable).ended
    decreases |events|
  {
    hide Bare, OnText, OnDelta;
    if events == [] {
      StartIsBare();
    } else {
      var front, e := events[..|events| - 1], events[|events| - 1];
      assert forall x :: x in front ==> x in events;
      RunningIsBare(front, usable);
      var s := Served(front, usable);
      if e.Text? {
        TextIsBare(s, e.text);
        KeepsRunning(s, e);
      } else if e.ToolDelta? {
        KeepsRunning(s, e);
      }
    }
  }

  lemma StartIsBare()
    ensures Bare([Created])
  {
  }

  lemma KeepsRunning(s: Server, e: Event)
    ensures e.Text? ==> OnText(s, e.text).ended == s.ended
    ensures e.ToolDelta? ==>
              var t := OnDelta(s, e.index, e.id, e.name, e.args);
              t.ended == s.ended && t.out == s.out
  {
  }

  /** The response failed, and no call was ever shown. */
  ghost predicate FailedBare(out: seq<Out>, error: Failure) {
    Bare(out) && out != [] && out[|out| - 1] == ResponseFailed(error) && Watched(out).Failing?
  }

  lemma FailsBare(out: seq<Out>, error: Failure)
    requires Bare(out) && Watched(out).Watching?
    ensures FailedBare(out + [ResponseFailed(error)], error)
  {
    hide Watched;
    WatchedNext(out, ResponseFailed(error));
    BareMore(out, [ResponseFailed(error)]);
  }

  lemma MalformedFailsBare(s: Server, usable: string -> bool)
    requires Placed(s) && Watched(s.out) == Expected(s.textIndex, s.text) && !CallsUsable(s.calls, usable)
        && Bare(s.out)
    ensures FailedBare(OnCompleted(s, usable).out, MALFORMED) && OnCompleted(s, usable).ended
  {
    hide Watched, Placed, Expected, Bare, CallsUsable, TextEnd, FailedBare;
    PlacedOrder(s);
    AlreadySorted(s.calls);
    MessageEndsIfAny(s);
    var ended := if s.textIndex.Some? then s.out + TextEnd(s.textIndex.value, s.text) else s.out;
    if s.textIndex.Some? {
      TextEndIsBare(s.textIndex.value, s.text);
      BareMore(s.out, TextEnd(s.textIndex.value, s.text));
    }
    FailsBare(ended, MALFORMED);
  }

  /** One malformed call, or an error of the provider: the response fails, and not one call was ever shown. */
  lemma FailedStreamShowsNoCall(events: seq<Event>, usable: string -> bool)
    requires EndsCompleted(events) || (events != [] && events[|events| - 1].Error? && Running(events[..|events| - 1]))
    requires EndsCompleted(events) ==> !CallsUsable(Served(events[..|events| - 1], usable).calls, usable)
    ensures Served(events, usable).ended
    ensures FailedBare(Served(events, usable).out, if EndsCompleted(events) then MALFORMED
        else events[|events| - 1].error)
  {
    hide FailedBare, CallsUsable, Served, Running;
    var front, e := events[..|events| - 1], events[|events| - 1];
    assert events == front + [e];
    FailsAfter(front, e, usable);
  }

  lemma FailsAfter(front: seq<Event>, e: Event, usable: string -> bool)
    requires Running(front) && (e.Completed? || e.Error?)
    requires e.Completed? ==> !CallsUsable(Served(front, usable).calls, usable)
    ensures Served(front + [e], usable).ended
    ensures FailedBare(Served(front + [e], usable).out, if e.Completed? then MALFORMED else e.error)
  {
    hide Watched, Placed, Expected, Bare, FailedBare, Serve, CallsUsable, Served, Running;
    var s := Served(front, usable);
    RunningIsExpected(front, usable);
    RunningIsBare(front, usable);
    NextServed(front, e, usable);
    if e.Completed? {
      MalformedServesBare(s, e, usable);
    } else {
      ErrorServesBare(s, e, usable);
    }
  }

  lemma MalformedServesBare(s: Server, e: Event, usable: string -> bool)
    requires Placed(s) && Watched(s.out) == Expected(s.textIndex, s.text) && !CallsUsable(s.calls, usable)
        && Bare(s.out)
    requires !s.ended && e.Completed?
    ensures FailedBare(Serve(s, e, usable).out, MALFORMED) && Serve(s, e, usable).ended
  {
    hide Watched, Placed, Expected, Bare, FailedBare, OnCompleted, CallsUsable;
    MalformedFailsBare(s, usable);
  }

  lemma ErrorServesBare(s: Server, e: Event, usable: string -> bool)
    requires Watched(s.out) == Expected(s.textIndex, s.text) && Bare(s.out) && !s.ended && e.Error?
    ensures FailedBare(Serve(s, e, usable).out, e.error) && Serve(s, e, usable).ended
  {
    hide Watched, Expected, Bare, FailedBare;
    ExpectedIsWatching(s.textIndex, s.text);
    FailsBare(s.out, e.error);
  }

  lemma ExpectedIsWatching(textIndex: Option<nat>, text: string)
    ensures Expected(textIndex, text).Watching?
  {
  }

  lemma TextEndIsBare(k: nat, text: string)
    ensures Bare(TextEnd(k, text))
  {
  }

  // ---- how items are named ----

  ghost predicate NamedItem(item: Item) {
    item.FunctionCall? ==> item.itemId == "fc_" + item.callId
  }

  /** A call's item is named after the call, so different calls have different items. */
  ghost predicate NamedAfterCalls(output: seq<Item>) {
    && (forall k :: 0 <= k < |output| ==> NamedItem(output[k]))
    && (forall a, b | 0 <= a < |output| && 0 <= b < |output| && output[a].FunctionCall? && output[b].FunctionCall? ::
          output[a].itemId == output[b].itemId <==> output[a].callId == output[b].callId)
  }

  ghost predicate AllNamed(items: map<nat, Item>) {
    forall k :: k in items ==> NamedItem(items[k])
  }

  lemma OneMoreNamed(items: map<nat, Item>, c: Pending)
    requires AllNamed(items)
    ensures AllNamed(items[c.place := CallItem(c)])
  {
    assert NamedItem(CallItem(c));
    hide NamedItem;
  }

  lemma {:induction false} CallItemsAreNamed(textIndex: Option<nat>, text: string, calls: seq<Pending>)
    ensures AllNamed(DoneItems(textIndex, text, calls))
    decreases |calls|
  {
    if calls == [] {
    } else {
      hide AllNamed;
      CallItemsAreNamed(textIndex, text, calls[..|calls| - 1]);
      OneMoreNamed(DoneItems(textIndex, text, calls[..|calls| - 1]), calls[|calls| - 1]);
    }
  }

  lemma SameTail(a: string, b: string)
    ensures "fc_" + a == "fc_" + b <==> a == b
  {
    assert ("fc_" + a)[3..] == a && ("fc_" + b)[3..] == b;
  }

  lemma SnapshotIsNamed(items: map<nat, Item>, n: nat)
    requires AllNamed(items) && forall k: nat :: k < n ==> k in items
    ensures NamedAfterCalls(Snapshot(items, n))
  {
    SnapshotLists(items, n);
    var output := Snapshot(items, n);
    hide Snapshot;
    forall a, b | 0 <= a < |output| && 0 <= b < |output| && output[a].FunctionCall? && output[b].FunctionCall?
      ensures output[a].itemId == output[b].itemId <==> output[a].callId == output[b].callId
    {
      SameTail(output[a].callId, output[b].callId);
      assert NamedItem(output[a]) && NamedItem(output[b]);
    }
  }

  /** In the completed response each function call has an item id of its own, made from its call id. */
  lemma ItemsAreNamedAfterCalls(events: seq<Event>, usable: string -> bool)
    requires EndsCompleted(events) && CallsUsable(Served(events[..|events| - 1], usable).calls, usable)
    ensures var out := Served(events, usable).out;
            && out != [] && out[|out| - 1].ResponseCompleted? && NamedAfterCalls(out[|out| - 1].output)
  {
    CompletedStreamIsWellFormed(events, usable);
    var s := Served(events[..|events| - 1], usable);
    CallItemsAreNamed(s.textIndex, s.text, s.calls);
    hide *;
    SnapshotIsNamed(ItemsOf(s), s.nextOutput);
  }

  // ---- the same calls as on the other surface ----

  function AsCalls(calls: seq<Pending>): (r: seq<Call>)
    ensures |r| == |calls| && forall i :: 0 <= i < |calls| ==>
        r[i] == Call(calls[i].key, calls[i].id, calls[i].name, calls[i].args)
  {
    if calls == [] then []
    else AsCalls(calls[..|calls| - 1]) + [var c := calls[|calls| - 1]; Call(c.key, c.id, c.name, c.args)]
  }

  lemma {:induction false} SameLookup(calls: seq<Pending>, key: nat)
    ensures FindKey(calls, key) == FindIndex(AsCalls(calls), key)
  {
    hide AsCalls;
  }

  /** However the two surfaces present them, they gather the same calls from the same events. */
  lemma {:induction false} SameCallsAsChat(events: seq<Event>, usable: string -> bool)
    requires Running(events)
    ensures !Served(events, usable).ended && !Streamed(events, usable).ended
    ensures AsCalls(Served(events, usable).calls) == Streamed(events, usable).calls
    decreases |events|
  {
    hide FindKey, FindIndex;
    if events != [] {
      var front, e := events[..|events| - 1], events[|events| - 1];
      assert forall x :: x in front ==> x in events;
      SameCallsAsChat(front, usable);
      if e.ToolDelta? {
        SameCollected(Served(front, usable), e);
      }
    }
  }

  lemma SameCollected(s: Server, e: Event)
    requires e.ToolDelta?
    ensures AsCalls(OnDelta(s, e.index, e.id, e.name, e.args).calls) == Collect(AsCalls(s.calls), e)
  {
    hide FindKey, FindIndex, AsCalls;
    SameLookup(s.calls, e.index);
    assert "" + Or(e.args) == Or(e.args);
    var a, b := AsCalls(OnDelta(s, e.index, e.id, e.name, e.args).calls), Collect(AsCalls(s.calls), e);
    assert |a| == |b|;
    assert forall i :: 0 <= i < |a| ==> a[i] == b[i];
  }

  // ---- the handler ----

  method StreamResponses(events: seq<Event>, usable: string -> bool) returns (out: seq<Out>)
    ensures out == Served(events, usable).out
  {
    hide FindKey, Snapshot, DoneItems, CallsOut, SortByPlace, CallsUsable, Served;
    out := [Created];
    var nextOutput, textIndex, text, calls := 0, None, "", [];
    StartsServing(usable);
    for i := 0 to |events|
      invariant Served(events[..i], usable) == Server(out, nextOutput, textIndex, text, calls, false)
    {
      var event := events[i];
      NextServed(events[..i], event, usable);
      assert events[..i + 1] == events[..i] + [event];
      match event
      case Text(delta) =>
        if textIndex == None {
          textIndex := Some(nextOutput);
          out := out + [MessageAdded(nextOutput), PartAdded(nextOutput)];
          nextOutput := nextOutput + 1;
        }
        text := text + delta;
        out := out + [TextDelta(textIndex.value, delta)];
      case ToolDelta(index, id, name, args) =>
        var k := FindKey(calls, index);
        if k == |calls| {
          calls := calls + [Pending(index, nextOutput, id, Or(name), "")];
          nextOutput := nextOutput + 1;
        }
        var call := calls[k];
        if name.Some? {
          call := call.(name := name.value);
        }
        calls := calls[k := call.(args := call.args + Or(args))];
      case Usage(_, _) =>
      case Completed(_) =>
        out := Complete(out, nextOutput, textIndex, text, calls, usable);
        EndedIsServed(events, i + 1, usable);
        return;
      case Error(error) =>
        out := out + [ResponseFailed(error)];
        EndedIsServed(events, i + 1, usable);
        return;
    }
    assert events[..|events|] == events;
  }

  /** Closes the message, checks every call, and only then shows them one after the other. */
  method Complete(sent: seq<Out>, nextOutput: nat, textIndex: Option<nat>, text: string, calls: seq<Pending>,
      usable: string -> bool)
    returns (out: seq<Out>)
    ensures out == OnCompleted(Server(sent, nextOutput, textIndex, text, calls, false), usable).out
  {
    hide CallOut, SortByPlace;
    out := sent;
    var done: map<nat, Item> := map[];
    if textIndex.Some? {
      out := out + TextEnd(textIndex.value, text);
      done := done[textIndex.value := Message(text)];
    }
    var ordered := SortByPlace(calls);
    for i := 0 to |ordered|
      invariant forall j :: 0 <= j < i ==> usable(ordered[j].args)
    {
      if !usable(ordered[i].args) {
        out := out + [ResponseFailed(MALFORMED)];
        return;
      }
    }
    var before := out;
    for i := 0 to |ordered|
      invariant out == before + CallsOut(ordered[..i]) && done == DoneItems(textIndex, text, ordered[..i])
    {
      assert ordered[..i + 1][..i] == ordered[..i];
      out := out + CallOut(ordered[i]);
      done := done[ordered[i].place := CallItem(ordered[i])];
    }
    assert ordered[..|ordered|] == ordered;
    out := out + [ResponseCompleted(Snapshot(done, nextOutput))];
  }

  lemma StartsServing(usable: string -> bool)
    ensures Served([], usable) == Server([Created], 0, None, "", [], false)
  {
  }

  lemma NextServed(front: seq<Event>, e: Event, usable: string -> bool)
    ensures Served(front + [e], usable) == Serve(Served(front, usable), e, usable)
  {
    assert (front + [e])[..|front|] == front;
  }

  lemma {:induction false} EndedIsServed(events: seq<Event>, i: nat, usable: string -> bool)
    requires i <= |events| && Served(events[..i], usable).ended
    ensures Served(events, usable) == Served(events[..i], usable)
    decreases |events|
  {
    if i < |events| {
      assert events[..|events| - 1][..i] == events[..i];
      EndedIsServed(events[..|events| - 1], i, usable);
    } else {
      assert events[..i] == events;
    }
  }
}
