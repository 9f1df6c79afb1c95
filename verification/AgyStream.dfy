/**
 * The agy command's line-delimited JSON: text is pulled out of a tree with an explicit stack, lines
 * are read as chunks arrive, and the same lines can be parsed in one batch afterwards.
 */
module AgyStream {
  import opened Options
  import opened Text
  import opened Utf8

  /** A JSON value; a record keeps the order of its members. */
  datatype Value =
    | Str(text: string)
    | Plain
    | Null
    | List(items: seq<Value>)
    | Record(fields: seq<Member>)

  datatype Member = Member(name: string, value: Value)

  // ---- the walk ----

  predicate IsTree(v: Value) {
    v.List? || v.Record?
  }

  function Get(fields: seq<Member>, name: string): Option<Value> {
    if fields == [] then None else if fields[0].name == name then Some(fields[0].value) else Get(fields[1..], name)
  }

  function OwnDelta(fields: seq<Member>): seq<string> {
    var own := Get(fields, "text_delta");
    if own.Some? && own.value.Str? && own.value.text != "" then [own.value.text] else []
  }

  /** Pre-order, children last to first. */
  function Walk(v: Value): seq<string>
    decreases v, 0
  {
    match v
    case List(items) => WalkItems(items)
    case Record(fields) => OwnDelta(fields) + WalkFields(fields)
    case _ => []
  }

  function WalkItems(items: seq<Value>): seq<string>
    decreases items, 1
  {
    if items == [] then [] else Walk(items[|items| - 1]) + WalkItems(items[..|items| - 1])
  }

  function WalkFields(fields: seq<Member>): seq<string>
    decreases fields, 1
  {
    if fields == [] then [] else Walk(fields[|fields| - 1].value) + WalkFields(fields[..|fields| - 1])
  }

  /** Every non-empty `text_delta` of every record in the tree, in the order they are written. */
  function Deltas(v: Value): seq<string>
    decreases v, 0
  {
    match v
    case List(items) => DeltasOfItems(items)
    case Record(fields) => OwnDelta(fields) + DeltasOfFields(fields)
    case _ => []
  }

  function DeltasOfItems(items: seq<Value>): seq<string>
    decreases items, 1
  {
    if items == [] then [] else Deltas(items[0]) + DeltasOfItems(items[1..])
  }

  function DeltasOfFields(fields: seq<Member>): seq<string>
    decreases fields, 1
  {
    if fields == [] then [] else Deltas(fields[0].value) + DeltasOfFields(fields[1..])
  }

  lemma {:induction false} ItemsSnoc(items: seq<Value>)
    requires items != []
    ensures DeltasOfItems(items) == DeltasOfItems(items[..|items| - 1]) + Deltas(items[|items| - 1])
    decreases |items|
  {
    hide Deltas;
    var tail, front := items[1..], items[..|items| - 1];
    if |items| == 1 {
      assert tail == [] && front == [];
    } else {
      ItemsSnoc(tail);
      assert tail[..|tail| - 1] == front[1..] && tail[|tail| - 1] == items[|items| - 1] && front[0] == items[0];
    }
  }

  lemma {:induction false} FieldsSnoc(fields: seq<Member>)
    requires fields != []
    ensures DeltasOfFields(fields) == DeltasOfFields(fields[..|fields| - 1]) + Deltas(fields[|fields| - 1].value)
    decreases |fields|
  {
    hide Deltas;
    var tail, front := fields[1..], fields[..|fields| - 1];
    if |fields| == 1 {
      assert tail == [] && front == [];
    } else {
      FieldsSnoc(tail);
      assert tail[..|tail| - 1] == front[1..] && tail[|tail| - 1] == fields[|fields| - 1] && front[0] == fields[0];
    }
  }

  /** The walk collects each non-empty `text_delta` once, whatever its order. */
  lemma {:induction false} WalkCollectsOnce(v: Value)
    ensures multiset(Walk(v)) == multiset(Deltas(v))
    decreases v, 0
  {
    match v
    case List(items) => WalkItemsOnce(items);
    case Record(fields) => WalkFieldsOnce(fields);
    case _ =>
  }

  lemma {:induction false} WalkItemsOnce(items: seq<Value>)
    ensures multiset(WalkItems(items)) == multiset(DeltasOfItems(items))
    decreases items, 1
  {
    if items != [] {
      WalkCollectsOnce(items[|items| - 1]);
      WalkItemsOnce(items[..|items| - 1]);
      ItemsSnoc(items);
    }
  }

  lemma {:induction false} WalkFieldsOnce(fields: seq<Member>)
    ensures multiset(WalkFields(fields)) == multiset(DeltasOfFields(fields))
    decreases fields, 1
  {
    if fields != [] {
      WalkCollectsOnce(fields[|fields| - 1].value);
      WalkFieldsOnce(fields[..|fields| - 1]);
      FieldsSnoc(fields);
    }
  }

  // ---- the worklist ----

  function Size(v: Value): (n: nat)
    ensures n > 0
    decreases v, 0
  {
    match v
    case List(items) => 1 + SizeOfItems(items)
    case Record(fields) => 1 + SizeOfFields(fields)
    case _ => 1
  }

  function SizeOfItems(items: seq<Value>): nat
    decreases items, 1
  {
    if items == [] then 0 else SizeOfItems(items[..|items| - 1]) + Size(items[|items| - 1])
  }

  function SizeOfFields(fields: seq<Member>): nat
    decreases fields, 1
  {
    if fields == [] then 0 else SizeOfFields(fields[..|fields| - 1]) + Size(fields[|fields| - 1].value)
  }

  /** The members of a record that are trees themselves. */
  function Children(fields: seq<Member>): seq<Value> {
    if fields == [] then []
    else
      var last := fields[|fields| - 1].value;
      Children(fields[..|fields| - 1]) + if IsTree(last) then [last] else []
  }

  lemma {:induction false} WalkAppend(a: seq<Value>, b: seq<Value>)
    ensures WalkItems(a + b) == WalkItems(b) + WalkItems(a)
    decreases |b|
  {
    hide Walk;
    if b == [] {
      assert a + b == a && [] + WalkItems(a) == WalkItems(a);
    } else {
      var front, last, all := b[..|b| - 1], b[|b| - 1], a + b;
      WalkAppend(a, front);
      assert all[..|all| - 1] == a + front && all[|all| - 1] == last;
      assert WalkItems(all) == Walk(last) + WalkItems(a + front) && WalkItems(b) == Walk(last) + WalkItems(front);
      hide WalkItems;
      Associative(Walk(last), WalkItems(front), WalkItems(a));
    }
  }

  lemma {:induction false} SizeAppend(a: seq<Value>, b: seq<Value>)
    ensures SizeOfItems(a + b) == SizeOfItems(a) + SizeOfItems(b)
    decreases |b|
  {
    hide Size;
    if b == [] {
      assert a + b == a;
    } else {
      var front, all := b[..|b| - 1], a + b;
      SizeAppend(a, front);
      assert all[..|all| - 1] == a + front && all[|all| - 1] == b[|b| - 1];
    }
  }

  lemma {:induction false} ChildrenWalkAlike(fields: seq<Member>)
    ensures WalkItems(Children(fields)) == WalkFields(fields) && SizeOfItems(Children(fields)) <= SizeOfFields(fields)
    decreases |fields|
  {
    if fields != [] {
      var front, v := fields[..|fields| - 1], fields[|fields| - 1].value;
      ChildrenWalkAlike(front);
      if IsTree(v) {
        WalkAppend(Children(front), [v]);
        SizeAppend(Children(front), [v]);
        assert [v][..0] == [];
        assert WalkItems([v]) == Walk(v) + [];
      } else {
        assert Children(front) + [] == Children(front);
      }
    }
  }

  lemma TopOfStack(stack: seq<Value>)
    requires stack != []
    ensures var current, rest := stack[|stack| - 1], stack[..|stack| - 1];
            WalkItems(stack) == Walk(current) + WalkItems(rest)
                && SizeOfItems(stack) == SizeOfItems(rest) + Size(current)
  {
  }

  /** Taking the top off and pushing its own children leaves the same walk, and less to do. */
  lemma PopList(rest: seq<Value>, stack: seq<Value>, items: seq<Value>)
    requires stack == rest + [List(items)]
    ensures WalkItems(stack) == WalkItems(rest + items) && SizeOfItems(rest + items) < SizeOfItems(stack)
  {
    assert Walk(List(items)) == WalkItems(items) && Size(List(items)) == 1 + SizeOfItems(items);
    hide *;
    assert stack[..|stack| - 1] == rest && stack[|stack| - 1] == List(items);
    TopOfStack(stack);
    WalkAppend(rest, items);
    SizeAppend(rest, items);
  }

  lemma RecordSize(fields: seq<Member>)
    ensures Walk(Record(fields)) == OwnDelta(fields) + WalkFields(fields)
        && Size(Record(fields)) == 1 + SizeOfFields(fields)
  {
  }

  lemma PopRecord(rest: seq<Value>, stack: seq<Value>, fields: seq<Member>)
    requires stack == rest + [Record(fields)]
    ensures WalkItems(stack) == OwnDelta(fields) + WalkItems(rest + Children(fields))
    ensures SizeOfItems(rest + Children(fields)) < SizeOfItems(stack)
  {
    hide *;
    assert stack[..|stack| - 1] == rest && stack[|stack| - 1] == Record(fields);
    TopOfStack(stack);
    ChildrenWalkAlike(fields);
    WalkAppend(rest, Children(fields));
    SizeAppend(rest, Children(fields));
    RecordSize(fields);
    Associative(OwnDelta(fields), WalkFields(fields), WalkItems(rest));
  }

  lemma PopPlain(rest: seq<Value>, stack: seq<Value>, v: Value)
    requires stack == rest + [v] && !IsTree(v)
    ensures WalkItems(stack) == WalkItems(rest) && SizeOfItems(rest) < SizeOfItems(stack)
  {
    TopOfStack(stack);
    assert stack[..|stack| - 1] == rest;
    assert [] + WalkItems(rest) == WalkItems(rest);
  }

  lemma OneItem(v: Value)
    ensures WalkItems([v]) == Walk(v)
  {
    assert [v][..0] == [];
    assert Walk(v) + [] == Walk(v);
  }

  /** The explicit stack visits exactly as the recursion does, and always comes to an end. */
  method ExtractTextFrom(root: Value) returns (deltas: seq<string>)
    ensures deltas == Walk(root)
  {
    hide Walk, WalkItems, SizeOfItems, Children, OwnDelta;
    deltas := [];
    var stack := [root];
    OneItem(root);
    while stack != []
      invariant deltas + WalkItems(stack) == Walk(root)
      decreases SizeOfItems(stack)
    {
      ghost var before := stack;
      var current := stack[|stack| - 1];
      stack := stack[..|stack| - 1];
      assert before == stack + [current];
      match current
      case List(items) =>
        PopList(stack, before, items);
        stack := PushItems(stack, items);
      case Record(fields) =>
        PopRecord(stack, before, fields);
        var own := TakeDelta(fields);
        stack := PushChildren(stack, fields);
        Associative(deltas, own, WalkItems(stack));
        deltas := deltas + own;
      case _ => PopPlain(stack, before, current);
    }
    assert WalkItems([]) == [] by { NothingLeft(); }
  }

  lemma NothingLeft()
    ensures WalkItems([]) == []
  {
  }

  method TakeDelta(fields: seq<Member>) returns (own: seq<string>)
    ensures own == OwnDelta(fields)
  {
    var delta := Get(fields, "text_delta");
    own := [];
    if delta.Some? && delta.value.Str? && delta.value.text != "" {
      own := [delta.value.text];
    }
  }

  method PushItems(stack: seq<Value>, items: seq<Value>) returns (pushed: seq<Value>)
    ensures pushed == stack + items
  {
    pushed := stack;
    for i := 0 to |items|
      invariant pushed == stack + items[..i]
    {
      pushed := pushed + [items[i]];
    }
  }

  method PushChildren(stack: seq<Value>, fields: seq<Member>) returns (pushed: seq<Value>)
    ensures pushed == stack + Children(fields)
  {
    pushed := stack;
    for i := 0 to |fields|
      invariant pushed == stack + Children(fields[..i])
    {
      assert fields[..i + 1][..i] == fields[..i];
      if IsTree(fields[i].value) {
        pushed := pushed + [fields[i].value];
      }
    }
    assert fields[..|fields|] == fields;
  }

  // ---- one line ----

  /** What the text of a line decodes to, and two tests on texts; a blank line is skipped. */
  datatype Config = Config(
    blank: string -> bool,
    decode: string -> Option<Value>,
    stopped: string -> bool,
    limited: string -> bool,
    maxLine: nat)

  datatype Finish = Stop | Length

  datatype Event =
    | Texts(texts: seq<string>)
    | Response(text: string)
    | Completed(finish: Finish)
    | Malformed

  function FieldsOf(v: Value): seq<Member> {
    if v.Record? then v.fields else []
  }

  /** JavaScript's `a ?? b` on two members. */
  function Either(a: Option<Value>, b: Option<Value>): Option<Value> {
    if a.Some? && !a.value.Null? then a else b
  }

  /** The kind of an envelope: its `event` if that is a text, else its `type`. */
  function KindOf(envelope: seq<Member>): Option<Value> {
    var event := Get(envelope, "event");
    if event.Some? && event.value.Str? then event else Get(envelope, "type")
  }

  /** The payload sits under the name of the kind; without one the envelope itself is the payload. */
  function PayloadOf(v: Value): Value {
    var envelope := FieldsOf(v);
    var kind := KindOf(envelope);
    if kind.Some? && kind.value.Str? then
      (var payload := Get(envelope, kind.value.text);
       if payload.Some? && IsTree(payload.value) then payload.value else v)
    else v
  }

  datatype Line =
    | Step(texts: seq<string>)
    | Result(response: string, stopped: bool, limited: bool)
    | Other

  function TextIn(v: Option<Value>): string {
    if v.Some? && v.value.Str? then v.value.text else ""
  }

  /** What either parser sees in a decoded line. */
  function Read(cfg: Config, v: Value): Line {
    var envelope, payload := FieldsOf(v), PayloadOf(v);
    var event := FieldsOf(payload);
    var kind := KindOf(envelope);
    if kind == Some(Str("step_update")) then
      (var root := Either(Get(event, "step_update"), Some(payload));
       Step(Walk(root.value)))
    else if kind == Some(Str("result")) then
      Result(TextIn(Either(Get(event, "response"), Get(envelope, "response"))),
             cfg.stopped(TextIn(Either(Get(event, "status"), Get(envelope, "status")))),
             cfg.limited(TextIn(Get(event, "terminationReason")))
                 || cfg.limited(TextIn(Get(envelope, "terminationReason"))))
    else Other
  }

  // ---- the batch parser ----

  datatype Batch = Batch(texts: seq<string>, completed: bool, finish: Finish)

  function OnLine(b: Batch, line: Line): Batch {
    match line
    case Step(texts) => b.(texts := b.texts + texts)
    case Result(response, stopped, limited) =>
      Batch(if response != "" && b.texts == [] then [response] else b.texts, true,
            if stopped then Stop else if limited then Length else b.finish)
    case Other => b
  }

  /** Blank, or a value whose members can be asked for; asking those of a bare `null` throws. */
  predicate Readable(cfg: Config, line: string) {
    cfg.blank(line) || (cfg.decode(line).Some? && !cfg.decode(line).value.Null?)
  }

  predicate WellFormed(cfg: Config, lines: seq<string>) {
    forall line :: line in lines ==> Readable(cfg, line)
  }

  /** The decoded lines that are not blank. */
  function Decoded(cfg: Config, lines: seq<string>): seq<Line>
    requires WellFormed(cfg, lines)
  {
    if lines == [] then []
    else
      var front, last := lines[..|lines| - 1], lines[|lines| - 1];
      assert forall line :: line in front ==> line in lines;
      assert Readable(cfg, last);
      Decoded(cfg, front) + if cfg.blank(last) then [] else [Read(cfg, cfg.decode(last).value)]
  }

  function ParsedLines(lines: seq<Line>): Batch {
    if lines == [] then Batch([], false, Stop) else OnLine(ParsedLines(lines[..|lines| - 1]), lines[|lines| - 1])
  }

  /**
   * `parseAgyStreamJson`: it throws, and there is no result at all, when a line does not decode or is a bare `null`.
   */
  function ParseAgyStreamJson(cfg: Config, stdout: string): Option<Batch> {
    var lines := Split(stdout, '\n');
    if WellFormed(cfg, lines) then Some(ParsedLines(Decoded(cfg, lines))) else None
  }

  lemma NoLines(cfg: Config, lines: seq<string>)
    requires lines == []
    ensures WellFormed(cfg, lines) && ParsedLines(Decoded(cfg, lines)) == Batch([], false, Stop)
  {
  }

  lemma OneMoreText(cfg: Config, lines: seq<string>, i: nat)
    requires i < |lines| && WellFormed(cfg, lines[..i]) && Readable(cfg, lines[i])
    ensures WellFormed(cfg, lines[..i + 1])
    ensures var before := ParsedLines(Decoded(cfg, lines[..i]));
            ParsedLines(Decoded(cfg, lines[..i + 1]))
              == if cfg.blank(lines[i]) then before else OnLine(before, Read(cfg, cfg.decode(lines[i]).value))
  {
    hide Read, OnLine;
    assert lines[..i + 1][..i] == lines[..i];
    var before := Decoded(cfg, lines[..i]);
    if cfg.blank(lines[i]) {
      assert before + [] == before;
    } else {
      var line := Read(cfg, cfg.decode(lines[i]).value);
      assert (before + [line])[..|before|] == before;
    }
  }

  lemma Unreadable(cfg: Config, lines: seq<string>, i: nat)
    requires i < |lines| && !Readable(cfg, lines[i])
    ensures !WellFormed(cfg, lines)
  {
    assert lines[i] in lines;
  }

  method ParseBatch(cfg: Config, stdout: string) returns (r: Option<Batch>)
    ensures r == ParseAgyStreamJson(cfg, stdout)
  {
    hide Split, Read, WellFormed, ParsedLines, Decoded, OnLine;
    var lines := Split(stdout, '\n');
    var batch := Batch([], false, Stop);
    NoLines(cfg, lines[..0]);
    for i := 0 to |lines|
      invariant WellFormed(cfg, lines[..i]) && ParsedLines(Decoded(cfg, lines[..i])) == batch
    {
      if !cfg.blank(lines[i]) {
        var value := cfg.decode(lines[i]);
        if value == None || value == Some(Null) {
          Unreadable(cfg, lines, i);
          return None;
        }
        batch := OnLine(batch, Read(cfg, value.value));
      }
      OneMoreText(cfg, lines, i);
    }
    assert lines[..|lines|] == lines;
    r := Some(batch);
  }

  // ---- the line-by-line parser ----

  datatype Feed = Feed(events: seq<Event>, sawText: bool)

  function OnFeed(f: Feed, line: Line): Feed {
    match line
    case Step(texts) => if texts != [] then Feed(f.events + [Texts(texts)], true) else f
    case Result(response, _, limited) =>
      f.(events := f.events + (if response != "" && !f.sawText then [Response(response)] else [])
          + [Completed(if limited then Length else Stop)])
    case Other => f
  }

  /** `feedStreamLine`. */
  function FeedLine(cfg: Config, f: Feed, line: string): Feed {
    if cfg.blank(line) then f
    else
      var value := cfg.decode(line);
      if value == None then f.(events := f.events + [Malformed]) else OnFeed(f, Read(cfg, value.value))
  }

  function FeedLines(cfg: Config, f: Feed, lines: seq<string>): Feed {
    if lines == [] then f else FeedLine(cfg, FeedLines(cfg, f, lines[..|lines| - 1]), lines[|lines| - 1])
  }

  /** All text that was emitted, in order. */
  function TextsOf(events: seq<Event>): seq<string> {
    if events == [] then []
    else
      TextsOf(events[..|events| - 1]) +
      match events[|events| - 1]
      case Texts(texts) => texts
      case Response(text) => [text]
      case _ => []
  }

  // ---- reading chunks ----

  /** The stdout handler: an unfinished line, the feed, and whether a line was too long. */
  datatype Reader = Reader(lineBuffer: string, feed: Feed, overflowed: bool)

  function Fresh(): Reader {
    Reader("", Feed([], false), false)
  }

  function Overflow(r: Reader): Reader {
    Reader("", r.feed.(events := r.feed.events + [Malformed]), true)
  }

  predicate Fits(cfg: Config, part: string) {
    ByteLen(part) <= cfg.maxLine
  }

  /** The complete lines of a chunk, up to the first that is too long. */
  function OnParts(cfg: Config, r: Reader, parts: seq<string>): Reader {
    if parts == [] then r
    else
      var before := OnParts(cfg, r, parts[..|parts| - 1]);
      if before.overflowed then before
      else if !Fits(cfg, parts[|parts| - 1]) then Overflow(before)
      else before.(feed := FeedLine(cfg, before.feed, parts[|parts| - 1]))
  }

  function OnChunk(cfg: Config, r: Reader, chunk: string): Reader {
    if r.overflowed then r
    else
      var parts := Split(r.lineBuffer + chunk, '\n');
      var read := OnParts(cfg, r.(lineBuffer := Open(parts)), Closed(parts));
      if read.overflowed then read else if !Fits(cfg, Open(parts)) then Overflow(read) else read
  }

  /** A chunk after the run was aborted: nothing is fed, and only the first line, complete or not, is still measured. */
  function OnAborted(cfg: Config, r: Reader, chunk: string): Reader {
    if r.overflowed then r
    else
      var parts := Split(r.lineBuffer + chunk, '\n');
      var read := r.(lineBuffer := Open(parts));
      if Fits(cfg, parts[0]) then read else Overflow(read)
  }

  function OnClose(cfg: Config, r: Reader): Reader {
    if r.overflowed || cfg.blank(r.lineBuffer) then r
    else if Fits(cfg, r.lineBuffer) then Reader("", FeedLine(cfg, r.feed, r.lineBuffer), false)
    else r.(lineBuffer := "")
  }

  function ReadAll(cfg: Config, chunks: seq<string>): Reader {
    if chunks == [] then Fresh() else OnChunk(cfg, ReadAll(cfg, chunks[..|chunks| - 1]), chunks[|chunks| - 1])
  }

  function Whole(chunks: seq<string>): string {
    if chunks == [] then "" else Whole(chunks[..|chunks| - 1]) + chunks[|chunks| - 1]
  }

  ghost predicate PartsFit(cfg: Config, parts: seq<string>) {
    forall i :: 0 <= i < |parts| ==> Fits(cfg, parts[i])
  }

  ghost predicate LinesFit(cfg: Config, text: string) {
    PartsFit(cfg, Split(text, '\n'))
  }

  // ---- chunking does not matter ----

  lemma {:induction false} FeedAppend(cfg: Config, f: Feed, a: seq<string>, b: seq<string>)
    ensures FeedLines(cfg, f, a + b) == FeedLines(cfg, FeedLines(cfg, f, a), b)
    decreases |b|
  {
    hide FeedLine;
    if b == [] {
      assert a + b == a;
    } else {
      FeedAppend(cfg, f, a, b[..|b| - 1]);
      assert (a + b)[..|a + b| - 1] == a + b[..|b| - 1];
    }
  }

  lemma {:induction false} PartsRead(cfg: Config, r: Reader, parts: seq<string>)
    requires !r.overflowed
    ensures OnParts(cfg, r, parts).overflowed <==> !PartsFit(cfg, parts)
    ensures PartsFit(cfg, parts) ==> OnParts(cfg, r, parts) == r.(feed := FeedLines(cfg, r.feed, parts))
    decreases |parts|
  {
    hide FeedLine, Fits;
    if parts != [] {
      PartsRead(cfg, r, parts[..|parts| - 1]);
    }
  }

  lemma {:induction false} SepIndex(o: string, y: string)
    requires '\n' !in o
    ensures IndexOf(o + y, '\n') == |o| + IndexOf(y, '\n')
    decreases |o|
  {
    if o == "" {
      assert o + y == y;
    } else {
      assert (o + y)[1..] == o[1..] + y;
      SepIndex(o[1..], y);
    }
  }

  /** An unfinished line is the beginning of the line it becomes. */
  lemma FirstPiece(o: string, y: string)
    requires '\n' !in o
    ensures ByteLen(o) <= ByteLen(Split(o + y, '\n')[0])
  {
    SepIndex(o, y);
    var k := IndexOf(y, '\n');
    assert (o + y)[..|o| + k] == o + y[..k];
    assert y[..|y|] == y;
    ByteLenAppend(o, y[..k]);
  }

  /** More text only ever lengthens the last line, so what fits later fitted before. */
  lemma FitsBefore(cfg: Config, x: string, y: string)
    ensures LinesFit(cfg, x + y) <==> PartsFit(cfg, Closed(Split(x, '\n'))) && PartsFit(cfg,
        Split(Open(Split(x, '\n')) + y, '\n'))
    ensures LinesFit(cfg, x + y) ==> LinesFit(cfg, x)
  {
    SplitAppend(x, y, '\n');
    JoinSplit(x, '\n');
    var before := Split(x, '\n');
    var after := Split(Open(before) + y, '\n');
    FirstPiece(Open(before), y);
    hide Split, ByteLen;
    FitAppend(cfg, Closed(before), after);
    FitAppend(cfg, Closed(before), [Open(before)]);
    assert before == Closed(before) + [Open(before)];
  }

  lemma FitAppend(cfg: Config, a: seq<string>, b: seq<string>)
    ensures PartsFit(cfg, a + b) <==> PartsFit(cfg, a) && PartsFit(cfg, b)
  {
    hide Fits;
    assert forall i :: 0 <= i < |a| ==> (a + b)[i] == a[i];
    assert forall i :: 0 <= i < |b| ==> (a + b)[|a| + i] == b[i];
  }

  /** What has been read of a text, however it was cut: its complete lines were fed, and its last one is kept. */
  function ReadWhole(cfg: Config, text: string): Reader {
    Reader(Open(Split(text, '\n')), FeedLines(cfg, Feed([], false), Closed(Split(text, '\n'))), false)
  }

  lemma ChunkReads(cfg: Config, text: string, chunk: string)
    requires LinesFit(cfg, text)
    ensures var r := OnChunk(cfg, ReadWhole(cfg, text), chunk);
            && (r.overflowed <==> !LinesFit(cfg, text + chunk))
            && (!r.overflowed ==> r == ReadWhole(cfg, text + chunk))
  {
    hide Split, FeedLines, OnParts, Fits, LinesFit;
    FitsBefore(cfg, text, chunk);
    SplitAppend(text, chunk, '\n');
    var before := Split(text, '\n');
    var parts := Split(Open(before) + chunk, '\n');
    var whole := Split(text + chunk, '\n');
    assert Closed(whole) == Closed(before) + Closed(parts) && Open(whole) == Open(parts);
    PartsRead(cfg, ReadWhole(cfg, text).(lineBuffer := Open(parts)), Closed(parts));
    FitAppend(cfg, Closed(parts), [Open(parts)]);
    assert parts == Closed(parts) + [Open(parts)];
    ClosedFit(cfg, text);
    FeedAppend(cfg, Feed([], false), Closed(before), Closed(parts));
    OneFits(cfg, Open(parts));
  }

  lemma OneFits(cfg: Config, part: string)
    ensures PartsFit(cfg, [part]) <==> Fits(cfg, part)
  {
    assert [part][0] == part;
  }

  lemma ClosedFit(cfg: Config, text: string)
    requires LinesFit(cfg, text)
    ensures PartsFit(cfg, Closed(Split(text, '\n')))
  {
    hide Split, Fits;
  }

  /**
   * However a text is cut into chunks, reading stops exactly when one of its lines is too long, and otherwise ends in
   * the same state.
   */
  lemma {:induction false} ChunkingDoesNotMatter(cfg: Config, chunks: seq<string>)
    ensures ReadAll(cfg, chunks).overflowed <==> !LinesFit(cfg, Whole(chunks))
    ensures LinesFit(cfg, Whole(chunks)) ==> ReadAll(cfg, chunks) == ReadWhole(cfg, Whole(chunks))
    decreases |chunks|
  {
    hide OnChunk, LinesFit, ReadWhole;
    if chunks == [] {
      NothingRead(cfg);
    } else {
      var front, chunk := chunks[..|chunks| - 1], chunks[|chunks| - 1];
      ChunkingDoesNotMatter(cfg, front);
      FitsBefore(cfg, Whole(front), chunk);
      if LinesFit(cfg, Whole(front)) {
        ChunkReads(cfg, Whole(front), chunk);
      } else {
        StaysOver(cfg, ReadAll(cfg, front), chunk);
      }
    }
  }

  lemma StaysOver(cfg: Config, r: Reader, chunk: string)
    requires r.overflowed
    ensures OnChunk(cfg, r, chunk) == r
  {
  }

  lemma NothingRead(cfg: Config)
    ensures LinesFit(cfg, "") && ReadWhole(cfg, "") == Fresh()
  {
    assert Split("", '\n') == [""];
  }

  /** Closing the stream feeds the last line as well: all lines have been fed, as if one by one. */
  lemma ClosedStreamFedEveryLine(cfg: Config, chunks: seq<string>)
    requires LinesFit(cfg, Whole(chunks))
    ensures OnClose(cfg, ReadAll(cfg, chunks)).feed == FeedLines(cfg, Feed([], false), Split(Whole(chunks), '\n'))
  {
    hide ReadAll, Split, FeedLine, Fits;
    ChunkingDoesNotMatter(cfg, chunks);
    var parts := Split(Whole(chunks), '\n');
    BlankFeedsNothing(cfg, FeedLines(cfg, Feed([], false), Closed(parts)), Open(parts));
  }

  lemma BlankFeedsNothing(cfg: Config, f: Feed, line: string)
    ensures cfg.blank(line) ==> FeedLine(cfg, f, line) == f
  {
  }

  // ---- line by line against batch ----

  function FedLines(lines: seq<Line>): Feed {
    if lines == [] then Feed([], false) else OnFeed(FedLines(lines[..|lines| - 1]), lines[|lines| - 1])
  }

  lemma {:induction false} FeedsDecoded(cfg: Config, lines: seq<string>)
    requires WellFormed(cfg, lines)
    ensures FeedLines(cfg, Feed([], false), lines) == FedLines(Decoded(cfg, lines))
    decreases |lines|
  {
    hide Read;
    if lines != [] {
      var front, last := lines[..|lines| - 1], lines[|lines| - 1];
      assert last in lines && forall line :: line in front ==> line in lines;
      FeedsDecoded(cfg, front);
      var before := Decoded(cfg, front);
      if cfg.blank(last) {
        assert before + [] == before;
      } else {
        var line := Read(cfg, cfg.decode(last).value);
        assert (before + [line])[..|before|] == before;
      }
    }
  }

  predicate NoStepText(lines: seq<Line>) {
    forall line :: line in lines && line.Step? ==> line.texts == []
  }

  /** The result lines with a response that come before any step text. */
  function EarlyResponses(lines: seq<Line>): nat {
    if lines == [] then 0
    else
      var front, last := lines[..|lines| - 1], lines[|lines| - 1];
      EarlyResponses(front) + if last.Result? && last.response != "" && NoStepText(front) then 1 else 0
  }

  lemma TextsMore(events: seq<Event>, e: Event)
    ensures TextsOf(events + [e]) == TextsOf(events)
        + match e case Texts(texts) => texts case Response(text) => [text] case _ => []
  {
    assert (events + [e])[..|events|] == events;
  }

  /** Each early response after the first is emitted once more than the batch has it. */
  ghost predicate Apart(streamed: seq<string>, batch: seq<string>, early: nat) {
    if early <= 1 then streamed == batch else |streamed| == |batch| + early - 1
  }

  lemma {:induction false} FedAgainstParsed(lines: seq<Line>)
    ensures var f, b := FedLines(lines), ParsedLines(lines);
            && (f.sawText <==> !NoStepText(lines))
            && (b.texts == [] <==> NoStepText(lines) && EarlyResponses(lines) == 0)
            && Apart(TextsOf(f.events), b.texts, EarlyResponses(lines))
    decreases |lines|
  {
    if lines != [] {
      var front, last := lines[..|lines| - 1], lines[|lines| - 1];
      FedAgainstParsed(front);
      hide FedLines, ParsedLines, EarlyResponses, NoStepText;
      OneMoreLine(front, last);
      assert lines == front + [last];
    }
  }

  lemma StepTextMore(front: seq<Line>, last: Line)
    ensures NoStepText(front + [last]) <==> NoStepText(front) && (last.Step? ==> last.texts == [])
  {
    assert last in front + [last];
    assert forall line :: line in front + [last] <==> line in front || line == last;
  }

  lemma FoldsMore(front: seq<Line>, last: Line)
    ensures FedLines(front + [last]) == OnFeed(FedLines(front), last)
        && ParsedLines(front + [last]) == OnLine(ParsedLines(front), last)
    ensures EarlyResponses(front + [last]) == EarlyResponses(front) +
        if last.Result? && last.response != "" && NoStepText(front) then 1 else 0
  {
    hide OnFeed, OnLine, NoStepText;
    assert (front + [last])[..|front|] == front;
  }

  lemma OneMoreLine(front: seq<Line>, last: Line)
    requires var f, b := FedLines(front), ParsedLines(front);
             && (f.sawText <==> !NoStepText(front))
             && (b.texts == [] <==> NoStepText(front) && EarlyResponses(front) == 0)
             && Apart(TextsOf(f.events), b.texts, EarlyResponses(front))
    ensures var f, b := FedLines(front + [last]), ParsedLines(front + [last]);
            && (f.sawText <==> !NoStepText(front + [last]))
            && (b.texts == [] <==> NoStepText(front + [last]) && EarlyResponses(front + [last]) == 0)
            && Apart(TextsOf(f.events), b.texts, EarlyResponses(front + [last]))
  {
    hide FedLines, ParsedLines, EarlyResponses, NoStepText, TextsOf;
    StepTextMore(front, last);
    FoldsMore(front, last);
    var f, b := FedLines(front), ParsedLines(front);
    match last
    case Step(texts) =>
      TextsMore(f.events, Texts(texts));
      assert b.texts + [] == b.texts;
    case Result(response, _, limited) =>
      TextsMore(f.events, Response(response));
      var done := Completed(if limited then Length else Stop);
      TextsMore(f.events, done);
      TextsMore(f.events + [Response(response)], done);
      assert f.events + [] == f.events && TextsOf(f.events) + [] == TextsOf(f.events);
      assert TextsOf(f.events) + [response] + [] == TextsOf(f.events) + [response];
      assert [] + [response] == [response];
    case Other =>
  }

  /**
   * Over any chunking of a well-formed output whose lines fit, the text emitted line by line is the
   * batch parser's text, exactly when at most one response comes before any step text; every further
   * one is emitted in addition.
   */
  lemma StreamedTextIsBatchText(cfg: Config, chunks: seq<string>)
    requires LinesFit(cfg, Whole(chunks)) && WellFormed(cfg, Split(Whole(chunks), '\n'))
    ensures ParseAgyStreamJson(cfg, Whole(chunks)).Some?
    ensures var streamed := TextsOf(OnClose(cfg, ReadAll(cfg, chunks)).feed.events);
            var batch := ParseAgyStreamJson(cfg, Whole(chunks)).value.texts;
            var early := EarlyResponses(Decoded(cfg, Split(Whole(chunks), '\n')));
            && (streamed == batch <==> early <= 1)
            && (early > 1 ==> |streamed| == |batch| + early - 1)
  {
    hide ReadAll, Split, OnClose, LinesFit, WellFormed, Decoded, FedLines, ParsedLines, FeedLines, EarlyResponses;
    ClosedStreamFedEveryLine(cfg, chunks);
    var lines := Split(Whole(chunks), '\n');
    FeedsDecoded(cfg, lines);
    FedAgainstParsed(Decoded(cfg, lines));
  }

  /** At most one result line is enough. */
  predicate OneResult(lines: seq<Line>) {
    forall i, j | 0 <= i < j < |lines| && lines[i].Result? && lines[j].Result? :: false
  }

  lemma {:induction false} OneResultIsEnough(lines: seq<Line>)
    requires OneResult(lines)
    ensures EarlyResponses(lines) <= 1 && ((forall i :: 0 <= i < |lines| ==> !lines[i].Result?) ==>
        EarlyResponses(lines) == 0)
    decreases |lines|
  {
    if lines != [] {
      var front := lines[..|lines| - 1];
      OneResultIsEnough(front);
      if lines[|lines| - 1].Result? {
        assert forall i :: 0 <= i < |front| ==> !lines[i].Result?;
      }
    }
  }

  // ---- the finish reasons ----

  /** The finish reasons that were emitted, in order. */
  function FinishesOf(events: seq<Event>): seq<Finish> {
    if events == [] then []
    else
      var last := events[|events| - 1];
      FinishesOf(events[..|events| - 1]) + if last.Completed? then [last.finish] else []
  }

  /** What the result lines say one by one. */
  function ResultFinishes(lines: seq<Line>): seq<Finish> {
    if lines == [] then []
    else
      var last := lines[|lines| - 1];
      ResultFinishes(lines[..|lines| - 1]) + if last.Result? then [if last.limited then Length else Stop] else []
  }

  lemma FinishesMore(events: seq<Event>, e: Event)
    ensures FinishesOf(events + [e]) == FinishesOf(events) + if e.Completed? then [e.finish] else []
  {
    assert (events + [e])[..|events|] == events;
  }

  lemma {:induction false} EachResultIsEmitted(lines: seq<Line>)
    ensures FinishesOf(FedLines(lines).events) == ResultFinishes(lines)
    decreases |lines|
  {
    if lines != [] {
      var front, last := lines[..|lines| - 1], lines[|lines| - 1];
      EachResultIsEmitted(front);
      LineEmitsItsFinish(FedLines(front), last);
    }
  }

  lemma LineEmitsItsFinish(f: Feed, line: Line)
    ensures FinishesOf(OnFeed(f, line).events) == FinishesOf(f.events) +
        if line.Result? then [if line.limited then Length else Stop] else []
  {
    hide FinishesOf;
    match line
    case Step(texts) => FinishesMore(f.events, Texts(texts));
    case Result(response, _, limited) =>
      var done := Completed(if limited then Length else Stop);
      FinishesMore(f.events, Response(response));
      FinishesMore(f.events, done);
      FinishesMore(f.events + [Response(response)], done);
      assert f.events + [] == f.events && FinishesOf(f.events) + [] == FinishesOf(f.events);
    case Other =>
  }

  /** A result line that sets the batch's finish reason: interrupted, or cut by a limit. */
  predicate Decides(line: Line) {
    line.Result? && (line.stopped || line.limited)
  }

  /** The place of the last result line that sets the batch's finish reason; -1 when none does. */
  function LastDecisive(lines: seq<Line>): (i: int)
    ensures -1 <= i < |lines| && (i >= 0 ==> Decides(lines[i]))
    ensures forall j | i < j < |lines| :: !Decides(lines[j])
  {
    if lines == [] then -1
    else if Decides(lines[|lines| - 1]) then |lines| - 1
    else LastDecisive(lines[..|lines| - 1])
  }

  /** The place of the last result line; -1 when there is none. */
  function LastResult(lines: seq<Line>): (i: int)
    ensures -1 <= i < |lines| && (i >= 0 ==> lines[i].Result?)
    ensures forall j | i < j < |lines| :: !lines[j].Result?
  {
    if lines == [] then -1 else if lines[|lines| - 1].Result? then |lines| - 1 else LastResult(lines[..|lines| - 1])
  }

  lemma {:induction false} BatchFinish(lines: seq<Line>)
    ensures var i := LastDecisive(lines);
            ParsedLines(lines).finish == if i >= 0 && !lines[i].stopped then Length else Stop
    decreases |lines|
  {
    if lines != [] {
      BatchFinish(lines[..|lines| - 1]);
    }
  }

  /** The last finish reason emitted is what the last result line says. */
  lemma {:induction false} LastFinish(lines: seq<Line>)
    ensures ParsedLines(lines).completed <==> ResultFinishes(lines) != []
    ensures ResultFinishes(lines) != [] <==> LastResult(lines) >= 0
    ensures var i := LastResult(lines);
            i >= 0 ==> ResultFinishes(lines)[|ResultFinishes(lines)| - 1] == if lines[i].limited then Length else Stop
    decreases |lines|
  {
    if lines != [] {
      LastFinish(lines[..|lines| - 1]);
    }
  }

  /**
   * When the two parsers agree: the last result line that is interrupted or cut by a limit is not both
   * if it is the last result line of all, and is an interrupted one if another result line follows it.
   */
  predicate OneFinish(lines: seq<Line>) {
    var i := LastDecisive(lines);
    i >= 0 ==> if i == LastResult(lines) then !(lines[i].stopped && lines[i].limited) else lines[i].stopped
  }

  /**
   * Over any chunking of a well-formed output whose lines fit, one finish reason is emitted for each
   * result line, and the batch parser is complete when there is one. The last one emitted is the batch
   * parser's, exactly when the result lines decide it as one line would.
   */
  lemma FinishReasonsAgree(cfg: Config, chunks: seq<string>)
    requires LinesFit(cfg, Whole(chunks)) && WellFormed(cfg, Split(Whole(chunks), '\n'))
    ensures ParseAgyStreamJson(cfg, Whole(chunks)).Some?
    ensures var streamed := FinishesOf(OnClose(cfg, ReadAll(cfg, chunks)).feed.events);
            var batch := ParseAgyStreamJson(cfg, Whole(chunks)).value;
            var lines := Decoded(cfg, Split(Whole(chunks), '\n'));
            && streamed == ResultFinishes(lines)
            && (batch.completed <==> streamed != [])
            && (streamed == [] ==> batch.finish == Stop)
            && (streamed != [] ==> (batch.finish == streamed[|streamed| - 1] <==> OneFinish(lines)))
  {
    hide ReadAll, Split, OnClose, LinesFit, WellFormed, Decoded, FedLines, ParsedLines, FeedLines,
        ResultFinishes, FinishesOf,
      LastDecisive, LastResult, OneFinish;
    ClosedStreamFedEveryLine(cfg, chunks);
    var texts := Split(Whole(chunks), '\n');
    FeedsDecoded(cfg, texts);
    var lines := Decoded(cfg, texts);
    EachResultIsEmitted(lines);
    LastFinish(lines);
    FinishesCompare(lines);
  }

  lemma FinishesCompare(lines: seq<Line>)
    ensures var said := ResultFinishes(lines);
            && (said == [] ==> ParsedLines(lines).finish == Stop)
            && (said != [] ==> (ParsedLines(lines).finish == said[|said| - 1] <==> OneFinish(lines)))
  {
    BatchFinish(lines);
    LastFinish(lines);
    hide ParsedLines, ResultFinishes;
  }

  /**
   * A result cut by a limit, followed by one that says nothing: the batch keeps the limit, the stream ends on a stop.
   */
  lemma ALaterResultHidesTheLimit(cfg: Config, a: string, b: string, first: string, second: string)
    requires '\n' !in a && '\n' !in b && Fits(cfg, a) && Fits(cfg, b) && !cfg.blank(a) && !cfg.blank(b)
    requires Readable(cfg, a) && Read(cfg, cfg.decode(a).value) == Result(first, false, true)
    requires Readable(cfg, b) && Read(cfg, cfg.decode(b).value) == Result(second, false, false)
    ensures FinishesOf(OnClose(cfg, ReadAll(cfg, [a + "\n" + b])).feed.events) == [Length, Stop]
    ensures var batch := ParseAgyStreamJson(cfg, a + "\n" + b); batch.Some? && batch.value.finish == Length
  {
    var text := a + "\n" + b;
    assert Whole([text]) == text by { assert [text][..0] == [] && "" + text == text; }
    assert Split(text, '\n') == [a, b] by { SplitTwo(a, b); }
    hide Split, Read, Fits, ReadAll, OnClose, FinishesOf;
    DecodedTwo(cfg, a, b);
    FinishReasonsAgree(cfg, [text]);
    TwoResults(Result(first, false, true), Result(second, false, false));
  }

  lemma SplitTwo(a: string, b: string)
    requires '\n' !in a && '\n' !in b
    ensures Split(a + "\n" + b, '\n') == [a, b]
  {
    SplitHead(a, '\n', b);
    SplitPlain(b, '\n');
    assert a + "\n" + b == a + ['\n'] + b;
  }

  lemma SplitPlain(s: string, sep: char)
    requires sep !in s
    ensures Split(s, sep) == [s]
  {
  }

  lemma DecodedTwo(cfg: Config, a: string, b: string)
    requires !cfg.blank(a) && !cfg.blank(b) && Readable(cfg, a) && Readable(cfg, b)
    ensures WellFormed(cfg, [a, b]) && Decoded(cfg, [a, b]) == [Read(cfg, cfg.decode(a).value),
        Read(cfg, cfg.decode(b).value)]
  {
    hide Read;
    assert [a, b][..1] == [a] && [a][..0] == [];
    assert Decoded(cfg, [a]) == [Read(cfg, cfg.decode(a).value)];
  }

  lemma TwoResults(x: Line, y: Line)
    requires x.Result? && y.Result?
    ensures ResultFinishes([x, y]) == [if x.limited then Length else Stop, if y.limited then Length else Stop]
    ensures ParsedLines([x, y]).finish == OnLine(OnLine(Batch([], false, Stop), x), y).finish
  {
    assert [x, y][..1] == [x] && [x][..0] == [];
    assert ResultFinishes([x]) == [if x.limited then Length else Stop];
    assert ParsedLines([x]) == OnLine(Batch([], false, Stop), x);
  }
}
