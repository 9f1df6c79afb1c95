/**
 * What a line of agy output brings to each of its two parsers.
 */
module AgyLines {
  import opened Options
  import opened Text
  import opened Utf8
  import opened AgyStream

  // What a line of the agy command's output brings to each of its two parsers, on the members of the
  // decoded value, and what a whole output comes to: the texts of its step updates, in order, with the
  // responses of the results that come before any of them.

  // ---- the members of a decoded line ----

  /** The member of this name. */
  ghost predicate Holds(v: Value, name: string, m: Value) {
    && v.Record?
    && exists i :: 0 <= i < |v.fields| && v.fields[i] == Member(name, m)
                   && forall j :: 0 <= j < i ==> v.fields[j].name != name
  }

  predicate Lacks(v: Value, name: string) {
    v.Record? ==> forall i :: 0 <= i < |v.fields| ==> v.fields[i].name != name
  }

  /** An `event` that is a text names the kind, and only without one does a `type`. */
  ghost predicate OfKind(v: Value, kind: string) {
    || Holds(v, "event", Str(kind))
    || (Holds(v, "type", Str(kind)) && (Lacks(v, "event") || exists m :: Holds(v, "event", m) && !m.Str?))
  }

  /** The payload is the tree under the name of the kind, and without one the whole value. */
  ghost predicate CarriedIn(v: Value, kind: string, payload: Value) {
    || (Holds(v, kind, payload) && IsTree(payload))
    || (payload == v && (Lacks(v, kind) || exists m :: Holds(v, kind, m) && !IsTree(m)))
  }

  /** A step update may be wrapped once more. */
  ghost predicate Unwrapped(payload: Value, root: Value) {
    || (Holds(payload, "step_update", root) && !root.Null?)
    || (root == payload && (Lacks(payload, "step_update") || Holds(payload, "step_update", Null)))
  }

  lemma {:induction false} FoundAt(fields: seq<Member>, name: string, i: nat)
    requires i < |fields| && fields[i].name == name && forall j :: 0 <= j < i ==> fields[j].name != name
    ensures Get(fields, name) == Some(fields[i].value)
    decreases i
  {
    if i > 0 {
      FoundAt(fields[1..], name, i - 1);
    }
  }

  lemma {:induction false} FoundNowhere(fields: seq<Member>, name: string)
    requires forall i :: 0 <= i < |fields| ==> fields[i].name != name
    ensures Get(fields, name) == None
  {
    if fields != [] {
      FoundNowhere(fields[1..], name);
    }
  }

  lemma HeldIsGot(v: Value, name: string, m: Value)
    requires Holds(v, name, m)
    ensures Get(FieldsOf(v), name) == Some(m)
  {
    var i :| 0 <= i < |v.fields| && v.fields[i] == Member(name, m) && forall j :: 0 <= j < i ==>
        v.fields[j].name != name;
    FoundAt(v.fields, name, i);
  }

  lemma LackedIsNone(v: Value, name: string)
    requires Lacks(v, name)
    ensures Get(FieldsOf(v), name) == None
  {
    FoundNowhere(FieldsOf(v), name);
  }

  lemma KindIsRead(v: Value, kind: string)
    requires OfKind(v, kind)
    ensures KindOf(FieldsOf(v)) == Some(Str(kind))
  {
    hide Holds, Lacks, Get;
    if Holds(v, "event", Str(kind)) {
      HeldIsGot(v, "event", Str(kind));
    } else {
      HeldIsGot(v, "type", Str(kind));
      if Lacks(v, "event") {
        LackedIsNone(v, "event");
      } else {
        var m :| Holds(v, "event", m) && !m.Str?;
        HeldIsGot(v, "event", m);
      }
    }
  }

  lemma PayloadIsRead(v: Value, kind: string, payload: Value)
    requires OfKind(v, kind) && CarriedIn(v, kind, payload)
    ensures PayloadOf(v) == payload
  {
    hide Holds, Lacks, Get, KindOf, OfKind;
    KindIsRead(v, kind);
    if Holds(v, kind, payload) && IsTree(payload) {
      HeldIsGot(v, kind, payload);
    } else if Lacks(v, kind) {
      LackedIsNone(v, kind);
    } else {
      var m :| Holds(v, kind, m) && !IsTree(m);
      HeldIsGot(v, kind, m);
    }
  }

  lemma RootIsRead(payload: Value, root: Value)
    requires Unwrapped(payload, root)
    ensures Either(Get(FieldsOf(payload), "step_update"), Some(payload)) == Some(root)
  {
    hide Holds, Lacks, Get;
    if Holds(payload, "step_update", root) && !root.Null? {
      HeldIsGot(payload, "step_update", root);
    } else if Lacks(payload, "step_update") {
      LackedIsNone(payload, "step_update");
    } else {
      HeldIsGot(payload, "step_update", Null);
    }
  }

  /** A record gives its own delta exactly when it holds one that is a text and is not empty. */
  lemma DeltaIsItsMember(v: Value)
    requires v.Record?
    ensures |OwnDelta(v.fields)| <= 1
    ensures forall t :: OwnDelta(v.fields) == [t] <==> Holds(v, "text_delta", Str(t)) && t != ""
  {
    hide Holds, Lacks, Get;
    GotIsHeld(v, "text_delta");
    forall t | Holds(v, "text_delta", Str(t)) ensures Get(v.fields, "text_delta") == Some(Str(t)) {
      HeldIsGot(v, "text_delta", Str(t));
    }
  }

  // ---- one line ----

  /**
   * A step update brings both parsers the same texts: every non-empty delta in its tree, each once. The batch parser
   * appends them, and the line-by-line parser emits them if there are any.
   */
  lemma StepTextReachesBoth(cfg: Config, f: Feed, b: Batch, line: string, v: Value, payload: Value, root: Value)
      returns (texts: seq<string>)
    requires !cfg.blank(line) && cfg.decode(line) == Some(v)
    requires OfKind(v, "step_update") && CarriedIn(v, "step_update", payload) && Unwrapped(payload, root)
    ensures multiset(texts) == multiset(Deltas(root))
    ensures Read(cfg, v) == Step(texts)
    ensures OnLine(b, Read(cfg, v)) == b.(texts := b.texts + texts)
    ensures FeedLine(cfg, f, line) == if Deltas(root) == [] then f else Feed(f.events + [Texts(texts)], true)
  {
    hide OfKind, CarriedIn, Unwrapped, KindOf, PayloadOf, Get, Walk, Deltas, Either;
    KindIsRead(v, "step_update");
    PayloadIsRead(v, "step_update", payload);
    RootIsRead(payload, root);
    texts := Walk(root);
    WalkCollectsOnce(root);
    SameIfEmpty(texts, Deltas(root));
  }

  lemma SameIfEmpty(a: seq<string>, b: seq<string>)
    requires multiset(a) == multiset(b)
    ensures a == [] <==> b == []
  {
    assert a != [] ==> a[0] in multiset(a);
    assert b != [] ==> b[0] in multiset(b);
  }

  /** The text of a member: the payload's own, and where that is missing or null the envelope's; else none. */
  ghost predicate Said(v: Value, payload: Value, name: string, text: string) {
    || Holds(payload, name, Str(text))
    || (text == "" && exists m :: Holds(payload, name, m) && !m.Null? && !m.Str?)
    || ((Lacks(payload, name) || Holds(payload, name, Null))
        && (Holds(v, name, Str(text)) || (text == "" && (Lacks(v, name) || exists m :: Holds(v, name, m) && !m.Str?))))
  }

  /** The text of a member of one record; else none. */
  ghost predicate SaidBy(v: Value, name: string, text: string) {
    Holds(v, name, Str(text)) || (text == "" && (Lacks(v, name) || exists m :: Holds(v, name, m) && !m.Str?))
  }

  lemma SaidByIsRead(v: Value, name: string, text: string)
    requires SaidBy(v, name, text)
    ensures TextIn(Get(FieldsOf(v), name)) == text
  {
    hide Holds, Lacks, Get;
    if Holds(v, name, Str(text)) {
      HeldIsGot(v, name, Str(text));
    } else if Lacks(v, name) {
      LackedIsNone(v, name);
    } else {
      var m :| Holds(v, name, m) && !m.Str?;
      HeldIsGot(v, name, m);
    }
  }

  lemma SaidIsRead(v: Value, payload: Value, name: string, text: string)
    requires Said(v, payload, name, text)
    ensures TextIn(Either(Get(FieldsOf(payload), name), Get(FieldsOf(v), name))) == text
  {
    hide Holds, Lacks, Get;
    if Holds(payload, name, Str(text)) {
      HeldIsGot(payload, name, Str(text));
    } else if m :| Holds(payload, name, m) && !m.Null? && !m.Str? && text == "" {
      HeldIsGot(payload, name, m);
    } else {
      if Lacks(payload, name) {
        LackedIsNone(payload, name);
      } else {
        HeldIsGot(payload, name, Null);
      }
      SaidByIsRead(v, name, text);
    }
  }

  /**
   * A result is read alike by both parsers: its response and status from the payload or else the envelope, and a limit
   * when either says so. What each makes of it is another matter: the stream emits the response unless there was text,
   * and always a completion; the batch keeps the response only without any text, and an interruption wins over a limit.
   */
  lemma ResultIsReadByBoth(cfg: Config, f: Feed, b: Batch, line: string, v: Value, payload: Value, response: string,
      status: string, inner: string, outer: string)
    requires !cfg.blank(line) && cfg.decode(line) == Some(v)
    requires OfKind(v, "result") && CarriedIn(v, "result", payload)
    requires Said(v, payload, "response", response) && Said(v, payload, "status", status)
    requires SaidBy(payload, "terminationReason", inner) && SaidBy(v, "terminationReason", outer)
    ensures var limited := cfg.limited(inner) || cfg.limited(outer);
            var t := FeedLine(cfg, f, line);
            && t.sawText == f.sawText
            && t.events == f.events + (if response != "" && !f.sawText then [Response(response)] else [])
                           + [Completed(if limited then Length else Stop)]
            && OnLine(b, Read(cfg, v))
                 == Batch(if response != "" && b.texts == [] then [response] else b.texts, true,
                          if cfg.stopped(status) then Stop else if limited then Length else b.finish)
  {
    hide OfKind, CarriedIn, Said, SaidBy, KindOf, PayloadOf, Get, Walk, Either, TextIn;
    KindIsRead(v, "result");
    PayloadIsRead(v, "result", payload);
    SaidIsRead(v, payload, "response", response);
    SaidIsRead(v, payload, "status", status);
    SaidByIsRead(payload, "terminationReason", inner);
    SaidByIsRead(v, "terminationReason", outer);
  }

  lemma {:induction false} GotIsThere(fields: seq<Member>, name: string) returns (i: nat)
    requires Get(fields, name).Some?
    ensures i < |fields| && fields[i] == Member(name, Get(fields, name).value)
    ensures forall j :: 0 <= j < i ==> fields[j].name != name
  {
    if fields[0].name == name {
      i := 0;
    } else {
      var k := GotIsThere(fields[1..], name);
      i := k + 1;
    }
  }

  lemma {:induction false} NoneIsThere(fields: seq<Member>, name: string)
    requires Get(fields, name) == None
    ensures forall i :: 0 <= i < |fields| ==> fields[i].name != name
  {
    if fields != [] {
      NoneIsThere(fields[1..], name);
    }
  }

  lemma GotIsHeld(v: Value, name: string)
    ensures Get(FieldsOf(v), name).Some? ==> Holds(v, name, Get(FieldsOf(v), name).value)
    ensures Get(FieldsOf(v), name) == None ==> Lacks(v, name)
  {
    if Get(FieldsOf(v), name).Some? {
      var i := GotIsThere(v.fields, name);
    } else {
      NoneIsThere(FieldsOf(v), name);
    }
  }

  lemma ReadIsOfKind(v: Value, kind: string)
    requires KindOf(FieldsOf(v)) == Some(Str(kind))
    ensures OfKind(v, kind)
  {
    hide Holds, Lacks, Get;
    GotIsHeld(v, "event");
    GotIsHeld(v, "type");
  }

  /**
   * A line of any other kind changes nothing in either parser. One that does not decode is reported by the one where it
   * stands, and leaves no result at all to the other.
   */
  lemma OtherLines(cfg: Config, f: Feed, b: Batch, stdout: string, line: string)
    requires line in Split(stdout, '\n') && !cfg.blank(line)
    ensures cfg.decode(line) == None ==>
              FeedLine(cfg, f, line) == f.(events := f.events + [Malformed])
              && ParseAgyStreamJson(cfg, stdout) == None
    ensures cfg.decode(line).Some? && !OfKind(cfg.decode(line).value, "step_update")
            && !OfKind(cfg.decode(line).value, "result") ==>
              FeedLine(cfg, f, line) == f && OnLine(b, Read(cfg, cfg.decode(line).value)) == b
  {
    hide OfKind, Walk, PayloadOf, Get, KindOf, Split;
    if cfg.decode(line) == None {
      assert !Readable(cfg, line);
    } else {
      var v := cfg.decode(line).value;
      if KindOf(FieldsOf(v)) == Some(Str("step_update")) {
        ReadIsOfKind(v, "step_update");
      } else if KindOf(FieldsOf(v)) == Some(Str("result")) {
        ReadIsOfKind(v, "result");
      }
    }
  }

  // ---- a whole output ----

  /** The texts of the step updates, in order. */
  function StepTexts(lines: seq<Line>): seq<string> {
    if lines == [] then []
    else (if lines[0].Step? then lines[0].texts else []) + StepTexts(lines[1..])
  }

  /** The responses of the results that come before any step text. */
  function EarlyTexts(lines: seq<Line>): seq<string> {
    if lines == [] || (lines[0].Step? && lines[0].texts != []) then []
    else (if lines[0].Result? && lines[0].response != "" then [lines[0].response] else []) + EarlyTexts(lines[1..])
  }

  lemma {:induction false} StepTextsMore(front: seq<Line>, last: Line)
    ensures StepTexts(front + [last]) == StepTexts(front) + (if last.Step? then last.texts else [])
  {
    if front == [] {
      assert [last][1..] == [];
    } else {
      StepTextsMore(front[1..], last);
      assert (front + [last])[1..] == front[1..] + [last];
      Associative(if front[0].Step? then front[0].texts else [], StepTexts(front[1..]),
                  if last.Step? then last.texts else []);
    }
  }

  lemma {:induction false} EarlyTextsMore(front: seq<Line>, last: Line)
    ensures EarlyTexts(front + [last])
         == EarlyTexts(front) + (if StepTexts(front) == [] && last.Result? && last.response != ""
                                 then [last.response] else [])
  {
    if front == [] {
      assert [last][1..] == [];
    } else {
      var head, tail := front[0], front[1..];
      EarlyTextsMore(tail, last);
      assert (front + [last])[1..] == tail + [last] && (front + [last])[0] == head;
      if !(head.Step? && head.texts != []) {
        Associative(if head.Result? && head.response != "" then [head.response] else [], EarlyTexts(tail),
                    if StepTexts(tail) == [] && last.Result? && last.response != "" then [last.response] else []);
      }
    }
  }

  /** What has been fed and parsed so far. */
  ghost predicate TextsAre(lines: seq<Line>, f: Feed, b: Batch) {
    var early, steps := EarlyTexts(lines), StepTexts(lines);
    && (f.sawText <==> steps != [])
    && (steps == [] ==> TextsOf(f.events) == early)
    && TextsOf(f.events) == early + steps
    && b.texts == (if early == [] then [] else [early[0]]) + steps
  }

  lemma OneMoreTexts(front: seq<Line>, last: Line, f: Feed, b: Batch)
    requires TextsAre(front, f, b)
    ensures TextsAre(front + [last], OnFeed(f, last), OnLine(b, last))
  {
    hide StepTexts, EarlyTexts, TextsOf;
    StepTextsMore(front, last);
    EarlyTextsMore(front, last);
    match last
    case Step(texts) =>
      TextsMore(f.events, Texts(texts));
      Associative(EarlyTexts(front), StepTexts(front), texts);
      Associative(if EarlyTexts(front) == [] then [] else [EarlyTexts(front)[0]], StepTexts(front), texts);
    case Result(response, _, limited) =>
      var done := Completed(if limited then Length else Stop);
      TextsMore(f.events, Response(response));
      TextsMore(f.events, done);
      TextsMore(f.events + [Response(response)], done);
      assert f.events + [] == f.events;
    case Other =>
  }

  lemma {:induction false} FoldedTexts(lines: seq<Line>)
    ensures TextsAre(lines, FedLines(lines), ParsedLines(lines))
    decreases |lines|
  {
    if lines == [] {
    } else {
      hide TextsAre, OnFeed, OnLine;
      var front := lines[..|lines| - 1];
      FoldedTexts(front);
      OneMoreTexts(front, lines[|lines| - 1], FedLines(front), ParsedLines(front));
      assert lines == front + [lines[|lines| - 1]];
    }
  }

  /**
   * Over any chunking of a well-formed output whose lines fit, what is emitted is the responses of the results that
   * come before any step text, and then the texts of all step updates, in order. The batch has the same step texts
   * after the first such response alone.
   */
  lemma TextIsExact(cfg: Config, chunks: seq<string>)
    requires LinesFit(cfg, Whole(chunks)) && WellFormed(cfg, Split(Whole(chunks), '\n'))
    ensures ParseAgyStreamJson(cfg, Whole(chunks)).Some?
    ensures var lines := Decoded(cfg, Split(Whole(chunks), '\n'));
            var early, steps := EarlyTexts(lines), StepTexts(lines);
            && TextsOf(OnClose(cfg, ReadAll(cfg, chunks)).feed.events) == early + steps
            && ParseAgyStreamJson(cfg, Whole(chunks)).value.texts == (if early == [] then [] else [early[0]]) + steps
  {
    hide ReadAll, Split, OnClose, LinesFit, WellFormed, Decoded, FedLines, ParsedLines, FeedLines,
        EarlyTexts, StepTexts;
    ClosedStreamFedEveryLine(cfg, chunks);
    var lines := Split(Whole(chunks), '\n');
    FeedsDecoded(cfg, lines);
    FoldedTexts(Decoded(cfg, lines));
  }

  // ---- a line that is too long ----

  lemma {:induction false} PartsUpTo(cfg: Config, r: Reader, parts: seq<string>, k: nat)
    requires !r.overflowed && k < |parts| && !Fits(cfg, parts[k]) && forall j :: 0 <= j < k ==> Fits(cfg, parts[j])
    ensures OnParts(cfg, r, parts) == Overflow(r.(feed := FeedLines(cfg, r.feed, parts[..k])))
    decreases |parts|
  {
    hide Fits, FeedLine, FeedLines, Overflow;
    var front := parts[..|parts| - 1];
    assert forall j :: 0 <= j < |front| ==> front[j] == parts[j];
    if k < |front| {
      PartsUpTo(cfg, r, front, k);
      assert front[..k] == parts[..k];
      OverflowIsOver(r.(feed := FeedLines(cfg, r.feed, parts[..k])));
    } else {
      PartsRead(cfg, r, front);
      assert parts[..k] == front;
    }
  }

  lemma OverflowIsOver(r: Reader)
    ensures Overflow(r).overflowed
  {
  }

  /** The chunk in which the first line becomes too long: what was finished before that line is fed, and no more. */
  lemma ChunkUpTo(cfg: Config, r: Reader, chunk: string, k: nat)
    requires !r.overflowed
    requires var parts := Split(r.lineBuffer + chunk, '\n');
             k < |parts| && !Fits(cfg, parts[k]) && forall j :: 0 <= j < k ==> Fits(cfg, parts[j])
    ensures var parts := Split(r.lineBuffer + chunk, '\n');
            OnChunk(cfg, r, chunk)
              == Reader("", Feed(FeedLines(cfg, r.feed, parts[..k]).events + [Malformed],
                                 FeedLines(cfg, r.feed, parts[..k]).sawText), true)
  {
    hide Split, Fits, FeedLine, FeedLines, OnParts;
    var parts := Split(r.lineBuffer + chunk, '\n');
    var start := r.(lineBuffer := Open(parts));
    if k < |parts| - 1 {
      assert Closed(parts)[..k] == parts[..k];
      PartsUpTo(cfg, start, Closed(parts), k);
    } else {
      assert Closed(parts) == parts[..k];
      PartsRead(cfg, start, Closed(parts));
    }
  }

  /** The first line of a text that is too long. */
  ghost predicate FirstLong(cfg: Config, text: string, k: nat) {
    var lines := Split(text, '\n');
    k < |lines| && !Fits(cfg, lines[k]) && forall j :: 0 <= j < k ==> Fits(cfg, lines[j])
  }

  /** The lines of a text and of a longer one agree up to the last, which is where the longer one goes on. */
  lemma LinesGoOn(cfg: Config, text: string, chunk: string)
    ensures var before, whole := Split(text, '\n'), Split(text + chunk, '\n');
            var n := |before| - 1;
            && whole == before[..n] + Split(before[n] + chunk, '\n') && |whole| > n
            && ByteLen(before[n]) <= ByteLen(whole[n])
  {
    SplitAppend(text, chunk, '\n');
    JoinSplit(text, '\n');
    FirstPiece(Open(Split(text, '\n')), chunk);
    hide Split, ByteLen;
  }

  lemma LongInThisChunk(cfg: Config, text: string, chunk: string, k: nat)
    requires LinesFit(cfg, text) && FirstLong(cfg, text + chunk, k)
    ensures var fed := FeedLines(cfg, Feed([], false), Split(text + chunk, '\n')[..k]);
            OnChunk(cfg, ReadWhole(cfg, text), chunk) == Reader("", Feed(fed.events + [Malformed], fed.sawText), true)
  {
    hide OnChunk, Split, Fits, FeedLines;
    LinesGoOn(cfg, text, chunk);
    var before, whole := Split(text, '\n'), Split(text + chunk, '\n');
    var n := |before| - 1;
    var parts := Split(before[n] + chunk, '\n');
    assert forall j :: 0 <= j < n ==> whole[j] == before[j];
    assert k >= n;
    assert whole[k] == parts[k - n] && forall j :: 0 <= j < k - n ==> parts[j] == whole[j + n];
    ChunkUpTo(cfg, ReadWhole(cfg, text), chunk, k - n);
    FeedAppend(cfg, Feed([], false), before[..n], parts[..k - n]);
    assert whole[..k] == before[..n] + parts[..k - n];
  }

  lemma SameFirstLong(cfg: Config, text: string, chunk: string, m: nat, k: nat)
    requires FirstLong(cfg, text, m) && FirstLong(cfg, text + chunk, k)
    ensures m == k && Split(text, '\n')[..m] == Split(text + chunk, '\n')[..k]
  {
    hide Split, ByteLen;
    LinesGoOn(cfg, text, chunk);
    var before, whole := Split(text, '\n'), Split(text + chunk, '\n');
    assert forall j :: 0 <= j < |before| - 1 ==> whole[j] == before[j];
    assert !Fits(cfg, whole[m]);
    assert !(m < k) && !(k < m);
  }

  /**
   * Over any chunking, an output with a line that is too long ends in one report, after everything that came of the
   * lines before the first such line, and nothing more is read or kept.
   */
  lemma {:induction false} LongLineIsReported(cfg: Config, chunks: seq<string>, k: nat)
    requires FirstLong(cfg, Whole(chunks), k)
    ensures var fed := FeedLines(cfg, Feed([], false), Split(Whole(chunks), '\n')[..k]);
            ReadAll(cfg, chunks) == Reader("", Feed(fed.events + [Malformed], fed.sawText), true)
    decreases |chunks|
  {
    hide OnChunk, Split, Fits, FeedLines, LinesFit;
    if chunks == [] {
      NothingRead(cfg);
      FirstLongIsLong(cfg, "", k);
      assert false;
    } else {
      var front, chunk := chunks[..|chunks| - 1], chunks[|chunks| - 1];
      FirstLongIsLong(cfg, Whole(chunks), k);
      ChunkingDoesNotMatter(cfg, front);
      if LinesFit(cfg, Whole(front)) {
        LongInThisChunk(cfg, Whole(front), chunk, k);
      } else {
        var m := SomeLong(cfg, Whole(front));
        LongLineIsReported(cfg, front, m);
        StaysOver(cfg, ReadAll(cfg, front), chunk);
        SameFirstLong(cfg, Whole(front), chunk, m, k);
      }
    }
  }

  lemma FirstLongIsLong(cfg: Config, text: string, k: nat)
    requires FirstLong(cfg, text, k)
    ensures !LinesFit(cfg, text)
  {
    hide Split, Fits;
  }

  lemma SomeLong(cfg: Config, text: string) returns (m: nat)
    requires !LinesFit(cfg, text)
    ensures FirstLong(cfg, text, m)
  {
    hide Split, Fits;
    var lines := Split(text, '\n');
    m := 0;
    while Fits(cfg, lines[m])
      invariant m < |lines| && forall j :: 0 <= j < m ==> Fits(cfg, lines[j])
      decreases |lines| - m
    {
      m := m + 1;
    }
  }

  /** Once the run is aborted nothing more is fed; only a first line that is too long is still reported. */
  lemma AbortedFeedsNothing(cfg: Config, r: Reader, chunk: string)
    requires !r.overflowed
    ensures var t := OnAborted(cfg, r, chunk);
            var first := Split(r.lineBuffer + chunk, '\n')[0];
            && t.feed.sawText == r.feed.sawText
            && (ByteLen(first) <= cfg.maxLine ==> !t.overflowed && t.feed.events == r.feed.events)
            && (ByteLen(first) > cfg.maxLine ==> t.overflowed && t.feed.events == r.feed.events + [Malformed])
  {
    hide Split, ByteLen;
  }
}
