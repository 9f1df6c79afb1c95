/** The stdout handler as the object it is: a line buffer and a parser state that change with every chunk. */
module AgyReaders {
  import opened Options
  import opened Text
  import opened Utf8
  import opened AgyStream

  class AgyReader {
    const cfg: Config
    var lineBuffer: string
    var events: seq<Event>
    var sawText: bool
    var lineOverflowed: bool

    ghost function Model(): Reader
      reads this
    {
      Reader(lineBuffer, Feed(events, sawText), lineOverflowed)
    }

    constructor (cfg: Config)
      ensures this.cfg == cfg && Model() == Fresh()
    {
      this.cfg, lineBuffer, events, sawText, lineOverflowed := cfg, "", [], false, false;
    }

    method FailClosedOversizeLine()
      requires !lineOverflowed
      modifies this
      ensures Model() == Overflow(old(Model()))
    {
      lineOverflowed := true;
      lineBuffer := "";
      events := events + [Malformed];
    }

    /** One line: text is emitted as it comes, and a result's response only if there has been none. */
    method FeedStreamLine(line: string)
      modifies this`events, this`sawText
      ensures Model() == old(Model()).(feed := FeedLine(cfg, old(Model()).feed, line))
    {
      hide Walk, KindOf, PayloadOf, Read;
      if cfg.blank(line) {
        return;
      }
      var envelope := cfg.decode(line);
      if envelope == None {
        events := events + [Malformed];
        return;
      }
      match Read(cfg, envelope.value) {
        case Step(texts) =>
          if |texts| > 0 {
            sawText := true;
            events := events + [Texts(texts)];
          }
        case Result(response, _, limited) =>
          if |response| > 0 && !sawText {
            events := events + [Response(response)];
          } else {
            assert events + [] == events;
          }
          events := events + [Completed(if limited then Length else Stop)];
        case Other =>
      }
    }

    method OnData(chunk: string, aborted: bool)
      modifies this
      ensures Model() == if aborted then OnAborted(cfg, old(Model()), chunk) else OnChunk(cfg, old(Model()), chunk)
    {
      hide Split, FeedLine, ByteLen;
      if lineOverflowed {
        return;
      }
      var parts := Split(lineBuffer + chunk, '\n');
      lineBuffer := Open(parts);
      ghost var start := Model();
      var lines := Closed(parts);
      for i := 0 to |lines|
        invariant !lineOverflowed && Model() == OnParts(cfg, start, lines[..i])
        invariant aborted ==> i == 0
      {
        assert lines[..i + 1][..i] == lines[..i];
        if ByteLen(lines[i]) > cfg.maxLine {
          FailClosedOversizeLine();
          OverflowStays(cfg, start, lines, i + 1);
          return;
        }
        if aborted {
          return;
        }
        FeedStreamLine(lines[i]);
      }
      assert lines[..|lines|] == lines;
      PartsRead(cfg, start, lines);
      if ByteLen(lineBuffer) > cfg.maxLine {
        FailClosedOversizeLine();
      }
    }

    method OnEnd()
      modifies this
      ensures Model() == OnClose(cfg, old(Model()))
    {
      hide FeedLine, ByteLen;
      if !lineOverflowed && !cfg.blank(lineBuffer) {
        if ByteLen(lineBuffer) <= cfg.maxLine {
          FeedStreamLine(lineBuffer);
        }
        lineBuffer := "";
      }
    }
  }

  lemma {:induction false} OverflowStays(cfg: Config, r: Reader, parts: seq<string>, i: nat)
    requires i <= |parts| && OnParts(cfg, r, parts[..i]).overflowed
    ensures OnParts(cfg, r, parts) == OnParts(cfg, r, parts[..i])
    decreases |parts|
  {
    hide FeedLine, Fits;
    if i < |parts| {
      assert parts[..|parts| - 1][..i] == parts[..i];
      OverflowStays(cfg, r, parts[..|parts| - 1], i);
    } else {
      assert parts[..i] == parts;
    }
  }
}
