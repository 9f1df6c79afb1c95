/** A diagnostic buffer that keeps the beginning and the end of a stream within a budget of UTF-8 bytes. */
module CappedBuffer {
  import Text
  import opened Utf8

  // ---- the two cuts ----

  /** The longest prefix that fits in `n` bytes. */
  function HeadFit(s: string, n: nat): string {
    if s == "" || Width(s[0]) > n then "" else [s[0]] + HeadFit(s[1..], n - Width(s[0]))
  }

  /** The longest suffix that fits in `n` bytes. */
  function TailFit(s: string, n: nat): string {
    if s == "" || Width(s[|s| - 1]) > n then ""
    else TailFit(s[..|s| - 1], n - Width(s[|s| - 1])) + [s[|s| - 1]]
  }

  lemma ByteLenOne(c: char)
    ensures ByteLen([c]) == Width(c)
  {
    assert [c][..0] == "";
  }

  /** It is a prefix, it fits, and one more code point would not. */
  lemma {:induction false} HeadFitIsLongest(s: string, n: nat)
    ensures var r := HeadFit(s, n);
            && |r| <= |s| && r == s[..|r|] && ByteLen(r) <= n
            && (forall k :: |r| < k <= |s| ==> ByteLen(s[..k]) > n)
  {
    hide ByteLen;
    if s == "" || Width(s[0]) > n {
      NoBytes();
      forall k | 0 < k <= |s| ensures ByteLen(s[..k]) > n {
        assert s[..k] == [s[0]] + s[1..k];
        ByteLenAppend([s[0]], s[1..k]);
        ByteLenOne(s[0]);
      }
    } else {
      var rest := HeadFit(s[1..], n - Width(s[0]));
      HeadFitIsLongest(s[1..], n - Width(s[0]));
      ByteLenAppend([s[0]], rest);
      ByteLenOne(s[0]);
      forall k | |rest| + 1 < k <= |s| ensures ByteLen(s[..k]) > n {
        assert s[..k] == [s[0]] + s[1..][..k - 1];
        ByteLenAppend([s[0]], s[1..][..k - 1]);
      }
    }
  }

  lemma NoBytes()
    ensures ByteLen("") == 0
  {
  }

  lemma Snoc(a: string, c: char)
    ensures ByteLen(a + [c]) == ByteLen(a) + Width(c)
  {
    ByteLenAppend(a, [c]);
    ByteLenOne(c);
  }

  /** It is a suffix, it fits, and one more code point would not. */
  lemma {:induction false} TailFitIsLongest(s: string, n: nat)
    ensures var r := TailFit(s, n);
            && |r| <= |s| && r == s[|s| - |r|..] && ByteLen(r) <= n
            && (forall k :: 0 <= k < |s| - |r| ==> ByteLen(s[k..]) > n)
    decreases |s|
  {
    hide ByteLen;
    NoBytes();
    if s != "" {
      var front, c := s[..|s| - 1], s[|s| - 1];
      if Width(c) <= n {
        TailFitIsLongest(front, n - Width(c));
        Snoc(TailFit(front, n - Width(c)), c);
      }
      var r := TailFit(s, n);
      forall k | 0 <= k < |s| - |r| ensures ByteLen(s[k..]) > n {
        assert s[k..] == front[k..] + [c];
        Snoc(front[k..], c);
      }
    }
  }

  lemma {:induction false} TailFitAgain(s: string, m: nat, n: nat)
    requires n <= m
    ensures TailFit(TailFit(s, m), n) == TailFit(s, n)
    decreases |s|
  {
    if s != "" && Width(s[|s| - 1]) <= m {
      var front, c := s[..|s| - 1], s[|s| - 1];
      var kept := TailFit(front, m - Width(c));
      assert (kept + [c])[..|kept|] == kept;
      if Width(c) <= n {
        TailFitAgain(front, m - Width(c), n - Width(c));
      }
    }
  }

  lemma TailFitSnoc(s: string, c: char, n: nat)
    ensures TailFit(s + [c], n) == if Width(c) <= n then TailFit(s, n - Width(c)) + [c] else ""
  {
    assert (s + [c])[..|s|] == s;
  }

  /** What was already cut off does not matter to a later cut. */
  lemma {:induction false} TailFitAppend(a: string, b: string, m: nat, n: nat)
    requires n <= m
    ensures TailFit(TailFit(a, m) + b, n) == TailFit(a + b, n)
    decreases |b|
  {
    hide *;
    var kept := TailFit(a, m);
    if b == "" {
      assert kept + b == kept && a + b == a;
      TailFitAgain(a, m, n);
    } else {
      var front, c := b[..|b| - 1], b[|b| - 1];
      if Width(c) <= n {
        TailFitAppend(a, front, m, n - Width(c));
      }
      Text.Associative(kept, front, [c]);
      Text.Associative(a, front, [c]);
      assert b == front + [c];
      TailFitSnoc(kept + front, c, n);
      TailFitSnoc(a + front, c, n);
    }
  }

  lemma {:induction false} TailFitWhole(s: string, n: nat)
    requires ByteLen(s) <= n
    ensures TailFit(s, n) == s
    decreases |s|
  {
    if s != "" {
      TailFitWhole(s[..|s| - 1], n - Width(s[|s| - 1]));
    }
  }

  // ---- the buffer ----

  /** `routed` is a tape: everything that was passed on to the tail. */
  datatype Buffer = Buffer(cap: nat, head: string, tail: string, overflowed: bool, routed: string)

  function HeadCap(cap: nat): nat {
    cap / 2
  }

  function TailCap(cap: nat): nat {
    cap - cap / 2
  }

  function Start(cap: nat): Buffer {
    Buffer(cap, "", "", false, "")
  }

  function Added(b: Buffer, chunk: string): string {
    if ByteLen(b.head) < HeadCap(b.cap) then HeadFit(chunk, HeadCap(b.cap) - ByteLen(b.head)) else ""
  }

  function Push(b: Buffer, chunk: string): Buffer {
    var added := Added(b, chunk);
    var rest := chunk[if |added| <= |chunk| then |added| else |chunk|..];
    if chunk == "" then b
    else if rest == "" then b.(head := b.head + added)
    else
      b.(head := b.head + added, tail := TailFit(b.tail + rest, TailCap(b.cap)),
         overflowed := b.overflowed || ByteLen(b.tail + rest) > TailCap(b.cap), routed := b.routed + rest)
  }

  function Value(b: Buffer): string {
    b.head + b.tail
  }

  function PushAll(cap: nat, chunks: seq<string>): Buffer {
    if chunks == [] then Start(cap) else Push(PushAll(cap, chunks[..|chunks| - 1]), chunks[|chunks| - 1])
  }

  function Stream(chunks: seq<string>): string {
    if chunks == [] then "" else Stream(chunks[..|chunks| - 1]) + chunks[|chunks| - 1]
  }

  ghost predicate Ok(b: Buffer) {
    && ByteLen(b.head) <= HeadCap(b.cap)
    && b.tail == TailFit(b.routed, TailCap(b.cap))
    && (b.overflowed <==> ByteLen(b.routed) > TailCap(b.cap))
  }

  lemma PushKeeps(b: Buffer, chunk: string)
    requires Ok(b)
    ensures Ok(Push(b, chunk)) && Push(b, chunk).cap == b.cap
  {
    hide ByteLen, TailFit, HeadFit;
    if ByteLen(b.head) < HeadCap(b.cap) {
      HeadFitIsLongest(chunk, HeadCap(b.cap) - ByteLen(b.head));
    } else {
      NoBytes();
    }
    var added := Added(b, chunk);
    ByteLenAppend(b.head, added);
    if |added| <= |chunk| {
      var rest := chunk[|added|..];
      TailFitAppend(b.routed, rest, TailCap(b.cap), TailCap(b.cap));
      ByteLenAppend(b.tail, rest);
      ByteLenAppend(b.routed, rest);
      TailFitIsLongest(b.routed, TailCap(b.cap));
      if ByteLen(b.routed) <= TailCap(b.cap) {
        TailFitWhole(b.routed, TailCap(b.cap));
      }
    }
  }

  lemma {:induction false} AllKeep(cap: nat, chunks: seq<string>)
    ensures Ok(PushAll(cap, chunks)) && PushAll(cap, chunks).cap == cap
    decreases |chunks|
  {
    hide Push;
    if chunks == [] {
      NoBytes();
      TailFitWhole("", TailCap(cap));
    } else {
      AllKeep(cap, chunks[..|chunks| - 1]);
      hide Ok;
      PushKeeps(PushAll(cap, chunks[..|chunks| - 1]), chunks[|chunks| - 1]);
    }
  }

  /** After any pushes the buffer holds at most `cap` bytes. */
  lemma NeverOverCap(cap: nat, chunks: seq<string>)
    ensures ByteLen(Value(PushAll(cap, chunks))) <= cap
  {
    hide PushAll, ByteLen, TailFit;
    AllKeep(cap, chunks);
    var b := PushAll(cap, chunks);
    TailFitIsLongest(b.routed, TailCap(cap));
    ByteLenAppend(b.head, b.tail);
  }

  /**
   * The tail is the longest suffix that fits of everything routed past the head, and overflow is reported exactly when
   * it is cut.
   */
  lemma TailIsTheLongestSuffix(cap: nat, chunks: seq<string>)
    ensures var b := PushAll(cap, chunks);
            && |b.tail| <= |b.routed| && b.tail == b.routed[|b.routed| - |b.tail|..] && ByteLen(b.tail) <= TailCap(cap)
            && (forall k :: 0 <= k < |b.routed| - |b.tail| ==> ByteLen(b.routed[k..]) > TailCap(cap))
            && (b.overflowed <==> b.tail != b.routed)
  {
    hide PushAll, ByteLen, TailFit;
    AllKeep(cap, chunks);
    var b := PushAll(cap, chunks);
    TailFitIsLongest(b.routed, TailCap(cap));
    if ByteLen(b.routed) <= TailCap(cap) {
      TailFitWhole(b.routed, TailCap(cap));
    }
  }

  /** Whatever is pushed goes to the head or past it, once. */
  lemma {:induction false} NothingGoesMissing(cap: nat, chunks: seq<string>)
    ensures var b := PushAll(cap, chunks); multiset(b.head) + multiset(b.routed) == multiset(Stream(chunks))
    decreases |chunks|
  {
    hide HeadFit, TailFit, ByteLen;
    if chunks != [] {
      var front, chunk := chunks[..|chunks| - 1], chunks[|chunks| - 1];
      NothingGoesMissing(cap, front);
      PushDivides(PushAll(cap, front), chunk);
      hide Push;
    }
  }

  lemma PushDivides(b: Buffer, chunk: string)
    ensures var t := Push(b, chunk);
            multiset(t.head) + multiset(t.routed) == multiset(b.head) + multiset(b.routed) + multiset(chunk)
  {
    hide HeadFit, TailFit, ByteLen;
    var added := Added(b, chunk);
    if ByteLen(b.head) < HeadCap(b.cap) {
      HeadFitIsLongest(chunk, HeadCap(b.cap) - ByteLen(b.head));
    }
    assert |added| <= |chunk| && added == chunk[..|added|];
    assert chunk == chunk[..|added|] + chunk[|added|..];
  }

  // ---- one-byte text ----

  predicate OneByte(s: string) {
    forall c :: c in s ==> Width(c) == 1
  }

  lemma {:induction false} OneByteLen(s: string)
    requires OneByte(s)
    ensures ByteLen(s) == |s|
    decreases |s|
  {
    if s != "" {
      OneByteLen(s[..|s| - 1]);
      assert s[|s| - 1] in s;
    }
  }

  lemma OneByteHead(s: string, n: nat)
    requires OneByte(s)
    ensures HeadFit(s, n) == s[..if |s| <= n then |s| else n]
  {
    HeadFitIsLongest(s, n);
    var k := if |s| <= n then |s| else n;
    OneByteLen(s[..k]);
    var r := HeadFit(s, n);
    OneByteLen(r);
    hide HeadFit, ByteLen;
  }

  lemma OneByteTail(s: string, n: nat)
    requires OneByte(s)
    ensures TailFit(s, n) == s[if |s| <= n then 0 else |s| - n..]
  {
    TailFitIsLongest(s, n);
    var k := if |s| <= n then 0 else |s| - n;
    OneByteLen(s[k..]);
    var r := TailFit(s, n);
    OneByteLen(r);
    hide TailFit, ByteLen;
  }

  /** The head is the beginning of the stream `s`, and the rest was routed in order. */
  ghost predicate Divided(b: Buffer, s: string) {
    b.head == s[..if |s| <= HeadCap(b.cap) then |s| else HeadCap(b.cap)]
        && b.routed == s[if |s| <= HeadCap(b.cap) then |s| else HeadCap(b.cap)..]
  }

  lemma OneBytePush(b: Buffer, s: string, chunk: string)
    requires OneByte(s) && OneByte(chunk) && Divided(b, s)
    ensures OneByte(s + chunk) && Divided(Push(b, chunk), s + chunk)
  {
    hide HeadFit, TailFit, ByteLen;
    assert OneByte(b.head);
    OneByteLen(b.head);
    if |b.head| < HeadCap(b.cap) {
      OneByteHead(chunk, HeadCap(b.cap) - |b.head|);
    }
    hide OneByte;
    var t := Push(b, chunk);
    if chunk == "" {
      assert s + chunk == s;
    } else if |s| >= HeadCap(b.cap) {
      assert t.head == b.head + "" && t.head == b.head && chunk[0..] == chunk;
      assert (s + chunk)[HeadCap(b.cap)..] == s[HeadCap(b.cap)..] + chunk;
    } else {
      var n := HeadCap(b.cap) - |s|;
      assert b.head == s && b.routed == "";
      if |chunk| <= n {
        assert chunk[..|chunk|] == chunk;
      } else {
        assert (s + chunk)[..HeadCap(b.cap)] == s + chunk[..n] && (s + chunk)[HeadCap(b.cap)..] == chunk[n..];
        assert "" + chunk[n..] == chunk[n..];
      }
    }
  }

  lemma {:induction false} OneByteSplit(cap: nat, chunks: seq<string>)
    requires forall c :: c in chunks ==> OneByte(c)
    ensures OneByte(Stream(chunks)) && PushAll(cap, chunks).cap == cap && Divided(PushAll(cap, chunks), Stream(chunks))
    decreases |chunks|
  {
    hide Push, OneByte, Divided;
    if chunks == [] {
      NothingDivided(cap);
    } else {
      var front, chunk := chunks[..|chunks| - 1], chunks[|chunks| - 1];
      assert forall c :: c in front ==> c in chunks;
      assert chunk in chunks;
      OneByteSplit(cap, front);
      OneBytePush(PushAll(cap, front), Stream(front), chunk);
      SameCap(PushAll(cap, front), chunk);
    }
  }

  lemma NothingDivided(cap: nat)
    ensures OneByte("") && Divided(Start(cap), "")
  {
  }

  lemma SameCap(b: Buffer, chunk: string)
    ensures Push(b, chunk).cap == b.cap
  {
    hide HeadFit, TailFit, ByteLen;
  }

  /**
   * For one-byte text the value is the whole stream, or its first half-cap bytes and its last
   * remaining-cap bytes; the latter exactly when overflow was reported, that is, when the stream is longer than the
   * cap.
   */
  lemma OneByteValue(cap: nat, chunks: seq<string>)
    requires forall c :: c in chunks ==> OneByte(c)
    ensures var b, s := PushAll(cap, chunks), Stream(chunks);
            && (b.overflowed <==> |s| > cap)
            && (!b.overflowed ==> Value(b) == s)
            && (b.overflowed ==> Value(b) == s[..HeadCap(cap)] + s[|s| - TailCap(cap)..])
            && (b.overflowed ==> Value(b) == s[..cap / 2] + s[|s| - (cap - cap / 2)..])
  {
    hide PushAll, Stream, TailFit, ByteLen;
    AllKeep(cap, chunks);
    OneByteSplit(cap, chunks);
    var b, s := PushAll(cap, chunks), Stream(chunks);
    RoutedIsOneByte(b, s);
    OneByteTail(b.routed, TailCap(cap));
    OneByteLen(b.routed);
    hide OneByte;
    var h := HeadCap(cap);
    if |s| > h {
      assert s[..h] + s[h..] == s;
    } else {
      assert s[..|s|] + "" == s;
    }
  }

  lemma RoutedIsOneByte(b: Buffer, s: string)
    requires OneByte(s) && Divided(b, s)
    ensures OneByte(b.routed)
  {
  }

  // ---- text of any width ----

  /** The chunk adds to the head although something before it was already routed past the head. */
  predicate Skips(b: Buffer, chunk: string) {
    b.routed != "" && Added(b, chunk) != ""
  }

  /** No chunk of the stream skips ahead of what was routed before it. */
  ghost predicate NoneSkips(cap: nat, chunks: seq<string>) {
    forall i | 0 <= i < |chunks| :: !Skips(PushAll(cap, chunks[..i]), chunks[i])
  }

  /** The stream `s` is the head and then what was routed, and the first thing routed did not fit the head. */
  ghost predicate Straight(b: Buffer, s: string) {
    && s == b.head + b.routed
    && (b.routed != "" ==> ByteLen(b.head) + Width(b.routed[0]) > HeadCap(b.cap))
  }

  ghost predicate Differ(a: string, b: string) {
    exists k :: 0 <= k < |a| && k < |b| && a[k] != b[k]
  }

  lemma DifferStays(a: string, b: string, x: string, y: string)
    requires Differ(a, b)
    ensures Differ(a + x, b + y)
  {
    var k :| 0 <= k < |a| && k < |b| && a[k] != b[k];
    assert (a + x)[k] != (b + y)[k];
  }

  /** What a push adds to the head begins the chunk, fits, and is as long as can be. */
  lemma AddedFits(b: Buffer, chunk: string)
    requires Ok(b)
    ensures var r := Added(b, chunk);
            && r <= chunk && ByteLen(b.head + r) <= HeadCap(b.cap)
            && (r != chunk ==> ByteLen(b.head + r) + Width(chunk[|r|]) > HeadCap(b.cap))
            && (r != "" ==> ByteLen(b.head) + Width(r[0]) <= HeadCap(b.cap))
  {
    hide ByteLen, TailFit;
    var r, n := Added(b, chunk), HeadCap(b.cap) - ByteLen(b.head);
    NoBytes();
    if n > 0 {
      HeadFitIsLongest(chunk, n);
    }
    ByteLenAppend(b.head, r);
    if r != chunk {
      assert chunk[..|r| + 1] == r + [chunk[|r|]];
      Snoc(r, chunk[|r|]);
    }
  }

  lemma PushExtends(b: Buffer, chunk: string)
    requires Ok(b)
    ensures var r, t := Added(b, chunk), Push(b, chunk);
            r <= chunk && t.head == b.head + r && t.routed == b.routed + chunk[|r|..] && t.cap == b.cap
  {
    AddedFits(b, chunk);
    hide Ok, ByteLen, TailFit, HeadFit, Added;
  }

  lemma Regroup(h: string, q: string, r: string, rest: string)
    requires q == "" || r == ""
    ensures (h + q) + (r + rest) == (h + r) + (q + rest)
  {
    assert (h + q) + (r + rest) == h + (q + r) + rest;
    assert (h + r) + (q + rest) == h + (r + q) + rest;
    assert q + r == r + q;
  }

  lemma StraightAppended(b: Buffer, t: Buffer, s: string, chunk: string, r: string)
    requires Straight(b, s) && t.cap == b.cap && r <= chunk && t.head == b.head + r
        && t.routed == b.routed + chunk[|r|..]
    requires if b.routed == "" then r != chunk ==> ByteLen(b.head + r) + Width(chunk[|r|]) > HeadCap(b.cap) else r == ""
    ensures Straight(t, s + chunk)
  {
    hide ByteLen, Width;
    var rest := chunk[|r|..];
    Regroup(b.head, b.routed, r, rest);
    assert chunk == r + rest;
    if b.routed != "" {
      assert b.head + "" == b.head;
      assert t.routed[0] == b.routed[0];
    } else if rest != "" {
      assert t.routed[0] == rest[0] == chunk[|r|];
    }
  }

  lemma StraightPush(b: Buffer, s: string, chunk: string)
    requires Ok(b) && Straight(b, s)
    ensures !Skips(b, chunk) ==> Straight(Push(b, chunk), s + chunk)
    ensures Skips(b, chunk) ==> Differ(Push(b, chunk).head, s + chunk)
  {
    AddedFits(b, chunk);
    PushExtends(b, chunk);
    hide Ok, ByteLen, TailFit, Added, Push, Width;
    var r, t := Added(b, chunk), Push(b, chunk);
    if Skips(b, chunk) {
      assert t.head[|b.head|] == r[0] && (s + chunk)[|b.head|] == b.routed[0];
    } else {
      hide Straight;
      StraightAppended(b, t, s, chunk, r);
    }
  }

  lemma {:induction false} SkippingDecides(cap: nat, chunks: seq<string>)
    ensures NoneSkips(cap, chunks) ==> Straight(PushAll(cap, chunks), Stream(chunks))
    ensures !NoneSkips(cap, chunks) ==> Differ(PushAll(cap, chunks).head, Stream(chunks))
    decreases |chunks|
  {
    hide Push, Skips, Straight, Differ;
    if chunks == [] {
      NothingIsStraight(cap);
    } else {
      var front, chunk := chunks[..|chunks| - 1], chunks[|chunks| - 1];
      var b := PushAll(cap, front);
      SkippingDecides(cap, front);
      SkipsInFront(cap, chunks);
      AllKeep(cap, front);
      if NoneSkips(cap, front) {
        StraightPush(b, Stream(front), chunk);
      } else {
        PushExtends(b, chunk);
        DifferStays(b.head, Stream(front), Added(b, chunk), chunk);
      }
    }
  }

  lemma NothingIsStraight(cap: nat)
    ensures Straight(Start(cap), "")
  {
  }

  lemma SkipsInFront(cap: nat, chunks: seq<string>)
    requires chunks != []
    ensures var front, chunk := chunks[..|chunks| - 1], chunks[|chunks| - 1];
            NoneSkips(cap, chunks) <==> NoneSkips(cap, front) && !Skips(PushAll(cap, front), chunk)
  {
    hide Skips, PushAll;
    var front := chunks[..|chunks| - 1];
    assert forall i | 0 <= i < |front| :: front[..i] == chunks[..i] && front[i] == chunks[i];
    if NoneSkips(cap, chunks) {
      assert !Skips(PushAll(cap, chunks[..|chunks| - 1]), chunks[|chunks| - 1]);
    }
  }

  lemma StraightIsLongest(b: Buffer, s: string)
    requires Ok(b) && Straight(b, s)
    ensures b.head == HeadFit(s, HeadCap(b.cap))
  {
    hide ByteLen, HeadFit, TailFit;
    var r := HeadFit(s, HeadCap(b.cap));
    HeadFitIsLongest(s, HeadCap(b.cap));
    assert s[..|b.head|] == b.head;
    if |b.head| < |r| {
      assert r == b.head + [b.routed[0]] + r[|b.head| + 1..];
      ByteLenAppend(b.head + [b.routed[0]], r[|b.head| + 1..]);
      Snoc(b.head, b.routed[0]);
    }
  }

  /**
   * The head is the beginning of the stream, and then the longest beginning that fits, exactly when no
   * chunk adds to the head after something was routed past it. Only a code point too wide for the room
   * left in the head lets that happen: the next chunk's narrower ones still fit.
   */
  lemma HeadIsAPrefixUnlessItSkips(cap: nat, chunks: seq<string>)
    ensures var b, s := PushAll(cap, chunks), Stream(chunks);
            && (b.head <= s <==> forall i | 0 <= i < |chunks| :: !Skips(PushAll(cap, chunks[..i]), chunks[i]))
            && (b.head <= s <==> b.head == HeadFit(s, HeadCap(cap)))
            && (b.head <= s ==> s == b.head + b.routed)
  {
    hide PushAll, Stream, ByteLen, HeadFit, TailFit, Skips;
    var b, s := PushAll(cap, chunks), Stream(chunks);
    SkippingDecides(cap, chunks);
    AllKeep(cap, chunks);
    HeadFitIsLongest(s, HeadCap(cap));
    if NoneSkips(cap, chunks) {
      StraightIsLongest(b, s);
    }
  }

  /** The smallest skip: the value is not the whole stream although nothing was lost. */
  lemma HeadCanSkipAhead(a: char, e: char, c: char)
    requires Width(a) == 1 && Width(e) == 2 && Width(c) == 1
    ensures Value(PushAll(5, [[a, e], [c]])) == [a, c, e] && Stream([[a, e], [c]]) == [a, e, c]
  {
    hide HeadFit, TailFit, ByteLen, Push;
    assert [[a, e], [c]][..1] == [[a, e]] && [[a, e]][..0] == [];
    WideGoesToTheTail(a, e);
    NarrowGoesToTheHead(a, e, c);
    assert PushAll(5, [[a, e]]) == Push(PushAll(5, []), [a, e]);
    assert PushAll(5, [[a, e], [c]]) == Push(PushAll(5, [[a, e]]), [c]);
    assert Stream([[a, e]]) == [a, e] by { assert Stream([]) + [a, e] == [a, e]; }
  }

  lemma WideGoesToTheTail(a: char, e: char)
    requires Width(a) == 1 && Width(e) == 2
    ensures Push(Start(5), [a, e]) == Buffer(5, [a], [e], false, [e])
  {
    hide HeadFit, TailFit, ByteLen;
    ByteLenOne(e);
    NoBytes();
    OnlyTheFirstFits(a, e);
    TailFitWhole([e], 3);
    assert [a, e][1..] == [e] && "" + [e] == [e] && "" + [a] == [a];
  }

  lemma OnlyTheFirstFits(a: char, e: char)
    requires Width(a) == 1 && Width(e) == 2
    ensures HeadFit([a, e], 2) == [a]
  {
    assert [a, e][1..] == [e];
  }

  lemma NarrowGoesToTheHead(a: char, e: char, c: char)
    requires Width(a) == 1 && Width(c) == 1
    ensures Push(Buffer(5, [a], [e], false, [e]), [c]) == Buffer(5, [a, c], [e], false, [e])
  {
    ByteLenOne(a);
    assert HeadFit([c], 1) == [c] by { assert [c][1..] == ""; }
    hide HeadFit, TailFit, ByteLen;
    assert [a] + [c] == [a, c] && [c][1..] == "";
  }

  // ---- the loops ----

  method TruncateUtf8Head(text: string, maxBytes: int) returns (kept: string)
    ensures kept == if maxBytes <= 0 then "" else HeadFit(text, maxBytes)
  {
    if maxBytes <= 0 {
      return "";
    }
    var used := 0;
    kept := "";
    for i := 0 to |text|
      invariant used <= maxBytes && HeadFit(text, maxBytes) == kept + HeadFit(text[i..], maxBytes - used)
    {
      var size := Width(text[i]);
      assert text[i..][0] == text[i] && text[i..][1..] == text[i + 1..];
      if used + size > maxBytes {
        assert kept + "" == kept;
        return;
      }
      used := used + size;
      kept := kept + [text[i]];
    }
    assert text[|text|..] == "" && kept + "" == kept;
  }

  /** From the back, collected in reverse and turned round at the end. */
  method TruncateUtf8Tail(text: string, maxBytes: int) returns (suffix: string)
    ensures suffix == if maxBytes <= 0 then "" else TailFit(text, maxBytes)
  {
    if maxBytes <= 0 {
      return "";
    }
    var used, kept: string := 0, "";
    var i := |text|;
    assert text[..|text|] == text && TailFit(text, maxBytes) + "" == TailFit(text, maxBytes);
    hide TailFit, Width;
    while i > 0
      invariant 0 <= i <= |text| && used <= maxBytes
      invariant TailFit(text, maxBytes) == TailFit(text[..i], maxBytes - used) + Reversed(kept)
    {
      var c := text[i - 1];
      if used + Width(c) > maxBytes {
        break;
      }
      TailTakes(text, i, maxBytes - used, kept);
      used := used + Width(c);
      kept := kept + [c];
      i := i - 1;
    }
    TailStops(text, i, maxBytes - used);
    suffix := Reversed(kept);
    assert "" + suffix == suffix;
  }

  lemma TailTakes(text: string, i: nat, n: nat, kept: string)
    requires 0 < i <= |text| && Width(text[i - 1]) <= n
    ensures TailFit(text[..i], n) + Reversed(kept) == TailFit(text[..i - 1], n - Width(text[i - 1]))
        + Reversed(kept + [text[i - 1]])
  {
    var c := text[i - 1];
    hide Width;
    assert text[..i][..i - 1] == text[..i - 1];
    assert TailFit(text[..i], n) == TailFit(text[..i - 1], n - Width(c)) + [c];
    hide TailFit;
    assert (kept + [c])[..|kept|] == kept;
  }

  lemma TailStops(text: string, i: nat, n: nat)
    requires i <= |text| && (i > 0 ==> Width(text[i - 1]) > n)
    ensures TailFit(text[..i], n) == ""
  {
  }

  function Reversed(s: string): string {
    if s == "" then "" else [s[|s| - 1]] + Reversed(s[..|s| - 1])
  }

  lemma NoRoom(s: string)
    ensures TailFit(s, 0) == ""
  {
  }

  class CappedTextBuffer {
    const cap: nat
    var head: string
    var tail: string
    var overflowed: bool
    ghost var routed: string

    ghost function Model(): Buffer
      reads this
    {
      Buffer(cap, head, tail, overflowed, routed)
    }

    constructor (cap: nat)
      ensures this.cap == cap && Model() == Start(cap)
    {
      this.cap, head, tail, overflowed, routed := cap, "", "", false, "";
    }

    method PushChunk(chunk: string)
      modifies this
      ensures Model() == Push(old(Model()), chunk)
    {
      hide HeadFit, TailFit, ByteLen;
      if |chunk| == 0 {
        return;
      }
      var headCap := cap / 2;
      var tailCap := cap - headCap;
      var rest := chunk;
      var headBytes := ByteLen(head);
      if headBytes < headCap {
        var added := TruncateUtf8Head(rest, headCap - headBytes);
        HeadFitIsLongest(chunk, headCap - headBytes);
        head := head + added;
        rest := rest[|added|..];
      } else {
        assert head + "" == head && chunk[0..] == chunk;
      }
      ghost var added := Added(old(Model()), chunk);
      assert head == old(head) + added && rest == chunk[|added|..];
      if |rest| > 0 {
        var combined := tail + rest;
        if ByteLen(combined) > tailCap {
          overflowed := true;
        }
        NoRoom(combined);
        tail := TruncateUtf8Tail(combined, tailCap);
        routed := routed + rest;
      }
    }
  }
}
