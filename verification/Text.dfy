/** JavaScript's `String.prototype.split` with a one-element separator, on any element type. */
module Text {

  /** The index of the first `sep`, or the length when there is none. */
  function IndexOf<T(==)>(s: seq<T>, sep: T): (i: nat)
    ensures i <= |s|
    ensures sep !in s[..i]
    ensures i < |s| ==> s[i] == sep
  {
    if s == [] || s[0] == sep then 0
    else
      var i := IndexOf(s[1..], sep);
      assert s[..i + 1] == [s[0]] + s[1..][..i];
      i + 1
  }

  /** The pieces between separators: always one more piece than there are separators. */
  function Split<T(==)>(s: seq<T>, sep: T): (parts: seq<seq<T>>)
    ensures |parts| > 0
    decreases |s|
  {
    var i := IndexOf(s, sep);
    if i == |s| then [s] else [s[..i]] + Split(s[i + 1..], sep)
  }

  /** What `split` undoes. */
  function Join<T>(parts: seq<seq<T>>, sep: T): seq<T>
    requires |parts| > 0
  {
    if |parts| == 1 then parts[0] else parts[0] + [sep] + Join(parts[1..], sep)
  }

  lemma {:induction false} JoinSplit<T>(s: seq<T>, sep: T)
    ensures Join(Split(s, sep), sep) == s
    ensures forall k :: 0 <= k < |Split(s, sep)| ==> sep !in Split(s, sep)[k]
    decreases |s|
  {
    var i := IndexOf(s, sep);
    if i < |s| {
      JoinSplit(s[i + 1..], sep);
      assert s == s[..i] + [sep] + s[i + 1..];
      assert Split(s, sep)[1..] == Split(s[i + 1..], sep);
    } else {
      assert s[..i] == s;
    }
  }

  /** The first separator of `a + [sep] + b` is the one shown when `a` holds none. */
  lemma {:induction false} IndexOfFirst<T>(a: seq<T>, sep: T, b: seq<T>)
    requires sep !in a
    ensures IndexOf(a + [sep] + b, sep) == |a|
  {
    if a != [] {
      IndexOfFirst(a[1..], sep, b);
      assert (a + [sep] + b)[1..] == a[1..] + [sep] + b;
    }
  }

  lemma SplitHead<T>(a: seq<T>, sep: T, b: seq<T>)
    requires sep !in a
    ensures Split(a + [sep] + b, sep) == [a] + Split(b, sep)
  {
    IndexOfFirst(a, sep, b);
    var s := a + [sep] + b;
    assert s[..|a|] == a;
    assert s[|a| + 1..] == b;
  }

  lemma {:induction false} IndexOfNone<T>(a: seq<T>, sep: T)
    requires sep !in a
    ensures IndexOf(a, sep) == |a|
  {
    if a != [] {
      IndexOfNone(a[1..], sep);
    }
  }

  /** Two texts that agree agree on the part before and after their first separator. */
  lemma CutAtFirst<T>(a: seq<T>, b: seq<T>, a': seq<T>, b': seq<T>, sep: T)
    requires sep !in a && sep !in a'
    requires a + [sep] + b == a' + [sep] + b'
    ensures a == a' && b == b'
  {
    IndexOfFirst(a, sep, b);
    IndexOfFirst(a', sep, b');
    var s := a + [sep] + b;
    assert s[..|a|] == a && s[|a| + 1..] == b;
    var s' := a' + [sep] + b';
    assert s'[..|a'|] == a' && s'[|a'| + 1..] == b';
  }

  /** All pieces but the last, which a later chunk may still extend. */
  function Closed<T>(parts: seq<seq<T>>): seq<seq<T>>
    requires |parts| > 0
  {
    parts[..|parts| - 1]
  }

  function Open<T>(parts: seq<seq<T>>): seq<T>
    requires |parts| > 0
  {
    parts[|parts| - 1]
  }

  lemma ClosedOpenCons<T>(a: seq<T>, parts: seq<seq<T>>)
    requires |parts| > 0
    ensures Closed([a] + parts) == [a] + Closed(parts)
    ensures Open([a] + parts) == Open(parts)
  {
  }

  lemma CutOut<T>(x: seq<T>, i: nat, y: seq<T>)
    requires i < |x|
    ensures x + y == x[..i] + [x[i]] + (x[i + 1..] + y)
  {
  }

  lemma Associative<T>(a: seq<T>, b: seq<T>, c: seq<T>)
    ensures (a + b) + c == a + (b + c)
  {
  }

  /** Reading `x` then `y` splits like reading `x + y`: the last piece of `x` is the part still open. */
  lemma {:induction false} SplitAppend<T>(x: seq<T>, y: seq<T>, sep: T)
    ensures Split(x + y, sep) == Closed(Split(x, sep)) + Split(Open(Split(x, sep)) + y, sep)
    decreases |x|
  {
    var i := IndexOf(x, sep);
    if i == |x| {
      assert Closed([x]) == [];
    } else {
      var pr := Split(x[i + 1..], sep);
      assert Split(x, sep) == [x[..i]] + pr;
      SplitAppend(x[i + 1..], y, sep);
      hide Split;
      CutOut(x, i, y);
      SplitHead(x[..i], sep, x[i + 1..] + y);
      ClosedOpenCons(x[..i], pr);
      Associative([x[..i]], Closed(pr), Split(Open(pr) + y, sep));
    }
  }
}
