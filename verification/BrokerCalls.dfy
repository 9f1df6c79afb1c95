/**
 * Several calls of the broker in a row, and that a run of the broker goes on with them.
 */
module BrokerCalls {
  import opened BrokerSpec
  import opened BrokerRuns

  ghost function ApplyAll<C>(b: State<C>, calls: seq<Op<C>>): (t: State<C>)
    requires Valid(b)
    ensures Valid(t)
    decreases |calls|
  {
    if calls == [] then b
    else
      var before := ApplyAll(b, calls[..|calls| - 1]);
      ApplyKeeps(before, calls[|calls| - 1]);
      Apply(before, calls[|calls| - 1])
  }

  lemma OneCall<C>(b: State<C>, call: Op<C>)
    requires Valid(b)
    ensures ApplyAll(b, [call]) == Apply(b, call)
  {
    hide Apply;
    assert [call][..0] == [];
  }

  lemma TwoCalls<C>(b: State<C>, first: Op<C>, second: Op<C>)
    requires Valid(b)
    ensures Valid(Apply(b, first))
    ensures ApplyAll(b, [first] + [second]) == Apply(Apply(b, first), second)
  {
    hide Apply;
    OneCall(b, first);
    assert ([first] + [second])[..1] == [first];
  }

  lemma NoCall<C>(b: State<C>)
    requires Valid(b)
    ensures ApplyAll(b, []) == b
  {
  }

  lemma {:induction false} RunThenCalls<C>(maxPending: nat, ops: seq<Op<C>>, calls: seq<Op<C>>)
    ensures Run(maxPending, ops + calls) == ApplyAll(Run(maxPending, ops), calls)
    decreases |calls|
  {
    hide Apply, Valid;
    if calls == [] {
      assert ops + calls == ops;
    } else {
      var all := ops + calls;
      assert all[..|all| - 1] == ops + calls[..|calls| - 1];
      RunThenCalls(maxPending, ops, calls[..|calls| - 1]);
    }
  }
}
