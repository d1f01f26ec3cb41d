/**
 * Handler composition: `callAll(f1, ..., fn)` builds one handler that calls every
 * present `fi`, in argument order, and skips the absent ones.  Handlers are opaque
 * values here; what a composed handler does is the sequence of handlers it invokes.
 */
module Handlers {
  import opened Wrappers

  /** The handler `o` holds, as a sequence of zero or one invocations. */
  function Present<H>(o: Option<H>): (r: seq<H>)
  {
    match o
    case None => []
    case Some(h) => [h]
  }

  /** The handlers the composed handler `callAll(fns...)` invokes, in the order it invokes them. */
  function CallAll<H>(fns: seq<Option<H>>): (r: seq<H>)
    ensures |r| <= |fns|
    decreases |fns|
  {
    if fns == [] then [] else Present(fns[0]) + CallAll(fns[1..])
  }

  /** Exactly the present handlers are invoked: each invoked one was given, each given one is invoked. */
  lemma {:induction false} CallAllInvokesPresent<H>(fns: seq<Option<H>>)
    ensures forall k | 0 <= k < |CallAll(fns)| :: Some(CallAll(fns)[k]) in fns
    ensures forall i | 0 <= i < |fns| && fns[i].Some? :: fns[i].value in CallAll(fns)
    decreases |fns|
  {
    if fns != [] {
      CallAllInvokesPresent(fns[1..]);
      var r := CallAll(fns);
      assert r == Present(fns[0]) + CallAll(fns[1..]);
      forall k | 0 <= k < |r|
        ensures Some(r[k]) in fns
      {
        if k < |Present(fns[0])| {
          assert r[k] == fns[0].value;
        } else {
          assert r[k] == CallAll(fns[1..])[k - |Present(fns[0])|];
          assert Some(r[k]) in fns[1..];
        }
      }
      forall i | 0 <= i < |fns| && fns[i].Some?
        ensures fns[i].value in r
      {
        if i > 0 {
          assert fns[i] == fns[1..][i - 1];
        }
      }
    }
  }

  /** Composing two lists of handlers runs the first list's handlers, then the second's. */
  lemma {:induction false} CallAllAppend<H>(a: seq<Option<H>>, b: seq<Option<H>>)
    ensures CallAll(a + b) == CallAll(a) + CallAll(b)
    decreases |a|
  {
    if a == [] {
      assert a + b == b;
    } else {
      assert (a + b)[0] == a[0];
      assert (a + b)[1..] == a[1..] + b;
      CallAllAppend(a[1..], b);
    }
  }

  /** Extending the list of handlers by one more extends what runs by that handler, if present. */
  lemma CallAllExtend<H>(fns: seq<Option<H>>, i: nat)
    requires i < |fns|
    ensures CallAll(fns[..i + 1]) == CallAll(fns[..i]) + Present(fns[i])
  {
    assert fns[..i + 1] == fns[..i] + [fns[i]];
    CallAllAppend(fns[..i], [fns[i]]);
    assert [fns[i]][1..] == [];
  }

  /**
   * A present handler is invoked exactly once, after every handler given before it
   * and before every handler given after it.
   */
  lemma CallAllInvokesInOrder<H>(before: seq<Option<H>>, h: H, after: seq<Option<H>>)
    ensures CallAll(before + [Some(h)] + after) == CallAll(before) + [h] + CallAll(after)
  {
    CallAllAppend(before + [Some(h)], after);
    CallAllAppend(before, [Some(h)]);
    assert CallAll([Some(h)]) == [h] by {
      assert [Some(h)][1..] == [];
    }
  }

  /** An absent handler is skipped: the handlers around it run as if it were not there. */
  lemma CallAllSkipsAbsent<H>(before: seq<Option<H>>, after: seq<Option<H>>)
    ensures CallAll(before + [None] + after) == CallAll(before) + CallAll(after)
  {
    var absent: seq<Option<H>> := [None];
    assert CallAll(absent) == Present(absent[0]) + CallAll(absent[1..]);
    assert absent[1..] == [];
    CallAllAppend(before + absent, after);
    CallAllAppend(before, absent);
  }

  /** `callAll(caller, internal)`: the caller's handler, when given, runs before the internal one. */
  lemma CallerBeforeInternal<H>(caller: Option<H>, internal: H)
    ensures CallAll([caller, Some(internal)]) == Present(caller) + [internal]
  {
    assert [caller, Some(internal)][1..] == [Some(internal)];
    assert [Some(internal)][1..] == [];
  }
}
