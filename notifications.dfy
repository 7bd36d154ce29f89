/**
 * The broker's notification queue (`queue.Queue` used with non-blocking
 * `get`) as a sequence, oldest entry first, and a replay of puts and gets
 * against it.
 */
module Notifications {
  import opened Wrappers

  /** A non-blocking get: the oldest entry and the rest, or None on an empty queue. */
  function TryGet<T>(q: seq<T>): (r: (Option<T>, seq<T>))
    ensures r.0.None? <==> q == []
    ensures r.0.None? ==> r.1 == []
    ensures r.0.Some? ==> [r.0.value] + r.1 == q
  {
    if q == [] then (None, []) else (Some(q[0]), q[1..])
  }

  /** One queue operation: a put, or a non-blocking get. */
  datatype Op<T> = Put(item: T) | Get

  /** Runs `ops` from queue `q`; yields the final queue and what each get returned, in order. */
  function Run<T>(q: seq<T>, ops: seq<Op<T>>): (seq<T>, seq<Option<T>>)
    decreases |ops|
  {
    if ops == [] then (q, [])
    else
      match ops[0]
      case Put(x) => Run(q + [x], ops[1..])
      case Get =>
        var got := TryGet(q);
        var rest := Run(got.1, ops[1..]);
        (rest.0, [got.0] + rest.1)
  }

  function Puts<T>(xs: seq<T>): (ops: seq<Op<T>>)
    ensures |ops| == |xs|
  {
    if xs == [] then [] else [Put(xs[0])] + Puts(xs[1..])
  }

  function Gets<T>(n: nat): (ops: seq<Op<T>>)
    ensures |ops| == n
  {
    if n == 0 then [] else [Get] + Gets(n - 1)
  }

  function Somes<T>(xs: seq<T>): (r: seq<Option<T>>)
    ensures |r| == |xs|
  {
    if xs == [] then [] else [Some(xs[0])] + Somes(xs[1..])
  }

  function Nones<T>(n: nat): (r: seq<Option<T>>)
    ensures |r| == n
  {
    if n == 0 then [] else [None] + Nones(n - 1)
  }

  /** Running two batches of operations is running the second from where the first left the queue. */
  lemma {:induction false} RunAppend<T>(q: seq<T>, a: seq<Op<T>>, b: seq<Op<T>>)
    ensures Run(q, a + b) == (Run(Run(q, a).0, b).0, Run(q, a).1 + Run(Run(q, a).0, b).1)
    decreases |a|
  {
    if a == [] {
      assert a + b == b;
      assert Run(q, a) == (q, []);
      assert Run(q, a).1 + Run(q, b).1 == Run(q, b).1;
    } else {
      assert (a + b)[0] == a[0];
      assert (a + b)[1..] == a[1..] + b;
      match a[0]
      case Put(x) =>
        RunAppend(q + [x], a[1..], b);
      case Get =>
        var got := TryGet(q);
        RunAppend(got.1, a[1..], b);
        var mid := Run(got.1, a[1..]);
        assert [got.0] + (mid.1 + Run(mid.0, b).1) == ([got.0] + mid.1) + Run(mid.0, b).1;
    }
  }

  /** Puts only append, in order, and return nothing. */
  lemma {:induction false} RunPuts<T>(q: seq<T>, xs: seq<T>)
    ensures Run(q, Puts(xs)) == (q + xs, [])
    decreases |xs|
  {
    var ops := Puts(xs);
    if xs == [] {
      assert ops == [] && q + xs == q;
    } else {
      assert ops[0] == Put(xs[0]) && ops[1..] == Puts(xs[1..]);
      RunPuts(q + [xs[0]], xs[1..]);
      assert q + [xs[0]] + xs[1..] == q + xs;
      assert Run(q, ops) == Run(q + [xs[0]], ops[1..]);
    }
  }

  /** Enough gets drain the queue oldest first, then keep returning None. */
  lemma {:induction false} RunGets<T>(q: seq<T>, n: nat)
    requires n >= |q|
    ensures Run(q, Gets(n)) == ([], Somes(q) + Nones(n - |q|))
  {
    var ops := Gets<T>(n);
    if n == 0 {
      assert ops == [] && q == [] && Somes(q) + Nones(0) == [];
    } else {
      assert ops[0] == Get && ops[1..] == Gets(n - 1);
      var got := TryGet(q);
      RunGets(got.1, n - 1);
      var rest := Run(got.1, Gets(n - 1));
      assert Run(q, ops) == (rest.0, [got.0] + rest.1);
      if q == [] {
        assert got == (None, []);
        assert Somes(q) == [];
        assert rest.1 == Nones(n - 1);
        assert Nones<T>(n) == [None] + Nones(n - 1);
        assert Run(q, ops) == ([], [None] + Nones(n - 1));
        assert Somes(q) + Nones(n - |q|) == Nones(n);
      } else {
        assert Somes(q) == [Some(q[0])] + Somes(q[1..]);
        assert [Some(q[0])] + (Somes(q[1..]) + Nones(n - |q|)) == Somes(q) + Nones(n - |q|);
      }
    }
  }

  /**
   * FIFO delivery: after the entries `xs` are put behind the queue `q`, gets
   * return every entry exactly once, in put order, and None once it is empty.
   */
  lemma DeliveredInPutOrder<T>(q: seq<T>, xs: seq<T>, n: nat)
    requires n >= |q| + |xs|
    ensures Run(q, Puts(xs) + Gets(n)) == ([], Somes(q + xs) + Nones(n - |q| - |xs|))
  {
    RunAppend(q, Puts(xs), Gets(n));
    RunPuts(q, xs);
    RunGets(q + xs, n);
    var drained := Run(q + xs, Gets(n));
    assert Run(q, Puts(xs) + Gets(n)) == (drained.0, [] + drained.1);
    assert [] + drained.1 == drained.1;
  }
}
