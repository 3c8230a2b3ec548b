/** Sequence helpers shared by the trajectory, composition and kinematics
    models: ordering, flattening, filtering and first-minimum selection. */
module Seqs {
  import opened Results

  function Last<T>(s: seq<T>): T
    requires |s| > 0
  {
    s[|s| - 1]
  }

  /** Every element is strictly smaller than its successor. */
  predicate StrictlyIncreasing(t: seq<real>)
  {
    forall i: nat :: i + 1 < |t| ==> Rises(t, i)
  }

  /** Entry i + 1 is strictly larger than entry i. */
  predicate Rises(t: seq<real>, i: nat)
    requires i + 1 < |t|
  {
    t[i] < t[i + 1]
  }

  /** Strict increase between neighbours gives strict increase between any
      two positions. */
  lemma {:induction false} IncreasingPairwise(t: seq<real>, i: nat, j: nat)
    requires StrictlyIncreasing(t)
    requires i < j < |t|
    ensures t[i] < t[j]
    decreases j - i
  {
    assert Rises(t, i);
    if i + 1 < j {
      IncreasingPairwise(t, i + 1, j);
    }
  }

  /** Adds the same amount to every element (numpy's `array + scalar`). */
  function ShiftAll(ts: seq<real>, dt: real): (r: seq<real>)
    ensures |r| == |ts|
    ensures forall i :: 0 <= i < |ts| ==> r[i] - ts[i] == dt
  {
    seq(|ts|, i requires 0 <= i < |ts| => ts[i] + dt)
  }

  /** Concatenation of a list of sequences (numpy's `np.concatenate`). */
  function Flatten<T>(xss: seq<seq<T>>): seq<T>
  {
    if |xss| == 0 then [] else xss[0] + Flatten(xss[1..])
  }

  /** Total length of the first k sequences, i.e. where sequence k starts
      inside the concatenation. */
  function Offset<T>(xss: seq<seq<T>>, k: nat): nat
    requires k <= |xss|
  {
    if k == 0 then 0 else |xss[0]| + Offset(xss[1..], k - 1)
  }

  function TotalLength<T>(xss: seq<seq<T>>): nat
  {
    Offset(xss, |xss|)
  }

  /** Concatenation drops nothing: its length is the sum of the lengths. */
  lemma {:induction false} FlattenLength<T>(xss: seq<seq<T>>)
    ensures |Flatten(xss)| == TotalLength(xss)
  {
    if |xss| > 0 {
      FlattenLength(xss[1..]);
    }
  }

  /** Element j of sequence k sits at position Offset(k) + j of the
      concatenation, unchanged. */
  lemma {:induction false} FlattenIndex<T>(xss: seq<seq<T>>, k: nat, j: nat)
    requires k < |xss| && j < |xss[k]|
    ensures Offset(xss, k) + j < |Flatten(xss)|
    ensures Flatten(xss)[Offset(xss, k) + j] == xss[k][j]
  {
    FlattenLength(xss[1..]);
    if k > 0 {
      FlattenIndex(xss[1..], k - 1, j);
    }
  }

  /** Keeps, in order, the elements that satisfy p (the `continue`-based
      filtering loops of the source). */
  function Filter<T>(xs: seq<T>, p: T -> bool): (r: seq<T>)
    ensures |r| <= |xs|
    ensures forall i :: 0 <= i < |r| ==> p(r[i]) && r[i] in xs
    ensures forall i :: 0 <= i < |xs| && p(xs[i]) ==> xs[i] in r
  {
    if |xs| == 0 then []
    else if p(xs[0]) then [xs[0]] + Filter(xs[1..], p)
    else Filter(xs[1..], p)
  }

  /** Filtering distributes over concatenation, so the kept elements keep
      the relative order of the input. */
  lemma {:induction false} FilterConcat<T>(xs: seq<T>, ys: seq<T>, p: T -> bool)
    ensures Filter(xs + ys, p) == Filter(xs, p) + Filter(ys, p)
  {
    if |xs| > 0 {
      assert (xs + ys)[1..] == xs[1..] + ys;
      FilterConcat(xs[1..], ys, p);
    } else {
      assert xs + ys == ys;
    }
  }

  /** When every element satisfies p, filtering keeps the whole input. */
  lemma {:induction false} FilterAll<T>(xs: seq<T>, p: T -> bool)
    requires forall i :: 0 <= i < |xs| ==> p(xs[i])
    ensures Filter(xs, p) == xs
  {
    if |xs| > 0 {
      FilterAll(xs[1..], p);
    }
  }

  /** Appending one sequence to the list appends it to the concatenation. */
  lemma {:induction false} FlattenAppend<T>(xss: seq<seq<T>>, ys: seq<T>)
    ensures Flatten(xss + [ys]) == Flatten(xss) + ys
  {
    if |xss| == 0 {
      assert xss + [ys] == [ys];
    } else {
      assert (xss + [ys])[1..] == xss[1..] + [ys];
      FlattenAppend(xss[1..], ys);
    }
  }

  /** The first kept element is the first element of the input that
      satisfies p. */
  lemma {:induction false} FilterHead<T>(xs: seq<T>, p: T -> bool, i: nat)
    requires i < |xs| && p(xs[i])
    requires forall j :: 0 <= j < i ==> !p(xs[j])
    ensures |Filter(xs, p)| > 0 && Filter(xs, p)[0] == xs[i]
  {
    if i > 0 {
      FilterHead(xs[1..], p, i - 1);
    }
  }

  /** The scan `best := first; for each candidate: if cost < best cost then
      best := candidate`, started at position i with the best index so far.
      The comparison is strict, so the earliest minimum wins. */
  function ArgMinFrom<T>(xs: seq<T>, cost: T -> real, i: nat, best: nat): (r: nat)
    requires Leading(xs, cost, i, best)
    ensures best <= r < |xs|
    ensures forall j :: 0 <= j < |xs| ==> cost(xs[r]) <= cost(xs[j])
    ensures forall j :: 0 <= j < r ==> cost(xs[j]) > cost(xs[r])
    decreases |xs| - i
  {
    if i == |xs| then best
    else if cost(xs[i]) < cost(xs[best]) then ArgMinFrom(xs, cost, i + 1, i)
    else ArgMinFrom(xs, cost, i + 1, best)
  }

  /** After looking at the first i elements, best is the earliest of
      minimal cost among them. */
  predicate Leading<T>(xs: seq<T>, cost: T -> real, i: nat, best: nat)
  {
    && best < i <= |xs|
    && (forall j :: 0 <= j < i ==> cost(xs[best]) <= cost(xs[j]))
    && (forall j :: 0 <= j < best ==> cost(xs[j]) > cost(xs[best]))
  }

  /** One step of the scan keeps the earliest minimum and the final
      answer. */
  lemma ArgMinStep<T>(xs: seq<T>, cost: T -> real, i: nat, best: nat)
    requires Leading(xs, cost, i, best) && i < |xs|
    ensures cost(xs[i]) < cost(xs[best]) ==>
      Leading(xs, cost, i + 1, i) && ArgMinFrom(xs, cost, i + 1, i) == ArgMinFrom(xs, cost, i, best)
    ensures !(cost(xs[i]) < cost(xs[best])) ==>
      Leading(xs, cost, i + 1, best) && ArgMinFrom(xs, cost, i + 1, best) == ArgMinFrom(xs, cost, i, best)
  {
  }

  /** The scan starts with the first element as the best so far. */
  lemma ArgMinStart<T>(xs: seq<T>, cost: T -> real)
    requires |xs| > 0
    ensures Leading(xs, cost, 1, 0)
  {
  }

  /** Index of the first element of minimal cost. */
  function ArgMinFirst<T>(xs: seq<T>, cost: T -> real): (r: nat)
    requires |xs| > 0
    ensures r < |xs|
    ensures forall j :: 0 <= j < |xs| ==> cost(xs[r]) <= cost(xs[j])
    ensures forall j :: 0 <= j < r ==> cost(xs[j]) > cost(xs[r])
  {
    ArgMinFrom(xs, cost, 1, 0)
  }

  /** Two lists of sequences with pairwise equal lengths have the same
      offsets, so their concatenations line up element for element. */
  lemma {:induction false} OffsetSameShape<A, B>(xss: seq<seq<A>>, yss: seq<seq<B>>, k: nat)
    requires |xss| == |yss| && k <= |xss|
    requires forall i :: 0 <= i < |xss| ==> |xss[i]| == |yss[i]|
    ensures Offset(xss, k) == Offset(yss, k)
  {
    if k > 0 {
      OffsetSameShape(xss[1..], yss[1..], k - 1);
    }
  }

  /** If every sequence of one list is at most as long as its partner in
      another, and one is strictly shorter, the first concatenation is
      strictly shorter. */
  lemma {:induction false} TotalLengthLess<A, B>(xss: seq<seq<A>>, yss: seq<seq<B>>, w: nat)
    requires |xss| == |yss| && w < |xss|
    requires forall i :: 0 <= i < |xss| ==> |xss[i]| <= |yss[i]|
    requires |xss[w]| < |yss[w]|
    ensures TotalLength(xss) < TotalLength(yss)
  {
    if w == 0 {
      TotalLengthLe(xss[1..], yss[1..]);
    } else {
      TotalLengthLess(xss[1..], yss[1..], w - 1);
    }
  }

  lemma {:induction false} TotalLengthLe<A, B>(xss: seq<seq<A>>, yss: seq<seq<B>>)
    requires |xss| == |yss|
    requires forall i :: 0 <= i < |xss| ==> |xss[i]| <= |yss[i]|
    ensures TotalLength(xss) <= TotalLength(yss)
  {
    if |xss| > 0 {
      TotalLengthLe(xss[1..], yss[1..]);
    }
  }

  /** Offsets grow by the length of the sequence just passed. */
  lemma {:induction false} OffsetStep<T>(xss: seq<seq<T>>, k: nat)
    requires k < |xss|
    ensures Offset(xss, k + 1) == Offset(xss, k) + |xss[k]|
  {
    if k > 0 {
      OffsetStep(xss[1..], k - 1);
    }
  }

  /** Past the prefix, a concatenation is its second part. */
  lemma AppendIndex<T>(a: seq<T>, b: seq<T>, k: nat)
    requires k < |b|
    ensures (a + b)[|a| + k] == b[k]
  {
  }

  lemma ConsCons<T>(x: T, y: T, rest: seq<T>)
    ensures [x] + ([y] + rest) == [x, y] + rest
  {
  }

  /** The entry of an optional value as a sequence of length 0 or 1. */
  function Present<T>(g: Option<T>): (r: seq<T>)
    ensures |r| == if g.Some? then 1 else 0
  {
    if g.Some? then [g.value] else []
  }

  /** Number of present entries among the first i. */
  function PresentBefore<T>(gs: seq<Option<T>>, i: nat): nat
    requires i <= |gs|
  {
    if i == 0 then 0 else |Present(gs[0])| + PresentBefore(gs[1..], i - 1)
  }

  /** Counting one more entry adds it when present. */
  lemma {:induction false} PresentBeforeStep<T>(gs: seq<Option<T>>, i: nat)
    requires i < |gs|
    ensures PresentBefore(gs, i + 1) == PresentBefore(gs, i) + |Present(gs[i])|
  {
    if i > 0 {
      PresentBeforeStep(gs[1..], i - 1);
    }
  }

  /** The positions 0 .. n - 1 in order. */
  function Indices(n: nat): (r: seq<nat>)
    ensures |r| == n && forall i :: 0 <= i < n ==> r[i] == i
  {
    seq(n, i requires 0 <= i < n => i)
  }

  /** xs with the present entries of gs placed between neighbours: xs[0],
      then gs[0] if present, then xs[1], and so on up to the last of xs. */
  function Interleave<T>(xs: seq<T>, gs: seq<Option<T>>): (r: seq<T>)
    requires |xs| >= 1 && |gs| == |xs| - 1
    ensures |r| == |xs| + PresentBefore(gs, |gs|)
    ensures r[0] == xs[0] && Last(r) == Last(xs)
    decreases |xs|
  {
    if |xs| == 1 then [xs[0]]
    else
      var tail := Interleave(xs[1..], gs[1..]);
      AppendIndex([xs[0]] + Present(gs[0]), tail, |tail| - 1);
      [xs[0]] + Present(gs[0]) + tail
  }

  /** Nothing is dropped or reordered: element i of xs sits at
      i + (present entries before it), followed by gs[i] when present and
      by xs[i + 1] otherwise. */
  lemma {:induction false} InterleaveLayout<T>(xs: seq<T>, gs: seq<Option<T>>, i: nat)
    requires |xs| >= 1 && |gs| == |xs| - 1 && i < |xs|
    ensures var r := Interleave(xs, gs); var p := i + PresentBefore(gs, i);
      && p < |r| && r[p] == xs[i]
      && (i < |gs| && gs[i].Some? ==> p + 1 < |r| && r[p + 1] == gs[i].value)
      && (i < |gs| && gs[i].None? ==> p + 1 < |r| && r[p + 1] == xs[i + 1])
    decreases |xs|
  {
    var p := i + PresentBefore(gs, i);
    if |xs| == 1 {
      assert p == 0;
    } else {
      if i == 0 {
        InterleaveHead(xs, gs);
        assert p == 0;
      } else {
        InterleaveLayout(xs[1..], gs[1..], i - 1);
        InterleaveLayoutShift(xs, gs, i);
      }
    }
  }

  /** The inductive step of InterleaveLayout: a position q in the tail's
      interleaving moves by the head and its gap. */
  lemma InterleaveLayoutShift<T>(xs: seq<T>, gs: seq<Option<T>>, i: nat)
    requires |xs| >= 2 && |gs| == |xs| - 1 && 1 <= i < |xs|
    requires var tail := Interleave(xs[1..], gs[1..]); var q := (i - 1) + PresentBefore(gs[1..], i - 1);
      && q < |tail| && tail[q] == xs[1..][i - 1]
      && (i - 1 < |gs[1..]| && gs[1..][i - 1].Some? ==> q + 1 < |tail| && tail[q + 1] == gs[1..][i - 1].value)
      && (i - 1 < |gs[1..]| && gs[1..][i - 1].None? ==> q + 1 < |tail| && tail[q + 1] == xs[1..][i])
    ensures var r := Interleave(xs, gs); var p := i + PresentBefore(gs, i);
      && p < |r| && r[p] == xs[i]
      && (i < |gs| && gs[i].Some? ==> p + 1 < |r| && r[p + 1] == gs[i].value)
      && (i < |gs| && gs[i].None? ==> p + 1 < |r| && r[p + 1] == xs[i + 1])
  {
    var q := (i - 1) + PresentBefore(gs[1..], i - 1);
    assert i + PresentBefore(gs, i) == 1 + |Present(gs[0])| + q;
    InterleaveShift(xs, gs, q);
    if i < |gs| {
      InterleaveShift(xs, gs, q + 1);
    }
  }

  /** Past its first element and first gap, an interleaving continues with
      the interleaving of the rest. */
  lemma InterleaveShift<T>(xs: seq<T>, gs: seq<Option<T>>, k: nat)
    requires |xs| >= 2 && |gs| == |xs| - 1 && k < |Interleave(xs[1..], gs[1..])|
    ensures 1 + |Present(gs[0])| + k < |Interleave(xs, gs)|
    ensures Interleave(xs, gs)[1 + |Present(gs[0])| + k] == Interleave(xs[1..], gs[1..])[k]
  {
    var pre := [xs[0]] + Present(gs[0]);
    var tail := Interleave(xs[1..], gs[1..]);
    assert Interleave(xs, gs) == pre + tail;
    AppendIndex(pre, tail, k);
  }

  /** The first gap of an interleaving: xs[0] is followed by gs[0] when
      present and by xs[1] otherwise. */
  lemma InterleaveHead<T>(xs: seq<T>, gs: seq<Option<T>>)
    requires |xs| >= 2 && |gs| == |xs| - 1
    ensures |Interleave(xs, gs)| >= 2
    ensures gs[0].Some? ==> Interleave(xs, gs)[1] == gs[0].value
    ensures gs[0].None? ==> Interleave(xs, gs)[1] == xs[1]
  {
    var pre := [xs[0]] + Present(gs[0]);
    var tail := Interleave(xs[1..], gs[1..]);
    assert Interleave(xs, gs) == pre + tail;
    AppendIndex(pre, tail, 0);
    assert tail[0] == xs[1..][0];
  }

  /** Every neighbour pair satisfies join. */
  predicate Chain<T>(r: seq<T>, join: (T, T) -> bool)
  {
    forall i: nat :: i + 1 < |r| ==> Linked(r, join, i)
  }

  /** Entries i and i + 1 satisfy join. */
  predicate Linked<T>(r: seq<T>, join: (T, T) -> bool, i: nat)
    requires i + 1 < |r|
  {
    join(r[i], r[i + 1])
  }

  /** Each gap of xs is bridged: by its present entry, joined to both
      neighbours, or directly when the entry is absent. */
  predicate Bridged<T>(xs: seq<T>, gs: seq<Option<T>>, join: (T, T) -> bool)
    requires |gs| == |xs| - 1
  {
    forall i :: 0 <= i < |gs| ==> BridgedAt(xs, gs, join, i)
  }

  predicate BridgedAt<T>(xs: seq<T>, gs: seq<Option<T>>, join: (T, T) -> bool, i: nat)
    requires i < |gs| == |xs| - 1
  {
    if gs[i].Some? then join(xs[i], gs[i].value) && join(gs[i].value, xs[i + 1]) else join(xs[i], xs[i + 1])
  }

  /** Bridging every gap makes the interleaving a chain. */
  lemma {:induction false} InterleaveChain<T>(xs: seq<T>, gs: seq<Option<T>>, join: (T, T) -> bool)
    requires |xs| >= 1 && |gs| == |xs| - 1 && Bridged(xs, gs, join)
    ensures Chain(Interleave(xs, gs), join)
    decreases |xs|
  {
    if |xs| > 1 {
      var pre := [xs[0]] + Present(gs[0]);
      var tail := Interleave(xs[1..], gs[1..]);
      assert Bridged(xs[1..], gs[1..], join) by {
        forall i | 0 <= i < |gs[1..]|
          ensures BridgedAt(xs[1..], gs[1..], join, i)
        {
          assert BridgedAt(xs, gs, join, i + 1);
          assert gs[1..][i] == gs[i + 1] && xs[1..][i] == xs[i + 1] && xs[1..][i + 1] == xs[i + 2];
        }
      }
      InterleaveChain(xs[1..], gs[1..], join);
      var r := pre + tail;
      assert Interleave(xs, gs) == r;
      forall i: nat | i + 1 < |r|
        ensures Linked(r, join, i)
      {
        assert BridgedAt(xs, gs, join, 0);
        if i + 1 < |pre| {
          assert r[i] == xs[0] && r[i + 1] == gs[0].value;
        } else if i + 1 == |pre| {
          AppendIndex(pre, tail, 0);
        } else {
          AppendIndex(pre, tail, i - |pre|);
          AppendIndex(pre, tail, i + 1 - |pre|);
          assert Linked(tail, join, i - |pre|);
        }
      }
    }
  }
}
