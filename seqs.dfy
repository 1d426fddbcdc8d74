/** Sequence helpers shared by the fan-out code: the source starts one
    asynchronous task per platform or per bucket with `Promise.all` and each
    task pushes its results into one shared array when it completes, so the
    order of that array is the completion order. A completion order is an
    oracle `order`, a permutation of the task indices; `Gather` lays the
    per-task blocks out in that order and `Flatten` in index order. */
module Seqs {
  import opened Wrappers

  /** The task indices 0, 1, ..., n - 1. */
  function Indices(n: nat): (r: seq<nat>)
    ensures |r| == n && InRange(r, n)
  {
    if n == 0 then [] else Indices(n - 1) + [n - 1]
  }

  /** Position `i` of the task indices holds task `i`. */
  lemma {:induction false} IndicesAt(n: nat, i: nat)
    requires i < n
    ensures Indices(n)[i] == i
  {
    if i < n - 1 {
      IndicesAt(n - 1, i);
    }
  }

  /** `order` lists every one of `n` tasks exactly once. */
  ghost predicate IsSchedule(order: seq<nat>, n: nat) {
    multiset(order) == multiset(Indices(n))
  }

  predicate InRange(order: seq<nat>, n: nat) {
    forall k :: 0 <= k < |order| ==> order[k] < n
  }

  /** The blocks of the tasks in `order`, concatenated in that order. */
  function Gather<T>(blocks: seq<seq<T>>, order: seq<nat>): seq<T>
    requires InRange(order, |blocks|)
  {
    if |order| == 0 then []
    else Gather(blocks, order[..|order| - 1]) + blocks[order[|order| - 1]]
  }

  /** One more completed task appends its block. */
  lemma GatherStep<T>(blocks: seq<seq<T>>, order: seq<nat>, k: nat)
    requires InRange(order, |blocks|) && k < |order|
    ensures InRange(order[..k], |blocks|) && InRange(order[..k + 1], |blocks|)
    ensures Gather(blocks, order[..k + 1]) == Gather(blocks, order[..k]) + blocks[order[k]]
  {
    var p, q := order[..k + 1], order[..k];
    forall j | 0 <= j < |p| ensures p[j] < |blocks| {
      assert p[j] == order[j];
    }
    forall j | 0 <= j < |q| ensures q[j] < |blocks| {
      assert q[j] == order[j];
    }
    assert p[..|p| - 1] == q;
    assert p[|p| - 1] == order[k];
  }

  /** All blocks concatenated in index order. */
  function Flatten<T>(blocks: seq<seq<T>>): seq<T> {
    Gather(blocks, Indices(|blocks|))
  }

  lemma {:induction false} IndicesCount(n: nat, i: nat)
    ensures multiset(Indices(n))[i] == if i < n then 1 else 0
  {
    if n > 0 {
      var r := Indices(n - 1);
      IndicesCount(n - 1, i);
      var last: nat := n - 1;
      var mr: multiset<nat> := multiset(r);
      var m: multiset<nat> := mr + multiset{last};
      assert multiset(Indices(n)) == m;
      assert m[i] == mr[i] + (if i == last then 1 else 0);
    }
  }

  /** A schedule names each task index below `n`, each exactly once. */
  lemma ScheduleInRange(order: seq<nat>, n: nat)
    requires IsSchedule(order, n)
    ensures InRange(order, n) && |order| == n
    ensures forall i :: 0 <= i < n ==> multiset(order)[i] == 1
  {
    forall k | 0 <= k < |order| ensures order[k] < n {
      assert order[k] in multiset(order);
      IndicesCount(n, order[k]);
    }
    calc {
      |order|;
      |multiset(order)|;
      |multiset(Indices(n))|;
      |Indices(n)|;
    }
    forall i | 0 <= i < n ensures multiset(order)[i] == 1 {
      IndicesCount(n, i);
    }
  }

  lemma {:induction false} GatherAppend<T>(blocks: seq<seq<T>>, a: seq<nat>, b: seq<nat>)
    requires InRange(a, |blocks|) && InRange(b, |blocks|)
    ensures InRange(a + b, |blocks|)
    ensures Gather(blocks, a + b) == Gather(blocks, a) + Gather(blocks, b)
    decreases |b|
  {
    assert InRange(a + b, |blocks|);
    if |b| > 0 {
      var b' := b[..|b| - 1];
      assert (a + b)[..|a + b| - 1] == a + b';
      GatherAppend(blocks, a, b');
    } else {
      assert a + b == a;
    }
  }

  /** Gathering looks only at the blocks of the scheduled tasks. */
  lemma {:induction false} GatherAgree<T>(b1: seq<seq<T>>, b2: seq<seq<T>>, order: seq<nat>)
    requires InRange(order, |b1|) && InRange(order, |b2|)
    requires forall k :: 0 <= k < |order| ==> b1[order[k]] == b2[order[k]]
    ensures Gather(b1, order) == Gather(b2, order)
  {
    if |order| > 0 {
      GatherAgree(b1, b2, order[..|order| - 1]);
    }
  }

  /** Gathering `o` with its `k`-th task in the middle. */
  lemma GatherSplitAt<T>(blocks: seq<seq<T>>, o: seq<nat>, k: nat)
    requires InRange(o, |blocks|) && k < |o|
    ensures InRange(o[..k], |blocks|) && InRange(o[k + 1..], |blocks|)
    ensures Gather(blocks, o) == Gather(blocks, o[..k]) + blocks[o[k]] + Gather(blocks, o[k + 1..])
  {
    var pre, x, post := o[..k], o[k], o[k + 1..];
    var mid := o[..k + 1];
    assert o == mid + post;
    GatherStep(blocks, o, k);
    GatherAppend(blocks, mid, post);
  }

  lemma GatherRemoveAt<T>(blocks: seq<seq<T>>, o: seq<nat>, k: nat)
    requires InRange(o, |blocks|) && k < |o|
    ensures InRange(o[..k] + o[k + 1..], |blocks|)
    ensures multiset(o) == multiset(o[..k] + o[k + 1..]) + multiset{o[k]}
    ensures multiset(Gather(blocks, o))
         == multiset(Gather(blocks, o[..k] + o[k + 1..])) + multiset(blocks[o[k]])
  {
    var pre, x, post := o[..k], o[k], o[k + 1..];
    assert o == pre + [x] + post;
    assert multiset(o) == multiset(pre) + multiset{x} + multiset(post);
    GatherSplitAt(blocks, o, k);
    GatherAppend(blocks, pre, post);
    var a, b := Gather(blocks, pre), Gather(blocks, post);
    assert multiset(Gather(blocks, o)) == multiset(a) + multiset(blocks[x]) + multiset(b);
    assert multiset(Gather(blocks, pre + post)) == multiset(a) + multiset(b);
  }

  /** Whatever the completion order, the same multiset of results is
      gathered: only the order of the shared array depends on timing. */
  lemma {:induction false} GatherPermutation<T>(blocks: seq<seq<T>>, o1: seq<nat>, o2: seq<nat>)
    requires InRange(o1, |blocks|) && InRange(o2, |blocks|)
    requires multiset(o1) == multiset(o2)
    ensures multiset(Gather(blocks, o1)) == multiset(Gather(blocks, o2))
    decreases |o1|
  {
    if |o1| == 0 {
      assert |o2| == |multiset(o2)| == 0;
    } else {
      var n := |o1| - 1;
      var x := o1[n];
      assert x in multiset(o2);
      var k :| 0 <= k < |o2| && o2[k] == x;
      var o2' := o2[..k] + o2[k + 1..];
      GatherRemoveAt(blocks, o2, k);
      RemoveMatching(o1, o2, k);
      assert InRange(o1[..n], |blocks|);
      GatherPermutation(blocks, o1[..n], o2');
    }
  }

  /** Removing the last task of `o1` and the same task from `o2` leaves
      rearrangements of each other. */
  lemma RemoveMatching(o1: seq<nat>, o2: seq<nat>, k: nat)
    requires |o1| > 0 && k < |o2| && o2[k] == o1[|o1| - 1]
    requires multiset(o1) == multiset(o2)
    ensures multiset(o1[..|o1| - 1]) == multiset(o2[..k] + o2[k + 1..])
  {
    var n := |o1| - 1;
    var x: nat := o1[n];
    var front: seq<nat> := o1[..n];
    var rest: seq<nat> := o2[..k] + o2[k + 1..];
    assert o1 == front + [x];
    assert o2 == o2[..k] + [x] + o2[k + 1..];
    var m1: multiset<nat> := multiset(front);
    var m2: multiset<nat> := multiset(rest);
    assert multiset(o1) == m1 + multiset{x};
    assert multiset(o2) == m2 + multiset{x};
    forall y: nat ensures m1[y] == m2[y] {
      assert multiset(o1)[y] == multiset(o2)[y];
    }
  }

  /** Under any completion order every task's block is gathered. */
  lemma ScheduleGathersAll<T>(blocks: seq<seq<T>>, order: seq<nat>)
    requires IsSchedule(order, |blocks|)
    ensures InRange(order, |blocks|)
    ensures multiset(Gather(blocks, order)) == multiset(Flatten(blocks))
  {
    ScheduleInRange(order, |blocks|);
    GatherPermutation(blocks, order, Indices(|blocks|));
  }

  lemma {:induction false} GatherMembership<T>(blocks: seq<seq<T>>, order: seq<nat>, x: T)
    requires InRange(order, |blocks|)
    ensures x in Gather(blocks, order) <==> exists k :: 0 <= k < |order| && x in blocks[order[k]]
  {
    if |order| > 0 {
      var o' := order[..|order| - 1];
      GatherMembership(blocks, o', x);
      if exists k :: 0 <= k < |order| && x in blocks[order[k]] {
        var k :| 0 <= k < |order| && x in blocks[order[k]];
        if k < |order| - 1 {
          assert o'[k] == order[k];
        }
      }
    }
  }

  /** An element is in the in-order concatenation iff some block holds it. */
  lemma FlattenMembership<T>(blocks: seq<seq<T>>, x: T)
    ensures x in Flatten(blocks) <==> exists i :: 0 <= i < |blocks| && x in blocks[i]
  {
    var ix := Indices(|blocks|);
    GatherMembership(blocks, ix, x);
    if exists i :: 0 <= i < |blocks| && x in blocks[i] {
      var i :| 0 <= i < |blocks| && x in blocks[i];
      IndicesAt(|blocks|, i);
    }
  }

  lemma FlattenSnoc<T>(blocks: seq<seq<T>>, b: seq<T>)
    ensures Flatten(blocks + [b]) == Flatten(blocks) + b
  {
    var n := |blocks|;
    var bs := blocks + [b];
    assert Indices(n + 1)[..n] == Indices(n);
    GatherAgree(bs, blocks, Indices(n));
  }

  /** Replacing one task's block changes the in-order concatenation's
      multiset by exactly that block: the other tasks' contributions are
      untouched. */
  lemma {:induction false} FlattenReplace<T>(blocks: seq<seq<T>>, i: nat, nb: seq<T>)
    requires i < |blocks|
    ensures multiset(Flatten(blocks[i := nb])) + multiset(blocks[i])
         == multiset(Flatten(blocks)) + multiset(nb)
  {
    var n := |blocks|;
    var init, last := blocks[..n - 1], blocks[n - 1];
    assert blocks == init + [last];
    FlattenSnoc(init, last);
    if i == n - 1 {
      assert blocks[i := nb] == init + [nb];
      FlattenSnoc(init, nb);
    } else {
      assert blocks[i := nb] == init[i := nb] + [last];
      FlattenSnoc(init[i := nb], last);
      FlattenReplace(init, i, nb);
      AppendKeepsBalance(Flatten(init[i := nb]), Flatten(init), last, init[i], nb);
    }
  }

  /** Appending the same block to both sides keeps a multiset balance. */
  lemma AppendKeepsBalance<T>(x: seq<T>, y: seq<T>, last: seq<T>, before: seq<T>, after: seq<T>)
    requires multiset(x) + multiset(before) == multiset(y) + multiset(after)
    ensures multiset(x + last) + multiset(before) == multiset(y + last) + multiset(after)
  {
    calc {
      multiset(x + last) + multiset(before);
      (multiset(x) + multiset(before)) + multiset(last);
      (multiset(y) + multiset(after)) + multiset(last);
      multiset(y + last) + multiset(after);
    }
  }

  /** Index of the first element satisfying `p` (JavaScript's `findIndex`,
      and `find` when the element is taken). */
  function FirstIndex<T>(s: seq<T>, p: T -> bool): (r: Option<nat>)
    ensures r.Some? ==> r.value < |s| && p(s[r.value]) && forall j :: 0 <= j < r.value ==> !p(s[j])
    ensures r.None? ==> forall j :: 0 <= j < |s| ==> !p(s[j])
  {
    if |s| == 0 then None
    else if p(s[0]) then Some(0)
    else match FirstIndex(s[1..], p)
      case None => None
      case Some(k) => Some(k + 1)
  }

  /** `xs.map(f)` where `f` may throw: every element converted in order, or
      the error of the first element that cannot be. */
  function MapResults<A, B, E>(xs: seq<A>, f: A -> Result<B, E>): (r: Result<seq<B>, E>)
    ensures r.Ok? <==> forall i :: 0 <= i < |xs| ==> f(xs[i]).Ok?
    ensures r.Ok? ==> |r.value| == |xs| && forall i :: 0 <= i < |xs| ==> r.value[i] == f(xs[i]).value
    ensures r.Err? ==> exists i :: 0 <= i < |xs| && f(xs[i]) == Err(r.error) && forall j :: 0 <= j < i ==> f(xs[j]).Ok?
  {
    if |xs| == 0 then Ok([])
    else match f(xs[0])
      case Err(e) => Err(e)
      case Ok(y) =>
        match MapResults(xs[1..], f)
        case Err(e) =>
          assert forall i :: 1 <= i < |xs| ==> xs[1..][i - 1] == xs[i];
          Err(e)
        case Ok(ys) => Ok([y] + ys)
  }
}
