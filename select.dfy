/** The `Select` fan-in: two fused streams of the same item type merged into
    one, with a flag that hands priority to the other stream after each item. */
module StreamSelect {
  import opened Task

  /** `poll_inner`: poll `a`, and poll `b` only if `a` produced no item. The
      last component says whether the caller's flag is to be negated. */
  function PollInner<T>(a: StreamScript<T>, b: StreamScript<T>): (r: (Poll<Option<T>>, StreamScript<T>, StreamScript<T>, bool))
    // an item from `a` is returned, the flag is negated and `b` is not polled
    ensures Yields(a.PollNext().0) ==> r == (a.PollNext().0, a.PollNext().1, b, true)
    // otherwise both are polled and the flag stays
    ensures !Yields(a.PollNext().0) ==> r.1 == a.PollNext().1 && r.2 == b.PollNext().1 && !r.3
    ensures !Yields(a.PollNext().0) && Yields(b.PollNext().0) ==> r.0 == b.PollNext().0
    // end-of-stream only when both ended in this very poll, pending in every other case
    ensures Ends(r.0) <==> Ends(a.PollNext().0) && Ends(b.PollNext().0)
    ensures r.0.Pending? <==> !Yields(a.PollNext().0) && !Yields(b.PollNext().0) && !(Ends(a.PollNext().0) && Ends(b.PollNext().0))
  {
    var (pa, a') := a.PollNext();
    if Yields(pa) then (pa, a', b, true)
    else
      var aDone := pa.Ready?;
      var (pb, b') := b.PollNext();
      if Yields(pb) then (pb, a', b', false)
      else if pb.Ready? && aDone then (Ready(None), a', b', false)
      else (Pending, a', b', false)
  }

  /** `poll_next` on the state `(stream1, stream2, flag)`: `flag` false means
      `stream1` is polled first. */
  function SelectStep<T>(s1: StreamScript<T>, s2: StreamScript<T>, flag: bool): (r: (Poll<Option<T>>, StreamScript<T>, StreamScript<T>, bool))
    // the stream polled first is the one the flag names; an item from it negates the flag
    ensures var prior := if flag then s2.PollNext() else s1.PollNext();
            r.3 == (if Yields(prior.0) then !flag else flag)
    ensures !flag && Yields(s1.PollNext().0) ==> r.0 == s1.PollNext().0 && r.2 == s2
    ensures flag && Yields(s2.PollNext().0) ==> r.0 == s2.PollNext().0 && r.1 == s1
    // end-of-stream means both sources are terminated afterwards, and two
    // terminated sources give end-of-stream
    ensures Ends(r.0) ==> r.1.terminated && r.2.terminated
    ensures s1.terminated && s2.terminated ==> r == (Ready(None), s1, s2, flag)
    // an item always comes from one of the two sources
    ensures Yields(r.0) ==> r.0 == s1.PollNext().0 || r.0 == s2.PollNext().0
  {
    if !flag then
      var (p, a, b, flip) := PollInner(s1, s2);
      (p, a, b, if flip then !flag else flag)
    else
      var (p, b, a, flip) := PollInner(s2, s1);
      (p, a, b, if flip then !flag else flag)
  }

  /** `n` consecutive polls: the answers, and the state afterwards. */
  function SelectRun<T>(n: nat, s1: StreamScript<T>, s2: StreamScript<T>, flag: bool)
    : (r: (seq<Poll<Option<T>>>, StreamScript<T>, StreamScript<T>, bool))
    ensures |r.0| == n
  {
    if n == 0 then ([], s1, s2, flag)
    else
      var (p, a, b, f) := SelectStep(s1, s2, flag);
      var (ps, a', b', f') := SelectRun(n - 1, a, b, f);
      ([p] + ps, a', b', f')
  }

  /** The script of a source that is ready with each of `xs` in turn. */
  function AllReady<T>(xs: seq<T>): (s: seq<Poll<Option<T>>>)
    ensures |s| == |xs| && forall i :: 0 <= i < |xs| ==> s[i] == Ready(Some(xs[i]))
  {
    seq(|xs|, i requires 0 <= i < |xs| => Ready(Some(xs[i])))
  }

  /** `a[0], b[0], a[1], b[1], ...` */
  function Interleave<T>(a: seq<T>, b: seq<T>): (s: seq<T>)
    requires |a| == |b|
    ensures |s| == 2 * |a|
  {
    if a == [] then [] else [a[0], b[0]] + Interleave(a[1..], b[1..])
  }

  lemma AllReadyCons<T>(x: T, xs: seq<T>, rest: seq<Poll<Option<T>>>)
    ensures (AllReady([x] + xs) + rest)[0] == Ready(Some(x))
    ensures (AllReady([x] + xs) + rest)[1..] == AllReady(xs) + rest
  {
  }

  /** With both sources ready at every poll, a fresh `Select` alternates:
      `stream1`'s item, then `stream2`'s, each source in its own order, none
      dropped or repeated; afterwards both sources are back where they were
      scripted to continue and `stream1` again has priority. */
  lemma {:induction false} AlternatesWhenBothReady<T>(a: seq<T>, b: seq<T>, r1: seq<Poll<Option<T>>>, r2: seq<Poll<Option<T>>>)
    requires |a| == |b|
    ensures SelectRun(2 * |a|, Fuse(AllReady(a) + r1), Fuse(AllReady(b) + r2), false)
            == (AllReady(Interleave(a, b)), Fuse(r1), Fuse(r2), false)
  {
    if a == [] {
      assert AllReady(a) + r1 == r1;
      assert AllReady(b) + r2 == r2;
      assert AllReady(Interleave(a, b)) == [];
    } else {
      var s1, s2 := Fuse(AllReady(a) + r1), Fuse(AllReady(b) + r2);
      var s1', s2' := Fuse(AllReady(a[1..]) + r1), Fuse(AllReady(b[1..]) + r2);
      AllReadyCons(a[0], a[1..], r1);
      AllReadyCons(b[0], b[1..], r2);
      assert [a[0]] + a[1..] == a;
      assert [b[0]] + b[1..] == b;
      assert s1.PollNext() == (Ready(Some(a[0])), s1');
      assert SelectStep(s1, s2, false) == (Ready(Some(a[0])), s1', s2, true);
      assert s2.PollNext() == (Ready(Some(b[0])), s2');
      assert SelectStep(s1', s2, true) == (Ready(Some(b[0])), s1', s2', false);
      AlternatesWhenBothReady(a[1..], b[1..], r1, r2);
      var tail := SelectRun(2 * |a| - 2, s1', s2', false);
      assert SelectRun(2 * |a| - 1, s1', s2, true) == ([Ready(Some(b[0]))] + tail.0, tail.1, tail.2, tail.3);
      assert SelectRun(2 * |a|, s1, s2, false) == ([Ready(Some(a[0]))] + ([Ready(Some(b[0]))] + tail.0), tail.1, tail.2, tail.3);
      assert Interleave(a, b) == [a[0], b[0]] + Interleave(a[1..], b[1..]);
      assert AllReady(Interleave(a, b)) == [Ready(Some(a[0]))] + ([Ready(Some(b[0]))] + AllReady(Interleave(a[1..], b[1..])));
    }
  }

  /** Once `stream1` is terminated, `Select` passes on `stream2`'s items in
      order, whichever stream the flag favoured, and then ends. */
  lemma {:induction false} DrainsSecondAfterFirstEnds<T>(b: seq<T>, s1: StreamScript<T>, rest: seq<Poll<Option<T>>>, flag: bool)
    requires s1.terminated
    ensures var r := SelectRun(|b| + 1, s1, Fuse(AllReady(b) + [Ready(None)] + rest), flag);
            r.0 == AllReady(b) + [Ready(None)] && r.1 == s1 && r.2.terminated
  {
    var s2 := Fuse(AllReady(b) + [Ready(None)] + rest);
    if b == [] {
      assert AllReady(b) + [Ready(None)] + rest == [Ready(None)] + rest;
      assert s2.PollNext().0 == Ready(None);
      assert SelectStep(s1, s2, flag).0 == Ready(None);
      assert AllReady(b) + [Ready(None)] == [Ready(None)];
    } else {
      var s2' := Fuse(AllReady(b[1..]) + [Ready(None)] + rest);
      AllReadyCons(b[0], b[1..], [Ready(None)] + rest);
      assert [b[0]] + b[1..] == b;
      assert AllReady(b) + [Ready(None)] + rest == AllReady(b) + ([Ready(None)] + rest);
      assert AllReady(b[1..]) + [Ready(None)] + rest == AllReady(b[1..]) + ([Ready(None)] + rest);
      assert s2.PollNext() == (Ready(Some(b[0])), s2');
      assert SelectStep(s1, s2, flag) == (Ready(Some(b[0])), s1, s2', false);
      DrainsSecondAfterFirstEnds(b[1..], s1, rest, false);
      var tail := SelectRun(|b|, s1, s2', false);
      assert SelectRun(|b| + 1, s1, s2, flag) == ([Ready(Some(b[0]))] + tail.0, tail.1, tail.2, tail.3);
      assert AllReady(b) + [Ready(None)] == [Ready(Some(b[0]))] + (AllReady(b[1..]) + [Ready(None)]);
    }
  }

  /** Once `stream2` is terminated, `Select` passes on `stream1`'s items in
      order, whichever stream the flag favoured, and then ends; after the
      first item `stream2` has priority, which changes nothing. */
  lemma {:induction false} DrainsFirstAfterSecondEnds<T>(a: seq<T>, s2: StreamScript<T>, rest: seq<Poll<Option<T>>>, flag: bool)
    requires s2.terminated
    ensures var r := SelectRun(|a| + 1, Fuse(AllReady(a) + [Ready(None)] + rest), s2, flag);
            r.0 == AllReady(a) + [Ready(None)] && r.1.terminated && r.2 == s2
  {
    var s1 := Fuse(AllReady(a) + [Ready(None)] + rest);
    if a == [] {
      assert AllReady(a) + [Ready(None)] + rest == [Ready(None)] + rest;
      assert s1.PollNext().0 == Ready(None);
      assert SelectStep(s1, s2, flag).0 == Ready(None);
      assert AllReady(a) + [Ready(None)] == [Ready(None)];
    } else {
      var s1' := Fuse(AllReady(a[1..]) + [Ready(None)] + rest);
      AllReadyCons(a[0], a[1..], [Ready(None)] + rest);
      assert [a[0]] + a[1..] == a;
      assert AllReady(a) + [Ready(None)] + rest == AllReady(a) + ([Ready(None)] + rest);
      assert AllReady(a[1..]) + [Ready(None)] + rest == AllReady(a[1..]) + ([Ready(None)] + rest);
      assert s1.PollNext() == (Ready(Some(a[0])), s1');
      assert SelectStep(s1, s2, flag) == (Ready(Some(a[0])), s1', s2, true);
      DrainsFirstAfterSecondEnds(a[1..], s2, rest, true);
      var tail := SelectRun(|a|, s1', s2, true);
      assert SelectRun(|a| + 1, s1, s2, flag) == ([Ready(Some(a[0]))] + tail.0, tail.1, tail.2, tail.3);
      assert AllReady(a) + [Ready(None)] == [Ready(Some(a[0]))] + (AllReady(a[1..]) + [Ready(None)]);
    }
  }

  /** The items among a sequence of answers, in order. */
  function Items<T>(ps: seq<Poll<Option<T>>>): (xs: seq<T>)
    ensures |xs| <= |ps|
  {
    if ps == [] then [] else (if Yields(ps[0]) then [ps[0].value.value] else []) + Items(ps[1..])
  }

  lemma {:induction false} ItemsAppend<T>(c: seq<Poll<Option<T>>>, d: seq<Poll<Option<T>>>)
    ensures Items(c + d) == Items(c) + Items(d)
    decreases |c|
  {
    if c != [] {
      assert (c + d)[0] == c[0];
      assert (c + d)[1..] == c[1..] + d;
      ItemsAppend(c[1..], d);
    } else {
      assert c + d == d;
    }
  }

  /** `m` interleaves `a` and `b`: every element of each, each in its own
      order, and nothing else. */
  ghost predicate IsMerge<T>(m: seq<T>, a: seq<T>, b: seq<T>)
    decreases |m|
  {
    if m == [] then a == [] && b == []
    else || (a != [] && m[0] == a[0] && IsMerge(m[1..], a[1..], b))
         || (b != [] && m[0] == b[0] && IsMerge(m[1..], a, b[1..]))
  }

  /** The script `after` is what is left of `before` once a prefix of it has
      been polled. */
  ghost predicate Leaves<X>(before: seq<X>, after: seq<X>) {
    |after| <= |before| && before[|before| - |after|..] == after
  }

  /** The polled prefix. */
  function Taken<X>(before: seq<X>, after: seq<X>): (c: seq<X>)
    requires Leaves(before, after)
    ensures before == c + after
  {
    assert before == before[..|before| - |after|] + before[|before| - |after|..];
    before[..|before| - |after|]
  }

  lemma NothingTaken<X>(x: seq<X>)
    ensures Leaves(x, x) && Taken(x, x) == []
  {
  }

  lemma TakenChain<X>(x: seq<X>, y: seq<X>, z: seq<X>)
    requires Leaves(x, y) && Leaves(y, z)
    ensures Leaves(x, z) && Taken(x, z) == Taken(x, y) + Taken(y, z)
  {
  }

  /** One poll of a fused stream takes at most the head of its script, and
      its item, if any, is the item of what it took. */
  lemma PollTakes<T>(s: StreamScript<T>)
    ensures Leaves(s.polls, s.PollNext().1.polls)
    ensures Items([s.PollNext().0]) == Items(Taken(s.polls, s.PollNext().1.polls))
  {
  }

  /** One `poll_inner` produces exactly the item of what it took from the two
      streams, at most one of which contributes one. */
  lemma PollInnerTakes<T>(a: StreamScript<T>, b: StreamScript<T>)
    ensures var r := PollInner(a, b);
            && Leaves(a.polls, r.1.polls) && Leaves(b.polls, r.2.polls)
            && Items([r.0]) == Items(Taken(a.polls, r.1.polls)) + Items(Taken(b.polls, r.2.polls))
            && (Items(Taken(a.polls, r.1.polls)) == [] || Items(Taken(b.polls, r.2.polls)) == [])
  {
    var r := PollInner(a, b);
    PollTakes(a);
    assert [r.0][1..] == [];
    if Yields(a.PollNext().0) {
      assert b.polls[0..] == b.polls;
      assert Taken(b.polls, b.polls) == [];
    } else {
      PollTakes(b);
      var pa := a.PollNext().0;
      assert [pa][1..] == [];
      assert Items([pa]) == [];
      var pb := b.PollNext().0;
      assert [pb][1..] == [];
      if !Yields(pb) {
        assert Items([pb]) == [];
        assert !Yields(r.0);
      }
    }
  }

  /** `select.poll_next` takes, likewise, exactly the item it produces. */
  lemma SelectStepTakes<T>(s1: StreamScript<T>, s2: StreamScript<T>, flag: bool)
    ensures var r := SelectStep(s1, s2, flag);
            && Leaves(s1.polls, r.1.polls) && Leaves(s2.polls, r.2.polls)
            && Items([r.0]) == Items(Taken(s1.polls, r.1.polls)) + Items(Taken(s2.polls, r.2.polls))
            && (Items(Taken(s1.polls, r.1.polls)) == [] || Items(Taken(s2.polls, r.2.polls)) == [])
  {
    if !flag {
      PollInnerTakes(s1, s2);
    } else {
      PollInnerTakes(s2, s1);
      var r := PollInner(s2, s1);
      assert Items(Taken(s2.polls, r.1.polls)) == [] || Items(Taken(s1.polls, r.2.polls)) == [];
    }
  }

  /** A merge stays a merge when at most one element from either side is put
      in front of it. */
  lemma MergeExtend<T>(x: seq<T>, c1: seq<T>, c2: seq<T>, m: seq<T>, d1: seq<T>, d2: seq<T>)
    requires IsMerge(m, d1, d2) && x == c1 + c2 && (c1 == [] || c2 == []) && |x| <= 1
    ensures IsMerge(x + m, c1 + d1, c2 + d2)
  {
    if c1 != [] {
      assert (x + m)[0] == (c1 + d1)[0];
      assert (x + m)[1..] == m && (c1 + d1)[1..] == d1 && c2 + d2 == d2;
    } else if c2 != [] {
      assert (x + m)[0] == (c2 + d2)[0];
      assert (x + m)[1..] == m && (c2 + d2)[1..] == d2 && c1 + d1 == d1;
    } else {
      assert x + m == m && c1 + d1 == d1 && c2 + d2 == d2;
    }
  }

  /** One poll followed by a run: what both took, and the merge of their
      items. */
  lemma RunCompose<T>(x1: seq<Poll<Option<T>>>, y1: seq<Poll<Option<T>>>, z1: seq<Poll<Option<T>>>,
                      x2: seq<Poll<Option<T>>>, y2: seq<Poll<Option<T>>>, z2: seq<Poll<Option<T>>>,
                      p: Poll<Option<T>>, ps: seq<Poll<Option<T>>>)
    requires Leaves(x1, y1) && Leaves(y1, z1) && Leaves(x2, y2) && Leaves(y2, z2)
    requires Items([p]) == Items(Taken(x1, y1)) + Items(Taken(x2, y2))
    requires Items(Taken(x1, y1)) == [] || Items(Taken(x2, y2)) == []
    requires IsMerge(Items(ps), Items(Taken(y1, z1)), Items(Taken(y2, z2)))
    ensures Leaves(x1, z1) && Leaves(x2, z2)
    ensures IsMerge(Items([p] + ps), Items(Taken(x1, z1)), Items(Taken(x2, z2)))
  {
    TakenChain(x1, y1, z1);
    TakenChain(x2, y2, z2);
    ItemsAppend([p], ps);
    ItemsAppend(Taken(x1, y1), Taken(y1, z1));
    ItemsAppend(Taken(x2, y2), Taken(y2, z2));
    MergeExtend(Items([p]), Items(Taken(x1, y1)), Items(Taken(x2, y2)), Items(ps), Items(Taken(y1, z1)), Items(Taken(y2, z2)));
  }

  /** The run `r` from the sources `s1` and `s2` took a prefix of each
      script, and its items are a merge of the items of those prefixes. */
  ghost predicate MergedRun<T>(s1: StreamScript<T>, s2: StreamScript<T>, r: (seq<Poll<Option<T>>>, StreamScript<T>, StreamScript<T>, bool)) {
    && Leaves(s1.polls, r.1.polls) && Leaves(s2.polls, r.2.polls)
    && IsMerge(Items(r.0), Items(Taken(s1.polls, r.1.polls)), Items(Taken(s2.polls, r.2.polls)))
  }

  /** One poll in front of a merged run keeps it merged. */
  lemma MergedStep<T>(n: nat, s1: StreamScript<T>, s2: StreamScript<T>, flag: bool)
    requires n > 0
    requires var step := SelectStep(s1, s2, flag);
             MergedRun(step.1, step.2, SelectRun(n - 1, step.1, step.2, step.3))
    ensures MergedRun(s1, s2, SelectRun(n, s1, s2, flag))
  {
    var step := SelectStep(s1, s2, flag);
    var run := SelectRun(n - 1, step.1, step.2, step.3);
    assert SelectRun(n, s1, s2, flag) == ([step.0] + run.0, run.1, run.2, run.3);
    SelectStepTakes(s1, s2, flag);
    RunCompose(s1.polls, step.1.polls, run.1.polls, s2.polls, step.2.polls, run.2.polls, step.0, run.0);
  }

  /** Over any number of polls and any scripts, pending and ended ones
      included, the items `Select` produces are exactly a merge of the items
      it took from `stream1` and from `stream2`: none lost, none repeated,
      each source in its own order. */
  lemma {:induction false} MergesInOrder<T>(n: nat, s1: StreamScript<T>, s2: StreamScript<T>, flag: bool)
    ensures MergedRun(s1, s2, SelectRun(n, s1, s2, flag))
  {
    if n == 0 {
      NothingTaken(s1.polls);
      NothingTaken(s2.polls);
    } else {
      var step := SelectStep(s1, s2, flag);
      MergesInOrder(n - 1, step.1, step.2, step.3);
      MergedStep(n, s1, s2, flag);
    }
  }

  class Select<T> {
    var stream1: StreamScript<T>
    var stream2: StreamScript<T>
    var flag: bool

    /** `Select::new`: both streams are fused and `stream1` goes first. */
    constructor (stream1: seq<Poll<Option<T>>>, stream2: seq<Poll<Option<T>>>)
      ensures this.stream1 == Fuse(stream1) && this.stream2 == Fuse(stream2)
      ensures !flag
    {
      this.stream1 := Fuse(stream1);
      this.stream2 := Fuse(stream2);
      flag := false;
    }

    /** `is_terminated`: both sources have ended. */
    predicate IsTerminated()
      reads this
    {
      stream1.terminated && stream2.terminated
    }

    method PollNext() returns (r: Poll<Option<T>>)
      modifies this
      ensures (r, stream1, stream2, flag) == SelectStep(old(stream1), old(stream2), old(flag))
      ensures Ends(r) ==> IsTerminated()
    {
      if !flag {
        var (p, a, b, flip) := PollInner(stream1, stream2);
        stream1, stream2 := a, b;
        if flip { flag := !flag; }
        r := p;
      } else {
        var (p, b, a, flip) := PollInner(stream2, stream1);
        stream1, stream2 := a, b;
        if flip { flag := !flag; }
        r := p;
      }
    }
  }
}
