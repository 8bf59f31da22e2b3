/** `TryCollect`: drains a fallible stream into a container, stopping at the
    first error. The container (`C: Default + Extend`) is a sequence whose
    default is empty and whose `extend` appends. */
module TryCollectFuture {
  import opened Task

  type TryScript<T, E> = StreamScript<Result<T, E>>

  /** One call of `poll` on the state `(items, stream)`: the answer, the
      accumulator and the inner stream afterwards. */
  function TryCollectSpec<T, E>(items: seq<T>, s: TryScript<T, E>): (r: (Poll<Result<seq<T>, E>>, seq<T>, TryScript<T, E>))
    decreases |s.polls|
    // an ended stream resolves at once with what was gathered
    ensures s.terminated ==> r == (Ready(Ok(items)), [], s)
    // a success empties the accumulator and leaves the stream terminated
    ensures r.0.Ready? && r.0.value.Ok? ==> r.1 == [] && r.2.terminated
    // otherwise the accumulator only grows, at its end
    ensures !(r.0.Ready? && r.0.value.Ok?) ==> |items| <= |r.1| && r.1[..|items|] == items
  {
    var (p, s') := s.PollNext();
    match p
    case Pending => (Pending, items, s')
    case Ready(None) => (Ready(Ok(items)), [], s')
    case Ready(Some(Err(e))) => (Ready(Err(e)), items, s')
    case Ready(Some(Ok(x))) => TryCollectSpec(items + [x], s')
  }

  /** The script of a stream that produces each of `xs` successfully. */
  function Oks<T, E>(xs: seq<T>): (s: seq<Poll<Option<Result<T, E>>>>)
    ensures |s| == |xs| && forall i :: 0 <= i < |xs| ==> s[i] == Ready(Some(Ok(xs[i])))
  {
    seq(|xs|, i requires 0 <= i < |xs| => Ready(Some(Ok(xs[i]))))
  }

  /** Successful items are appended in the order they are produced, all in
      the same call. */
  lemma {:induction false} AppendsInOrder<T, E>(items: seq<T>, xs: seq<T>, rest: seq<Poll<Option<Result<T, E>>>>)
    ensures TryCollectSpec(items, Fuse(Oks(xs) + rest)) == TryCollectSpec(items + xs, Fuse(rest))
    decreases |xs|
  {
    if xs == [] {
      assert Oks<T, E>(xs) + rest == rest;
      assert items + xs == items;
    } else {
      var s := Fuse(Oks<T, E>(xs) + rest);
      assert (Oks<T, E>(xs) + rest)[1..] == Oks<T, E>(xs[1..]) + rest;
      assert s.PollNext() == (Ready(Some(Ok(xs[0]))), Fuse(Oks<T, E>(xs[1..]) + rest));
      AppendsInOrder(items + [xs[0]], xs[1..], rest);
      assert items + [xs[0]] + xs[1..] == items + xs;
    }
  }

  /** At end-of-stream the future resolves with every item, in order, and the
      accumulator is reset to its default. */
  lemma ResolvesAtEnd<T, E>(items: seq<T>, xs: seq<T>, more: seq<Poll<Option<Result<T, E>>>>)
    ensures TryCollectSpec(items, Fuse(Oks(xs) + [Ready(None)] + more))
            == (Ready(Ok(items + xs)), [], StreamScript(more, true))
  {
    assert Oks<T, E>(xs) + [Ready(None)] + more == Oks(xs) + ([Ready(None)] + more);
    AppendsInOrder(items, xs, [Ready(None)] + more);
  }

  /** The first error resolves the future with that error; nothing after it is
      polled (the rest of the script is untouched), and the items gathered so
      far are not surfaced. */
  lemma ShortCircuitsOnError<T, E>(items: seq<T>, xs: seq<T>, e: E, more: seq<Poll<Option<Result<T, E>>>>)
    ensures TryCollectSpec(items, Fuse(Oks(xs) + [Ready(Some(Err(e)))] + more))
            == (Ready(Err(e)), items + xs, Fuse(more))
  {
    assert Oks<T, E>(xs) + [Ready(Some(Err(e)))] + more == Oks(xs) + ([Ready(Some(Err(e)))] + more);
    AppendsInOrder(items, xs, [Ready(Some(Err(e)))] + more);
  }

  /** An inner pending is returned as pending and the items gathered so far
      are kept; so is a script that runs out. */
  lemma KeepsItemsWhenPending<T, E>(items: seq<T>, xs: seq<T>, more: seq<Poll<Option<Result<T, E>>>>)
    ensures TryCollectSpec(items, Fuse(Oks(xs) + [Pending] + more)) == (Pending, items + xs, Fuse(more))
    ensures TryCollectSpec(items, Fuse(Oks<T, E>(xs))) == (Pending, items + xs, Fuse([]))
  {
    assert Oks<T, E>(xs) + [Pending] + more == Oks(xs) + ([Pending] + more);
    AppendsInOrder(items, xs, [Pending] + more);
    assert Oks<T, E>(xs) + [] == Oks(xs);
    AppendsInOrder<T, E>(items, xs, []);
  }

  /** Items gathered before a pending are part of the result of a later poll. */
  lemma ResumesAfterPending<T, E>(xs: seq<T>, ys: seq<T>, more: seq<Poll<Option<Result<T, E>>>>)
    ensures var first := TryCollectSpec([], Fuse(Oks(xs) + [Pending] + Oks(ys) + [Ready(None)] + more));
            && first.0 == Pending
            && TryCollectSpec(first.1, first.2) == (Ready(Ok(xs + ys)), [], StreamScript(more, true))
  {
    var tail := Oks<T, E>(ys) + [Ready(None)] + more;
    assert Oks<T, E>(xs) + [Pending] + Oks(ys) + [Ready(None)] + more == Oks(xs) + [Pending] + tail;
    KeepsItemsWhenPending([], xs, tail);
    assert [] + xs == xs;
    ResolvesAtEnd(xs, ys, more);
  }

  class TryCollect<T, E> {
    var stream: TryScript<T, E>
    var items: seq<T>

    /** `TryCollect::new`: the accumulator starts as the default. */
    constructor (s: TryScript<T, E>)
      ensures stream == s && items == []
    {
      stream := s;
      items := [];
    }

    /** Takes the accumulator, leaving the default in its place. */
    method Finish() returns (c: seq<T>)
      modifies this
      ensures c == old(items) && items == [] && stream == old(stream)
    {
      c := items;
      items := [];
    }

    /** `is_terminated` is the inner stream's. */
    predicate IsTerminated()
      reads this
    {
      stream.terminated
    }

    method Poll() returns (r: Poll<Result<seq<T>, E>>)
      modifies this
      ensures (r, items, stream) == TryCollectSpec(old(items), old(stream))
    {
      while true
        invariant TryCollectSpec(items, stream) == TryCollectSpec(old(items), old(stream))
        decreases |stream.polls|
      {
        var (p, s') := stream.PollNext();
        stream := s';
        match p {
          case Pending =>
            return Pending;
          case Ready(None) =>
            var c := Finish();
            return Ready(Ok(c));
          case Ready(Some(Err(e))) =>
            return Ready(Err(e));
          case Ready(Some(Ok(x))) =>
            items := items + [x];
        }
      }
    }
  }
}
