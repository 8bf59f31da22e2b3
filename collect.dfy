/** `Collect` of the older task API: drains a stream into a vector. A poll
    answers `None` while not ready and `Some(result)` once resolved. */
module CollectFuture {
  import opened Task

  /** One call of `poll` on the state `(items, stream)`: the answer, the
      buffer and the inner stream afterwards. */
  function CollectSpec<T, E>(items: seq<T>, s: LegacyStream<T, E>): (r: (Option<Result<seq<T>, E>>, seq<T>, LegacyStream<T, E>))
    decreases |s.polls|
    // a resolved poll, success or error, leaves the buffer empty
    ensures r.0.Some? ==> r.1 == []
    // a not-ready poll keeps the buffer and only adds to its end
    ensures r.0.None? ==> |items| <= |r.1| && r.1[..|items|] == items
    // wake registrations are not the business of `poll`
    ensures r.2.scheduled == s.scheduled
  {
    var (p, s') := s.Poll();
    match p
    case None => (None, items, s')
    case Some(Ok(Some(x))) => CollectSpec(items + [x], s')
    case Some(Ok(None)) => (Some(Ok(items)), [], s')
    case Some(Err(e)) => (Some(Err(e)), [], s')
  }

  /** The script of a stream that is ready with each of `xs` in turn. */
  function Items<T, E>(xs: seq<T>): (s: seq<Option<Result<Option<T>, E>>>)
    ensures |s| == |xs| && forall i :: 0 <= i < |xs| ==> s[i] == Some(Ok(Some(xs[i])))
  {
    seq(|xs|, i requires 0 <= i < |xs| => Some(Ok(Some(xs[i]))))
  }

  /** Each item is pushed to the end of the buffer, in production order, in
      the same call. */
  lemma {:induction false} PushesInOrder<T, E>(items: seq<T>, xs: seq<T>, rest: seq<Option<Result<Option<T>, E>>>, scheduled: seq<Wake>)
    ensures CollectSpec(items, LegacyTask(Items(xs) + rest, scheduled))
            == CollectSpec(items + xs, LegacyTask(rest, scheduled))
    decreases |xs|
  {
    if xs == [] {
      assert Items<T, E>(xs) + rest == rest;
      assert items + xs == items;
    } else {
      var s := LegacyTask(Items<T, E>(xs) + rest, scheduled);
      assert (Items<T, E>(xs) + rest)[1..] == Items<T, E>(xs[1..]) + rest;
      assert s.Poll() == (Some(Ok(Some(xs[0]))), LegacyTask(Items<T, E>(xs[1..]) + rest, scheduled));
      PushesInOrder(items + [xs[0]], xs[1..], rest, scheduled);
      assert items + [xs[0]] + xs[1..] == items + xs;
    }
  }

  /** At end-of-stream the result is every item in production order and the
      buffer is left empty. */
  lemma ResolvesWithAllItems<T, E>(items: seq<T>, xs: seq<T>, more: seq<Option<Result<Option<T>, E>>>, scheduled: seq<Wake>)
    ensures CollectSpec(items, LegacyTask(Items(xs) + [Some(Ok(None))] + more, scheduled))
            == (Some(Ok(items + xs)), [], LegacyTask(more, scheduled))
  {
    assert Items<T, E>(xs) + [Some(Ok(None))] + more == Items(xs) + ([Some(Ok(None))] + more);
    PushesInOrder(items, xs, [Some(Ok(None))] + more, scheduled);
  }

  /** `[1, 2, 3]` resolves to `[1, 2, 3]`. */
  lemma CollectsOneTwoThree<E>(more: seq<Option<Result<Option<int>, E>>>)
    ensures CollectSpec([], LegacyTask([Some(Ok(Some(1))), Some(Ok(Some(2))), Some(Ok(Some(3))), Some(Ok(None))] + more, []))
            == (Some(Ok([1, 2, 3])), [], LegacyTask(more, []))
  {
    assert Items<int, E>([1, 2, 3]) == [Some(Ok(Some(1))), Some(Ok(Some(2))), Some(Ok(Some(3)))];
    assert [] + [1, 2, 3] == [1, 2, 3];
    assert Items<int, E>([1, 2, 3]) + [Some(Ok(None))] + more
        == [Some(Ok(Some(1))), Some(Ok(Some(2))), Some(Ok(Some(3))), Some(Ok(None))] + more;
    ResolvesWithAllItems([], [1, 2, 3], more, []);
  }

  /** An error clears the buffer: the partial items are never surfaced. */
  lemma ClearsOnError<T, E>(items: seq<T>, xs: seq<T>, e: E, more: seq<Option<Result<Option<T>, E>>>, scheduled: seq<Wake>)
    ensures CollectSpec(items, LegacyTask(Items(xs) + [Some(Err(e))] + more, scheduled))
            == (Some(Err(e)), [], LegacyTask(more, scheduled))
  {
    assert Items<T, E>(xs) + [Some(Err(e))] + more == Items(xs) + ([Some(Err(e))] + more);
    PushesInOrder(items, xs, [Some(Err(e))] + more, scheduled);
  }

  /** Not ready is passed on as not ready and the buffered items are kept for
      the next poll. */
  lemma KeepsItemsWhenNotReady<T, E>(items: seq<T>, xs: seq<T>, more: seq<Option<Result<Option<T>, E>>>, scheduled: seq<Wake>)
    ensures CollectSpec(items, LegacyTask(Items(xs) + [None] + more, scheduled))
            == (None, items + xs, LegacyTask(more, scheduled))
  {
    assert Items<T, E>(xs) + [None] + more == Items(xs) + ([None] + more);
    PushesInOrder(items, xs, [None] + more, scheduled);
  }

  class Collect<T, E> {
    var stream: LegacyStream<T, E>
    var items: seq<T>

    /** `new`: the buffer starts empty. */
    constructor (s: LegacyStream<T, E>)
      ensures stream == s && items == []
    {
      stream := s;
      items := [];
    }

    /** Takes the buffer, leaving an empty one. */
    method Finish() returns (c: seq<T>)
      modifies this
      ensures c == old(items) && items == [] && stream == old(stream)
    {
      c := items;
      items := [];
    }

    method Poll() returns (r: Option<Result<seq<T>, E>>)
      modifies this
      ensures (r, items, stream) == CollectSpec(old(items), old(stream))
    {
      while true
        invariant CollectSpec(items, stream) == CollectSpec(old(items), old(stream))
        decreases |stream.polls|
      {
        var (p, s') := stream.Poll();
        stream := s';
        match p {
          case Some(Ok(Some(e))) =>
            items := items + [e];
          case Some(Ok(None)) =>
            var c := Finish();
            return Some(Ok(c));
          case Some(Err(e)) =>
            var _ := Finish();
            return Some(Err(e));
          case None =>
            return None;
        }
      }
    }

    /** `schedule` is handed on to the inner stream unchanged. */
    method Schedule(wake: Wake)
      modifies this
      ensures stream == old(stream).Schedule(wake) && items == old(items)
    {
      stream := stream.Schedule(wake);
    }
  }
}
