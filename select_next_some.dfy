/** `SelectNextSome`: a future over a borrowed fused stream that resolves
    with the stream's next item. At end-of-stream it never resolves: it wakes
    its own task and stays pending, so that a `select!` loop moves on. */
module SelectNextSomeFuture {
  import opened Task

  /** The stream the future borrows mutably: the caller keeps using it after
      the future is gone, so it is a shared object. */
  class StreamHandle<T> {
    var inner: StreamScript<T>

    constructor (s: StreamScript<T>)
      ensures inner == s
    {
      inner := s;
    }
  }

  /** The task context; only the number of `wake_by_ref` calls on its waker
      is kept. */
  class Context {
    var wakes: nat

    constructor ()
      ensures wakes == 0
    {
      wakes := 0;
    }
  }

  /** One `poll` on a stream that has not ended: the answer, the stream
      afterwards and the number of wake-ups issued. */
  function NextSomeStep<T>(s: StreamScript<T>): (r: (Poll<T>, StreamScript<T>, nat))
    requires !s.terminated
    // the stream is polled exactly once
    ensures r.1 == s.PollNext().1
    // resolved exactly when the stream produced an item, and with that item
    ensures r.0.Ready? <==> Yields(s.PollNext().0)
    ensures r.0.Ready? ==> r.0.value == s.PollNext().0.value.value
    // a wake-up exactly at end-of-stream, which leaves the stream terminated
    ensures r.2 == (if Ends(s.PollNext().0) then 1 else 0)
    ensures r.2 == 1 ==> r.0.Pending? && r.1.terminated
    // pending and running: no wake-up, the stream still running
    ensures s.PollNext().0.Pending? ==> r.0.Pending? && r.2 == 0 && !r.1.terminated
  {
    var (p, s') := s.PollNext();
    match p
    case Pending => (Pending, s', 0)
    case Ready(Some(item)) => (Ready(item), s', 0)
    case Ready(None) => (Pending, s', 1)
  }

  /** `n` pending polls. */
  function Pendings<X>(n: nat): (ps: seq<Poll<X>>)
    ensures |ps| == n && forall i :: 0 <= i < n ==> ps[i].Pending?
  {
    seq(n, i => Pending)
  }

  /** Polls of a fresh future for each of `n` polls, stopping at the
      terminated stream (polling it then violates the precondition): the
      answers, the stream afterwards and the wake-ups issued. */
  function NextSomeRun<T>(n: nat, s: StreamScript<T>): (r: (seq<Poll<T>>, StreamScript<T>, nat))
    ensures |r.0| <= n && r.2 <= 1
    ensures r.2 == 1 ==> r.1.terminated
  {
    if n == 0 || s.terminated then ([], s, 0)
    else
      var (p, s1, w) := NextSomeStep(s);
      if w == 1 then ([p], s1, 1)
      else
        var (ps, s2, w2) := NextSomeRun(n - 1, s1);
        ([p] + ps, s2, w2)
  }

  /** Pending while the stream is pending, then resolved with the stream's
      item; no wake-up, and the stream is left just after that item. */
  lemma {:induction false} ResolvesWithNextItem<T>(k: nat, x: T, rest: seq<Poll<Option<T>>>)
    ensures NextSomeRun(k + 1, Fuse(Pendings<Option<T>>(k) + [Ready(Some(x))] + rest))
            == (Pendings<T>(k) + [Ready(x)], Fuse(rest), 0)
    decreases k
  {
    var polls := Pendings<Option<T>>(k) + [Ready(Some(x))] + rest;
    if k == 0 {
      assert polls == [Ready(Some(x))] + rest;
      assert NextSomeStep(Fuse(polls)) == (Ready(x), Fuse(rest), 0);
      var out: seq<Poll<T>> := [Ready(x)];
      assert Pendings<T>(0) + out == out + [];
    } else {
      assert polls[0] == Pending;
      assert polls[1..] == Pendings<Option<T>>(k - 1) + [Ready(Some(x))] + rest;
      ResolvesWithNextItem(k - 1, x, rest);
      var out := NextSomeRun(k, Fuse(polls[1..]));
      assert NextSomeRun(k + 1, Fuse(polls)) == ([Pending] + out.0, out.1, out.2);
      assert [Pending] + (Pendings<T>(k - 1) + [Ready(x)]) == Pendings<T>(k) + [Ready(x)];
    }
  }

  /** End-of-stream after any pendings: pending throughout, one wake-up, and
      the stream is terminated, so the future must not be polled again. */
  lemma {:induction false} WakesOnceAtEnd<T>(k: nat, n: nat, rest: seq<Poll<Option<T>>>)
    ensures NextSomeRun(k + 1 + n, Fuse(Pendings<Option<T>>(k) + [Ready(None)] + rest))
            == (Pendings<T>(k + 1), StreamScript(rest, true), 1)
    decreases k
  {
    var polls := Pendings<Option<T>>(k) + [Ready(None)] + rest;
    if k == 0 {
      assert polls == [Ready(None)] + rest;
      assert NextSomeStep(Fuse(polls)) == (Pending, StreamScript(rest, true), 1);
      assert Pendings<T>(1) == [Pending];
    } else {
      assert polls[0] == Pending;
      assert polls[1..] == Pendings<Option<T>>(k - 1) + [Ready(None)] + rest;
      WakesOnceAtEnd<T>(k - 1, n, rest);
      var out := NextSomeRun(k + n, Fuse(polls[1..]));
      assert NextSomeRun(k + 1 + n, Fuse(polls)) == ([Pending] + out.0, out.1, out.2);
      assert [Pending] + Pendings<T>(k) == Pendings<T>(k + 1);
    }
  }

  class SelectNextSome<T> {
    const stream: StreamHandle<T>

    /** `new`: borrows the stream. */
    constructor (stream: StreamHandle<T>)
      ensures this.stream == stream
    {
      this.stream := stream;
    }

    /** `is_terminated` is the borrowed stream's. */
    predicate IsTerminated()
      reads this, stream
    {
      stream.inner.terminated
    }

    /** `poll`: must not be called on a terminated stream. Advances the
        borrowed stream and, at end-of-stream, wakes the task once. */
    method Poll(cx: Context) returns (r: Poll<T>)
      requires !IsTerminated()
      modifies stream, cx
      ensures (r, stream.inner, cx.wakes - old(cx.wakes)) == NextSomeStep(old(stream.inner))
      ensures cx.wakes >= old(cx.wakes)
    {
      var (p, s') := stream.inner.PollNext();
      stream.inner := s';
      match p {
        case Pending =>
          r := Pending;
        case Ready(Some(item)) =>
          r := Ready(item);
        case Ready(None) =>
          cx.wakes := cx.wakes + 1;
          r := Pending;
      }
    }
  }
}
