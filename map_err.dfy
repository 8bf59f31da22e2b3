/** `MapErr` over a fallible stream: every error the stream produces is
    replaced by `f` of it; items, pending and end-of-stream pass through. The
    wrapped task's sink side, if it has one, is forwarded untouched. */
module TryMapErr {
  import opened Task

  /** The error-mapped poll: `hist` is every error `f` was called on before,
      since `f` is an `FnMut` whose answer may depend on them. */
  function MapErrPoll<T, E, E2>(p: Poll<Option<Result<T, E>>>, f: (seq<E>, E) -> E2, hist: seq<E>)
    : (r: (Poll<Option<Result<T, E2>>>, seq<E>))
    ensures p.Pending? ==> r == (Pending, hist)
    ensures Ends(p) ==> r == (Ready(None), hist)
    ensures Yields(p) && p.value.value.Ok? ==> r == (Ready(Some(Ok(p.value.value.value))), hist)
    ensures Yields(p) && p.value.value.Err? ==>
              r == (Ready(Some(Err(f(hist, p.value.value.error)))), hist + [p.value.value.error])
  {
    match p
    case Pending => (Pending, hist)
    case Ready(opt) =>
      match opt
      case None => (Ready(None), hist)
      case Some(res) =>
        match res
        case Ok(x) => (Ready(Some(Ok(x))), hist)
        case Err(e) => (Ready(Some(Err(f(hist, e)))), hist + [e])
  }

  datatype MapErr<T, !E, E2, I, SE> = MapErr(stream: Duplex<Result<T, E>, I, SE>, f: (seq<E>, E) -> E2, fHistory: seq<E>) {

    /** `is_terminated` is the inner stream's. */
    predicate IsTerminated() {
      stream.stream.terminated
    }

    /** `poll_next`: polls the inner stream once and maps its answer. */
    function PollNext(): (r: (Poll<Option<Result<T, E2>>>, MapErr<T, E, E2, I, SE>))
      ensures var (p, d) := stream.PollNext();
              r.0 == MapErrPoll(p, f, fHistory).0
              && r.1 == MapErr(d, f, MapErrPoll(p, f, fHistory).1)
    {
      var (p, d) := stream.PollNext();
      var (q, hist) := MapErrPoll(p, f, fHistory);
      (q, MapErr(d, f, hist))
    }

    /** The forwarded sink: each call goes to the wrapped task and its answer,
        error included, is returned as it is. */
    function ApplySinkOp(op: SinkOp<I>): (r: (SinkOutcome<SE>, MapErr<T, E, E2, I, SE>))
      ensures r.0 == ApplySink(stream, op).0
      ensures r.1 == this.(stream := ApplySink(stream, op).1)
    {
      match op
      case ReadyOp => var (p, d) := stream.PollReady(); (Polled(p), this.(stream := d))
      case SendOp(item) => var (res, d) := stream.StartSend(item); (Sent(res), this.(stream := d))
      case FlushOp => var (p, d) := stream.PollFlush(); (Polled(p), this.(stream := d))
      case CloseOp => var (p, d) := stream.PollClose(); (Polled(p), this.(stream := d))
    }
  }

  /** `MapErr::new`. */
  function New<T, E, E2, I, SE>(stream: Duplex<Result<T, E>, I, SE>, f: (seq<E>, E) -> E2): (m: MapErr<T, E, E2, I, SE>)
    ensures m.stream == stream && m.f == f && m.fHistory == []
    ensures m.IsTerminated() == stream.stream.terminated
  {
    MapErr(stream, f, [])
  }

  /** `n` polls of a stream on its own. */
  function StreamRun<X>(n: nat, s: StreamScript<X>): (r: (seq<Poll<Option<X>>>, StreamScript<X>))
    ensures |r.0| == n
  {
    if n == 0 then ([], s)
    else
      var (p, s1) := s.PollNext();
      var (ps, s2) := StreamRun(n - 1, s1);
      ([p] + ps, s2)
  }

  /** `n` polls of the adapter. */
  function PollRun<T, E, E2, I, SE>(n: nat, m: MapErr<T, E, E2, I, SE>): (r: (seq<Poll<Option<Result<T, E2>>>>, MapErr<T, E, E2, I, SE>))
    ensures |r.0| == n
  {
    if n == 0 then ([], m)
    else
      var (p, m1) := m.PollNext();
      var (ps, m2) := PollRun(n - 1, m1);
      ([p] + ps, m2)
  }

  /** The errors among a stream's answers, in order. */
  function Errors<T, E>(ps: seq<Poll<Option<Result<T, E>>>>): seq<E>
  {
    if ps == [] then []
    else (if Yields(ps[0]) && ps[0].value.value.Err? then [ps[0].value.value.error] else []) + Errors(ps[1..])
  }

  /** A mapped answer `q` matches the inner answer `p`: the same kind of
      answer, the very same item when it is a success. */
  ghost predicate Corresponds<T, E, E2>(q: Poll<Option<Result<T, E2>>>, p: Poll<Option<Result<T, E>>>) {
    || (p.Pending? && q.Pending?)
    || (Ends(p) && Ends(q))
    || (Yields(p) && p.value.value.Ok? && q == Ready(Some(Ok(p.value.value.value))))
    || (Yields(p) && p.value.value.Err? && Yields(q) && q.value.value.Err?)
  }

  /** Answer by answer, `outs` matches `inner`. */
  ghost predicate AllCorrespond<T, E, E2>(outs: seq<Poll<Option<Result<T, E2>>>>, inner: seq<Poll<Option<Result<T, E>>>>) {
    |outs| == |inner| && forall i :: 0 <= i < |inner| ==> Corresponds(outs[i], inner[i])
  }

  /** Every error answer of `outs` is `f` of the matching inner error, called
      with `hist` and the inner errors before it. */
  ghost predicate CalledWithHistory<T, E, E2>(f: (seq<E>, E) -> E2, hist: seq<E>,
                                              outs: seq<Poll<Option<Result<T, E2>>>>, inner: seq<Poll<Option<Result<T, E>>>>) {
    && |outs| == |inner|
    && forall i :: 0 <= i < |inner| && Yields(inner[i]) && inner[i].value.value.Err? ==>
         outs[i] == Ready(Some(Err(f(hist + Errors(inner[..i]), inner[i].value.value.error))))
  }

  lemma AllCorrespondCons<T, E, E2>(q: Poll<Option<Result<T, E2>>>, p: Poll<Option<Result<T, E>>>,
                                    outs: seq<Poll<Option<Result<T, E2>>>>, inner: seq<Poll<Option<Result<T, E>>>>)
    requires Corresponds(q, p) && AllCorrespond(outs, inner)
    ensures AllCorrespond([q] + outs, [p] + inner)
  {
  }

  /** The errors of `[p] + inner` are those of `p`, then those of `inner`. */
  lemma ErrorsCons<T, E>(p: Poll<Option<Result<T, E>>>, inner: seq<Poll<Option<Result<T, E>>>>)
    ensures Errors([p] + inner) == Errors([p]) + Errors(inner)
    ensures Errors([p]) == if Yields(p) && p.value.value.Err? then [p.value.value.error] else []
  {
  }

  lemma CalledWithHistoryCons<T, E, E2>(f: (seq<E>, E) -> E2, hist: seq<E>, q: Poll<Option<Result<T, E2>>>, p: Poll<Option<Result<T, E>>>,
                                        outs: seq<Poll<Option<Result<T, E2>>>>, inner: seq<Poll<Option<Result<T, E>>>>)
    requires Yields(p) && p.value.value.Err? ==> q == Ready(Some(Err(f(hist, p.value.value.error))))
    requires CalledWithHistory(f, hist + Errors([p]), outs, inner)
    ensures CalledWithHistory(f, hist, [q] + outs, [p] + inner)
  {
    var all := [p] + inner;
    forall i | 0 <= i < |all| && Yields(all[i]) && all[i].value.value.Err?
      ensures ([q] + outs)[i] == Ready(Some(Err(f(hist + Errors(all[..i]), all[i].value.value.error))))
    {
      if i == 0 {
        assert all[..0] == [];
        assert hist + Errors(all[..0]) == hist;
      } else {
        assert ([q] + outs)[i] == outs[i - 1] && all[i] == inner[i - 1];
        assert all[..i] == [p] + inner[..i - 1];
        ErrorsCons(p, inner[..i - 1]);
        assert hist + Errors(all[..i]) == (hist + Errors([p])) + Errors(inner[..i - 1]);
      }
    }
  }

  /** After `n` polls of `m`: the inner stream advanced exactly as `n` polls
      of it alone would, the recorded history grown by exactly the inner
      errors, everything else as it was, and the answers matching the inner
      stream's one by one. */
  ghost predicate RunMatches<T, E, E2, I, SE>(n: nat, m: MapErr<T, E, E2, I, SE>) {
    var inner := StreamRun(n, m.stream.stream);
    && PollRun(n, m).1 == m.(stream := m.stream.(stream := inner.1), fHistory := m.fHistory + Errors(inner.0))
    && AllCorrespond(PollRun(n, m).0, inner.0)
  }

  /** One poll in front of `n - 1` matching polls. */
  lemma RunMatchesStep<T, E, E2, I, SE>(n: nat, m: MapErr<T, E, E2, I, SE>)
    requires n > 0 && RunMatches(n - 1, m.PollNext().1)
    ensures RunMatches(n, m)
  {
  }

  /** Over any number of polls the adapter answers exactly what the inner
      stream answers, each success unchanged, and `f` is called once for each
      inner error, in order, and never otherwise; the sink side is untouched. */
  lemma {:induction false} MapsEachErrorOnce<T, E, E2, I, SE>(n: nat, m: MapErr<T, E, E2, I, SE>)
    ensures RunMatches(n, m)
  {
    if n > 0 {
      MapsEachErrorOnce(n - 1, m.PollNext().1);
      RunMatchesStep(n, m);
    }
  }

  /** The error answers in particular: the adapter's answer to the `i`-th
      poll, when the inner stream gave an error, is `f` of that error, called
      with the errors of the polls before it as its history. */
  lemma {:induction false} MapsErrorWithHistory<T, E, E2, I, SE>(n: nat, m: MapErr<T, E, E2, I, SE>)
    ensures CalledWithHistory(m.f, m.fHistory, PollRun(n, m).0, StreamRun(n, m.stream.stream).0)
  {
    if n > 0 {
      var m1 := m.PollNext().1;
      var p := m.stream.stream.PollNext().0;
      MapsErrorWithHistory(n - 1, m1);
      ErrorsCons(p, []);
      assert m1.stream.stream == m.stream.stream.PollNext().1 && m1.f == m.f;
      assert m1.fHistory == m.fHistory + Errors([p]);
      CalledWithHistoryCons(m.f, m.fHistory, m.PollNext().0, p, PollRun(n - 1, m1).0, StreamRun(n - 1, m1.stream.stream).0);
      assert PollRun(n, m).0 == [m.PollNext().0] + PollRun(n - 1, m1).0;
      assert StreamRun(n, m.stream.stream).0 == [p] + StreamRun(n - 1, m1.stream.stream).0;
    }
  }

  /** `n` sink calls on the adapter. */
  function SinkRun<T, E, E2, I, SE>(m: MapErr<T, E, E2, I, SE>, ops: seq<SinkOp<I>>): (r: (seq<SinkOutcome<SE>>, MapErr<T, E, E2, I, SE>))
    ensures |r.0| == |ops|
    decreases |ops|
  {
    if ops == [] then ([], m)
    else
      var (o, m1) := m.ApplySinkOp(ops[0]);
      var (os, m2) := SinkRun(m1, ops[1..]);
      ([o] + os, m2)
  }

  /** Any sequence of sink calls on the adapter answers what the wrapped task
      answers, with the sink error unmapped, and never calls `f`. */
  lemma {:induction false} ForwardsSinkVerbatim<T, E, E2, I, SE>(m: MapErr<T, E, E2, I, SE>, ops: seq<SinkOp<I>>)
    ensures SinkRun(m, ops) == (RunSink(m.stream, ops).0, m.(stream := RunSink(m.stream, ops).1))
    decreases |ops|
  {
    if ops != [] {
      var (o, m1) := m.ApplySinkOp(ops[0]);
      ForwardsSinkVerbatim(m1, ops[1..]);
    }
  }
}
