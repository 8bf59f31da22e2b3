/** `SinkErrInto`: a sink whose errors are converted by `Into`, built as the
    error-mapping sink adapter `SinkMapErr` with `Into::into` as its
    function. The wrapped task's stream side is forwarded untouched. */
module SinkErrIntoAdapter {
  import opened Task

  /** `SinkMapErr` (outside this model), by its contract: every
      sink call goes to the wrapped sink and the error of its answer is
      converted by `f`. */
  datatype SinkMapErr<T, I, !SE, E> = SinkMapErr(sink: Duplex<T, I, SE>, f: SE -> E) {

    function ApplySinkOp(op: SinkOp<I>): (r: (SinkOutcome<E>, SinkMapErr<T, I, SE, E>))
      ensures r.0 == MapOutcomeError(ApplySink(sink, op).0, f)
      ensures r.1 == SinkMapErr(ApplySink(sink, op).1, f)
    {
      var (o, d) := ApplySink(sink, op);
      (MapOutcomeError(o, f), SinkMapErr(d, f))
    }

    function PollNext(): (r: (Poll<Option<T>>, SinkMapErr<T, I, SE, E>))
      ensures r == (sink.PollNext().0, SinkMapErr(sink.PollNext().1, f))
    {
      var (p, d) := sink.PollNext();
      (p, SinkMapErr(d, f))
    }
  }

  datatype SinkErrInto<T, I, !SE, E> = SinkErrInto(sink: SinkMapErr<T, I, SE, E>) {

    /** `get_ref` and `into_inner`: the wrapped sink itself. */
    function GetRef(): (s: Duplex<T, I, SE>)
      ensures s == sink.sink
    {
      sink.sink
    }

    /** `get_mut`: the caller changes the wrapped sink through the exclusive
        reference, here by the update `g`; the conversion stays. */
    function GetMut(g: Duplex<T, I, SE> -> Duplex<T, I, SE>): (e: SinkErrInto<T, I, SE, E>)
      ensures e.GetRef() == g(GetRef()) && e.sink.f == sink.f
    {
      SinkErrInto(sink.(sink := g(sink.sink)))
    }

    /** The delegated `Sink` calls. */
    function ApplySinkOp(op: SinkOp<I>): (r: (SinkOutcome<E>, SinkErrInto<T, I, SE, E>))
      ensures r.0 == MapOutcomeError(ApplySink(sink.sink, op).0, sink.f)
      ensures r.1.GetRef() == ApplySink(sink.sink, op).1 && r.1.sink.f == sink.f
    {
      var (o, s) := sink.ApplySinkOp(op);
      (o, SinkErrInto(s))
    }

    /** The forwarded `poll_next`. */
    function PollNext(): (r: (Poll<Option<T>>, SinkErrInto<T, I, SE, E>))
      ensures r.0 == GetRef().PollNext().0
      ensures r.1.GetRef() == GetRef().PollNext().1 && r.1.sink.f == sink.f
    {
      var (p, s) := sink.PollNext();
      (p, SinkErrInto(s))
    }
  }

  /** `SinkErrInto::new`: the sink wrapped in an error map whose function is
      the `Into` conversion. */
  function New<T, I, SE, E>(sink: Duplex<T, I, SE>, into: SE -> E): (e: SinkErrInto<T, I, SE, E>)
    ensures e.GetRef() == sink && e.sink.f == into
  {
    SinkErrInto(SinkMapErr(sink, into))
  }

  /** Converts the error of each answer. */
  function MapOutcomes<SE, E>(os: seq<SinkOutcome<SE>>, f: SE -> E): (r: seq<SinkOutcome<E>>)
    ensures |r| == |os| && forall i :: 0 <= i < |os| ==> r[i] == MapOutcomeError(os[i], f)
  {
    seq(|os|, i requires 0 <= i < |os| => MapOutcomeError(os[i], f))
  }

  /** A sequence of sink calls on the adapter: one answer per call, a send
      result exactly for each send; the conversion stays, and the stream side
      of the wrapped task is left alone. */
  function SinkRun<T, I, SE, E>(e: SinkErrInto<T, I, SE, E>, ops: seq<SinkOp<I>>): (r: (seq<SinkOutcome<E>>, SinkErrInto<T, I, SE, E>))
    ensures |r.0| == |ops| && forall i :: 0 <= i < |ops| ==> (r.0[i].Sent? <==> ops[i].SendOp?)
    ensures r.1.sink.f == e.sink.f && r.1.GetRef().stream == e.GetRef().stream
    decreases |ops|
  {
    if ops == [] then ([], e)
    else
      var (o, e1) := e.ApplySinkOp(ops[0]);
      var (os, e2) := SinkRun(e1, ops[1..]);
      assert forall i :: 0 < i < |ops| ==> ([o] + os)[i] == os[i - 1] && ops[i] == ops[1..][i - 1];
      ([o] + os, e2)
  }

  /** Any sequence of sink calls on `sink_err_into(s)` does to `s` exactly
      what the same calls on `s` do, answers what `s` answers with every error
      converted by `into`, and `into_inner` then gives back that very sink. */
  lemma {:induction false} DelegatesAndConverts<T, I, SE, E>(s: Duplex<T, I, SE>, into: SE -> E, ops: seq<SinkOp<I>>)
    ensures var (os, e) := SinkRun(New(s, into), ops);
            && os == MapOutcomes(RunSink(s, ops).0, into)
            && e == New(RunSink(s, ops).1, into)
    decreases |ops|
  {
    if ops != [] {
      var (o, s1) := ApplySink(s, ops[0]);
      var (o', e1) := New(s, into).ApplySinkOp(ops[0]);
      assert e1 == New(s1, into);
      DelegatesAndConverts(s1, into, ops[1..]);
      var (os1, s2) := RunSink(s1, ops[1..]);
      assert MapOutcomes([o] + os1, into) == [MapOutcomeError(o, into)] + MapOutcomes(os1, into);
    }
  }
}
