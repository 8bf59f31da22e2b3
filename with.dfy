/** The `With` sink transformer: every item accepted by `start_send` is turned
    by the user function `f` into a conversion future, whose successful output
    is forwarded to the inner sink. At most one item is in flight, held in a
    three-state tagged union. */
module SinkWith {
  import opened Task

  /** The conversion future that `f` returns; its output is the converted item
      or the adapter's error. */
  type Conversion<Item, E> = FutureScript<Result<Item, E>>

  datatype State<Fut, T> = Empty | Process(fut: Fut) | Buffered(item: T)

  /** The inner sink's capabilities other than `start_send` are untouched,
      and so are its stream side. */
  ghost predicate OnlySendSide<T, Item, SE>(before: Duplex<T, Item, SE>, after: Duplex<T, Item, SE>) {
    && after.stream == before.stream
    && after.sink.readyPolls == before.sink.readyPolls
    && after.sink.flushPolls == before.sink.flushPolls
    && after.sink.closePolls == before.sink.closePolls
  }

  /** The private `poll` that drives the pipeline one step; `into` is the
      conversion of the inner sink's error into the adapter's error. */
  function DriveStep<T, Item, SE, E>(state: State<Conversion<Item, E>, Item>, sink: Duplex<T, Item, SE>, into: SE -> E)
    : (r: (Poll<Result<(), E>>, State<Conversion<Item, E>, Item>, Duplex<T, Item, SE>))
    // a ready-ok answer leaves no item in flight, and no step ever leaves one buffered
    ensures ReadyOk(r.0) ==> r.1 == Empty
    ensures r.1.Empty? || r.1.Process?
    // with nothing in flight the inner sink is not touched
    ensures state.Empty? ==> r == (Ready(Ok(())), Empty, sink)
    // a pending or failed conversion keeps the conversion in flight and does not touch the sink
    ensures state.Process? && state.fut.Poll().0.Pending? ==> r == (Pending, Process(state.fut.Poll().1), sink)
    ensures state.Process? && state.fut.Poll().0.Ready? && state.fut.Poll().0.value.Err? ==>
              r == (Ready(Err(state.fut.Poll().0.value.error)), Process(state.fut.Poll().1), sink)
    // a converted or buffered item is handed to the inner sink, the state is
    // emptied whatever the sink answers, and the sink's error is converted
    ensures state.Process? && state.fut.Poll().0.Ready? && state.fut.Poll().0.value.Ok? ==>
              var sent := sink.StartSend(state.fut.Poll().0.value.value);
              r == (Ready(sent.0.MapError(into)), Empty, sent.1)
    ensures state.Buffered? ==>
              var sent := sink.StartSend(state.item);
              r == (Ready(sent.0.MapError(into)), Empty, sent.1)
    // the inner `poll_ready` is never consulted
    ensures OnlySendSide(sink, r.2)
  {
    match state
    case Empty => (Ready(Ok(())), Empty, sink)
    case Process(fut) =>
      var (p, fut') := fut.Poll();
      if p.Pending? then (Pending, Process(fut'), sink)
      else if p.value.Err? then (Ready(Err(p.value.error)), Process(fut'), sink)
      else
        var (res, sink') := sink.StartSend(p.value.value);
        (Ready(res.MapError(into)), Empty, sink')
    case Buffered(item) =>
      var (res, sink') := sink.StartSend(item);
      (Ready(res.MapError(into)), Empty, sink')
  }

  datatype Finish = Flush | Close

  /** `poll_flush` and `poll_close`: drive the pipeline, and only once that is
      ready-ok ask the inner sink to flush or close. */
  function FinishStep<T, Item, SE, E>(state: State<Conversion<Item, E>, Item>, sink: Duplex<T, Item, SE>, into: SE -> E, op: Finish)
    : (r: (Poll<Result<(), E>>, State<Conversion<Item, E>, Item>, Duplex<T, Item, SE>))
    // a pending or failing drive is returned as it is, and the inner sink is not asked
    ensures !ReadyOk(DriveStep(state, sink, into).0) ==> r == DriveStep(state, sink, into)
    ensures ReadyOk(DriveStep(state, sink, into).0) ==>
              var drained := DriveStep(state, sink, into).2;
              var fin := if op == Flush then drained.PollFlush() else drained.PollClose();
              r == (MapPollError(fin.0, into), Empty, fin.1)
  {
    var (d, st, s) := DriveStep(state, sink, into);
    if !ReadyOk(d) then (d, st, s)
    else
      var (p, s') := if op == Flush then s.PollFlush() else s.PollClose();
      (MapPollError(p, into), st, s')
  }

  /** `n` consecutive `poll_ready` calls: what each answered, and the state
      and the inner sink afterwards. */
  function DriveRun<T, Item, SE, E>(n: nat, state: State<Conversion<Item, E>, Item>, sink: Duplex<T, Item, SE>, into: SE -> E)
    : (r: (seq<Poll<Result<(), E>>>, State<Conversion<Item, E>, Item>, Duplex<T, Item, SE>))
    ensures |r.0| == n
  {
    if n == 0 then ([], state, sink)
    else
      var (p, st, s) := DriveStep(state, sink, into);
      var (ps, st', s') := DriveRun(n - 1, st, s, into);
      ([p] + ps, st', s')
  }

  function Repeat<X>(x: X, n: nat): (s: seq<X>)
    ensures |s| == n && forall i :: 0 <= i < n ==> s[i] == x
  {
    seq(n, _ => x)
  }

  /** A conversion that is pending `k` times and then yields `item` makes
      `poll_ready` answer pending `k` times; the next call hands exactly that
      item to the inner sink, empties the state and reports the sink's answer. */
  lemma {:induction false} ConversionThenDelivery<T, Item, SE, E>(
    k: nat, fut: Conversion<Item, E>, item: Item, rest: seq<Poll<Result<Item, E>>>, sink: Duplex<T, Item, SE>, into: SE -> E)
    requires fut.polls == Repeat(Pending, k) + [Ready(Ok(item))] + rest
    ensures var sent := sink.StartSend(item);
            DriveRun(k + 1, Process(fut), sink, into)
              == (Repeat(Pending, k) + [Ready(sent.0.MapError(into))], Empty, sent.1)
  {
    var sent := sink.StartSend(item);
    if k == 0 {
      assert fut.Poll().0 == Ready(Ok(item));
      assert DriveStep(Process(fut), sink, into) == (Ready(sent.0.MapError(into)), Empty, sent.1);
      assert DriveRun(0, Empty, sent.1, into) == ([], Empty, sent.1);
      assert DriveRun(1, Process(fut), sink, into) == ([Ready(sent.0.MapError(into))] + [], Empty, sent.1);
      assert Repeat<Poll<Result<(), E>>>(Pending, 0) + [Ready(sent.0.MapError(into))] == [Ready(sent.0.MapError(into))] + [];
    } else {
      var fut' := FutureScript(fut.polls[1..]);
      assert fut.polls[0] == Pending;
      assert fut'.polls == Repeat(Pending, k - 1) + [Ready(Ok(item))] + rest;
      assert DriveStep(Process(fut), sink, into) == (Pending, Process(fut'), sink);
      ConversionThenDelivery(k - 1, fut', item, rest, sink, into);
      var tail := DriveRun(k, Process(fut'), sink, into);
      assert DriveRun(k + 1, Process(fut), sink, into) == ([Pending] + tail.0, tail.1, tail.2);
      assert [Pending] + Repeat<Poll<Result<(), E>>>(Pending, k - 1) == Repeat(Pending, k);
      assert [Pending] + (Repeat<Poll<Result<(), E>>>(Pending, k - 1) + [Ready(sent.0.MapError(into))])
          == Repeat(Pending, k) + [Ready(sent.0.MapError(into))];
    }
  }

  /** With nothing in flight, any number of `poll_ready` calls answer ready-ok
      and change nothing. */
  lemma {:induction false} EmptyStaysReady<T, Item, SE, E>(n: nat, sink: Duplex<T, Item, SE>, into: SE -> E)
    ensures DriveRun(n, Empty, sink, into) == (Repeat(Ready(Ok(())), n), Empty, sink)
  {
    if n > 0 {
      EmptyStaysReady(n - 1, sink, into);
      assert [Ready(Ok(()))] + Repeat<Poll<Result<(), E>>>(Ready(Ok(())), n - 1) == Repeat(Ready(Ok(())), n);
    }
  }

  /** However many times `poll_ready` is called, at most one item reaches the
      inner sink, the inner `poll_ready` is never consulted, and no item stays
      buffered. */
  lemma {:induction false} AtMostOneDelivered<T, Item, SE, E>(
    n: nat, state: State<Conversion<Item, E>, Item>, sink: Duplex<T, Item, SE>, into: SE -> E)
    ensures var r := DriveRun(n, state, sink, into);
            && OnlySendSide(sink, r.2)
            && |sink.sink.received| <= |r.2.sink.received| <= |sink.sink.received| + 1
            && r.2.sink.received[..|sink.sink.received|] == sink.sink.received
            && (n > 0 ==> !r.1.Buffered?)
  {
    if n > 0 {
      var (p, st, s) := DriveStep(state, sink, into);
      AtMostOneDelivered(n - 1, st, s, into);
      if st.Empty? {
        EmptyStaysReady(n - 1, s, into);
      } else {
        assert s == sink;
      }
    }
  }

  class With<T, Item, SE, U, E> {
    var sink: Duplex<T, Item, SE>
    /** `f` is an `FnMut`: its answer may depend on every argument it was
        given before, recorded in `fHistory`. */
    const f: (seq<U>, U) -> Conversion<Item, E>
    var fHistory: seq<U>
    /** `Into<E>` for the inner sink's error type (from `E: From<SinkError>`). */
    const into: SE -> E
    var state: State<Conversion<Item, E>, Item>

    /** `With::new`: nothing is in flight. */
    constructor (sink: Duplex<T, Item, SE>, f: (seq<U>, U) -> Conversion<Item, E>, into: SE -> E)
      ensures this.sink == sink && this.f == f && this.into == into
      ensures state == Empty && fHistory == []
    {
      this.sink := sink;
      this.f := f;
      this.into := into;
      fHistory := [];
      state := Empty;
    }

    /** The private `poll`. */
    method Drive() returns (r: Poll<Result<(), E>>)
      modifies this
      ensures (r, state, sink) == DriveStep(old(state), old(sink), into)
      ensures fHistory == old(fHistory)
    {
      var buffered: Option<Item> := None;
      match state {
        case Empty =>
          return Ready(Ok(()));
        case Process(fut) =>
          var (p, fut') := fut.Poll();
          state := Process(fut');
          if p.Pending? {
            return Pending;
          } else if p.value.Err? {
            return Ready(Err(p.value.error));
          }
          buffered := Some(p.value.value);
        case Buffered(_) =>
      }
      if buffered.Some? {
        state := Buffered(buffered.value);
      }
      var taken := state;
      state := Empty;
      if taken.Buffered? {
        var (res, sink') := sink.StartSend(taken.item);
        sink := sink';
        r := Ready(res.MapError(into));
      } else {
        assert false;
      }
    }

    method PollReady() returns (r: Poll<Result<(), E>>)
      modifies this
      ensures (r, state, sink) == DriveStep(old(state), old(sink), into)
      ensures fHistory == old(fHistory)
    {
      r := Drive();
    }

    /** Calls `f` once on `u` and puts its conversion in flight, replacing
        whatever state there was. */
    method StartSend(u: U) returns (r: Result<(), E>)
      modifies this
      ensures state == Process(f(old(fHistory), u)) && fHistory == old(fHistory) + [u]
      ensures sink == old(sink) && r == Ok(())
    {
      var fut := f(fHistory, u);
      fHistory := fHistory + [u];
      state := Process(fut);
      r := Ok(());
    }

    method PollFlush() returns (r: Poll<Result<(), E>>)
      modifies this
      ensures (r, state, sink) == FinishStep(old(state), old(sink), into, Flush)
      ensures fHistory == old(fHistory)
    {
      r := Drive();
      if !ReadyOk(r) {
        return;
      }
      var (p, sink') := sink.PollFlush();
      sink := sink';
      r := MapPollError(p, into);
    }

    method PollClose() returns (r: Poll<Result<(), E>>)
      modifies this
      ensures (r, state, sink) == FinishStep(old(state), old(sink), into, Close)
      ensures fHistory == old(fHistory)
    {
      r := Drive();
      if !ReadyOk(r) {
        return;
      }
      var (p, sink') := sink.PollClose();
      sink := sink';
      r := MapPollError(p, into);
    }

    /** The forwarded stream side of the inner sink. */
    method PollNext() returns (r: Poll<Option<T>>)
      modifies this
      ensures (r, sink) == old(sink).PollNext()
      ensures state == old(state) && fHistory == old(fHistory)
    {
      var (p, sink') := sink.PollNext();
      sink := sink';
      r := p;
    }

    function GetRef(): (s: Duplex<T, Item, SE>)
      reads this
      ensures s == sink
    {
      sink
    }

    /** `get_mut`: the caller changes the inner sink through the exclusive
        reference, here by the update `g`; nothing else changes. */
    method GetMut(g: Duplex<T, Item, SE> -> Duplex<T, Item, SE>)
      modifies this
      ensures sink == g(old(sink))
      ensures state == old(state) && fHistory == old(fHistory)
    {
      sink := g(sink);
    }

    /** Gives the inner sink back; an item in flight is dropped with the adapter. */
    method IntoInner() returns (s: Duplex<T, Item, SE>)
      ensures s == sink
    {
      s := sink;
    }
  }
}
