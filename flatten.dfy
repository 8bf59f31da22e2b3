/** `Flatten` of the older task API: a future whose success is itself
    convertible into a future resolves with the result of that second future.
    It runs on `Chain`, a two-stage state machine given here by its contract. */
module FlattenFuture {
  import opened Task

  /** `Chain` (outside this model), by its contract: the first
      stage with the data handed to the continuation, the second stage, and
      the state after the chain has resolved from its first stage. */
  datatype Chain<TA, EA, TB, EB, C> =
    | First(a: LegacyFuture<TA, EA>, data: C)
    | Second(b: LegacyFuture<TB, EB>)
    | Done

  /** What a continuation may answer: resolve with a success, switch to a
      second future, or resolve with an error. */
  type Next<TB, EB> = Result<Result<TB, LegacyFuture<TB, EB>>, EB>

  /** `Chain::poll` with the continuation `k`. While the first future is not
      ready nothing else happens; once it resolves, `k` decides, and a second
      future chosen by `k` is polled at once. A chain that has resolved from its
      first stage must not be polled again. */
  function ChainPoll<TA, EA, TB, EB, C>(ch: Chain<TA, EA, TB, EB, C>, k: (Result<TA, EA>, C) -> Next<TB, EB>)
    : (r: (Option<Result<TB, EB>>, Chain<TA, EA, TB, EB, C>))
    requires !ch.Done?
    // the first future not ready: the same stage, with the first future advanced
    ensures ch.First? && ch.a.Poll().0.None? ==> r == (None, First(ch.a.Poll().1, ch.data))
    // the continuation resolves: resolved with its answer, and nothing is left
    ensures ch.First? && ch.a.Poll().0.Some? && !k(ch.a.Poll().0.value, ch.data).Ok? ==>
              r == (Some(Err(k(ch.a.Poll().0.value, ch.data).error)), Done)
    ensures ch.First? && ch.a.Poll().0.Some? && k(ch.a.Poll().0.value, ch.data).Ok?
            && k(ch.a.Poll().0.value, ch.data).value.Ok? ==>
              r == (Some(Ok(k(ch.a.Poll().0.value, ch.data).value.value)), Done)
    // the continuation names a second future: it is polled now and becomes the stage
    ensures ch.First? && ch.a.Poll().0.Some? && k(ch.a.Poll().0.value, ch.data).Ok?
            && k(ch.a.Poll().0.value, ch.data).value.Err? ==>
              var b := k(ch.a.Poll().0.value, ch.data).value.error;
              r == (b.Poll().0, Second(b.Poll().1))
    // the second stage answers what its future answers
    ensures ch.Second? ==> r == (ch.b.Poll().0, Second(ch.b.Poll().1))
    // the chain is done exactly when it resolved from its first stage
    ensures r.1.Done? ==> ch.First? && r.0.Some?
  {
    match ch
    case First(a, c) =>
      var (p, a') := a.Poll();
      (match p
       case None => (None, First(a', c))
       case Some(res) =>
         match k(res, c)
         case Ok(Ok(v)) => (Some(Ok(v)), Done)
         case Err(e) => (Some(Err(e)), Done)
         case Ok(Err(b)) =>
           var (q, b') := b.Poll();
           (q, Second(b')))
    case Second(b) =>
      var (q, b') := b.Poll();
      (q, Second(b'))
  }

  /** `Chain::schedule`: the wake handle goes to the future of the current
      stage; a resolved chain has none. */
  function ChainSchedule<TA, EA, TB, EB, C>(ch: Chain<TA, EA, TB, EB, C>, w: Wake): (r: Chain<TA, EA, TB, EB, C>)
    ensures ch.First? ==> r == First(ch.a.Schedule(w), ch.data)
    ensures ch.Second? ==> r == Second(ch.b.Schedule(w))
    ensures ch.Done? ==> r == Done
  {
    match ch
    case First(a, c) => First(a.Schedule(w), c)
    case Second(b) => Second(b.Schedule(w))
    case Done => Done
  }

  /** The continuation `Flatten` hands to the chain: an outer error is
      converted by `From` and resolves the chain; an outer success is turned
      into the second future. It never resolves with a success itself. */
  function Continue<TA, EA, TB, EB>(res: Result<TA, EA>, into: TA -> LegacyFuture<TB, EB>, from: EA -> EB)
    : (r: Next<TB, EB>)
    ensures r.Err? <==> res.Err?
    ensures res.Err? ==> r.error == from(res.error)
    ensures res.Ok? ==> r.Ok? && r.value.Err? && r.value.error == into(res.value)
  {
    match res
    case Err(e) => Err(from(e))
    case Ok(x) => Ok(Err(into(x)))
  }

  /** The continuation as the chain receives it, with unit data. */
  function Cont<TA, EA, TB, EB>(into: TA -> LegacyFuture<TB, EB>, from: EA -> EB): (Result<TA, EA>, ()) -> Next<TB, EB>
  {
    (res, u) => Continue(res, into, from)
  }

  /** `Flatten::new` as a value: the outer future is the first stage, with
      unit data. */
  function NewChain<TA, EA, TB, EB>(future: LegacyFuture<TA, EA>): (ch: Chain<TA, EA, TB, EB, ()>)
    ensures ch.First? && ch.a == future
  {
    First(future, ())
  }

  /** The script of a future that is not ready for `n` polls. */
  function Nones<X>(n: nat): (s: seq<Option<X>>)
    ensures |s| == n && forall i :: 0 <= i < n ==> s[i].None?
  {
    seq(n, i => None)
  }

  /** `n` polls of a flatten future, stopping early once it is done. */
  function FlattenRun<TA, EA, TB, EB>(n: nat, ch: Chain<TA, EA, TB, EB, ()>, into: TA -> LegacyFuture<TB, EB>, from: EA -> EB)
    : (r: (seq<Option<Result<TB, EB>>>, Chain<TA, EA, TB, EB, ()>))
    ensures |r.0| <= n
  {
    if n == 0 || ch.Done? then ([], ch)
    else
      var (p, ch1) := ChainPoll(ch, Cont(into, from));
      var (ps, ch2) := FlattenRun(n - 1, ch1, into, from);
      ([p] + ps, ch2)
  }

  /** A run stops early only at resolution: a resolved chain is never
      polled, a run gives fewer answers than polls only once the chain has
      resolved, and the chain resolves only with a ready answer, the last one
      given. */
  lemma {:induction false} StopsOnlyWhenResolved<TA, EA, TB, EB>(n: nat, ch: Chain<TA, EA, TB, EB, ()>,
                                                                into: TA -> LegacyFuture<TB, EB>, from: EA -> EB)
    ensures var r := FlattenRun(n, ch, into, from);
            && (ch.Done? ==> r == ([], ch))
            && (|r.0| < n ==> r.1.Done?)
            && (r.1.Done? && !ch.Done? ==> |r.0| > 0 && r.0[|r.0| - 1].Some?)
    decreases n
  {
    if n > 0 && !ch.Done? {
      var step := ChainPoll(ch, Cont(into, from));
      StopsOnlyWhenResolved(n - 1, step.1, into, from);
      var rest := FlattenRun(n - 1, step.1, into, from);
      assert FlattenRun(n, ch, into, from) == ([step.0] + rest.0, rest.1);
      if rest.0 != [] {
        assert ([step.0] + rest.0)[|rest.0|] == rest.0[|rest.0| - 1];
      }
    }
  }

  /** A run whose first poll finds the outer future not ready: not ready,
      and the rest of the run goes on from the outer future's next answer. */
  lemma FirstWaits<TA, EA, TB, EB>(m: nat, polls: seq<Option<Result<TA, EA>>>, sch: seq<Wake>,
                                   into: TA -> LegacyFuture<TB, EB>, from: EA -> EB)
    requires m > 0 && polls != [] && polls[0].None?
    ensures var ch1: Chain<TA, EA, TB, EB, ()> := First(LegacyTask(polls[1..], sch), ());
            FlattenRun(m, First(LegacyTask(polls, sch), ()), into, from)
            == ([None] + FlattenRun(m - 1, ch1, into, from).0, FlattenRun(m - 1, ch1, into, from).1)
  {
  }

  /** The same in the second stage, with the inner future not ready. */
  lemma SecondWaits<TA, EA, TB, EB>(m: nat, polls: seq<Option<Result<TB, EB>>>, sch: seq<Wake>,
                                    into: TA -> LegacyFuture<TB, EB>, from: EA -> EB)
    requires m > 0 && polls != [] && polls[0].None?
    ensures var ch1: Chain<TA, EA, TB, EB, ()> := Second(LegacyTask(polls[1..], sch));
            FlattenRun(m, Second(LegacyTask(polls, sch)), into, from)
            == ([None] + FlattenRun(m - 1, ch1, into, from).0, FlattenRun(m - 1, ch1, into, from).1)
  {
  }

  /** While the outer future is not ready, a flatten future is not ready and
      stays in its first stage. */
  lemma {:induction false} WaitsForOuter<TA, EA, TB, EB>(j: nat, polls: seq<Option<Result<TA, EA>>>, rest: seq<Option<Result<TA, EA>>>,
                                                       sch: seq<Wake>, n: nat, into: TA -> LegacyFuture<TB, EB>, from: EA -> EB)
    requires polls == Nones(j) + rest
    ensures FlattenRun(j + n, First(LegacyTask(polls, sch), ()), into, from)
            == (Nones(j) + FlattenRun(n, First(LegacyTask(rest, sch), ()), into, from).0,
                FlattenRun(n, First(LegacyTask(rest, sch), ()), into, from).1)
    decreases j
  {
    var tail := FlattenRun(n, First(LegacyTask(rest, sch), ()), into, from);
    if j == 0 {
      assert polls == rest;
      assert Nones<Result<TB, EB>>(0) + tail.0 == tail.0;
    } else {
      assert polls[0] == None;
      FirstWaits<TA, EA, TB, EB>(j + n, polls, sch, into, from);
      assert polls[1..] == Nones(j - 1) + rest;
      WaitsForOuter(j - 1, polls[1..], rest, sch, n, into, from);
      assert [None] + (Nones(j - 1) + tail.0) == Nones(j) + tail.0;
    }
  }

  /** While the inner future is not ready, a flatten future in its second
      stage is not ready and stays there. */
  lemma {:induction false} WaitsForInner<TA, EA, TB, EB>(k: nat, polls: seq<Option<Result<TB, EB>>>, rest: seq<Option<Result<TB, EB>>>,
                                                       sch: seq<Wake>, n: nat, into: TA -> LegacyFuture<TB, EB>, from: EA -> EB)
    requires polls == Nones(k) + rest
    ensures var ch: Chain<TA, EA, TB, EB, ()> := Second(LegacyTask(polls, sch));
            var last: Chain<TA, EA, TB, EB, ()> := Second(LegacyTask(rest, sch));
            FlattenRun(k + n, ch, into, from)
            == (Nones(k) + FlattenRun(n, last, into, from).0, FlattenRun(n, last, into, from).1)
    decreases k
  {
    var last: Chain<TA, EA, TB, EB, ()> := Second(LegacyTask(rest, sch));
    var tail := FlattenRun(n, last, into, from);
    if k == 0 {
      assert polls == rest;
      assert Nones<Result<TB, EB>>(0) + tail.0 == tail.0;
    } else {
      assert polls[0] == None;
      SecondWaits<TA, EA, TB, EB>(k + n, polls, sch, into, from);
      assert polls[1..] == Nones(k - 1) + rest;
      WaitsForInner<TA, EA, TB, EB>(k - 1, polls[1..], rest, sch, n, into, from);
      assert [None] + (Nones(k - 1) + tail.0) == Nones(k) + tail.0;
    }
  }

  /** An outer error `e` resolves the flatten future with `from(e)` on the
      poll that sees it, after which it is done; the result does not depend
      on `into` at all, so no inner future is ever made. */
  lemma OuterErrorResolves<TA, EA, TB, EB>(j: nat, e: EA, rest: seq<Option<Result<TA, EA>>>, sch: seq<Wake>,
                                           into: TA -> LegacyFuture<TB, EB>, from: EA -> EB)
    ensures FlattenRun(j + 1, NewChain(LegacyTask(Nones(j) + [Some(Err(e))] + rest, sch)), into, from)
            == (Nones(j) + [Some(Err(from(e)))], Done)
  {
    assert Nones(j) + [Some(Err(e))] + rest == Nones(j) + ([Some(Err(e))] + rest);
    WaitsForOuter(j, Nones(j) + [Some(Err(e))] + rest, [Some(Err(e))] + rest, sch, 1, into, from);
    var after: Chain<TA, EA, TB, EB, ()> := First(LegacyTask([Some(Err(e))] + rest, sch), ());
    assert after.a.Poll().0 == Some(Err(e));
    assert Cont(into, from)(Err(e), ()) == Err(from(e));
    assert ChainPoll(after, Cont(into, from)) == (Some(Err(from(e))), Done);
    var done: Chain<TA, EA, TB, EB, ()> := Done;
    assert FlattenRun(0, done, into, from) == ([], Done);
    var out: seq<Option<Result<TB, EB>>> := [Some(Err(from(e)))];
    assert out + [] == out;
    assert FlattenRun(1, after, into, from) == ([Some(Err(from(e)))], Done);
  }

  /** An outer success `x` switches the chain to `into(x)` and polls that
      future on the same call. */
  lemma OuterSuccessSwitches<TA, EA, TB, EB>(x: TA, rest: seq<Option<Result<TA, EA>>>, sch: seq<Wake>,
                                             into: TA -> LegacyFuture<TB, EB>, from: EA -> EB)
    ensures ChainPoll(NewChain(LegacyTask([Some(Ok(x))] + rest, sch)), Cont(into, from))
            == (into(x).Poll().0, Second(into(x).Poll().1))
  {
  }

  /** The whole life of a flatten future: not ready while the outer future
      is not ready, then while the inner future `into(x)` is not ready, and
      then resolved with exactly the inner future's result, which ends in the
      second stage with the rest of the inner future's script. */
  lemma ResolvesWithInnerResult<TA, EA, TB, EB>(j: nat, x: TA, rest: seq<Option<Result<TA, EA>>>, sch: seq<Wake>,
                                                k: nat, res: Result<TB, EB>, more: seq<Option<Result<TB, EB>>>,
                                                into: TA -> LegacyFuture<TB, EB>, from: EA -> EB)
    requires into(x).polls == Nones(k) + [Some(res)] + more
    ensures FlattenRun(j + k + 1, NewChain(LegacyTask(Nones(j) + [Some(Ok(x))] + rest, sch)), into, from)
            == (Nones(j + k) + [Some(res)], Second(LegacyTask(more, into(x).scheduled)))
  {
    var b := into(x);
    var end: Chain<TA, EA, TB, EB, ()> := Second(LegacyTask(more, b.scheduled));
    assert Nones(j) + [Some(Ok(x))] + rest == Nones(j) + ([Some(Ok(x))] + rest);
    WaitsForOuter(j, Nones(j) + [Some(Ok(x))] + rest, [Some(Ok(x))] + rest, sch, k + 1, into, from);
    var first: Chain<TA, EA, TB, EB, ()> := First(LegacyTask([Some(Ok(x))] + rest, sch), ());
    OuterSuccessSwitches(x, rest, sch, into, from);
    var b1 := b.Poll().1;
    var second: Chain<TA, EA, TB, EB, ()> := Second(b1);
    var after := FlattenRun(k, second, into, from);
    assert FlattenRun(k + 1, first, into, from) == ([b.Poll().0] + after.0, after.1);
    if k == 0 {
      assert b.Poll().0 == Some(res);
      assert b1 == LegacyTask(more, b.scheduled);
      assert after == ([], end);
      assert [Some(res)] + [] == [Some(res)];
      assert Nones<Result<TB, EB>>(j) + [Some(res)] == Nones(j + k) + [Some(res)];
    } else {
      assert b.Poll().0 == None;
      assert b1 == LegacyTask(b.polls[1..], b.scheduled);
      assert b.polls[1..] == Nones(k - 1) + ([Some(res)] + more);
      WaitsForInner<TA, EA, TB, EB>(k - 1, b.polls[1..], [Some(res)] + more, b.scheduled, 1, into, from);
      var last: Chain<TA, EA, TB, EB, ()> := Second(LegacyTask([Some(res)] + more, b.scheduled));
      assert ChainPoll(last, Cont(into, from)) == (Some(res), end);
      assert [Some(res)] + [] == [Some(res)];
      assert FlattenRun(1, last, into, from) == ([Some(res)], end);
      assert after == (Nones(k - 1) + [Some(res)], end);
      assert Nones<Result<TB, EB>>(j) + ([None] + (Nones(k - 1) + [Some(res)])) == Nones(j + k) + [Some(res)];
    }
  }

  class Flatten<TA, EA, TB, EB> {
    var state: Chain<TA, EA, TB, EB, ()>
    /** `IntoFuture::into_future` of the outer future's item. */
    const into: TA -> LegacyFuture<TB, EB>
    /** `From::from` of the outer future's error into the inner one's. */
    const from: EA -> EB

    /** `new`: the outer future is the chain's first stage, with unit data. */
    constructor (future: LegacyFuture<TA, EA>, into: TA -> LegacyFuture<TB, EB>, from: EA -> EB)
      ensures state == NewChain(future) && this.into == into && this.from == from
    {
      state := First(future, ());
      this.into := into;
      this.from := from;
    }

    /** `poll`: the chain's poll with the flatten continuation; the answer
        carries the inner future's item and error types. */
    method Poll() returns (r: Option<Result<TB, EB>>)
      requires !state.Done?
      modifies this
      ensures (r, state) == ChainPoll(old(state), Cont(into, from))
    {
      var (p, next) := ChainPoll(state, Cont(into, from));
      state := next;
      r := p;
    }

    /** `schedule` is handed on to the chain unchanged. */
    method Schedule(wake: Wake)
      modifies this
      ensures state == ChainSchedule(old(state), wake)
    {
      state := ChainSchedule(state, wake);
    }
  }
}
