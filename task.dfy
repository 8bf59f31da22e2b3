/** Task contracts shared by every adapter: the poll result, and the inner
    tasks an adapter wraps, each given abstractly by the outcomes it will
    report when polled (a script). Each inner task is a value; an adapter
    that owns one keeps it in a field and replaces it after every poll. */
module Task {

  /** The outcome of one poll: not ready yet, or ready with a value. */
  datatype Poll<+T> = Pending | Ready(value: T)

  datatype Option<+T> = None | Some(value: T)

  datatype Result<+T, +E> = Ok(value: T) | Err(error: E) {
    /** `Result::map_err`: converts the error payload, keeps a success. */
    function MapError<E2>(f: E -> E2): (r: Result<T, E2>)
      ensures r.Ok? <==> Ok?
      ensures Ok? ==> r.value == value
      ensures Err? ==> r.error == f(error)
    {
      match this
      case Ok(v) => Ok(v)
      case Err(e) => Err(f(e))
    }
  }

  /** True of a stream poll that produced an item. */
  predicate Yields<T>(p: Poll<Option<T>>) {
    p.Ready? && p.value.Some?
  }

  /** True of a stream poll that reported end-of-stream. */
  predicate Ends<T>(p: Poll<Option<T>>) {
    p.Ready? && p.value.None?
  }

  /** True of a sink poll that reported ready without error. */
  predicate ReadyOk<E>(p: Poll<Result<(), E>>) {
    p.Ready? && p.value.Ok?
  }

  /** A fused stream: it remembers that it has ended, answers
      `is_terminated` from that, and answers every later poll with end-of-stream
      without consulting its script. While it runs, each poll takes the next
      scripted outcome; once the script is used up it stays pending. */
  datatype StreamScript<T> = StreamScript(polls: seq<Poll<Option<T>>>, terminated: bool) {

    function PollNext(): (r: (Poll<Option<T>>, StreamScript<T>))
      ensures terminated ==> r.0 == Ready(None) && r.1 == this
      ensures r.1.terminated <==> terminated || Ends(r.0)
      ensures !terminated && polls != [] ==> r.0 == polls[0] && r.1.polls == polls[1..]
      ensures !terminated && polls == [] ==> r.0 == Pending && r.1 == this
      ensures Yields(r.0) ==> |r.1.polls| < |polls|
    {
      if terminated then (Ready(None), this)
      else if polls == [] then (Pending, this)
      else (polls[0], StreamScript(polls[1..], Ends(polls[0])))
    }
  }

  /** `stream.fuse()`: the stream has not ended yet. */
  function Fuse<T>(polls: seq<Poll<Option<T>>>): (s: StreamScript<T>)
    ensures s.polls == polls && !s.terminated
  {
    StreamScript(polls, false)
  }

  /** A future: each poll takes the next scripted outcome; once the script is
      used up it stays pending. */
  datatype FutureScript<T> = FutureScript(polls: seq<Poll<T>>) {

    function Poll(): (r: (Poll<T>, FutureScript<T>))
      ensures polls != [] ==> r.0 == polls[0] && r.1.polls == polls[1..]
      ensures polls == [] ==> r.0 == Pending && r.1 == this
    {
      if polls == [] then (Pending, this) else (polls[0], FutureScript(polls[1..]))
    }
  }

  /** A sink, one script per capability. Poll scripts that are used up stay
      pending; a used-up `start_send` script accepts. Every item that
      `start_send` accepts is appended to `received`. */
  datatype SinkScript<I, SE> = SinkScript(
    readyPolls: seq<Poll<Result<(), SE>>>,
    sendResults: seq<Result<(), SE>>,
    flushPolls: seq<Poll<Result<(), SE>>>,
    closePolls: seq<Poll<Result<(), SE>>>,
    received: seq<I>)

  /** The next outcome of a poll script, and the rest of it. */
  function NextPoll<SE>(polls: seq<Poll<Result<(), SE>>>): (r: (Poll<Result<(), SE>>, seq<Poll<Result<(), SE>>>))
    ensures polls != [] ==> r.0 == polls[0] && r.1 == polls[1..]
    ensures polls == [] ==> r.0 == Pending && r.1 == []
  {
    if polls == [] then (Pending, []) else (polls[0], polls[1..])
  }

  /** A task that is a stream and a sink at once. A task that has only one of
      the two capabilities is one whose other script stays untouched. */
  datatype Duplex<T, I, SE> = Duplex(stream: StreamScript<T>, sink: SinkScript<I, SE>) {

    function PollNext(): (r: (Poll<Option<T>>, Duplex<T, I, SE>))
      ensures r.0 == stream.PollNext().0
      ensures r.1 == this.(stream := stream.PollNext().1)
    {
      var (p, s) := stream.PollNext();
      (p, this.(stream := s))
    }

    function PollReady(): (r: (Poll<Result<(), SE>>, Duplex<T, I, SE>))
      ensures r.1.stream == stream
      ensures r.1.sink == sink.(readyPolls := NextPoll(sink.readyPolls).1)
    {
      var (p, rest) := NextPoll(sink.readyPolls);
      (p, this.(sink := sink.(readyPolls := rest)))
    }

    function StartSend(item: I): (r: (Result<(), SE>, Duplex<T, I, SE>))
      ensures r.1.stream == stream
      ensures r.1.sink.readyPolls == sink.readyPolls
      ensures r.1.sink.flushPolls == sink.flushPolls
      ensures r.1.sink.closePolls == sink.closePolls
      ensures r.1.sink.received == if r.0.Ok? then sink.received + [item] else sink.received
    {
      var res: Result<(), SE> := if sink.sendResults == [] then Ok(()) else sink.sendResults[0];
      var rest := if sink.sendResults == [] then [] else sink.sendResults[1..];
      var got := if res.Ok? then sink.received + [item] else sink.received;
      (res, this.(sink := sink.(sendResults := rest, received := got)))
    }

    function PollFlush(): (r: (Poll<Result<(), SE>>, Duplex<T, I, SE>))
      ensures r.1.stream == stream
      ensures r.1.sink == sink.(flushPolls := NextPoll(sink.flushPolls).1)
    {
      var (p, rest) := NextPoll(sink.flushPolls);
      (p, this.(sink := sink.(flushPolls := rest)))
    }

    function PollClose(): (r: (Poll<Result<(), SE>>, Duplex<T, I, SE>))
      ensures r.1.stream == stream
      ensures r.1.sink == sink.(closePolls := NextPoll(sink.closePolls).1)
    {
      var (p, rest) := NextPoll(sink.closePolls);
      (p, this.(sink := sink.(closePolls := rest)))
    }
  }

  /** A call a caller makes on a sink, and what the call answered. */
  datatype SinkOp<I> = ReadyOp | SendOp(item: I) | FlushOp | CloseOp

  datatype SinkOutcome<SE> = Polled(poll: Poll<Result<(), SE>>) | Sent(result: Result<(), SE>)

  /** One sink call on a duplex task. */
  function ApplySink<T, I, SE>(d: Duplex<T, I, SE>, op: SinkOp<I>): (r: (SinkOutcome<SE>, Duplex<T, I, SE>))
    ensures r.1.stream == d.stream
    // a send is answered by a send result, every other call by a poll
    ensures r.0.Sent? <==> op.SendOp?
  {
    match op
    case ReadyOp => var (p, d') := d.PollReady(); (Polled(p), d')
    case SendOp(item) => var (res, d') := d.StartSend(item); (Sent(res), d')
    case FlushOp => var (p, d') := d.PollFlush(); (Polled(p), d')
    case CloseOp => var (p, d') := d.PollClose(); (Polled(p), d')
  }

  /** A sequence of sink calls on a duplex task, in order. */
  function RunSink<T, I, SE>(d: Duplex<T, I, SE>, ops: seq<SinkOp<I>>): (r: (seq<SinkOutcome<SE>>, Duplex<T, I, SE>))
    ensures |r.0| == |ops|
    decreases |ops|
  {
    if ops == [] then ([], d)
    else
      var (o, d1) := ApplySink(d, ops[0]);
      var (os, d2) := RunSink(d1, ops[1..]);
      ([o] + os, d2)
  }

  /** Converts the error carried by a sink answer. */
  function MapOutcomeError<SE, E>(o: SinkOutcome<SE>, f: SE -> E): (r: SinkOutcome<E>)
    ensures r.Polled? <==> o.Polled?
  {
    match o
    case Polled(p) => Polled(MapPollError(p, f))
    case Sent(res) => Sent(res.MapError(f))
  }

  /** Converts the error of a ready poll result, keeps everything else. */
  function MapPollError<E, E2>(p: Poll<Result<(), E>>, f: E -> E2): (r: Poll<Result<(), E2>>)
    ensures r.Pending? <==> p.Pending?
    ensures p.Ready? ==> r.value == p.value.MapError(f)
  {
    match p
    case Pending => Pending
    case Ready(res) => Ready(res.MapError(f))
  }

  /** An opaque wake handle (`Arc<Wake>` of the older task API). */
  datatype Wake = Wake(id: nat)

  /** A task of the older API: a poll answers `None` while not ready and
      `Some(o)` once it has an answer. A used-up script stays not ready. The
      wake handles handed to `schedule` are logged in `scheduled`. */
  datatype LegacyTask<O> = LegacyTask(polls: seq<Option<O>>, scheduled: seq<Wake>) {

    function Poll(): (r: (Option<O>, LegacyTask<O>))
      ensures polls != [] ==> r.0 == polls[0] && r.1.polls == polls[1..]
      ensures polls == [] ==> r.0 == None && r.1 == this
      ensures r.1.scheduled == scheduled
    {
      if polls == [] then (None, this) else (polls[0], this.(polls := polls[1..]))
    }

    function Schedule(w: Wake): (s: LegacyTask<O>)
      ensures s.polls == polls && s.scheduled == scheduled + [w]
    {
      this.(scheduled := scheduled + [w])
    }
  }

  /** A stream of the older API answers `Some(Ok(Some(item)))` for an item,
      `Some(Ok(None))` at the end and `Some(Err(e))` on an error. */
  type LegacyStream<T, E> = LegacyTask<Result<Option<T>, E>>

  /** A future of the older API answers `Some(result)` once done. */
  type LegacyFuture<T, E> = LegacyTask<Result<T, E>>
}
