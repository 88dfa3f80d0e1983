// Concrete runs: what the server does on a parse error, after a recv that fails, with a peer that
// closes at once, and what a queue would allow that lets events out in the order of arrival.

module ServerWitness {
  import opened DataTypes
  import opened KernelModel
  import opened ReactorSpec
  import opened RequestAssembly
  import opened ConnectionSpec
  import opened Connection
  import opened ServerMachine
  import opened ServerRuns

  /** The descriptor of the only connection: the lowest that the listener does not have. */
  function Client(l: Fd): Fd { if l == 0 then 1 else 0 }

  function AcceptEvent(l: Fd): PollEvent { PollEvent(l, false, true, false) }

  function ReadEvent(l: Fd): PollEvent { PollEvent(Client(l), false, true, false) }

  function X(l: Fd): Queued { Queued(LISTEN_SOCK, AcceptEvent(l)) }

  function Y(l: Fd): Queued { Queued(NEW_SOCK, ReadEvent(l)) }

  /** The listener is registered. */
  predicate Listening(s: State, l: Fd)
  {
    && s.k.listener == l && l in s.k.watches && l !in s.k.socks
    && l in s.reg.callbacks && s.reg.callbacks[l] == AcceptCallback
    && l in s.reg.priorities && s.reg.priorities[l] == LISTEN_SOCK
  }

  predicate Quiet(s: State) { s.running.Nobody? && s.queue == multiset{} }

  /** Connection 0 owns its descriptor and has done nothing yet. */
  predicate Connected(s: State, l: Fd, sock: Sock)
  {
    var c := Client(l);
    && c in s.k.socks && s.k.socks[c] == sock
    && c in s.k.watches && s.k.watches[c].input && !s.k.watches[c].output && s.k.watches[c].edge
    && c in s.reg.callbacks && s.reg.callbacks[c] == HandleEvent(0, Reading)
    && c in s.reg.priorities && s.reg.priorities[c] == NEW_SOCK
    && 0 in s.conns && s.conns[0] == NewConn(c)
  }

  lemma Push(cfg: Config, s0: State, s: State, a: Action) returns (s': State)
    requires Reached(cfg, s0, s) && Enabled(cfg, s, a) && a != Handle(ParseError)
    ensures Reached(cfg, s0, s') && s' == Next(cfg, s, a)
  {
    ReachedNext(cfg, s0, s, a);
    s' := Next(cfg, s, a);
  }

  // ---- A peer is accepted ----

  lemma PolledListener(cfg: Config, s: State, l: Fd)
    requires Listening(s, l) && Quiet(s) && s.k.backlog > 0 && cfg.maxEvents >= 1
    ensures Enabled(cfg, s, Poll([AcceptEvent(l)], {}))
    ensures var s' := Next(cfg, s, Poll([AcceptEvent(l)], {}));
            && Listening(s', l) && s'.k.backlog > 0 && s'.queue == multiset{X(l)} && s'.running.Nobody?
            && s'.k.socks == s.k.socks && s'.k.watches.Keys == s.k.watches.Keys && s'.reg == s.reg
            && s'.next == s.next
  {
    assert s.reg.callbacks != map[];
    assert Ranked(s.reg, [AcceptEvent(l)]) == [X(l)];
  }

  /** The listener's event comes out of the queue: it is a top. */
  lemma DispatchedListener(cfg: Config, s: State, l: Fd)
    requires Listening(s, l) && s.running.Nobody? && X(l) in s.queue
    ensures Enabled(cfg, s, Dispatch(X(l)))
    ensures var s' := Next(cfg, s, Dispatch(X(l))); s' == s.(running := InAccept(X(l)), calls := s'.calls)
  {
  }

  lemma Accepted(cfg: Config, s: State, l: Fd, sock: Sock)
    requires Listening(s, l) && s.k.backlog > 0 && s.running == InAccept(X(l)) && s.queue == multiset{X(l)}
    requires s.next == 0 && Client(l) !in s.k.socks && Client(l) !in s.k.watches
    requires ValidSock(sock) && sock.read == 0 && sock.wire == ""
    ensures Enabled(cfg, s, AcceptOk(Client(l), sock))
    ensures var s', c := Next(cfg, s, AcceptOk(Client(l), sock)), Client(l);
            && Listening(s', l) && s'.running == InTrack(X(l), 0) && s'.queue == multiset{X(l)}
            && 0 in s'.conns && s'.conns[0] == NewConn(c)
            && c in s'.k.socks && s'.k.socks[c] == sock && c !in s'.k.watches
  {
  }

  lemma Tracked(cfg: Config, s: State, l: Fd, sock: Sock)
    requires Listening(s, l) && s.running == InTrack(X(l), 0) && s.queue == multiset{X(l)}
    requires 0 in s.conns && s.conns[0] == NewConn(Client(l))
    requires Client(l) in s.k.socks && s.k.socks[Client(l)] == sock && Client(l) !in s.k.watches
    ensures Enabled(cfg, s, TrackNew(true))
    ensures var s' := Next(cfg, s, TrackNew(true));
            && Listening(s', l) && Connected(s', l, sock) && s'.running == Returned(X(l)) && s'.queue == multiset{X(l)}
            && s'.k.watches[Client(l)].ready == Reportable(sock, true, false)
  {
  }

  lemma Popped(cfg: Config, s: State, l: Fd)
    requires s.running == Returned(X(l)) && s.queue == multiset{X(l)}
    ensures Enabled(cfg, s, Pop)
    ensures var s' := Next(cfg, s, Pop); s' == s.(queue := multiset{}, running := Nobody, calls := s'.calls)
  {
  }

  lemma ReachAccepting(cfg: Config, s0: State) returns (s: State)
    requires Init(s0) && cfg.maxEvents >= 1
    ensures var l := s0.k.listener;
            && Reached(cfg, s0, s) && Listening(s, l) && s.k.backlog > 0
            && s.running == InAccept(X(l)) && s.queue == multiset{X(l)}
            && s.next == 0 && Client(l) !in s.k.socks && Client(l) !in s.k.watches
  {
    var l := s0.k.listener;
    ReachedStart(cfg, s0);
    s := Push(cfg, s0, s0, Peer(Knock));
    assert Listening(s, l) && Quiet(s) && Client(l) !in s.k.watches;
    PolledListener(cfg, s, l);
    s := Push(cfg, s0, s, Poll([AcceptEvent(l)], {}));
    DispatchedListener(cfg, s, l);
    s := Push(cfg, s0, s, Dispatch(X(l)));
  }

  /** A peer connects and is accepted, with any bytes of its stream there already. */
  lemma ReachConnected(cfg: Config, s0: State, sock: Sock) returns (s: State)
    requires Init(s0) && cfg.maxEvents >= 1 && ValidSock(sock) && sock.read == 0 && sock.wire == ""
    ensures var l := s0.k.listener;
            && Reached(cfg, s0, s) && Listening(s, l) && Quiet(s) && Connected(s, l, sock)
            && s.k.watches[Client(l)].ready == Reportable(sock, true, false)
  {
    var l := s0.k.listener;
    s := ReachAccepting(cfg, s0);
    Accepted(cfg, s, l, sock);
    s := Push(cfg, s0, s, AcceptOk(Client(l), sock));
    Tracked(cfg, s, l, sock);
    s := Push(cfg, s0, s, TrackNew(true));
    Popped(cfg, s, l);
    s := Push(cfg, s0, s, Pop);
  }

  // ---- Its handler runs ----

  const STREAM := "GET / HTTP/1.1\r\n\r\n"

  /** The peer has sent its request and closed its side. */
  const EAGER := Sock(STREAM, |STREAM|, 0, true, false, 0, "")

  lemma PolledReader(cfg: Config, s: State, l: Fd)
    requires Listening(s, l) && Quiet(s) && Connected(s, l, EAGER) && s.k.watches[Client(l)].ready
    requires cfg.maxEvents >= 1
    ensures Enabled(cfg, s, Poll([ReadEvent(l)], {}))
    ensures var s' := Next(cfg, s, Poll([ReadEvent(l)], {}));
            && Connected(s', l, EAGER) && s'.queue == multiset{Y(l)} && s'.running.Nobody?
            && !s'.k.watches[Client(l)].ready
  {
    assert s.reg.callbacks != map[];
    assert Ranked(s.reg, [ReadEvent(l)]) == [Y(l)];
    assert InBatch([ReadEvent(l)], Client(l)) by { assert [ReadEvent(l)][0].fd == Client(l); }
  }

  lemma DispatchedReader(cfg: Config, s: State, l: Fd, sock: Sock)
    requires Connected(s, l, sock) && s.running.Nobody? && Y(l) in s.queue && (cfg.ordered ==> Top(s.queue, Y(l)))
    ensures Enabled(cfg, s, Dispatch(Y(l)))
    ensures var s' := Next(cfg, s, Dispatch(Y(l)));
            s' == s.(running := InHandler(Y(l), 0, Reading, Start), calls := s'.calls)
  {
  }

  lemma Branched(cfg: Config, s: State, l: Fd, sock: Sock)
    requires Connected(s, l, sock) && s.running == InHandler(Y(l), 0, Reading, Start)
    ensures Enabled(cfg, s, Handle(Branch))
    ensures Next(cfg, s, Handle(Branch)) == s.(running := InHandler(Y(l), 0, Reading, Receiving))
  {
    assert s.conns[0 := s.conns[0]] == s.conns;
    assert s.conns[0].(stalled := false) == s.conns[0];
  }

  /** The handler of a connection whose peer has sent its request and closed is about to call recv. */
  lemma ReachReceiving(cfg: Config, s0: State) returns (s: State)
    requires Init(s0) && cfg.maxEvents >= 1
    ensures var l := s0.k.listener;
            && Reached(cfg, s0, s) && Connected(s, l, EAGER) && s.queue == multiset{Y(l)}
            && s.running == InHandler(Y(l), 0, Reading, Receiving) && !s.k.watches[Client(l)].ready
  {
    var l := s0.k.listener;
    s := ReachConnected(cfg, s0, EAGER);
    PolledReader(cfg, s, l);
    s := Push(cfg, s0, s, Poll([ReadEvent(l)], {}));
    DispatchedReader(cfg, s, l, EAGER);
    s := Push(cfg, s0, s, Dispatch(Y(l)));
    Branched(cfg, s, l, EAGER);
    s := Push(cfg, s0, s, Handle(Branch));
  }

  // ---- recv fails ----

  lemma Failed(cfg: Config, s: State, l: Fd)
    requires Connected(s, l, EAGER) && s.running == InHandler(Y(l), 0, Reading, Receiving)
    ensures Enabled(cfg, s, Handle(RecvFail))
    ensures var s' := Next(cfg, s, Handle(RecvFail));
            && s'.k == Noted(s.k, GotError(Client(l))) && s'.queue == s.queue
            && s'.running == InHandler(Y(l), 0, Reading, Done)
            && 0 in s'.conns && s'.conns[0].fd == Client(l)
  {
  }

  /**
   * A lost wake-up: nothing is queued and nobody is running, a living connection has bytes to
   * read and is watched for them, and nothing will tell the reactor.
   */
  lemma WakeupLost(cfg: Config, s0: State)
    requires Init(s0) && cfg.maxEvents >= 1
    ensures exists s, id ::
              && Reached(cfg, s0, s) && Quiet(s) && id in s.conns
              && CanRead(s.k, s.conns[id].fd) && !IsReady(s.k, s.conns[id].fd)
  {
    var l := s0.k.listener;
    var s := ReachReceiving(cfg, s0);
    Failed(cfg, s, l);
    s := Push(cfg, s0, s, Handle(RecvFail));
    assert multiset{Y(l)} - multiset{Y(l)} == multiset{};
    s := Push(cfg, s0, s, Pop);
    assert CanRead(s.k, s.conns[0].fd) && !IsReady(s.k, s.conns[0].fd);
  }

  // ---- The request does not parse ----

  lemma Received(cfg: Config, s: State, l: Fd, trace: Trace)
    requires Connected(s, l, EAGER) && s.running == InHandler(Y(l), 0, Reading, Receiving)
    ensures Enabled(cfg, s, Handle(RecvData(|STREAM|, trace)))
    ensures var s' := Next(cfg, s, Handle(RecvData(|STREAM|, trace)));
            && Hearing(s', l, trace) && s'.conns[0].request == EMPTY_REQUEST && s'.conns[0].heard == []
  {
    assert |STREAM| == 18;
  }

  /** The parser has taken the whole stream and will make the callbacks `todo`. */
  predicate Hearing(s: State, l: Fd, todo: Trace)
  {
    var c := Client(l);
    && s.running == InHandler(Y(l), 0, Reading, Parsing(todo))
    && c in s.k.socks && s.k.socks[c] == EAGER.(read := |STREAM|) && c in s.k.watches
    && 0 in s.conns && s.conns[0].fd == c && s.conns[0].sent == 0
  }

  /** A request that fails to parse: the run that SafeExactlyIfParsed speaks of exists. */
  lemma ParseErrorHappens(cfg: Config, s0: State)
    requires Init(s0) && cfg.maxEvents >= 1
    ensures exists s :: Reached(cfg, s0, s) && Enabled(cfg, s, Handle(ParseError))
                        && UsesDeleted(Next(cfg, s, Handle(ParseError)))
  {
    var s := ReachReceiving(cfg, s0);
    Received(cfg, s, s0.k.listener, []);
    s := Push(cfg, s0, s, Handle(RecvData(|STREAM|, [])));
    UsesAfterError(cfg, s, s0.k.listener);
  }

  lemma UsesAfterError(cfg: Config, s: State, l: Fd)
    requires Hearing(s, l, [])
    ensures Enabled(cfg, s, Handle(ParseError)) && UsesDeleted(Next(cfg, s, Handle(ParseError)))
  {
  }

  // ---- The request parses, and the stream has ended ----

  lemma Heard1(cfg: Config, s: State, l: Fd, todo: Trace, w: WriteCall)
    requires Hearing(s, l, todo) && todo != [] && !todo[0].OnMessageComplete?
    ensures Enabled(cfg, s, Handle(ParserCallback(w)))
    ensures var s' := Next(cfg, s, Handle(ParserCallback(w)));
            && Hearing(s', l, todo[1..]) && s'.conns[0].request == Apply(s.conns[0].request, todo[0])
            && s'.conns[0].heard == s.conns[0].heard + [todo[0]]
  {
  }

  /** The parser makes all its callbacks but the last. */
  lemma {:induction false} ReachLast(cfg: Config, s0: State, s: State, l: Fd, todo: Trace, w: WriteCall)
    returns (s': State)
    requires Reached(cfg, s0, s) && Hearing(s, l, todo) && todo != []
    requires forall i :: 0 <= i < |todo| - 1 ==> !todo[i].OnMessageComplete?
    ensures Reached(cfg, s0, s') && Hearing(s', l, [todo[|todo| - 1]])
    ensures s'.conns[0].heard == s.conns[0].heard + todo[..|todo| - 1]
    decreases |todo|
  {
    if |todo| == 1 {
      s' := s;
      assert todo == [todo[0]] && s.conns[0].heard + todo[..0] == s.conns[0].heard;
    } else {
      Heard1(cfg, s, l, todo, w);
      var s1 := Push(cfg, s0, s, Handle(ParserCallback(w)));
      s' := ReachLast(cfg, s0, s1, l, todo[1..], w);
      HeardJoin(s.conns[0].heard, todo);
    }
  }

  lemma HeardJoin(heard: Trace, todo: Trace)
    requires |todo| > 1
    ensures heard + [todo[0]] + todo[1..][..|todo| - 2] == heard + todo[..|todo| - 1]
    ensures todo[1..][|todo| - 2] == todo[|todo| - 1]
  {
  }

  lemma Answered(cfg: Config, s: State, l: Fd, order: seq<Field>)
    requires Hearing(s, l, [OnMessageComplete]) && IsOrder(order, SERVER_RESPONSE.headers)
    ensures var a := Handle(ParserCallback(WriteCall(SERVER_RESPONSE, order, true)));
            && Enabled(cfg, s, a)
            && var s' := Next(cfg, s, a);
               && Hearing(s', l, []) && IsWriting(s'.k, Client(l)) && s'.conns[0].response == Some(SERVER_RESPONSE)
               && s'.conns[0].heard == s.conns[0].heard + [OnMessageComplete]
  {
    assert [OnMessageComplete][1..] == [];
  }

  lemma ParsedAll(cfg: Config, s: State, l: Fd)
    requires Hearing(s, l, [])
    ensures Enabled(cfg, s, Handle(ParseOk))
    ensures var s' := Next(cfg, s, Handle(ParseOk));
            s' == s.(running := InHandler(Y(l), 0, Reading, Receiving))
  {
    assert s.conns[0 := s.conns[0]] == s.conns;
  }

  lemma GetEndsOnce()
    ensures var t := Whole(GET);
            && |t| > 0 && t[|t| - 1] == OnMessageComplete
            && [] + t[..|t| - 1] + [OnMessageComplete] == t
            && forall i :: 0 <= i < |t| - 1 ==> !t[i].OnMessageComplete?
  {
    assert WholeFields([]) == [];
  }

  /** The connection has heard a whole GET request and its response is installed. */
  lemma ReachAnswered(cfg: Config, s0: State) returns (s: State)
    requires Init(s0) && cfg.maxEvents >= 1
    ensures Reached(cfg, s0, s) && Hearing(s, s0.k.listener, []) && IsWriting(s.k, Client(s0.k.listener))
    ensures Traces(s.conns[0].heard, GET) && s.conns[0].response == Some(SERVER_RESPONSE)
  {
    var l, t := s0.k.listener, Whole(GET);
    var order := OrderExists(SERVER_RESPONSE.headers);
    var w := WriteCall(SERVER_RESPONSE, order, true);
    s := ReachReceiving(cfg, s0);
    Received(cfg, s, l, t);
    s := Push(cfg, s0, s, Handle(RecvData(|STREAM|, t)));
    GetEndsOnce();
    s := ReachLast(cfg, s0, s, l, t, w);
    Answered(cfg, s, l, order);
    s := Push(cfg, s0, s, Handle(ParserCallback(w)));
    WholeTraces(GET);
  }

  /**
   * A request that goes unanswered: the connection has heard a whole GET request, its response
   * is installed and it is registered for writing it; then recv finds the end of the stream, and
   * the connection is deleted with nothing on the wire.
   */
  lemma RequestGoesUnanswered(cfg: Config, s0: State)
    requires Init(s0) && cfg.maxEvents >= 1
    ensures exists s, id ::
              && Reached(cfg, s0, s) && id in s.conns && IsWriting(s.k, s.conns[id].fd)
              && Traces(s.conns[id].heard, GET) && s.conns[id].response == Some(SERVER_RESPONSE)
              && Enabled(cfg, s, Handle(RecvEnd))
              && var s' := Next(cfg, s, Handle(RecvEnd));
                 id in s'.outcomes && s'.outcomes[id].cause == EndOfStream && s'.outcomes[id].sock.wire == ""
  {
    var s := ReachAnswered(cfg, s0);
    ParsedAll(cfg, s, s0.k.listener);
    s := Push(cfg, s0, s, Handle(ParseOk));
    Unanswered(cfg, s, s0.k.listener);
  }

  lemma Unanswered(cfg: Config, s: State, l: Fd)
    requires Client(l) in s.k.socks && s.k.socks[Client(l)] == EAGER.(read := |STREAM|)
    requires s.running == InHandler(Y(l), 0, Reading, Receiving) && 0 in s.conns && s.conns[0].fd == Client(l)
    ensures Enabled(cfg, s, Handle(RecvEnd))
    ensures var s' := Next(cfg, s, Handle(RecvEnd));
            0 in s'.outcomes && s'.outcomes[0].cause == EndOfStream && s'.outcomes[0].sock.wire == ""
  {
  }

  // ---- The connection's event first, the listener's after it ----

  /** The queue lets events out in any order. */
  const ANY_ORDER := Config(2, false)

  /** The peer has closed its side without a word. */
  const SILENT := Sock("", 0, 0, true, false, 0, "")

  lemma HarvestsBoth(s: State, l: Fd)
    requires Listening(s, l) && Quiet(s) && Connected(s, l, SILENT) && s.k.watches[Client(l)].ready && s.k.backlog > 0
    ensures Enabled(ANY_ORDER, s, Poll([ReadEvent(l), AcceptEvent(l)], {}))
    ensures Ranked(s.reg, [ReadEvent(l), AcceptEvent(l)]) == [Y(l), X(l)]
  {
    assert s.reg.callbacks != map[];
  }

  lemma PolledBoth(s: State, l: Fd)
    requires Listening(s, l) && Quiet(s) && Connected(s, l, SILENT) && s.k.watches[Client(l)].ready && s.k.backlog > 0
    ensures Enabled(ANY_ORDER, s, Poll([ReadEvent(l), AcceptEvent(l)], {}))
    ensures var s' := Next(ANY_ORDER, s, Poll([ReadEvent(l), AcceptEvent(l)], {}));
            && Listening(s', l) && s'.k.backlog > 0 && s'.queue == multiset{X(l), Y(l)} && s'.running.Nobody?
            && Connected(s', l, SILENT) && s'.batch == [ReadEvent(l), AcceptEvent(l)] && s'.closed == {}
  {
    HarvestsBoth(s, l);
  }

  lemma Ended(s: State, l: Fd)
    requires Listening(s, l) && Connected(s, l, SILENT) && s.running == InHandler(Y(l), 0, Reading, Receiving)
    ensures Enabled(ANY_ORDER, s, Handle(RecvEnd))
    ensures var s' := Next(ANY_ORDER, s, Handle(RecvEnd));
            && Listening(s', l) && s'.k.backlog == s.k.backlog && s'.running == InHandler(Y(l), 0, Reading, Done)
            && s'.queue == s.queue && s'.closed == s.closed + {Client(l)} && s'.batch == s.batch
            && Client(l) !in s'.k.socks
  {
  }

  lemma PoppedReader(s: State, l: Fd)
    requires s.running == InHandler(Y(l), 0, Reading, Done) && s.queue == multiset{X(l), Y(l)}
    ensures Enabled(ANY_ORDER, s, Pop)
    ensures var s' := Next(ANY_ORDER, s, Pop); s' == s.(queue := multiset{X(l)}, running := Nobody, calls := s'.calls)
  {
    assert multiset{X(l), Y(l)} - multiset{Y(l)} == multiset{X(l)};
  }

  lemma ReachBoth(s0: State) returns (s: State)
    requires Init(s0)
    ensures var l := s0.k.listener;
            && Reached(ANY_ORDER, s0, s) && Listening(s, l) && s.k.backlog > 0 && Connected(s, l, SILENT)
            && s.queue == multiset{X(l), Y(l)} && s.running.Nobody?
            && s.batch == [ReadEvent(l), AcceptEvent(l)] && s.closed == {}
  {
    var l := s0.k.listener;
    s := ReachConnected(ANY_ORDER, s0, SILENT);
    s := Push(ANY_ORDER, s0, s, Peer(Knock));
    PolledBoth(s, l);
    s := Push(ANY_ORDER, s0, s, Poll([ReadEvent(l), AcceptEvent(l)], {}));
  }

  lemma ReachClosed(s0: State) returns (s: State)
    requires Init(s0)
    ensures var l := s0.k.listener;
            && Reached(ANY_ORDER, s0, s) && Listening(s, l) && s.k.backlog > 0
            && s.running == InHandler(Y(l), 0, Reading, Done) && s.queue == multiset{X(l), Y(l)}
            && s.closed == {Client(l)} && s.batch == [ReadEvent(l), AcceptEvent(l)] && Client(l) !in s.k.socks
  {
    var l := s0.k.listener;
    s := ReachBoth(s0);
    DispatchedReader(ANY_ORDER, s, l, SILENT);
    s := Push(ANY_ORDER, s0, s, Dispatch(Y(l)));
    Branched(ANY_ORDER, s, l, SILENT);
    s := Push(ANY_ORDER, s0, s, Handle(Branch));
    Ended(s, l);
    s := Push(ANY_ORDER, s0, s, Handle(RecvEnd));
  }

  /**
   * In the order of arrival a batch may close a descriptor and give it to a new connection
   * while it is drained, which NoReuseWithinBatch rules out for the priority order.
   */
  lemma FifoReusesWithinBatch(s0: State)
    requires Init(s0)
    ensures exists s, fd, sock ::
              && Reached(ANY_ORDER, s0, s) && Enabled(ANY_ORDER, s, AcceptOk(fd, sock))
              && fd in s.closed && InBatch(s.batch, fd)
  {
    var l := s0.k.listener;
    var s := ReachClosed(s0);
    PoppedReader(s, l);
    s := Push(ANY_ORDER, s0, s, Pop);
    DispatchedListener(ANY_ORDER, s, l);
    s := Push(ANY_ORDER, s0, s, Dispatch(X(l)));
    assert s.batch[0].fd == Client(l);
    assert Enabled(ANY_ORDER, s, AcceptOk(Client(l), SILENT)) && InBatch(s.batch, Client(l));
  }
}
