// One call of Clientconnection::handleEvent, as the steps it takes between one system call and
// the next, with the peers acting in between: include/connection_types.h, lines 215 to 284, and
// the user callbacks of src/server.cpp.

module ConnectionSpec {
  import opened DataTypes
  import opened KernelModel
  import opened ReactorSpec
  import opened RequestAssembly
  import opened ResponseText

  type ConnId = nat

  /** Which success and error callbacks a registered handler carries: those of listen or of write. */
  datatype Phase = Reading | Writing

  /** The closures that are put into the registry. */
  datatype Callback =
    | NoCallback
    | AcceptCallback
    | HandleEvent(id: ConnId, phase: Phase)

  const RECV_BUFFER_SIZE := 1024

  /**
   * A Clientconnection. The fields after `sent` are history: the slices given to the parser, the
   * callbacks that the parser has made, whether it has returned an error, the number of successful
   * sends, and whether the handler that ran last ended because recv failed other than by EAGAIN.
   */
  datatype Conn = Conn(
    fd: Fd,
    request: Request,
    response: Option<Response>,
    sendBuffer: string,
    sent: nat,
    fed: seq<string>,
    heard: Trace,
    refused: bool,
    sends: nat,
    stalled: bool)

  function NewConn(fd: Fd): Conn
  {
    Conn(fd, EMPTY_REQUEST, None, "", 0, [], [], false, 0, false)
  }

  /** Why a connection was deleted: by success (AllSent), or by error. */
  datatype Cause = ErrorEvent | EndOfStream | Unparsed | SendFailed | AllSent

  /** How a connection ended: why, and its socket and state by then. */
  datatype Outcome = Outcome(cause: Cause, sock: Sock, conn: Conn)

  datatype Pc =
    | Start
    | Receiving
    | Parsing(todo: Trace)
    | Sending
    | Done

  /** The state that one call of handleEvent can see and change. */
  datatype Handler = Handler(
    id: ConnId,
    phase: Phase,
    event: PollEvent,
    k: Kernel,
    reg: Registry<Callback>,
    conn: Conn,
    outcome: Option<Outcome>,
    pc: Pc)

  /** What a call of write meets: a response, an order of its headers, and epoll_ctl's verdict. */
  datatype WriteCall = WriteCall(response: Response, order: seq<Field>, modified: bool)

  datatype HandlerStep =
    | Env(action: EnvAction)
    | Branch                                // look at the event bits
    | RecvData(n: nat, trace: Trace)        // recv > 0; the parser will make these callbacks
    | RecvAgain                             // recv == -1, EAGAIN
    | RecvEnd                               // recv == 0
    | RecvFail                              // recv == -1, anything else
    | ParserCallback(write: WriteCall)      // the next callback
    | ParseOk                               // llhttp_execute returns HPE_OK
    | ParseError                            // llhttp_execute returns anything else
    | SendData(n: nat, write: WriteCall)    // send > 0
    | SendAgain                             // send == -1, EAGAIN or EWOULDBLOCK
    | SendFail                              // send == -1, anything else
    | SendNothing                           // send == 0: there was nothing to send

  predicate CanWrite(h: Handler, w: WriteCall)
  {
    IsOrder(w.order, w.response.headers) && (w.modified ==> CanModify(h.k, h.conn.fd))
  }

  /** Clientconnection::write: sent_bytes is left alone. */
  function Write(h: Handler, w: WriteCall): Handler
    requires CanWrite(h, w)
  {
    var h' := h.(conn := h.conn.(response := Some(w.response), sendBuffer := Print(w.response, w.order)));
    if w.modified then
      h'.(k := EpollMod(h.k, h.conn.fd, false, true),
          reg := Track(h.reg, h.conn.fd, HELPER_SOCK, HandleEvent(h.id, Writing)))
    else h'.(k := Denied(h.k, EPOLL_CTL_MOD, h.conn.fd, CanModify(h.k, h.conn.fd)))
  }

  /** `delete conn`: the destructor closes the socket; the registries keep their entries. */
  function Delete(h: Handler, cause: Cause): Handler
    requires h.conn.fd in h.k.socks
  {
    h.(k := Close(h.k, h.conn.fd),
       outcome := Some(Outcome(cause, h.k.socks[h.conn.fd], h.conn)))
  }

  predicate Alive(h: Handler) { h.outcome.None? && h.conn.fd in h.k.socks }

  /** llhttp_execute has returned an error. */
  function ParserRefuses(h: Handler): Handler
  {
    h.(conn := h.conn.(refused := true))
  }

  /** A system call on the connection's socket has returned `a`, and changed nothing. */
  function Noting(h: Handler, a: Answer): Handler
  {
    h.(k := Noted(h.k, a))
  }

  predicate Completes(h: Handler, n: nat) { h.conn.sent + n >= |h.conn.sendBuffer| }

  predicate StepEnabled(h: Handler, a: HandlerStep)
  {
    if a.Env? then EnvEnabled(h.k, a.action)
    else
      && Alive(h)
      && var s := h.k.socks[h.conn.fd];
         match a
         case Branch => h.pc.Start?
         case RecvData(n, _) =>
           h.pc.Receiving? && 1 <= n <= RECV_BUFFER_SIZE && s.read + n <= s.arrived <= |s.stream|
         case RecvAgain => h.pc.Receiving? && !Readable(s)
         case RecvEnd => h.pc.Receiving? && s.read >= s.arrived && s.closing
         case RecvFail => h.pc.Receiving?
         case ParserCallback(w) =>
           h.pc.Parsing? && h.pc.todo != [] && (h.pc.todo[0].OnMessageComplete? ==> CanWrite(h, w))
         case ParseOk => h.pc.Parsing? && h.pc.todo == []
         case ParseError => h.pc.Parsing? && h.pc.todo == []
         case SendData(n, w) =>
           && h.pc.Sending? && 1 <= n <= s.room && h.conn.sent + n <= |h.conn.sendBuffer|
           && (Completes(h, n) && h.phase.Reading? ==> CanWrite(h, w))
         case SendAgain => h.pc.Sending? && s.room == 0 && h.conn.sent < |h.conn.sendBuffer|
         case SendFail => h.pc.Sending?
         case SendNothing => h.pc.Sending? && h.conn.sent >= |h.conn.sendBuffer|
  }

  /** The bytes that a send of `n` takes from the buffer. */
  function Slice(c: Conn, n: nat): string
    requires c.sent + n <= |c.sendBuffer|
  {
    c.sendBuffer[c.sent..c.sent + n]
  }

  function AfterSend(h: Handler, n: nat): Handler
    requires Alive(h) && n <= h.k.socks[h.conn.fd].room && h.conn.sent + n <= |h.conn.sendBuffer|
  {
    h.(k := Send(h.k, h.conn.fd, |h.conn.sendBuffer| - h.conn.sent, Slice(h.conn, n)),
       conn := h.conn.(sent := h.conn.sent + n, sends := h.conn.sends + 1))
  }

  function Cleared(h: Handler): Handler
  {
    h.(conn := h.conn.(sendBuffer := "", sent := 0), pc := Done)
  }

  /** The parser has made its next callback. */
  function Heard(h: Handler): Handler
    requires h.pc.Parsing? && h.pc.todo != []
  {
    var c, e := h.conn, h.pc.todo[0];
    h.(conn := c.(request := Apply(c.request, e), heard := c.heard + [e]), pc := Parsing(h.pc.todo[1..]))
  }

  function StepNext(h: Handler, a: HandlerStep): Handler
    requires StepEnabled(h, a)
  {
    match a
    case Env(action) => h.(k := EnvNext(h.k, action))
    case Branch =>
      var h' := h.(conn := h.conn.(stalled := false));
      if h.event.err then Delete(h', ErrorEvent).(pc := Done)
      else if h.event.input then h'.(pc := Receiving)
      else if h.event.output then h'.(pc := Sending)
      else h'.(pc := Done)
    case RecvData(n, trace) =>
      var slice := Taken(h.k.socks[h.conn.fd], n);
      h.(k := Recv(h.k, h.conn.fd, RECV_BUFFER_SIZE, n), conn := h.conn.(fed := h.conn.fed + [slice]),
         pc := Parsing(trace))
    case RecvAgain => Noting(h, GotAgain(h.conn.fd)).(pc := Done)
    case RecvEnd => Delete(Noting(h, GotEnd(h.conn.fd)), EndOfStream).(pc := Done)
    case RecvFail => Noting(h, GotError(h.conn.fd)).(conn := h.conn.(stalled := true), pc := Done)
    case ParserCallback(w) =>
      var e := h.pc.todo[0];
      var h' := Heard(h);
      if e.OnMessageComplete? then Write(h', w) else h'
    case ParseOk => h.(pc := Receiving)
    case ParseError => Delete(ParserRefuses(h), Unparsed).(pc := Receiving)
    case SendData(n, w) =>
      var h' := AfterSend(h, n);
      if !Completes(h, n) then h'
      else if h.phase.Writing? then Delete(Cleared(h'), AllSent)
      else Write(Cleared(h'), w)
    case SendAgain => Noting(h, PutAgain(h.conn.fd)).(pc := Done)
    case SendFail => Delete(Noting(h, PutError(h.conn.fd)), SendFailed).(pc := Done)
    case SendNothing => Noting(h, PutNothing(h.conn.fd)).(pc := Done)
  }

  /** The handler goes from `h` to `h'` by `steps`, none of them a parse error; `trail` is its way. */
  ghost predicate Trail(h: Handler, steps: seq<HandlerStep>, trail: seq<Handler>, h': Handler)
  {
    && |trail| == |steps| + 1 && trail[0] == h && trail[|steps|] == h'
    && forall i {:trigger steps[i]} :: 0 <= i < |steps| ==>
         && steps[i] != ParseError && StepEnabled(trail[i], steps[i])
         && trail[i + 1] == StepNext(trail[i], steps[i])
  }

  /** Some steps, none of them a parse error, lead from `h` to `h'`. */
  ghost predicate Reaches(h: Handler, h': Handler)
  {
    exists steps, trail :: Trail(h, steps, trail, h')
  }

  lemma ReachesRefl(h: Handler)
    ensures Reaches(h, h)
  {
    assert Trail(h, [], [h], h);
  }

  lemma TrailPush(h: Handler, steps: seq<HandlerStep>, trail: seq<Handler>, h': Handler, a: HandlerStep)
    requires Trail(h, steps, trail, h') && StepEnabled(h', a) && a != ParseError
    ensures Trail(h, steps + [a], trail + [StepNext(h', a)], StepNext(h', a))
  {
    var steps', trail' := steps + [a], trail + [StepNext(h', a)];
    forall i | 0 <= i < |steps'|
      ensures steps'[i] != ParseError && StepEnabled(trail'[i], steps'[i])
      ensures trail'[i + 1] == StepNext(trail'[i], steps'[i])
    {
      if i < |steps| { assert steps'[i] == steps[i]; }
    }
  }

  lemma ReachesStep(h: Handler, h': Handler, a: HandlerStep)
    requires Reaches(h, h') && StepEnabled(h', a) && a != ParseError
    ensures Reaches(h, StepNext(h', a))
  {
    var steps, trail :| Trail(h, steps, trail, h');
    TrailPush(h, steps, trail, h', a);
  }

  // ---- What the kernel answers ----

  /** The answer of epoll_ctl to a call of write. */
  function ModAnswer(h: Handler, w: WriteCall): Answer
  {
    Ctl(EPOLL_CTL_MOD, h.conn.fd,
               if w.modified then Obeyed else if CanModify(h.k, h.conn.fd) then Faulted else Refused)
  }

  /** What the system calls of a step return, in their order. */
  function Answers(h: Handler, a: HandlerStep): seq<Answer>
    requires StepEnabled(h, a)
  {
    match a
    case Env(_) | Branch | ParseOk | ParseError => []
    case RecvData(n, _) => [GotData(h.conn.fd, 1024, n)]
    case RecvAgain => [GotAgain(h.conn.fd)]
    case RecvEnd => [GotEnd(h.conn.fd)]
    case RecvFail => [GotError(h.conn.fd)]
    case ParserCallback(w) => if h.pc.todo[0].OnMessageComplete? then [ModAnswer(h, w)] else []
    case SendData(n, w) =>
      [PutData(h.conn.fd, |h.conn.sendBuffer| - h.conn.sent, n)]
      + (if Completes(h, n) && h.phase.Reading? then [ModAnswer(h, w)] else [])
    case SendAgain => [PutAgain(h.conn.fd)]
    case SendFail => [PutError(h.conn.fd)]
    case SendNothing => [PutNothing(h.conn.fd)]
  }

  /** What the system calls of the first `n` steps of a trail return. */
  ghost function AllAnswers(steps: seq<HandlerStep>, trail: seq<Handler>, n: nat): seq<Answer>
    requires n <= |steps| && |trail| == |steps| + 1
    requires forall i {:trigger steps[i]} :: 0 <= i < |steps| ==> StepEnabled(trail[i], steps[i])
  {
    if n == 0 then [] else AllAnswers(steps, trail, n - 1) + Answers(trail[n - 1], steps[n - 1])
  }

  lemma StepAnswers(h: Handler, a: HandlerStep)
    requires StepEnabled(h, a)
    ensures StepNext(h, a).k.answers == h.k.answers + Answers(h, a) && StepNext(h, a).event == h.event
    ensures StepNext(h, a).pc.Done? && !h.pc.Done? && Answers(h, a) == [] ==>
              a.Branch? && (h.event.err || (!h.event.input && !h.event.output))
    ensures h.pc.Start? && (h.event.err || (!h.event.input && !h.event.output)) && !a.Env? ==>
              StepNext(h, a).pc.Done?
    ensures (h.pc.Done? && h.outcome.None?) || h.pc.Start? ==> Answers(h, a) == []
    ensures StepNext(h, a).pc.Start? ==> h.pc.Start?
  {
    if a.Env? {
      EnvKeepsRest(h.k, a.action);
    }
  }

  /** From `h0` to `h` the kernel has given the answers `log`. */
  predicate Logged(h0: Handler, h: Handler, log: seq<Answer>)
  {
    && h.k.answers == h0.k.answers + log && h.event == h0.event
    && (h0.pc.Start? && h.pc.Start? ==> log == [])
    && (h0.pc.Start? && Idle(h0.event) ==> h.pc.Start? || h.pc.Done?)
    && (h0.pc.Start? && h.pc.Done? ==> (log == [] <==> Idle(h0.event)))
  }

  /** An event for which a handler asks nothing of the kernel. */
  predicate Idle(e: PollEvent) { e.err || (!e.input && !e.output) }

  lemma LoggedNext(h0: Handler, h: Handler, a: HandlerStep, h': Handler, log: seq<Answer>)
    requires Logged(h0, h, log) && StepEnabled(h, a) && a != ParseError && h' == StepNext(h, a)
    ensures Logged(h0, h', log + Answers(h, a))
  {
    StepAnswers(h, a);
    AppendAssociates(h0.k.answers, log, Answers(h, a));
  }

  /** The kernel has recorded the answers of a handler's steps, those and no others, in their order. */
  lemma {:induction false} TrailAnswers(h: Handler, steps: seq<HandlerStep>, trail: seq<Handler>, h': Handler, n: nat)
    requires Trail(h, steps, trail, h') && n <= |steps|
    ensures Logged(h, trail[n], AllAnswers(steps, trail, n))
  {
    if n > 0 {
      TrailAnswers(h, steps, trail, h', n - 1);
      LoggedNext(h, trail[n - 1], steps[n - 1], trail[n], AllAnswers(steps, trail, n - 1));
    }
  }

  /** A handler that its event makes read or write has asked the kernel when it is done. */
  lemma DoneAnswered(h: Handler, h': Handler)
    requires Reaches(h, h') && h.pc.Start?
    ensures h.k.answers <= h'.k.answers
    ensures h'.pc.Done? ==>
              (h'.k.answers == h.k.answers <==> h.event.err || (!h.event.input && !h.event.output))
  {
    var steps, trail :| Trail(h, steps, trail, h');
    TrailAnswers(h, steps, trail, h', |steps|);
  }

  // ---- What holds of every connection ----

  /** The slices in their order. */
  function Concat(slices: seq<string>): string
  {
    if slices == [] then "" else Concat(slices[..|slices| - 1]) + slices[|slices| - 1]
  }

  ghost predicate FedOk(c: Conn, s: Sock)
  {
    && s.read <= |s.stream|
    && Concat(c.fed) == s.stream[..s.read]
    && forall i :: 0 <= i < |c.fed| ==> 1 <= |c.fed[i]| <= RECV_BUFFER_SIZE
  }

  /**
   * The request is what the callbacks made so far have made of the empty one, and there is a
   * response once a message has been complete. The parser has not returned an error.
   */
  predicate RequestOk(c: Conn)
  {
    && c.request == ApplyAll(EMPTY_REQUEST, c.heard) && !c.refused
    && (c.response.Some? <==> OnMessageComplete in c.heard)
  }

  /** The buffer is a serialization of the response, if there is one. */
  ghost predicate BufferOk(c: Conn)
  {
    if c.response.Some? then Prints(c.response.value, c.sendBuffer) else c.sendBuffer == ""
  }

  predicate WireOk(c: Conn, s: Sock)
  {
    && c.sent <= |c.sendBuffer| && s.wire == c.sendBuffer[..c.sent]
    && c.sends <= c.sent && (c.sends == 0 ==> c.sent == 0)
  }

  /** The interest list and the registries agree on the phase that a connection is registered in. */
  predicate RegisteredIn(k: Kernel, reg: Registry<Callback>, id: ConnId, fd: Fd, phase: Phase)
  {
    && fd in k.watches && k.watches[fd].edge
    && k.watches[fd].input == phase.Reading? && k.watches[fd].output == phase.Writing?
    && fd in reg.callbacks && reg.callbacks[fd] == HandleEvent(id, phase)
    && fd in reg.priorities
    && reg.priorities[fd] == (if phase.Reading? then NEW_SOCK else HELPER_SOCK)
  }

  predicate IsWriting(k: Kernel, fd: Fd) { fd in k.watches && k.watches[fd].output }

  /** The buffer of a connection registered for writing is a serialization, not yet all sent. */
  ghost predicate ResponseOk(c: Conn)
  {
    && c.response.Some? && Prints(c.response.value, c.sendBuffer)
    && c.sent < |c.sendBuffer|
  }

  ghost predicate ConnOk(k: Kernel, reg: Registry<Callback>, id: ConnId, c: Conn)
  {
    && c.fd in k.socks && c.fd != k.listener
    && var s := k.socks[c.fd];
       && ValidSock(s) && FedOk(c, s) && RequestOk(c) && BufferOk(c) && WireOk(c, s)
       && (c.fd in k.watches ==>
             || RegisteredIn(k, reg, id, c.fd, Reading)
             || RegisteredIn(k, reg, id, c.fd, Writing))
       && (IsWriting(k, c.fd) ==> ResponseOk(c))
       && (!IsWriting(k, c.fd) ==> c.sent == 0)
  }

  // ---- Wake-ups ----

  /** The connection can be read from, as its registration asks for. */
  predicate CanRead(k: Kernel, fd: Fd)
  {
    fd in k.watches && fd in k.socks && k.watches[fd].input && Readable(k.socks[fd])
  }

  /** There is something to read, and the handler that ran last did not end with a failing recv. */
  predicate NeedsInput(k: Kernel, c: Conn)
  {
    CanRead(k, c.fd) && !c.stalled
  }

  /** There is room to send into, and (by ConnOk) something to send. */
  predicate NeedsOutput(k: Kernel, c: Conn)
  {
    && c.fd in k.watches && c.fd in k.socks
    && k.watches[c.fd].output && k.socks[c.fd].room > 0
  }

  predicate IsReady(k: Kernel, fd: Fd) { fd in k.watches && k.watches[fd].ready }

  /** The handler under way will see to the need, or the ready list will. */
  predicate WakeOk(h: Handler)
  {
    && (NeedsInput(h.k, h.conn) ==>
          || IsReady(h.k, h.conn.fd)
          || (h.pc.Start? && (h.event.err || h.event.input))
          || h.pc.Receiving? || h.pc.Parsing?)
    && (NeedsOutput(h.k, h.conn) ==>
          || IsReady(h.k, h.conn.fd)
          || (h.pc.Start? && (h.event.err || h.event.output))
          || h.pc.Sending?)
  }

  // ---- What holds at every step of handleEvent ----

  ghost predicate PcOk(h: Handler)
  {
    match h.pc
    case Start =>
      && (!h.event.input && CanRead(h.k, h.conn.fd) ==> IsReady(h.k, h.conn.fd))
      && (h.event.input ==> RegisteredIn(h.k, h.reg, h.id, h.conn.fd, Reading))
      && (h.event.output ==> RegisteredIn(h.k, h.reg, h.id, h.conn.fd, Writing) && h.phase.Writing?)
    case Receiving => h.conn.sent == 0 && h.event.input && !h.event.err && !h.conn.stalled
    case Parsing(_) => h.conn.sent == 0 && h.event.input && !h.event.err && !h.conn.stalled
    case Sending =>
      && RegisteredIn(h.k, h.reg, h.id, h.conn.fd, Writing) && h.phase.Writing?
      && h.event.output && !h.event.input && !h.event.err
    case Done => true
  }

  /** What a deleted connection leaves behind: all of its response on the wire, or a part of it. */
  ghost predicate OutcomeOk(o: Outcome)
  {
    && FedOk(o.conn, o.sock) && RequestOk(o.conn) && (o.cause.AllSent? || BufferOk(o.conn))
    && match o.cause
       case AllSent =>
         && o.conn.sendBuffer == "" && o.conn.sent == 0
         && o.conn.response.Some? && Prints(o.conn.response.value, o.sock.wire)
         && o.conn.sends <= |o.sock.wire|
       case EndOfStream => WireOk(o.conn, o.sock) && o.conn.sent == 0
       case ErrorEvent => WireOk(o.conn, o.sock) && (o.conn.sent > 0 ==> ResponseOk(o.conn))
       case SendFailed => WireOk(o.conn, o.sock) && ResponseOk(o.conn)
       case Unparsed => false
  }

  predicate OnlyOutput(e: PollEvent) { e.output && !e.input && !e.err }

  /** The answer of the kernel that has made the handler end as it did. */
  predicate ReasonOk(h: Handler)
  {
    match h.outcome
    case None =>
      && (h.event.input && h.conn.stalled ==> EndsWith(h.k, GotError(h.conn.fd)))
      && (h.event.input && !h.conn.stalled ==> EndsWith(h.k, GotAgain(h.conn.fd)))
      && (!h.event.input && h.event.output ==> EndsWith(h.k, PutAgain(h.conn.fd)))
      && !h.event.err
    case Some(o) =>
      match o.cause
      case ErrorEvent => h.event.err
      case EndOfStream => h.event.input && !h.event.err && EndsWith(h.k, GotEnd(h.conn.fd))
      case SendFailed => OnlyOutput(h.event) && EndsWith(h.k, PutError(h.conn.fd))
      case AllSent =>
        && OnlyOutput(h.event)
        && |h.k.answers| > 0 && h.k.answers[|h.k.answers| - 1].PutData?
        && h.k.answers[|h.k.answers| - 1].fd == h.conn.fd
        && h.k.answers[|h.k.answers| - 1].n == h.k.answers[|h.k.answers| - 1].asked
      case Unparsed => false
  }

  ghost predicate HandlerOk(h: Handler)
  {
    && (h.pc.Done? ==> ReasonOk(h))
    && match h.outcome
       case None => ConnOk(h.k, h.reg, h.id, h.conn) && h.conn.fd in h.k.watches && PcOk(h) && WakeOk(h)
       case Some(o) => h.pc.Done? && OutcomeOk(o) && h.conn.fd !in h.k.socks && h.conn.fd !in h.k.watches
  }

  lemma {:induction false} ConcatPush(slices: seq<string>, slice: string)
    ensures Concat(slices + [slice]) == Concat(slices) + slice
  {
    assert (slices + [slice])[..|slices|] == slices;
  }

  /** Nothing the environment does disturbs a connection, and what it makes possible it announces. */
  lemma EnvKeeps(h: Handler, a: EnvAction)
    requires HandlerOk(h) && EnvEnabled(h.k, a)
    ensures HandlerOk(h.(k := EnvNext(h.k, a)))
  {
    EnvEvolves(h.k, a, h.conn.fd);
    EvolvesKeeps(h, EnvNext(h.k, a));
  }

  lemma EvolvesKeeps(h: Handler, k: Kernel)
    requires HandlerOk(h) && EvolvesAt(h.k, k, h.conn.fd) && k.listener == h.k.listener && k.answers == h.k.answers
    ensures HandlerOk(h.(k := k))
  {
    if h.outcome.None? {
      EvolvesKeepsConn(h.k, h.reg, h.id, h.conn, k);
    }
  }

  lemma EvolvesKeepsConn(k: Kernel, reg: Registry<Callback>, id: ConnId, c: Conn, k': Kernel)
    requires ConnOk(k, reg, id, c) && EvolvesAt(k, k', c.fd) && k'.listener == k.listener
    ensures ConnOk(k', reg, id, c)
  {
  }

  lemma FedPush(c: Conn, s: Sock, n: nat)
    requires FedOk(c, s) && 1 <= n <= RECV_BUFFER_SIZE && s.read + n <= s.arrived <= |s.stream|
    ensures FedOk(c.(fed := c.fed + [Taken(s, n)]), s.(read := s.read + n))
  {
    ConcatPush(c.fed, Taken(s, n));
    assert s.stream[..s.read] + Taken(s, n) == s.stream[..s.read + n];
  }

  lemma RecvDataKeepsConn(k: Kernel, reg: Registry<Callback>, id: ConnId, c: Conn, n: nat)
    requires ConnOk(k, reg, id, c) && 1 <= n <= RECV_BUFFER_SIZE
    requires var s := k.socks[c.fd]; s.read + n <= s.arrived <= |s.stream|
    ensures ConnOk(Recv(k, c.fd, RECV_BUFFER_SIZE, n), reg, id, c.(fed := c.fed + [Taken(k.socks[c.fd], n)]))
  {
    FedPush(c, k.socks[c.fd], n);
  }

  lemma RecvDataKeeps(h: Handler, a: HandlerStep)
    requires HandlerOk(h) && StepEnabled(h, a) && a.RecvData?
    ensures HandlerOk(StepNext(h, a))
  {
    RecvDataKeepsConn(h.k, h.reg, h.id, h.conn, a.n);
  }

  lemma RecvLastKeeps(h: Handler, a: HandlerStep)
    requires HandlerOk(h) && StepEnabled(h, a) && (a.RecvAgain? || a.RecvEnd? || a.RecvFail?)
    ensures HandlerOk(StepNext(h, a))
  {
  }

  lemma RecvKeeps(h: Handler, a: HandlerStep)
    requires HandlerOk(h) && StepEnabled(h, a)
    requires a.RecvData? || a.RecvAgain? || a.RecvEnd? || a.RecvFail? || a.ParseOk?
    ensures HandlerOk(StepNext(h, a))
  {
    match a {
      case RecvData(_, _) => RecvDataKeeps(h, a);
      case RecvAgain | RecvEnd | RecvFail => RecvLastKeeps(h, a);
      case _ =>
    }
  }

  lemma HeardRequest(c: Conn, e: ParserEvent)
    requires RequestOk(c)
    ensures Apply(c.request, e) == ApplyAll(EMPTY_REQUEST, c.heard + [e])
  {
    ApplyAllAppend(EMPTY_REQUEST, c.heard, [e]);
    ApplyOne(c.request, [e]);
  }

  /** write is only ever called for a complete message, with nothing sent, and keeps everything in order. */
  lemma WriteKeeps(h: Handler, w: WriteCall)
    requires HandlerOk(h) && h.outcome.None? && h.pc.Parsing? && CanWrite(h, w)
    requires h.pc.todo != [] && h.pc.todo[0].OnMessageComplete?
    ensures HandlerOk(Write(Heard(h), w))
  {
    var text := Print(w.response, w.order);
    assert Prints(w.response, text);
    PrintLength(w.response, text);
    assert h.k.socks[h.conn.fd].wire == "";
    HeardRequest(h.conn, h.pc.todo[0]);
  }

  lemma HeardKeeps(h: Handler)
    requires HandlerOk(h) && h.outcome.None? && h.pc.Parsing?
    requires h.pc.todo != [] && !h.pc.todo[0].OnMessageComplete?
    ensures HandlerOk(Heard(h))
  {
    HeardRequest(h.conn, h.pc.todo[0]);
  }

  lemma CallbackKeeps(h: Handler, a: HandlerStep)
    requires HandlerOk(h) && StepEnabled(h, a) && a.ParserCallback?
    ensures HandlerOk(StepNext(h, a))
  {
    if h.pc.todo[0].OnMessageComplete? {
      WriteKeeps(h, a.write);
    } else {
      HeardKeeps(h);
    }
  }

  lemma WirePush(c: Conn, s: Sock, n: nat)
    requires WireOk(c, s) && 1 <= n <= s.room && c.sent + n <= |c.sendBuffer|
    ensures WireOk(c.(sent := c.sent + n, sends := c.sends + 1),
                   s.(room := s.room - |Slice(c, n)|, wire := s.wire + Slice(c, n)))
  {
    assert c.sendBuffer[..c.sent] + Slice(c, n) == c.sendBuffer[..c.sent + n];
  }

  lemma SendPartKeeps(h: Handler, a: HandlerStep)
    requires HandlerOk(h) && StepEnabled(h, a) && a.SendData? && !Completes(h, a.n)
    ensures HandlerOk(StepNext(h, a))
  {
    WirePush(h.conn, h.k.socks[h.conn.fd], a.n);
  }

  lemma SendLastKeeps(h: Handler, a: HandlerStep)
    requires HandlerOk(h) && StepEnabled(h, a) && a.SendData? && Completes(h, a.n)
    ensures HandlerOk(StepNext(h, a))
  {
    var c := h.conn;
    WirePush(c, h.k.socks[c.fd], a.n);
    assert c.sendBuffer[..c.sent + a.n] == c.sendBuffer;
  }

  lemma SendAgainKeeps(h: Handler)
    requires HandlerOk(h) && StepEnabled(h, SendAgain)
    ensures HandlerOk(StepNext(h, SendAgain))
  {
  }

  lemma SendFailKeeps(h: Handler)
    requires HandlerOk(h) && StepEnabled(h, SendFail)
    ensures HandlerOk(StepNext(h, SendFail))
  {
  }

  lemma SendKeeps(h: Handler, a: HandlerStep)
    requires HandlerOk(h) && StepEnabled(h, a)
    requires a.SendData? || a.SendAgain? || a.SendFail? || a.SendNothing?
    ensures HandlerOk(StepNext(h, a))
  {
    match a {
      case SendAgain => SendAgainKeeps(h);
      case SendFail => SendFailKeeps(h);
      case SendData(n, _) =>
        if Completes(h, n) { SendLastKeeps(h, a); } else { SendPartKeeps(h, a); }
      case _ =>
    }
  }

  lemma BranchErrorKeeps(h: Handler)
    requires HandlerOk(h) && StepEnabled(h, Branch) && h.event.err
    ensures HandlerOk(StepNext(h, Branch))
  {
  }

  lemma BranchOnKeeps(h: Handler)
    requires HandlerOk(h) && StepEnabled(h, Branch) && !h.event.err && (h.event.input || h.event.output)
    ensures HandlerOk(StepNext(h, Branch))
  {
    assert StepNext(h, Branch).outcome.None?;
  }

  lemma BranchKeeps(h: Handler)
    requires HandlerOk(h) && StepEnabled(h, Branch)
    ensures HandlerOk(StepNext(h, Branch))
  {
    if h.event.err {
      BranchErrorKeeps(h);
    } else if h.event.input || h.event.output {
      BranchOnKeeps(h);
    }
  }

  /** Every step of handleEvent but a parse error keeps the invariant of the connection. */
  lemma HandlerStepKeeps(h: Handler, a: HandlerStep)
    requires HandlerOk(h) && StepEnabled(h, a) && a != ParseError
    ensures HandlerOk(StepNext(h, a))
  {
    match a {
      case Env(action) => EnvKeeps(h, action);
      case Branch => BranchKeeps(h);
      case ParserCallback(_) => CallbackKeeps(h, a);
      case RecvData(_, _) | RecvAgain | RecvEnd | RecvFail | ParseOk => RecvKeeps(h, a);
      case SendData(_, _) | SendAgain | SendFail | SendNothing => SendKeeps(h, a);
    }
  }

  /**
   * A handler ends with something left to read and no wake-up to come exactly if its recv has
   * failed other than by EAGAIN while there was something to read, and no edge has come since.
   */
  lemma LostExactly(h: Handler, a: HandlerStep)
    requires HandlerOk(h) && StepEnabled(h, a) && !a.Env? && a != ParseError
    requires StepNext(h, a).pc.Done? && StepNext(h, a).outcome.None?
    ensures var k', fd := StepNext(h, a).k, h.conn.fd;
            CanRead(k', fd) && !IsReady(k', fd) <==> a.RecvFail? && CanRead(h.k, fd) && !IsReady(h.k, fd)
  {
    HandlerStepKeeps(h, a);
  }
}
