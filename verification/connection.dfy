// Clientconnection: include/connection_types.h, and the user callbacks of src/server.cpp.
// `Now` is the object as ConnectionSpec sees it; handleEvent is proved to take its steps.

module Connection {
  import opened DataTypes
  import opened KernelModel
  import opened KernelCalls
  import opened ReactorSpec
  import opened Reactor
  import opened RequestAssembly
  import opened ResponseText
  import opened ConnectionSpec

  class HttpRequest {
    var httpMethod: string
    var url: string
    var version: string
    var key: string
    var value: string
    var headers: map<string, string>
    var body: string

    function View(): Request
      reads this
    {
      Request(httpMethod, url, version, key, value, headers, body)
    }

    constructor ()
      ensures View() == EMPTY_REQUEST
    {
      httpMethod, url, version, key, value, headers, body := "", "", "", "", "", map[], "";
    }
  }

  class HttpResponse {
    var version: string
    var statusCode: string
    var statusMessage: string
    var headers: map<string, string>
    var body: string

    function View(): Response
      reads this
    {
      Response(version, statusCode, statusMessage, headers, body)
    }

    constructor ()
      ensures View() == Response("", "", "", map[], "")
    {
      version, statusCode, statusMessage, headers, body := "", "", "", map[], "";
    }
  }

  /** The connection has no response but that of the sample server. */
  predicate Sampled(c: Conn)
  {
    c.response.Some? ==> c.response.value == SERVER_RESPONSE
  }

  predicate Sampling(h: Handler)
  {
    Sampled(h.conn) && (h.outcome.Some? ==> Sampled(h.outcome.value.conn))
  }

  /** `h` has been reached from `h0`, which was in order, with the sample server's callbacks. */
  ghost predicate On(h0: Handler, h: Handler)
  {
    HandlerOk(h0) && Reaches(h0, h) && (Sampling(h0) ==> Sampling(h))
  }

  /** From `h0` the handler has come to a parse error, and `h` is what that has left. */
  ghost predicate Broke(h0: Handler, h: Handler)
  {
    && (exists last :: Reaches(h0, last) && StepEnabled(last, ParseError) && h == StepNext(last, ParseError))
    && (Sampling(h0) ==> Sampling(h))
  }

  lemma StepOk(h: Handler, a: HandlerStep, h': Handler)
    requires HandlerOk(h) && StepEnabled(h, a) && a != ParseError && h' == StepNext(h, a)
    ensures HandlerOk(h')
  {
    HandlerStepKeeps(h, a);
  }

  lemma {:induction false} TrailOk(h0: Handler, steps: seq<HandlerStep>, trail: seq<Handler>, h: Handler, n: nat)
    requires HandlerOk(h0) && Trail(h0, steps, trail, h) && n <= |steps|
    ensures HandlerOk(trail[n])
    decreases n
  {
    if n > 0 {
      TrailOk(h0, steps, trail, h, n - 1);
      StepOk(trail[n - 1], steps[n - 1], trail[n]);
    }
  }

  /** Then `h` is in order too. */
  lemma OnOk(h0: Handler, h: Handler)
    requires On(h0, h)
    ensures HandlerOk(h)
  {
    var steps, trail :| Trail(h0, steps, trail, h);
    TrailOk(h0, steps, trail, h, |steps|);
  }

  /** The peers' doings in between two steps of a handler. */
  lemma {:induction false} OnEnvRun(h0: Handler, h: Handler, acts: seq<EnvAction>)
    requires On(h0, h) && EnvLegal(h.k, acts)
    ensures On(h0, h.(k := EnvRun(h.k, acts)))
    decreases |acts|
  {
    if acts == [] {
      assert h.(k := EnvRun(h.k, acts)) == h;
    } else {
      var h1 := h.(k := EnvNext(h.k, acts[0]));
      ReachesStep(h0, h, Env(acts[0]));
      OnEnvRun(h0, h1, acts[1..]);
      assert h1.(k := EnvRun(h1.k, acts[1..])) == h.(k := EnvRun(h.k, acts));
    }
  }

  lemma OnEnv(h0: Handler, h: Handler, k: Kernel)
    requires On(h0, h) && Evolves(h.k, k)
    ensures On(h0, h.(k := k))
    ensures EvolvesAt(h.k, k, h.conn.fd) && k.answers == h.k.answers
  {
    var acts :| EnvLegal(h.k, acts) && EnvRun(h.k, acts) == k;
    OnEnvRun(h0, h, acts);
    EnvRunEvolves(h.k, acts, h.conn.fd);
  }

  lemma OnStep(h0: Handler, h: Handler, a: HandlerStep)
    requires On(h0, h) && StepEnabled(h, a) && a != ParseError
    requires a.ParserCallback? ==> a.write.response == SERVER_RESPONSE
    requires a.SendData? ==> h.phase.Writing?
    ensures On(h0, StepNext(h, a))
  {
    ReachesStep(h0, h, a);
    StepSamples(h, a);
  }

  lemma StepSamples(h: Handler, a: HandlerStep)
    requires StepEnabled(h, a)
    requires a.ParserCallback? ==> a.write.response == SERVER_RESPONSE
    requires a.SendData? ==> h.phase.Writing?
    ensures Sampling(h) ==> Sampling(StepNext(h, a))
  {
  }

  lemma HandlerStarts(h0: Handler)
    requires HandlerOk(h0) && h0.pc.Start? && h0.outcome.None?
    ensures h0.conn.fd in h0.k.socks
    ensures var h := h0.(conn := h0.conn.(stalled := false));
            if h0.event.err then On(h0, Delete(h, ErrorEvent).(pc := Done))
            else if h0.event.input then On(h0, h.(pc := Receiving))
            else if h0.event.output then On(h0, h.(pc := Sending)) && h0.phase.Writing?
            else On(h0, h.(pc := Done))
  {
    ReachesRefl(h0);
    OnStep(h0, h0, Branch);
  }

  /**
   * How handleEvent ends. For an error event it makes no system call and deletes the connection.
   * To read, it goes on until recv returns no bytes: on EAGAIN and on a failure (`stalled`) the
   * connection stays, at the end of the stream it is deleted. To write, it goes on until the
   * buffer is all sent or send fails: on EAGAIN the connection stays, otherwise it is deleted.
   */
  ghost predicate Ended(before: seq<Answer>, h: Handler)
  {
    var fd, ev := h.conn.fd, h.event;
    && before <= h.k.answers && (h.outcome.Some? ==> fd !in h.k.socks && fd !in h.k.watches)
    && if ev.err || (!ev.input && !ev.output) then
         h.k.answers == before && (if ev.err then h.outcome.Some? && h.outcome.value.cause == ErrorEvent
                                   else h.outcome.None?)
       else
         && |before| < |h.k.answers|
         && var last := h.k.answers[|h.k.answers| - 1];
            if ev.input then
              match h.outcome
              case None => last == if h.conn.stalled then GotError(fd) else GotAgain(fd)
              case Some(o) => o.cause == EndOfStream && last == GotEnd(fd)
            else
              match h.outcome
              case None => last == PutAgain(fd)
              case Some(o) =>
                || (o.cause == SendFailed && last == PutError(fd))
                || (o.cause == AllSent && last.PutData? && last.fd == fd && last.n == last.asked)
  }

  /** What holds of a handler that is done. */
  lemma HandlerDone(h0: Handler, h: Handler)
    requires On(h0, h) && h0.pc.Start? && h0.outcome.None? && h.pc.Done? && h.event == h0.event
    ensures Reaches(h0, h) && HandlerOk(h) && Ended(h0.k.answers, h)
    ensures Sampled(h0.conn) ==> Sampling(h)
  {
    OnOk(h0, h);
    DoneAnswered(h0, h);
  }

  lemma SliceOfRest(c: Conn, n: nat)
    requires c.sent + n <= |c.sendBuffer|
    ensures c.sendBuffer[c.sent..][..n] == Slice(c, n)
  {
  }

  /** The step of a send that takes all that is left. */
  lemma LastSend(h0: Handler, h: Handler, n: nat)
    requires On(h0, h) && StepEnabled(h, SendData(n, NO_WRITE)) && Completes(h, n) && h.phase.Writing?
    ensures Alive(AfterSend(h, n)) && On(h0, Delete(Cleared(AfterSend(h, n)), AllSent))
  {
    OnStep(h0, h, SendData(n, NO_WRITE));
  }

  /** What the kernel may do in a call of recv that returns no bytes is a step of the handler. */
  lemma RecvAnswered(h0: Handler, h: Handler, n: int, again: bool, k: Kernel)
    requires On(h0, h) && Alive(h) && h.pc.Receiving? && -1 <= n <= 0
    requires var s := h.k.socks[h.conn.fd];
             if n == 0 then s.read >= s.arrived && s.closing && k == Noted(h.k, GotEnd(h.conn.fd))
             else if again then !Readable(s) && k == Noted(h.k, GotAgain(h.conn.fd))
             else k == Noted(h.k, GotError(h.conn.fd))
    ensures Answered(h0, h, NoRead(n, again), h.(k := k))
  {
  }

  /** How many bytes a call of send is offered: all that is left. */
  function Offered(c: Conn): nat
    requires c.sent <= |c.sendBuffer|
  {
    |c.sendBuffer| - c.sent
  }

  /** What the kernel may do in a call of send is a step of the handler. */
  lemma SendAnswered(h0: Handler, h: Handler, n: int, again: bool, k: Kernel)
    requires On(h0, h) && Alive(h) && h.pc.Sending? && h.phase.Writing? && h.conn.sent < |h.conn.sendBuffer|
    requires -1 <= n <= |h.conn.sendBuffer| - h.conn.sent && n != 0
    requires var s := h.k.socks[h.conn.fd];
             if n > 0 then
               n <= s.room && k == Send(h.k, h.conn.fd, Offered(h.conn), h.conn.sendBuffer[h.conn.sent..][..n])
             else if again then s.room == 0 && k == Noted(h.k, PutAgain(h.conn.fd))
             else k == Noted(h.k, PutError(h.conn.fd))
    ensures n > 0 ==>
              StepEnabled(h, SendData(n, NO_WRITE)) && k == Send(h.k, h.conn.fd, Offered(h.conn), Slice(h.conn, n))
    ensures n < 0 ==> Answered(h0, h, NoSend(again), h.(k := k))
  {
    if n > 0 {
      SliceOfRest(h.conn, n);
    }
  }

  /** It makes no difference that write is called before the callback is noted. */
  lemma WriteHeard(h: Handler, w: WriteCall)
    requires h.pc.Parsing? && h.pc.todo != [] && CanWrite(h, w)
    ensures Heard(ConnectionSpec.Write(h, w)) == ConnectionSpec.Write(Heard(h), w)
  {
  }

  /** A handler under way has a socket to read from, or to send into. */
  lemma SocketThere(h0: Handler, h: Handler)
    requires On(h0, h) && h.outcome.None?
    ensures h.conn.fd in h.k.socks && ValidSock(h.k.socks[h.conn.fd])
    ensures h.pc.Sending? ==> h.phase.Writing? && h.conn.sent < |h.conn.sendBuffer|
  {
    OnOk(h0, h);
  }

  /** The step that a handler takes for a recv that returns no bytes. */
  function NoRead(readBytes: int, again: bool): HandlerStep
  {
    if readBytes == 0 then RecvEnd else if again then RecvAgain else RecvFail
  }

  /** The step that a handler takes for a send that takes no bytes. */
  function NoSend(again: bool): HandlerStep
  {
    if again then SendAgain else SendFail
  }

  /** In `h` the kernel has given the answer of the step `a`, and nothing but that has led to `now`. */
  ghost predicate Answered(h0: Handler, h: Handler, a: HandlerStep, now: Handler)
  {
    On(h0, h) && StepEnabled(h, a) && |Answers(h, a)| == 1 && now == Noting(h, Answers(h, a)[0])
  }

  class Clientconnection {
    const id: ConnId                       // the object's identity, which closures capture
    const socket: Fd
    const ioc: IOReactor<Callback>
    const request: HttpRequest
    var response: HttpResponse?
    var sentBytes: nat
    var sendBuffer: string
    ghost var fed: seq<string>
    ghost var heard: Trace
    ghost var refused: bool
    ghost var sends: nat
    ghost var stalled: bool
    ghost var outcome: Option<Outcome>     // set once the object has been deleted

    ghost function View(): Conn
      reads this, request, response
    {
      Conn(socket, request.View(), if response == null then None else Some(response.View()),
           sendBuffer, sentBytes, fed, heard, refused, sends, stalled)
    }

    ghost function Now(ev: PollEvent, phase: Phase, pc: Pc): Handler
      reads this, request, response, ioc.kernel, ioc.eventCallback, ioc.eventPriority
    {
      Handler(id, phase, ev, ioc.kernel.k, ioc.Reg(), View(), outcome, pc)
    }

    /** How much of the peer's stream has not been taken yet. */
    ghost function Left(): nat
      reads ioc.kernel
    {
      var k := ioc.kernel.k;
      if socket in k.socks && k.socks[socket].read <= |k.socks[socket].stream|
      then |k.socks[socket].stream| - k.socks[socket].read else 0
    }

    /** How much of the buffer is still to be sent. */
    ghost function Unsent(): nat
      reads this
    {
      if sentBytes <= |sendBuffer| then |sendBuffer| - sentBytes else 0
    }

    /** recv would fail with EAGAIN. */
    ghost predicate Drained()
      reads ioc.kernel
    {
      socket in ioc.kernel.k.socks && !Readable(ioc.kernel.k.socks[socket])
    }

    /** send would fail with EAGAIN. */
    ghost predicate Full()
      reads ioc.kernel
    {
      socket in ioc.kernel.k.socks && ioc.kernel.k.socks[socket].room == 0
    }

    constructor (id: ConnId, sockfd: Fd, reactor: IOReactor<Callback>)
      ensures this.socket == sockfd && this.ioc == reactor && this.id == id
      ensures View() == NewConn(sockfd) && outcome == None && fresh(request)
    {
      this.id := id;
      socket := sockfd;
      ioc := reactor;
      var r := new HttpRequest();
      request := r;
      response := null;
      sentBytes := 0;
      sendBuffer := "";
      fed, heard, refused, sends, stalled, outcome := [], [], false, 0, false, None;
    }

    /** `delete conn`: the destructor closes the socket. */
    method Destroy(ghost cause: Cause, ghost ev: PollEvent, ghost phase: Phase, ghost pc: Pc)
      requires outcome.None? && socket in ioc.kernel.k.socks
      modifies this`outcome, ioc.kernel`k
      ensures socket !in ioc.kernel.k.socks && socket !in ioc.kernel.k.watches
      ensures ioc.kernel.k.socks == old(ioc.kernel.k.socks) - {socket}
      ensures ioc.kernel.k.watches == old(ioc.kernel.k.watches) - {socket}
      ensures Now(ev, phase, Done) == Delete(old(Now(ev, phase, pc)), cause).(pc := Done)
    {
      outcome := Some(Outcome(cause, ioc.kernel.k.socks[socket], View()));
      ioc.kernel.Close(socket);
    }

    // ---- The llhttp callbacks ----

    method OnMethod(at: string)
      modifies request
      ensures request.View() == Apply(old(request.View()), ParserEvent.OnMethod(at))
      ensures request.httpMethod == old(request.httpMethod) + at
    {
      request.httpMethod := request.httpMethod + at;
    }

    method OnUrl(at: string)
      modifies request
      ensures request.View() == Apply(old(request.View()), ParserEvent.OnUrl(at))
      ensures request.url == old(request.url) + at
    {
      request.url := request.url + at;
    }

    method OnVersion(at: string)
      modifies request
      ensures request.View() == Apply(old(request.View()), ParserEvent.OnVersion(at))
      ensures request.version == old(request.version) + at
    {
      request.version := request.version + at;
    }

    method OnHeaderField(at: string)
      modifies request
      ensures request.View() == Apply(old(request.View()), ParserEvent.OnHeaderField(at))
      ensures request.key == old(request.key) + at
    {
      request.key := request.key + at;
    }

    method OnHeaderValue(at: string)
      modifies request
      ensures request.View() == Apply(old(request.View()), ParserEvent.OnHeaderValue(at))
      ensures request.value == old(request.value) + at
    {
      request.value := request.value + at;
    }

    method OnHeaderValueComplete()
      modifies request
      ensures request.View() == Apply(old(request.View()), ParserEvent.OnHeaderValueComplete)
      ensures request.headers == old(request.headers)[old(request.key) := old(request.value)]
      ensures request.key == "" && request.value == ""
    {
      request.headers := request.headers[request.key := request.value];
      request.key := "";
      request.value := "";
    }

    method OnBody(at: string)
      modifies request
      ensures request.View() == Apply(old(request.View()), ParserEvent.OnBody(at))
      ensures request.body == old(request.body) + at
    {
      request.body := request.body + at;
    }

    // ---- Writing ----

    /** The headers are visited in whatever order the map yields them. */
    method Serialize() returns (ghost order: seq<Field>)
      modifies this`sendBuffer
      ensures response == null ==> sendBuffer == old(sendBuffer)
      ensures response != null ==>
                IsOrder(order, response.headers) && sendBuffer == Print(response.View(), order)
    {
      order := [];
      if response == null {
        return;
      }
      sendBuffer := "HTTP/" + response.version + " " + response.statusCode + " " + response.statusMessage + CRLF;
      var start := sendBuffer;
      order := SerializeHeaders(response.headers);
      sendBuffer := sendBuffer + CRLF + response.body;
      assert start == StatusLine(response.View()) + CRLF;
    }

    method SerializeHeaders(headers: map<string, string>) returns (ghost order: seq<Field>)
      modifies this`sendBuffer
      ensures IsOrder(order, headers) && sendBuffer == old(sendBuffer) + PrintFields(order)
    {
      order := [];
      var rest := headers;
      while rest != map[]
        invariant Visited(headers, rest, order)
        invariant sendBuffer == old(sendBuffer) + PrintFields(order)
        decreases |rest|
      {
        var name :| name in rest;
        VisitOne(headers, rest, order, name);
        var line := name + ": " + rest[name] + CRLF;
        AppendAssociates(old(sendBuffer), PrintFields(order), line);
        sendBuffer := sendBuffer + line;
        order := order + [(name, rest[name])];
        rest := rest - {name};
      }
    }

    /** write, called from the handler: the step of ConnectionSpec for the order that was visited. */
    method Write(data: HttpResponse, ghost ev: PollEvent, ghost phase: Phase, ghost pc: Pc)
      returns (ghost w: WriteCall, ghost mid: Kernel)
      requires ioc.Valid()
      modifies this`response, this`sendBuffer, ioc.kernel`k, ioc.eventCallback, ioc.eventPriority
      ensures response == data && w.response == data.View() && Evolves(old(ioc.kernel.k), mid)
      ensures var h := old(Now(ev, phase, pc)).(k := mid);
              CanWrite(h, w) && Now(ev, phase, pc) == ConnectionSpec.Write(h, w)
      ensures Prints(data.View(), sendBuffer)
      ensures Controls(old(ioc.kernel.k.answers), ioc.kernel.k.answers, EPOLL_CTL_MOD, socket)
      ensures w.modified ==>
                && ioc.eventCallback.map_ == old(ioc.eventCallback.map_)[socket := Callback.HandleEvent(id, Writing)]
                && ioc.eventPriority.map_ == old(ioc.eventPriority.map_)[socket := HELPER_SOCK]
                && ioc.kernel.k.watches[socket].output && !ioc.kernel.k.watches[socket].input
      ensures !w.modified ==> ioc.Reg() == old(ioc.Reg()) && ioc.kernel.k.watches == mid.watches
    {
      response := data;
      ghost var order := Serialize();
      var r;
      r, mid := ioc.ModifyTrack(socket, false, true, HELPER_SOCK, Callback.HandleEvent(id, Writing));
      w := WriteCall(data.View(), order, r == 0);
    }

    // ---- handleEvent ----

    /** The parser's callbacks, but for what on_message_complete calls. */
    method Assemble(e: ParserEvent)
      modifies request
      ensures request.View() == Apply(old(request.View()), e)
    {
      match e {
        case OnMethod(at) => OnMethod(at);
        case OnUrl(at) => OnUrl(at);
        case OnVersion(at) => OnVersion(at);
        case OnHeaderField(at) => OnHeaderField(at);
        case OnHeaderValue(at) => OnHeaderValue(at);
        case OnHeaderValueComplete => OnHeaderValueComplete();
        case OnBody(at) => OnBody(at);
        case MessageBegin | OnHeadersComplete | OnMessageComplete =>
      }
    }

    /** What on_message_complete calls; `h` is the handler when epoll_ctl answered, if it was called. */
    method CallUser(e: ParserEvent, ghost h0: Handler, ghost ev: PollEvent, ghost phase: Phase, ghost pc: Pc)
      returns (ghost h: Handler, ghost w: WriteCall)
      requires ioc.Valid() && On(h0, Now(ev, phase, pc))
      modifies this`response, this`sendBuffer, ioc.kernel`k, ioc.eventCallback, ioc.eventPriority
      ensures On(h0, h) && h.pc == pc && w.response == SERVER_RESPONSE
      ensures e.OnMessageComplete? ==> CanWrite(h, w)
      ensures if e.OnMessageComplete? then
                && Controls(old(ioc.kernel.k.answers), ioc.kernel.k.answers, EPOLL_CTL_MOD, socket)
                && response != null && Prints(response.View(), sendBuffer)
              else ioc.kernel.k == old(ioc.kernel.k) && response == old(response) && sendBuffer == old(sendBuffer)
      ensures Now(ev, phase, pc) == if e.OnMessageComplete? then ConnectionSpec.Write(h, w) else h
      ensures h == old(Now(ev, phase, pc)).(k := h.k) && Left() == old(Left())
    {
      h, w := Now(ev, phase, pc), NO_WRITE;
      if e.OnMessageComplete? {
        ghost var mid;
        w, mid := OnRequest(this, ev, phase, pc);
        OnEnv(h0, h, mid);
        h := h.(k := mid);
      }
    }

    /** The callback's own part, and the history of it. */
    method Hear(e: ParserEvent, ghost ev: PollEvent, ghost phase: Phase, ghost todo: Trace)
      requires todo != [] && todo[0] == e
      modifies request, this`heard
      ensures Now(ev, phase, Parsing(todo[1..])) == Heard(old(Now(ev, phase, Parsing(todo))))
    {
      Assemble(e);
      heard := heard + [e];
    }

    /** One of the parser's callbacks; on_message_complete calls the user's. */
    method RunParserCallback(e: ParserEvent, ghost h0: Handler, ghost ev: PollEvent, ghost phase: Phase,
                             ghost todo: Trace)
      requires ioc.Valid() && todo != [] && todo[0] == e
      requires On(h0, Now(ev, phase, Parsing(todo))) && outcome.None?
      modifies this`response, this`sendBuffer, this`heard
      modifies request, ioc.kernel`k, ioc.eventCallback, ioc.eventPriority
      ensures On(h0, Now(ev, phase, Parsing(todo[1..])))
      ensures request.View() == Apply(old(request.View()), e) && heard == old(heard) + [e]
      ensures Left() == old(Left())
      ensures if e.OnMessageComplete? then
                && Controls(old(ioc.kernel.k.answers), ioc.kernel.k.answers, EPOLL_CTL_MOD, socket)
                && response != null && Prints(response.View(), sendBuffer)
              else ioc.kernel.k == old(ioc.kernel.k) && response == old(response) && sendBuffer == old(sendBuffer)
    {
      ghost var h, w := CallUser(e, h0, ev, phase, Parsing(todo));
      Hear(e, ev, phase, todo);
      SocketThere(h0, h);
      OnStep(h0, h, ParserCallback(w));
      if e.OnMessageComplete? {
        WriteHeard(h, w);
      }
    }

    /** All the callbacks that the parser makes of one span of input. */
    method RunParserCallbacks(trace: Trace, ghost h0: Handler, ghost ev: PollEvent, ghost phase: Phase)
      requires ioc.Valid() && outcome.None? && On(h0, Now(ev, phase, Parsing(trace)))
      modifies this`response, this`sendBuffer, this`heard
      modifies request, ioc.kernel`k, ioc.eventCallback, ioc.eventPriority
      ensures On(h0, Now(ev, phase, Parsing([]))) && Left() == old(Left())
      ensures request.View() == ApplyAll(old(request.View()), trace) && heard == old(heard) + trace
    {
      for i := 0 to |trace|
        invariant On(h0, Now(ev, phase, Parsing(trace[i..])))
        invariant request.View() == ApplyAll(old(request.View()), trace[..i]) && heard == old(heard) + trace[..i]
        invariant Left() == old(Left())
      {
        ApplyNext(old(request.View()), trace, i);
        RunParserCallback(trace[i], h0, ev, phase, trace[i..]);
        AppendAssociates(old(heard), trace[..i], [trace[i]]);
      }
      assert trace[|trace|..] == [] && trace[..|trace|] == trace;
    }

    /** The handler, when the parser is about to be given `data`. */
    ghost function Fed(data: string, ev: PollEvent, phase: Phase, trace: Trace): Handler
      reads this, request, response, ioc.kernel, ioc.eventCallback, ioc.eventPriority
    {
      Now(ev, phase, Parsing(trace)).(conn := View().(fed := fed + [data]))
    }

    /**
     * llhttp_execute for `data`, making the callbacks `trace`; `ok` says whether it returns HPE_OK,
     * and `h` is the handler just before it returns.
     */
    method LlhttpExecute(data: string, trace: Trace, ghost h0: Handler, ghost ev: PollEvent, ghost phase: Phase)
      returns (ok: bool, ghost h: Handler)
      requires ioc.Valid() && outcome.None? && On(h0, Fed(data, ev, phase, trace))
      modifies this`response, this`sendBuffer, this`fed, this`heard, this`refused
      modifies request, ioc.kernel`k, ioc.eventCallback, ioc.eventPriority
      ensures On(h0, h) && Now(ev, phase, Parsing([])) == (if ok then h else ConnectionSpec.ParserRefuses(h))
      ensures (!ok ==> refused) && fed == old(fed) + [data] && Left() == old(Left())
      ensures request.View() == ApplyAll(old(request.View()), trace) && heard == old(heard) + trace
    {
      fed := fed + [data];
      RunParserCallbacks(trace, h0, ev, phase);
      h := Now(ev, phase, Parsing([]));
      ok := *;
      if !ok {
        refused := true;
      }
    }

    /** The parser's work on what one recv has returned, and error if it fails. */
    method Feed(data: string, trace: Trace, ghost h0: Handler, ghost ev: PollEvent, ghost phase: Phase)
      returns (ok: bool)
      requires ioc.Valid() && outcome.None? && On(h0, Fed(data, ev, phase, trace))
      modifies this`response, this`sendBuffer, this`fed, this`heard, this`refused, this`outcome
      modifies request, ioc.kernel`k, ioc.eventCallback, ioc.eventPriority
      ensures ok ==> outcome.None? && On(h0, Now(ev, phase, Receiving)) && Left() == old(Left())
      ensures !ok ==> outcome.Some? && refused && Broke(h0, Now(ev, phase, Receiving))
    {
      ghost var h;
      ok, h := LlhttpExecute(data, trace, h0, ev, phase);
      SocketThere(h0, h);
      if ok {
        OnStep(h0, h, ParseOk);
      } else {
        OnError(this, Unparsed, ev, phase, Parsing([]));
        assert Now(ev, phase, Receiving) == StepNext(h, ParseError);
      }
    }

    /** The system call recv; `h` is the handler when the kernel answered it. */
    method CallRecv(ghost h0: Handler, ghost ev: PollEvent, ghost phase: Phase)
      returns (readBytes: int, slice: string, again: bool, ghost h: Handler)
      requires outcome.None? && On(h0, Now(ev, phase, Receiving))
      modifies ioc.kernel`k
      ensures On(h0, h) && h.pc.Receiving?
      ensures readBytes > 0 ==>
                && StepEnabled(h, RecvData(readBytes, [])) && slice == Taken(h.k.socks[h.conn.fd], readBytes)
                && Now(ev, phase, Receiving) == h.(k := Recv(h.k, h.conn.fd, 1024, readBytes))
                && Left() < old(Left())
      ensures readBytes <= 0 ==> Answered(h0, h, NoRead(readBytes, again), Now(ev, phase, Receiving))
    {
      ghost var mid;
      h := Now(ev, phase, Receiving);
      SocketThere(h0, h);
      readBytes, slice, again, mid := ioc.kernel.Recv(socket, RECV_BUFFER_SIZE);
      OnEnv(h0, h, mid);
      h := h.(k := mid);
      if readBytes <= 0 {
        RecvAnswered(h0, h, readBytes, again, ioc.kernel.k);
      }
    }

    /** One recv, and the parser's work on what it returned. */
    method ReadOnce(ghost h0: Handler, ghost ev: PollEvent, ghost phase: Phase)
      returns (readBytes: int, again: bool, ok: bool, ghost h: Handler)
      requires ioc.Valid() && outcome.None? && On(h0, Now(ev, phase, Receiving))
      modifies this`response, this`sendBuffer, this`fed, this`heard, this`refused, this`outcome
      modifies request, ioc.kernel`k, ioc.eventCallback, ioc.eventPriority
      ensures ok && readBytes > 0 ==>
                outcome.None? && On(h0, Now(ev, phase, Receiving)) && Left() < old(Left())
      ensures readBytes <= 0 ==>
                ok && outcome.None? && Answered(h0, h, NoRead(readBytes, again), Now(ev, phase, Receiving))
      ensures !ok ==> outcome.Some? && refused && Broke(h0, Now(ev, phase, Receiving))
    {
      var slice;
      readBytes, slice, again, h := CallRecv(h0, ev, phase);
      ok := true;
      if readBytes > 0 {
        var trace: Trace := *;
        OnStep(h0, h, RecvData(readBytes, trace));
        assert Fed(slice, ev, phase, trace) == StepNext(h, RecvData(readBytes, trace));
        ok := Feed(slice, trace, h0, ev, phase);
      }
    }

    /** After the recv loop: the end of the stream is an error, any other failure is not. */
    method EndRead(readBytes: int, again: bool, ghost h0: Handler, ghost h: Handler,
                   ghost ev: PollEvent, ghost phase: Phase)
      requires outcome.None? && readBytes <= 0
      requires Answered(h0, h, NoRead(readBytes, again), Now(ev, phase, Receiving))
      modifies this`stalled, this`outcome, ioc.kernel`k
      ensures On(h0, Now(ev, phase, Done))
      ensures outcome == if readBytes == 0 then Some(Outcome(EndOfStream, h.k.socks[socket], h.conn)) else None
      ensures outcome.None? && !stalled ==> Drained()
    {
      OnOk(h0, h);
      OnStep(h0, h, NoRead(readBytes, again));
      if readBytes == 0 {
        OnError(this, EndOfStream, ev, phase, Receiving);
      } else if !again {
        stalled := true;
      }
    }

    /**
     * The recv loop of the EPOLLIN branch. After a parse error the program goes round again with an
     * object that error has just deleted, which has no meaning; here the loop ends instead.
     */
    method RecvLoop(ghost h0: Handler, ghost ev: PollEvent, ghost phase: Phase)
      returns (readBytes: int, again: bool, ok: bool, ghost h: Handler)
      requires ioc.Valid() && outcome.None? && On(h0, Now(ev, phase, Receiving))
      modifies this`response, this`sendBuffer, this`fed, this`heard, this`refused, this`outcome
      modifies request, ioc.kernel`k, ioc.eventCallback, ioc.eventPriority
      ensures ok ==> outcome.None? && readBytes <= 0
                     && Answered(h0, h, NoRead(readBytes, again), Now(ev, phase, Receiving))
      ensures !ok ==> outcome.Some? && refused && Broke(h0, Now(ev, phase, Receiving))
    {
      readBytes, again, ok, h := 1, false, true, h0;
      while ok && readBytes > 0
        invariant ok ==> outcome.None?
        invariant ok && readBytes > 0 ==> On(h0, Now(ev, phase, Receiving))
        invariant ok && readBytes <= 0 ==> Answered(h0, h, NoRead(readBytes, again), Now(ev, phase, Receiving))
        invariant !ok ==> outcome.Some? && refused && Broke(h0, Now(ev, phase, Receiving))
        decreases ok, readBytes > 0, Left()
      {
        readBytes, again, ok, h := ReadOnce(h0, ev, phase);
      }
    }

    /** The system call send; `h` is the handler when the kernel answered it. */
    method CallSend(ghost h0: Handler, ghost ev: PollEvent) returns (bytesSent: int, again: bool, ghost h: Handler)
      requires outcome.None? && On(h0, Now(ev, Writing, Sending))
      modifies ioc.kernel`k
      ensures On(h0, h) && bytesSent != 0
      ensures bytesSent > 0 ==>
                && StepEnabled(h, SendData(bytesSent, NO_WRITE))
                && Now(ev, Writing, Sending) == h.(k := Send(h.k, h.conn.fd, Offered(h.conn), Slice(h.conn, bytesSent)))
      ensures bytesSent < 0 ==> Answered(h0, h, NoSend(again), Now(ev, Writing, Sending))
    {
      ghost var mid;
      h := Now(ev, Writing, Sending);
      SocketThere(h0, h);
      bytesSent, again, mid := ioc.kernel.Send(socket, sendBuffer[sentBytes..]);
      OnEnv(h0, h, mid);
      h := h.(k := mid);
      SendAnswered(h0, h, bytesSent, again, ioc.kernel.k);
    }

    /** One send from where the last one stopped, counted in sentBytes. */
    method SendSlice(ghost h0: Handler, ghost ev: PollEvent)
      returns (bytesSent: int, again: bool, ghost h: Handler)
      requires outcome.None? && On(h0, Now(ev, Writing, Sending))
      modifies this`sentBytes, this`sends, ioc.kernel`k
      ensures On(h0, h) && bytesSent != 0
      ensures bytesSent > 0 ==>
                && StepEnabled(h, SendData(bytesSent, NO_WRITE)) && Now(ev, Writing, Sending) == AfterSend(h, bytesSent)
                && Unsent() < old(Unsent())
      ensures bytesSent < 0 ==>
                Answered(h0, h, NoSend(again), Now(ev, Writing, Sending)) && Unsent() == old(Unsent())
    {
      bytesSent, again, h := CallSend(h0, ev);
      if bytesSent > 0 {
        sentBytes := sentBytes + bytesSent;
        sends := sends + 1;
      }
    }

    /** The buffer is all sent: reset it and call success. */
    method CompleteSend(ghost h0: Handler, ghost ev: PollEvent, ghost h: Handler, ghost n: nat)
      requires outcome.None? && On(h0, h) && StepEnabled(h, SendData(n, NO_WRITE))
      requires Now(ev, Writing, Sending) == AfterSend(h, n) && Completes(h, n)
      modifies this`sendBuffer, this`sentBytes, this`outcome, ioc.kernel`k
      ensures On(h0, Now(ev, Writing, Done)) && outcome.Some? && outcome.value.cause.AllSent? && Unsent() == 0
      ensures sendBuffer == "" && sentBytes == 0
      ensures outcome.value.conn.sendBuffer == "" && outcome.value.conn.sent == 0
    {
      LastSend(h0, h, n);
      sendBuffer := "";
      sentBytes := 0;
      OnSent(this, ev, Writing, Done);
    }

    /** One round of the send loop; `goesOn` if something is sent and more is left. */
    method SendOnce(ghost h0: Handler, ghost ev: PollEvent)
      returns (bytesSent: int, again: bool, goesOn: bool, ghost h: Handler)
      requires outcome.None? && On(h0, Now(ev, Writing, Sending))
      modifies this`sendBuffer, this`sentBytes, this`sends, this`outcome, ioc.kernel`k
      ensures goesOn ==> outcome.None? && On(h0, Now(ev, Writing, Sending)) && Unsent() < old(Unsent())
      ensures !goesOn ==> (outcome.None? <==> bytesSent <= 0) && Unsent() <= old(Unsent())
      ensures !goesOn && outcome.None? ==> Answered(h0, h, NoSend(again), Now(ev, Writing, Sending))
      ensures !goesOn && outcome.Some? ==> On(h0, Now(ev, Writing, Done)) && outcome.value.cause.AllSent?
    {
      bytesSent, again, h := SendSlice(h0, ev);
      goesOn := false;
      if bytesSent > 0 {
        if sentBytes >= |sendBuffer| {
          CompleteSend(h0, ev, h, bytesSent);
        } else {
          OnStep(h0, h, SendData(bytesSent, NO_WRITE));
          goesOn := true;
        }
      }
    }

    /** After the send loop: no room is no error, anything else is. */
    method EndSend(again: bool, ghost h0: Handler, ghost h: Handler, ghost ev: PollEvent)
      requires outcome.None? && Answered(h0, h, NoSend(again), Now(ev, Writing, Sending))
      modifies this`outcome, ioc.kernel`k
      ensures On(h0, Now(ev, Writing, Done)) && (outcome.None? ==> Full())
      ensures outcome == if again then None else Some(Outcome(SendFailed, h.k.socks[socket], h.conn))
    {
      OnOk(h0, h);
      OnStep(h0, h, NoSend(again));
      if !again {
        OnError(this, SendFailed, ev, Writing, Sending);
      }
    }

    /** The send loop of the EPOLLOUT branch, in the handler that write registers. */
    method SendLoop(ghost h0: Handler, ghost ev: PollEvent)
      returns (bytesSent: int, again: bool, ghost h: Handler)
      requires outcome.None? && On(h0, Now(ev, Writing, Sending))
      modifies this`sendBuffer, this`sentBytes, this`sends, this`outcome, ioc.kernel`k
      ensures outcome.None? <==> bytesSent <= 0
      ensures outcome.None? ==> Answered(h0, h, NoSend(again), Now(ev, Writing, Sending))
      ensures outcome.Some? ==> On(h0, Now(ev, Writing, Done)) && outcome.value.cause.AllSent?
    {
      var goesOn := true;
      bytesSent, again, h := 1, false, h0;
      while goesOn
        invariant goesOn ==> outcome.None? && On(h0, Now(ev, Writing, Sending))
        invariant !goesOn ==> (outcome.None? <==> bytesSent <= 0)
        invariant !goesOn && outcome.None? ==> Answered(h0, h, NoSend(again), Now(ev, Writing, Sending))
        invariant !goesOn && outcome.Some? ==> On(h0, Now(ev, Writing, Done)) && outcome.value.cause.AllSent?
        decreases Unsent(), goesOn
      {
        bytesSent, again, goesOn, h := SendOnce(h0, ev);
      }
    }

    /** The EPOLLIN branch. */
    method ReadAll(ghost h0: Handler, ghost ev: PollEvent, ghost phase: Phase) returns (ok: bool)
      requires ioc.Valid() && outcome.None? && On(h0, Now(ev, phase, Receiving))
      modifies this`response, this`sendBuffer, this`fed, this`heard, this`refused, this`stalled, this`outcome
      modifies request, ioc.kernel`k, ioc.eventCallback, ioc.eventPriority
      ensures ok ==> On(h0, Now(ev, phase, Done)) && (outcome.None? ==> stalled || Drained())
      ensures !ok ==> refused && Broke(h0, Now(ev, phase, Receiving))
    {
      var readBytes, again;
      ghost var h;
      readBytes, again, ok, h := RecvLoop(h0, ev, phase);
      if ok {
        EndRead(readBytes, again, h0, h, ev, phase);
      }
    }

    /** The EPOLLOUT branch, in the handler that write registers. */
    method SendAll(ghost h0: Handler, ghost ev: PollEvent)
      requires outcome.None? && On(h0, Now(ev, Writing, Sending))
      modifies this`sendBuffer, this`sentBytes, this`sends, this`outcome, ioc.kernel`k
      ensures On(h0, Now(ev, Writing, Done)) && (outcome.None? ==> Full())
    {
      var bytesSent, again;
      ghost var h;
      bytesSent, again, h := SendLoop(h0, ev);
      if bytesSent <= 0 {
        EndSend(again, h0, h, ev);
      }
    }

    /**
     * handleEvent takes the steps of ConnectionSpec, one after the other and to the end, whatever
     * the kernel answers, and the invariant of the connection holds when it returns; it always
     * returns. How it ends, and with what outcome, is decided by the last answer it got from the
     * kernel: Ended. If the parser fails (`ok` is false) it takes the steps as far as the parse
     * error, with which error deletes the connection. `phase` says which callbacks the closure carries.
     */
    method HandleEvent(ev: PollEvent, phase: Phase) returns (ok: bool)
      requires ioc.Valid() && outcome.None? && HandlerOk(Now(ev, phase, Start))
      modifies this, request, ioc.kernel`k, ioc.eventCallback, ioc.eventPriority
      ensures ok ==> Reaches(old(Now(ev, phase, Start)), Now(ev, phase, Done)) && HandlerOk(Now(ev, phase, Done))
      ensures ok ==> Ended(old(ioc.kernel.k.answers), Now(ev, phase, Done))
      ensures ok && outcome.None? && !ev.err && ev.input ==> stalled || Drained()
      ensures ok && outcome.None? && !ev.err && !ev.input && ev.output ==> Full()
      ensures ok && Sampled(old(View())) ==> Sampling(Now(ev, phase, Done))
      ensures !ok && Sampled(old(View())) ==> Sampling(Now(ev, phase, Receiving))
      ensures !ok ==> refused && !ev.err && ev.input && Broke(old(Now(ev, phase, Start)), Now(ev, phase, Receiving))
    {
      ghost var h0 := Now(ev, phase, Start);
      HandlerStarts(h0);
      ok, stalled := true, false;
      if ev.err {
        OnError(this, ErrorEvent, ev, phase, Start);
      } else if ev.input {
        ok := ReadAll(h0, ev, phase);
      } else if ev.output {
        SendAll(h0, ev);
      }
      if ok {
        HandlerDone(h0, Now(ev, phase, Done));
      }
    }
  }

  lemma ApplyNext(r: Request, trace: Trace, i: nat)
    requires i < |trace|
    ensures ApplyAll(r, trace[..i + 1]) == Apply(ApplyAll(r, trace[..i]), trace[i])
    ensures trace[..i] + [trace[i]] == trace[..i + 1] && trace[i..][1..] == trace[i + 1..]
  {
    assert trace[..i + 1] == trace[..i] + [trace[i]];
    ApplyAllAppend(r, trace[..i], [trace[i]]);
    ApplyOne(ApplyAll(r, trace[..i]), [trace[i]]);
  }

  /** For a write call that is not made. */
  const NO_WRITE := WriteCall(SERVER_RESPONSE, [], false)

  /** `order` is how far an iteration has come that has `rest` still to visit. */
  predicate Visited(headers: map<string, string>, rest: map<string, string>, order: seq<Field>)
    ensures Visited(headers, map[], order) ==> IsOrder(order, headers)
  {
    assert headers - {} == headers;
    && (forall n :: n in rest ==> n in headers && rest[n] == headers[n])
    && IsOrder(order, headers - rest.Keys)
  }

  /** One more entry of the map has been visited and printed. */
  lemma VisitOne(headers: map<string, string>, rest: map<string, string>, order: seq<Field>, name: string)
    requires name in rest && Visited(headers, rest, order)
    ensures Visited(headers, rest - {name}, order + [(name, rest[name])])
    ensures PrintFields(order + [(name, rest[name])])
            == PrintFields(order) + (name + ": " + rest[name] + CRLF)
  {
    var done, f := headers - rest.Keys, (name, rest[name]);
    OrderPush(order, done, f);
    assert headers - (rest - {name}).Keys == done[name := f.1];
    PrintFieldsPush(order, f);
  }

  lemma PrintFieldsPush(order: seq<Field>, f: Field)
    ensures PrintFields(order + [f]) == PrintFields(order) + (f.0 + ": " + f.1 + CRLF)
  {
    PrintFieldsAppend(order, [f]);
    assert [f][1..] == [];
    assert PrintFields([f]) == f.0 + ": " + f.1 + CRLF;
  }

  // ---- src/server.cpp ----

  const SERVER_RESPONSE := Response(
    "1.1", "200", "OK",
    map["Content-Type" := "text/plain", "Connection" := "close", "Content-Length" := "25"],
    "This is fast!! C++ server")

  lemma ServerHeadersWellFormed()
    ensures WellFormedField(("Content-Type", "text/plain"))
    ensures WellFormedField(("Connection", "close"))
    ensures WellFormedField(("Content-Length", "25"))
  {
  }

  /** The response of the sample server is well formed, and gives its own length. */
  lemma ServerResponseWellFormed()
    ensures WellFormed(SERVER_RESPONSE)
    ensures |SERVER_RESPONSE.body| == 25 && SERVER_RESPONSE.headers["Content-Length"] == "25"
  {
    ServerHeadersWellFormed();
    var r := SERVER_RESPONSE;
    forall name | name in r.headers ensures WellFormedField((name, r.headers[name])) {
      assert name == "Content-Type" || name == "Connection" || name == "Content-Length";
    }
  }

  predicate IsSampleField(f: Field)
  {
    f == ("Content-Type", "text/plain") || f == ("Connection", "close") || f == ("Content-Length", "25")
  }

  predicate IsSampleLine(line: string)
  {
    || line == "Content-Type: text/plain\r\n"
    || line == "Connection: close\r\n"
    || line == "Content-Length: 25\r\n"
  }

  function LineOf(f: Field): string { f.0 + ": " + f.1 + CRLF }

  lemma SampleLines(f: Field, g: Field)
    requires IsSampleField(f) && IsSampleField(g) && f.0 != g.0
    ensures IsSampleLine(LineOf(f)) && LineOf(f) != LineOf(g)
  {
    assert "Content-Type" + ": " + "text/plain" + CRLF == "Content-Type: text/plain\r\n";
    assert "Connection" + ": " + "close" + CRLF == "Connection: close\r\n";
    assert "Content-Length" + ": " + "25" + CRLF == "Content-Length: 25\r\n";
  }

  /** However the three headers are visited, each comes once. */
  lemma SampleOrder(order: seq<Field>)
    requires IsOrder(order, SERVER_RESPONSE.headers)
    ensures |order| == 3 && forall i :: 0 <= i < 3 ==> IsSampleField(order[i])
  {
    var headers := SERVER_RESPONSE.headers;
    forall i | 0 <= i < |order| ensures IsSampleField(order[i]) {
      OrderEntries(order, headers, i);
    }
    OrderSize(order, headers);
    assert headers.Keys == {"Content-Type", "Connection", "Content-Length"};
    assert |headers| == |headers.Keys|;
  }

  lemma ThreeFields(order: seq<Field>)
    requires |order| == 3
    ensures PrintFields(order) == LineOf(order[0]) + LineOf(order[1]) + LineOf(order[2])
  {
    var rest := order[1..];
    assert rest[1..] == [order[2]] && [order[2]][1..] == [];
    assert PrintFields([order[2]]) == LineOf(order[2]);
  }

  /** What the sample server puts on the wire, byte for byte, but for the order of the headers. */
  ghost predicate IsSampleText(text: string)
  {
    exists a, b, c ::
      && IsSampleLine(a) && IsSampleLine(b) && IsSampleLine(c) && a != b && b != c && a != c
      && text == "HTTP/1.1 200 OK\r\n" + a + b + c + "\r\n" + "This is fast!! C++ server"
  }

  lemma SampleText(text: string)
    requires Prints(SERVER_RESPONSE, text)
    ensures IsSampleText(text)
  {
    var o: seq<Field> :| IsOrder(o, SERVER_RESPONSE.headers) && text == Print(SERVER_RESPONSE, o);
    SampleOrder(o);
    ThreeFields(o);
    SampleLines(o[0], o[1]);
    SampleLines(o[1], o[2]);
    SampleLines(o[2], o[0]);
    var a, b, c := LineOf(o[0]), LineOf(o[1]), LineOf(o[2]);
    assert StatusLine(SERVER_RESPONSE) + CRLF == "HTTP/1.1 200 OK\r\n";
    AppendAssociates("HTTP/1.1 200 OK\r\n", a, b);
    AppendAssociates("HTTP/1.1 200 OK\r\n", a + b, c);
    assert text == "HTTP/1.1 200 OK\r\n" + a + b + c + "\r\n" + "This is fast!! C++ server";
  }

  /** The error callbacks given to listen and to write. */
  method OnError(client: Clientconnection, ghost cause: Cause, ghost ev: PollEvent, ghost phase: Phase, ghost pc: Pc)
    requires client.outcome.None? && client.socket in client.ioc.kernel.k.socks
    modifies client`outcome, client.ioc.kernel`k
    ensures client.Now(ev, phase, Done) == Delete(old(client.Now(ev, phase, pc)), cause).(pc := Done)
  {
    client.Destroy(cause, ev, phase, pc);
  }

  /** The success callback given to write. */
  method OnSent(client: Clientconnection, ghost ev: PollEvent, ghost phase: Phase, ghost pc: Pc)
    requires client.outcome.None? && client.socket in client.ioc.kernel.k.socks
    modifies client`outcome, client.ioc.kernel`k
    ensures client.Now(ev, phase, Done) == Delete(old(client.Now(ev, phase, pc)), AllSent).(pc := Done)
  {
    client.Destroy(AllSent, ev, phase, pc);
  }

  /** The request callback given to listen: whatever the request, the same response. */
  method OnRequest(client: Clientconnection, ghost ev: PollEvent, ghost phase: Phase, ghost pc: Pc)
    returns (ghost w: WriteCall, ghost mid: Kernel)
    requires client.ioc.Valid()
    modifies client`response, client`sendBuffer, client.ioc.kernel`k, client.ioc.eventCallback, client.ioc.eventPriority
    ensures w.response == SERVER_RESPONSE && Evolves(old(client.ioc.kernel.k), mid)
    ensures client.response != null && Prints(client.response.View(), client.sendBuffer)
    ensures client.response.version == "1.1" && client.response.statusCode == "200"
    ensures client.response.statusMessage == "OK" && client.response.body == "This is fast!! C++ server"
    ensures client.response.headers
            == map["Content-Type" := "text/plain", "Connection" := "close", "Content-Length" := "25"]
    ensures Controls(old(client.ioc.kernel.k.answers), client.ioc.kernel.k.answers, EPOLL_CTL_MOD, client.socket)
    ensures var h := old(client.Now(ev, phase, pc)).(k := mid);
            CanWrite(h, w) && client.Now(ev, phase, pc) == ConnectionSpec.Write(h, w)
  {
    var response := new HttpResponse();
    response.version := "1.1";
    response.statusCode := "200";
    response.statusMessage := "OK";
    response.headers := response.headers["Content-Type" := "text/plain"];
    response.headers := response.headers["Connection" := "close"];
    var body := "This is fast!! C++ server";
    response.headers := response.headers["Content-Length" := "25"];
    response.body := body;
    assert response.View() == SERVER_RESPONSE;
    w, mid := client.Write(response, ev, phase, pc);
  }
}
