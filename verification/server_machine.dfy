// The whole server as one step machine: the reactor harvests and drains, the listener's callback
// accepts, handleEvent runs step by step, and the peers act at any time.
// include/reactor.h, include/listening_server.h, include/connection_types.h, src/server.cpp.

module ServerMachine {
  import opened DataTypes
  import opened KernelModel
  import opened ReactorSpec
  import opened ConnectionSpec

  /** `ordered` says that the queue lets out a top; otherwise it may let out any event. */
  datatype Config = Config(maxEvents: nat, ordered: bool)

  /** What runCallback is doing with the event at the top of the queue. */
  datatype Running =
    | Nobody
    | InHandler(x: Queued, id: ConnId, phase: Phase, pc: Pc)
    | InAccept(x: Queued)     // the listener's callback is about to run
    | InTrack(x: Queued, id: ConnId)   // it has made a connection and is about to call addTrack
    | Returned(x: Queued)     // no callback was found, or the listener's has returned

  /**
   * `conns` holds the living connections. The fields after `next` are history that no step
   * reads: how each deleted connection ended, the last batch, the registries when it was
   * harvested, the descriptors that were closed since, and all harvests and calls of callbacks.
   */
  datatype State = State(
    k: Kernel,
    reg: Registry<Callback>,
    queue: multiset<Queued>,
    running: Running,
    conns: map<ConnId, Conn>,
    next: ConnId,
    outcomes: map<ConnId, Outcome>,
    batch: seq<PollEvent>,
    harvested: Registry<Callback>,
    closed: set<Fd>,
    polls: seq<seq<PollEvent>>,
    calls: seq<Call<Callback>>)

  datatype Action =
    | Peer(env: EnvAction)
    | Poll(events: seq<PollEvent>, dropped: set<Fd>)      // epoll_wait, and the pushes after it
    | PollFail                                            // epoll_wait fails: the reactor returns
    | Dispatch(x: Queued)                                 // top(), and the lookup of its callback
    | Handle(step: HandlerStep)                           // one step of handleEvent
    | AcceptOk(fd: Fd, sock: Sock)                        // accept, and the new Clientconnection
    | TrackNew(added: bool)                               // addTrack
    | AcceptLeak(fd: Fd, sock: Sock)                      // accept, but fcntl fails
    | AcceptFail                                          // accept fails
    | AcceptNothing                                       // EPOLLERR, or no EPOLLIN: accept is not called
    | Pop                                                 // pop()

  /** The server after a successful asyncAccept, with no connection yet. */
  ghost predicate Init(s: State)
  {
    && s.k.socks == map[]
    && s.k.watches == map[s.k.listener := Watch(true, false, false, false)]
    && s.reg == Registry(map[s.k.listener := AcceptCallback], map[s.k.listener := LISTEN_SOCK])
    && s.queue == multiset{} && s.running == Nobody
    && s.conns == map[] && s.next == 0 && s.outcomes == map[]
    && s.batch == [] && s.harvested == Registry(map[], map[]) && s.closed == {}
    && s.polls == [] && s.calls == []
  }

  /** The view that the running handler has of the state. */
  function Focus(s: State): Handler
    requires s.running.InHandler? && s.running.id in s.conns
  {
    Handler(s.running.id, s.running.phase, s.running.x.event, s.k, s.reg, s.conns[s.running.id], None, s.running.pc)
  }

  /** The state after the running handler has got from Focus(s) to `h`. */
  function Embed(s: State, h: Handler): State
    requires s.running.InHandler? && s.running.id in s.conns
  {
    var id := s.running.id;
    var s' := s.(k := h.k, reg := h.reg, running := s.running.(pc := h.pc));
    match h.outcome
    case None => s'.(conns := s.conns[id := h.conn])
    case Some(o) =>
      s'.(conns := s.conns - {id}, outcomes := s.outcomes[id := o], closed := s.closed + {s.conns[id].fd})
  }

  /** The listener's callback calls accept. */
  predicate Accepting(s: State)
  {
    s.running.InAccept? && !s.running.x.event.err && s.running.x.event.input
  }

  ghost predicate Enabled(cfg: Config, s: State, a: Action)
  {
    match a
    case Peer(env) => EnvEnabled(s.k, env)
    case Poll(events, dropped) =>
      && s.running.Nobody? && s.queue == multiset{} && s.reg.callbacks != map[]
      && CanHarvest(s.k, events, cfg.maxEvents) && CanDrop(s.k, dropped)
    case PollFail => s.running.Nobody? && s.queue == multiset{} && s.reg.callbacks != map[]
    case Dispatch(x) =>
      s.running.Nobody? && x in s.queue && (cfg.ordered ==> Top(s.queue, x))
    case Handle(step) =>
      && !step.Env? && s.running.InHandler? && s.running.id in s.conns
      && StepEnabled(Focus(s), step)
    case AcceptOk(fd, sock) => Accepting(s) && CanAccept(s.k, fd, sock)
    case TrackNew(added) =>
      s.running.InTrack? && s.running.id in s.conns && (added ==> CanAdd(s.k, s.conns[s.running.id].fd))
    case AcceptLeak(fd, sock) => Accepting(s) && CanAccept(s.k, fd, sock)
    case AcceptFail => Accepting(s)
    case AcceptNothing => s.running.InAccept? && (s.running.x.event.err || !s.running.x.event.input)
    case Pop => s.running.Returned? || (s.running.InHandler? && s.running.pc.Done?)
  }

  /** runCallback calls `cb` for the event `x`. */
  function Started(x: Queued, cb: Callback): Running
  {
    match cb
    case NoCallback => Returned(x)
    case AcceptCallback => InAccept(x)
    case HandleEvent(id, phase) => InHandler(x, id, phase, Start)
  }

  function Next(cfg: Config, s: State, a: Action): State
    requires Enabled(cfg, s, a)
  {
    match a
    case Peer(env) => s.(k := EnvNext(s.k, env))
    case Poll(events, dropped) =>
      s.(k := Harvest(s.k, events, dropped), queue := multiset(Ranked(s.reg, events)),
         batch := events, harvested := s.reg, closed := {}, polls := s.polls + [events])
    case PollFail => s.(k := Noted(s.k, WaitFailed))
    case Dispatch(x) =>
      if x.event.fd !in s.reg.callbacks then s.(running := Returned(x))
      else
        var cb := s.reg.callbacks[x.event.fd];
        s.(running := Started(x, cb), calls := s.calls + [Call(cb, x.event, s.reg, s.reg)])
    case Handle(step) => Embed(s, StepNext(Focus(s), step))
    case AcceptOk(fd, sock) =>
      s.(k := Accept(s.k, fd, sock, true), running := InTrack(s.running.x, s.next),
         conns := s.conns[s.next := NewConn(fd)], next := s.next + 1)
    case TrackNew(added) =>
      var s', fd := s.(running := Returned(s.running.x)), s.conns[s.running.id].fd;
      if added then
        s'.(k := EpollAdd(s.k, fd, true, false),
            reg := Track(s.reg, fd, NEW_SOCK, HandleEvent(s.running.id, Reading)))
      else s'.(k := Denied(s.k, EPOLL_CTL_ADD, fd, CanAdd(s.k, fd)))
    case AcceptLeak(fd, sock) => s.(k := Accept(s.k, fd, sock, false), running := Returned(s.running.x))
    case AcceptFail => s.(k := Noted(s.k, AcceptedNone), running := Returned(s.running.x))
    case AcceptNothing => s.(running := Returned(s.running.x))
    case Pop =>
      s.(queue := s.queue - multiset{s.running.x}, running := Nobody, calls := Finished(s.calls, s.reg))
  }

  ghost predicate LegalRun(cfg: Config, s: State, run: seq<Action>)
    decreases |run|, 0
  {
    if run == [] then true
    else
      var init, last := run[..|run| - 1], run[|run| - 1];
      LegalRun(cfg, s, init) && Enabled(cfg, After(cfg, s, init), last)
  }

  ghost function After(cfg: Config, s: State, run: seq<Action>): State
    requires LegalRun(cfg, s, run)
    decreases |run|, 1
  {
    if run == [] then s
    else Next(cfg, After(cfg, s, run[..|run| - 1]), run[|run| - 1])
  }

  predicate ParsesAll(run: seq<Action>) { Handle(ParseError) !in run }

  /**
   * The code is about to use a connection that has been deleted: an event is being handed to it,
   * or its handler goes on.
   */
  predicate UsesDeleted(s: State)
  {
    s.running.InHandler? && s.running.id !in s.conns && !s.running.pc.Done?
  }

  /** An event that has been harvested and not yet been handed to a callback. */
  predicate Pending(s: State, x: Queued)
  {
    x in s.queue && (s.running.Nobody? || s.running.x != x)
  }
}
