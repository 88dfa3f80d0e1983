// The server put together: reactorRun with the callbacks that listen and write register, which
// create connections and run their handlers. Every run of it is a run of ServerMachine, up to the
// first request that fails to parse, which ends it: see Clientconnection.RecvLoop.

module ServerLoop {
  import opened DataTypes
  import opened KernelModel
  import opened KernelCalls
  import opened ReactorSpec
  import opened ResponseText
  import opened Reactor
  import opened ConnectionSpec
  import opened Connection
  import opened ServerMachine
  import opened ServerInvariant
  import opened ServerRuns
  import opened ServerOrder
  import opened ListeningServer

  /** `s'` is what is left of a reached state by a request that fails to parse. */
  ghost predicate Failed(cfg: Config, s0: State, s': State)
  {
    exists last :: Reached(cfg, s0, last) && Enabled(cfg, last, Handle(ParseError))
                   && s' == Next(cfg, last, Handle(ParseError))
  }

  /** A run has led to `s'`, its last step a parse error unless `ok`. */
  ghost predicate Came(cfg: Config, s0: State, s': State, ok: bool)
  {
    if ok then Reached(cfg, s0, s') else Failed(cfg, s0, s')
  }

  /** A handler that starts belongs to a living connection. */
  lemma HandlerAlive(cfg: Config, s0: State, s: State)
    requires Init(s0) && Reached(cfg, s0, s) && s.running.InHandler? && s.running.pc.Start?
    ensures s.running.id in s.conns
  {
    ReachedInv(cfg, s0, s);
  }

  /** The listener is always registered: the reactor never finds itself without work. */
  lemma ListenerCounts(cfg: Config, s0: State, s: State)
    requires Init(s0) && Reached(cfg, s0, s)
    ensures |s.reg.callbacks| > 0
  {
    ReachedInv(cfg, s0, s);
    assert s.k.listener in s.reg.callbacks.Keys;
  }

  /** Whenever the queue is empty, all that was harvested has been served in order. */
  lemma ReachedServed(cfg: Config, s0: State, s: State)
    requires Init(s0) && Reached(cfg, s0, s) && cfg.ordered && s.running.Nobody? && s.queue == multiset{}
    ensures Served(s.polls, s.calls) && Chained(s0.reg, s.calls)
  {
    var run :| LegalRun(cfg, s0, run) && ParsesAll(run) && After(cfg, s0, run) == s;
    BatchesInOrder(cfg, s0, run);
  }

  lemma BrokenHandler(cfg: Config, s0: State, s: State, h: Handler)
    requires Init(s0) && Reached(cfg, s0, s) && s.running.InHandler? && s.running.id in s.conns
    requires Broke(Focus(s), h)
    ensures Failed(cfg, s0, Embed(s, h))
  {
    var last :| Reaches(Focus(s), last) && StepEnabled(last, ParseError) && h == StepNext(last, ParseError);
    var steps, trail :| Trail(Focus(s), steps, trail, last);
    LiftTrail(cfg, s0, s, steps, trail, last, |steps|);
    LiftStep(cfg, s, last, ParseError);
    assert Reached(cfg, s0, Embed(s, last));
  }

  /** In `s` the handler of `c` is about to run for the event `x`. */
  ghost predicate Due(c: Clientconnection, x: Queued, phase: Phase, s: State)
    reads c, c.request, c.response, c.ioc.kernel, c.ioc.eventCallback, c.ioc.eventPriority
  {
    && c.ioc.Valid() && c.outcome.None?
    && s.running == InHandler(x, c.id, phase, Start) && c.id in s.conns && Sampled(c.View())
    && c.View() == s.conns[c.id] && c.ioc.kernel.k == s.k && c.ioc.Reg() == s.reg
  }

  /** The handler of `c` has taken the machine from `s` to `s'`, where it is at `pc`. */
  ghost predicate Handled(c: Clientconnection, x: Queued, phase: Phase, s: State, s': State, pc: Pc)
    reads c, c.request, c.response, c.ioc.kernel, c.ioc.eventCallback, c.ioc.eventPriority
  {
    && s'.running == InHandler(x, c.id, phase, pc) && s'.queue == s.queue && s'.next == s.next
    && s'.polls == s.polls && s'.calls == s.calls
    && s'.k == c.ioc.kernel.k && s'.reg == c.ioc.Reg()
    && match c.outcome
       case None => s'.conns == s.conns[c.id := c.View()] && s'.outcomes == s.outcomes && Sampled(c.View())
       case Some(o) => s'.conns == s.conns - {c.id} && s'.outcomes == s.outcomes[c.id := o] && Sampled(o.conn)
  }

  /** The handler is done, or has come to the point at which a parse error leaves it. */
  function LastPc(ok: bool): Pc
  {
    if ok then Done else Receiving
  }

  /** `conn->handleEvent(ev, success, error)`. */
  method CallHandleEvent(c: Clientconnection, x: Queued, phase: Phase,
                         ghost cfg: Config, ghost s0: State, ghost s: State)
    returns (ok: bool, ghost s': State)
    requires Init(s0) && Reached(cfg, s0, s) && Due(c, x, phase, s)
    modifies c, c.request, c.ioc.kernel`k, c.ioc.eventCallback, c.ioc.eventPriority
    ensures Came(cfg, s0, s', ok) && Handled(c, x, phase, s, s', LastPc(ok))
  {
    HandleEventIsRun(cfg, s0, s, Focus(s));
    ok := c.HandleEvent(x.event, phase);
    s' := Embed(s, c.Now(x.event, phase, LastPc(ok)));
    if ok {
      HandleEventIsRun(cfg, s0, s, c.Now(x.event, phase, Done));
    } else {
      BrokenHandler(cfg, s0, s, c.Now(x.event, phase, Receiving));
    }
  }

  /** The machine's view of a connection: its state if it lives, and how it has ended if not. */
  datatype Fate = Unknown | Living(conn: Conn) | Deleted(outcome: Outcome)

  function FateOf(s: State, id: ConnId): Fate
  {
    if id in s.conns then Living(s.conns[id])
    else if id in s.outcomes then Deleted(s.outcomes[id])
    else Unknown
  }

  /** The object is as the machine has it, and has no response but the sample server's. */
  ghost predicate Mirrors(c: Clientconnection, fate: Fate)
    reads c, c.request, c.response
  {
    match c.outcome
    case None => fate == Living(c.View()) && Sampled(c.View())
    case Some(o) => fate == Deleted(o) && Sampled(o.conn)
  }

  type Objects = map<ConnId, Clientconnection>

  /** Every connection is an object of its own. */
  ghost predicate Apart(objects: Objects, ioc: IOReactor<Callback>)
  {
    && (forall id :: id in objects ==> objects[id].id == id && objects[id].ioc == ioc)
    && (forall i, j :: i in objects && j in objects && i != j ==>
          objects[i] != objects[j] && objects[i].request != objects[j].request)
  }

  /** The connections but for `id` are as the machine has them. */
  ghost predicate OthersMirror(objects: Objects, s: State, id: ConnId)
    reads set id | id in objects :: objects[id]
    reads set id | id in objects :: objects[id].request
    reads set id | id in objects :: objects[id].response
  {
    forall j {:trigger FateOf(s, j)} :: j in objects && j != id ==> Mirrors(objects[j], FateOf(s, j))
  }

  ghost predicate AllMirror(objects: Objects, s: State)
    reads set id | id in objects :: objects[id]
    reads set id | id in objects :: objects[id].request
    reads set id | id in objects :: objects[id].response
  {
    && s.conns.Keys <= objects.Keys && s.outcomes.Keys <= objects.Keys
    && forall id {:trigger FateOf(s, id)} :: id in objects ==> Mirrors(objects[id], FateOf(s, id))
  }

  lemma Focused(objects: Objects, s: State, id: ConnId)
    requires AllMirror(objects, s) && id in s.conns
    ensures OthersMirror(objects, s, id) && objects[id].outcome.None? && objects[id].View() == s.conns[id]
    ensures Sampled(objects[id].View())
  {
    assert Mirrors(objects[id], FateOf(s, id));
  }

  lemma Refocused(objects: Objects, x: Queued, phase: Phase, s: State, s': State, pc: Pc, id: ConnId)
    requires OthersMirror(objects, s, id) && id in objects && objects[id].id == id
    requires s.conns.Keys <= objects.Keys && s.outcomes.Keys <= objects.Keys
    requires Handled(objects[id], x, phase, s, s', pc)
    ensures AllMirror(objects, s')
  {
    forall j | j in objects ensures Mirrors(objects[j], FateOf(s', j)) {
      if j != id {
        assert FateOf(s', j) == FateOf(s, j);
      }
    }
  }

  lemma OneMore(objects: Objects, s: State, s': State, conn: Clientconnection, ioc: IOReactor<Callback>)
    requires AllMirror(objects, s) && conn.id !in objects
    requires conn.outcome.None? && conn.response == null
    requires Apart(objects, ioc) && conn.ioc == ioc
    requires forall j :: j in objects ==> objects[j] != conn && objects[j].request != conn.request
    requires s'.conns == s.conns[conn.id := conn.View()] && s'.outcomes == s.outcomes
    ensures AllMirror(objects[conn.id := conn], s')
    ensures Apart(objects[conn.id := conn], ioc)
  {
    var objects' := objects[conn.id := conn];
    forall j | j in objects' ensures Mirrors(objects'[j], FateOf(s', j)) {
      if j != conn.id {
        assert Mirrors(objects[j], FateOf(s, j)) && FateOf(s', j) == FateOf(s, j);
      }
    }
  }

  /** A change of the state that the connections have no part in. */
  lemma SameFates(objects: Objects, s: State, s': State)
    requires AllMirror(objects, s) && s'.conns == s.conns && s'.outcomes == s.outcomes
    ensures AllMirror(objects, s')
  {
    forall j | j in objects ensures Mirrors(objects[j], FateOf(s', j)) {
      assert Mirrors(objects[j], FateOf(s, j)) && FateOf(s', j) == FateOf(s, j);
    }
  }

  /** The objects are in the state `s` of the machine. */
  ghost predicate Agrees(http: HttpServer, objects: Objects, s: State)
    reads http, http.ioc, http.ioc.kernel, http.ioc.eventCallback, http.ioc.eventPriority
    reads set id | id in objects :: objects[id]
    reads set id | id in objects :: objects[id].request
    reads set id | id in objects :: objects[id].response
  {
    && http.ioc.Valid() && Apart(objects, http.ioc) && AllMirror(objects, s)
    && s.next == http.next && (forall id :: id in objects ==> id < s.next)
    && s.k == http.ioc.kernel.k && s.reg == http.ioc.Reg() && s.queue == http.ioc.eventQueue
    && s.polls == http.ioc.kernel.harvests && s.calls == http.ioc.calls
  }

  /** It touches no other connection. */
  method CallAlone(objects: Objects, x: Queued, id: ConnId, phase: Phase,
                   ghost cfg: Config, ghost s0: State, ghost s: State)
    returns (ok: bool, ghost s': State)
    requires id in objects && Apart(objects, objects[id].ioc) && OthersMirror(objects, s, id)
    requires Init(s0) && Reached(cfg, s0, s) && Due(objects[id], x, phase, s)
    modifies objects[id], objects[id].request
    modifies objects[id].ioc.kernel`k, objects[id].ioc.eventCallback, objects[id].ioc.eventPriority
    ensures Came(cfg, s0, s', ok) && Handled(objects[id], x, phase, s, s', LastPc(ok))
    ensures OthersMirror(objects, s, id)
  {
    ok, s' := CallHandleEvent(objects[id], x, phase, cfg, s0, s);
  }

  /** The closure of a connection runs. */
  method CallHandler(http: HttpServer, objects: Objects, x: Queued, id: ConnId, phase: Phase,
                     ghost cfg: Config, ghost s0: State, ghost s: State)
    returns (ok: bool, ghost s': State)
    requires Init(s0) && Reached(cfg, s0, s) && Agrees(http, objects, s)
    requires s.running == InHandler(x, id, phase, Start) && id in s.conns
    modifies objects[id], objects[id].request
    modifies http.ioc.kernel`k, http.ioc.eventCallback, http.ioc.eventPriority
    ensures Came(cfg, s0, s', ok) && Agrees(http, objects, s')
    ensures s'.running == InHandler(x, id, phase, LastPc(ok)) && s'.queue == s.queue
  {
    Focused(objects, s, id);
    ok, s' := CallAlone(objects, x, id, phase, cfg, s0, s);
    Refocused(objects, x, phase, s, s', LastPc(ok), id);
  }

  /** The listener's closure has taken the machine from `s` to `s'` and made `conn`, if anything. */
  ghost predicate Accepted(http: HttpServer, x: Queued, s: State, conn: Clientconnection?, s': State)
    reads http, http.ioc.kernel, http.ioc.eventCallback, http.ioc.eventPriority
    reads if conn == null then {} else {conn, conn.request, conn.response}
  {
    && s'.running == Returned(x) && s'.queue == s.queue && s'.outcomes == s.outcomes
    && s'.polls == s.polls && s'.calls == s.calls
    && s'.k == http.ioc.kernel.k && s'.reg == http.ioc.Reg() && s'.next == http.next
    && if conn == null then s'.conns == s.conns && s'.next == s.next
       else && conn.id == s.next && s'.next == s.next + 1 && conn.ioc == http.ioc
            && conn.outcome.None? && conn.response == null
            && s'.conns == s.conns[conn.id := conn.View()]
  }

  method AcceptOne(http: HttpServer, x: Queued, ghost cfg: Config, ghost s0: State, ghost s: State)
    returns (conn: Clientconnection?, ghost s': State)
    requires http.ioc.Valid() && Reached(cfg, s0, s) && s.running == InAccept(x)
    requires s.k == http.ioc.kernel.k && s.reg == http.ioc.Reg() && s.next == http.next
    modifies http`next, http.ioc.kernel`k, http.ioc.eventCallback, http.ioc.eventPriority
    ensures Reached(cfg, s0, s') && Accepted(http, x, s, conn, s')
    ensures conn != null ==> fresh(conn) && fresh(conn.request)
    ensures Asked(s.k.answers, s'.k.answers, x.event, Made(conn))
  {
    conn, s' := http.OnAccept(x.event, cfg, s0, s);
  }

  /** The objects of `later` that are not among `before` are new. */
  twostate predicate Grown(before: Objects, new later: Objects)
  {
    forall id :: id in later ==>
      (id in before && later[id] == before[id]) || (fresh(later[id]) && fresh(later[id].request))
  }

  /** The listener's closure runs. */
  method CallAccept(http: HttpServer, objects: Objects, x: Queued, ghost cfg: Config, ghost s0: State, ghost s: State)
    returns (conn: Clientconnection?, objects': Objects, ghost s': State)
    requires Reached(cfg, s0, s) && Agrees(http, objects, s) && s.running == InAccept(x)
    modifies http`next, http.ioc.kernel`k, http.ioc.eventCallback, http.ioc.eventPriority
    ensures Reached(cfg, s0, s') && Agrees(http, objects', s') && s'.running == Returned(x) && s'.queue == s.queue
    ensures Grown(objects, objects') && Asked(s.k.answers, s'.k.answers, x.event, Made(conn))
    ensures objects' == if conn == null then objects else objects[s.next := conn]
  {
    conn, s' := AcceptOne(http, x, cfg, s0, s);
    objects' := objects;
    if conn != null {
      OneMore(objects, s, s', conn, http.ioc);
      objects' := objects[conn.id := conn];
    } else {
      SameFates(objects, s, s');
    }
  }

  /** The callback that the lookup in runCallback leaves in `cb`. */
  function Registered(callbacks: map<Fd, Callback>, fd: Fd): Callback
  {
    if fd in callbacks then callbacks[fd] else NoCallback
  }

  predicate Over(running: Running, x: Queued)
  {
    running == Returned(x) || (running.InHandler? && running.x == x && running.pc.Done?)
  }

  /** The calls made so far, and one for `x` if a callback is registered for it. */
  function Calling(calls: seq<Call<Callback>>, reg: Registry<Callback>, x: Queued): seq<Call<Callback>>
  {
    if x.event.fd in reg.callbacks then calls + [Call(reg.callbacks[x.event.fd], x.event, reg, reg)] else calls
  }

  lemma Dispatched(cfg: Config, s0: State, s: State, x: Queued) returns (s': State)
    requires Reached(cfg, s0, s) && s.running.Nobody? && Top(s.queue, x)
    ensures Reached(cfg, s0, s') && s' == s.(running := s'.running, calls := Calling(s.calls, s.reg, x))
    ensures s'.running == Started(x, Registered(s.reg.callbacks, x.event.fd))
  {
    ReachedNext(cfg, s0, s, Dispatch(x));
    s' := Next(cfg, s, Dispatch(x));
  }

  lemma Popped(cfg: Config, s0: State, s: State, x: Queued) returns (s': State)
    requires Reached(cfg, s0, s) && Over(s.running, x)
    ensures Reached(cfg, s0, s')
    ensures s' == s.(queue := s.queue - multiset{x}, running := Nobody, calls := Finished(s.calls, s.reg))
  {
    ReachedNext(cfg, s0, s, Pop);
    s' := Next(cfg, s, Pop);
  }

  lemma Polled(cfg: Config, s0: State, s: State, mid: Kernel, events: seq<PollEvent>, dropped: set<Fd>)
    returns (s': State)
    requires Init(s0) && Reached(cfg, s0, s) && s.running.Nobody? && s.queue == multiset{} && s.reg.callbacks != map[]
    requires Evolves(s.k, mid) && CanHarvest(mid, events, cfg.maxEvents) && CanDrop(mid, dropped)
    ensures Reached(cfg, s0, s') && s'.running.Nobody? && s'.k == KernelModel.Harvest(mid, events, dropped)
    ensures s'.queue == multiset(Ranked(s.reg, events)) && s'.reg == s.reg && s'.next == s.next
    ensures s'.conns == s.conns && s'.outcomes == s.outcomes
    ensures s'.polls == s.polls + [events] && s'.calls == s.calls
    ensures Coherent(s'.reg, s'.k.watches.Keys)
    ensures forall i :: 0 <= i < |events| ==> events[i].fd in s'.k.watches
  {
    ReachedEnv(cfg, s0, s, mid);
    ReachedNext(cfg, s0, s.(k := mid), Poll(events, dropped));
    s' := Next(cfg, s.(k := mid), Poll(events, dropped));
    ReachedInv(cfg, s0, s');
    forall i | 0 <= i < |events| ensures events[i].fd in s'.k.watches {
      assert Reports(mid, events[i]);
    }
  }

  lemma Unpolled(cfg: Config, s0: State, s: State, mid: Kernel) returns (s': State)
    requires Reached(cfg, s0, s) && s.running.Nobody? && s.queue == multiset{} && s.reg.callbacks != map[]
    requires Evolves(s.k, mid)
    ensures Reached(cfg, s0, s') && GaveUp(cfg, s0, s') && s' == s.(k := Noted(mid, WaitFailed))
  {
    ReachedEnv(cfg, s0, s, mid);
    ReachedNext(cfg, s0, s.(k := mid), PollFail);
    s' := Next(cfg, s.(k := mid), PollFail);
  }

  /** top(): the machine dispatches the event. */
  method Begin(http: HttpServer, objects: Objects, x: Queued, ghost cfg: Config, ghost s0: State, ghost s: State)
    returns (ghost s': State)
    requires Reached(cfg, s0, s) && Agrees(http, objects, s) && s.running.Nobody? && Top(s.queue, x)
    modifies http.ioc`calls
    ensures Reached(cfg, s0, s') && Agrees(http, objects, s') && s'.queue == s.queue
    ensures s'.running == Started(x, Registered(http.ioc.eventCallback.map_, x.event.fd))
  {
    s' := Dispatched(cfg, s0, s, x);
    http.ioc.calls := Calling(http.ioc.calls, http.ioc.Reg(), x);
    SameFates(objects, s, s');
  }

  /** runCallback: the callback that is registered for the event's descriptor is looked up and run. */
  method RunCallback(http: HttpServer, objects: Objects, x: Queued, ghost cfg: Config, ghost s0: State, ghost s: State)
    returns (ok: bool, objects': Objects, ghost s': State)
    requires Init(s0) && Reached(cfg, s0, s) && Agrees(http, objects, s)
    requires s.running == Started(x, Registered(http.ioc.eventCallback.map_, x.event.fd))
    modifies http`next, http.ioc.kernel`k, http.ioc.eventCallback, http.ioc.eventPriority
    modifies set id | id in objects :: objects[id]
    modifies set id | id in objects :: objects[id].request
    ensures Grown(objects, objects')
    ensures Came(cfg, s0, s', ok) && Agrees(http, objects', s') && s'.queue == s.queue
    ensures ok ==> Over(s'.running, x)
  {
    ok, objects', s' := true, objects, s;
    var found, cb := http.ioc.eventCallback.Get(x.event.fd, NoCallback);
    if found {
      match cb {
        case NoCallback =>
        case AcceptCallback =>
          var _, made, after := CallAccept(http, objects, x, cfg, s0, s);
          objects', s' := made, after;
        case HandleEvent(id, phase) =>
          HandlerAlive(cfg, s0, s);
          ok, s' := CallHandler(http, objects, x, id, phase, cfg, s0, s);
      }
    }
  }

  function Loop(http: HttpServer): Config
  {
    Config(http.ioc.maxEvents, true)
  }

  /** `s` is a reached state between two dispatches, and the objects are in it. */
  ghost predicate AtRest(http: HttpServer, objects: Objects, s0: State, s: State)
    reads http, http.ioc, http.ioc.kernel, http.ioc.eventCallback, http.ioc.eventPriority
    reads set id | id in objects :: objects[id]
    reads set id | id in objects :: objects[id].request
    reads set id | id in objects :: objects[id].response
  {
    Reached(Loop(http), s0, s) && Agrees(http, objects, s) && s.running.Nobody?
  }

  /** A parse error has ended the loop, and the objects are in the state that it has left. */
  ghost predicate Stopped(http: HttpServer, objects: Objects, s0: State, s: State)
    reads http, http.ioc, http.ioc.kernel, http.ioc.eventCallback, http.ioc.eventPriority
    reads set id | id in objects :: objects[id]
    reads set id | id in objects :: objects[id].request
    reads set id | id in objects :: objects[id].response
  {
    Failed(Loop(http), s0, s) && Agrees(http, objects, s)
  }

  /** pop(): the machine is done with the event. */
  method End(http: HttpServer, objects: Objects, x: Queued, ghost s0: State, ghost s: State) returns (ghost s': State)
    requires Reached(Loop(http), s0, s) && Agrees(http, objects, s) && Over(s.running, x)
    modifies http.ioc`eventQueue, http.ioc`calls
    ensures AtRest(http, objects, s0, s') && s'.queue == s.queue - multiset{x}
  {
    http.ioc.eventQueue := http.ioc.eventQueue - multiset{x};
    http.ioc.calls := Finished(http.ioc.calls, http.ioc.Reg());
    s' := Popped(Loop(http), s0, s, x);
    SameFates(objects, s, s');
  }

  /** One round of the inner loop: the callback of a top event runs, then the event is popped. */
  method RunTop(http: HttpServer, objects: Objects, ghost s0: State, ghost s: State)
    returns (ok: bool, objects': Objects, ghost s': State)
    requires Init(s0) && AtRest(http, objects, s0, s) && http.ioc.eventQueue != multiset{}
    modifies http`next, http.ioc`eventQueue, http.ioc`calls
    modifies http.ioc.kernel`k, http.ioc.eventCallback, http.ioc.eventPriority
    modifies set id | id in objects :: objects[id]
    modifies set id | id in objects :: objects[id].request
    ensures Grown(objects, objects')
    ensures if ok then AtRest(http, objects', s0, s') else Stopped(http, objects', s0, s')
    ensures ok ==> exists x :: Top(s.queue, x) && s'.queue == s.queue - multiset{x}
  {
    TopExists(http.ioc.eventQueue);
    var x :| x in http.ioc.eventQueue && Top(http.ioc.eventQueue, x);
    s' := Begin(http, objects, x, Loop(http), s0, s);
    ok, objects', s' := RunCallback(http, objects, x, Loop(http), s0, s');
    if ok {
      s' := End(http, objects', x, s0, s');
    }
  }

  /** The inner loop of reactorRun. */
  method Drain(http: HttpServer, objects: Objects, ghost s0: State, ghost s: State)
    returns (ok: bool, objects': Objects, ghost s': State)
    requires Init(s0) && AtRest(http, objects, s0, s)
    modifies http`next, http.ioc`eventQueue, http.ioc`calls
    modifies http.ioc.kernel`k, http.ioc.eventCallback, http.ioc.eventPriority
    modifies set id | id in objects :: objects[id]
    modifies set id | id in objects :: objects[id].request
    ensures Grown(objects, objects')
    ensures if ok then AtRest(http, objects', s0, s') && s'.queue == multiset{} else Stopped(http, objects', s0, s')
  {
    ok, objects', s' := true, objects, s;
    while ok && http.ioc.eventQueue != multiset{}
      invariant Grown(objects, objects')
      invariant if ok then AtRest(http, objects', s0, s') else Stopped(http, objects', s0, s')
      decreases ok, |http.ioc.eventQueue|
    {
      ok, objects', s' := RunTop(http, objects', s0, s');
    }
  }

  /** epoll_wait touches no connection. */
  method WaitAlone(ioc: IOReactor<Callback>, ghost objects: Objects, ghost s: State)
    returns (n: int, events: seq<PollEvent>, ghost mid: Kernel, ghost dropped: set<Fd>)
    requires AllMirror(objects, s)
    modifies ioc.kernel
    ensures AllMirror(objects, s) && Evolves(old(ioc.kernel.k), mid)
    ensures n == -1 ==> && ioc.kernel.k == Noted(mid, WaitFailed) && ioc.kernel.patience == old(ioc.kernel.patience)
                        && ioc.kernel.harvests == old(ioc.kernel.harvests)
    ensures n != -1 ==> && n == |events| && CanHarvest(mid, events, ioc.maxEvents) && CanDrop(mid, dropped)
                        && ioc.kernel.k == KernelModel.Harvest(mid, events, dropped)
                        && ioc.kernel.patience < old(ioc.kernel.patience)
                        && ioc.kernel.harvests == old(ioc.kernel.harvests) + [events]
  {
    n, events, mid, dropped := ioc.kernel.EpollWait(ioc.maxEvents);
  }

  /** Nor do the pushes. */
  method PushAlone(ioc: IOReactor<Callback>, events: seq<PollEvent>, ghost objects: Objects, ghost s: State)
    requires AllMirror(objects, s)
    requires ioc.InOrder() && ioc.eventQueue == multiset{} && |events| <= ioc.maxEvents
    requires forall i, j :: 0 <= i < j < |events| ==> events[i].fd != events[j].fd
    requires forall i :: 0 <= i < |events| ==> events[i].fd in ioc.kernel.k.watches
    modifies ioc`eventQueue
    ensures AllMirror(objects, s) && ioc.eventQueue == multiset(Ranked(ioc.Reg(), events))
  {
    ghost var _ := ioc.PushAll(events);
  }

  /** epoll_wait, and the pushes of what it returns. */
  method Harvest(http: HttpServer, objects: Objects, ghost s0: State, ghost s: State)
    returns (numEvents: int, events: seq<PollEvent>, ghost s': State)
    requires Init(s0) && AtRest(http, objects, s0, s) && s.queue == multiset{} && s.reg.callbacks != map[]
    modifies http.ioc`eventQueue, http.ioc.kernel
    ensures AtRest(http, objects, s0, s')
    ensures numEvents == -1 ==>
              && http.ioc.eventQueue == multiset{} && http.ioc.kernel.patience == old(http.ioc.kernel.patience)
              && http.ioc.kernel.harvests == old(http.ioc.kernel.harvests) && GaveUp(Loop(http), s0, s')
    ensures numEvents != -1 ==>
              && numEvents == |events| > 0 && http.ioc.kernel.patience < old(http.ioc.kernel.patience)
              && http.ioc.kernel.harvests == old(http.ioc.kernel.harvests) + [events]
              && http.ioc.eventQueue == multiset(Ranked(http.ioc.Reg(), events))
  {
    ghost var mid, dropped;
    numEvents, events, mid, dropped := WaitAlone(http.ioc, objects, s);
    if numEvents == -1 {
      s' := Unpolled(Loop(http), s0, s, mid);
      SameFates(objects, s, s');
    } else {
      s' := Polled(Loop(http), s0, s, mid, events, dropped);
      SameFates(objects, s, s');
      PushAlone(http.ioc, events, objects, s');
    }
  }

  /** Wait for new events, if there are callbacks; there always are. */
  method Wait(http: HttpServer, objects: Objects, ghost s0: State, ghost s: State)
    returns (numEvents: int, ghost s': State)
    requires Init(s0) && AtRest(http, objects, s0, s) && s.queue == multiset{}
    modifies http.ioc`eventQueue, http.ioc.kernel
    ensures AtRest(http, objects, s0, s')
    ensures numEvents == -1 || (numEvents > 0 && http.ioc.kernel.patience < old(http.ioc.kernel.patience))
    ensures numEvents == -1 ==>
              && s'.queue == multiset{} && http.ioc.kernel.patience == old(http.ioc.kernel.patience)
              && GaveUp(Loop(http), s0, s')
  {
    ListenerCounts(Loop(http), s0, s);
    SizeIsExact(s.reg.callbacks);
    var size := http.ioc.eventCallback.GetSize();
    if size > 0 {
      var events;
      numEvents, events, s' := Harvest(http, objects, s0, s);
    } else {
      numEvents, s' := 0, s;
    }
  }

  /**
   * reactorRun with the callbacks of the server. Whatever the kernel answers and the peers do,
   * the objects end in the state of a run of the machine, all that epoll_wait has returned and
   * all callbacks that were called included; so every theorem about runs holds of the objects.
   * The reactor only returns if epoll_wait fails: that is the last step of the run, and the last
   * answer of the kernel; and then every harvest has been served in order. If a request fails to
   * parse (`ok` is false), that is the last step of the run.
   */
  method Run(http: HttpServer, ghost s0: State)
    returns (ok: bool, status: int, objects: Objects, ghost s: State)
    requires Init(s0) && Agrees(http, map[], s0)
    modifies http`next, http.ioc`eventQueue, http.ioc`calls
    modifies http.ioc.kernel, http.ioc.eventCallback, http.ioc.eventPriority
    ensures if ok then AtRest(http, objects, s0, s) else Stopped(http, objects, s0, s)
    ensures ok ==> && status == -1 && http.ioc.eventQueue == multiset{}
                   && GaveUp(Loop(http), s0, s) && EndsWith(http.ioc.kernel.k, WaitFailed)
                   && old(http.ioc.kernel.k.answers) < http.ioc.kernel.k.answers
                   && Served(http.ioc.kernel.harvests, http.ioc.calls)
                   && InPriority(http.ioc.kernel.harvests, http.ioc.calls)
                   && Chained(old(http.ioc.Reg()), http.ioc.calls)
  {
    ReachedStart(Loop(http), s0);
    ok, status, objects, s := true, 1, map[], s0;
    while ok && status != -1
      invariant if ok then AtRest(http, objects, s0, s) else Stopped(http, objects, s0, s)
      invariant ok && status == -1 ==> s.queue == multiset{} && GaveUp(Loop(http), s0, s)
      invariant Grown(map[], objects)
      decreases ok, http.ioc.kernel.patience, status != -1
    {
      ok, objects, s := Drain(http, objects, s0, s);
      if ok {
        status, s := Wait(http, objects, s0, s);
      }
    }
    if ok {
      ReachedServed(Loop(http), s0, s);
      GaveUpAnswered(Loop(http), s0, s);
      ServedInPriority(s.polls, s.calls);
    }
  }

  /** listen: asyncAccept and then, unless that failed, reactorRun. */
  method Listen(http: HttpServer) returns (ok: bool, objects: Objects, ghost s0: State, ghost s: State)
    requires http.ioc.Valid() && http.socket == http.ioc.kernel.k.listener && http.next == 0
    requires http.ioc.Reg() == Registry(map[], map[]) && http.ioc.eventQueue == multiset{}
    requires http.ioc.kernel.k.socks == map[] && http.ioc.kernel.k.watches == map[]
    requires http.ioc.kernel.harvests == [] && http.ioc.calls == []
    modifies http, http.ioc`eventQueue, http.ioc`calls
    modifies http.ioc.kernel, http.ioc.eventCallback, http.ioc.eventPriority
    ensures http.status == 0 || http.status == -1
    ensures http.status == 0 ==>
              && Init(s0) && (if ok then AtRest(http, objects, s0, s) else Stopped(http, objects, s0, s))
              && (ok ==> && Served(http.ioc.kernel.harvests, http.ioc.calls)
                         && InPriority(http.ioc.kernel.harvests, http.ioc.calls)
                         && GaveUp(Loop(http), s0, s) && EndsWith(http.ioc.kernel.k, WaitFailed))
    ensures http.status == -1 ==> ok && objects == map[] && http.ioc.Reg() == Registry(map[], map[])
  {
    s0 := http.Register();
    ok, objects, s := true, map[], s0;
    if http.status == -1 {
    } else {
      var status;
      ok, status, objects, s := Run(http, s0);
    }
  }

  // ---- What this says of the objects ----

  /**
   * Whenever the loop is between two dispatches, a connection that lives has sent the first
   * sentBytes bytes of its buffer and given the parser all that it has read; and one that was
   * deleted by the success callback had sent all of a serialization of its last response.
   */
  lemma ObjectsDeliver(http: HttpServer, objects: Objects, s0: State, s: State, id: ConnId)
    requires Init(s0) && AtRest(http, objects, s0, s) && id in objects
    ensures var c, socks := objects[id], http.ioc.kernel.k.socks;
            match c.outcome
            case None =>
              && c.socket in socks && c.sentBytes <= |c.sendBuffer|
              && socks[c.socket].wire == c.sendBuffer[..c.sentBytes]
              && socks[c.socket].read <= |socks[c.socket].stream|
              && Concat(c.fed) == socks[c.socket].stream[..socks[c.socket].read]
            case Some(o) =>
              o.cause.AllSent? ==>
                && o.conn.response.Some? && Prints(o.conn.response.value, o.sock.wire)
                && o.conn.sendBuffer == "" && o.conn.sent == 0
  {
    var c := objects[id];
    ReachedInv(Loop(http), s0, s);
    assert Mirrors(c, FateOf(s, id));
    if c.outcome.None? {
      assert ConnOk(s.k, s.reg, id, s.conns[id]);
    } else {
      assert OutcomeOk(s.outcomes[id]);
    }
  }

  /**
   * What the sample server puts on the wire. Of a connection that lives, it is a part of a
   * serialization of its one response; of one that the success callback has deleted, all of it,
   * from which a peer that reads it by RFC 9112 gets that response; and of one that an error has
   * ended, less than all of it.
   */
  lemma SampleDelivered(http: HttpServer, objects: Objects, s0: State, s: State, id: ConnId)
    requires Init(s0) && AtRest(http, objects, s0, s) && id in objects
    ensures var c, socks := objects[id], http.ioc.kernel.k.socks;
            match c.outcome
            case None =>
              && c.socket in socks && socks[c.socket].wire <= c.sendBuffer
              && (socks[c.socket].wire != "" ==> IsSampleText(c.sendBuffer))
            case Some(o) =>
              && (o.cause.AllSent? ==>
                    && IsSampleText(o.sock.wire) && "HTTP/1.1 200 OK\r\n" <= o.sock.wire
                    && Parse(o.sock.wire) == Some(Response("1.1", "200", "OK",
                         map["Content-Type" := "text/plain", "Connection" := "close", "Content-Length" := "25"],
                         "This is fast!! C++ server")))
              && (!o.cause.AllSent? && o.sock.wire != "" ==>
                    IsSampleText(o.conn.sendBuffer) && o.sock.wire < o.conn.sendBuffer)
  {
    var c := objects[id];
    ReachedInv(Loop(http), s0, s);
    assert Mirrors(c, FateOf(s, id));
    if c.outcome.None? {
      assert ConnOk(s.k, s.reg, id, s.conns[id]);
      SampleLiving(s.k, s.reg, id, s.conns[id]);
    } else {
      assert OutcomeOk(s.outcomes[id]);
      SampleOutcome(s.outcomes[id]);
    }
  }

  lemma SampleBuffer(c: Conn)
    requires Sampled(c)
    ensures ResponseOk(c) ==> IsSampleText(c.sendBuffer)
  {
    if ResponseOk(c) {
      SampleText(c.sendBuffer);
    }
  }

  lemma SampleLiving(k: Kernel, reg: Registry<Callback>, id: ConnId, c: Conn)
    requires ConnOk(k, reg, id, c) && Sampled(c)
    ensures c.fd in k.socks && k.socks[c.fd].wire <= c.sendBuffer
    ensures k.socks[c.fd].wire != "" ==> IsSampleText(c.sendBuffer)
  {
    SampleBuffer(c);
  }

  lemma SampleOutcome(o: Outcome)
    requires OutcomeOk(o) && Sampled(o.conn)
    ensures o.cause.AllSent? ==>
              && IsSampleText(o.sock.wire) && "HTTP/1.1 200 OK\r\n" <= o.sock.wire
              && Parse(o.sock.wire) == Some(SERVER_RESPONSE)
    ensures !o.cause.AllSent? && o.sock.wire != "" ==>
              IsSampleText(o.conn.sendBuffer) && o.sock.wire < o.conn.sendBuffer
  {
    SampleBuffer(o.conn);
    if o.cause.AllSent? {
      SampleParses(o.sock.wire);
      SampleText(o.sock.wire);
      SampleStarts(o.sock.wire);
    }
  }

  lemma SampleStarts(text: string)
    requires IsSampleText(text)
    ensures "HTTP/1.1 200 OK\r\n" <= text
  {
    var a, b, c :| IsSampleLine(a) && IsSampleLine(b) && IsSampleLine(c)
                   && text == "HTTP/1.1 200 OK\r\n" + a + b + c + "\r\n" + "This is fast!! C++ server";
    StartsWith("HTTP/1.1 200 OK\r\n", a, b, c, "\r\n", "This is fast!! C++ server");
  }

  lemma StartsWith(start: string, a: string, b: string, c: string, d: string, e: string)
    ensures start <= start + a + b + c + d + e
  {
  }

  lemma SampleParses(text: string)
    requires Prints(SERVER_RESPONSE, text)
    ensures Parse(text) == Some(SERVER_RESPONSE)
  {
    ServerResponseWellFormed();
    var order :| IsOrder(order, SERVER_RESPONSE.headers) && text == Print(SERVER_RESPONSE, order);
    RoundTrip(SERVER_RESPONSE, order);
  }

  lemma AwakeAtRest(cfg: Config, s: State, id: ConnId)
    requires Inv(cfg, s) && s.running.Nobody? && s.queue == multiset{} && id in s.conns
    ensures s.conns[id].fd in s.k.socks
    ensures NeedsInput(s.k, s.conns[id]) || NeedsOutput(s.k, s.conns[id]) ==> IsReady(s.k, s.conns[id].fd)
  {
    assert ConnOk(s.k, s.reg, id, s.conns[id]) && AwakeOk(s, id);
  }

  /**
   * Whenever the queue is empty, so whenever epoll_wait is called, a connection that has bytes
   * to send and room to send them into is on the ready list, and so is one that has something to
   * read, unless recv has failed on it: the reactor never sleeps on work that it could do.
   */
  lemma NobodyForgotten(http: HttpServer, objects: Objects, s0: State, s: State, id: ConnId)
    requires Init(s0) && AtRest(http, objects, s0, s) && http.ioc.eventQueue == multiset{}
    requires id in objects && objects[id].outcome.None? && objects[id].socket in http.ioc.kernel.k.watches
    ensures var c, k := objects[id], http.ioc.kernel.k;
            && c.socket in k.socks
            && (k.watches[c.socket].output && k.socks[c.socket].room > 0 ==> k.watches[c.socket].ready)
            && (k.watches[c.socket].input && Readable(k.socks[c.socket]) && !c.stalled ==> k.watches[c.socket].ready)
  {
    ReachedInv(Loop(http), s0, s);
    assert Mirrors(objects[id], FateOf(s, id));
    AwakeAtRest(Loop(http), s, id);
  }
}
