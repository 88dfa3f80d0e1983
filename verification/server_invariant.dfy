// What every reachable state of the server keeps, as long as no request fails to parse.

module ServerInvariant {
  import opened KernelModel
  import opened ReactorSpec
  import opened ConnectionSpec
  import opened ServerMachine

  /** The listener is registered once and for all; the registries agree. */
  ghost predicate ListenerOk(s: State)
  {
    var l := s.k.listener;
    && l !in s.k.socks && l in s.k.watches
    && s.k.watches[l].input && !s.k.watches[l].output
    && l in s.reg.callbacks && s.reg.callbacks[l] == AcceptCallback
    && l in s.reg.priorities && s.reg.priorities[l] == LISTEN_SOCK
    && Coherent(s.reg, s.k.watches.Keys)
  }

  /** Identities are never used twice, and no two living connections share a descriptor. */
  ghost predicate IdsOk(s: State)
  {
    && (forall id :: id in s.conns ==> id < s.next && id !in s.outcomes)
    && (forall id :: id in s.outcomes ==> id < s.next)
    && (forall i, j :: i in s.conns && j in s.conns && s.conns[i].fd == s.conns[j].fd ==> i == j)
  }

  ghost predicate AllConnsOk(s: State)
  {
    forall id :: id in s.conns ==> ConnOk(s.k, s.reg, id, s.conns[id])
  }

  ghost predicate OwnedBy(s: State, fd: Fd, id: ConnId)
  {
    id in s.conns && s.conns[id].fd == fd && fd in s.reg.callbacks
    && s.reg.callbacks[fd].HandleEvent? && s.reg.callbacks[fd].id == id
  }

  /** Whatever is watched is the listener, or registered by the living connection that owns it. */
  ghost predicate Watched(s: State, fd: Fd)
  {
    fd == s.k.listener || exists id :: OwnedBy(s, fd, id)
  }

  ghost predicate WatchesOk(s: State)
  {
    forall fd :: fd in s.k.watches ==> Watched(s, fd)
  }

  /** A pending event is still watched, for what it reports, by the callback it was harvested for. */
  ghost predicate EventOk(s: State, x: Queued)
  {
    var fd := x.event.fd;
    && fd in s.k.watches
    && (x.event.input ==> s.k.watches[fd].input)
    && (x.event.output ==> s.k.watches[fd].output)
    && x.priority == PriorityOf(s.reg, fd)
    && fd in s.harvested.callbacks && fd in s.reg.callbacks && s.harvested.callbacks[fd] == s.reg.callbacks[fd]
    && (fd != s.k.listener && !x.event.input && CanRead(s.k, fd) ==> IsReady(s.k, fd))
  }

  /** No descriptor has two events in the queue. */
  ghost predicate EachOnce(queue: multiset<Queued>)
  {
    && (forall x, y :: x in queue && y in queue && x.event.fd == y.event.fd ==> x == y)
    && (forall x :: x in queue ==> queue[x] == 1)
  }

  ghost predicate QueueOk(s: State)
  {
    && EachOnce(s.queue)
    && (forall x :: Pending(s, x) ==> EventOk(s, x))
    && (!s.running.Nobody? ==> s.running.x in s.queue)
  }

  ghost predicate RunningOk(s: State)
  {
    match s.running
    case InHandler(x, id, _, pc) =>
      && id < s.next && x.priority != LISTEN_SOCK
      && (id in s.conns ==> HandlerOk(Focus(s)) && s.conns[id].fd == x.event.fd)
      && (id !in s.conns ==> pc.Done?)
    case InAccept(x) => x.event.fd == s.k.listener
    case InTrack(_, id) => id in s.conns && s.conns[id].fd !in s.k.watches
    case _ => true
  }

  /** Some pending event will make the connection's handler read, or send. */
  ghost predicate Told(s: State, fd: Fd, input: bool)
  {
    exists x :: Pending(s, x) && x.event.fd == fd
                && (x.event.err || (if input then x.event.input else x.event.output))
  }

  /** No wake-up is lost for a connection whose handler is not running. */
  ghost predicate AwakeOk(s: State, id: ConnId)
    requires id in s.conns
  {
    var c := s.conns[id];
    && (NeedsInput(s.k, c) ==> IsReady(s.k, c.fd) || Told(s, c.fd, true))
    && (NeedsOutput(s.k, c) ==> IsReady(s.k, c.fd) || Told(s, c.fd, false))
  }

  predicate Runs(s: State, id: ConnId) { s.running.InHandler? && s.running.id == id }

  ghost predicate AllAwake(s: State)
  {
    forall id :: id in s.conns && !Runs(s, id) ==> AwakeOk(s, id)
  }

  ghost predicate OutcomesOk(s: State)
  {
    forall id :: id in s.outcomes ==> OutcomeOk(s.outcomes[id])
  }

  /** While something closed in this batch, and from the first connection on, no accept can come. */
  ghost predicate OrderOk(cfg: Config, s: State)
  {
    && (cfg.ordered && (s.closed != {} || s.running.InHandler?) ==>
          forall x :: x in s.queue ==> x.priority != LISTEN_SOCK)
    && (!s.running.Nobody? ==> s.running.x in s.queue)
    && (s.running.InAccept? ==> s.running.x.priority == LISTEN_SOCK)
  }

  /** Every descriptor of the batch is open, but those that were closed since. */
  ghost predicate BatchOk(s: State)
  {
    forall i :: 0 <= i < |s.batch| ==> Open(s.k, s.batch[i].fd) || s.batch[i].fd in s.closed
  }

  ghost predicate Inv(cfg: Config, s: State)
  {
    && ListenerOk(s) && IdsOk(s) && AllConnsOk(s) && WatchesOk(s)
    && QueueOk(s) && RunningOk(s) && AllAwake(s) && OutcomesOk(s)
    && OrderOk(cfg, s) && BatchOk(s)
  }
}
