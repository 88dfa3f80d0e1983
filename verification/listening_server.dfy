// HttpServer: include/listening_server.h.

module ListeningServer {
  import opened DataTypes
  import opened KernelModel
  import opened KernelCalls
  import opened ReactorSpec
  import opened Reactor
  import opened ConnectionSpec
  import opened Connection
  import opened ServerMachine
  import opened ServerRuns

  /**
   * What the listener's callback asks of the kernel: nothing for EPOLLERR or without EPOLLIN;
   * otherwise accept, and then, exactly if that yields a descriptor ready for use, `made` is the
   * descriptor of a new connection, which epoll_ctl is asked to add.
   */
  ghost predicate Asked(before: seq<Answer>, after: seq<Answer>, ev: PollEvent, made: Option<Fd>)
  {
    if ev.err || !ev.input then made == None && after == before
    else
      match made
      case None => after == before + [AcceptedNone] || exists fd :: after == before + [AcceptedAs(fd, false)]
      case Some(fd) => Controls(before + [AcceptedAs(fd, true)], after, EPOLL_CTL_ADD, fd)
  }

  function Made(conn: Clientconnection?): Option<Fd>
  {
    if conn == null then None else Some(conn.socket)
  }

  class HttpServer {
    const socket: Fd
    const ioc: IOReactor<Callback>
    var status: int
    var next: ConnId          // the identity of the next Clientconnection

    constructor (reactor: IOReactor<Callback>, socket: Fd)
      ensures ioc == reactor && this.socket == socket && status == 0 && next == 0
    {
      ioc := reactor;
      this.socket := socket;
      status := 0;
      next := 0;
    }

    /**
     * The callback given to asyncAccept. From any state of the machine in which that callback is
     * about to run and that agrees with the objects, it takes the steps of the machine until the
     * callback returns, and leaves the objects in agreement with the state it gets to.
     */
    method OnAccept(ev: PollEvent, ghost cfg: Config, ghost s0: State, ghost s: State)
      returns (conn: Clientconnection?, ghost s': State)
      requires ioc.Valid()
      requires Reached(cfg, s0, s) && s.running.InAccept? && s.running.x.event == ev
      requires s.k == ioc.kernel.k && s.reg == ioc.Reg() && s.next == next
      modifies this`next, ioc.kernel`k, ioc.eventCallback, ioc.eventPriority
      ensures Reached(cfg, s0, s') && s'.running == Returned(s.running.x)
      ensures s'.k == ioc.kernel.k && s'.reg == ioc.Reg() && s'.next == next && s'.queue == s.queue
      ensures s'.outcomes == s.outcomes && s'.polls == s.polls && s'.calls == s.calls
      ensures Asked(old(ioc.kernel.k.answers), ioc.kernel.k.answers, ev, Made(conn))
      ensures conn == null ==> s'.conns == s.conns && next == old(next) && ioc.Reg() == old(ioc.Reg())
      ensures conn != null ==> Listed(conn, old(ioc.Reg()))
      ensures conn != null ==> && fresh(conn) && fresh(conn.request) && next == old(next) + 1
                               && conn.id == old(next) && conn.ioc == ioc
                               && conn.outcome.None? && conn.response == null
                               && s'.conns == s.conns[conn.id := conn.View()]
    {
      if ev.err || !ev.input {
        conn := null;
        s' := Nothing(cfg, s0, s);
      } else {
        conn, s' := AcceptPeer(cfg, s0, s);
      }
    }

    /** The EPOLLIN branch: accept, and a connection if it yields a descriptor. */
    method AcceptPeer(ghost cfg: Config, ghost s0: State, ghost s: State)
      returns (conn: Clientconnection?, ghost s': State)
      requires ioc.Valid() && Reached(cfg, s0, s) && Accepting(s)
      requires s.k == ioc.kernel.k && s.reg == ioc.Reg() && s.next == next
      modifies this`next, ioc.kernel`k, ioc.eventCallback, ioc.eventPriority
      ensures Reached(cfg, s0, s') && s'.running == Returned(s.running.x)
      ensures s'.k == ioc.kernel.k && s'.reg == ioc.Reg() && s'.next == next && s'.queue == s.queue
      ensures s'.outcomes == s.outcomes && s'.polls == s.polls && s'.calls == s.calls
      ensures Asked(old(ioc.kernel.k.answers), ioc.kernel.k.answers, s.running.x.event, Made(conn))
      ensures conn == null ==> s'.conns == s.conns && next == old(next) && ioc.Reg() == old(ioc.Reg())
      ensures conn != null ==> && fresh(conn) && fresh(conn.request) && next == old(next) + 1
                               && conn.id == old(next) && conn.ioc == ioc
                               && conn.outcome.None? && conn.response == null
                               && s'.conns == s.conns[conn.id := conn.View()]
      ensures conn != null ==> Listed(conn, old(ioc.Reg()))
    {
      var newfd, leaked;
      ghost var num, sock, mid;
      newfd, leaked, num, sock, mid := ioc.kernel.AcceptConnection();
      ReachedEnv(cfg, s0, s, mid);
      if newfd == -1 {
        conn := null;
        s' := NoPeer(cfg, s0, s.(k := mid), leaked, num, sock);
      } else {
        conn, s' := Adopt(newfd, num, sock, cfg, s0, s.(k := mid));
      }
    }

    lemma NoPeer(cfg: Config, s0: State, s: State, leaked: bool, num: Fd, sock: Sock) returns (s': State)
      requires Reached(cfg, s0, s) && Accepting(s) && (leaked ==> CanAccept(s.k, num, sock))
      ensures Reached(cfg, s0, s') && s'.running == Returned(s.running.x)
      ensures s' == s.(k := s'.k, running := s'.running)
      ensures s'.k == if leaked then Accept(s.k, num, sock, false) else Noted(s.k, AcceptedNone)
      ensures Asked(s.k.answers, s'.k.answers, s.running.x.event, None)
    {
      var a := if leaked then AcceptLeak(num, sock) else AcceptFail;
      ReachedNext(cfg, s0, s, a);
      s' := Next(cfg, s, a);
    }

    /** The connection is watched for input and registered for it, or epoll_ctl has failed. */
    ghost predicate Listed(conn: Clientconnection, before: Registry<Callback>)
      reads ioc.kernel, ioc.eventCallback, ioc.eventPriority
    {
      var fd, watches := conn.socket, ioc.kernel.k.watches;
      if EndsWith(ioc.kernel.k, Ctl(EPOLL_CTL_ADD, fd, Obeyed)) then
        && fd in watches && watches[fd].input && !watches[fd].output && watches[fd].edge
        && ioc.eventCallback.map_ == before.callbacks[fd := Callback.HandleEvent(conn.id, Reading)]
        && ioc.eventPriority.map_ == before.priorities[fd := NEW_SOCK]
      else ioc.Reg() == before
    }

    /** A new Clientconnection for the accepted descriptor. */
    method Adopt(newfd: Fd, ghost num: Fd, ghost sock: Sock, ghost cfg: Config, ghost s0: State, ghost s: State)
      returns (conn: Clientconnection, ghost s': State)
      requires ioc.Valid() && num == newfd
      requires Reached(cfg, s0, s) && Enabled(cfg, s, AcceptOk(num, sock))
      requires Accept(s.k, num, sock, true) == ioc.kernel.k && s.reg == ioc.Reg() && s.next == next
      modifies this`next, ioc.kernel`k, ioc.eventCallback, ioc.eventPriority
      ensures Reached(cfg, s0, s') && s'.running == Returned(s.running.x)
      ensures s'.k == ioc.kernel.k && s'.reg == ioc.Reg() && s'.next == next && s'.queue == s.queue
      ensures s'.outcomes == s.outcomes && s'.polls == s.polls && s'.calls == s.calls
      ensures fresh(conn) && fresh(conn.request) && next == old(next) + 1 && conn.socket == newfd
      ensures Controls(old(ioc.kernel.k.answers), ioc.kernel.k.answers, EPOLL_CTL_ADD, conn.socket)
      ensures Listed(conn, old(ioc.Reg()))
      ensures conn.id == old(next) && conn.ioc == ioc && conn.outcome.None? && conn.response == null
      ensures s'.conns == s.conns[conn.id := conn.View()]
    {
      s' := NewPeer(cfg, s0, s, num, sock);
      conn := new Clientconnection(next, newfd, ioc);
      next := next + 1;
      s' := TrackConn(conn, cfg, s0, s');
    }

    lemma NewPeer(cfg: Config, s0: State, s: State, num: Fd, sock: Sock) returns (s': State)
      requires Reached(cfg, s0, s) && Enabled(cfg, s, AcceptOk(num, sock))
      ensures Reached(cfg, s0, s')
      ensures s' == s.(k := Accept(s.k, num, sock, true), running := InTrack(s.running.x, s.next),
                       conns := s.conns[s.next := NewConn(num)], next := s.next + 1)
    {
      ReachedNext(cfg, s0, s, AcceptOk(num, sock));
      s' := Next(cfg, s, AcceptOk(num, sock));
    }

    /** addTrack for the connection just made; whether it fails is not looked at. */
    method TrackConn(conn: Clientconnection, ghost cfg: Config, ghost s0: State, ghost s: State)
      returns (ghost s': State)
      requires ioc.Valid()
      requires Reached(cfg, s0, s) && s.running.InTrack? && s.running.id == conn.id
      requires conn.id in s.conns && s.conns[conn.id].fd == conn.socket
      requires s.k == ioc.kernel.k && s.reg == ioc.Reg()
      modifies ioc.kernel`k, ioc.eventCallback, ioc.eventPriority
      ensures Reached(cfg, s0, s') && s'.running == Returned(s.running.x)
      ensures s'.k == ioc.kernel.k && s'.reg == ioc.Reg() && s'.next == s.next && s'.conns == s.conns
      ensures s'.queue == s.queue
      ensures s'.outcomes == s.outcomes && s'.polls == s.polls && s'.calls == s.calls
      ensures Controls(old(ioc.kernel.k.answers), ioc.kernel.k.answers, EPOLL_CTL_ADD, conn.socket)
      ensures Listed(conn, old(ioc.Reg()))
    {
      var r;
      ghost var mid;
      r, mid := ioc.AddTrack(conn.socket, true, false, NEW_SOCK, Callback.HandleEvent(conn.id, Reading));
      ReachedEnv(cfg, s0, s, mid);
      s' := s.(k := mid);
      ReachedNext(cfg, s0, s', TrackNew(r == 0));
      s' := Next(cfg, s', TrackNew(r == 0));
    }

    lemma Nothing(cfg: Config, s0: State, s: State) returns (s': State)
      requires Reached(cfg, s0, s) && s.running.InAccept?
      requires s.running.x.event.err || !s.running.x.event.input
      ensures Reached(cfg, s0, s') && s' == s.(running := Returned(s.running.x))
    {
      ReachedNext(cfg, s0, s, AcceptNothing);
      s' := Next(cfg, s, AcceptNothing);
    }

    /** asyncAccept in listen: if it succeeds, the server is where the runs of the machine start. */
    method Register() returns (ghost s: State)
      requires ioc.Valid() && socket == ioc.kernel.k.listener && ioc.Reg() == Registry(map[], map[])
      requires ioc.kernel.k.socks == map[] && ioc.kernel.k.watches == map[]
      modifies this`status, ioc.kernel`k, ioc.eventCallback, ioc.eventPriority
      ensures status == 0 || status == -1
      ensures status == 0 ==> Init(s) && s.k == ioc.kernel.k && s.reg == ioc.Reg()
      ensures status == 0 ==> && ioc.eventCallback.map_ == map[socket := AcceptCallback]
                              && ioc.eventPriority.map_ == map[socket := LISTEN_SOCK]
      ensures status == -1 ==> ioc.Reg() == Registry(map[], map[]) && ioc.kernel.k.watches == map[]
      ensures ioc.InOrder()
    {
      ghost var mid;
      status, mid := ioc.AsyncAccept(socket, AcceptCallback);
      EvolvesEverywhere(old(ioc.kernel.k), mid);
      assert mid.socks.Keys == {} && mid.watches.Keys == {};
      s := State(ioc.kernel.k, ioc.Reg(), multiset{}, Nobody, map[], 0, map[], [],
                 Registry(map[], map[]), {}, [], []);
    }
  }
}
