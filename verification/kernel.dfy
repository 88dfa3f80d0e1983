// The part of the kernel that the server talks to: open sockets, the epoll interest list with
// its ready flags as epoll(7) describes them, and the backlog of the listening socket.
// Whatever the peers do is an EnvAction; it may happen at any time.

module KernelModel {
  const INT_MAX := 0x7FFF_FFFF

  /** A descriptor: an int that is not negative. The kernel keeps them below INT_MAX. */
  type Fd = fd: int | 0 <= fd < INT_MAX

  const EPOLL_CTL_ADD: Fd := 1
  const EPOLL_CTL_DEL: Fd := 2
  const EPOLL_CTL_MOD: Fd := 3

  /**
   * A connected socket. `stream` is all that the peer will ever send, of which `arrived` bytes
   * have reached the host and `read` bytes have been taken by recv. `room` is what the send
   * buffer can take now, `wire` all that it ever took.
   */
  datatype Sock = Sock(
    stream: string,
    arrived: nat,
    read: nat,
    closing: bool,
    fault: bool,
    room: nat,
    wire: string)

  /** An entry of the interest list. `ready` says that the entry is on the ready list. */
  datatype Watch = Watch(input: bool, output: bool, edge: bool, ready: bool)

  /** epoll_ctl did it, or refused its arguments, or failed all the same. */
  datatype Verdict = Obeyed | Refused | Faulted

  /** What a system call of the server has returned: of the `asked` bytes, recv or send took `n`. */
  datatype Answer =
    | GotData(fd: Fd, asked: nat, n: nat) | GotAgain(fd: Fd) | GotEnd(fd: Fd) | GotError(fd: Fd)      // recv
    | PutData(fd: Fd, asked: nat, n: nat) | PutAgain(fd: Fd) | PutNothing(fd: Fd) | PutError(fd: Fd)  // send
    | Ctl(op: Fd, fd: Fd, verdict: Verdict)                                                           // epoll_ctl
    | AcceptedAs(fd: Fd, unblocked: bool) | AcceptedNone                                              // accept, fcntl
    | Waited(events: seq<PollEvent>) | WaitFailed                                                     // epoll_wait

  /** `answers` is history: what every system call so far has returned. */
  datatype Kernel = Kernel(
    listener: Fd,
    backlog: nat,
    socks: map<Fd, Sock>,
    watches: map<Fd, Watch>,
    answers: seq<Answer>)

  /** One event of epoll_wait: the bits EPOLLERR, EPOLLIN and EPOLLOUT; the others are not looked at. */
  datatype PollEvent = PollEvent(fd: Fd, err: bool, input: bool, output: bool)

  /** What the peers, the network and the kernel do by themselves. */
  datatype EnvAction =
    | Knock                     // a peer connects
    | Leave                     // a peer gives up before it is accepted
    | Arrive(fd: Fd, n: nat)    // n more bytes of the stream arrive
    | Finish(fd: Fd)            // the peer closes its side, after all its bytes
    | Fail(fd: Fd)              // the connection breaks
    | Drain(fd: Fd, n: nat)     // the send buffer gets room for n more bytes
    | Wake(fd: Fd)              // any other wake-up, for EPOLLHUP or EPOLLRDHUP say

  predicate ValidSock(s: Sock)
  {
    s.read <= s.arrived <= |s.stream| && (s.closing ==> s.arrived == |s.stream|)
  }

  /** recv would return bytes, or 0 at the end of the stream. */
  predicate Readable(s: Sock) { s.read < s.arrived || s.closing }

  predicate Open(k: Kernel, fd: Fd) { fd in k.socks || fd == k.listener }

  predicate EnvEnabled(k: Kernel, a: EnvAction)
  {
    match a
    case Knock => true
    case Leave => k.backlog > 0
    case Arrive(fd, n) => fd in k.socks && n > 0 && k.socks[fd].arrived + n <= |k.socks[fd].stream|
    case Finish(fd) => fd in k.socks && k.socks[fd].arrived == |k.socks[fd].stream|
    case Fail(fd) => fd in k.socks
    case Drain(fd, n) => fd in k.socks && n > 0
    case Wake(fd) => fd in k.watches && fd in k.socks
  }

  /** Put `fd` on the ready list if it is watched for `input`, or for `output`, or for anything. */
  function Notify(k: Kernel, fd: Fd, input: bool, output: bool): Kernel
  {
    if fd in k.watches
       && ((!input && !output) || (input && k.watches[fd].input) || (output && k.watches[fd].output))
    then k.(watches := k.watches[fd := k.watches[fd].(ready := true)])
    else k
  }

  function EnvNext(k: Kernel, a: EnvAction): Kernel
    requires EnvEnabled(k, a)
  {
    match a
    case Knock => k.(backlog := k.backlog + 1)
    case Leave => k.(backlog := k.backlog - 1)
    case Arrive(fd, n) =>
      var s := k.socks[fd];
      Notify(k.(socks := k.socks[fd := s.(arrived := s.arrived + n)]), fd, true, false)
    case Finish(fd) =>
      var s := k.socks[fd];
      Notify(k.(socks := k.socks[fd := s.(closing := true)]), fd, true, false)
    case Fail(fd) =>
      var s := k.socks[fd];
      Notify(k.(socks := k.socks[fd := s.(fault := true)]), fd, false, false)
    case Drain(fd, n) =>
      var s := k.socks[fd];
      Notify(k.(socks := k.socks[fd := s.(room := s.room + n)]), fd, false, true)
    case Wake(fd) => Notify(k, fd, false, false)
  }

  /** How the kernel may look at `fd` some time later, if the server has done nothing meanwhile. */
  predicate EvolvesAt(k: Kernel, k': Kernel, fd: Fd)
  {
    && (fd in k.socks <==> fd in k'.socks)
    && (fd in k.watches <==> fd in k'.watches)
    && (fd in k.socks ==>
          var s, s' := k.socks[fd], k'.socks[fd];
          && s'.stream == s.stream && s'.read == s.read && s'.wire == s.wire
          && s.arrived <= s'.arrived && s.room <= s'.room
          && (ValidSock(s) ==> ValidSock(s')) && (Readable(s) ==> Readable(s')))
    && (fd in k.watches ==>
          var w, w' := k.watches[fd], k'.watches[fd];
          && w' == w.(ready := w'.ready) && (w.ready ==> w'.ready)
          // Whatever becomes possible is announced: this is what edge-triggered means.
          && (fd in k.socks && w.input && Readable(k'.socks[fd]) ==> Readable(k.socks[fd]) || w'.ready)
          && (fd in k.socks && w.output && k'.socks[fd].room > 0 ==> k.socks[fd].room > 0 || w'.ready))
  }

  /** A change of one socket that is announced to whoever watches for it. */
  lemma NotifyEvolves(k: Kernel, g: Fd, s: Sock, input: bool, output: bool, fd: Fd)
    requires g in k.socks
    requires s.stream == k.socks[g].stream && s.read == k.socks[g].read && s.wire == k.socks[g].wire
    requires k.socks[g].arrived <= s.arrived && k.socks[g].room <= s.room
    requires (ValidSock(k.socks[g]) ==> ValidSock(s)) && (Readable(k.socks[g]) ==> Readable(s))
    requires Readable(s) ==> Readable(k.socks[g]) || input || (!input && !output)
    requires s.room > 0 ==> k.socks[g].room > 0 || output || (!input && !output)
    ensures EvolvesAt(k, Notify(k.(socks := k.socks[g := s]), g, input, output), fd)
  {
  }

  lemma ArriveEvolves(k: Kernel, a: EnvAction, fd: Fd)
    requires EnvEnabled(k, a) && a.Arrive?
    ensures EvolvesAt(k, EnvNext(k, a), fd)
  {
    NotifyEvolves(k, a.fd, k.socks[a.fd].(arrived := k.socks[a.fd].arrived + a.n), true, false, fd);
  }

  lemma FinishEvolves(k: Kernel, a: EnvAction, fd: Fd)
    requires EnvEnabled(k, a) && a.Finish?
    ensures EvolvesAt(k, EnvNext(k, a), fd)
  {
    NotifyEvolves(k, a.fd, k.socks[a.fd].(closing := true), true, false, fd);
  }

  lemma FailEvolves(k: Kernel, a: EnvAction, fd: Fd)
    requires EnvEnabled(k, a) && a.Fail?
    ensures EvolvesAt(k, EnvNext(k, a), fd)
  {
    NotifyEvolves(k, a.fd, k.socks[a.fd].(fault := true), false, false, fd);
  }

  lemma DrainEvolves(k: Kernel, a: EnvAction, fd: Fd)
    requires EnvEnabled(k, a) && a.Drain?
    ensures EvolvesAt(k, EnvNext(k, a), fd)
  {
    NotifyEvolves(k, a.fd, k.socks[a.fd].(room := k.socks[a.fd].room + a.n), false, true, fd);
  }

  lemma WakeEvolves(k: Kernel, a: EnvAction, fd: Fd)
    requires EnvEnabled(k, a) && a.Wake?
    ensures EvolvesAt(k, EnvNext(k, a), fd)
  {
    assert k.socks[a.fd := k.socks[a.fd]] == k.socks;
    NotifyEvolves(k, a.fd, k.socks[a.fd], false, false, fd);
  }

  lemma EnvKeepsRest(k: Kernel, a: EnvAction)
    requires EnvEnabled(k, a)
    ensures EnvNext(k, a).listener == k.listener && EnvNext(k, a).answers == k.answers
  {
  }

  /** Whatever the peers do, they only add to what is possible, and it is announced. */
  lemma EnvEvolves(k: Kernel, a: EnvAction, fd: Fd)
    requires EnvEnabled(k, a)
    ensures EvolvesAt(k, EnvNext(k, a), fd)
    ensures EnvNext(k, a).listener == k.listener && EnvNext(k, a).answers == k.answers
  {
    EnvKeepsRest(k, a);
    match a {
      case Arrive(_, _) => ArriveEvolves(k, a, fd);
      case Finish(_) => FinishEvolves(k, a, fd);
      case Fail(_) => FailEvolves(k, a, fd);
      case Drain(_, _) => DrainEvolves(k, a, fd);
      case Wake(_) => WakeEvolves(k, a, fd);
      case Knock | Leave =>
    }
  }

  /** The last system call has returned `a`. */
  predicate EndsWith(k: Kernel, a: Answer)
  {
    |k.answers| > 0 && k.answers[|k.answers| - 1] == a
  }

  /** One call of epoll_ctl has been answered in between. */
  ghost predicate Controls(before: seq<Answer>, after: seq<Answer>, op: Fd, fd: Fd)
  {
    exists verdict :: after == before + [Ctl(op, fd, verdict)]
  }

  // ---- System calls ----

  function Noted(k: Kernel, a: Answer): Kernel
  {
    k.(answers := k.answers + [a])
  }

  /** recv has returned the next `n` bytes of at most `size`. */
  function Recv(k: Kernel, fd: Fd, size: nat, n: nat): Kernel
    requires fd in k.socks
  {
    Noted(k.(socks := k.socks[fd := k.socks[fd].(read := k.socks[fd].read + n)]), GotData(fd, size, n))
  }

  /** The bytes that recv returns. */
  function Taken(s: Sock, n: nat): string
    requires s.read + n <= s.arrived <= |s.stream|
  {
    s.stream[s.read..s.read + n]
  }

  /** send has accepted `data`, of `size` bytes offered. */
  function Send(k: Kernel, fd: Fd, size: nat, data: string): Kernel
    requires fd in k.socks && |data| <= k.socks[fd].room
  {
    var s := k.socks[fd];
    Noted(k.(socks := k.socks[fd := s.(room := s.room - |data|, wire := s.wire + data)]),
          PutData(fd, size, |data|))
  }

  /** close: the number is free again, and epoll forgets it. */
  function Close(k: Kernel, fd: Fd): Kernel
  {
    k.(socks := k.socks - {fd}, watches := k.watches - {fd})
  }

  /** Does a watch with these interests have anything to report now? */
  predicate Reportable(s: Sock, input: bool, output: bool)
  {
    s.fault || (input && Readable(s)) || (output && s.room > 0)
  }

  predicate CanAdd(k: Kernel, fd: Fd) { fd in k.socks && fd !in k.watches }

  /** EPOLL_CTL_ADD of a connected socket, edge triggered; what is there already counts as an edge. */
  function EpollAdd(k: Kernel, fd: Fd, input: bool, output: bool): Kernel
    requires CanAdd(k, fd)
  {
    Noted(k.(watches := k.watches[fd := Watch(input, output, true, Reportable(k.socks[fd], input, output))]),
          Ctl(EPOLL_CTL_ADD, fd, Obeyed))
  }

  /** EPOLL_CTL_ADD of the listening socket, level triggered. */
  function EpollListen(k: Kernel): Kernel
  {
    Noted(k.(watches := k.watches[k.listener := Watch(true, false, false, false)]),
          Ctl(EPOLL_CTL_ADD, k.listener, Obeyed))
  }

  /** EPOLL_CTL_DEL. */
  function EpollDel(k: Kernel, fd: Fd): Kernel
  {
    Noted(k.(watches := k.watches - {fd}), Ctl(EPOLL_CTL_DEL, fd, Obeyed))
  }

  /** epoll_ctl has failed; `able` says that its arguments were not the reason. */
  function Denied(k: Kernel, op: Fd, fd: Fd, able: bool): Kernel
  {
    Noted(k, Ctl(op, fd, if able then Faulted else Refused))
  }

  predicate CanModify(k: Kernel, fd: Fd) { fd in k.socks && fd in k.watches }

  /** EPOLL_CTL_MOD: a new mask; what is there already counts as an edge. */
  function EpollMod(k: Kernel, fd: Fd, input: bool, output: bool): Kernel
    requires CanModify(k, fd)
  {
    var w := k.watches[fd];
    Noted(k.(watches := k.watches[fd := w.(input := input, output := output,
                                           ready := w.ready || Reportable(k.socks[fd], input, output))]),
          Ctl(EPOLL_CTL_MOD, fd, Obeyed))
  }

  /** accept: any number not in use, for a socket on which anything may have arrived already. */
  predicate CanAccept(k: Kernel, fd: Fd, s: Sock)
  {
    k.backlog > 0 && !Open(k, fd) && ValidSock(s) && s.read == 0 && s.wire == ""
  }

  /** `unblocked` says that fcntl has succeeded too. */
  function Accept(k: Kernel, fd: Fd, s: Sock, unblocked: bool): Kernel
    requires CanAccept(k, fd, s)
  {
    Noted(k.(backlog := k.backlog - 1, socks := k.socks[fd := s]), AcceptedAs(fd, unblocked))
  }

  // ---- epoll_wait ----

  /** What epoll_wait says of a watched descriptor, if it says anything. */
  predicate Reports(k: Kernel, e: PollEvent)
  {
    && e.fd in k.watches
    && var w := k.watches[e.fd];
       if e.fd == k.listener then
         (e.input <==> k.backlog > 0) && !e.output && (e.input || e.err)
       else
         && e.fd in k.socks && w.ready
         && (e.err <==> k.socks[e.fd].fault)
         && (e.input <==> w.input && Readable(k.socks[e.fd]))
         && (e.output <==> w.output && k.socks[e.fd].room > 0)
  }

  /** epoll_wait may return `batch`: at least one event, at most `max`, at most one a descriptor. */
  predicate CanHarvest(k: Kernel, batch: seq<PollEvent>, max: nat)
  {
    && 1 <= |batch| <= max
    && (forall i, j :: 0 <= i < j < |batch| ==> batch[i].fd != batch[j].fd)
    && (forall i :: 0 <= i < |batch| ==> Reports(k, batch[i]))
  }

  predicate InBatch(batch: seq<PollEvent>, fd: Fd)
  {
    exists i :: 0 <= i < |batch| && batch[i].fd == fd
  }

  /** What is reported leaves the ready list; `dropped` leaves it with nothing to report. */
  function Harvest(k: Kernel, batch: seq<PollEvent>, dropped: set<Fd>): Kernel
  {
    Noted(k.(watches := map fd | fd in k.watches ::
                          if InBatch(batch, fd) || fd in dropped then k.watches[fd].(ready := false)
                          else k.watches[fd]),
          Waited(batch))
  }

  predicate CanDrop(k: Kernel, dropped: set<Fd>)
  {
    forall fd :: fd in dropped ==>
      && fd in k.watches && fd in k.socks
      && !Reportable(k.socks[fd], k.watches[fd].input, k.watches[fd].output)
  }
}
