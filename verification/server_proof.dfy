// The invariant of the server is kept by every action but a parse error.

module ServerProof {
  import opened KernelModel
  import opened ReactorSpec
  import opened ConnectionSpec
  import opened ServerMachine
  import opened ServerInvariant

  // ---- Frames: what depends on what ----

  lemma WatchesFrame(s: State, s': State)
    requires WatchesOk(s)
    requires s'.conns == s.conns && s'.reg == s.reg && s'.k.listener == s.k.listener
    requires s'.k.watches.Keys <= s.k.watches.Keys
    ensures WatchesOk(s')
  {
    forall fd | fd in s'.k.watches ensures Watched(s', fd) {
      assert fd in s.k.watches && Watched(s, fd);
      if fd != s.k.listener {
        var id :| OwnedBy(s, fd, id);
        assert OwnedBy(s', fd, id);
      }
    }
  }

  lemma ToldFrame(s: State, s': State, fd: Fd, input: bool)
    requires Told(s, fd, input)
    requires forall x :: Pending(s, x) && x.event.fd == fd ==> Pending(s', x)
    ensures Told(s', fd, input)
  {
    var x :| Pending(s, x) && x.event.fd == fd
             && (x.event.err || (if input then x.event.input else x.event.output));
    assert Pending(s', x);
  }

  lemma AwakeFrame(s: State, s': State, id: ConnId)
    requires id in s.conns && id in s'.conns && s'.conns[id] == s.conns[id] && AwakeOk(s, id)
    requires EvolvesAt(s.k, s'.k, s.conns[id].fd)
    requires forall x :: Pending(s, x) && x.event.fd == s.conns[id].fd ==> Pending(s', x)
    ensures AwakeOk(s', id)
  {
    var fd := s.conns[id].fd;
    if Told(s, fd, true) { ToldFrame(s, s', fd, true); }
    if Told(s, fd, false) { ToldFrame(s, s', fd, false); }
  }

  lemma EventFrame(s: State, s': State, x: Queued)
    requires EventOk(s, x) && s'.harvested == s.harvested
    requires var fd := x.event.fd;
             && fd in s'.k.watches && s'.k.watches[fd].input == s.k.watches[fd].input
             && s'.k.watches[fd].output == s.k.watches[fd].output
             && PriorityOf(s'.reg, fd) == PriorityOf(s.reg, fd)
             && fd in s'.reg.callbacks && s'.reg.callbacks[fd] == s.reg.callbacks[fd]
             && s'.k.listener == s.k.listener
             && ((CanRead(s.k, fd) ==> IsReady(s.k, fd)) && CanRead(s'.k, fd) ==> IsReady(s'.k, fd))
    ensures EventOk(s', x)
  {
  }

  /** Everything that is watched is open. */
  lemma WatchedOpen(s: State, fd: Fd)
    requires WatchesOk(s) && AllConnsOk(s) && fd in s.k.watches
    ensures Open(s.k, fd)
  {
    assert Watched(s, fd);
    if fd != s.k.listener {
      var id :| OwnedBy(s, fd, id);
      assert ConnOk(s.k, s.reg, id, s.conns[id]);
    }
  }

  // ---- Init ----

  lemma InitInv(cfg: Config, s: State)
    requires Init(s)
    ensures Inv(cfg, s)
  {
  }

  // ---- Peer ----

  lemma PeerConns(s: State, k: Kernel)
    requires AllConnsOk(s) && k.listener == s.k.listener && forall fd :: EvolvesAt(s.k, k, fd)
    ensures AllConnsOk(s.(k := k))
  {
    forall id | id in s.conns ensures ConnOk(k, s.reg, id, s.conns[id]) {
      EvolvesKeepsConn(s.k, s.reg, id, s.conns[id], k);
    }
  }

  lemma PeerRunning(s: State, k: Kernel)
    requires RunningOk(s) && k.listener == s.k.listener && forall fd :: EvolvesAt(s.k, k, fd)
    requires s.running.InHandler? ==> k.answers == s.k.answers
    ensures RunningOk(s.(k := k))
  {
    if s.running.InHandler? && s.running.id in s.conns {
      EvolvesKeeps(Focus(s), k);
      assert Focus(s.(k := k)) == Focus(s).(k := k);
    }
    if s.running.InTrack? {
      assert EvolvesAt(s.k, k, s.conns[s.running.id].fd);
    }
  }

  lemma PeerAwake(s: State, k: Kernel)
    requires AllAwake(s) && forall fd :: EvolvesAt(s.k, k, fd)
    ensures AllAwake(s.(k := k))
  {
    var s' := s.(k := k);
    forall id | id in s'.conns && !Runs(s', id) ensures AwakeOk(s', id) {
      AwakeFrame(s, s', id);
    }
  }

  lemma PeerKeys(s: State, k: Kernel)
    requires ListenerOk(s) && WatchesOk(s) && BatchOk(s)
    requires k.listener == s.k.listener && forall fd :: EvolvesAt(s.k, k, fd)
    ensures var s' := s.(k := k); ListenerOk(s') && WatchesOk(s') && BatchOk(s')
  {
    var s' := s.(k := k);
    assert k.watches.Keys == s.k.watches.Keys by {
      forall fd ensures fd in k.watches <==> fd in s.k.watches { assert EvolvesAt(s.k, k, fd); }
    }
    WatchesFrame(s, s');
    forall i | 0 <= i < |s.batch| ensures Open(k, s.batch[i].fd) || s.batch[i].fd in s.closed {
      assert EvolvesAt(s.k, k, s.batch[i].fd);
    }
    assert EvolvesAt(s.k, k, s.k.listener);
  }

  lemma PeerQueue(s: State, k: Kernel)
    requires QueueOk(s) && k.listener == s.k.listener && forall fd :: EvolvesAt(s.k, k, fd)
    ensures QueueOk(s.(k := k))
  {
    var s' := s.(k := k);
    forall x | Pending(s', x) ensures EventOk(s', x) {
      assert Pending(s, x) && EvolvesAt(s.k, k, x.event.fd);
      EventFrame(s, s', x);
    }
  }

  /** A kernel in which nothing is lost, and all that is gained is announced. */
  lemma EvolvedInv(cfg: Config, s: State, k: Kernel)
    requires Inv(cfg, s) && k.listener == s.k.listener && forall fd :: EvolvesAt(s.k, k, fd)
    requires s.running.InHandler? ==> k.answers == s.k.answers
    ensures Inv(cfg, s.(k := k))
  {
    PeerConns(s, k);
    PeerRunning(s, k);
    PeerAwake(s, k);
    PeerKeys(s, k);
    PeerQueue(s, k);
  }

  lemma PeerInv(cfg: Config, s: State, a: Action)
    requires Inv(cfg, s) && Enabled(cfg, s, a) && a.Peer?
    ensures Inv(cfg, Next(cfg, s, a))
  {
    var k := EnvNext(s.k, a.env);
    forall fd ensures EvolvesAt(s.k, k, fd) && k.listener == s.k.listener && k.answers == s.k.answers {
      EnvEvolves(s.k, a.env, fd);
    }
    assert EvolvesAt(s.k, k, s.k.listener);
    EvolvedInv(cfg, s, k);
  }

  /** A system call that does nothing but fail. */
  lemma NotedInv(cfg: Config, s: State, answer: Answer)
    requires Inv(cfg, s) && !s.running.InHandler?
    ensures Inv(cfg, s.(k := Noted(s.k, answer)))
  {
    EvolvedInv(cfg, s, Noted(s.k, answer));
  }

  // ---- Poll ----

  lemma DistinctOnce(q: seq<Queued>, i: nat)
    requires i < |q| && forall j, l :: 0 <= j < l < |q| ==> q[j].event.fd != q[l].event.fd
    ensures multiset(q)[q[i]] == 1
  {
    assert q == q[..i] + [q[i]] + q[i + 1..];
    assert q[i] !in q[..i] && q[i] !in q[i + 1..];
  }

  /** Distinct descriptors make distinct events: the queue holds each event of the batch once. */
  lemma RankedOnce(reg: Registry<Callback>, events: seq<PollEvent>)
    requires forall i, j :: 0 <= i < j < |events| ==> events[i].fd != events[j].fd
    ensures EachOnce(multiset(Ranked(reg, events)))
  {
    var q := Ranked(reg, events);
    forall x | x in multiset(q) ensures multiset(q)[x] == 1 {
      var i :| 0 <= i < |q| && q[i] == x;
      DistinctOnce(q, i);
    }
  }

  lemma RankedIndex(reg: Registry<Callback>, events: seq<PollEvent>, x: Queued) returns (i: nat)
    requires x in multiset(Ranked(reg, events))
    ensures i < |events| && x == Ranked(reg, events)[i]
  {
    i :| 0 <= i < |events| && Ranked(reg, events)[i] == x;
  }

  lemma PollConns(s: State, events: seq<PollEvent>, dropped: set<Fd>)
    requires AllConnsOk(s)
    ensures AllConnsOk(s.(k := Harvest(s.k, events, dropped)))
  {
    var k := Harvest(s.k, events, dropped);
    forall id | id in s.conns ensures ConnOk(k, s.reg, id, s.conns[id]) {
      assert ConnOk(s.k, s.reg, id, s.conns[id]);
    }
  }

  lemma PollEvent(s: State, s': State, e: PollEvent)
    requires ListenerOk(s) && Reports(s.k, e)
    requires s'.k.watches.Keys == s.k.watches.Keys && s'.k.listener == s.k.listener && s'.k.socks == s.k.socks
    requires s'.k.watches[e.fd] == s.k.watches[e.fd].(ready := false)
    requires s'.reg == s.reg && s'.harvested == s.reg
    ensures EventOk(s', Queued(PriorityOf(s.reg, e.fd), e))
  {
  }

  lemma PollQueue(s': State, reg: Registry<Callback>, events: seq<PollEvent>)
    requires forall i, j :: 0 <= i < j < |events| ==> events[i].fd != events[j].fd
    requires s'.queue == multiset(Ranked(reg, events)) && s'.running.Nobody?
    requires forall i :: 0 <= i < |events| ==> EventOk(s', Ranked(reg, events)[i])
    ensures QueueOk(s')
  {
    RankedOnce(reg, events);
    forall x | x in s'.queue ensures EventOk(s', x) {
      var i := RankedIndex(reg, events, x);
    }
  }

  lemma PollBatch(s: State, s': State)
    requires WatchesOk(s) && AllConnsOk(s)
    requires forall i :: 0 <= i < |s'.batch| ==> Reports(s.k, s'.batch[i])
    requires s'.k.socks == s.k.socks && s'.k.listener == s.k.listener
    ensures BatchOk(s')
  {
    forall i | 0 <= i < |s'.batch| ensures Open(s'.k, s'.batch[i].fd) {
      assert Reports(s.k, s'.batch[i]);
      WatchedOpen(s, s'.batch[i].fd);
    }
  }

  /** What a connection needs is reported, or it stays on the ready list. */
  lemma PollAwake(cfg: Config, s: State, a: Action, id: ConnId)
    requires AllAwake(s) && Enabled(cfg, s, a) && a.Poll? && id in s.conns
    requires ConnOk(s.k, s.reg, id, s.conns[id])
    ensures AwakeOk(Next(cfg, s, a), id)
  {
    var s', fd := Next(cfg, s, a), s.conns[id].fd;
    assert AwakeOk(s, id);
    assert !Told(s, fd, true) && !Told(s, fd, false);
    if InBatch(a.events, fd) {
      var i :| 0 <= i < |a.events| && a.events[i].fd == fd;
      assert Reports(s.k, a.events[i]);
      assert Pending(s', Ranked(s.reg, a.events)[i]);
    }
  }

  lemma PollQueueOk(cfg: Config, s: State, a: Action)
    requires ListenerOk(s) && Enabled(cfg, s, a) && a.Poll?
    ensures QueueOk(Next(cfg, s, a))
  {
    var s' := Next(cfg, s, a);
    forall i | 0 <= i < |a.events| ensures EventOk(s', Ranked(s.reg, a.events)[i]) {
      assert Reports(s.k, a.events[i]) && InBatch(a.events, a.events[i].fd);
      PollEvent(s, s', a.events[i]);
    }
    PollQueue(s', s.reg, a.events);
  }

  lemma PollInv(cfg: Config, s: State, a: Action)
    requires Inv(cfg, s) && Enabled(cfg, s, a) && a.Poll?
    ensures Inv(cfg, Next(cfg, s, a))
  {
    var s' := Next(cfg, s, a);
    PollConns(s, a.events, a.dropped);
    PollQueueOk(cfg, s, a);
    PollBatch(s, s');
    WatchesFrame(s, s');
    forall id | id in s'.conns ensures AwakeOk(s', id) {
      PollAwake(cfg, s, a, id);
    }
  }

  // ---- Dispatch ----

  /** What the lookup finds: the listener's callback, or that of the connection which owns the event. */
  lemma Lookup(s: State, x: Queued)
    requires ListenerOk(s) && AllConnsOk(s) && WatchesOk(s) && QueueOk(s) && Pending(s, x)
    ensures var fd := x.event.fd;
            && fd in s.k.watches && fd in s.reg.callbacks
            && (fd == s.k.listener ==> s.reg.callbacks[fd] == AcceptCallback && x.priority == LISTEN_SOCK)
            && (fd != s.k.listener ==>
                  && s.reg.callbacks[fd].HandleEvent? && OwnedBy(s, fd, s.reg.callbacks[fd].id)
                  && x.priority != LISTEN_SOCK)
  {
    var fd := x.event.fd;
    assert EventOk(s, x) && Watched(s, fd);
    if fd != s.k.listener {
      var id :| OwnedBy(s, fd, id);
      assert ConnOk(s.k, s.reg, id, s.conns[id]);
    }
  }

  /** The handler starts in good order: its event tells it what it needs to know. */
  lemma DispatchHandler(s: State, x: Queued, id: ConnId, phase: Phase)
    requires QueueOk(s) && AllConnsOk(s) && AllAwake(s) && s.running.Nobody? && x in s.queue
    requires OwnedBy(s, x.event.fd, id) && s.reg.callbacks[x.event.fd] == HandleEvent(id, phase)
    ensures HandlerOk(Focus(s.(running := InHandler(x, id, phase, Start))))
  {
    assert Pending(s, x) && EventOk(s, x);
    assert ConnOk(s.k, s.reg, id, s.conns[id]) && AwakeOk(s, id);
  }

  lemma DispatchQueue(s: State, x: Queued, running: Running, calls: seq<Call<Callback>>)
    requires QueueOk(s) && s.running.Nobody? && x in s.queue && !running.Nobody? && running.x == x
    ensures QueueOk(s.(running := running, calls := calls))
  {
    var s' := s.(running := running, calls := calls);
    forall y | Pending(s', y) ensures EventOk(s', y) {
      assert Pending(s, y);
      EventFrame(s, s', y);
    }
  }

  lemma DispatchAwake(s: State, x: Queued, running: Running, calls: seq<Call<Callback>>)
    requires QueueOk(s) && AllConnsOk(s) && AllAwake(s) && s.running.Nobody? && x in s.queue
    requires !running.Nobody? && running.x == x
    requires running.InHandler? ==> OwnedBy(s, x.event.fd, running.id)
    requires running.InAccept? ==> x.event.fd == s.k.listener
    requires running.InHandler? || running.InAccept?
    requires IdsOk(s)
    ensures AllAwake(s.(running := running, calls := calls))
  {
    var s' := s.(running := running, calls := calls);
    forall id | id in s'.conns && !Runs(s', id) ensures AwakeOk(s', id) {
      assert ConnOk(s.k, s.reg, id, s.conns[id]);
      AwakeFrame(s, s', id);
    }
  }

  lemma DispatchRunning(cfg: Config, s: State, a: Action)
    requires ListenerOk(s) && IdsOk(s) && AllConnsOk(s) && WatchesOk(s) && QueueOk(s) && AllAwake(s)
    requires Enabled(cfg, s, a) && a.Dispatch?
    ensures RunningOk(Next(cfg, s, a))
  {
    var x := a.x;
    assert Pending(s, x);
    Lookup(s, x);
    if x.event.fd != s.k.listener {
      var cb := s.reg.callbacks[x.event.fd];
      DispatchHandler(s, x, cb.id, cb.phase);
    }
  }

  lemma DispatchOrder(cfg: Config, s: State, a: Action)
    requires ListenerOk(s) && AllConnsOk(s) && WatchesOk(s) && QueueOk(s) && OrderOk(cfg, s)
    requires Enabled(cfg, s, a) && a.Dispatch?
    ensures OrderOk(cfg, Next(cfg, s, a))
  {
    assert Pending(s, a.x);
    Lookup(s, a.x);
  }

  lemma DispatchInv(cfg: Config, s: State, a: Action)
    requires Inv(cfg, s) && Enabled(cfg, s, a) && a.Dispatch?
    ensures Inv(cfg, Next(cfg, s, a))
  {
    DispatchRunning(cfg, s, a);
    DispatchOrder(cfg, s, a);
    DispatchRest(cfg, s, a);
    DispatchSame(cfg, s, a);
  }

  /** What does not depend on who is running. */
  lemma DispatchSame(cfg: Config, s: State, a: Action)
    requires Enabled(cfg, s, a) && a.Dispatch?
    ensures ListenerOk(s) ==> ListenerOk(Next(cfg, s, a))
    ensures IdsOk(s) ==> IdsOk(Next(cfg, s, a))
    ensures AllConnsOk(s) ==> AllConnsOk(Next(cfg, s, a))
    ensures OutcomesOk(s) ==> OutcomesOk(Next(cfg, s, a))
    ensures BatchOk(s) ==> BatchOk(Next(cfg, s, a))
  {
  }

  lemma DispatchRest(cfg: Config, s: State, a: Action)
    requires ListenerOk(s) && IdsOk(s) && AllConnsOk(s) && WatchesOk(s) && QueueOk(s) && AllAwake(s)
    requires Enabled(cfg, s, a) && a.Dispatch?
    ensures QueueOk(Next(cfg, s, a)) && AllAwake(Next(cfg, s, a)) && WatchesOk(Next(cfg, s, a))
  {
    var s', x := Next(cfg, s, a), a.x;
    assert Pending(s, x);
    Lookup(s, x);
    assert s' == s.(running := s'.running, calls := s'.calls);
    DispatchQueue(s, x, s'.running, s'.calls);
    DispatchAwake(s, x, s'.running, s'.calls);
    WatchesFrame(s, s');
  }

  // ---- Pop ----

  /** `s'` is `s` with the running event popped. */
  predicate PoppedFrom(s: State, s': State)
  {
    && !s.running.Nobody? && s'.running.Nobody? && s'.queue == s.queue - multiset{s.running.x}
    && s'.k == s.k && s'.reg == s.reg && s'.harvested == s.harvested
  }

  lemma PopQueue(s: State, s': State)
    requires QueueOk(s) && PoppedFrom(s, s')
    ensures QueueOk(s')
    ensures forall y :: Pending(s', y) <==> Pending(s, y)
  {
    forall y ensures Pending(s', y) <==> Pending(s, y) {
      assert y in s'.queue <==> y in s.queue && y != s.running.x;
    }
    forall y | Pending(s', y) ensures EventOk(s', y) {
      EventFrame(s, s', y);
    }
  }

  lemma PopAwake(s: State, s': State, id: ConnId)
    requires AllAwake(s) && RunningOk(s) && id in s.conns
    requires s'.conns == s.conns && s'.k == s.k && s'.reg == s.reg
    requires s.running.InHandler? ==> s.running.pc.Done?
    requires forall y :: Pending(s', y) <==> Pending(s, y)
    ensures AwakeOk(s', id)
  {
    if Runs(s, id) {
      assert WakeOk(Focus(s));
    } else {
      AwakeFrame(s, s', id);
    }
  }

  lemma PopInv(cfg: Config, s: State, a: Action)
    requires Inv(cfg, s) && Enabled(cfg, s, a) && a.Pop?
    ensures Inv(cfg, Next(cfg, s, a))
  {
    var s' := Next(cfg, s, a);
    PopQueue(s, s');
    WatchesFrame(s, s');
    forall id | id in s'.conns ensures AwakeOk(s', id) {
      PopAwake(s, s', id);
    }
    assert forall y :: y in s'.queue ==> y in s.queue;
  }

  // ---- Accept ----

  lemma AcceptFresh(s: State, fd: Fd)
    requires WatchesOk(s) && AllConnsOk(s) && !Open(s.k, fd)
    ensures fd !in s.k.watches
    ensures forall id :: id in s.conns ==> s.conns[id].fd != fd
  {
    forall g | g in s.k.watches ensures g != fd { WatchedOpen(s, g); }
    forall id | id in s.conns ensures s.conns[id].fd != fd {
      assert ConnOk(s.k, s.reg, id, s.conns[id]);
    }
  }

  /** A step of the listener's callback: `s'` is like `s` for all descriptors but `fd`, not watched yet. */
  ghost predicate OnlyAt(s: State, s': State, fd: Fd)
  {
    && fd !in s.k.watches && fd != s.k.listener && s'.k.listener == s.k.listener
    && (forall g :: g != fd ==> EvolvesAt(s.k, s'.k, g))
    && (forall g :: g != fd ==> (g in s.reg.callbacks <==> g in s'.reg.callbacks))
    && (forall g :: g != fd ==> (g in s.reg.priorities <==> g in s'.reg.priorities))
    && (forall g :: g != fd && g in s.reg.callbacks ==> s'.reg.callbacks[g] == s.reg.callbacks[g])
    && (forall g :: g != fd && g in s.reg.priorities ==> s'.reg.priorities[g] == s.reg.priorities[g])
    && (forall id :: id in s.conns ==> id in s'.conns && s'.conns[id] == s.conns[id])
    && s'.queue == s.queue && s'.harvested == s.harvested && s'.batch == s.batch && s'.closed == s.closed
    && !s.running.Nobody? && !s'.running.Nobody? && s'.running.x == s.running.x
    && !s.running.InHandler? && !s'.running.InHandler?
  }

  lemma OnlyAtConn(s: State, s': State, fd: Fd, id: ConnId)
    requires OnlyAt(s, s', fd) && id in s.conns && s.conns[id].fd != fd && ConnOk(s.k, s.reg, id, s.conns[id])
    ensures ConnOk(s'.k, s'.reg, id, s'.conns[id])
  {
    var c := s.conns[id];
    assert EvolvesAt(s.k, s'.k, c.fd);
    assert RegisteredIn(s.k, s.reg, id, c.fd, Reading) ==> RegisteredIn(s'.k, s'.reg, id, c.fd, Reading);
    assert RegisteredIn(s.k, s.reg, id, c.fd, Writing) ==> RegisteredIn(s'.k, s'.reg, id, c.fd, Writing);
  }

  lemma OnlyAtAwake(s: State, s': State, fd: Fd, id: ConnId)
    requires OnlyAt(s, s', fd) && AllAwake(s) && id in s.conns && s.conns[id].fd != fd
    ensures AwakeOk(s', id)
  {
    assert EvolvesAt(s.k, s'.k, s.conns[id].fd);
    AwakeFrame(s, s', id);
  }

  lemma OnlyAtQueue(s: State, s': State, fd: Fd)
    requires OnlyAt(s, s', fd) && QueueOk(s)
    ensures QueueOk(s')
  {
    forall x | Pending(s', x) ensures EventOk(s', x) {
      assert Pending(s, x) && EventOk(s, x);
      assert x.event.fd != fd && EvolvesAt(s.k, s'.k, x.event.fd);
      EventFrame(s, s', x);
    }
  }

  lemma OnlyAtWatches(s: State, s': State, fd: Fd)
    requires OnlyAt(s, s', fd) && WatchesOk(s) && (fd in s'.k.watches ==> Watched(s', fd))
    ensures WatchesOk(s')
  {
    forall g | g in s'.k.watches && g != fd ensures Watched(s', g) {
      assert EvolvesAt(s.k, s'.k, g) && Watched(s, g);
      if g != s.k.listener {
        var id :| OwnedBy(s, g, id);
        assert OwnedBy(s', g, id);
      }
    }
  }

  lemma OnlyAtBatch(s: State, s': State, fd: Fd)
    requires OnlyAt(s, s', fd) && BatchOk(s) && Open(s'.k, fd)
    ensures BatchOk(s')
  {
    forall i | 0 <= i < |s'.batch| ensures Open(s'.k, s'.batch[i].fd) || s'.batch[i].fd in s'.closed {
      assert s'.batch[i].fd != fd ==> EvolvesAt(s.k, s'.k, s'.batch[i].fd);
    }
  }

  lemma OnlyAtListener(s: State, s': State, fd: Fd)
    requires OnlyAt(s, s', fd) && ListenerOk(s)
    requires fd in s'.k.watches ==> fd in s'.reg.callbacks
    requires fd in s'.reg.callbacks <==> fd in s'.reg.priorities
    ensures ListenerOk(s')
  {
    assert EvolvesAt(s.k, s'.k, s.k.listener);
    forall g ensures g in s'.reg.callbacks <==> g in s'.reg.priorities { }
    forall g | g in s'.k.watches ensures g in s'.reg.callbacks {
      if g != fd { assert EvolvesAt(s.k, s'.k, g) && g in s.k.watches.Keys; }
    }
  }

  /** A connection just made is in order, and not registered. */
  lemma NewConnOk(k: Kernel, reg: Registry<Callback>, id: ConnId, fd: Fd)
    requires fd in k.socks && fd != k.listener && ValidSock(k.socks[fd])
    requires k.socks[fd].read == 0 && k.socks[fd].wire == "" && fd !in k.watches
    ensures ConnOk(k, reg, id, NewConn(fd))
  {
  }

  lemma AcceptOnlyAt(cfg: Config, s: State, a: Action)
    requires Enabled(cfg, s, a) && (a.AcceptOk? || a.AcceptLeak?)
    requires a.fd !in s.k.watches && forall id :: id in s.conns ==> id < s.next
    ensures OnlyAt(s, Next(cfg, s, a), a.fd)
  {
  }

  lemma AcceptConns(cfg: Config, s: State, a: Action)
    requires Enabled(cfg, s, a) && (a.AcceptOk? || a.AcceptLeak?)
    requires AllConnsOk(s) && AllAwake(s) && a.fd !in s.k.watches
    requires forall id :: id in s.conns ==> s.conns[id].fd != a.fd
    requires OnlyAt(s, Next(cfg, s, a), a.fd)
    ensures AllConnsOk(Next(cfg, s, a)) && AllAwake(Next(cfg, s, a))
  {
    var s', fd := Next(cfg, s, a), a.fd;
    forall id | id in s'.conns ensures ConnOk(s'.k, s'.reg, id, s'.conns[id]) && AwakeOk(s', id) {
      if id in s.conns {
        OnlyAtConn(s, s', fd, id);
        OnlyAtAwake(s, s', fd, id);
      } else {
        NewConnOk(s'.k, s'.reg, id, fd);
      }
    }
  }

  lemma AcceptIds(cfg: Config, s: State, a: Action)
    requires Enabled(cfg, s, a) && (a.AcceptOk? || a.AcceptLeak?)
    requires IdsOk(s) && forall id :: id in s.conns ==> s.conns[id].fd != a.fd
    ensures IdsOk(Next(cfg, s, a))
  {
  }

  lemma AcceptInv(cfg: Config, s: State, a: Action)
    requires Inv(cfg, s) && Enabled(cfg, s, a) && (a.AcceptOk? || a.AcceptLeak?)
    ensures Inv(cfg, Next(cfg, s, a))
  {
    var s', fd := Next(cfg, s, a), a.fd;
    AcceptFresh(s, fd);
    AcceptOnlyAt(cfg, s, a);
    OnlyAtQueue(s, s', fd);
    OnlyAtBatch(s, s', fd);
    OnlyAtListener(s, s', fd);
    OnlyAtWatches(s, s', fd);
    AcceptConns(cfg, s, a);
    AcceptIds(cfg, s, a);
  }

  // ---- addTrack for the new connection ----

  lemma TrackOnlyAt(cfg: Config, s: State, a: Action)
    requires Enabled(cfg, s, a) && a.TrackNew? && s.conns[s.running.id].fd !in s.k.watches
    requires s.conns[s.running.id].fd != s.k.listener
    ensures OnlyAt(s, Next(cfg, s, a), s.conns[s.running.id].fd)
  {
  }

  lemma TrackConns(cfg: Config, s: State, a: Action)
    requires Enabled(cfg, s, a) && a.TrackNew? && AllConnsOk(s) && AllAwake(s) && IdsOk(s)
    requires OnlyAt(s, Next(cfg, s, a), s.conns[s.running.id].fd)
    ensures AllConnsOk(Next(cfg, s, a)) && AllAwake(Next(cfg, s, a))
  {
    var s', fd := Next(cfg, s, a), s.conns[s.running.id].fd;
    forall id | id in s'.conns ensures ConnOk(s'.k, s'.reg, id, s'.conns[id]) && AwakeOk(s', id) {
      assert ConnOk(s.k, s.reg, id, s.conns[id]);
      if s.conns[id].fd != fd {
        OnlyAtConn(s, s', fd, id);
        OnlyAtAwake(s, s', fd, id);
      } else if a.added {
        assert RegisteredIn(s'.k, s'.reg, id, fd, Reading);
      }
    }
  }

  lemma TrackNewInv(cfg: Config, s: State, a: Action)
    requires Inv(cfg, s) && Enabled(cfg, s, a) && a.TrackNew?
    ensures Inv(cfg, Next(cfg, s, a))
  {
    var s', fd := Next(cfg, s, a), s.conns[s.running.id].fd;
    assert ConnOk(s.k, s.reg, s.running.id, s.conns[s.running.id]);
    TrackOnlyAt(cfg, s, a);
    OnlyAtQueue(s, s', fd);
    OnlyAtBatch(s, s', fd);
    OnlyAtListener(s, s', fd);
    if a.added {
      assert OwnedBy(s', fd, s.running.id);
    }
    OnlyAtWatches(s, s', fd);
    TrackConns(cfg, s, a);
  }

  lemma ReturnQueue(s: State)
    requires QueueOk(s) && !s.running.Nobody?
    ensures QueueOk(s.(running := Returned(s.running.x)))
  {
    var s' := s.(running := Returned(s.running.x));
    forall x | Pending(s', x) ensures EventOk(s', x) {
      assert Pending(s, x);
      EventFrame(s, s', x);
    }
  }

  /** The listener's callback returns with nothing done. */
  lemma ReturnInv(cfg: Config, s: State)
    requires Inv(cfg, s) && s.running.InAccept?
    ensures Inv(cfg, s.(running := Returned(s.running.x)))
  {
    var s' := s.(running := Returned(s.running.x));
    WatchesFrame(s, s');
    ReturnQueue(s);
    forall id | id in s'.conns ensures AwakeOk(s', id) {
      AwakeFrame(s, s', id);
    }
  }

  lemma AcceptNoneInv(cfg: Config, s: State, a: Action)
    requires Inv(cfg, s) && Enabled(cfg, s, a) && (a.AcceptFail? || a.AcceptNothing?)
    ensures Inv(cfg, Next(cfg, s, a))
  {
    if a.AcceptFail? {
      NotedInv(cfg, s, AcceptedNone);
      ReturnInv(cfg, s.(k := Noted(s.k, AcceptedNone)));
    } else {
      ReturnInv(cfg, s);
    }
  }

  // ---- One step of handleEvent ----

  /** `h'` is like `h` but for the handler's own descriptor and connection. */
  ghost predicate OwnOnly(h: Handler, h': Handler)
  {
    var fd := h.conn.fd;
    && h'.id == h.id && h'.phase == h.phase && h'.event == h.event && h'.conn.fd == fd
    && h'.k.listener == h.k.listener
    && h'.k.socks - {fd} == h.k.socks - {fd} && h'.k.watches - {fd} == h.k.watches - {fd}
    && h'.reg.callbacks - {fd} == h.reg.callbacks - {fd}
    && h'.reg.priorities - {fd} == h.reg.priorities - {fd}
    && (h'.outcome.None? ==> fd in h'.k.socks)
    && (h'.outcome.Some? ==> fd !in h'.k.socks && fd !in h'.k.watches)
    && (fd in h'.k.watches ==> fd in h.k.watches)
    && h'.reg.callbacks.Keys == h.reg.callbacks.Keys
    && h'.reg.priorities.Keys == h.reg.priorities.Keys
  }

  lemma DeleteOwnOnly(h: Handler, h0: Handler, cause: Cause, pc: Pc)
    requires h0 == h.(conn := h0.conn, k := h.k.(answers := h0.k.answers)) && h0.conn.fd == h.conn.fd
    requires h.outcome.None? && h.conn.fd in h.k.socks
    ensures OwnOnly(h, Delete(h0, cause).(pc := pc))
  {
    var k' := Close(h0.k, h.conn.fd);
    assert k'.socks - {h.conn.fd} == h.k.socks - {h.conn.fd};
    assert k'.watches - {h.conn.fd} == h.k.watches - {h.conn.fd};
  }

  lemma WriteOwnOnly(h: Handler, h0: Handler, w: WriteCall)
    requires OwnOnly(h, h0) && h0.outcome.None? && CanWrite(h0, w)
    requires h.conn.fd in h.reg.callbacks.Keys && h.conn.fd in h.reg.priorities.Keys
    ensures OwnOnly(h, Write(h0, w))
  {
    var h', fd := Write(h0, w), h.conn.fd;
    if w.modified {
      assert h'.k.watches - {fd} == h0.k.watches - {fd};
      assert h'.reg.callbacks - {fd} == h0.reg.callbacks - {fd};
      assert h'.reg.priorities - {fd} == h0.reg.priorities - {fd};
      assert fd in h0.reg.callbacks.Keys && fd in h0.reg.priorities.Keys;
      assert h'.reg.callbacks.Keys == h0.reg.callbacks.Keys + {fd};
      assert h'.reg.priorities.Keys == h0.reg.priorities.Keys + {fd};
    }
  }

  lemma HandleOwnOnly(h: Handler, a: HandlerStep)
    requires HandlerOk(h) && StepEnabled(h, a) && !a.Env? && a != ParseError
    ensures OwnOnly(h, StepNext(h, a))
  {
    var fd := h.conn.fd;
    assert RegisteredIn(h.k, h.reg, h.id, fd, Reading) || RegisteredIn(h.k, h.reg, h.id, fd, Writing);
    match a {
      case ParserCallback(w) =>
        if h.pc.todo[0].OnMessageComplete? {
          WriteOwnOnly(h, Heard(h), w);
        }
      case RecvData(n, _) =>
        assert StepNext(h, a).k.socks - {fd} == h.k.socks - {fd};
      case SendData(n, w) =>
        SendOwnOnly(h, a);
      case Branch => DeleteOwnOnly(h, h.(conn := h.conn.(stalled := false)), ErrorEvent, Done);
      case RecvEnd => DeleteOwnOnly(h, Noting(h, GotEnd(fd)), EndOfStream, Done);
      case SendFail => DeleteOwnOnly(h, Noting(h, PutError(fd)), SendFailed, Done);
      case _ =>
    }
  }

  lemma SendOwnOnly(h: Handler, a: HandlerStep)
    requires HandlerOk(h) && StepEnabled(h, a) && a.SendData?
    ensures OwnOnly(h, StepNext(h, a))
  {
    var h0, fd := AfterSend(h, a.n), h.conn.fd;
    assert h0.k.socks - {fd} == h.k.socks - {fd};
    if Completes(h, a.n) {
      assert h.phase.Writing?;
      var k' := Close(h0.k, fd);
      assert k'.socks - {fd} == h.k.socks - {fd};
      assert k'.watches - {fd} == h.k.watches - {fd};
    }
  }

  /** Read a map away from `fd`. */
  lemma ElsewhereAt<V>(m: map<Fd, V>, m': map<Fd, V>, fd: Fd, g: Fd)
    requires m - {fd} == m' - {fd} && g != fd
    ensures g in m <==> g in m'
    ensures g in m ==> m[g] == m'[g]
  {
    assert g in m <==> g in m - {fd};
    assert g in m' <==> g in m' - {fd};
    if g in m { assert (m - {fd})[g] == m[g] && (m' - {fd})[g] == m'[g]; }
  }

  lemma OwnOnlyAt(h: Handler, h': Handler, g: Fd)
    requires OwnOnly(h, h') && g != h.conn.fd
    ensures (g in h.k.socks <==> g in h'.k.socks) && (g in h.k.socks ==> h.k.socks[g] == h'.k.socks[g])
    ensures (g in h.k.watches <==> g in h'.k.watches) && (g in h.k.watches ==> h.k.watches[g] == h'.k.watches[g])
    ensures (g in h.reg.callbacks <==> g in h'.reg.callbacks)
    ensures g in h.reg.callbacks ==> h.reg.callbacks[g] == h'.reg.callbacks[g]
    ensures PriorityOf(h.reg, g) == PriorityOf(h'.reg, g)
    ensures (g in h.reg.priorities <==> g in h'.reg.priorities)
    ensures EvolvesAt(h.k, h'.k, g)
  {
    ElsewhereAt(h.k.socks, h'.k.socks, h.conn.fd, g);
    ElsewhereAt(h.k.watches, h'.k.watches, h.conn.fd, g);
    ElsewhereAt(h.reg.callbacks, h'.reg.callbacks, h.conn.fd, g);
    ElsewhereAt(h.reg.priorities, h'.reg.priorities, h.conn.fd, g);
  }

  ghost predicate CanEmbed(s: State, h: Handler)
  {
    && s.running.InHandler? && s.running.id in s.conns && s.conns[s.running.id].fd == s.running.x.event.fd
    && OwnOnly(Focus(s), h) && HandlerOk(h) && HandlerOk(Focus(s))
  }

  lemma EmbedListener(s: State, h: Handler)
    requires CanEmbed(s, h) && ListenerOk(s)
    ensures ListenerOk(Embed(s, h))
  {
    var s', fd := Embed(s, h), s.running.x.event.fd;
    OwnOnlyAt(Focus(s), h, s.k.listener);
    forall g | g in s'.k.watches ensures g in s'.reg.callbacks {
      if g != fd { OwnOnlyAt(Focus(s), h, g); assert g in s.k.watches.Keys; }
      else { assert g in s.k.watches.Keys; }
    }
  }

  /** ConnOk looks at the connection's own descriptor only. */
  lemma ConnFrame(k: Kernel, reg: Registry<Callback>, id: ConnId, c: Conn, k': Kernel, reg': Registry<Callback>)
    requires ConnOk(k, reg, id, c) && k'.listener == k.listener
    requires c.fd in k'.socks && k'.socks[c.fd] == k.socks[c.fd]
    requires c.fd in k.watches <==> c.fd in k'.watches
    requires c.fd in k.watches ==> k.watches[c.fd] == k'.watches[c.fd]
    requires c.fd in reg.callbacks ==> c.fd in reg'.callbacks && reg.callbacks[c.fd] == reg'.callbacks[c.fd]
    requires c.fd in reg.priorities ==> c.fd in reg'.priorities && reg.priorities[c.fd] == reg'.priorities[c.fd]
    ensures ConnOk(k', reg', id, c)
  {
    assert RegisteredIn(k, reg, id, c.fd, Reading) ==> RegisteredIn(k', reg', id, c.fd, Reading);
    assert RegisteredIn(k, reg, id, c.fd, Writing) ==> RegisteredIn(k', reg', id, c.fd, Writing);
  }

  lemma EmbedConns(s: State, h: Handler)
    requires CanEmbed(s, h) && AllConnsOk(s) && IdsOk(s)
    ensures AllConnsOk(Embed(s, h))
  {
    var s', fd := Embed(s, h), s.running.x.event.fd;
    forall id | id in s'.conns ensures ConnOk(s'.k, s'.reg, id, s'.conns[id]) {
      if id != s.running.id {
        var c := s.conns[id];
        assert ConnOk(s.k, s.reg, id, c);
        OwnOnlyAt(Focus(s), h, c.fd);
        ElsewhereAt(s.reg.priorities, h.reg.priorities, fd, c.fd);
        ConnFrame(s.k, s.reg, id, c, h.k, h.reg);
      }
    }
  }

  lemma EmbedIds(s: State, h: Handler)
    requires CanEmbed(s, h) && IdsOk(s)
    ensures IdsOk(Embed(s, h))
  {
  }

  lemma EmbedWatches(s: State, h: Handler)
    requires CanEmbed(s, h) && WatchesOk(s)
    ensures WatchesOk(Embed(s, h))
  {
    var s', fd := Embed(s, h), s.running.x.event.fd;
    forall g | g in s'.k.watches ensures Watched(s', g) {
      if g == fd {
        assert h.outcome.None?;
        assert OwnedBy(s', g, s.running.id);
      } else {
        OwnOnlyAt(Focus(s), h, g);
        assert Watched(s, g);
        if g != s.k.listener {
          var id :| OwnedBy(s, g, id);
          assert OwnedBy(s', g, id);
        }
      }
    }
  }

  lemma EmbedQueue(s: State, h: Handler)
    requires CanEmbed(s, h) && QueueOk(s)
    ensures QueueOk(Embed(s, h))
  {
    var s' := Embed(s, h);
    forall x | Pending(s', x) ensures EventOk(s', x) {
      assert Pending(s, x) && EventOk(s, x);
      assert x.event.fd != s.running.x.event.fd;
      OwnOnlyAt(Focus(s), h, x.event.fd);
      EventFrame(s, s', x);
    }
  }

  lemma EmbedAwake(s: State, h: Handler)
    requires CanEmbed(s, h) && AllAwake(s) && IdsOk(s)
    ensures AllAwake(Embed(s, h))
  {
    var s' := Embed(s, h);
    forall id | id in s'.conns && !Runs(s', id) ensures AwakeOk(s', id) {
      assert s.conns[id].fd != s.running.x.event.fd;
      OwnOnlyAt(Focus(s), h, s.conns[id].fd);
      AwakeFrame(s, s', id);
    }
  }

  lemma EmbedBatch(s: State, h: Handler)
    requires CanEmbed(s, h) && BatchOk(s)
    ensures BatchOk(Embed(s, h))
  {
    var s' := Embed(s, h);
    forall i | 0 <= i < |s'.batch| ensures Open(s'.k, s'.batch[i].fd) || s'.batch[i].fd in s'.closed {
      if s.batch[i].fd != s.running.x.event.fd {
        OwnOnlyAt(Focus(s), h, s.batch[i].fd);
      }
    }
  }

  lemma EmbedRunning(s: State, h: Handler)
    requires CanEmbed(s, h) && RunningOk(s) && OutcomesOk(s)
    ensures RunningOk(Embed(s, h)) && OutcomesOk(Embed(s, h))
  {
    var s' := Embed(s, h);
    if h.outcome.None? {
      assert Focus(s') == h;
    }
  }

  lemma HandleInv(cfg: Config, s: State, a: Action)
    requires Inv(cfg, s) && Enabled(cfg, s, a) && a.Handle? && a.step != ParseError
    ensures Inv(cfg, Next(cfg, s, a))
  {
    var h := StepNext(Focus(s), a.step);
    HandleOwnOnly(Focus(s), a.step);
    HandlerStepKeeps(Focus(s), a.step);
    EmbedListener(s, h);
    EmbedConns(s, h);
    EmbedIds(s, h);
    EmbedWatches(s, h);
    EmbedQueue(s, h);
    EmbedAwake(s, h);
    EmbedBatch(s, h);
    EmbedRunning(s, h);
  }

  // ---- Whole runs ----

  lemma NextInv(cfg: Config, s: State, a: Action)
    requires Inv(cfg, s) && Enabled(cfg, s, a) && a != Handle(ParseError)
    ensures Inv(cfg, Next(cfg, s, a))
  {
    match a {
      case Peer(_) => PeerInv(cfg, s, a);
      case Poll(_, _) => PollInv(cfg, s, a);
      case PollFail => NotedInv(cfg, s, WaitFailed);
      case Dispatch(_) => DispatchInv(cfg, s, a);
      case Handle(_) => HandleInv(cfg, s, a);
      case AcceptOk(_, _) | AcceptLeak(_, _) => AcceptInv(cfg, s, a);
      case TrackNew(_) => TrackNewInv(cfg, s, a);
      case AcceptFail | AcceptNothing => AcceptNoneInv(cfg, s, a);
      case Pop => PopInv(cfg, s, a);
    }
  }

  lemma {:induction false} RunInv(cfg: Config, s: State, run: seq<Action>)
    requires Init(s) && LegalRun(cfg, s, run) && ParsesAll(run)
    ensures Inv(cfg, After(cfg, s, run))
    decreases |run|
  {
    if run == [] {
      InitInv(cfg, s);
    } else {
      var init, last := run[..|run| - 1], run[|run| - 1];
      assert last in run;
      RunInv(cfg, s, init);
      NextInv(cfg, After(cfg, s, init), last);
    }
  }
}
