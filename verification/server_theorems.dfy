// What the server promises over whole runs: any number of peers, connections, batches and
// descriptor reuses, any order in which the queue lets events out (unless `ordered` is asked
// for), any behaviour of the peers, any callbacks made by the parser.

module ServerTheorems {
  import opened DataTypes
  import opened KernelModel
  import opened ReactorSpec
  import opened RequestAssembly
  import opened ResponseText
  import opened ConnectionSpec
  import opened ServerMachine
  import opened ServerInvariant
  import opened ServerProof

  // ---- Prefixes of runs ----

  lemma {:induction false} PrefixLegal(cfg: Config, s: State, run: seq<Action>, n: nat)
    requires LegalRun(cfg, s, run) && n <= |run|
    ensures LegalRun(cfg, s, run[..n])
    decreases |run|
  {
    if n == |run| {
      assert run[..n] == run;
    } else {
      var init := run[..|run| - 1];
      PrefixLegal(cfg, s, init, n);
      assert init[..n] == run[..n];
    }
  }

  /** The state after the first `n` actions. */
  ghost function At(cfg: Config, s: State, run: seq<Action>, n: nat): State
    requires LegalRun(cfg, s, run) && n <= |run|
  {
    PrefixLegal(cfg, s, run, n);
    After(cfg, s, run[..n])
  }

  lemma AtNext(cfg: Config, s: State, run: seq<Action>, n: nat)
    requires LegalRun(cfg, s, run) && n < |run|
    ensures Enabled(cfg, At(cfg, s, run, n), run[n])
    ensures At(cfg, s, run, n + 1) == Next(cfg, At(cfg, s, run, n), run[n])
  {
    PrefixLegal(cfg, s, run, n + 1);
    var longer := run[..n + 1];
    assert longer[..|longer| - 1] == run[..n] && longer[|longer| - 1] == run[n];
  }

  lemma AtEnd(cfg: Config, s: State, run: seq<Action>)
    requires LegalRun(cfg, s, run)
    ensures At(cfg, s, run, |run|) == After(cfg, s, run)
  {
    assert run[..|run|] == run;
  }

  lemma AtInv(cfg: Config, s: State, run: seq<Action>, n: nat)
    requires Init(s) && LegalRun(cfg, s, run) && ParsesAll(run) && n <= |run|
    ensures Inv(cfg, At(cfg, s, run, n))
  {
    PrefixLegal(cfg, s, run, n);
    RunInv(cfg, s, run[..n]);
  }

  // ---- Dispatch ----

  lemma NextKeepsSnapshot(cfg: Config, s: State, a: Action)
    requires Enabled(cfg, s, a) && !a.Poll?
    ensures Next(cfg, s, a).harvested == s.harvested
    ensures Next(cfg, s, a).queue <= s.queue
  {
  }

  lemma PollTakesSnapshot(cfg: Config, s: State, a: Action)
    requires Enabled(cfg, s, a) && a.Poll?
    ensures Next(cfg, s, a).harvested == s.reg
    ensures Next(cfg, s, a).queue == multiset(Ranked(s.reg, a.events))
  {
  }

  /** Since the harvest at step `n` nothing has been pushed, and the snapshot is that of the harvest. */
  lemma {:induction false} SincePoll(cfg: Config, s: State, run: seq<Action>, n: nat)
    requires LegalRun(cfg, s, run) && n < |run| && run[n].Poll? && LegalRun(cfg, s, run[..n])
    requires forall i :: n < i < |run| ==> !run[i].Poll?
    ensures After(cfg, s, run).harvested == After(cfg, s, run[..n]).reg
    ensures After(cfg, s, run).queue <= multiset(Ranked(After(cfg, s, run[..n]).reg, run[n].events))
    decreases |run|
  {
    var init, last := run[..|run| - 1], run[|run| - 1];
    assert init[..n] == run[..n];
    if n == |run| - 1 {
      PollTakesSnapshot(cfg, After(cfg, s, init), last);
    } else {
      SincePoll(cfg, s, init, n);
      NextKeepsSnapshot(cfg, After(cfg, s, init), last);
    }
  }

  /**
   * No stale dispatch. Let the last harvest be step `n` of the run. Every event of it that is
   * still waiting will run a callback that is registered, the very one that was registered when
   * the event was harvested; and unless it is the listener's, it belongs to a connection that
   * owned the descriptor then, is alive, and owns it still.
   */
  lemma NoStaleDispatch(cfg: Config, s: State, run: seq<Action>, n: nat, x: Queued)
    requires Init(s) && LegalRun(cfg, s, run) && ParsesAll(run)
    requires n < |run| && run[n].Poll? && forall i :: n < i < |run| ==> !run[i].Poll?
    requires Pending(At(cfg, s, run, |run|), x)
    ensures var then_, now, fd := At(cfg, s, run, n), At(cfg, s, run, |run|), x.event.fd;
            && fd in then_.reg.callbacks && fd in now.reg.callbacks
            && now.reg.callbacks[fd] == then_.reg.callbacks[fd]
            && fd in now.k.watches && Open(now.k, fd)
            && if fd == now.k.listener then now.reg.callbacks[fd] == AcceptCallback
               else exists id :: OwnedBy(then_, fd, id) && OwnedBy(now, fd, id)
  {
    var then_, now, fd := At(cfg, s, run, n), At(cfg, s, run, |run|), x.event.fd;
    AtInv(cfg, s, run, n);
    AtInv(cfg, s, run, |run|);
    PrefixLegal(cfg, s, run, n);
    AtEnd(cfg, s, run);
    SincePoll(cfg, s, run, n);
    Lookup(now, x);
    assert EventOk(now, x);
    WatchedOpen(now, fd);
    if fd != now.k.listener {
      HarvestOwner(cfg, s, run, n, x);
      ListenerStays(cfg, s, run, n, |run|);
    }
  }

  lemma HarvestOwner(cfg: Config, s: State, run: seq<Action>, n: nat, x: Queued)
    requires Init(s) && LegalRun(cfg, s, run) && ParsesAll(run) && n < |run| && run[n].Poll?
    requires x in multiset(Ranked(At(cfg, s, run, n).reg, run[n].events))
    ensures Watched(At(cfg, s, run, n), x.event.fd)
  {
    var then_ := At(cfg, s, run, n);
    AtInv(cfg, s, run, n);
    AtNext(cfg, s, run, n);
    var i := RankedIndex(then_.reg, run[n].events, x);
    assert Reports(then_.k, run[n].events[i]);
  }

  /** A step of a handler leaves the listener alone and takes nothing out of the registries. */
  lemma StepKeepsShared(h: Handler, a: HandlerStep)
    requires StepEnabled(h, a)
    ensures StepNext(h, a).k.listener == h.k.listener
    ensures h.reg.callbacks.Keys <= StepNext(h, a).reg.callbacks.Keys
  {
  }

  lemma NextKeepsShared(cfg: Config, s: State, a: Action)
    requires Enabled(cfg, s, a)
    ensures Next(cfg, s, a).k.listener == s.k.listener
    ensures s.reg.callbacks.Keys <= Next(cfg, s, a).reg.callbacks.Keys
  {
    if a.Handle? {
      StepKeepsShared(Focus(s), a.step);
    }
  }

  lemma {:induction false} ListenerStays(cfg: Config, s: State, run: seq<Action>, n: nat, m: nat)
    requires LegalRun(cfg, s, run) && n <= m <= |run|
    ensures At(cfg, s, run, m).k.listener == At(cfg, s, run, n).k.listener
    decreases m
  {
    if n < m {
      ListenerStays(cfg, s, run, n, m - 1);
      AtNext(cfg, s, run, m - 1);
      NextKeepsShared(cfg, At(cfg, s, run, m - 1), run[m - 1]);
    }
  }

  lemma LookupFinds(cfg: Config, s: State, x: Queued)
    requires Inv(cfg, s) && Enabled(cfg, s, Dispatch(x))
    ensures !Next(cfg, s, Dispatch(x)).running.Returned?
  {
    Lookup(s, x);
  }

  /** The lookup in runCallback always finds a callback: "No callback found" is never printed. */
  lemma CallbackFound(cfg: Config, s: State, run: seq<Action>, x: Queued)
    requires Init(s) && LegalRun(cfg, s, run) && ParsesAll(run)
    requires Enabled(cfg, After(cfg, s, run), Dispatch(x))
    ensures !Next(cfg, After(cfg, s, run), Dispatch(x)).running.Returned?
  {
    RunInv(cfg, s, run);
    LookupFinds(cfg, After(cfg, s, run), x);
  }

  /**
   * What is registered: the listener for accepting, with LISTEN_SOCK; and a connection that is
   * watched, edge triggered, either for input, for its reading handler, with NEW_SOCK, or for
   * output, for its writing handler, with HELPER_SOCK.
   */
  lemma RegisteredFor(cfg: Config, s: State, run: seq<Action>, id: ConnId)
    requires Init(s) && LegalRun(cfg, s, run) && ParsesAll(run)
    ensures var s' := After(cfg, s, run);
            var l, callbacks, priorities := s'.k.listener, s'.reg.callbacks, s'.reg.priorities;
            && l in s'.k.watches && s'.k.watches[l].input
            && l in callbacks && callbacks[l] == AcceptCallback && l in priorities && priorities[l] == LISTEN_SOCK
            && (id in s'.conns && s'.conns[id].fd in s'.k.watches ==>
                  var fd, w := s'.conns[id].fd, s'.k.watches[s'.conns[id].fd];
                  && w.edge && w.input != w.output && fd in callbacks && fd in priorities
                  && (w.input ==> callbacks[fd] == HandleEvent(id, Reading) && priorities[fd] == NEW_SOCK)
                  && (w.output ==> callbacks[fd] == HandleEvent(id, Writing) && priorities[fd] == HELPER_SOCK))
  {
    RunInv(cfg, s, run);
    var s' := After(cfg, s, run);
    assert ListenerOk(s');
    if id in s'.conns {
      assert ConnOk(s'.k, s'.reg, id, s'.conns[id]);
    }
  }

  // ---- The listener ----

  /**
   * Answer `i` is that of accept; and if that has made a connection, epoll_ctl was called next to
   * add its descriptor.
   */
  predicate AcceptAt(answers: seq<Answer>, i: nat)
    requires i < |answers|
  {
    || answers[i] == AcceptedNone
    || (answers[i].AcceptedAs? && !answers[i].unblocked)
    || (&& answers[i].AcceptedAs? && i + 1 < |answers| && answers[i + 1].Ctl?
        && answers[i + 1].op == EPOLL_CTL_ADD && answers[i + 1].fd == answers[i].fd)
  }

  /** From position `n` on, accept has been called. */
  ghost predicate AcceptCalled(answers: seq<Answer>, n: nat)
  {
    exists i :: n <= i < |answers| && AcceptAt(answers, i)
  }

  /** The listener's callback runs for `x`; when it began there were `n` answers. */
  ghost predicate Listens(s: State, x: Queued, n: nat)
  {
    n <= |s.k.answers|
    && match s.running
       case InAccept(y) => y == x
       case InTrack(y, id) =>
         && y == x && id in s.conns && n < |s.k.answers|
         && s.k.answers[|s.k.answers| - 1] == AcceptedAs(s.conns[id].fd, true)
       case Returned(y) => y == x && AcceptCalled(s.k.answers, n)
       case _ => false
  }

  lemma CalledOnce(answers: seq<Answer>, n: nat, more: seq<Answer>)
    requires n <= |answers| && (more == [AcceptedNone] || (|more| == 1 && more[0].AcceptedAs? && !more[0].unblocked))
    ensures AcceptCalled(answers + more, n)
  {
    assert AcceptAt(answers + more, |answers|);
  }

  lemma CalledTwice(answers: seq<Answer>, n: nat, a: Answer)
    requires n < |answers| && answers[|answers| - 1].AcceptedAs?
    requires a.Ctl? && a.op == EPOLL_CTL_ADD && a.fd == answers[|answers| - 1].fd
    ensures AcceptCalled(answers + [a], n)
  {
    var i := |answers| - 1;
    assert (answers + [a])[i] == answers[i] && AcceptAt(answers + [a], i);
  }

  lemma ListensNext(cfg: Config, s: State, a: Action, x: Queued, n: nat)
    requires Enabled(cfg, s, a) && !a.Pop? && Listens(s, x, n) && !x.event.err && x.event.input
    ensures Listens(Next(cfg, s, a), x, n)
  {
    match a {
      case Peer(env) => EnvKeepsRest(s.k, env);
      case AcceptFail => CalledOnce(s.k.answers, n, [AcceptedNone]);
      case AcceptLeak(fd, _) => CalledOnce(s.k.answers, n, [AcceptedAs(fd, false)]);
      case TrackNew(_) =>
        var answers := Next(cfg, s, a).k.answers;
        CalledTwice(s.k.answers, n, answers[|s.k.answers|]);
      case _ =>
    }
  }

  lemma ListensFirst(cfg: Config, s: State, x: Queued)
    requires Inv(cfg, s) && Enabled(cfg, s, Dispatch(x)) && x.event.fd == s.k.listener
    ensures Listens(Next(cfg, s, Dispatch(x)), x, |s.k.answers|)
  {
    assert Pending(s, x);
    Lookup(s, x);
  }

  lemma {:induction false} ListensSince(cfg: Config, s: State, run: seq<Action>, n: nat, x: Queued, base: nat)
    requires LegalRun(cfg, s, run) && n <= |run| && LegalRun(cfg, s, run[..n])
    requires Listens(After(cfg, s, run[..n]), x, base) && !x.event.err && x.event.input
    requires forall i :: n <= i < |run| ==> !run[i].Pop?
    ensures Listens(After(cfg, s, run), x, base)
    decreases |run|
  {
    if n == |run| {
      assert run[..n] == run;
    } else {
      var init, last := run[..|run| - 1], run[|run| - 1];
      assert init[..n] == run[..n];
      ListensSince(cfg, s, init, n, x, base);
      ListensNext(cfg, After(cfg, s, init), last, x, base);
    }
  }

  /**
   * No peer is turned away silently: whenever the listener's event is served with something to
   * accept, accept is called before the event is popped, and a connection that it makes is
   * handed to epoll_ctl.
   */
  lemma ListenerAccepts(cfg: Config, s: State, run: seq<Action>, n: nat, m: nat)
    requires Init(s) && LegalRun(cfg, s, run) && ParsesAll(run) && n < m < |run|
    requires run[n].Dispatch? && !run[n].x.event.err && run[n].x.event.input
    requires run[n].x.event.fd == At(cfg, s, run, n).k.listener
    requires run[m].Pop? && forall i :: n < i < m ==> !run[i].Pop?
    ensures AcceptCalled(At(cfg, s, run, m).k.answers, |At(cfg, s, run, n).k.answers|)
  {
    var x, base := run[n].x, |At(cfg, s, run, n).k.answers|;
    AtInv(cfg, s, run, n);
    AtNext(cfg, s, run, n);
    ListensFirst(cfg, At(cfg, s, run, n), x);
    PrefixLegal(cfg, s, run, n + 1);
    PrefixLegal(cfg, s, run, m);
    assert run[..m][..n + 1] == run[..n + 1];
    ListensSince(cfg, s, run[..m], n + 1, x, base);
    AtNext(cfg, s, run, m);
  }

  /**
   * With the queue in priority order, a batch accepts before it closes: no descriptor that has
   * an event in a batch is closed and given to a new connection while the batch is drained.
   */
  lemma NoReuseWithinBatch(cfg: Config, s: State, run: seq<Action>, fd: Fd, sock: Sock)
    requires Init(s) && LegalRun(cfg, s, run) && ParsesAll(run) && cfg.ordered
    requires Enabled(cfg, After(cfg, s, run), AcceptOk(fd, sock))
    ensures After(cfg, s, run).closed == {} && !InBatch(After(cfg, s, run).batch, fd)
  {
    RunInv(cfg, s, run);
    var s' := After(cfg, s, run);
    assert s'.running.x in s'.queue && s'.running.x.priority == LISTEN_SOCK;
    assert BatchOk(s');
  }

  // ---- Lifecycle ----

  lemma InvSafe(cfg: Config, s: State)
    requires Inv(cfg, s)
    ensures !UsesDeleted(s)
  {
  }

  lemma ParseErrorUnsafe(cfg: Config, s: State)
    requires Enabled(cfg, s, Handle(ParseError))
    ensures UsesDeleted(Next(cfg, s, Handle(ParseError)))
  {
  }

  /**
   * A run uses a deleted connection at some point exactly when a request fails to parse: the
   * read loop goes on after error(this).
   */
  lemma SafeExactlyIfParsed(cfg: Config, s: State, run: seq<Action>)
    requires Init(s) && LegalRun(cfg, s, run)
    ensures (exists n :: 0 <= n <= |run| && UsesDeleted(At(cfg, s, run, n))) <==> !ParsesAll(run)
  {
    if ParsesAll(run) {
      forall n | 0 <= n <= |run| ensures !UsesDeleted(At(cfg, s, run, n)) {
        AtInv(cfg, s, run, n);
        InvSafe(cfg, At(cfg, s, run, n));
      }
    } else {
      var n :| 0 <= n < |run| && run[n] == Handle(ParseError);
      AtNext(cfg, s, run, n);
      ParseErrorUnsafe(cfg, At(cfg, s, run, n));
      assert UsesDeleted(At(cfg, s, run, n + 1));
    }
  }

  lemma NextDeletes(cfg: Config, s: State, a: Action, id: ConnId)
    requires Enabled(cfg, s, a) && id in s.conns && id !in Next(cfg, s, a).conns
    ensures Runs(s, id) && a.Handle? && id in Next(cfg, s, a).outcomes
  {
  }

  /** `id` has been deleted, and ended like this. */
  predicate Gone(s: State, id: ConnId, o: Outcome)
  {
    id in s.outcomes && s.outcomes[id] == o && id !in s.conns && id < s.next
  }

  lemma NextKeepsGone(cfg: Config, s: State, a: Action, id: ConnId, o: Outcome)
    requires Enabled(cfg, s, a) && Gone(s, id, o)
    ensures Gone(Next(cfg, s, a), id, o)
  {
  }

  /** Only the handler of a connection deletes it, and it is deleted for the first time then. */
  lemma DeletedByItself(cfg: Config, s: State, run: seq<Action>, a: Action, id: ConnId)
    requires Init(s) && LegalRun(cfg, s, run) && ParsesAll(run) && Enabled(cfg, After(cfg, s, run), a)
    requires id in After(cfg, s, run).conns && id !in Next(cfg, After(cfg, s, run), a).conns
    ensures Runs(After(cfg, s, run), id) && a.Handle?
    ensures id !in After(cfg, s, run).outcomes && id in Next(cfg, After(cfg, s, run), a).outcomes
  {
    RunInv(cfg, s, run);
    NextDeletes(cfg, After(cfg, s, run), a, id);
  }

  lemma AtIds(cfg: Config, s: State, run: seq<Action>, n: nat)
    requires Init(s) && LegalRun(cfg, s, run) && ParsesAll(run) && n <= |run|
    ensures IdsOk(At(cfg, s, run, n))
  {
    AtInv(cfg, s, run, n);
  }

  lemma {:induction false} GoneStays(cfg: Config, s: State, run: seq<Action>, n: nat, id: ConnId, o: Outcome)
    requires LegalRun(cfg, s, run) && n <= |run| && LegalRun(cfg, s, run[..n])
    requires Gone(After(cfg, s, run[..n]), id, o)
    ensures Gone(After(cfg, s, run), id, o)
    decreases |run|
  {
    if n == |run| {
      assert run[..n] == run;
    } else {
      var init, last := run[..|run| - 1], run[|run| - 1];
      assert init[..n] == run[..n];
      GoneStays(cfg, s, init, n, id, o);
      NextKeepsGone(cfg, After(cfg, s, init), last, id, o);
    }
  }

  /** What has been deleted stays deleted, and its outcome stays what it was. */
  lemma DeletedOnce(cfg: Config, s: State, run: seq<Action>, n: nat, m: nat, id: ConnId)
    requires Init(s) && LegalRun(cfg, s, run) && ParsesAll(run) && n <= m <= |run|
    requires id in At(cfg, s, run, n).outcomes
    ensures Gone(At(cfg, s, run, m), id, At(cfg, s, run, n).outcomes[id])
  {
    AtIds(cfg, s, run, n);
    PrefixLegal(cfg, s, run, n);
    PrefixLegal(cfg, s, run, m);
    assert run[..m][..n] == run[..n];
    GoneStays(cfg, s, run[..m], n, id, At(cfg, s, run, n).outcomes[id]);
  }

  /**
   * The registries agree with each other and with the kernel at all times, the listener never
   * leaves them (so the reactor never runs out of work), and nothing else does either: the
   * entries of closed descriptors stay behind.
   */
  lemma {:induction false} RegistriesOnlyGrow(cfg: Config, s: State, run: seq<Action>, n: nat, m: nat)
    requires Init(s) && LegalRun(cfg, s, run) && ParsesAll(run) && n <= m <= |run|
    ensures var then_, now := At(cfg, s, run, n), At(cfg, s, run, m);
            && Coherent(now.reg, now.k.watches.Keys)
            && now.k.listener in now.reg.callbacks
            && then_.reg.callbacks.Keys <= now.reg.callbacks.Keys
    decreases m
  {
    AtInv(cfg, s, run, m);
    if n < m {
      RegistriesOnlyGrow(cfg, s, run, n, m - 1);
      AtNext(cfg, s, run, m - 1);
      NextKeepsShared(cfg, At(cfg, s, run, m - 1), run[m - 1]);
    }
  }

  // ---- Wake-ups ----

  /**
   * No lost wake-up. A living connection that is registered for writing has unsent bytes. If
   * there is room to send them into, then an edge is pending, or an event that will make the
   * handler send is queued, or the handler is sending or about to.
   */
  lemma NoLostWriteWakeup(cfg: Config, s: State, run: seq<Action>, id: ConnId)
    requires Init(s) && LegalRun(cfg, s, run) && ParsesAll(run)
    requires id in After(cfg, s, run).conns && IsWriting(After(cfg, s, run).k, After(cfg, s, run).conns[id].fd)
    ensures var s', c := After(cfg, s, run), After(cfg, s, run).conns[id];
            && c.sent < |c.sendBuffer| && c.fd in s'.k.socks
            && (|| s'.k.socks[c.fd].room == 0
                || IsReady(s'.k, c.fd)
                || Told(s', c.fd, false)
                || (Runs(s', id) && s'.running.pc.Sending?)
                || (Runs(s', id) && s'.running.pc.Start? && (s'.running.x.event.err || s'.running.x.event.output)))
  {
    RunInv(cfg, s, run);
    var s' := After(cfg, s, run);
    assert ConnOk(s'.k, s'.reg, id, s'.conns[id]);
    if Runs(s', id) {
      assert WakeOk(Focus(s'));
    } else {
      assert AwakeOk(s', id);
    }
  }

  /**
   * The same for the read side, for connections whose last handler did not end with recv failing
   * other than by EAGAIN.
   */
  lemma NoLostReadWakeup(cfg: Config, s: State, run: seq<Action>, id: ConnId)
    requires Init(s) && LegalRun(cfg, s, run) && ParsesAll(run)
    requires id in After(cfg, s, run).conns && NeedsInput(After(cfg, s, run).k, After(cfg, s, run).conns[id])
    ensures var s', fd := After(cfg, s, run), After(cfg, s, run).conns[id].fd;
            || IsReady(s'.k, fd)
            || Told(s', fd, true)
            || (Runs(s', id) && (s'.running.pc.Receiving? || s'.running.pc.Parsing?))
            || (Runs(s', id) && s'.running.pc.Start? && (s'.running.x.event.err || s'.running.x.event.input))
  {
    RunInv(cfg, s, run);
    var s' := After(cfg, s, run);
    if Runs(s', id) {
      assert WakeOk(Focus(s'));
    } else {
      assert AwakeOk(s', id);
    }
  }

  /**
   * And these are the only ones: a handler leaves its connection with something to read and no
   * wake-up to come exactly if its last step is a recv that fails other than by EAGAIN while
   * there is something to read, with no edge since (ServerWitness.WakeupLost has such a run).
   */
  lemma ReadWakeupLostExactly(cfg: Config, s: State, run: seq<Action>, step: HandlerStep)
    requires Init(s) && LegalRun(cfg, s, run) && ParsesAll(run) && step != ParseError
    requires Enabled(cfg, After(cfg, s, run), Handle(step))
    requires Ends(Next(cfg, After(cfg, s, run), Handle(step)))
    ensures var s1, s2 := After(cfg, s, run), Next(cfg, After(cfg, s, run), Handle(step));
            var fd := s2.conns[s2.running.id].fd;
            CanRead(s2.k, fd) && !IsReady(s2.k, fd) <==> step.RecvFail? && CanRead(s1.k, fd) && !IsReady(s1.k, fd)
  {
    RunInv(cfg, s, run);
    InvRunning(cfg, After(cfg, s, run));
    StepLost(After(cfg, s, run), step);
  }

  /** The running handler is done, and its connection lives. */
  predicate Ends(s: State)
  {
    s.running.InHandler? && s.running.pc.Done? && s.running.id in s.conns
  }

  lemma InvRunning(cfg: Config, s: State)
    requires Inv(cfg, s)
    ensures RunningOk(s)
  {
  }

  lemma StepLost(s: State, step: HandlerStep)
    requires RunningOk(s) && s.running.InHandler? && s.running.id in s.conns && !step.Env? && step != ParseError
    requires StepEnabled(Focus(s), step) && Ends(Embed(s, StepNext(Focus(s), step)))
    ensures var s2, fd := Embed(s, StepNext(Focus(s), step)), s.conns[s.running.id].fd;
            && s2.conns[s.running.id].fd == fd
            && (CanRead(s2.k, fd) && !IsReady(s2.k, fd) <==> step.RecvFail? && CanRead(s.k, fd) && !IsReady(s.k, fd))
  {
    HandlerStepKeeps(Focus(s), step);
    LostExactly(Focus(s), step);
  }

  // ---- Delivery ----

  /**
   * What is on the wire of a living connection is the first `sent` bytes of its buffer, and if
   * it is registered for writing the buffer is a serialization of the response last given to
   * write, of which something is still to be sent.
   */
  lemma WireIsPrefix(cfg: Config, s: State, run: seq<Action>, id: ConnId)
    requires Init(s) && LegalRun(cfg, s, run) && ParsesAll(run) && id in After(cfg, s, run).conns
    ensures var s', c := After(cfg, s, run), After(cfg, s, run).conns[id];
            && c.fd in s'.k.socks && c.sent <= |c.sendBuffer|
            && s'.k.socks[c.fd].wire == c.sendBuffer[..c.sent]
            && (c.sent > 0 ==> IsWriting(s'.k, c.fd))
            && (IsWriting(s'.k, c.fd) ==>
                  && c.response.Some? && Prints(c.response.value, c.sendBuffer)
                  && c.sent < |c.sendBuffer|)
  {
    RunInv(cfg, s, run);
    assert ConnOk(After(cfg, s, run).k, After(cfg, s, run).reg, id, After(cfg, s, run).conns[id]);
  }

  /**
   * End to end. When success was called, the wire held one complete serialization of the
   * response last given to write, the buffer was empty again, and a peer that reads the wire by
   * RFC 9112 gets that response if it is well formed. When error was called, the wire held less
   * than all of it, or nothing at all.
   */
  lemma Delivered(cfg: Config, s: State, run: seq<Action>, id: ConnId)
    requires Init(s) && LegalRun(cfg, s, run) && ParsesAll(run) && id in After(cfg, s, run).outcomes
    ensures var o := After(cfg, s, run).outcomes[id];
            && (o.cause.AllSent? ==>
                  && o.conn.response.Some? && o.conn.sendBuffer == "" && o.conn.sent == 0
                  && Prints(o.conn.response.value, o.sock.wire)
                  && (WellFormed(o.conn.response.value) ==> Parse(o.sock.wire) == Some(o.conn.response.value)))
            && (!o.cause.AllSent? && o.sock.wire != "" ==>
                  && o.conn.response.Some? && Prints(o.conn.response.value, o.conn.sendBuffer)
                  && o.sock.wire < o.conn.sendBuffer)
  {
    RunInv(cfg, s, run);
    var o := After(cfg, s, run).outcomes[id];
    assert OutcomeOk(o);
    if o.cause.AllSent? && WellFormed(o.conn.response.value) {
      var r := o.conn.response.value;
      var order :| IsOrder(order, r.headers) && o.sock.wire == Print(r, order);
      RoundTrip(r, order);
    }
  }

  /** The size of the response that was last given to write; 0 if there is none. */
  ghost function ResponseBytes(c: Conn): nat
  {
    match c.response
    case None => 0
    case Some(r) => 11 + |r.version| + |r.statusCode| + |r.statusMessage| + HeaderBytes(r.headers) + |r.body|
  }

  lemma ResponseSize(c: Conn)
    requires ResponseOk(c)
    ensures ResponseBytes(c) == |c.sendBuffer|
  {
    PrintLength(c.response.value, c.sendBuffer);
  }

  lemma OutcomeSends(o: Outcome)
    requires OutcomeOk(o)
    ensures o.conn.sends <= ResponseBytes(o.conn)
  {
    if o.cause.AllSent? {
      PrintLength(o.conn.response.value, o.sock.wire);
    } else if o.conn.sent > 0 {
      ResponseSize(o.conn);
    }
  }

  /** A connection makes at most as many successful sends as its response has bytes, however it ends. */
  lemma SendsBounded(cfg: Config, s: State, run: seq<Action>, id: ConnId)
    requires Init(s) && LegalRun(cfg, s, run) && ParsesAll(run)
    ensures var s' := After(cfg, s, run);
            && (id in s'.conns ==> s'.conns[id].sends <= ResponseBytes(s'.conns[id]))
            && (id in s'.outcomes ==> s'.outcomes[id].conn.sends <= ResponseBytes(s'.outcomes[id].conn))
  {
    RunInv(cfg, s, run);
    var s' := After(cfg, s, run);
    if id in s'.conns {
      assert ConnOk(s'.k, s'.reg, id, s'.conns[id]);
      if s'.conns[id].sent > 0 {
        ResponseSize(s'.conns[id]);
      }
    }
    if id in s'.outcomes {
      OutcomeSends(s'.outcomes[id]);
    }
  }

  /** Ended with the peer's stream, or by an error event or a failing send before any send succeeded. */
  predicate CutShort(o: Outcome)
  {
    o.cause.EndOfStream? || ((o.cause.ErrorEvent? || o.cause.SendFailed?) && o.conn.sends == 0)
  }

  lemma EmptyWire(o: Outcome)
    requires OutcomeOk(o)
    ensures o.sock.wire == "" <==> CutShort(o)
  {
    if o.cause.AllSent? {
      PrintLength(o.conn.response.value, o.sock.wire);
    }
  }

  /**
   * Which connections end with a response ready and nothing of it sent: exactly those that end
   * with the peer's stream, and those that an error event or a failing send ends before any send
   * has succeeded.
   */
  lemma UnansweredExactly(cfg: Config, s: State, run: seq<Action>, id: ConnId)
    requires Init(s) && LegalRun(cfg, s, run) && ParsesAll(run)
    requires id in After(cfg, s, run).outcomes && After(cfg, s, run).outcomes[id].conn.response.Some?
    ensures After(cfg, s, run).outcomes[id].sock.wire == "" <==> CutShort(After(cfg, s, run).outcomes[id])
  {
    RunInv(cfg, s, run);
    EmptyWire(After(cfg, s, run).outcomes[id]);
  }

  lemma ParsingSendsNothing(s: State)
    requires RunningOk(s) && s.running.InHandler? && s.running.id in s.conns
    requires s.running.pc.Parsing? || s.running.pc.Receiving?
    ensures var c := s.conns[s.running.id];
            c.sent == 0 && c.fd in s.k.socks && s.k.socks[c.fd].wire == ""
  {
    assert HandlerOk(Focus(s));
  }

  /**
   * Phase exclusion: whenever the parser makes its callbacks, write among them, nothing of the
   * buffer that serialize replaces has been sent.
   */
  lemma WriteFindsNothingSent(cfg: Config, s: State, run: seq<Action>)
    requires Init(s) && LegalRun(cfg, s, run) && ParsesAll(run)
    requires After(cfg, s, run).running.InHandler? && After(cfg, s, run).running.pc.Parsing?
    ensures var s' := After(cfg, s, run);
            && s'.running.id in s'.conns
            && var c := s'.conns[s'.running.id];
               c.sent == 0 && c.fd in s'.k.socks && s'.k.socks[c.fd].wire == ""
  {
    RunInv(cfg, s, run);
    ParsingSendsNothing(After(cfg, s, run));
  }

  lemma EndOfStream(cfg: Config, s: State)
    requires RunningOk(s) && Enabled(cfg, s, Handle(RecvEnd))
    ensures var s', id := Next(cfg, s, Handle(RecvEnd)), s.running.id;
            id in s'.outcomes && s'.outcomes[id].cause.EndOfStream? && s'.outcomes[id].sock.wire == ""
  {
    ParsingSendsNothing(s);
  }

  /**
   * A connection deleted at the end of the peer's stream has put nothing on the wire, even if a
   * response was ready (ServerWitness.RequestGoesUnanswered has a run in which one was).
   */
  lemma EndOfStreamSendsNothing(cfg: Config, s: State, run: seq<Action>)
    requires Init(s) && LegalRun(cfg, s, run) && ParsesAll(run)
    requires Enabled(cfg, After(cfg, s, run), Handle(RecvEnd))
    ensures var s', id := Next(cfg, After(cfg, s, run), Handle(RecvEnd)), After(cfg, s, run).running.id;
            id in s'.outcomes && s'.outcomes[id].cause.EndOfStream? && s'.outcomes[id].sock.wire == ""
  {
    RunInv(cfg, s, run);
    EndOfStream(cfg, After(cfg, s, run));
  }

  /** The connection is registered for writing and no longer read from, or was when it ended. */
  predicate Committed(s: State, id: ConnId)
  {
    if id in s.conns then
      IsWriting(s.k, s.conns[id].fd) && (Runs(s, id) ==> !s.running.pc.Receiving? && !s.running.pc.Parsing?)
    else id in s.outcomes && id < s.next && !s.outcomes[id].cause.EndOfStream?
  }

  lemma StepCommitted(h: Handler, a: HandlerStep)
    requires HandlerOk(h) && StepEnabled(h, a) && !a.Env? && a != ParseError
    requires IsWriting(h.k, h.conn.fd) && !h.pc.Receiving? && !h.pc.Parsing?
    ensures var h' := StepNext(h, a);
            match h'.outcome
            case None => IsWriting(h'.k, h'.conn.fd) && !h'.pc.Receiving? && !h'.pc.Parsing?
            case Some(o) => !o.cause.EndOfStream?
  {
  }

  lemma HandleCommitted(s: State, step: HandlerStep, id: ConnId)
    requires RunningOk(s) && IdsOk(s) && Committed(s, id) && s.running.InHandler? && s.running.id in s.conns
    requires StepEnabled(Focus(s), step) && !step.Env? && step != ParseError
    ensures Committed(Embed(s, StepNext(Focus(s), step)), id)
  {
    if s.running.id == id {
      StepCommitted(Focus(s), step);
    } else if id in s.conns {
      HandleOwnOnly(Focus(s), step);
      OtherCommitted(s, StepNext(Focus(s), step), id);
    }
  }

  lemma OtherCommitted(s: State, h: Handler, id: ConnId)
    requires IdsOk(s) && Committed(s, id) && s.running.InHandler? && s.running.id in s.conns
    requires s.running.id != id && id in s.conns && OwnOnly(Focus(s), h)
    ensures Committed(Embed(s, h), id)
  {
    OwnOnlyAt(Focus(s), h, s.conns[id].fd);
  }

  lemma AcceptCommitted(cfg: Config, s: State, a: Action, id: ConnId)
    requires Enabled(cfg, s, a) && Committed(s, id) && (id in s.conns ==> id < s.next)
    requires a.AcceptOk? || a.AcceptLeak? || a.AcceptFail? || a.AcceptNothing? || a.TrackNew?
    ensures Committed(Next(cfg, s, a), id)
  {
  }

  lemma LoopCommitted(cfg: Config, s: State, a: Action, id: ConnId)
    requires Enabled(cfg, s, a) && Committed(s, id)
    requires a.Poll? || a.PollFail? || a.Dispatch? || a.Pop?
    ensures Committed(Next(cfg, s, a), id)
  {
  }

  lemma PeerCommitted(s: State, env: EnvAction, id: ConnId)
    requires EnvEnabled(s.k, env) && Committed(s, id)
    ensures Committed(s.(k := EnvNext(s.k, env)), id)
  {
    if id in s.conns {
      EnvEvolves(s.k, env, s.conns[id].fd);
    }
  }

  lemma NextCommitted(cfg: Config, s: State, a: Action, id: ConnId)
    requires RunningOk(s) && IdsOk(s) && Enabled(cfg, s, a) && a != Handle(ParseError) && Committed(s, id)
    ensures Committed(Next(cfg, s, a), id)
  {
    match a {
      case Peer(env) => PeerCommitted(s, env, id);
      case Handle(step) => HandleCommitted(s, step, id);
      case AcceptOk(_, _) | AcceptLeak(_, _) | AcceptFail | AcceptNothing | TrackNew(_) =>
        AcceptCommitted(cfg, s, a, id);
      case Poll(_, _) | PollFail | Dispatch(_) | Pop => LoopCommitted(cfg, s, a, id);
    }
  }

  lemma {:induction false} CommittedStays(cfg: Config, s: State, run: seq<Action>, n: nat, id: ConnId)
    requires Init(s) && LegalRun(cfg, s, run) && ParsesAll(run) && n <= |run| && LegalRun(cfg, s, run[..n])
    requires Committed(After(cfg, s, run[..n]), id)
    ensures Committed(After(cfg, s, run), id)
    decreases |run|
  {
    if n == |run| {
      assert run[..n] == run;
    } else {
      var init, last := run[..|run| - 1], run[|run| - 1];
      assert init[..n] == run[..n] && last in run;
      CommittedStays(cfg, s, init, n, id);
      RunInv(cfg, s, init);
      NextCommitted(cfg, After(cfg, s, init), last, id);
    }
  }

  /**
   * From when on a response is safe from the end of the peer's stream: once the handler that has
   * installed it and registered for writing has returned, the connection stays registered for
   * writing, and ends with all of the response sent, by an error event, or by a failing send.
   */
  lemma SafeOnceReturned(cfg: Config, s: State, run: seq<Action>, n: nat, m: nat, id: ConnId)
    requires Init(s) && LegalRun(cfg, s, run) && ParsesAll(run) && n <= m <= |run|
    requires var then_ := At(cfg, s, run, n);
             id in then_.conns && IsWriting(then_.k, then_.conns[id].fd) && !Runs(then_, id)
    ensures var now := At(cfg, s, run, m);
            if id in now.conns then IsWriting(now.k, now.conns[id].fd)
            else && id in now.outcomes
                 && (now.outcomes[id].cause.AllSent? || now.outcomes[id].cause.ErrorEvent?
                     || now.outcomes[id].cause.SendFailed?)
  {
    PrefixLegal(cfg, s, run, n);
    PrefixLegal(cfg, s, run, m);
    assert run[..m][..n] == run[..n];
    CommittedStays(cfg, s, run[..m], n, id);
    AtInv(cfg, s, run, m);
    if id !in At(cfg, s, run, m).conns {
      assert OutcomeOk(At(cfg, s, run, m).outcomes[id]);
    }
  }

  // ---- Reading ----

  ghost predicate IsRead(c: Conn, s: Sock)
  {
    && s.read <= |s.stream| && Concat(c.fed) == s.stream[..s.read]
    && forall i :: 0 <= i < |c.fed| ==> 1 <= |c.fed[i]| <= 1024
  }

  /**
   * The slices given to the parser over a connection's whole life, each of 1 to 1024 bytes, put
   * together are what the peer sent, in order and from the beginning, with nothing left out.
   */
  lemma ReadExactly(cfg: Config, s: State, run: seq<Action>, id: ConnId)
    requires Init(s) && LegalRun(cfg, s, run) && ParsesAll(run)
    ensures var s' := After(cfg, s, run);
            && (id in s'.conns ==> s'.conns[id].fd in s'.k.socks && IsRead(s'.conns[id], s'.k.socks[s'.conns[id].fd]))
            && (id in s'.outcomes ==> IsRead(s'.outcomes[id].conn, s'.outcomes[id].sock))
  {
    RunInv(cfg, s, run);
    var s' := After(cfg, s, run);
    if id in s'.conns {
      assert ConnOk(s'.k, s'.reg, id, s'.conns[id]);
    }
    if id in s'.outcomes {
      assert OutcomeOk(s'.outcomes[id]);
    }
  }

  /** The connection `id` is in the state `c`, or was when it was deleted. */
  predicate StateOf(s: State, id: ConnId, c: Conn)
  {
    (id in s.conns && c == s.conns[id]) || (id in s.outcomes && c == s.outcomes[id].conn)
  }

  /**
   * A connection has a response from when a message has been complete, and not before; and until
   * it is all sent, its buffer is a serialization of that response.
   */
  lemma AnsweredExactly(cfg: Config, s: State, run: seq<Action>, id: ConnId, c: Conn)
    requires Init(s) && LegalRun(cfg, s, run) && ParsesAll(run) && StateOf(After(cfg, s, run), id, c)
    ensures c.response.Some? <==> OnMessageComplete in c.heard
    ensures id in After(cfg, s, run).conns ==>
              if c.response.Some? then Prints(c.response.value, c.sendBuffer) else c.sendBuffer == ""
  {
    RunInv(cfg, s, run);
    var s' := After(cfg, s, run);
    RequestHeard(cfg, s', id, c);
    if id in s'.conns {
      assert ConnOk(s'.k, s'.reg, id, s'.conns[id]);
      assert id !in s'.outcomes;
    }
  }

  lemma RequestHeard(cfg: Config, s: State, id: ConnId, c: Conn)
    requires Inv(cfg, s) && StateOf(s, id, c)
    ensures RequestOk(c)
  {
    if id in s.conns {
      assert ConnOk(s.k, s.reg, id, s.conns[id]);
    }
    if id in s.outcomes {
      assert OutcomeOk(s.outcomes[id]);
    }
  }

  /**
   * The request of a connection, living or deleted, is what its parser's callbacks say: when they
   * have been those of one message, the request is that message, however its spans were cut; and
   * when they have been those of two, it is the second added to the first.
   */
  lemma RequestIsMessage(cfg: Config, s: State, run: seq<Action>, id: ConnId, c: Conn, m: Message)
    requires Init(s) && LegalRun(cfg, s, run) && ParsesAll(run) && StateOf(After(cfg, s, run), id, c)
    ensures Traces(c.heard, m) ==> c.request == Assembled(m)
    ensures forall m1, t1, t2 :: c.heard == t1 + t2 && Traces(t1, m1) && Traces(t2, m) ==>
              c.request == Continued(Assembled(m1), m)
  {
    RunInv(cfg, s, run);
    RequestHeard(cfg, After(cfg, s, run), id, c);
    if Traces(c.heard, m) {
      FirstMessage(c.heard, m);
    }
    forall m1, t1, t2 | c.heard == t1 + t2 && Traces(t1, m1) && Traces(t2, m)
      ensures c.request == Continued(Assembled(m1), m)
    {
      FirstMessage(t1, m1);
      MessageAssembled(Assembled(m1), t2, m);
      ApplyAllAppend(EMPTY_REQUEST, t1, t2);
    }
  }
}
