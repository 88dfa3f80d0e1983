// What the classes do, seen as runs of the machine.

module ServerRuns {
  import opened KernelModel
  import opened KernelCalls
  import opened ReactorSpec
  import opened ConnectionSpec
  import opened ServerMachine
  import opened ServerInvariant
  import opened ServerProof

  /** Some run without a parse error leads from `s` to `s'`. */
  ghost predicate Reached(cfg: Config, s: State, s': State)
  {
    exists run :: LegalRun(cfg, s, run) && ParsesAll(run) && After(cfg, s, run) == s'
  }

  /** So all that holds of runs holds of the states that are reached. */
  lemma ReachedInv(cfg: Config, s0: State, s: State)
    requires Init(s0) && Reached(cfg, s0, s)
    ensures Inv(cfg, s)
  {
    var run :| LegalRun(cfg, s0, run) && ParsesAll(run) && After(cfg, s0, run) == s;
    RunInv(cfg, s0, run);
  }

  lemma ReachedStart(cfg: Config, s: State)
    ensures Reached(cfg, s, s)
  {
    assert LegalRun(cfg, s, []) && ParsesAll([]) && After(cfg, s, []) == s;
  }

  lemma ReachedNext(cfg: Config, s: State, s': State, a: Action)
    requires Reached(cfg, s, s') && Enabled(cfg, s', a) && a != Handle(ParseError)
    ensures Reached(cfg, s, Next(cfg, s', a))
  {
    var run :| LegalRun(cfg, s, run) && ParsesAll(run) && After(cfg, s, run) == s';
    var more := run + [a];
    assert more[..|more| - 1] == run;
    assert LegalRun(cfg, s, more) && ParsesAll(more) && After(cfg, s, more) == Next(cfg, s', a);
  }

  lemma {:induction false} ReachedEnvRun(cfg: Config, s0: State, s: State, acts: seq<EnvAction>)
    requires Reached(cfg, s0, s) && EnvLegal(s.k, acts)
    ensures Reached(cfg, s0, s.(k := EnvRun(s.k, acts)))
    decreases |acts|
  {
    if acts == [] {
      assert s.(k := EnvRun(s.k, acts)) == s;
    } else {
      var s1 := s.(k := EnvNext(s.k, acts[0]));
      ReachedNext(cfg, s0, s, Peer(acts[0]));
      ReachedEnvRun(cfg, s0, s1, acts[1..]);
      assert s1.(k := EnvRun(s1.k, acts[1..])) == s.(k := EnvRun(s.k, acts));
    }
  }

  /** What the peers do while the server does nothing is part of a run. */
  lemma ReachedEnv(cfg: Config, s0: State, s: State, k: Kernel)
    requires Reached(cfg, s0, s) && Evolves(s.k, k)
    ensures Reached(cfg, s0, s.(k := k)) && k.answers == s.k.answers
  {
    var acts :| EnvLegal(s.k, acts) && EnvRun(s.k, acts) == k;
    ReachedEnvRun(cfg, s0, s, acts);
    EnvRunEvolves(s.k, acts, s.k.listener);
  }

  // ---- What the kernel answers ----

  /** What the system calls of an action return. */
  ghost function ActionAnswers(cfg: Config, s: State, a: Action): seq<Answer>
    requires Enabled(cfg, s, a)
  {
    match a
    case Peer(_) | Dispatch(_) | AcceptNothing | Pop => []
    case Poll(events, _) => [Waited(events)]
    case PollFail => [WaitFailed]
    case Handle(step) => Answers(Focus(s), step)
    case AcceptOk(fd, _) => [AcceptedAs(fd, true)]
    case AcceptLeak(fd, _) => [AcceptedAs(fd, false)]
    case AcceptFail => [AcceptedNone]
    case TrackNew(added) =>
      var fd := s.conns[s.running.id].fd;
      [Ctl(EPOLL_CTL_ADD, fd, if added then Obeyed else if CanAdd(s.k, fd) then Faulted else Refused)]
  }

  ghost function RunAnswers(cfg: Config, s: State, run: seq<Action>): seq<Answer>
    requires LegalRun(cfg, s, run)
    decreases |run|
  {
    if run == [] then []
    else
      var init, last := run[..|run| - 1], run[|run| - 1];
      RunAnswers(cfg, s, init) + ActionAnswers(cfg, After(cfg, s, init), last)
  }

  lemma NextAnswers(cfg: Config, s: State, a: Action)
    requires Enabled(cfg, s, a)
    ensures Next(cfg, s, a).k.answers == s.k.answers + ActionAnswers(cfg, s, a)
  {
    match a {
      case Peer(env) => EnvKeepsRest(s.k, env);
      case Handle(step) => StepAnswers(Focus(s), step);
      case AcceptOk(_, _) | AcceptLeak(_, _) | AcceptFail | TrackNew(_) => AcceptAnswers(cfg, s, a);
      case _ =>
    }
  }

  lemma AcceptAnswers(cfg: Config, s: State, a: Action)
    requires Enabled(cfg, s, a) && (a.AcceptOk? || a.AcceptLeak? || a.AcceptFail? || a.TrackNew?)
    ensures Next(cfg, s, a).k.answers == s.k.answers + ActionAnswers(cfg, s, a)
  {
  }

  /** The kernel has recorded the answers that the actions of a run got, those and no others, in their order. */
  lemma {:induction false} RunAnswered(cfg: Config, s: State, run: seq<Action>)
    requires LegalRun(cfg, s, run)
    ensures After(cfg, s, run).k.answers == s.k.answers + RunAnswers(cfg, s, run)
    decreases |run|
  {
    if run == [] {
      assert s.k.answers + [] == s.k.answers;
    } else {
      var init, last := run[..|run| - 1], run[|run| - 1];
      RunAnswered(cfg, s, init);
      NextAnswers(cfg, After(cfg, s, init), last);
      AppendAssociates(s.k.answers, RunAnswers(cfg, s, init), ActionAnswers(cfg, After(cfg, s, init), last));
    }
  }

  /** The last that has happened is that epoll_wait has failed. */
  ghost predicate GaveUp(cfg: Config, s: State, s': State)
  {
    exists last :: Reached(cfg, s, last) && Enabled(cfg, last, PollFail) && s' == Next(cfg, last, PollFail)
  }

  lemma ReachedAnswered(cfg: Config, s: State, s': State)
    requires Reached(cfg, s, s')
    ensures s.k.answers <= s'.k.answers
  {
    var run :| LegalRun(cfg, s, run) && ParsesAll(run) && After(cfg, s, run) == s';
    RunAnswered(cfg, s, run);
  }

  lemma GaveUpAnswered(cfg: Config, s: State, s': State)
    requires GaveUp(cfg, s, s')
    ensures s.k.answers < s'.k.answers && EndsWith(s'.k, WaitFailed)
  {
    var last :| Reached(cfg, s, last) && Enabled(cfg, last, PollFail) && s' == Next(cfg, last, PollFail);
    ReachedAnswered(cfg, s, last);
  }

  // ---- handleEvent ----

  /** `h` is a later view of the handler that runs in `s`. */
  predicate ViewOf(s: State, h: Handler)
  {
    && s.running.InHandler? && s.running.id in s.conns
    && h.id == s.running.id && h.phase == s.running.phase && h.event == s.running.x.event
    && h.conn.fd == s.conns[s.running.id].fd
  }

  lemma StepKeepsView(s: State, h: Handler, a: HandlerStep)
    requires ViewOf(s, h) && StepEnabled(h, a)
    ensures ViewOf(s, StepNext(h, a))
  {
  }

  /** A step of the peers, after which the handler's view is `h` with another kernel. */
  lemma LiftEnv(cfg: Config, s: State, h: Handler, a: EnvAction)
    requires ViewOf(s, h) && EnvEnabled(h.k, a)
    ensures Enabled(cfg, Embed(s, h), Peer(a))
    ensures Next(cfg, Embed(s, h), Peer(a)) == Embed(s, h.(k := EnvNext(h.k, a)))
  {
  }

  /** A step of the handler itself. */
  lemma LiftStep(cfg: Config, s: State, h: Handler, a: HandlerStep)
    requires ViewOf(s, h) && StepEnabled(h, a) && !a.Env?
    ensures Enabled(cfg, Embed(s, h), Handle(a))
    ensures Next(cfg, Embed(s, h), Handle(a)) == Embed(s, StepNext(h, a))
  {
    var s1, h' := Embed(s, h), StepNext(h, a);
    assert Focus(s1) == h;
    StepKeepsView(s, h, a);
    EmbedTwice(s, h, h');
  }

  lemma EmbedTwice(s: State, h: Handler, h': Handler)
    requires ViewOf(s, h) && ViewOf(s, h') && h.outcome.None?
    ensures Embed(Embed(s, h), h') == Embed(s, h')
  {
    var id := s.running.id;
    assert s.conns[id := h.conn][id := h'.conn] == s.conns[id := h'.conn];
    assert s.conns[id := h.conn] - {id} == s.conns - {id};
  }

  lemma {:induction false} LiftTrail(cfg: Config, s0: State, s: State, steps: seq<HandlerStep>, trail: seq<Handler>,
                                     h: Handler, n: nat)
    requires Reached(cfg, s0, s) && s.running.InHandler? && s.running.id in s.conns
    requires Trail(Focus(s), steps, trail, h) && n <= |steps|
    ensures ViewOf(s, trail[n]) && Reached(cfg, s0, Embed(s, trail[n]))
    decreases n
  {
    if n == 0 {
      assert s.conns[s.running.id := s.conns[s.running.id]] == s.conns;
      assert Embed(s, Focus(s)) == s;
    } else {
      LiftTrail(cfg, s0, s, steps, trail, h, n - 1);
      var a, before := steps[n - 1], trail[n - 1];
      assert trail[n] == StepNext(before, a);
      StepKeepsView(s, before, a);
      if a.Env? {
        LiftEnv(cfg, s, before, a.action);
        ReachedNext(cfg, s0, Embed(s, before), Peer(a.action));
      } else {
        LiftStep(cfg, s, before, a);
        ReachedNext(cfg, s0, Embed(s, before), Handle(a));
      }
    }
  }

  /**
   * In every state of the server in which a handler is running, the object is in the order that
   * Clientconnection.HandleEvent asks for; and whatever a call of it is proved to do is a run of
   * the machine, so all that holds of runs holds of the state that the call leaves.
   */
  lemma HandleEventIsRun(cfg: Config, s0: State, s: State, h: Handler)
    requires Init(s0) && Reached(cfg, s0, s) && s.running.InHandler? && s.running.id in s.conns
    ensures HandlerOk(Focus(s))
    ensures Reaches(Focus(s), h) ==> Reached(cfg, s0, Embed(s, h))
  {
    ReachedInv(cfg, s0, s);
    if Reaches(Focus(s), h) {
      var steps, trail :| Trail(Focus(s), steps, trail, h);
      LiftTrail(cfg, s0, s, steps, trail, h, |steps|);
    }
  }
}
