// The order in which the server serves its batches: include/reactor.h, lines 106 to 141.

module ServerOrder {
  import opened KernelModel
  import opened ReactorSpec
  import opened ConnectionSpec
  import opened ServerMachine
  import opened ServerInvariant
  import opened ServerProof

  /** The events of the last batch that no callback has been called for yet. */
  function Waiting(s: State): multiset<Queued>
  {
    if s.running.Nobody? then s.queue else s.queue - multiset{s.running.x}
  }

  /**
   * `earlier` are the calls of the batches before the last, `since` those of the last, which ran
   * the events `done` so far; `polls` are the harvests, made of the registries `harvested`.
   */
  ghost predicate Log(polls: seq<seq<PollEvent>>, harvested: Registry<Callback>, waiting: multiset<Queued>,
                      earlier: seq<Call<Callback>>, done: seq<Queued>, since: seq<Call<Callback>>)
  {
    && (if polls == [] then waiting == multiset{} && earlier == [] && done == []
        else
          var n := |polls| - 1;
          && polls[n] != [] && Served(polls[..n], earlier)
          && multiset(Ranked(harvested, polls[n])) == multiset(done) + waiting)
    && Sorted(done) && (forall y, z :: y in done && z in waiting ==> Rank(y.priority) <= Rank(z.priority))
    && RunsAs(done, since) && Chained(harvested, since)
  }

  lemma LogServed(polls: seq<seq<PollEvent>>, harvested: Registry<Callback>,
                  earlier: seq<Call<Callback>>, done: seq<Queued>, since: seq<Call<Callback>>)
    requires Log(polls, harvested, multiset{}, earlier, done, since)
    ensures Served(polls, earlier + since)
  {
    if polls == [] {
      assert earlier + since == [];
    } else {
      var init, last := polls[..|polls| - 1], polls[|polls| - 1];
      LastLogServed(init, last, harvested, earlier, done, since);
      assert init + [last] == polls;
    }
  }

  lemma LastLogServed(init: seq<seq<PollEvent>>, last: seq<PollEvent>, harvested: Registry<Callback>,
                      earlier: seq<Call<Callback>>, done: seq<Queued>, since: seq<Call<Callback>>)
    requires Served(init, earlier) && last != [] && Sorted(done)
    requires multiset(Ranked(harvested, last)) == multiset(done) + multiset{}
    requires RunsAs(done, since) && Chained(harvested, since)
    ensures Served(init + [last], earlier + since)
  {
    assert multiset(done) == multiset(Ranked(harvested, last));
    DrainOrders(multiset(Ranked(harvested, last)), done);
    LastServed(harvested, init, last, earlier, done, since);
  }

  lemma LogPoll(polls: seq<seq<PollEvent>>, calls: seq<Call<Callback>>, reg: Registry<Callback>, events: seq<PollEvent>)
    requires Served(polls, calls) && events != []
    ensures Log(polls + [events], reg, multiset(Ranked(reg, events)), calls, [], [])
  {
    assert (polls + [events])[..|polls|] == polls;
    assert multiset([]) + multiset(Ranked(reg, events)) == multiset(Ranked(reg, events));
  }

  lemma LogDispatch(polls: seq<seq<PollEvent>>, harvested: Registry<Callback>, waiting: multiset<Queued>,
                    earlier: seq<Call<Callback>>, done: seq<Queued>, since: seq<Call<Callback>>,
                    x: Queued, c: Call<Callback>)
    requires Log(polls, harvested, waiting, earlier, done, since) && Top(waiting, x) && Found(c) && c.event == x.event
    requires polls != [] ==> c.before == RegAfter(harvested, since)
    ensures Log(polls, harvested, waiting - multiset{x}, earlier, done + [x], since + [c])
  {
    assert polls != [];
    DrainsPush(multiset(done) + waiting, done, waiting, x);
    RunsAsPush(done, since, x, c);
    ChainedPush(harvested, since, c);
  }

  lemma CallsDispatch(reg0: Registry<Callback>, calls: seq<Call<Callback>>, earlier: seq<Call<Callback>>,
                      since: seq<Call<Callback>>, c: Call<Callback>)
    requires calls == earlier + since && Chained(reg0, calls) && c.before == RegAfter(reg0, calls)
    ensures calls + [c] == earlier + (since + [c]) && Chained(reg0, calls + [c])
  {
    AppendAssociates(earlier, since, [c]);
    ChainedPush(reg0, calls, c);
  }

  lemma {:induction false} FinishedKeeps(reg: Registry<Callback>, done: seq<Queued>, calls: seq<Call<Callback>>,
                                         after: Registry<Callback>)
    requires calls != [] && Chained(reg, calls)
    ensures Chained(reg, Finished(calls, after)) && RegAfter(reg, Finished(calls, after)) == after
    ensures RunsAs(done, calls) ==> RunsAs(done, Finished(calls, after))
  {
    var n := |calls| - 1;
    assert Finished(calls, after)[..n] == calls[..n];
  }

  /** What is logged at a state of the server. */
  ghost predicate LogAt(reg0: Registry<Callback>, s: State, earlier: seq<Call<Callback>>, done: seq<Queued>,
                        since: seq<Call<Callback>>)
  {
    && Log(s.polls, s.harvested, Waiting(s), earlier, done, since)
    && s.calls == earlier + since && Chained(reg0, s.calls)
    && (if s.running.Nobody? then
          s.reg == RegAfter(reg0, s.calls) && (s.polls != [] ==> s.reg == RegAfter(s.harvested, since))
        else |since| > 0)
  }

  ghost predicate LogOk(reg0: Registry<Callback>, s: State)
  {
    exists earlier, done, since :: LogAt(reg0, s, earlier, done, since)
  }

  lemma LogIsOk(reg0: Registry<Callback>, s: State, earlier: seq<Call<Callback>>, done: seq<Queued>,
                since: seq<Call<Callback>>)
    requires LogAt(reg0, s, earlier, done, since)
    ensures LogOk(reg0, s)
  {
  }

  /** Steps that call nothing leave the log alone. */
  predicate QuietFrom(s: State, s': State)
  {
    && s'.polls == s.polls && s'.harvested == s.harvested && s'.calls == s.calls && Waiting(s') == Waiting(s)
    && (s.running.Nobody? <==> s'.running.Nobody?) && (s.running.Nobody? ==> s'.reg == s.reg)
  }

  lemma QuietSteps(cfg: Config, s: State, a: Action)
    requires Enabled(cfg, s, a) && !a.Poll? && !a.Dispatch? && !a.Pop?
    ensures QuietFrom(s, Next(cfg, s, a))
  {
    if a.Handle? {
      EmbedQuiet(s, StepNext(Focus(s), a.step));
    }
  }

  lemma EmbedQuiet(s: State, h: Handler)
    requires s.running.InHandler? && s.running.id in s.conns
    ensures QuietFrom(s, Embed(s, h))
  {
  }

  lemma QuietKeepsLog(reg0: Registry<Callback>, s: State, s': State)
    requires LogOk(reg0, s) && QuietFrom(s, s')
    ensures LogOk(reg0, s')
  {
    var earlier, done, since :| LogAt(reg0, s, earlier, done, since);
    assert LogAt(reg0, s', earlier, done, since);
  }

  /** Between two batches everything has been served. */
  lemma AllServed(reg0: Registry<Callback>, s: State)
    requires LogOk(reg0, s) && s.running.Nobody? && s.queue == multiset{}
    ensures Served(s.polls, s.calls) && Chained(reg0, s.calls) && s.reg == RegAfter(reg0, s.calls)
  {
    var earlier, done, since :| LogAt(reg0, s, earlier, done, since);
    LogServed(s.polls, s.harvested, earlier, done, since);
  }

  lemma LogAtPolled(reg0: Registry<Callback>, s: State, s': State, events: seq<PollEvent>)
    requires Served(s.polls, s.calls) && Chained(reg0, s.calls) && s.reg == RegAfter(reg0, s.calls) && events != []
    requires s'.polls == s.polls + [events] && s'.harvested == s.reg && s'.calls == s.calls && s'.reg == s.reg
    requires s'.running.Nobody? && s'.queue == multiset(Ranked(s.reg, events))
    ensures LogAt(reg0, s', s.calls, [], [])
  {
    LogPoll(s.polls, s.calls, s.reg, events);
    assert s.calls == s.calls + [];
  }

  lemma PollKeepsLog(reg0: Registry<Callback>, s: State, s': State, events: seq<PollEvent>)
    requires LogOk(reg0, s) && s.running.Nobody? && s.queue == multiset{} && events != []
    requires s'.polls == s.polls + [events] && s'.harvested == s.reg && s'.calls == s.calls && s'.reg == s.reg
    requires s'.running.Nobody? && s'.queue == multiset(Ranked(s.reg, events))
    ensures LogOk(reg0, s')
  {
    AllServed(reg0, s);
    LogAtPolled(reg0, s, s', events);
    LogIsOk(reg0, s', s.calls, [], []);
  }

  /** `c` has been called for `x`. */
  predicate DispatchedFrom(s: State, s': State, x: Queued, c: Call<Callback>)
  {
    && s'.polls == s.polls && s'.harvested == s.harvested && s'.calls == s.calls + [c]
    && c.event == x.event && c.before == s.reg
    && s.running.Nobody? && !s'.running.Nobody? && Waiting(s') == s.queue - multiset{x}
  }

  lemma LogAtDispatched(reg0: Registry<Callback>, s: State, s': State, x: Queued, c: Call<Callback>,
                        earlier: seq<Call<Callback>>, done: seq<Queued>, since: seq<Call<Callback>>)
    requires LogAt(reg0, s, earlier, done, since) && DispatchedFrom(s, s', x, c) && Top(s.queue, x) && Found(c)
    ensures LogAt(reg0, s', earlier, done + [x], since + [c])
  {
    LogDispatch(s.polls, s.harvested, s.queue, earlier, done, since, x, c);
    CallsDispatch(reg0, s.calls, earlier, since, c);
  }

  lemma DispatchKeepsLog(reg0: Registry<Callback>, s: State, s': State, x: Queued, c: Call<Callback>)
    requires LogOk(reg0, s) && DispatchedFrom(s, s', x, c) && Top(s.queue, x) && Found(c)
    ensures LogOk(reg0, s')
  {
    var earlier, done, since :| LogAt(reg0, s, earlier, done, since);
    LogAtDispatched(reg0, s, s', x, c, earlier, done, since);
    LogIsOk(reg0, s', earlier, done + [x], since + [c]);
  }

  lemma PopKeepsLog(reg0: Registry<Callback>, s: State, s': State)
    requires LogOk(reg0, s) && !s.running.Nobody? && s'.running.Nobody? && s'.queue == Waiting(s)
    requires s'.polls == s.polls && s'.harvested == s.harvested && s'.reg == s.reg
    requires s'.calls == Finished(s.calls, s.reg)
    ensures LogOk(reg0, s')
  {
    var earlier, done, since :| LogAt(reg0, s, earlier, done, since);
    FinishedKeeps(s.harvested, done, since, s.reg);
    FinishedKeeps(reg0, done, s.calls, s.reg);
    assert Finished(s.calls, s.reg) == earlier + Finished(since, s.reg);
    assert LogAt(reg0, s', earlier, done, Finished(since, s.reg));
  }

  lemma DispatchLogged(cfg: Config, s: State, a: Action) returns (c: Call<Callback>)
    requires Inv(cfg, s) && Enabled(cfg, s, a) && a.Dispatch? && cfg.ordered
    ensures DispatchedFrom(s, Next(cfg, s, a), a.x, c) && Top(s.queue, a.x) && Found(c)
  {
    assert Pending(s, a.x);
    Lookup(s, a.x);
    c := Call(s.reg.callbacks[a.x.event.fd], a.x.event, s.reg, s.reg);
  }

  lemma DispatchNextLogged(cfg: Config, reg0: Registry<Callback>, s: State, a: Action)
    requires LogOk(reg0, s) && Inv(cfg, s) && Enabled(cfg, s, a) && a.Dispatch? && cfg.ordered
    ensures LogOk(reg0, Next(cfg, s, a))
  {
    var c := DispatchLogged(cfg, s, a);
    DispatchKeepsLog(reg0, s, Next(cfg, s, a), a.x, c);
  }

  lemma PollLogged(cfg: Config, reg0: Registry<Callback>, s: State, a: Action)
    requires LogOk(reg0, s) && Enabled(cfg, s, a) && a.Poll?
    ensures LogOk(reg0, Next(cfg, s, a))
  {
    PollKeepsLog(reg0, s, Next(cfg, s, a), a.events);
  }

  lemma PopLogged(cfg: Config, reg0: Registry<Callback>, s: State, a: Action)
    requires LogOk(reg0, s) && Enabled(cfg, s, a) && a.Pop?
    ensures LogOk(reg0, Next(cfg, s, a))
  {
    PopKeepsLog(reg0, s, Next(cfg, s, a));
  }

  lemma NextKeepsLog(cfg: Config, reg0: Registry<Callback>, s: State, a: Action)
    requires LogOk(reg0, s) && Inv(cfg, s) && Enabled(cfg, s, a) && cfg.ordered
    ensures LogOk(reg0, Next(cfg, s, a))
  {
    match a {
      case Poll(_, _) => PollLogged(cfg, reg0, s, a);
      case Dispatch(_) => DispatchNextLogged(cfg, reg0, s, a);
      case Pop => PopLogged(cfg, reg0, s, a);
      case _ =>
        QuietSteps(cfg, s, a);
        QuietKeepsLog(reg0, s, Next(cfg, s, a));
    }
  }

  lemma {:induction false} RunKeepsLog(cfg: Config, s: State, run: seq<Action>)
    requires Init(s) && LegalRun(cfg, s, run) && ParsesAll(run) && cfg.ordered
    ensures LogOk(s.reg, After(cfg, s, run))
    decreases |run|
  {
    if run == [] {
      assert LogAt(s.reg, s, [], [], []);
    } else {
      var init := run[..|run| - 1];
      RunKeepsLog(cfg, s, init);
      RunInv(cfg, s, init);
      NextKeepsLog(cfg, s.reg, After(cfg, s, init), run[|run| - 1]);
    }
  }

  /**
   * Batch dispatch is an ordered permutation. Whenever the queue is empty, the harvests made so
   * far have been served one after the other: the calls made for each are its events, each once,
   * none after one whose priority number was greater at the time of the harvest, whatever the
   * callbacks have registered since; each call was of the callback registered for its event when
   * it was made; and nothing but callbacks has changed the registries.
   */
  lemma BatchesInOrder(cfg: Config, s: State, run: seq<Action>)
    requires Init(s) && LegalRun(cfg, s, run) && ParsesAll(run) && cfg.ordered
    requires After(cfg, s, run).running.Nobody? && After(cfg, s, run).queue == multiset{}
    ensures Served(After(cfg, s, run).polls, After(cfg, s, run).calls)
    ensures InPriority(After(cfg, s, run).polls, After(cfg, s, run).calls)
    ensures Chained(s.reg, After(cfg, s, run).calls)
  {
    RunKeepsLog(cfg, s, run);
    AllServed(s.reg, After(cfg, s, run));
    ServedInPriority(After(cfg, s, run).polls, After(cfg, s, run).calls);
  }
}
