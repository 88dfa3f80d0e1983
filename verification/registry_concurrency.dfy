// The track operations of IOReactor called from several threads: include/reactor.h, lines 50 to
// 90. The two map updates of one operation are two separate steps; each alone is atomic, as
// MapConcurrency shows. Here a removal may succeed for any descriptor, as it is meant to; in the
// program it can for EPOLL_CTL_DEL only (see IOReactor.RemoveTrack).

module RegistryConcurrency {
  import opened KernelModel
  import opened ReactorSpec

  type Tid = nat

  datatype Op<CB> =
    | Add(fd: Fd, priority: EventPriority, cb: CB)       // asyncAccept and addTrack
    | Modify(fd: Fd, priority: EventPriority, cb: CB)    // modifyTrack
    | Remove(fd: Fd)                                     // removeTrack

  /** How far a thread has come in a track operation. */
  datatype Stage<CB> =
    | Outside
    | Called(op: Op<CB>)         // epoll_ctl comes next
    | Controlled(op: Op<CB>)     // epoll_ctl has succeeded, event_callback_ comes next
    | Half(op: Op<CB>)           // event_callback_ is done, event_priority_ comes next

  datatype State<CB> = State(watched: set<Fd>, reg: Registry<CB>, stages: map<Tid, Stage<CB>>)

  datatype Step<CB> =
    | Call(t: Tid, op: Op<CB>)
    | Control(t: Tid, ok: bool)      // epoll_ctl
    | Callbacks(t: Tid)              // event_callback_.insert or remove
    | Priorities(t: Tid)             // event_priority_.insert or remove
    | Closed(fd: Fd)                 // somebody closes fd: the kernel forgets it

  ghost predicate InFlight<CB(!new)>(s: State<CB>, fd: Fd)
  {
    exists t :: t in s.stages && !s.stages[t].Outside? && s.stages[t].op.fd == fd
  }

  /** `exclusive` says that no two operations on one descriptor are under way at once. */
  ghost predicate Enabled<CB(!new)>(exclusive: bool, s: State<CB>, a: Step<CB>)
  {
    if a.Closed? then true
    else
      && a.t in s.stages
      && var stage := s.stages[a.t];
         match a
         case Call(_, op) => stage.Outside? && (exclusive ==> !InFlight(s, op.fd))
         case Control(_, ok) => stage.Called? && (ok ==> (stage.op.Add? <==> stage.op.fd !in s.watched))
         case Callbacks(_) => stage.Controlled?
         case Priorities(_) => stage.Half?
         case _ => true
  }

  function Next<CB(!new)>(s: State<CB>, a: Step<CB>): State<CB>
    requires a.Closed? || a.t in s.stages
    requires a.Control? ==> s.stages[a.t].Called?
    requires a.Callbacks? ==> s.stages[a.t].Controlled?
    requires a.Priorities? ==> s.stages[a.t].Half?
  {
    match a
    case Closed(fd) => s.(watched := s.watched - {fd})
    case Call(t, op) => s.(stages := s.stages[t := Called(op)])
    case Control(t, ok) =>
      var op := s.stages[t].op;
      if !ok then s.(stages := s.stages[t := Outside])
      else s.(stages := s.stages[t := Controlled(op)],
              watched := if op.Remove? then s.watched - {op.fd} else s.watched + {op.fd})
    case Callbacks(t) =>
      var op := s.stages[t].op;
      s.(stages := s.stages[t := Half(op)],
         reg := s.reg.(callbacks := if op.Remove? then s.reg.callbacks - {op.fd}
                                    else s.reg.callbacks[op.fd := op.cb]))
    case Priorities(t) =>
      var op := s.stages[t].op;
      s.(stages := s.stages[t := Outside],
         reg := s.reg.(priorities := if op.Remove? then s.reg.priorities - {op.fd}
                                     else s.reg.priorities[op.fd := op.priority]))
  }

  ghost predicate Init<CB(!new)>(s: State<CB>)
  {
    && s.watched == {} && s.reg == Registry(map[], map[])
    && forall t :: t in s.stages ==> s.stages[t].Outside?
  }

  ghost predicate Legal<CB(!new)>(exclusive: bool, s: State<CB>, steps: seq<Step<CB>>)
    decreases |steps|
  {
    steps == [] || (Enabled(exclusive, s, steps[0]) && Legal(exclusive, Next(s, steps[0]), steps[1..]))
  }

  ghost function Run<CB(!new)>(exclusive: bool, s: State<CB>, steps: seq<Step<CB>>): State<CB>
    requires Legal(exclusive, s, steps)
    decreases |steps|
  {
    if steps == [] then s else Run(exclusive, Next(s, steps[0]), steps[1..])
  }

  /** At a descriptor without an operation in flight the registries agree, and cover the kernel. */
  predicate AgreeAt<CB>(s: State<CB>, fd: Fd)
  {
    && (fd in s.reg.callbacks <==> fd in s.reg.priorities)
    && (fd in s.watched ==> fd in s.reg.callbacks)
  }

  /** What an operation in flight has brought about so far. */
  ghost predicate StageOk<CB(!new)>(s: State<CB>, stage: Stage<CB>)
  {
    match stage
    case Outside => true
    case Called(op) => AgreeAt(s, op.fd)
    case Controlled(op) =>
      && (op.fd in s.reg.callbacks <==> op.fd in s.reg.priorities)
      && (op.Remove? ==> op.fd !in s.watched)
    case Half(op) =>
      && (op.fd in s.reg.callbacks <==> !op.Remove?)
      && (op.Remove? ==> op.fd !in s.watched)
  }

  ghost predicate StagesOk<CB(!new)>(s: State<CB>)
  {
    forall t :: t in s.stages ==> StageOk(s, s.stages[t])
  }

  /** No descriptor has two operations in flight. */
  ghost predicate Apart<CB(!new)>(s: State<CB>)
  {
    forall t, u :: t in s.stages && u in s.stages && t != u && !s.stages[t].Outside? && !s.stages[u].Outside?
                   ==> s.stages[t].op.fd != s.stages[u].op.fd
  }

  ghost predicate Inv<CB(!new)>(s: State<CB>)
  {
    StagesOk(s) && Apart(s) && forall fd :: InFlight(s, fd) || AgreeAt(s, fd)
  }

  lemma StagesNext<CB(!new)>(s: State<CB>, a: Step<CB>)
    requires Inv(s) && Enabled(true, s, a)
    ensures StagesOk(Next(s, a))
  {
    var s' := Next(s, a);
    forall t | t in s'.stages ensures StageOk(s', s'.stages[t]) {
      assert StageOk(s, s.stages[t]);
      if a.Call? && t == a.t {
        assert AgreeAt(s, a.op.fd);
      }
    }
  }

  lemma ApartNext<CB(!new)>(s: State<CB>, a: Step<CB>)
    requires Apart(s) && Enabled(true, s, a)
    ensures Apart(Next(s, a))
  {
    if a.Call? {
      assert forall v :: v in s.stages && !s.stages[v].Outside? ==> s.stages[v].op.fd != a.op.fd;
    }
  }

  /** A descriptor that no other thread works on agrees again once `a` has left it. */
  lemma AgreeNext<CB(!new)>(s: State<CB>, a: Step<CB>, fd: Fd)
    requires Inv(s) && Enabled(true, s, a) && !InFlight(Next(s, a), fd)
    ensures AgreeAt(Next(s, a), fd)
  {
    var s' := Next(s, a);
    if InFlight(s, fd) {
      var t :| t in s.stages && !s.stages[t].Outside? && s.stages[t].op.fd == fd;
      assert StageOk(s, s.stages[t]);
      assert s'.stages[t].Outside?;
    } else {
      assert AgreeAt(s, fd);
      assert !a.Closed? && !a.Call? ==> s.stages[a.t].op.fd != fd;
    }
  }

  lemma InvNext<CB(!new)>(s: State<CB>, a: Step<CB>)
    requires Inv(s) && Enabled(true, s, a)
    ensures Inv(Next(s, a))
  {
    StagesNext(s, a);
    ApartNext(s, a);
    forall fd ensures InFlight(Next(s, a), fd) || AgreeAt(Next(s, a), fd) {
      if !InFlight(Next(s, a), fd) {
        AgreeNext(s, a, fd);
      }
    }
  }

  lemma {:induction false} InvRun<CB(!new)>(s: State<CB>, steps: seq<Step<CB>>)
    requires Inv(s) && Legal(true, s, steps)
    ensures Inv(Run(true, s, steps))
    decreases |steps|
  {
    if steps != [] {
      InvNext(s, steps[0]);
      InvRun(Next(s, steps[0]), steps[1..]);
    }
  }

  /**
   * With at most one operation in flight for each descriptor, the registries differ only at
   * descriptors that have one, whatever the threads do and whichever calls of epoll_ctl fail.
   */
  lemma DifferOnlyInFlight<CB(!new)>(s: State<CB>, steps: seq<Step<CB>>, fd: Fd)
    requires Init(s) && Legal(true, s, steps)
    ensures var s' := Run(true, s, steps);
            && (InFlight(s', fd) || AgreeAt(s', fd))
            && (fd in s'.reg.callbacks && fd !in s'.reg.priorities ==>
                  exists t :: t in s'.stages && s'.stages[t].Half? && s'.stages[t].op.fd == fd
                              && !s'.stages[t].op.Remove?)
            && (fd in s'.reg.priorities && fd !in s'.reg.callbacks ==>
                  exists t :: t in s'.stages && s'.stages[t].Half? && s'.stages[t].op.fd == fd
                              && s'.stages[t].op.Remove?)
            && (fd in s'.watched && fd !in s'.reg.callbacks ==>
                  exists t :: t in s'.stages && s'.stages[t].Controlled? && s'.stages[t].op.fd == fd
                              && !s'.stages[t].op.Remove?)
  {
    InvRun(s, steps);
    var s' := Run(true, s, steps);
    if InFlight(s', fd) {
      var t :| t in s'.stages && !s'.stages[t].Outside? && s'.stages[t].op.fd == fd;
      assert StageOk(s', s'.stages[t]);
    }
  }

  /** When no operation is under way, the registries are coherent. */
  lemma CoherentAtRest<CB(!new)>(s: State<CB>, steps: seq<Step<CB>>)
    requires Init(s) && Legal(true, s, steps)
    requires forall t :: t in Run(true, s, steps).stages ==> Run(true, s, steps).stages[t].Outside?
    ensures Coherent(Run(true, s, steps).reg, Run(true, s, steps).watched)
  {
    InvRun(s, steps);
    var s' := Run(true, s, steps);
    forall fd: Fd
      ensures fd in s'.reg.callbacks.Keys <==> fd in s'.reg.priorities.Keys
      ensures fd in s'.watched ==> fd in s'.reg.callbacks.Keys
    {
      assert !InFlight(s', fd);
      assert AgreeAt(s', fd);
    }
  }

  // ---- Without the condition ----

  ghost predicate Leads(s: State<int>, steps: seq<Step<int>>, s': State<int>)
  {
    Legal(false, s, steps) && Run(false, s, steps) == s'
  }

  lemma FirstStep(s: State<int>, a: Step<int>, s1: State<int>, steps: seq<Step<int>>, s': State<int>)
    requires Enabled(false, s, a) && Next(s, a) == s1 && Leads(s1, steps, s')
    ensures Leads(s, [a] + steps, s')
  {
    assert ([a] + steps)[1..] == steps;
  }

  function TwoThreads(watched: set<Fd>, reg: Registry<int>, first: Stage<int>, second: Stage<int>): State<int>
  {
    State(watched, reg, map[0 := first, 1 := second])
  }

  /** While an add is half done, a remove overtakes it. */
  lemma Overtake(add: Op<int>, remove: Op<int>) returns (steps: seq<Step<int>>)
    requires add.Add? && add.fd == EPOLL_CTL_DEL && remove == Remove(EPOLL_CTL_DEL)
    ensures Leads(TwoThreads({EPOLL_CTL_DEL}, Registry(map[EPOLL_CTL_DEL := add.cb], map[]), Half(add), Outside), steps,
                  TwoThreads({}, Registry(map[], map[EPOLL_CTL_DEL := add.priority]), Outside, Outside))
  {
    var s3 := TwoThreads({EPOLL_CTL_DEL}, Registry(map[EPOLL_CTL_DEL := add.cb], map[]), Half(add), Outside);
    var s4 := TwoThreads({EPOLL_CTL_DEL}, Registry(map[EPOLL_CTL_DEL := add.cb], map[]), Half(add), Called(remove));
    var s5 := TwoThreads({}, Registry(map[EPOLL_CTL_DEL := add.cb], map[]), Half(add), Controlled(remove));
    var s6 := TwoThreads({}, Registry(map[], map[]), Half(add), Half(remove));
    var s7 := TwoThreads({}, Registry(map[], map[]), Half(add), Outside);
    var s8 := TwoThreads({}, Registry(map[], map[EPOLL_CTL_DEL := add.priority]), Outside, Outside);
    FirstStep(s7, Priorities(0), s8, [], s8);
    steps := [Priorities(0)] + [];
    FirstStep(s6, Priorities(1), s7, steps, s8);
    steps := [Priorities(1)] + steps;
    FirstStep(s5, Callbacks(1), s6, steps, s8);
    steps := [Callbacks(1)] + steps;
    FirstStep(s4, Control(1, true), s5, steps, s8);
    steps := [Control(1, true)] + steps;
    FirstStep(s3, Step.Call(1, remove), s4, steps, s8);
    steps := [Step.Call(1, remove)] + steps;
  }

  /**
   * Two operations on one descriptor at once can leave it with a priority and no callback: the
   * condition is needed. The descriptor is one that the program can remove.
   */
  lemma OverlapBreaks(cb: int)
    ensures exists s: State<int>, steps, s' ::
              && Init(s) && Leads(s, steps, s')
              && (forall t :: t in s'.stages ==> s'.stages[t].Outside?)
              && !Coherent(s'.reg, s'.watched)
  {
    var add: Op<int>, remove: Op<int> := Add(EPOLL_CTL_DEL, NEW_SOCK, cb), Remove(EPOLL_CTL_DEL);
    var s0 := TwoThreads({}, Registry(map[], map[]), Outside, Outside);
    var s1 := TwoThreads({}, Registry(map[], map[]), Called(add), Outside);
    var s2 := TwoThreads({EPOLL_CTL_DEL}, Registry(map[], map[]), Controlled(add), Outside);
    var s3 := TwoThreads({EPOLL_CTL_DEL}, Registry(map[EPOLL_CTL_DEL := cb], map[]), Half(add), Outside);
    var s8 := TwoThreads({}, Registry(map[], map[EPOLL_CTL_DEL := NEW_SOCK]), Outside, Outside);
    var steps := Overtake(add, remove);
    FirstStep(s2, Callbacks(0), s3, steps, s8);
    steps := [Callbacks(0)] + steps;
    FirstStep(s1, Control(0, true), s2, steps, s8);
    steps := [Control(0, true)] + steps;
    FirstStep(s0, Step.Call(0, add), s1, steps, s8);
    assert EPOLL_CTL_DEL in s8.reg.priorities.Keys && EPOLL_CTL_DEL !in s8.reg.callbacks.Keys;
  }
}
