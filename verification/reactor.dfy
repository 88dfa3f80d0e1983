// IOReactor: include/reactor.h. Callbacks are whatever is put into the registry; what one does
// when it is run is only bounded by `Invoke`.

module Reactor {
  import opened KernelModel
  import opened KernelCalls
  import opened MapSpec
  import opened ReactorSpec
  import opened ThreadSafeMaps

  /** `pushed` is the last harvest, if it has not been served yet; the others have been. */
  ghost predicate Serving<CB>(reg: Registry<CB>, harvests: seq<seq<PollEvent>>, calls: seq<Call<CB>>,
                              pushed: seq<Queued>)
  {
    if pushed == [] then Served(harvests, calls)
    else
      && harvests != [] && harvests[|harvests| - 1] != [] && Served(harvests[..|harvests| - 1], calls)
      && pushed == Ranked(reg, harvests[|harvests| - 1])
  }

  /** The harvests that one wait adds: one, unless the loop ends. */
  function Harvested(goesOn: bool, events: seq<PollEvent>): seq<seq<PollEvent>>
  {
    if goesOn then [events] else []
  }

  lemma ServingWait<CB>(reg: Registry<CB>, harvests: seq<seq<PollEvent>>, calls: seq<Call<CB>>,
                        goesOn: bool, events: seq<PollEvent>)
    requires Served(harvests, calls) && (goesOn ==> events != [])
    ensures Serving(reg, harvests + Harvested(goesOn, events), calls, if goesOn then Ranked(reg, events) else [])
  {
    if goesOn {
      assert (harvests + [events])[..|harvests|] == harvests;
      assert |Ranked(reg, events)| == |events|;
    } else {
      assert harvests + [] == harvests;
    }
  }

  /** The events that were pushed have been drained: now all harvests have been served. */
  lemma ServingDrained<CB>(reg: Registry<CB>, harvests: seq<seq<PollEvent>>, calls: seq<Call<CB>>, pushed: seq<Queued>,
                           order: seq<Queued>, more: seq<Call<CB>>)
    requires Serving(reg, harvests, calls, pushed)
    requires Drains(multiset(pushed), order) && RunsAs(order, more) && Chained(reg, more)
    ensures Served(harvests, calls + more)
  {
    if pushed == [] {
      NothingDrained(order);
      assert calls + more == calls;
    } else {
      var init, last := harvests[..|harvests| - 1], harvests[|harvests| - 1];
      LastServed(reg, init, last, calls, order, more);
      assert init + [last] == harvests;
    }
  }

  lemma NothingDrained(order: seq<Queued>)
    requires Drains(multiset([]), order)
    ensures order == []
  {
    DrainIsSorted(multiset([]), order);
    assert |multiset(order)| == |order|;
  }

  lemma {:induction false} CountBelow(s: set<Fd>, n: nat)
    requires forall x :: x in s ==> x < n
    ensures |s| <= n
    decreases n
  {
    if n == 0 {
      assert s == {};
    } else if top :| top in s && top == n - 1 {
      CountBelow(s - {top}, n - 1);
      assert s == (s - {top}) + {top};
    } else {
      CountBelow(s, n - 1);
    }
  }

  /** There are too few descriptors for getSize to go wrong on a registry. */
  lemma SizeIsExact<T>(m: map<Fd, T>)
    ensures AsInt(|m|) == |m| && (AsInt(|m|) > 0 <==> m != map[])
  {
    CountBelow(m.Keys, INT_MAX);
    assert |m.Keys| == |m|;
  }

  class IOReactor<CB(==)> {
    const maxEvents: nat
    const empty: CB                                        // a default-constructed Callback
    const kernel: KernelObject                             // behind epollfd_
    const eventCallback: ThreadSafeMap<Fd, CB>
    const eventPriority: ThreadSafeMap<Fd, EventPriority>
    var eventQueue: multiset<Queued>
    ghost var calls: seq<Call<CB>>                         // the callbacks run so far

    ghost predicate Valid()
    {
      (eventCallback as object) != eventPriority
    }

    /** The two registries. */
    function Reg(): Registry<CB>
      reads eventCallback, eventPriority
    {
      Registry(eventCallback.map_, eventPriority.map_)
    }

    ghost predicate InOrder()
      reads kernel, eventCallback, eventPriority
    {
      Valid() && Coherent(Reg(), kernel.k.watches.Keys)
    }

    constructor (maxEvents: nat, empty: CB, kernel: KernelObject)
      ensures Valid() && this.maxEvents == maxEvents && this.empty == empty && this.kernel == kernel
      ensures Reg() == Registry(map[], map[]) && eventQueue == multiset{} && calls == []
      ensures fresh(eventCallback) && fresh(eventPriority)
    {
      this.maxEvents := maxEvents;
      this.empty := empty;
      this.kernel := kernel;
      var c := new ThreadSafeMap<Fd, CB>();
      var p := new ThreadSafeMap<Fd, EventPriority>();
      eventCallback := c;
      eventPriority := p;
      eventQueue := multiset{};
      calls := [];
    }

    method AsyncAccept(listenSock: Fd, cb: CB) returns (r: int, ghost mid: Kernel)
      requires Valid() && listenSock == kernel.k.listener
      modifies kernel`k, eventCallback, eventPriority
      ensures Evolves(old(kernel.k), mid) && (r == 0 || r == -1)
      ensures r == -1 ==> && Reg() == old(Reg())
                          && kernel.k == Denied(mid, EPOLL_CTL_ADD, listenSock, listenSock !in mid.watches)
      ensures r == 0 ==> && kernel.k == EpollListen(mid)
                         && eventCallback.map_ == old(eventCallback.map_)[listenSock := cb]
                         && eventPriority.map_ == old(eventPriority.map_)[listenSock := LISTEN_SOCK]
      ensures Controls(old(kernel.k.answers), kernel.k.answers, EPOLL_CTL_ADD, listenSock)
      ensures old(InOrder()) ==> InOrder()
    {
      r, mid := kernel.EpollListen();
      EvolvesEverywhere(old(kernel.k), mid);
      if r == -1 {
        return;
      }
      eventCallback.Insert(listenSock, cb);
      eventPriority.Insert(listenSock, LISTEN_SOCK);
    }

    method AddTrack(sockfd: Fd, input: bool, output: bool, priority: EventPriority, cb: CB)
      returns (r: int, ghost mid: Kernel)
      requires Valid()
      modifies kernel`k, eventCallback, eventPriority
      ensures Evolves(old(kernel.k), mid) && (r == 0 || r == -1)
      ensures r == -1 ==> && Reg() == old(Reg())
                          && kernel.k == Denied(mid, EPOLL_CTL_ADD, sockfd, CanAdd(mid, sockfd))
      ensures r == 0 ==> && CanAdd(mid, sockfd) && kernel.k == EpollAdd(mid, sockfd, input, output)
                         && eventCallback.map_ == old(eventCallback.map_)[sockfd := cb]
                         && eventPriority.map_ == old(eventPriority.map_)[sockfd := priority]
      ensures Controls(old(kernel.k.answers), kernel.k.answers, EPOLL_CTL_ADD, sockfd)
      ensures old(InOrder()) ==> InOrder()
    {
      r, mid := kernel.EpollAdd(sockfd, input, output);
      EvolvesEverywhere(old(kernel.k), mid);
      if r == -1 {
        return;
      }
      eventCallback.Insert(sockfd, cb);
      eventPriority.Insert(sockfd, priority);
    }

    method ModifyTrack(sockfd: Fd, input: bool, output: bool, priority: EventPriority, cb: CB)
      returns (r: int, ghost mid: Kernel)
      requires Valid()
      modifies kernel`k, eventCallback, eventPriority
      ensures Evolves(old(kernel.k), mid) && (r == 0 || r == -1)
      ensures r == -1 ==> && Reg() == old(Reg())
                          && kernel.k == Denied(mid, EPOLL_CTL_MOD, sockfd, CanModify(mid, sockfd))
      ensures r == 0 ==> && CanModify(mid, sockfd) && kernel.k == EpollMod(mid, sockfd, input, output)
                         && eventCallback.map_ == old(eventCallback.map_)[sockfd := cb]
                         && eventPriority.map_ == old(eventPriority.map_)[sockfd := priority]
      ensures Controls(old(kernel.k.answers), kernel.k.answers, EPOLL_CTL_MOD, sockfd)
      ensures old(InOrder()) ==> InOrder()
    {
      r, mid := kernel.EpollMod(sockfd, input, output);
      EvolvesEverywhere(old(kernel.k), mid);
      if r == -1 {
        return;
      }
      eventCallback.Insert(sockfd, cb);
      eventPriority.Insert(sockfd, priority);
    }

    /**
     * removeEpollInterest hands the descriptor to epoll_ctl as the operation and EPOLL_CTL_DEL as
     * the descriptor, so only one descriptor can be removed: the one with that number. That one is
     * removed if it is watched, unless epoll_ctl fails for a reason of its own.
     */
    method RemoveTrack(sockfd: Fd) returns (r: int, ghost mid: Kernel)
      requires Valid()
      modifies kernel`k, eventCallback, eventPriority
      ensures Evolves(old(kernel.k), mid) && (r == 0 || r == -1)
      ensures var able := sockfd == 2 && 2 in mid.watches;
              && (r == -1 ==> Reg() == old(Reg()) && kernel.k == Denied(mid, sockfd, 2, able))
              && (r == 0 ==> && able && kernel.k == EpollDel(mid, 2)
                             && eventCallback.map_ == old(eventCallback.map_) - {2}
                             && eventPriority.map_ == old(eventPriority.map_) - {2})
              && (able ==> r == 0 || EndsWith(kernel.k, Ctl(2, 2, Faulted)))
      ensures Controls(old(kernel.k.answers), kernel.k.answers, sockfd, 2)
      ensures old(InOrder()) ==> InOrder()
    {
      r, mid := kernel.EpollCtl(sockfd, EPOLL_CTL_DEL);
      EvolvesEverywhere(old(kernel.k), mid);
      if r == -1 {
        return;
      }
      var _ := eventCallback.Remove(sockfd);
      var _ := eventPriority.Remove(sockfd);
    }

    /** Whatever is registered or watched, but for `fd`, stays so. */
    twostate predicate KeepsOthers(fd: Fd)
      reads eventCallback, eventPriority
    {
      forall g :: g in old(eventCallback.map_) && g != fd ==> g in eventCallback.map_
    }

    /**
     * cb(ev). What is known of a callback is this contract: it may change the registries and the
     * kernel as it likes, but keeps them coherent, takes no descriptor out of the registries but
     * its own, leaves the queue alone and does not wait. The body is one such callback.
     */
    method Invoke(cb: CB, ev: PollEvent)
      requires InOrder()
      modifies this`calls, kernel`k, eventCallback, eventPriority
      ensures InOrder() && KeepsOthers(ev.fd) && calls == old(calls) + [Call(cb, ev, old(Reg()), Reg())]
      ensures |old(kernel.k.answers)| <= |kernel.k.answers|
    {
      ghost var before := Reg();
      var todo: nat := *;
      while todo > 0
        invariant InOrder() && KeepsOthers(ev.fd) && calls == old(calls)
        invariant |old(kernel.k.answers)| <= |kernel.k.answers|
      {
        var fd: Fd :| fd >= 0;
        var priority: EventPriority := *;
        var other: CB := cb;
        var input: bool, output: bool, choice: int := *, *, *;
        if choice == 0 {
          var _, _ := AddTrack(fd, input, output, priority, other);
        } else if choice == 1 {
          var _, _ := ModifyTrack(fd, input, output, priority, other);
        } else if choice == 2 {
          var _, _ := RemoveTrack(ev.fd);
        } else if choice == 3 {
          var was := kernel.k;
          var _, _, _, _, mid := kernel.AcceptConnection();
          EvolvesEverywhere(was, mid);
        } else {
          kernel.Close(fd);
        }
        todo := todo - 1;
      }
      calls := calls + [Call(cb, ev, before, Reg())];
    }

    method RunCallback(newEvent: Queued) returns (r: int)
      requires InOrder()
      modifies this`calls, kernel`k, eventCallback, eventPriority
      ensures InOrder() && KeepsOthers(newEvent.event.fd) && |old(kernel.k.answers)| <= |kernel.k.answers|
      ensures r == 0 <==> newEvent.event.fd in old(eventCallback.map_)
      ensures r == 0 ==> calls == old(calls) + [Call(old(eventCallback.map_)[newEvent.event.fd], newEvent.event,
                                                     old(Reg()), Reg())]
      ensures r != 0 ==> Reg() == old(Reg()) && kernel.k == old(kernel.k) && calls == old(calls)
    {
      var tempFd := newEvent.event.fd;
      var found, cb := eventCallback.Get(tempFd, empty);
      if found {
        Invoke(cb, newEvent.event);
        return 0;
      } else {
        return -1;
      }
    }

    /** Nobody is told twice: the waiting events are for different descriptors, all registered. */
    ghost predicate QueueInOrder()
      reads this`eventQueue, eventCallback
    {
      && |eventQueue| <= maxEvents
      && (forall x :: x in eventQueue ==> x.event.fd in eventCallback.map_ && eventQueue[x] == 1)
      && (forall x, y :: x in eventQueue && y in eventQueue && x.event.fd == y.event.fd ==> x == y)
    }

    method Pop(x: Queued)
      requires |eventQueue| <= maxEvents && x in eventQueue
      requires forall y :: y in eventQueue ==> eventQueue[y] == 1 && (y == x || y.event.fd in eventCallback.map_)
      requires forall y, z :: y in eventQueue && z in eventQueue && y.event.fd == z.event.fd ==> y == z
      modifies this`eventQueue
      ensures QueueInOrder() && eventQueue == old(eventQueue) - multiset{x}
    {
      var rest := eventQueue - multiset{x};
      assert forall y :: y in rest ==> y in eventQueue && y != x && rest[y] == eventQueue[y];
      eventQueue := rest;
    }

    /** Run the callback of a top event, then pop it. */
    method RunTop() returns (ghost top: Queued, ghost call: Call<CB>, r: int)
      requires InOrder() && QueueInOrder() && eventQueue != multiset{}
      modifies this`eventQueue, this`calls, kernel`k, eventCallback, eventPriority
      ensures InOrder() && QueueInOrder()
      ensures Top(old(eventQueue), top) && eventQueue == old(eventQueue) - multiset{top} && r == 0
      ensures forall y :: y in old(eventQueue) ==>
                && (top.priority == HELPER_SOCK ==> y.priority == HELPER_SOCK)
                && (y.priority == LISTEN_SOCK ==> top.priority == LISTEN_SOCK)
      ensures calls == old(calls) + [call] && Found(call) && |old(kernel.k.answers)| <= |kernel.k.answers|
      ensures call.event == top.event && call.before == old(Reg()) && call.after == Reg()
    {
      TopExists(eventQueue);
      var next :| next in eventQueue && Top(eventQueue, next);
      r := RunCallback(next);
      top, call := next, calls[|calls| - 1];
      Pop(next);
    }

    /** Dequeue all the pending event handlers: the inner loop of reactorRun. */
    method Drain() returns (ghost order: seq<Queued>, ghost more: seq<Call<CB>>)
      requires InOrder() && QueueInOrder()
      modifies this`eventQueue, this`calls, kernel`k, eventCallback, eventPriority
      ensures InOrder() && eventQueue == multiset{} && |old(kernel.k.answers)| <= |kernel.k.answers|
      ensures Drains(old(eventQueue), order) && calls == old(calls) + more && RunsAs(order, more)
      ensures forall i, j :: 0 <= i < j < |order| ==>
                && (order[i].priority == HELPER_SOCK ==> order[j].priority == HELPER_SOCK)
                && (order[j].priority == LISTEN_SOCK ==> order[i].priority == LISTEN_SOCK)
      ensures Chained(old(Reg()), more) && Reg() == RegAfter(old(Reg()), more)
    {
      order, more := [], [];
      DrainBegins(eventQueue, Reg());
      while eventQueue != multiset{}
        invariant InOrder() && QueueInOrder() && calls == old(calls) + more
        invariant Draining(old(eventQueue), eventQueue, old(Reg()), Reg(), order, more)
        invariant |old(kernel.k.answers)| <= |kernel.k.answers|
        decreases |eventQueue|
      {
        ghost var rest, reg := eventQueue, Reg();
        ghost var top, call;
        var r;
        top, call, r := RunTop();
        DrainGoesOn(old(eventQueue), rest, old(Reg()), reg, order, more, top, call);
        AppendAssociates(old(calls), more, [call]);
        order, more := order + [top], more + [call];
      }
      DrainEnds(old(eventQueue), old(Reg()), Reg(), order, more);
      DrainInPriority(old(eventQueue), order);
    }

    /** The harvest is pushed event by event, each with the priority registered at that moment. */
    method PushAll(events: seq<PollEvent>) returns (ghost pushed: seq<Queued>)
      requires InOrder() && eventQueue == multiset{} && |events| <= maxEvents
      requires forall i, j :: 0 <= i < j < |events| ==> events[i].fd != events[j].fd
      requires forall i :: 0 <= i < |events| ==> events[i].fd in kernel.k.watches
      modifies this`eventQueue
      ensures pushed == Ranked(Reg(), events) && eventQueue == multiset(pushed) && QueueInOrder()
      ensures forall i :: 0 <= i < |events| ==>
                && pushed[i].event == events[i]
                && pushed[i].priority == if events[i].fd in eventPriority.map_ then eventPriority.map_[events[i].fd]
                                         else NEW_SOCK
    {
      pushed := [];
      for i := 0 to |events|
        invariant pushed == Ranked(Reg(), events)[..i] && eventQueue == multiset(pushed)
      {
        var tempFd := events[i].fd;
        var _, evPriority := eventPriority.Get(tempFd, NEW_SOCK);
        eventQueue := eventQueue + multiset{Queued(evPriority, events[i])};
        assert Ranked(Reg(), events)[..i + 1] == Ranked(Reg(), events)[..i] + [Queued(evPriority, events[i])];
        pushed := pushed + [Queued(evPriority, events[i])];
      }
      assert Ranked(Reg(), events)[..|events|] == Ranked(Reg(), events);
      RankedDistinct(pushed);
      RankedKnown(Reg(), events, kernel.k.watches.Keys);
      assert |eventQueue| == |pushed|;
    }

    /** Wait for new events and push them: the second half of reactorRun's loop. */
    method Harvest() returns (numEvents: int, events: seq<PollEvent>, ghost pushed: seq<Queued>)
      requires InOrder() && eventQueue == multiset{}
      modifies this`eventQueue, kernel
      ensures InOrder() && QueueInOrder() && eventQueue == multiset(pushed)
      ensures |kernel.k.answers| == |old(kernel.k.answers)| + 1
      ensures numEvents == -1 ==> && pushed == [] && kernel.harvests == old(kernel.harvests)
                                  && kernel.patience == old(kernel.patience) && EndsWith(kernel.k, WaitFailed)
      ensures numEvents != -1 ==>
                && 1 <= |events| <= maxEvents && kernel.patience < old(kernel.patience)
                && kernel.harvests == old(kernel.harvests) + [events] && pushed == Ranked(Reg(), events)
                && EndsWith(kernel.k, Waited(events))
    {
      pushed := [];
      ghost var mid, dropped;
      numEvents, events, mid, dropped := kernel.EpollWait(maxEvents);
      EvolvesEverywhere(old(kernel.k), mid);
      if numEvents != -1 {
        assert forall i :: 0 <= i < |events| ==> Reports(mid, events[i]);
        pushed := PushAll(events);
      }
    }

    /** Wait for new events only if there are callbacks, otherwise yield. */
    method Wait(ghost harvests: seq<seq<PollEvent>>, ghost more: seq<Call<CB>>)
      returns (goesOn: bool, status: int, ghost newHarvests: seq<seq<PollEvent>>, ghost pushed: seq<Queued>)
      requires InOrder() && eventQueue == multiset{} && Served(harvests, more)
      modifies this`eventQueue, kernel
      ensures InOrder() && QueueInOrder() && eventQueue == multiset(pushed)
      ensures kernel.harvests == old(kernel.harvests) + newHarvests
      ensures Serving(Reg(), harvests + newHarvests, more, pushed)
      ensures |old(kernel.k.answers)| <= |kernel.k.answers|
      ensures goesOn ==> kernel.patience < old(kernel.patience)
      ensures !goesOn ==>
                && kernel.patience <= old(kernel.patience) && pushed == []
                && if Reg().callbacks == map[] then status == 0
                   else status == -1 && EndsWith(kernel.k, WaitFailed) && |old(kernel.k.answers)| < |kernel.k.answers|
      ensures Reg().callbacks == map[] ==> !goesOn && kernel.k == old(kernel.k)
    {
      pushed := [];
      var size := eventCallback.GetSize();
      SizeIsExact(eventCallback.map_);
      if size > 0 {
        var numEvents, events;
        numEvents, events, pushed := Harvest();
        goesOn, status, newHarvests := numEvents != -1, -1, Harvested(numEvents != -1, events);
        ServingWait(Reg(), harvests, more, goesOn, events);
      } else {
        goesOn, status, newHarvests := false, 0, Harvested(false, []);
        ServingWait(Reg(), harvests, more, false, []);
      }
    }

    /**
     * reactorRun. Each harvest is served completely before the next: its events run once each,
     * none after one whose priority number was greater at the time of the harvest, each with the
     * callback that is registered when it runs, and the registries change in callbacks only.
     * `harvests` is all that epoll_wait has returned meanwhile, `more` the callbacks that were
     * run. The queue is empty whenever epoll_wait is called, and when the reactor returns: with
     * -1 right after epoll_wait has failed, with 0 when no callback is registered any more.
     */
    method ReactorRun() returns (status: int, ghost harvests: seq<seq<PollEvent>>, ghost more: seq<Call<CB>>)
      requires InOrder() && eventQueue == multiset{}
      modifies this, kernel, eventCallback, eventPriority
      ensures InOrder() && eventQueue == multiset{}
      ensures kernel.harvests == old(kernel.harvests) + harvests && calls == old(calls) + more
      ensures Served(harvests, more) && InPriority(harvests, more)
      ensures Chained(old(Reg()), more) && Reg() == RegAfter(old(Reg()), more)
      ensures if Reg().callbacks == map[] then status == 0
              else status == -1 && EndsWith(kernel.k, WaitFailed) && |old(kernel.k.answers)| < |kernel.k.answers|
    {
      var goesOn := true;
      status, harvests, more := 0, [], [];
      ghost var pushed: seq<Queued> := [];
      while goesOn
        invariant InOrder() && QueueInOrder() && eventQueue == multiset(pushed)
        invariant kernel.harvests == old(kernel.harvests) + harvests && calls == old(calls) + more
        invariant Serving(Reg(), harvests, more, pushed)
        invariant Chained(old(Reg()), more) && Reg() == RegAfter(old(Reg()), more)
        invariant |old(kernel.k.answers)| <= |kernel.k.answers|
        invariant !goesOn ==> pushed == []
        invariant !goesOn ==>
                    if Reg().callbacks == map[] then status == 0
                    else status == -1 && EndsWith(kernel.k, WaitFailed) && |old(kernel.k.answers)| < |kernel.k.answers|
        decreases kernel.patience, goesOn
      {
        ghost var newCalls, newHarvests;
        goesOn, status, newCalls, newHarvests, pushed := Turn(old(Reg()), harvests, more, pushed);
        AppendAssociates(old(calls), more, newCalls);
        AppendAssociates(old(kernel.harvests), harvests, newHarvests);
        more, harvests := more + newCalls, harvests + newHarvests;
      }
      ServedInPriority(harvests, more);
    }

    /** One round of the loop. */
    method Turn(ghost reg: Registry<CB>, ghost harvests: seq<seq<PollEvent>>, ghost more: seq<Call<CB>>,
                ghost pushed: seq<Queued>)
      returns (goesOn: bool, status: int, ghost newCalls: seq<Call<CB>>, ghost newHarvests: seq<seq<PollEvent>>,
               ghost pushed': seq<Queued>)
      requires InOrder() && QueueInOrder() && eventQueue == multiset(pushed)
      requires Serving(Reg(), harvests, more, pushed) && Chained(reg, more) && Reg() == RegAfter(reg, more)
      modifies this`eventQueue, this`calls, kernel, eventCallback, eventPriority
      ensures InOrder() && QueueInOrder() && eventQueue == multiset(pushed')
      ensures calls == old(calls) + newCalls && kernel.harvests == old(kernel.harvests) + newHarvests
      ensures Serving(Reg(), harvests + newHarvests, more + newCalls, pushed')
      ensures Chained(reg, more + newCalls) && Reg() == RegAfter(reg, more + newCalls)
      ensures |old(kernel.k.answers)| <= |kernel.k.answers|
      ensures if goesOn then kernel.patience < old(kernel.patience) else kernel.patience <= old(kernel.patience)
      ensures !goesOn ==>
                && pushed' == []
                && if Reg().callbacks == map[] then status == 0
                   else status == -1 && EndsWith(kernel.k, WaitFailed) && |old(kernel.k.answers)| < |kernel.k.answers|
    {
      newCalls := DrainAll(reg, harvests, more, pushed);
      goesOn, status, newHarvests, pushed' := Wait(harvests, more + newCalls);
    }

    /** Drain, for what reactorRun says of it. */
    method DrainAll(ghost reg: Registry<CB>, ghost harvests: seq<seq<PollEvent>>, ghost more: seq<Call<CB>>,
                    ghost pushed: seq<Queued>)
      returns (ghost newCalls: seq<Call<CB>>)
      requires InOrder() && QueueInOrder() && eventQueue == multiset(pushed)
      requires Serving(Reg(), harvests, more, pushed) && Chained(reg, more) && Reg() == RegAfter(reg, more)
      modifies this`eventQueue, this`calls, kernel`k, eventCallback, eventPriority
      ensures InOrder() && eventQueue == multiset{} && calls == old(calls) + newCalls
      ensures |old(kernel.k.answers)| <= |kernel.k.answers|
      ensures Served(harvests, more + newCalls)
      ensures Chained(reg, more + newCalls) && Reg() == RegAfter(reg, more + newCalls)
    {
      ghost var before, order := Reg(), [];
      order, newCalls := Drain();
      ServingDrained(before, harvests, more, pushed, order, newCalls);
      ChainedJoin(reg, more, newCalls);
    }
  }

  lemma RankedKnown<CB>(reg: Registry<CB>, events: seq<PollEvent>, watched: set<Fd>)
    requires Coherent(reg, watched) && forall i :: 0 <= i < |events| ==> events[i].fd in watched
    ensures forall x :: x in multiset(Ranked(reg, events)) ==> x.event.fd in reg.callbacks
  {
    forall x | x in multiset(Ranked(reg, events)) ensures x.event.fd in reg.callbacks {
      var i :| 0 <= i < |events| && Ranked(reg, events)[i] == x;
      assert events[i].fd in reg.callbacks.Keys;
    }
  }

  lemma RankedDistinct(q: seq<Queued>)
    requires forall i, j :: 0 <= i < j < |q| ==> q[i].event.fd != q[j].event.fd
    ensures forall x :: x in multiset(q) ==> multiset(q)[x] == 1
    ensures forall x, y :: x in multiset(q) && y in multiset(q) && x.event.fd == y.event.fd ==> x == y
  {
    forall x | x in multiset(q) ensures multiset(q)[x] == 1 {
      var i :| 0 <= i < |q| && q[i] == x;
      assert q == q[..i] + [q[i]] + q[i + 1..];
      assert q[i] !in q[..i] && q[i] !in q[i + 1..];
    }
  }
}
