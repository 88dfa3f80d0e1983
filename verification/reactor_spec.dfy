// The values behind IOReactor: priorities, the two registries, and the order in which the
// priority queue lets events out. include/reactor.h.

module ReactorSpec {
  import opened KernelModel

  datatype EventPriority = LISTEN_SOCK | NEW_SOCK | HELPER_SOCK

  function Rank(p: EventPriority): nat
  {
    match p
    case LISTEN_SOCK => 0
    case NEW_SOCK => 1
    case HELPER_SOCK => 2
  }

  /** A queued event and the priority it was queued with. */
  datatype Queued = Queued(priority: EventPriority, event: PollEvent)

  /** PQComparator puts the smallest number on top; which of several equals is not said. */
  predicate Top(queue: multiset<Queued>, x: Queued)
  {
    x in queue && forall y :: y in queue ==> Rank(x.priority) <= Rank(y.priority)
  }

  /** event_callback_ and event_priority_. */
  datatype Registry<CB> = Registry(callbacks: map<Fd, CB>, priorities: map<Fd, EventPriority>)

  function Track<CB>(r: Registry<CB>, fd: Fd, priority: EventPriority, cb: CB): Registry<CB>
  {
    Registry(r.callbacks[fd := cb], r.priorities[fd := priority])
  }

  /** Both registries have the same keys, and everything the kernel watches is one of them. */
  predicate Coherent<CB>(r: Registry<CB>, watched: set<Fd>)
  {
    r.callbacks.Keys == r.priorities.Keys && watched <= r.callbacks.Keys
  }

  /** The priority an event is queued with; NEW_SOCK if none is registered. */
  function PriorityOf<CB>(r: Registry<CB>, fd: Fd): EventPriority
  {
    if fd in r.priorities then r.priorities[fd] else NEW_SOCK
  }

  /** The harvested events, each with its priority at that moment. */
  function Ranked<CB>(r: Registry<CB>, batch: seq<PollEvent>): (q: seq<Queued>)
    ensures |q| == |batch|
    ensures forall i :: 0 <= i < |batch| ==> q[i] == Queued(PriorityOf(r, batch[i].fd), batch[i])
  {
    seq(|batch|, i requires 0 <= i < |batch| => Queued(PriorityOf(r, batch[i].fd), batch[i]))
  }

  // ---- The order of a drain ----

  /** Popping the top until nothing is left may let the events out in this order. */
  ghost predicate Drains(queue: multiset<Queued>, order: seq<Queued>)
    decreases |order|
  {
    if order == [] then queue == multiset{}
    else Top(queue, order[0]) && Drains(queue - multiset{order[0]}, order[1..])
  }

  predicate Sorted(order: seq<Queued>)
  {
    forall i, j :: 0 <= i < j < |order| ==> Rank(order[i].priority) <= Rank(order[j].priority)
  }

  lemma SplitHead(order: seq<Queued>)
    requires order != []
    ensures multiset(order) == multiset{order[0]} + multiset(order[1..])
  {
    assert order == [order[0]] + order[1..];
  }

  lemma {:induction false} DrainIsSorted(queue: multiset<Queued>, order: seq<Queued>)
    requires Drains(queue, order)
    ensures multiset(order) == queue && Sorted(order)
    decreases |order|
  {
    if order != [] {
      DrainIsSorted(queue - multiset{order[0]}, order[1..]);
      SplitHead(order);
      forall i, j | 0 <= i < j < |order| ensures Rank(order[i].priority) <= Rank(order[j].priority) {
        if i == 0 {
          assert order[j] in multiset(order);
        } else {
          assert order[i] == order[1..][i - 1] && order[j] == order[1..][j - 1];
        }
      }
    }
  }

  lemma {:induction false} SortedIsDrain(order: seq<Queued>)
    requires Sorted(order)
    ensures Drains(multiset(order), order)
    decreases |order|
  {
    if order != [] {
      SplitHead(order);
      SortedIsDrain(order[1..]);
      assert multiset(order) - multiset{order[0]} == multiset(order[1..]);
      forall y | y in multiset(order) ensures Rank(order[0].priority) <= Rank(y.priority) {
        var j :| 0 <= j < |order| && order[j] == y;
      }
    }
  }

  /**
   * The orders in which a batch can be dispatched are exactly its permutations in which the
   * priority number does not decrease.
   */
  lemma DrainOrders(queue: multiset<Queued>, order: seq<Queued>)
    ensures Drains(queue, order) <==> multiset(order) == queue && Sorted(order)
  {
    if Drains(queue, order) {
      DrainIsSorted(queue, order);
    }
    if multiset(order) == queue && Sorted(order) {
      SortedIsDrain(order);
    }
  }

  /** The order of EventPriority, for a drain. */
  lemma DrainInPriority(queue: multiset<Queued>, order: seq<Queued>)
    requires Drains(queue, order)
    ensures forall i, j :: 0 <= i < j < |order| ==>
              && (order[i].priority == HELPER_SOCK ==> order[j].priority == HELPER_SOCK)
              && (order[j].priority == LISTEN_SOCK ==> order[i].priority == LISTEN_SOCK)
  {
    DrainIsSorted(queue, order);
    forall i, j | 0 <= i < j < |order|
      ensures order[i].priority == HELPER_SOCK ==> order[j].priority == HELPER_SOCK
      ensures order[j].priority == LISTEN_SOCK ==> order[i].priority == LISTEN_SOCK
    {
      assert Rank(order[i].priority) <= Rank(order[j].priority);
    }
  }

  /** One more event popped at the end of a drain. */
  lemma {:induction false} DrainsPush(queue: multiset<Queued>, order: seq<Queued>, rest: multiset<Queued>, x: Queued)
    requires queue == multiset(order) + rest && Sorted(order) && Top(rest, x)
    requires forall y, z :: y in order && z in rest ==> Rank(y.priority) <= Rank(z.priority)
    ensures queue == multiset(order + [x]) + (rest - multiset{x}) && Sorted(order + [x])
    ensures forall y, z :: y in order + [x] && z in rest - multiset{x} ==> Rank(y.priority) <= Rank(z.priority)
  {
    assert rest == multiset{x} + (rest - multiset{x});
    forall i, j | 0 <= i < j < |order + [x]|
      ensures Rank((order + [x])[i].priority) <= Rank((order + [x])[j].priority)
    {
      if j == |order| { assert order[i] in order; }
    }
  }

  /** A queue with an event in it has a top. */
  lemma {:induction false} TopExists(queue: multiset<Queued>)
    requires queue != multiset{}
    ensures exists x :: Top(queue, x)
    decreases |queue|
  {
    var y :| y in queue;
    var rest := queue - multiset{y};
    if rest == multiset{} {
      assert queue == multiset{y};
      assert Top(queue, y);
    } else {
      TopExists(rest);
      var z :| Top(rest, z);
      assert queue == rest + multiset{y};
      var x := if Rank(y.priority) <= Rank(z.priority) then y else z;
      assert Top(queue, x);
    }
  }

  // ---- What the reactor has done ----

  /** One callback run: what was called, with which event, and the registries around the call. */
  datatype Call<CB> = Call(cb: CB, event: PollEvent, before: Registry<CB>, after: Registry<CB>)

  /** The callback was the one registered for the event's descriptor when it was called. */
  ghost predicate Found<CB>(c: Call<CB>)
  {
    c.event.fd in c.before.callbacks && c.cb == c.before.callbacks[c.event.fd]
  }

  function EventsOf(order: seq<Queued>): (events: seq<PollEvent>)
    ensures |events| == |order| && forall i :: 0 <= i < |order| ==> events[i] == order[i].event
  {
    seq(|order|, i requires 0 <= i < |order| => order[i].event)
  }

  function EventsRun<CB>(calls: seq<Call<CB>>): (events: seq<PollEvent>)
    ensures |events| == |calls| && forall i :: 0 <= i < |calls| ==> events[i] == calls[i].event
  {
    seq(|calls|, i requires 0 <= i < |calls| => calls[i].event)
  }

  /**
   * The calls have served the harvest `events`: every event once, none after one whose priority
   * number was greater at the time of the harvest, and each with its callback.
   */
  ghost predicate ServedBatch<CB>(events: seq<PollEvent>, calls: seq<Call<CB>>)
  {
    forall run {:trigger AreRun(run, calls)} :: AreRun(run, calls) ==>
      && |calls| > 0 && multiset(run) == multiset(events) && Sorted(Ranked(calls[0].before, run))
      && forall i :: 0 <= i < |calls| ==> Found(calls[i])
  }

  /** `run` are the events that the calls have run; there is just one such list. */
  predicate AreRun<CB>(run: seq<PollEvent>, calls: seq<Call<CB>>)
  {
    run == EventsRun(calls)
  }

  /** The calls have served the harvests one after the other. */
  ghost predicate Served<CB>(harvests: seq<seq<PollEvent>>, calls: seq<Call<CB>>)
  {
    if harvests == [] then calls == []
    else
      var n := |harvests| - 1;
      && |harvests[n]| <= |calls|
      && Served(harvests[..n], calls[..|calls| - |harvests[n]|])
      && ServedBatch(harvests[n], calls[|calls| - |harvests[n]|..])
  }

  function RegAfter<CB>(reg: Registry<CB>, calls: seq<Call<CB>>): Registry<CB>
  {
    if calls == [] then reg else calls[|calls| - 1].after
  }

  /** The last call has returned, and left `reg`. */
  function Finished<CB>(calls: seq<Call<CB>>, reg: Registry<CB>): seq<Call<CB>>
  {
    if calls == [] then calls else calls[|calls| - 1 := calls[|calls| - 1].(after := reg)]
  }

  /** From `reg` on, the registries have changed in callbacks only. */
  ghost predicate Chained<CB>(reg: Registry<CB>, calls: seq<Call<CB>>)
  {
    if calls == [] then true
    else
      var n := |calls| - 1;
      Chained(reg, calls[..n]) && calls[n].before == RegAfter(reg, calls[..n])
  }

  lemma {:induction false} ChainedPush<CB>(reg: Registry<CB>, calls: seq<Call<CB>>, c: Call<CB>)
    requires Chained(reg, calls) && c.before == RegAfter(reg, calls)
    ensures Chained(reg, calls + [c]) && RegAfter(reg, calls + [c]) == c.after
  {
    assert (calls + [c])[..|calls|] == calls;
  }

  lemma {:induction false} ChainedJoin<CB>(reg: Registry<CB>, calls: seq<Call<CB>>, more: seq<Call<CB>>)
    requires Chained(reg, calls) && Chained(RegAfter(reg, calls), more)
    ensures Chained(reg, calls + more) && RegAfter(reg, calls + more) == RegAfter(RegAfter(reg, calls), more)
  {
    if more == [] {
      assert calls + more == calls;
    } else {
      var n := |more| - 1;
      ChainedJoin(reg, calls, more[..n]);
      ChainedPush(reg, calls + more[..n], more[n]);
      assert calls + more == calls + more[..n] + [more[n]];
    }
  }

  lemma {:induction false} ChainedFirst<CB>(reg: Registry<CB>, calls: seq<Call<CB>>)
    requires Chained(reg, calls) && calls != []
    ensures calls[0].before == reg
  {
    var n := |calls| - 1;
    if n > 0 {
      ChainedFirst(reg, calls[..n]);
    }
  }

  /** The calls have run the events of `order`, one for one. */
  ghost predicate RunsAs<CB>(order: seq<Queued>, calls: seq<Call<CB>>)
  {
    && |calls| == |order|
    && (calls == [] ||
        var n := |calls| - 1;
        RunsAs(order[..n], calls[..n]) && calls[n].event == order[n].event && Found(calls[n]))
  }

  lemma {:induction false} RunsAsPush<CB>(order: seq<Queued>, calls: seq<Call<CB>>, x: Queued, c: Call<CB>)
    requires RunsAs(order, calls) && Found(c) && c.event == x.event
    ensures RunsAs(order + [x], calls + [c])
  {
    assert (order + [x])[..|calls|] == order && (calls + [c])[..|calls|] == calls;
  }

  lemma {:induction false} RunsAsEach<CB>(order: seq<Queued>, calls: seq<Call<CB>>)
    requires RunsAs(order, calls)
    ensures EventsRun(calls) == EventsOf(order)
    ensures forall i :: 0 <= i < |calls| ==> Found(calls[i])
  {
    if calls != [] {
      var n := |calls| - 1;
      RunsAsEach(order[..n], calls[..n]);
      assert EventsRun(calls) == EventsRun(calls[..n]) + [calls[n].event];
      assert EventsOf(order) == EventsOf(order[..n]) + [order[n].event];
      forall i | 0 <= i < |calls| ensures Found(calls[i]) {
        if i < n { assert Found(calls[..n][i]); }
      }
    }
  }

  lemma TakenOut(b: seq<Queued>, i: nat) returns (rest: seq<Queued>)
    requires i < |b|
    ensures |rest| < |b| && multiset(rest) == multiset(b) - multiset{b[i]}
    ensures multiset(EventsOf(b)) == multiset(EventsOf(rest)) + multiset{b[i].event}
  {
    rest := b[..i] + b[i + 1..];
    assert b == b[..i] + [b[i]] + b[i + 1..];
    assert EventsOf(b) == EventsOf(b[..i]) + [b[i].event] + EventsOf(b[i + 1..]);
    assert EventsOf(rest) == EventsOf(b[..i]) + EventsOf(b[i + 1..]);
  }

  /** The queue `queue` has been drained down to `rest`, and the registries have come from `reg` to `now`. */
  ghost predicate Draining<CB>(queue: multiset<Queued>, rest: multiset<Queued>, reg: Registry<CB>, now: Registry<CB>,
                               order: seq<Queued>, calls: seq<Call<CB>>)
  {
    && RunsAs(order, calls) && Chained(reg, calls) && now == RegAfter(reg, calls)
    && queue == multiset(order) + rest && Sorted(order)
    && forall y, z :: y in order && z in rest ==> Rank(y.priority) <= Rank(z.priority)
  }

  lemma DrainBegins<CB>(queue: multiset<Queued>, reg: Registry<CB>)
    ensures Draining(queue, queue, reg, reg, [], [])
  {
    assert multiset([]) + queue == queue;
  }

  lemma DrainGoesOn<CB>(queue: multiset<Queued>, rest: multiset<Queued>, reg: Registry<CB>, now: Registry<CB>,
                        order: seq<Queued>, calls: seq<Call<CB>>, x: Queued, c: Call<CB>)
    requires Draining(queue, rest, reg, now, order, calls) && Top(rest, x)
    requires Found(c) && c.event == x.event && c.before == now
    ensures Draining(queue, rest - multiset{x}, reg, c.after, order + [x], calls + [c])
  {
    DrainsPush(queue, order, rest, x);
    RunsAsPush(order, calls, x, c);
    ChainedPush(reg, calls, c);
  }

  lemma DrainEnds<CB>(queue: multiset<Queued>, reg: Registry<CB>, now: Registry<CB>, order: seq<Queued>,
                      calls: seq<Call<CB>>)
    requires Draining(queue, multiset{}, reg, now, order, calls)
    ensures Drains(queue, order) && RunsAs(order, calls) && Chained(reg, calls) && now == RegAfter(reg, calls)
  {
    assert multiset(order) == queue;
    DrainOrders(queue, order);
  }

  lemma {:induction false} SameEvents(a: seq<Queued>, b: seq<Queued>)
    requires multiset(a) == multiset(b)
    ensures multiset(EventsOf(a)) == multiset(EventsOf(b))
    decreases |a|
  {
    if a == [] {
      assert |multiset(a)| == |multiset(b)|;
    } else {
      assert a[0] in multiset(b);
      var i :| 0 <= i < |b| && b[i] == a[0];
      var a' := TakenOut(a, 0);
      var b' := TakenOut(b, i);
      SameEvents(a', b');
    }
  }

  /** What was queued with the priorities of `reg` comes out with them. */
  lemma RankedAgain<CB>(reg: Registry<CB>, events: seq<PollEvent>, order: seq<Queued>)
    requires multiset(order) == multiset(Ranked(reg, events))
    ensures order == Ranked(reg, EventsOf(order)) && multiset(EventsOf(order)) == multiset(events)
  {
    var q := Ranked(reg, events);
    SameEvents(order, q);
    assert EventsOf(q) == events;
    forall i | 0 <= i < |order| ensures order[i] == Ranked(reg, EventsOf(order))[i] {
      assert order[i] in multiset(order);
      var j :| 0 <= j < |q| && q[j] == order[i];
    }
  }

  /** Draining a harvest serves it. */
  lemma DrainServes<CB>(reg: Registry<CB>, events: seq<PollEvent>, order: seq<Queued>, calls: seq<Call<CB>>)
    requires Drains(multiset(Ranked(reg, events)), order) && RunsAs(order, calls)
    requires events != [] && Chained(reg, calls)
    ensures ServedBatch(events, calls)
  {
    DrainIsSorted(multiset(Ranked(reg, events)), order);
    RankedAgain(reg, events, order);
    RunsAsEach(order, calls);
    assert |calls| == |multiset(EventsOf(order))| == |events|;
    ChainedFirst(reg, calls);
  }

  /** One more harvest served. */
  lemma ServedPush<CB>(harvests: seq<seq<PollEvent>>, calls: seq<Call<CB>>, events: seq<PollEvent>, more: seq<Call<CB>>)
    requires Served(harvests, calls) && ServedBatch(events, more)
    ensures Served(harvests + [events], calls + more)
  {
    assert AreRun(EventsRun(more), more);
    assert |more| == |multiset(EventsRun(more))| == |multiset(events)| == |events|;
    assert (harvests + [events])[..|harvests|] == harvests;
    assert (calls + more)[..|calls|] == calls && (calls + more)[|calls|..] == more;
  }

  lemma LastServed<CB>(reg: Registry<CB>, init: seq<seq<PollEvent>>, last: seq<PollEvent>, calls: seq<Call<CB>>,
                       order: seq<Queued>, more: seq<Call<CB>>)
    requires Served(init, calls) && last != []
    requires Drains(multiset(Ranked(reg, last)), order) && RunsAs(order, more) && Chained(reg, more)
    ensures Served(init + [last], calls + more)
  {
    DrainServes(reg, last, order, more);
    ServedPush(init, calls, last, more);
  }

  lemma AppendAssociates<T>(a: seq<T>, b: seq<T>, c: seq<T>)
    ensures (a + b) + c == a + (b + c)
  {
  }

  /** How many events the first `k` harvests hold. */
  function Before(harvests: seq<seq<PollEvent>>, k: nat): nat
    requires k <= |harvests|
  {
    if k == 0 then 0 else Before(harvests, k - 1) + |harvests[k - 1]|
  }

  lemma {:induction false} BeforePrefix(harvests: seq<seq<PollEvent>>, n: nat, k: nat)
    requires k <= n <= |harvests|
    ensures Before(harvests[..n], k) == Before(harvests, k)
  {
    if k > 0 {
      BeforePrefix(harvests, n, k - 1);
    }
  }

  lemma {:induction false} ServedLength<CB>(harvests: seq<seq<PollEvent>>, calls: seq<Call<CB>>)
    requires Served(harvests, calls)
    ensures |calls| == Before(harvests, |harvests|)
    decreases |harvests|
  {
    if harvests != [] {
      var n := |harvests| - 1;
      ServedLength(harvests[..n], calls[..|calls| - |harvests[n]|]);
      BeforePrefix(harvests, n, n);
    }
  }

  lemma SliceOfPrefix<T>(s: seq<T>, n: nat, i: nat, j: nat)
    requires i <= j <= n <= |s|
    ensures s[..n][i..j] == s[i..j]
  {
  }

  /** Where each harvest is served: right after all earlier ones, in as many calls as it has events. */
  lemma {:induction false} BatchAt<CB>(harvests: seq<seq<PollEvent>>, calls: seq<Call<CB>>, k: nat)
    returns (batch: seq<Call<CB>>)
    requires Served(harvests, calls) && k < |harvests|
    ensures ServedBatch(harvests[k], batch) && |batch| == |harvests[k]|
    ensures var i := Before(harvests, k);
            i + |harvests[k]| <= |calls| && batch == calls[i..i + |harvests[k]|]
    decreases |harvests|
  {
    var n := |harvests| - 1;
    var m := |calls| - |harvests[n]|;
    if k < n {
      batch := BatchAt(harvests[..n], calls[..m], k);
      BeforePrefix(harvests, n, k);
      SliceOfPrefix(calls, m, Before(harvests, k), Before(harvests, k) + |harvests[k]|);
    } else {
      ServedLength(harvests, calls);
      batch := calls[m..];
    }
  }

  /**
   * The order of EventPriority: within a batch, an event registered HELPER_SOCK at the time of
   * the harvest runs before no other kind, and one registered LISTEN_SOCK after no other kind.
   */
  lemma BatchInPriority<CB>(events: seq<PollEvent>, calls: seq<Call<CB>>, i: nat, j: nat)
    requires ServedBatch(events, calls) && i < j < |calls|
    ensures var p, fd, later := calls[0].before.priorities, calls[i].event.fd, calls[j].event.fd;
            && (fd in p && p[fd] == HELPER_SOCK ==> later in p && p[later] == HELPER_SOCK)
            && (later in p && p[later] == LISTEN_SOCK ==> fd in p && p[fd] == LISTEN_SOCK)
  {
    var run := EventsRun(calls);
    assert AreRun(run, calls);
    var q := Ranked(calls[0].before, run);
    assert Rank(q[i].priority) <= Rank(q[j].priority);
  }

  /** By the priorities registered for them, the event of `fd` may run before that of `later`. */
  predicate MayPrecede(priorities: map<Fd, EventPriority>, fd: Fd, later: Fd)
  {
    && (fd in priorities && priorities[fd] == HELPER_SOCK ==>
          later in priorities && priorities[later] == HELPER_SOCK)
    && (later in priorities && priorities[later] == LISTEN_SOCK ==>
          fd in priorities && priorities[fd] == LISTEN_SOCK)
  }

  /** The calls of each harvest are in the order of the priorities registered when they begin. */
  ghost predicate InPriority<CB>(harvests: seq<seq<PollEvent>>, calls: seq<Call<CB>>)
  {
    && |calls| == Before(harvests, |harvests|)
    && forall k, i, j :: 0 <= k < |harvests| && Before(harvests, k) <= i < j < Before(harvests, k) + |harvests[k]|
                         && j < |calls| ==>
         MayPrecede(calls[Before(harvests, k)].before.priorities, calls[i].event.fd, calls[j].event.fd)
  }

  lemma {:induction false} ServedInPriorityAt<CB>(harvests: seq<seq<PollEvent>>, calls: seq<Call<CB>>,
                                                  k: nat, i: nat, j: nat)
    requires Served(harvests, calls) && k < |harvests| && j < |calls|
    requires Before(harvests, k) <= i < j < Before(harvests, k) + |harvests[k]|
    ensures MayPrecede(calls[Before(harvests, k)].before.priorities, calls[i].event.fd, calls[j].event.fd)
  {
    var m := Before(harvests, k);
    var batch := BatchAt(harvests, calls, k);
    BatchInPriority(harvests[k], batch, i - m, j - m);
    assert batch[0] == calls[m] && batch[i - m] == calls[i] && batch[j - m] == calls[j];
  }

  lemma {:induction false} ServedInPriority<CB>(harvests: seq<seq<PollEvent>>, calls: seq<Call<CB>>)
    requires Served(harvests, calls)
    ensures InPriority(harvests, calls)
  {
    ServedLength(harvests, calls);
    forall k, i, j | 0 <= k < |harvests| && Before(harvests, k) <= i < j < Before(harvests, k) + |harvests[k]|
                     && j < |calls|
      ensures MayPrecede(calls[Before(harvests, k)].before.priorities, calls[i].event.fd, calls[j].event.fd)
    {
      ServedInPriorityAt(harvests, calls, k, i, j);
    }
  }

  lemma CallOf<CB>(events: seq<PollEvent>, calls: seq<Call<CB>>, e: PollEvent)
    requires ServedBatch(events, calls) && e in events
    ensures exists j :: 0 <= j < |calls| && calls[j].event == e && Found(calls[j])
  {
    assert AreRun(EventsRun(calls), calls);
    assert e in multiset(EventsRun(calls));
    var j :| 0 <= j < |calls| && EventsRun(calls)[j] == e;
  }

  /**
   * No starvation: an event of a harvest, whatever its priority, runs after all earlier harvests
   * and fewer others of its own than there are.
   */
  lemma WaitBounded<CB>(harvests: seq<seq<PollEvent>>, calls: seq<Call<CB>>, k: nat, e: PollEvent) returns (i: nat)
    requires Served(harvests, calls) && k < |harvests| && e in harvests[k]
    ensures Before(harvests, k) <= i < Before(harvests, k) + |harvests[k]| && i < |calls|
    ensures calls[i].event == e && Found(calls[i])
  {
    var batch := BatchAt(harvests, calls, k);
    CallOf(harvests[k], batch, e);
    var j :| 0 <= j < |batch| && batch[j].event == e && Found(batch[j]);
    i := Before(harvests, k) + j;
  }
}
