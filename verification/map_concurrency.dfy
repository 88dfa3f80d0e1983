// ThreadSafeMap under concurrency: every thread takes the steps that the code takes, one at a
// time and in any interleaving, and the result is linearizable.

module MapConcurrency {
  import opened DataTypes
  import opened MapSpec

  type Tid = nat
  type CallId = nat

  /** Where a thread stands in a call: include/thread_safe_map.h, lines 17 to 44. */
  datatype Pc<K, V> =
    | Idle
    | Waiting(id: CallId, op: Op<K, V>)                       // for mutex_
    | Locked(id: CallId, op: Op<K, V>)                        // mutex_ taken
    | Searched(id: CallId, op: Op<K, V>, hit: bool)           // map_.find has returned
    | Answered(id: CallId, op: Op<K, V>, res: Result<V>)      // result fixed, mutex_ still held
    | Unlocked(id: CallId, op: Op<K, V>, res: Result<V>)      // mutex_ released, not yet back

  /** What an observer outside sees. */
  datatype Event<K, V> = Invoked(id: CallId, op: Op<K, V>) | Returned(id: CallId, res: Result<V>)

  /** One operation in the sequential order. */
  datatype Entry<K, V> = Entry(id: CallId, op: Op<K, V>, res: Result<V>)

  /** `history` and `lin` record what happened; no step reads them. */
  datatype State<K, V> = State(
    map_: map<K, V>,
    writer: Option<Tid>,
    readers: set<Tid>,
    pcs: map<Tid, Pc<K, V>>,
    next: CallId,
    history: seq<Event<K, V>>,
    lin: seq<Entry<K, V>>)

  datatype Step<K, V> =
    | Call(t: Tid, op: Op<K, V>)
    | Lock(t: Tid)
    | Search(t: Tid)
    | Act(t: Tid)
    | Unlock(t: Tid)
    | Return(t: Tid)

  predicate Writes<K, V>(op: Op<K, V>) { op.Insert? || op.Remove? }

  predicate Searches<K, V>(op: Op<K, V>) { op.Remove? || op.Get? }

  predicate Holds<K, V>(pc: Pc<K, V>) { pc.Locked? || pc.Searched? || pc.Answered? }

  predicate Enabled<K(==), V>(s: State<K, V>, a: Step<K, V>)
  {
    && a.t in s.pcs
    && var pc := s.pcs[a.t];
       match a
       case Call(_, _) => pc.Idle?
       case Lock(_) => pc.Waiting? && s.writer.None? && (Writes(pc.op) ==> s.readers == {})
       case Search(_) => pc.Locked? && Searches(pc.op)
       case Act(_) =>
         || (pc.Locked? && !Searches(pc.op))
         // The iterator is used only on a hit, and must then point into the map.
         || (pc.Searched? && Searches(pc.op) && (pc.hit ==> pc.op.key in s.map_))
       case Unlock(_) => pc.Answered?
       case Return(_) => pc.Unlocked?
  }

  /** The effect of the body under the lock: erase and copy happen only if the search hit. */
  function ActMap<K, V>(s: State<K, V>, pc: Pc<K, V>): map<K, V>
    requires pc.Locked? || pc.Searched?
  {
    match pc.op
    case Insert(key, val) => s.map_[key := val]
    case Remove(key) => if pc.Searched? && pc.hit then s.map_ - {key} else s.map_
    case _ => s.map_
  }

  function ActResult<K, V>(s: State<K, V>, pc: Pc<K, V>): Result<V>
    requires pc.Locked? || pc.Searched?
    requires pc.op.Get? && pc.Searched? && pc.hit ==> pc.op.key in s.map_
  {
    match pc.op
    case Insert(_, _) => Inserted
    case Remove(_) => Removed(pc.Searched? && pc.hit)
    case Get(key, init) => if pc.Searched? && pc.hit then Got(true, s.map_[key]) else Got(false, init)
    case GetSize => Size(AsInt(|s.map_|))
  }

  function Next<K(==), V>(s: State<K, V>, a: Step<K, V>): State<K, V>
    requires Enabled(s, a)
  {
    var pc := s.pcs[a.t];
    match a
    case Call(t, op) =>
      s.(pcs := s.pcs[t := Waiting(s.next, op)], next := s.next + 1,
         history := s.history + [Invoked(s.next, op)])
    case Lock(t) =>
      var s' := s.(pcs := s.pcs[t := Locked(pc.id, pc.op)]);
      if Writes(pc.op) then s'.(writer := Some(t)) else s'.(readers := s.readers + {t})
    case Search(t) =>
      s.(pcs := s.pcs[t := Searched(pc.id, pc.op, pc.op.key in s.map_)])
    case Act(t) =>
      var res := ActResult(s, pc);
      s.(map_ := ActMap(s, pc), pcs := s.pcs[t := Answered(pc.id, pc.op, res)],
         lin := s.lin + [Entry(pc.id, pc.op, res)])
    case Unlock(t) =>
      var s' := s.(pcs := s.pcs[t := Unlocked(pc.id, pc.op, pc.res)]);
      if Writes(pc.op) then s'.(writer := None) else s'.(readers := s.readers - {t})
    case Return(t) =>
      s.(pcs := s.pcs[t := Idle], history := s.history + [Returned(pc.id, pc.res)])
  }

  ghost predicate Init<K, V>(s: State<K, V>)
  {
    && s.map_ == map[] && s.writer == None && s.readers == {} && s.next == 0
    && s.history == [] && s.lin == []
    && forall t :: t in s.pcs ==> s.pcs[t] == Idle
  }

  /** `steps` can be taken one after the other from `s`. */
  ghost predicate Legal<K, V>(s: State<K, V>, steps: seq<Step<K, V>>)
    decreases |steps|
  {
    steps == [] || (Enabled(s, steps[0]) && Legal(Next(s, steps[0]), steps[1..]))
  }

  ghost function Run<K, V>(s: State<K, V>, steps: seq<Step<K, V>>): State<K, V>
    requires Legal(s, steps)
    decreases |steps|
  {
    if steps == [] then s else Run(Next(s, steps[0]), steps[1..])
  }

  // ---- Linearizability ----

  function FinalMap<K(==), V>(lin: seq<Entry<K, V>>): map<K, V>
  {
    if lin == [] then map[]
    else Update(FinalMap(lin[..|lin| - 1]), lin[|lin| - 1].op)
  }

  /** Done one after the other from the empty map, the operations give these results. */
  ghost predicate Sequential<K, V>(lin: seq<Entry<K, V>>)
  {
    if lin == [] then true
    else
      var init, last := lin[..|lin| - 1], lin[|lin| - 1];
      Sequential(init) && last.res == Answer(FinalMap(init), last.op)
  }

  /** In `history` call `a` had returned before call `b` was made. */
  ghost predicate Precedes<K, V>(history: seq<Event<K, V>>, a: CallId, b: CallId)
  {
    exists i, j ::
      0 <= i < j < |history| && history[i].Returned? && history[i].id == a
      && history[j].Invoked? && history[j].id == b
  }

  ghost predicate InLin<K, V>(lin: seq<Entry<K, V>>, id: CallId)
  {
    exists i :: 0 <= i < |lin| && lin[i].id == id
  }

  /** `lin` explains `history`: a legal sequential order, of the calls made, that keeps real time. */
  ghost predicate Linearizes<K, V>(history: seq<Event<K, V>>, lin: seq<Entry<K, V>>)
  {
    && Sequential(lin)
    && (forall p, q :: 0 <= p < q < |lin| ==> lin[p].id != lin[q].id)
    && (forall p :: 0 <= p < |lin| ==> Invoked(lin[p].id, lin[p].op) in history)
    && (forall e :: e in history && e.Returned? ==>
          exists p :: 0 <= p < |lin| && lin[p].id == e.id && lin[p].res == e.res)
    && (forall p, q | 0 <= p < |lin| && 0 <= q < |lin| ::
          Precedes(history, lin[p].id, lin[q].id) ==> p < q)
  }

  // ---- What the answers mean ----

  predicate Stores<K(==), V>(e: Entry<K, V>, key: K) { e.op.Insert? && e.op.key == key }

  predicate Erases<K(==), V>(e: Entry<K, V>, key: K) { e.op.Remove? && e.op.key == key }

  /** Entry `i` stores the key, and none between it and `n` removes it. */
  predicate StoredSince<K(==), V>(lin: seq<Entry<K, V>>, i: nat, n: nat, key: K)
  {
    i < n <= |lin| && Stores(lin[i], key) && forall j :: i < j < n ==> !Erases(lin[j], key)
  }

  /** Some insert of the key stands before `n`, with no remove of it in between. */
  ghost predicate Present<K, V>(lin: seq<Entry<K, V>>, n: nat, key: K)
  {
    exists i: nat :: StoredSince(lin, i, n, key)
  }

  /** Entry `i` is the last insert of the key before `n`, with no remove of it in between. */
  predicate LastStored<K(==), V>(lin: seq<Entry<K, V>>, i: nat, n: nat, key: K)
  {
    StoredSince(lin, i, n, key) && forall j :: i < j < n ==> !Stores(lin[j], key)
  }

  ghost predicate LastValue<K, V>(lin: seq<Entry<K, V>>, n: nat, key: K, val: V)
  {
    exists i: nat :: LastStored(lin, i, n, key) && lin[i].op.val == val
  }

  /** The keys that are present, counted. */
  ghost predicate Counts<K(!new), V(!new)>(lin: seq<Entry<K, V>>, n: nat, keys: set<K>)
  {
    forall key :: key in keys <==> Present(lin, n, key)
  }

  /**
   * remove and get answer true exactly if the key has been inserted and not removed since, get
   * finds what was inserted last, or leaves the caller's value alone, and getSize counts the keys
   * that are there.
   */
  ghost predicate Answers<K(!new), V(!new)>(lin: seq<Entry<K, V>>, n: nat)
    requires n < |lin|
  {
    var res := lin[n].res;
    match lin[n].op
    case Insert(_, _) => res.Inserted?
    case Remove(key) => res.Removed? && (res.found <==> Present(lin, n, key))
    case Get(key, init) =>
      && res.Got? && (res.found <==> Present(lin, n, key))
      && (res.found ==> LastValue(lin, n, key, res.val))
      && (!res.found ==> res.val == init)
    case GetSize =>
      res.Size? && exists keys :: Counts(lin, n, keys) && (|keys| < 0x8000_0000 ==> res.n == |keys|)
  }

  lemma {:induction false} FinalMapNext<K(!new), V(!new)>(lin: seq<Entry<K, V>>, n: nat)
    requires n < |lin|
    ensures FinalMap(lin[..n + 1]) == Update(FinalMap(lin[..n]), lin[n].op)
  {
    assert lin[..n + 1][..n] == lin[..n];
  }

  lemma {:induction false} PresentExactly<K(!new), V(!new)>(lin: seq<Entry<K, V>>, n: nat, key: K)
    requires n <= |lin|
    ensures key in FinalMap(lin[..n]) <==> Present(lin, n, key)
    ensures key in FinalMap(lin[..n]) ==> LastValue(lin, n, key, FinalMap(lin[..n])[key])
  {
    if n > 0 {
      PresentExactly(lin, n - 1, key);
      FinalMapNext(lin, n - 1);
      PresentNext(lin, n - 1, key);
      if Stores(lin[n - 1], key) {
        assert LastStored(lin, n - 1, n, key);
      } else if key in FinalMap(lin[..n]) {
        var i: nat :| LastStored(lin, i, n - 1, key) && lin[i].op.val == FinalMap(lin[..n - 1])[key];
        assert LastStored(lin, i, n, key);
      }
    }
  }

  lemma {:induction false} PresentNext<K(!new), V(!new)>(lin: seq<Entry<K, V>>, n: nat, key: K)
    requires n < |lin|
    ensures Present(lin, n + 1, key) <==> Stores(lin[n], key) || (Present(lin, n, key) && !Erases(lin[n], key))
  {
    if Stores(lin[n], key) {
      assert StoredSince(lin, n, n + 1, key);
    } else if Present(lin, n, key) && !Erases(lin[n], key) {
      var i :| StoredSince(lin, i, n, key);
      assert StoredSince(lin, i, n + 1, key);
    }
    if Present(lin, n + 1, key) && !Stores(lin[n], key) {
      var i :| StoredSince(lin, i, n + 1, key);
      assert StoredSince(lin, i, n, key);
    }
  }

  lemma PrefixOfPrefix<T>(s: seq<T>, m: nat, n: nat)
    requires n <= m <= |s|
    ensures s[..m][..n] == s[..n]
  {
  }

  lemma {:induction false} SequentialAt<K(!new), V(!new)>(lin: seq<Entry<K, V>>, n: nat)
    requires Sequential(lin) && n < |lin|
    ensures lin[n].res == Answer(FinalMap(lin[..n]), lin[n].op)
    decreases |lin|
  {
    var m := |lin| - 1;
    if n < m {
      SequentialAt(lin[..m], n);
      PrefixOfPrefix(lin, m, n);
    }
  }

  /** The keys of the map are those that the first `n` entries leave in it, each with its last value. */
  ghost predicate Leaves<K(!new), V(!new)>(lin: seq<Entry<K, V>>, n: nat, m: map<K, V>)
  {
    forall key :: (key in m <==> Present(lin, n, key)) && (key in m ==> LastValue(lin, n, key, m[key]))
  }

  lemma {:induction false} MapLeft<K(!new), V(!new)>(lin: seq<Entry<K, V>>, n: nat)
    requires n <= |lin|
    ensures Leaves(lin, n, FinalMap(lin[..n]))
  {
    var m := FinalMap(lin[..n]);
    forall key: K
      ensures (key in m <==> Present(lin, n, key)) && (key in m ==> LastValue(lin, n, key, m[key]))
    {
      PresentExactly(lin, n, key);
    }
  }

  lemma {:induction false} AnswerMeans<K(!new), V(!new)>(lin: seq<Entry<K, V>>, n: nat, m: map<K, V>)
    requires n < |lin| && Leaves(lin, n, m) && lin[n].res == Answer(m, lin[n].op)
    ensures Answers(lin, n)
  {
    assert Counts(lin, n, m.Keys) && |m.Keys| == |m|;
  }

  /** In a sequential order every answer is the one that the order calls for. */
  lemma {:induction false} AnswersExactly<K(!new), V(!new)>(lin: seq<Entry<K, V>>, n: nat)
    requires Sequential(lin) && n < |lin|
    ensures Answers(lin, n)
  {
    SequentialAt(lin, n);
    MapLeft(lin, n);
    AnswerMeans(lin, n, FinalMap(lin[..n]));
  }

  // ---- The invariant ----

  ghost predicate LockInv<K(!new), V(!new)>(s: State<K, V>)
  {
    && (forall t :: t in s.pcs && Holds(s.pcs[t]) && Writes(s.pcs[t].op) ==> s.writer == Some(t))
    && (forall t :: t in s.pcs && Holds(s.pcs[t]) && !Writes(s.pcs[t].op) ==> t in s.readers)
    && (forall t :: t in s.readers ==> t in s.pcs && Holds(s.pcs[t]) && !Writes(s.pcs[t].op))
    && (s.writer.Some? ==>
          && s.readers == {}
          && s.writer.value in s.pcs
          && Holds(s.pcs[s.writer.value]) && Writes(s.pcs[s.writer.value].op))
  }

  /** What a search found is still so: nobody can have changed the map since. */
  ghost predicate SearchInv<K(!new), V(!new)>(s: State<K, V>)
  {
    forall t :: t in s.pcs && s.pcs[t].Searched? ==>
                  Searches(s.pcs[t].op) && s.pcs[t].hit == (s.pcs[t].op.key in s.map_)
  }

  ghost predicate MapInv<K, V>(s: State<K, V>)
  {
    s.map_ == FinalMap(s.lin) && Sequential(s.lin)
  }

  /** A call is in `lin` from the moment its body has acted, with its operation and result. */
  ghost predicate PcInv<K, V>(s: State<K, V>, pc: Pc<K, V>)
  {
    match pc
    case Idle => true
    case Waiting(id, op) => id < s.next && !InLin(s.lin, id) && Invoked(id, op) in s.history
    case Locked(id, op) => id < s.next && !InLin(s.lin, id) && Invoked(id, op) in s.history
    case Searched(id, op, _) => id < s.next && !InLin(s.lin, id) && Invoked(id, op) in s.history
    case Answered(id, op, res) => id < s.next && Entry(id, op, res) in s.lin
    case Unlocked(id, op, res) => id < s.next && Entry(id, op, res) in s.lin
  }

  ghost predicate CallInv<K(!new), V(!new)>(s: State<K, V>)
  {
    && (forall t :: t in s.pcs ==> PcInv(s, s.pcs[t]))
    && (forall t, u :: t in s.pcs && u in s.pcs && t != u && !s.pcs[t].Idle? && !s.pcs[u].Idle?
                       ==> s.pcs[t].id != s.pcs[u].id)
    && (forall p :: 0 <= p < |s.lin| ==> s.lin[p].id < s.next)
  }

  ghost predicate Inv<K(!new), V(!new)>(s: State<K, V>)
  {
    LockInv(s) && SearchInv(s) && MapInv(s) && CallInv(s) && Linearizes(s.history, s.lin)
  }

  lemma LockInvNext<K(!new), V(!new)>(s: State<K, V>, a: Step<K, V>)
    requires LockInv(s) && Enabled(s, a)
    ensures LockInv(Next(s, a))
  {
    var s' := Next(s, a);
    assert forall t :: t in s.pcs && t != a.t ==> s'.pcs[t] == s.pcs[t];
    match a {
      case Lock(t) => assert Holds(s'.pcs[t]);
      case Unlock(t) => assert Holds(s.pcs[t]) && !Holds(s'.pcs[t]);
      case _ => assert s'.writer == s.writer && s'.readers == s.readers
                       && Holds(s'.pcs[a.t]) == Holds(s.pcs[a.t]);
    }
  }

  lemma SearchInvNext<K(!new), V(!new)>(s: State<K, V>, a: Step<K, V>)
    requires LockInv(s) && SearchInv(s) && Enabled(s, a)
    ensures SearchInv(Next(s, a))
  {
  }

  /** Under the lock the body does what the sequential operation does. */
  lemma ActIsAtomic<K(!new), V(!new)>(s: State<K, V>, a: Step<K, V>)
    requires SearchInv(s) && Enabled(s, a) && a.Act?
    ensures ActMap(s, s.pcs[a.t]) == Update(s.map_, s.pcs[a.t].op)
    ensures ActResult(s, s.pcs[a.t]) == Answer(s.map_, s.pcs[a.t].op)
  {
    var pc := s.pcs[a.t];
    if pc.op.Remove? && !pc.hit {
      assert s.map_ - {pc.op.key} == s.map_;
    }
  }

  lemma MapInvNext<K(!new), V(!new)>(s: State<K, V>, a: Step<K, V>)
    requires SearchInv(s) && MapInv(s) && Enabled(s, a)
    ensures MapInv(Next(s, a))
  {
    if a.Act? {
      ActIsAtomic(s, a);
      var lin := Next(s, a).lin;
      assert lin[..|lin| - 1] == s.lin;
    }
  }

  lemma InLinPush<K(!new), V(!new)>(lin: seq<Entry<K, V>>, e: Entry<K, V>, id: CallId)
    ensures InLin(lin + [e], id) <==> InLin(lin, id) || id == e.id
  {
    assert (lin + [e])[|lin|] == e;
    if InLin(lin, id) {
      var i :| 0 <= i < |lin| && lin[i].id == id;
      assert (lin + [e])[i].id == id;
    }
  }

  lemma CallInvNext<K(!new), V(!new)>(s: State<K, V>, a: Step<K, V>)
    requires CallInv(s) && Enabled(s, a)
    ensures CallInv(Next(s, a))
  {
    var s' := Next(s, a);
    forall t | t in s'.pcs ensures PcInv(s', s'.pcs[t]) {
      var pc := s.pcs[t];
      assert PcInv(s, pc);
      if a.Act? && !s'.pcs[t].Idle? {
        InLinPush(s.lin, s'.lin[|s.lin|], s'.pcs[t].id);
      }
    }
  }

  lemma PrecedesPush<K(!new), V(!new)>(history: seq<Event<K, V>>, e: Event<K, V>, a: CallId, b: CallId)
    requires Precedes(history + [e], a, b)
    ensures Precedes(history, a, b) || (e.Invoked? && b == e.id)
  {
    var h := history + [e];
    var i, j :| 0 <= i < j < |h| && h[i].Returned? && h[i].id == a && h[j].Invoked? && h[j].id == b;
    assert history[i] == h[i];
    if j < |history| { assert history[j] == h[j]; }
  }

  /** A new event leaves the order a linearization: a call just made is not in it yet. */
  lemma LinearizesEvent<K(!new), V(!new)>(history: seq<Event<K, V>>, e: Event<K, V>, lin: seq<Entry<K, V>>)
    requires Linearizes(history, lin)
    requires e.Invoked? ==> !InLin(lin, e.id)
    requires e.Returned? ==> exists p :: 0 <= p < |lin| && lin[p].id == e.id && lin[p].res == e.res
    ensures Linearizes(history + [e], lin)
  {
    forall p, q | 0 <= p < |lin| && 0 <= q < |lin| && Precedes(history + [e], lin[p].id, lin[q].id)
      ensures p < q
    {
      PrecedesPush(history, e, lin[p].id, lin[q].id);
    }
  }

  /** A call that acts comes last: no call that it precedes in real time can be there already. */
  lemma LinearizesEntry<K(!new), V(!new)>(history: seq<Event<K, V>>, lin: seq<Entry<K, V>>, e: Entry<K, V>)
    requires Linearizes(history, lin) && Sequential(lin + [e])
    requires !InLin(lin, e.id) && Invoked(e.id, e.op) in history
    ensures Linearizes(history, lin + [e])
  {
    var lin' := lin + [e];
    forall p, q | 0 <= p < |lin'| && 0 <= q < |lin'| && Precedes(history, lin'[p].id, lin'[q].id)
      ensures p < q
    {
      if p == |lin| {
        var i :| 0 <= i < |history| && history[i].Returned? && history[i].id == e.id;
        assert history[i] in history;
        assert InLin(lin, e.id);
      }
    }
    forall x | x in history && x.Returned?
      ensures exists p :: 0 <= p < |lin'| && lin'[p].id == x.id && lin'[p].res == x.res
    {
      var p :| 0 <= p < |lin| && lin[p].id == x.id && lin[p].res == x.res;
      assert lin'[p] == lin[p];
    }
  }

  lemma LinearizesNext<K(!new), V(!new)>(s: State<K, V>, a: Step<K, V>)
    requires Inv(s) && Enabled(s, a)
    ensures Linearizes(Next(s, a).history, Next(s, a).lin)
  {
    var pc := s.pcs[a.t];
    assert PcInv(s, pc);
    match a {
      case Call(_, op) =>
        LinearizesEvent(s.history, Invoked(s.next, op), s.lin);
      case Act(_) =>
        MapInvNext(s, a);
        LinearizesEntry(s.history, s.lin, Entry(pc.id, pc.op, ActResult(s, pc)));
      case Return(_) =>
        LinearizesEvent(s.history, Returned(pc.id, pc.res), s.lin);
      case _ =>
    }
  }

  lemma InvNext<K(!new), V(!new)>(s: State<K, V>, a: Step<K, V>)
    requires Inv(s) && Enabled(s, a)
    ensures Inv(Next(s, a))
  {
    LockInvNext(s, a);
    SearchInvNext(s, a);
    MapInvNext(s, a);
    CallInvNext(s, a);
    LinearizesNext(s, a);
  }

  lemma {:induction false} InvRun<K(!new), V(!new)>(s: State<K, V>, steps: seq<Step<K, V>>)
    requires Inv(s) && Legal(s, steps)
    ensures Inv(Run(s, steps))
    decreases |steps|
  {
    if steps != [] {
      InvNext(s, steps[0]);
      InvRun(Next(s, steps[0]), steps[1..]);
    }
  }

  // ---- Main results ----

  /** `lin` is a sequential order of the calls with the right answers, which leaves `m`. */
  ghost predicate Explains<K(!new), V(!new)>(lin: seq<Entry<K, V>>, history: seq<Event<K, V>>, m: map<K, V>)
  {
    Linearizes(history, lin) && (forall n :: 0 <= n < |lin| ==> Answers(lin, n)) && Leaves(lin, |lin|, m)
  }

  /**
   * Every interleaving of calls from any number of threads is linearizable: a sequential order
   * of the calls gives the same results, keeps real time and leaves the map as it is; and in that
   * order every call is answered by what the calls before it have inserted and removed.
   */
  lemma {:induction false} Linearizable<K(!new), V(!new)>(s: State<K, V>, steps: seq<Step<K, V>>)
    requires Init(s) && Legal(s, steps)
    ensures exists lin :: Explains(lin, Run(s, steps).history, Run(s, steps).map_)
  {
    InvRun(s, steps);
    var lin, m := Run(s, steps).lin, Run(s, steps).map_;
    assert lin[..|lin|] == lin;
    forall n | 0 <= n < |lin| ensures Answers(lin, n) {
      AnswersExactly(lin, n);
    }
    MapLeft(lin, |lin|);
    assert Explains(lin, Run(s, steps).history, m);
  }

  /**
   * The lock is shared by readers: whenever no writer holds it, two threads can be in get or
   * getSize at once.
   */
  lemma ReadersShare<K(!new), V(!new)>(s: State<K, V>, t: Tid, u: Tid, p: Op<K, V>, q: Op<K, V>)
    returns (steps: seq<Step<K, V>>)
    requires t in s.pcs && u in s.pcs && t != u && s.pcs[t].Idle? && s.pcs[u].Idle? && s.writer.None?
    requires (p.Get? || p.GetSize?) && (q.Get? || q.GetSize?)
    ensures Legal(s, steps)
    ensures var pcs := Run(s, steps).pcs;
            && t in pcs && pcs[t].Locked? && pcs[t].op == p
            && u in pcs && pcs[u].Locked? && pcs[u].op == q
  {
    var s1 := Next(s, Call(t, p));
    var s2 := Next(s1, Call(u, q));
    var s3 := Next(s2, Lock(t));
    assert Legal(Next(s3, Lock(u)), []);
    RunFirst(s3, Lock(u), []);
    RunFirst(s2, Lock(t), [Lock(u)]);
    RunFirst(s1, Call(u, q), [Lock(t), Lock(u)]);
    RunFirst(s, Call(t, p), [Call(u, q), Lock(t), Lock(u)]);
    steps := [Call(t, p)] + [Call(u, q), Lock(t), Lock(u)];
  }

  lemma RunFirst<K(!new), V(!new)>(s: State<K, V>, a: Step<K, V>, steps: seq<Step<K, V>>)
    requires Enabled(s, a) && Legal(Next(s, a), steps)
    ensures Legal(s, [a] + steps) && Run(s, [a] + steps) == Run(Next(s, a), steps)
  {
    assert ([a] + steps)[1..] == steps;
  }

  /** Two threads under the lock at once are both readers, and a found iterator is still valid. */
  lemma MutualExclusion<K(!new), V(!new)>(s: State<K, V>, steps: seq<Step<K, V>>, t: Tid, u: Tid)
    requires Init(s) && Legal(s, steps)
    ensures var pcs := Run(s, steps).pcs;
            && (t in pcs && u in pcs && t != u && Holds(pcs[t]) && Holds(pcs[u])
                ==> (pcs[t].op.Get? || pcs[t].op.GetSize?) && (pcs[u].op.Get? || pcs[u].op.GetSize?))
            && (t in pcs && pcs[t].Searched? ==>
                  (pcs[t].op.Remove? || pcs[t].op.Get?) && pcs[t].hit == (pcs[t].op.key in Run(s, steps).map_))
  {
    InvRun(s, steps);
  }

  /** No deadlock: while some call is under way, some thread in a call can take a step. */
  lemma Progress<K(!new), V(!new)>(s: State<K, V>, steps: seq<Step<K, V>>, t: Tid)
    requires Init(s) && Legal(s, steps)
    requires t in Run(s, steps).pcs && !Run(s, steps).pcs[t].Idle?
    ensures exists a: Step<K, V> :: !a.Call? && Enabled(Run(s, steps), a)
  {
    InvRun(s, steps);
    var s' := Run(s, steps);
    var u: Tid := if s'.pcs[t].Waiting? && s'.writer.Some? then s'.writer.value
                  else if s'.pcs[t].Waiting? && s'.readers != {} then (var r :| r in s'.readers; r)
                  else t;
    var pc := s'.pcs[u];
    var a: Step<K, V> := if pc.Waiting? then Lock(u)
                         else if pc.Locked? && Searches(pc.op) then Search(u)
                         else if pc.Locked? || pc.Searched? then Act(u)
                         else if pc.Answered? then Unlock(u)
                         else Return(u);
    assert Enabled(s', a);
  }
}
