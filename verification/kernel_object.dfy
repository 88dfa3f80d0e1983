// The kernel as an object that the server's classes make system calls on. Before each call the
// peers may have done anything; `mid` is the kernel at the moment the call takes effect.

module KernelCalls {
  import opened KernelModel

  ghost predicate EnvLegal(k: Kernel, acts: seq<EnvAction>)
    decreases |acts|
  {
    acts == [] || (EnvEnabled(k, acts[0]) && EnvLegal(EnvNext(k, acts[0]), acts[1..]))
  }

  ghost function EnvRun(k: Kernel, acts: seq<EnvAction>): Kernel
    requires EnvLegal(k, acts)
    decreases |acts|
  {
    if acts == [] then k else EnvRun(EnvNext(k, acts[0]), acts[1..])
  }

  /** The peers alone can bring the kernel from `k` to `k'`. */
  ghost predicate Evolves(k: Kernel, k': Kernel)
  {
    exists acts :: EnvLegal(k, acts) && EnvRun(k, acts) == k'
  }

  lemma {:induction false} EnvRunEvolves(k: Kernel, acts: seq<EnvAction>, fd: Fd)
    requires EnvLegal(k, acts)
    ensures EvolvesAt(k, EnvRun(k, acts), fd)
    ensures EnvRun(k, acts).listener == k.listener && EnvRun(k, acts).answers == k.answers
    decreases |acts|
  {
    if acts != [] {
      EnvEvolves(k, acts[0], fd);
      EnvRunEvolves(EnvNext(k, acts[0]), acts[1..], fd);
      EvolvesAtTrans(k, EnvNext(k, acts[0]), EnvRun(k, acts), fd);
    }
  }

  lemma EvolvesAtTrans(k: Kernel, k1: Kernel, k2: Kernel, fd: Fd)
    requires EvolvesAt(k, k1, fd) && EvolvesAt(k1, k2, fd)
    ensures EvolvesAt(k, k2, fd)
  {
  }

  lemma EvolvesEverywhere(k: Kernel, k': Kernel)
    requires Evolves(k, k')
    ensures forall fd :: EvolvesAt(k, k', fd)
    ensures k'.listener == k.listener && k'.answers == k.answers
    ensures k'.watches.Keys == k.watches.Keys && k'.socks.Keys == k.socks.Keys
  {
    var acts :| EnvLegal(k, acts) && EnvRun(k, acts) == k';
    forall fd ensures EvolvesAt(k, k', fd) && k'.listener == k.listener && k'.answers == k.answers {
      EnvRunEvolves(k, acts, fd);
    }
    assert EvolvesAt(k, k', k.listener);
    forall fd ensures (fd in k'.watches <==> fd in k.watches) && (fd in k'.socks <==> fd in k.socks) {
      assert EvolvesAt(k, k', fd);
    }
  }

  /**
   * `patience` bounds how often epoll_wait will still succeed in the run that is looked at;
   * `harvests` is what it has returned so far.
   */
  class KernelObject {
    var k: Kernel
    var patience: nat
    ghost var harvests: seq<seq<PollEvent>>

    constructor (k: Kernel, patience: nat)
      ensures this.k == k && this.patience == patience && harvests == []
    {
      this.k := k;
      this.patience := patience;
      harvests := [];
    }

    /** Anything the peers may do. */
    method Interfere()
      modifies this`k
      ensures Evolves(old(k), k)
    {
      var todo: nat := *;
      ghost var done: seq<EnvAction> := [];
      ghost var from := k;
      while todo > 0
        invariant EnvLegal(from, done) && EnvRun(from, done) == k
      {
        var a: EnvAction := *;
        if EnvEnabled(k, a) {
          EnvRunPush(from, done, a);
          done := done + [a];
          k := EnvNext(k, a);
        }
        todo := todo - 1;
      }
      assert EnvLegal(from, done) && EnvRun(from, done) == k;
    }

    /** recv with MSG_DONTWAIT; `again` says that errno is EAGAIN. */
    method Recv(fd: Fd, size: nat) returns (n: int, slice: string, again: bool, ghost mid: Kernel)
      requires fd in k.socks && ValidSock(k.socks[fd]) && size > 0
      modifies this`k
      ensures Evolves(old(k), mid) && fd in mid.socks && ValidSock(mid.socks[fd])
      ensures n >= -1
      ensures n > 0 ==> && n <= size && mid.socks[fd].read + n <= mid.socks[fd].arrived
                        && slice == Taken(mid.socks[fd], n) && k == KernelModel.Recv(mid, fd, size, n)
      ensures n == 0 ==> && k == Noted(mid, GotEnd(fd))
                         && mid.socks[fd].read >= mid.socks[fd].arrived && mid.socks[fd].closing
      ensures n == -1 && again ==> k == Noted(mid, GotAgain(fd)) && !Readable(mid.socks[fd])
      ensures n == -1 && !again ==> k == Noted(mid, GotError(fd))
    {
      var before := k;
      Interfere();
      EvolvesEverywhere(before, k);
      assert EvolvesAt(before, k, fd);
      mid := k;
      slice, again := "", false;
      var s := k.socks[fd];
      var fails: bool := *;
      if fails {
        k := Noted(k, GotError(fd));
        return -1, "", false, mid;
      }
      if s.read < s.arrived {
        var m: nat := *;
        n := if 1 <= m <= size && s.read + m <= s.arrived then m else 1;
        slice := Taken(s, n);
        k := KernelModel.Recv(k, fd, size, n);
      } else if s.closing {
        n := 0;
        k := Noted(k, GotEnd(fd));
      } else {
        n, again := -1, true;
        k := Noted(k, GotAgain(fd));
      }
    }

    /** send with MSG_DONTWAIT of `data`; `again` says that errno is EAGAIN or EWOULDBLOCK. */
    method Send(fd: Fd, data: string) returns (n: int, again: bool, ghost mid: Kernel)
      requires fd in k.socks
      modifies this`k
      ensures Evolves(old(k), mid) && fd in mid.socks
      ensures n >= -1 && n <= |data|
      ensures n > 0 ==> n <= mid.socks[fd].room && k == KernelModel.Send(mid, fd, |data|, data[..n])
      ensures n == 0 ==> k == Noted(mid, PutNothing(fd)) && data == ""
      ensures n == -1 && again ==> k == Noted(mid, PutAgain(fd)) && mid.socks[fd].room == 0 && data != ""
      ensures n == -1 && !again ==> k == Noted(mid, PutError(fd))
    {
      var before := k;
      Interfere();
      EvolvesEverywhere(before, k);
      assert EvolvesAt(before, k, fd);
      mid := k;
      again := false;
      var fails: bool := *;
      if fails {
        n := -1;
        k := Noted(k, PutError(fd));
      } else if data == "" {
        n := 0;
        k := Noted(k, PutNothing(fd));
      } else if k.socks[fd].room == 0 {
        n, again := -1, true;
        k := Noted(k, PutAgain(fd));
      } else {
        var m: nat := *;
        n := if 1 <= m <= |data| && m <= k.socks[fd].room then m else 1;
        k := KernelModel.Send(k, fd, |data|, data[..n]);
      }
    }

    /** close looks at nothing: what the peers do just before it may as well come after it. */
    method Close(fd: Fd)
      modifies this`k
      ensures k == KernelModel.Close(old(k), fd)
    {
      k := KernelModel.Close(k, fd);
    }

    /** epoll_ctl with EPOLL_CTL_ADD of a connected socket; it may fail at any time. */
    method EpollAdd(fd: Fd, input: bool, output: bool) returns (r: int, ghost mid: Kernel)
      modifies this`k
      ensures Evolves(old(k), mid) && (r == 0 || r == -1)
      ensures r == 0 ==> CanAdd(mid, fd) && k == KernelModel.EpollAdd(mid, fd, input, output)
      ensures r == -1 ==> k == Denied(mid, EPOLL_CTL_ADD, fd, CanAdd(mid, fd))
    {
      Interfere();
      mid := k;
      var fails: bool := *;
      if fails || !CanAdd(k, fd) {
        r := -1;
        k := Denied(k, EPOLL_CTL_ADD, fd, CanAdd(k, fd));
      } else {
        r := 0;
        k := KernelModel.EpollAdd(k, fd, input, output);
      }
    }

    /** EPOLL_CTL_ADD of the listening socket. */
    method EpollListen() returns (r: int, ghost mid: Kernel)
      modifies this`k
      ensures Evolves(old(k), mid) && (r == 0 || r == -1)
      ensures r == 0 ==> mid.listener !in mid.watches && k == KernelModel.EpollListen(mid)
      ensures r == -1 ==> k == Denied(mid, EPOLL_CTL_ADD, mid.listener, mid.listener !in mid.watches)
    {
      Interfere();
      mid := k;
      var fails: bool := *;
      if fails || k.listener in k.watches {
        r := -1;
        k := Denied(k, EPOLL_CTL_ADD, k.listener, k.listener !in k.watches);
      } else {
        r := 0;
        k := KernelModel.EpollListen(k);
      }
    }

    method EpollMod(fd: Fd, input: bool, output: bool) returns (r: int, ghost mid: Kernel)
      modifies this`k
      ensures Evolves(old(k), mid) && (r == 0 || r == -1)
      ensures r == 0 ==> CanModify(mid, fd) && k == KernelModel.EpollMod(mid, fd, input, output)
      ensures r == -1 ==> k == Denied(mid, EPOLL_CTL_MOD, fd, CanModify(mid, fd))
    {
      Interfere();
      mid := k;
      var fails: bool := *;
      if fails || !CanModify(k, fd) {
        r := -1;
        k := Denied(k, EPOLL_CTL_MOD, fd, CanModify(k, fd));
      } else {
        r := 0;
        k := KernelModel.EpollMod(k, fd, input, output);
      }
    }

    /** epoll_ctl with any operation and no event: only EPOLL_CTL_DEL can do without one. */
    method EpollCtl(op: Fd, fd: Fd) returns (r: int, ghost mid: Kernel)
      modifies this`k
      ensures Evolves(old(k), mid) && (r == 0 || r == -1)
      ensures r == 0 ==> op == EPOLL_CTL_DEL && fd in mid.watches && k == EpollDel(mid, fd)
      ensures r == -1 ==> k == Denied(mid, op, fd, op == EPOLL_CTL_DEL && fd in mid.watches)
    {
      Interfere();
      mid := k;
      var fails: bool := *;
      if fails || op != EPOLL_CTL_DEL || fd !in k.watches {
        r := -1;
        k := Denied(k, op, fd, op == EPOLL_CTL_DEL && fd in k.watches);
      } else {
        r := 0;
        k := EpollDel(k, fd);
      }
    }

    /** acceptConnection: accept, then fcntl; if fcntl fails the new descriptor stays open. */
    method AcceptConnection() returns (fd: int, leaked: bool, ghost num: Fd, ghost sock: Sock, ghost mid: Kernel)
      modifies this`k
      ensures Evolves(old(k), mid) && fd >= -1
      ensures fd >= 0 ==> num == fd && CanAccept(mid, num, sock) && k == KernelModel.Accept(mid, num, sock, true)
      ensures fd == -1 && leaked ==> CanAccept(mid, num, sock) && k == KernelModel.Accept(mid, num, sock, false)
      ensures fd == -1 && !leaked ==> k == Noted(mid, AcceptedNone)
    {
      Interfere();
      mid := k;
      var f: Fd :| f >= 0;
      var s: Sock := *;
      var unblocked: bool := *;
      num, sock, leaked, fd := f, s, false, -1;
      if CanAccept(k, f, s) {
        k := KernelModel.Accept(k, f, s, unblocked);
        if unblocked {
          fd := f;
        } else {
          leaked := true;
        }
      } else {
        k := Noted(k, AcceptedNone);
      }
    }

    /** epoll_wait; it may fail at any time. */
    method EpollWait(max: nat) returns (n: int, events: seq<PollEvent>, ghost mid: Kernel, ghost dropped: set<Fd>)
      modifies this
      ensures Evolves(old(k), mid)
      ensures n == -1 ==> && k == Noted(mid, WaitFailed) && patience == old(patience)
                          && harvests == old(harvests)
      ensures n != -1 ==> && harvests == old(harvests) + [events] && n == |events|
                          && CanHarvest(mid, events, max) && CanDrop(mid, dropped)
                          && k == Harvest(mid, events, dropped) && patience < old(patience)
    {
      Interfere();
      mid, dropped := k, {};
      var some: seq<PollEvent> := *;
      var gone: set<Fd> := *;
      if patience > 0 && CanHarvest(k, some, max) && CanDrop(k, gone) {
        n, events, dropped := |some|, some, gone;
        k := Harvest(k, events, gone);
        patience := patience - 1;
        harvests := harvests + [events];
      } else {
        n, events := -1, [];
        k := Noted(k, WaitFailed);
      }
    }
  }

  lemma {:induction false} EnvRunPush(k: Kernel, acts: seq<EnvAction>, a: EnvAction)
    requires EnvLegal(k, acts) && EnvEnabled(EnvRun(k, acts), a)
    ensures EnvLegal(k, acts + [a]) && EnvRun(k, acts + [a]) == EnvNext(EnvRun(k, acts), a)
    decreases |acts|
  {
    var more := acts + [a];
    if acts == [] {
      assert more[1..] == [];
    } else {
      assert more[1..] == acts[1..] + [a];
      EnvRunPush(EnvNext(k, acts[0]), acts[1..], a);
    }
  }
}
