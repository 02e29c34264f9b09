/** A robust mutex in memory shared by processes, changed in place by one access at a time. */
module RobustObject {
  import opened Threads
  import opened Robust
  import opened RobustRuns

  class RobustT {
    var lock: Word
    var owner: nat
    var cnt: nat
    const ty: Type
    const who: map<Tid, Who>
    var pc: map<Tid, Pc>
    var alive: set<nat>
    ghost var holder: Holder
    ghost var held: set<Tid>
    ghost var torn: bool
    ghost var doomed: bool
    ghost var orphaned: nat
    ghost var taken: nat

    function MutexWords(): Words
      reads this
    {
      Words(lock, owner, cnt)
    }

    ghost function View(): State
      reads this
    {
      State(MutexWords(), ty, who, pc, alive, holder, held, torn, doomed, orphaned, taken)
    }

    ghost predicate Valid()
      reads this
    {
      Safe(View())
    }

    /** `pthread_mutex_init` of a shared robust mutex, for the threads in `who`. */
    constructor (ty: Type, who: map<Tid, Who>)
      requires forall t :: t in who ==> 0 < who[t].pid < PID_LIMIT && 0 < who[t].id < NOTRECOVERABLE_ID
      requires forall t, u :: t in who && u in who && who[t] == who[u] ==> t == u
      ensures Initial(View()) && this.who == who && this.ty == ty && Valid()
    {
      lock, owner, cnt := ZERO, 0, 0;
      this.ty, this.who := ty, who;
      pc := map t | t in who :: Out(OK);
      alive := set t | t in who :: who[t].pid;
      holder, held, torn, doomed, orphaned, taken := Nobody, {}, false, false, 0, 0;
      new;
      assert who.Keys == pc.Keys;
      InitialHolds(View());
    }

    /** `atomic_cas_bool` on the lock word. */
    method Cas(v: Word, w: Word, fail: bool) returns (done: bool)
      modifies this`lock
      ensures done <==> old(lock) == v && !fail
      ensures lock == if done then w else old(lock)
    {
      done := lock == v && !fail;
      if done { lock := w; }
    }

    /** The next access of lock or timedlock, up to the robust lock's return. */
    method LockAccess(l: RkPc, k: Kind, me: Who, e: Event) returns (next: Pc, deed: Deed)
      requires e.Act?
      modifies this`lock
      ensures Move(next, MutexWords(), deed) == LockMove(l, k, old(MutexWords()), ty, me, alive, e)
    {
      deed := Nothing;
      var done;
      match l {
        case RkTest =>
          if owner == NOTRECOVERABLE_ID {
            next := Out(ENOTRECOVERABLE);
          } else {
            next := if owner == me.id then Rk(RkPid, k) else Contend(k);
          }
        case RkPid =>
          next := if lock.pid == me.pid && ty.ErrorCheck? then Out(EDEADLK) else Contend(k);
        case RkFirst =>
          next := Rk(if lock == ZERO then RkGrab else RkMark(lock), k);
        case RkGrab =>
          done := Cas(ZERO, Word(me.pid, false, false), e.fail);
          if done {
            next, deed := Rw(RwWon(false)), Acquire;
          } else {
            next := Rk(RkFirst, k);
          }
        case RkMark(v) =>
          done := Cas(v, v.(waiters := true), e.fail);
          next := Rk(if done then RkSecond else RkFirst, k);
        case RkSecond =>
          next := Rk(if lock == ZERO then RkGrabW else RkProbe(lock), k);
        case RkGrabW =>
          done := Cas(ZERO, Word(me.pid, true, false), e.fail);
          if done {
            next, deed := Rw(RwWon(false)), Acquire;
          } else {
            next := Rk(RkPause, k);
          }
        case RkProbe(v) =>
          next := Rk(if v.pid in alive then RkPause else RkTake(v), k);
        case RkTake(v) =>
          done := Cas(v, Word(me.pid, true, false), e.fail);
          if done {
            next, deed := Rw(RwWon(true)), Takeover;
          } else {
            next := Rk(RkSecond, k);
          }
        case RkPause =>
          next := if k.Timed? && e.late then Out(ETIMEDOUT) else Rk(RkSecond, k);
      }
    }

    /** The next access of `lll_robust_trylock`. */
    method TryAccess(r: RtPc, me: Who, e: Event) returns (next: Pc, deed: Deed)
      requires e.Act?
      modifies this`lock
      ensures Move(next, MutexWords(), deed) == TryMove(r, old(MutexWords()), me, alive, e)
    {
      next, deed := Out(EBUSY), Nothing;
      var done;
      match r {
        case RtLoad =>
          next := Rt(if lock == ZERO then RtGrab else RtProbe(lock));
        case RtGrab =>
          done := Cas(ZERO, Word(me.pid, false, false), e.fail);
          if done { next, deed := Rw(RwWon(false)), Acquire; }
        case RtProbe(v) =>
          if v.pid !in alive { next := Rt(RtTake(v)); }
        case RtTake(v) =>
          done := Cas(v, Word(me.pid, false, false), e.fail);
          if done { next, deed := Rw(RwWon(true)), Takeover; }
      }
    }

    /** The next access after the robust lock's return. */
    method WonAccess(x: RwPc, me: Who) returns (next: Pc, deed: Deed)
      modifies this`lock, this`owner, this`cnt
      ensures Move(next, MutexWords(), deed) == WonMove(x, old(MutexWords()), me)
    {
      deed := Nothing;
      match x {
        case RwWon(dead) =>
          next := if owner == NOTRECOVERABLE_ID then Out(ENOTRECOVERABLE) else Rw(RwOwn(dead));
        case RwOwn(dead) =>
          owner := me.id;
          next := Rw(RwOne(dead));
        case RwOne(dead) =>
          cnt := 1;
          if dead {
            next := Rw(RwSee);
          } else {
            next, deed := Out(OK), Grant;
          }
        case RwSee =>
          next := Rw(RwFlag(lock));
        case RwFlag(v) =>
          lock := v.(dead := true);
          next, deed := Out(EOWNERDEAD), Grant;
      }
    }

    /** The next access of unlock or consistent. */
    method UnlockAccess(u: RuPc, me: Who, e: Event) returns (next: Pc, deed: Deed)
      requires e.Act?
      modifies this`lock, this`owner, this`cnt
      ensures Move(next, MutexWords(), deed) == UnlockMove(u, old(MutexWords()), me, e)
    {
      deed := Nothing;
      var done;
      match u {
        case RuTest =>
          if owner == NOTRECOVERABLE_ID {
            next := Out(OK);
          } else {
            next := if owner != me.id then Out(EPERM) else Ru(RuPid);
          }
        case RuPid =>
          next := if lock.pid != me.pid then Out(EPERM) else Ru(RuDec);
        case RuDec =>
          cnt := Dec(cnt);
          next := if cnt == 0 then Ru(RuSee) else Out(OK);
        case RuSee =>
          next := Ru(RuMark(lock.dead));
        case RuMark(dead) =>
          owner := if dead then NOTRECOVERABLE_ID else 0;
          next, deed := Ru(RuLoad), Drop;
        case RuLoad =>
          next := Ru(if lock.waiters then RuWake else RuCas(lock));
        case RuWake =>
          lock := ZERO;
          next, deed := Out(OK), Release;
        case RuCas(v) =>
          done := Cas(v, ZERO, e.fail);
          if done {
            next, deed := Out(OK), Release;
          } else {
            next := Ru(RuLoad);
          }
        case RcLoad =>
          next := if lock.dead then Ru(RcCas(lock)) else Out(EINVAL);
        case RcCas(v) =>
          done := Cas(v, Word(me.pid, true, false), e.fail);
          if done {
            next, deed := Ru(RcOwn), Mend;
          } else {
            next := Out(EINVAL);
          }
        case RcOwn =>
          owner := me.id;
          next := Ru(RcOne);
        case RcOne =>
          cnt := 1;
          next := Out(OK);
      }
    }

    /** The next access of whatever call a thread at `p` is in. */
    method CallAccess(p: Pc, me: Who, e: Event) returns (next: Pc, deed: Deed)
      requires e.Act?
      modifies this`lock, this`owner, this`cnt
      ensures Move(next, MutexWords(), deed) == Next(p, old(MutexWords()), ty, me, alive, e)
    {
      match p {
        case Out(_) => next, deed := Begin(e.op), Nothing;
        case Dead => next, deed := Dead, Nothing;
        case Rk(l, k) => next, deed := LockAccess(l, k, me, e);
        case Rt(r) => next, deed := TryAccess(r, me, e);
        case Rw(x) => next, deed := WonAccess(x, me);
        case Ru(u) => next, deed := UnlockAccess(u, me, e);
      }
    }

    /** One access of a thread. */
    method Access(e: Event)
      requires e.Act? && e.t in pc && e.t in who
      modifies this
      ensures View() == Step(old(View()), e)
    {
      var next, deed := CallAccess(pc[e.t], who[e.t], e);
      holder, held := HolderAfter(holder, deed, e.t), HeldAfter(held, deed, e.t);
      doomed, torn := doomed || (deed.Drop? && torn), TornAfter(torn, deed);
      taken := if deed.Takeover? then taken + 1 else taken;
      pc := pc[e.t := next];
    }

    /** The death of a process. */
    method Exit(pid: nat)
      modifies this
      ensures View() == Step(old(View()), Die(pid))
    {
      pc := Mourn(pc, who, pid);
      alive := alive - {pid};
      held := Survivors(held, who, pid);
      orphaned := if holder.By? && holder.t in who && who[holder.t].pid == pid then orphaned + 1 else orphaned;
    }

    /** Any run of the machine, carried out on the object. */
    method Interleave(schedule: seq<Event>, ghost end: State)
      requires Valid() && Run(View(), schedule, end)
      modifies this
      ensures View() == end
      ensures OrderlyRun(old(View()), schedule, end) ==> Valid()
    {
      hide Step, Safe;
      var n := 0;
      while n < |schedule|
        invariant n <= |schedule| && Run(View(), schedule[n..], end)
      {
        var e := schedule[n];
        assert schedule[n..][0] == e && schedule[n..][1..] == schedule[n + 1..];
        if e.Act? { Access(e); } else { Exit(e.pid); }
        n := n + 1;
      }
      if OrderlyRun(old(View()), schedule, end) { RunKeeps(old(View()), schedule, end); }
    }
  }
}
