/** A recursive or error-checking mutex as the C object, changed in place by one access at a time. */
module MutexObject {
  import opened Threads
  import opened Mutex
  import opened MutexRuns

  class MutexT {
    var lock: nat
    var owner: Tid
    var cnt: nat
    const ty: Type
    var pc: map<Tid, Pc>
    ghost var abs: Abs

    function MutexWords(): Words
      reads this
    {
      Words(lock, owner, cnt)
    }

    ghost function View(): State
      reads this
    {
      State(MutexWords(), ty, pc, abs)
    }

    ghost predicate Valid()
      reads this
    {
      Safe(View())
    }

    /** `pthread_mutex_init`, for the threads in `users`. */
    constructor (ty: Type, users: set<Tid>)
      requires 0 !in users
      ensures Initial(View()) && pc.Keys == users && this.ty == ty && Valid()
    {
      lock, owner, cnt := 0, 0, 0;
      this.ty := ty;
      pc := map t | t in users :: Out(OK);
      abs := Free;
      new;
      assert pc.Keys == users;
    }

    /** The next access of lock, timedlock or trylock. */
    method LockAccess(l: LkPc, k: Kind, e: Event) returns (next: Pc, ghost deed: Deed)
      modifies this`lock, this`owner, this`cnt
      ensures Move(next, MutexWords(), deed) == LockMove(l, k, old(MutexWords()), ty, e)
    {
      deed := Nothing;
      match l {
        case LkTest =>
          if owner != e.t {
            next := Lk(LkPeek, k);
          } else {
            next := if ty.Recursive? then Lk(LkCount, k) else Out(EDEADLK);
          }
        case LkCount =>
          next := if Inc(cnt) == 0 then Out(EAGAIN) else Lk(LkBump, k);
        case LkBump =>
          cnt := Inc(cnt);
          next, deed := Out(OK), Deepen;
        case LkPeek =>
          if lock == 0 {
            next := Lk(LkCas, k);
          } else {
            next := if k.Try? then Out(EBUSY) else Lk(LkSwap, k);
          }
        case LkCas =>
          if lock == 0 && !e.fail {
            lock := 1;
            next, deed := Lk(LkOwn, k), Acquire;
          } else {
            next := if k.Try? then Out(EBUSY) else Lk(LkSwap, k);
          }
        case LkSwap =>
          var was := lock;
          lock := 2;
          if was == 0 {
            next, deed := Lk(LkOwn, k), Acquire;
          } else {
            next := if k.Timed? && !k.valid then Out(EINVAL) else Lk(LkWait, k);
          }
        case LkWait =>
          next := if k.Timed? && e.late then Out(ETIMEDOUT) else Lk(LkSwap, k);
        case LkOwn =>
          owner := e.t;
          next := if ty.Recursive? then Lk(LkOne, k) else Out(OK);
        case LkOne =>
          cnt := 1;
          next := Out(OK);
      }
    }

    /** The next access of unlock or transfer. */
    method UnlockAccess(u: UnPc, e: Event) returns (next: Pc, ghost deed: Deed)
      modifies this`lock, this`owner, this`cnt
      ensures Move(next, MutexWords(), deed) == UnlockMove(u, old(MutexWords()), ty, e)
    {
      deed := Nothing;
      match u {
        case UnTest =>
          if owner != e.t {
            next := Out(EPERM);
          } else {
            next := if ty.Recursive? then Un(UnDec) else Un(UnClear);
          }
        case UnDec =>
          cnt := Dec(cnt);
          if cnt == 0 {
            next := Un(UnClear);
          } else {
            next, deed := Out(OK), Shallow;
          }
        case UnClear =>
          owner := 0;
          next := Un(UnSwap);
        case UnSwap =>
          next, deed := if lock != 1 then Un(UnWake) else Out(OK), Release;
          lock := 0;
        case UnWake =>
          next := Out(OK);
        case TxTest(to) =>
          next := if owner != e.t then Out(EPERM) else Un(TxOwn(to));
        case TxOwn(to) =>
          owner := to;
          next, deed := Out(OK), Give(to);
      }
    }

    /** One access of thread `e.t`. */
    method Access(e: Event)
      requires e.t in pc
      modifies this
      ensures View() == Step(old(View()), e)
    {
      var next;
      ghost var deed;
      match pc[e.t] {
        case Out(_) => next, deed := Begin(e.op, e.t), Nothing;
        case Lk(l, k) => next, deed := LockAccess(l, k, e);
        case Un(u) => next, deed := UnlockAccess(u, e);
      }
      abs := Do(abs, deed, e.t);
      pc := pc[e.t := next];
    }

    /** Any run of the machine, carried out on the object. */
    method Interleave(schedule: seq<Event>, ghost end: State)
      requires Valid() && Run(View(), schedule, end)
      modifies this
      ensures Valid() && View() == end
    {
      hide Step, Safe;
      var n := 0;
      while n < |schedule|
        invariant n <= |schedule| && Run(View(), schedule[n..], end)
      {
        var e := schedule[n];
        assert schedule[n..][0] == e && schedule[n..][1..] == schedule[n + 1..];
        Access(e);
        n := n + 1;
      }
      RunKeeps(old(View()), schedule, end);
    }
  }
}
