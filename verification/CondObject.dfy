/** The mutex and the condition variable as C objects, changed in place by one access at a time. */
module CondObject {
  import opened Threads
  import opened Cond
  import opened CondProofs
  import opened CondRuns

  class MutexAndCond {
    var lock: nat
    var gen: nat
    var nw: nat
    var bound: bool
    var pc: map<Tid, Pc>
    var holders: set<Tid>
    var leaked: nat

    function SharedWords(): Words
      reads this
    {
      Words(lock, gen, nw, bound)
    }

    function View(): State
      reads this
    {
      State(SharedWords(), pc, holders, leaked)
    }

    ghost predicate Valid()
      reads this
    {
      Good(View())
    }

    /** `pthread_mutex_init` and `pthread_cond_init`, for the threads in `users`. */
    constructor (users: set<Tid>)
      ensures Initial(View()) && pc.Keys == users && Valid()
    {
      lock, gen, nw, bound := 0, 0, 0, false;
      pc := map t | t in users :: Out(OK);
      holders, leaked := {}, 0;
      new;
      assert pc.Keys == users;
      InitialHolds(View());
    }

    /** The next access of `lll_lock` or `__lll_abstimed_lock`. */
    method LllLock(p: LkPc, v: Via, e: Event) returns (next: Pc, deed: Deed)
      modifies this`lock
      ensures Move(next, SharedWords(), deed) == LockMove(p, v, old(SharedWords()), e)
    {
      deed := Nothing;
      match p {
        case LkPeek =>
          next := Lk(if lock == 0 then LkCas else LkSwap, v);
        case LkCas =>
          if lock == 0 && !e.fail {
            lock := 1;
            next, deed := Acquired(v), Grant;
          } else {
            next := Lk(LkSwap, v);
          }
        case LkSwap =>
          var was := lock;
          lock := 2;
          if was == 0 {
            next, deed := Acquired(v), Grant;
          } else if Invalid(v) {
            next := Out(EINVAL);
          } else {
            next := Lk(LkWait, v);
          }
        case LkWait =>
          if Late(v, e) {
            next := Out(ETIMEDOUT);
          } else {
            next := Lk(if lock == 2 then LkAsleep else LkSwap, v);
          }
        case LkAsleep =>
          next := if Late(v, e) then Out(ETIMEDOUT) else Lk(LkSwap, v);
      }
    }

    /** The swap of `lll_unlock`. */
    method LllUnlock(n: Then) returns (next: Pc, deed: Deed)
      modifies this`lock
      ensures Move(next, SharedWords(), deed) == UnlockMove(n, old(SharedWords()))
    {
      next, deed := if lock != 1 then UlWake(n) else Proceed(n), Drop;
      lock := 0;
    }

    /** The next access of pthread_cond_wait or pthread_cond_timedwait. */
    method CondWait(p: CwPc, e: Event) returns (next: Pc, deed: Deed)
      modifies this`lock, this`nw, this`bound
      ensures Move(next, SharedWords(), deed) == WaitMove(p, old(SharedWords()), e)
    {
      deed := Nothing;
      match p {
        case CwSee(k) =>
          next := if bound then UlSwap(ThenWait(k)) else Cw(CwBind(k));
        case CwBind(k) =>
          bound := true;
          next := UlSwap(ThenWait(k));
        case CwEnter(k) =>
          nw := Inc(nw);
          next := Cw(CwWait(k, gen));
        case CwWait(k, sw) =>
          if Expired(k, e) {
            next := Cw(CwLeave(ETIMEDOUT));
          } else {
            next := Cw(if Limb(gen) == Limb(sw) then CwAsleep(k, sw) else CwLeave(OK));
          }
        case CwAsleep(k, sw) =>
          next, deed := CondWaitOver(k, sw, e);
        case CwMoved(k, sw) =>
          next, deed := CondWaitOver(k, sw, e);
        case CwLeave(code) =>
          nw := Dec(nw);
          next := Lk(LkPeek, FromWait(code));
        case CxLeave(sw) =>
          nw := Dec(nw);
          next := if Limb(gen) != Limb(sw) then Cw(CxWake) else Lk(LkPeek, FromWait(CANCELED));
        case CxWake =>
          next, deed := Lk(LkPeek, FromWait(CANCELED)), WakeAllCond(0);
        case CwMark(code) =>
          lock := 2;
          next := Out(code);
      }
    }

    /** How a sleeping waiter comes back. */
    method CondWaitOver(k: Kind, sw: nat, e: Event) returns (next: Pc, deed: Deed)
      ensures Move(next, SharedWords(), deed) == WaitOver(k, sw, SharedWords(), e)
    {
      deed := Nothing;
      if e.cut.Cancel? {
        next := Cw(CxLeave(sw));
      } else if e.cut.Interrupt? {
        next, deed := Lk(LkPeek, FromWait(if k.Timed? then EINTERRUPTED else OK)), Leak;
      } else {
        next := Cw(CwLeave(if Expired(k, e) then ETIMEDOUT else OK));
      }
    }

    /** The next access of `lll_trylock`, pthread_cond_signal or pthread_cond_broadcast. */
    method TryOrNotify(p: MxPc, e: Event) returns (next: Pc, deed: Deed)
      modifies this`lock, this`gen
      ensures Move(next, SharedWords(), deed) == MixedMove(p, old(SharedWords()), e)
    {
      deed := Nothing;
      match p {
        case TrPeek =>
          next := if lock == 0 then Mx(TrCas) else Out(EBUSY);
        case TrCas =>
          if lock == 0 && !e.fail {
            lock := 1;
            next, deed := Out(OK), Grant;
          } else {
            next := Out(EBUSY);
          }
        case SgAdd =>
          gen := gen + 1;
          next := if nw > 0 then Mx(SgWake) else Out(OK);
        case SgWake =>
          next, deed := Out(OK), WakeCond;
        case BcAdd =>
          gen := gen + 1;
          if nw > 0 {
            next := Mx(BcPeek(gen));
          } else {
            next, deed := Out(OK), Flush(gen);
          }
        case BcPeek(b) =>
          next := Mx(if bound then BcMove(b) else BcWake(b));
        case BcMove(b) =>
          next, deed := Out(OK), Requeue(b);
        case BcWake(b) =>
          next, deed := Out(OK), WakeAllCond(b);
      }
    }

    /** One access of thread `e.t`. */
    method Access(e: Event)
      requires e.t in pc
      modifies this
      ensures View() == Step(old(View()), e)
    {
      var next, deed;
      match pc[e.t] {
        case Out(_) => next, deed := Begin(e.op), Nothing;
        case Lk(l, v) => next, deed := LllLock(l, v, e);
        case UlSwap(n) => next, deed := LllUnlock(n);
        case UlWake(n) => next, deed := Proceed(n), WakeLock;
        case Cw(c) => next, deed := CondWait(c, e);
        case Mx(x) => next, deed := TryOrNotify(x, e);
      }
      pc := Wake(pc, deed, e.pick)[e.t := next];
      holders := Holders(holders, deed, e.t);
      leaked := if deed.Leak? then leaked + 1 else leaked;
    }

    /** Any run of the machine, carried out on the object. */
    method Interleave(schedule: seq<Event>, ghost end: State)
      requires Valid() && Run(View(), schedule, end)
      modifies this
      ensures Valid() && View() == end
    {
      hide Step, Good;
      var n := 0;
      while n < |schedule|
        invariant n <= |schedule| && Run(View(), schedule[n..], end)
      {
        var e := schedule[n];
        assert schedule[n..][0] == e && schedule[n..][1..] == schedule[n + 1..];
        Access(e);
        n := n + 1;
      }
      RunKeeps(old(View()), schedule, end);
    }
  }
}
