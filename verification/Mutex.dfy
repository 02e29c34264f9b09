/**
 Recursive and error-checking mutexes private to a process (pthread/mutex.c), down to each access to the lock word,
 the owner id and the count. Sleeping on the word is a wait that may end at any time.
 */
module Mutex {
  import opened Threads

  datatype Code = OK | EPERM | EDEADLK | EAGAIN | EBUSY | EINVAL | ETIMEDOUT | ESRCH

  datatype Type = Recursive | ErrorCheck

  /** The plain, timed and `try` variants of lock. */
  datatype Kind = Block | Timed(valid: bool) | Try

  datatype Op = Lock(k: Kind) | Unlock | Transfer(to: Tid)

  /** Inside lock, timedlock or trylock. */
  datatype LkPc =
    | LkTest
    | LkCount
    | LkBump
    | LkPeek
    | LkCas
    | LkSwap
    | LkWait
    | LkOwn
    | LkOne

  /** Inside unlock or transfer. */
  datatype UnPc =
    | UnTest
    | UnDec
    | UnClear
    | UnSwap
    | UnWake
    | TxTest(to: Tid)
    | TxOwn(to: Tid)

  datatype Pc = Out(last: Code) | Lk(l: LkPc, k: Kind) | Un(u: UnPc)

  /** `__lock`, `__owner_id` and `__cnt`. */
  datatype Words = Words(lock: nat, owner: Tid, cnt: nat)

  /** The abstract mutex: who owns it, how deep. */
  datatype Abs = Free | Owned(t: Tid, depth: nat)

  datatype State = State(w: Words, ty: Type, pc: map<Tid, Pc>, abs: Abs)

  datatype Event = Event(t: Tid, op: Op, fail: bool, late: bool)

  /** What an access means for the abstract mutex. */
  datatype Deed = Nothing | Acquire | Deepen | Shallow | Release | Give(to: Tid)

  datatype Move = Move(p: Pc, w: Words, deed: Deed)

  function Begin(op: Op, t: Tid): Pc {
    match op
    case Lock(k) => Lk(LkTest, k)
    case Unlock => Un(UnTest)
    case Transfer(to) => if to == 0 then Out(ESRCH) else if to == t then Out(OK) else Un(TxTest(to))
  }

  /** `pthread_mutex_lock`, `timedlock` and `trylock`, with the low-level lock they call. */
  function LockMove(l: LkPc, k: Kind, w: Words, ty: Type, e: Event): Move {
    match l
    case LkTest =>
      Move(if w.owner != e.t then Lk(LkPeek, k)
           else if ty.Recursive? then Lk(LkCount, k)
           else Out(EDEADLK), w, Nothing)
    case LkCount => Move(if Inc(w.cnt) == 0 then Out(EAGAIN) else Lk(LkBump, k), w, Nothing)
    case LkBump => Move(Out(OK), w.(cnt := Inc(w.cnt)), Deepen)
    case LkPeek => Move(if w.lock == 0 then Lk(LkCas, k) else if k.Try? then Out(EBUSY) else Lk(LkSwap, k), w, Nothing)
    case LkCas =>
      if w.lock == 0 && !e.fail then Move(Lk(LkOwn, k), w.(lock := 1), Acquire)
      else Move(if k.Try? then Out(EBUSY) else Lk(LkSwap, k), w, Nothing)
    case LkSwap =>
      if w.lock == 0 then Move(Lk(LkOwn, k), w.(lock := 2), Acquire)
      else Move(if k.Timed? && !k.valid then Out(EINVAL) else Lk(LkWait, k), w.(lock := 2), Nothing)
    case LkWait => Move(if k.Timed? && e.late then Out(ETIMEDOUT) else Lk(LkSwap, k), w, Nothing)
    case LkOwn => Move(if ty.Recursive? then Lk(LkOne, k) else Out(OK), w.(owner := e.t), Nothing)
    case LkOne => Move(Out(OK), w.(cnt := 1), Nothing)
  }

  /** `pthread_mutex_unlock` and `pthread_mutex_transfer_np`. */
  function UnlockMove(u: UnPc, w: Words, ty: Type, e: Event): Move {
    match u
    case UnTest =>
      Move(if w.owner != e.t then Out(EPERM) else if ty.Recursive? then Un(UnDec) else Un(UnClear), w, Nothing)
    case UnDec =>
      if Dec(w.cnt) == 0 then Move(Un(UnClear), w.(cnt := 0), Nothing)
      else Move(Out(OK), w.(cnt := Dec(w.cnt)), Shallow)
    case UnClear => Move(Un(UnSwap), w.(owner := 0), Nothing)
    case UnSwap => Move(if w.lock != 1 then Un(UnWake) else Out(OK), w.(lock := 0), Release)
    case UnWake => Move(Out(OK), w, Nothing)
    case TxTest(to) => Move(if w.owner != e.t then Out(EPERM) else Un(TxOwn(to)), w, Nothing)
    case TxOwn(to) => Move(Out(OK), w.(owner := to), Give(to))
  }

  function Next(p: Pc, w: Words, ty: Type, e: Event): Move {
    match p
    case Out(_) => Move(Begin(e.op, e.t), w, Nothing)
    case Lk(l, k) => LockMove(l, k, w, ty, e)
    case Un(u) => UnlockMove(u, w, ty, e)
  }

  /** The abstract mutex after a deed of thread `t`. */
  function Do(a: Abs, d: Deed, t: Tid): Abs {
    match d
    case Nothing => a
    case Acquire => Owned(t, 1)
    case Deepen => if a.Owned? then a.(depth := a.depth + 1) else a
    case Shallow => if a.Owned? && a.depth > 0 then a.(depth := a.depth - 1) else a
    case Release => Free
    case Give(to) => if a.Owned? then a.(t := to) else a
  }

  /** What the abstract mutex allows thread `t` to do. */
  predicate Allowed(a: Abs, d: Deed, t: Tid, ty: Type) {
    match d
    case Nothing => true
    case Acquire => a == Free
    case Deepen => ty.Recursive? && a.Owned? && a.t == t && a.depth + 1 < LIMB
    case Shallow => ty.Recursive? && a.Owned? && a.t == t && a.depth > 1
    case Release => a == Owned(t, 1)
    case Give(to) => a.Owned? && a.t == t
  }

  function Step(s: State, e: Event): State
    requires e.t in s.pc
  {
    var m := Next(s.pc[e.t], s.w, s.ty, e);
    State(m.w, s.ty, s.pc[e.t := m.p], Do(s.abs, m.deed, e.t))
  }

  /** A mutex is transferred to a thread that uses it, or to an invalid one. */
  predicate Enabled(s: State, e: Event) {
    && e.t in s.pc
    && (s.pc[e.t].Out? && e.op.Transfer? ==> e.op.to in s.pc || e.op.to == 0)
  }

  /** `pthread_mutex_init`. */
  predicate Initial(s: State) {
    && s.w == Words(0, 0, 0)
    && (forall t :: t in s.pc ==> t > 0 && s.pc[t].Out?)
    && s.abs == Free
  }

  /** Only the owner gets here. */
  predicate OwnersOnly(p: Pc) {
    || (p.Lk? && (p.l.LkCount? || p.l.LkBump? || p.l.LkOwn? || p.l.LkOne?))
    || (p.Un? && (p.u.UnDec? || p.u.UnClear? || p.u.UnSwap? || p.u.TxOwn?))
  }

  /** What the words say while the owner, of depth `d`, is at `p`. */
  predicate Agrees(p: Pc, w: Words, ty: Type, t: Tid, d: nat) {
    && 1 <= d < LIMB && (ty.ErrorCheck? ==> d == 1)
    && (p.Lk? && (p.l.LkCount? || p.l.LkBump? || p.l.LkOne?) ==> ty.Recursive?)
    && (p.Lk? && p.l.LkBump? ==> d + 1 < LIMB)
    && (p.Un? && p.u.UnDec? ==> ty.Recursive?)
    && if p.Lk? && p.l.LkOwn? then w.owner == 0 && w.cnt == 0 && d == 1
       else if p.Lk? && p.l.LkOne? then w.owner == t && w.cnt == 0 && d == 1
       else if p.Un? && p.u.UnClear? then w.owner == t && w.cnt == 0 && d == 1
       else if p.Un? && p.u.UnSwap? then w.owner == 0 && w.cnt == 0 && d == 1
       else w.owner == t && w.cnt == (if ty.Recursive? then d else 0)
  }

  /** The words carry the abstract mutex. */
  ghost predicate Safe(s: State) {
    && (forall t :: t in s.pc ==> t > 0 && (OwnersOnly(s.pc[t]) ==> s.abs.Owned? && s.abs.t == t))
    && (forall t :: t in s.pc && s.pc[t].Un? && (s.pc[t].u.TxTest? || s.pc[t].u.TxOwn?) ==>
          s.pc[t].u.to in s.pc && s.pc[t].u.to != t)
    && s.w.lock <= 2 && (s.w.lock == 0 <==> s.abs.Free?)
    && match s.abs
       case Free => s.w.owner == 0 && s.w.cnt == 0
       case Owned(t, d) => t in s.pc && Agrees(s.pc[t], s.w, s.ty, t, d)
  }
}
