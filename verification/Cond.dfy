/**
 Low-level locks (pthread/lowlevellock.c) and condition variables (pthread/cond.c) together: a normal,
 process-private mutex and one condition variable that is only used with it. One atomic access to their words,
 or one `gsync` call, is one step; `atomic_addx_mem` (pthread/pt-internal.h:209-221) counts as one access.
 */
module Cond {
  import opened Threads

  datatype Code = OK | EBUSY | EINVAL | ETIMEDOUT | EINTERRUPTED | CANCELED

  /** A timed call carries whether its `tv_nsec` is in range. */
  datatype Kind = Block | Timed(valid: bool)

  datatype Op = Lock(k: Kind) | TryLock | Unlock | Wait(k: Kind) | Signal | Broadcast

  /** Why a thread takes the mutex: on its own account, or on its way out of a condition wait. */
  datatype Via = Plain(k: Kind) | FromWait(code: Code)

  /** Inside `lll_lock` or `__lll_abstimed_lock`. */
  datatype LkPc = LkPeek | LkCas | LkSwap | LkWait | LkAsleep

  /** What follows an unlock: return, or go on with a condition wait. */
  datatype Then = Done | ThenWait(k: Kind)

  /** Inside pthread_cond_wait or pthread_cond_timedwait; the Cx points are those of the cancellation handler. */
  datatype CwPc =
    | CwSee(k: Kind)
    | CwBind(k: Kind)
    | CwEnter(k: Kind)
    | CwWait(k: Kind, sw: nat)
    | CwAsleep(k: Kind, sw: nat)
    | CwMoved(k: Kind, sw: nat)
    | CwLeave(code: Code)
    | CxLeave(sw: nat)
    | CxWake
    | CwMark(code: Code)

  /** Inside trylock, signal or broadcast. */
  datatype MxPc =
    | TrPeek
    | TrCas
    | SgAdd
    | SgWake
    | BcAdd
    | BcPeek(b: nat)
    | BcMove(b: nat)
    | BcWake(b: nat)

  datatype Pc =
    | Out(last: Code)
    | Lk(l: LkPc, v: Via)
    | UlSwap(n: Then)
    | UlWake(n: Then)
    | Cw(c: CwPc)
    | Mx(x: MxPc)

  /** `lock` is the mutex word, `nw` the waiter count, `bound` whether `__mutex` has been saved. `gen` counts
      all the bumps of the wake-up sequence; the word in memory is its low limb. */
  datatype Words = Words(lock: nat, gen: nat, nw: nat, bound: bool)

  /** `holders` records who was granted the mutex and has not given it back; `leaked` how many waiters were
      interrupted, and so never taken off `nw`. */
  datatype State = State(w: Words, pc: map<Tid, Pc>, holders: set<Tid>, leaked: nat)

  datatype Cut = NoCut | Cancel | Interrupt

  /** Who moves, and how the choices the code does not make turn out. */
  datatype Event = Event(t: Tid, op: Op, fail: bool, late: bool, cut: Cut, pick: Tid)

  datatype Deed =
    | Nothing
    | Grant
    | Drop
    | Leak
    | WakeLock
    | WakeCond
    | WakeAllCond(b: nat)
    | Requeue(b: nat)
    | Flush(b: nat)

  datatype Move = Move(p: Pc, w: Words, deed: Deed)

  predicate Registered(p: Pc) {
    p.Cw? && (p.c.CwWait? || p.c.CwAsleep? || p.c.CwMoved? || p.c.CwLeave? || p.c.CxLeave?)
  }

  /** Asleep on the condition variable. */
  predicate CondSleeping(p: Pc) { p.Cw? && p.c.CwAsleep? }

  /** Asleep on the mutex word: a contender, or a waiter that a broadcast moved there. */
  predicate LockSleeping(p: Pc) { (p.Lk? && p.l.LkAsleep?) || (p.Cw? && p.c.CwMoved?) }

  predicate Asleep(p: Pc) { CondSleeping(p) || LockSleeping(p) }

  /** On the way out of a condition wait, and not yet done with marking the mutex as contended. */
  predicate Returning(p: Pc) {
    || (p.Cw? && (p.c.CwLeave? || p.c.CxLeave? || p.c.CxWake? || p.c.CwMark?))
    || (p.Lk? && p.v.FromWait? && !p.l.LkAsleep?)
  }

  /** A thread that the sleepers on the mutex word can rely on. */
  predicate Covers(p: Pc) { p.UlWake? || (p.Lk? && p.l.LkSwap?) || Returning(p) }

  predicate Expired(k: Kind, e: Event) { k.Timed? && e.late }

  function Begin(op: Op): Pc {
    match op
    case Lock(k) => Lk(LkPeek, Plain(k))
    case TryLock => Mx(TrPeek)
    case Unlock => UlSwap(Done)
    case Wait(k) => if k.Timed? && !k.valid then Out(EINVAL) else Cw(CwSee(k))
    case Signal => Mx(SgAdd)
    case Broadcast => Mx(BcAdd)
  }

  /** Where a thread goes once the mutex is its own. */
  function Acquired(v: Via): Pc {
    if v.Plain? then Out(OK) else Cw(CwMark(v.code))
  }

  predicate Late(v: Via, e: Event) { v.Plain? && Expired(v.k, e) }

  predicate Invalid(v: Via) { v.Plain? && v.k.Timed? && !v.k.valid }

  /** `lll_lock` and `__lll_abstimed_lock`: 0 is free, 1 held, 2 held with possible sleepers. */
  function LockMove(p: LkPc, v: Via, w: Words, e: Event): Move {
    match p
    case LkPeek => Move(Lk(if w.lock == 0 then LkCas else LkSwap, v), w, Nothing)
    case LkCas =>
      if w.lock == 0 && !e.fail then Move(Acquired(v), w.(lock := 1), Grant)
      else Move(Lk(LkSwap, v), w, Nothing)
    case LkSwap =>
      if w.lock == 0 then Move(Acquired(v), w.(lock := 2), Grant)
      else Move(if Invalid(v) then Out(EINVAL) else Lk(LkWait, v), w.(lock := 2), Nothing)
    case LkWait =>
      Move(if Late(v, e) then Out(ETIMEDOUT) else Lk(if w.lock == 2 then LkAsleep else LkSwap, v), w, Nothing)
    case LkAsleep => Move(if Late(v, e) then Out(ETIMEDOUT) else Lk(LkSwap, v), w, Nothing)
  }

  function Proceed(n: Then): Pc {
    if n.Done? then Out(OK) else Cw(CwEnter(n.k))
  }

  /** `lll_unlock`. */
  function UnlockMove(n: Then, w: Words): Move {
    Move(if w.lock != 1 then UlWake(n) else Proceed(n), w.(lock := 0), Drop)
  }

  /** How a sleeping waiter comes back: woken, timed out, interrupted or cancelled. An interrupted one skips the
      decrement of the waiter count. */
  function WaitOver(k: Kind, sw: nat, w: Words, e: Event): Move {
    match e.cut
    case Cancel => Move(Cw(CxLeave(sw)), w, Nothing)
    case Interrupt => Move(Lk(LkPeek, FromWait(if k.Timed? then EINTERRUPTED else OK)), w, Leak)
    case NoCut => Move(Cw(CwLeave(if Expired(k, e) then ETIMEDOUT else OK)), w, Nothing)
  }

  /** `pthread_cond_wait` and `pthread_cond_timedwait`, around their unlock and lock of the mutex. */
  function WaitMove(p: CwPc, w: Words, e: Event): Move {
    match p
    case CwSee(k) => Move(if w.bound then UlSwap(ThenWait(k)) else Cw(CwBind(k)), w, Nothing)
    case CwBind(k) => Move(UlSwap(ThenWait(k)), w.(bound := true), Nothing)
    case CwEnter(k) => Move(Cw(CwWait(k, w.gen)), w.(nw := Inc(w.nw)), Nothing)
    case CwWait(k, sw) =>
      if Expired(k, e) then Move(Cw(CwLeave(ETIMEDOUT)), w, Nothing)
      else Move(Cw(if Limb(w.gen) == Limb(sw) then CwAsleep(k, sw) else CwLeave(OK)), w, Nothing)
    case CwAsleep(k, sw) => WaitOver(k, sw, w, e)
    case CwMoved(k, sw) => WaitOver(k, sw, w, e)
    case CwLeave(code) => Move(Lk(LkPeek, FromWait(code)), w.(nw := Dec(w.nw)), Nothing)
    case CxLeave(sw) =>
      Move(if Limb(w.gen) != Limb(sw) then Cw(CxWake) else Lk(LkPeek, FromWait(CANCELED)), w.(nw := Dec(w.nw)), Nothing)
    case CxWake => Move(Lk(LkPeek, FromWait(CANCELED)), w, WakeAllCond(0))
    case CwMark(code) => Move(Out(code), w.(lock := 2), Nothing)
  }

  /** `lll_trylock`, `pthread_cond_signal` and `pthread_cond_broadcast`. */
  function MixedMove(p: MxPc, w: Words, e: Event): Move {
    match p
    case TrPeek => Move(if w.lock == 0 then Mx(TrCas) else Out(EBUSY), w, Nothing)
    case TrCas =>
      if w.lock == 0 && !e.fail then Move(Out(OK), w.(lock := 1), Grant) else Move(Out(EBUSY), w, Nothing)
    case SgAdd => Move(if w.nw > 0 then Mx(SgWake) else Out(OK), w.(gen := w.gen + 1), Nothing)
    case SgWake => Move(Out(OK), w, WakeCond)
    case BcAdd =>
      if w.nw > 0 then Move(Mx(BcPeek(w.gen + 1)), w.(gen := w.gen + 1), Nothing)
      else Move(Out(OK), w.(gen := w.gen + 1), Flush(w.gen + 1))
    case BcPeek(b) => Move(Mx(if w.bound then BcMove(b) else BcWake(b)), w, Nothing)
    case BcMove(b) => Move(Out(OK), w, Requeue(b))
    case BcWake(b) => Move(Out(OK), w, WakeAllCond(b))
  }

  /** The access that thread `e.t`, at point `p`, makes next. */
  function Next(p: Pc, w: Words, e: Event): Move {
    match p
    case Out(_) => Move(Begin(e.op), w, Nothing)
    case Lk(l, v) => LockMove(l, v, w, e)
    case UlSwap(n) => UnlockMove(n, w)
    case UlWake(n) => Move(Proceed(n), w, WakeLock)
    case Cw(c) => WaitMove(c, w, e)
    case Mx(x) => MixedMove(x, w, e)
  }

  function LockWoken(p: Pc): Pc {
    if !LockSleeping(p) then p else if p.Lk? then Lk(LkSwap, p.v) else Cw(CwLeave(OK))
  }

  function CondWoken(p: Pc): Pc { if CondSleeping(p) then Cw(CwLeave(OK)) else p }

  function CondMoved(p: Pc): Pc { if CondSleeping(p) then Cw(CwMoved(p.c.k, p.c.sw)) else p }

  /** `gsync_wake` and `gsync_requeue`; the latter wakes one sleeper and moves the others to the mutex word. */
  function Wake(pc: map<Tid, Pc>, d: Deed, pick: Tid): map<Tid, Pc> {
    if d.WakeLock? && pick in pc then pc[pick := LockWoken(pc[pick])]
    else if d.WakeCond? && pick in pc then pc[pick := CondWoken(pc[pick])]
    else if d.WakeAllCond? then All(pc, CondWoken)
    else if d.Requeue? then
      if pick in pc then All(pc, CondMoved)[pick := CondWoken(pc[pick])] else All(pc, CondMoved)
    else pc
  }

  function Holders(h: set<Tid>, d: Deed, t: Tid): set<Tid> {
    if d.Grant? then h + {t} else if d.Drop? then h - {t} else h
  }

  function Step(s: State, e: Event): State
    requires e.t in s.pc
  {
    var m := Next(s.pc[e.t], s.w, e);
    State(m.w, Wake(s.pc, m.deed, e.pick)[e.t := m.p], Holders(s.holders, m.deed, e.t),
          if m.deed.Leak? then s.leaked + 1 else s.leaked)
  }

  /** The mutex is unlocked, and a wait begun, by its holder only; a wake reaches a sleeper whenever there is one;
      the waiter count stays short of its 32-bit limit. */
  predicate Enabled(s: State, e: Event) {
    && e.t in s.pc
    && var p := s.pc[e.t];
    && (p.Out? && (e.op.Unlock? || e.op.Wait?) ==> e.t in s.holders)
    && (p.UlWake? && Any(s.pc, LockSleeping) ==> e.pick in s.pc && LockSleeping(s.pc[e.pick]))
    && (p.Mx? && (p.x.SgWake? || p.x.BcMove?) && Any(s.pc, CondSleeping) ==>
          e.pick in s.pc && CondSleeping(s.pc[e.pick]))
    && (p.Cw? && p.c.CwEnter? ==> s.w.nw + 1 < LIMB)
  }

  /** `pthread_cond_destroy`. */
  function Destroy(w: Words): Code { if w.nw != 0 then EBUSY else OK }

  /** `pthread_mutex_init` and `pthread_cond_init`, with any set of threads outside. */
  predicate Initial(s: State) {
    && s.w == Words(0, 0, 0, false)
    && (forall t :: t in s.pc ==> s.pc[t].Out?)
    && s.holders == {} && s.leaked == 0
  }

  /** A thread as the invariants see it. */
  datatype Me = Me(holder: bool)

  predicate Here(p: Pc, me: Me) {
    match p
    case UlSwap(_) => me.holder
    case Cw(c) => c.CwSee? || c.CwBind? || c.CwMark? ==> me.holder
    case Out(_) => true
    case Lk(_, _) => true
    case UlWake(_) => true
    case Mx(_) => true
  }

  ghost predicate Claimed(s: State) {
    forall t :: t in s.pc ==> Here(s.pc[t], Me(t in s.holders))
  }

  /** The word is 0 exactly while nobody holds the mutex, and never do two threads. */
  predicate Owned(s: State) {
    && s.w.lock <= 2
    && (s.w.lock == 0 <==> s.holders == {})
    && |s.holders| <= 1
    && s.holders <= s.pc.Keys
  }

  ghost predicate Counted(s: State) {
    s.w.nw == Tally(s.pc, Registered) + s.leaked && s.w.nw < LIMB
  }

  ghost predicate Safe(s: State) { Claimed(s) && Owned(s) && Counted(s) }

  /** Whoever sleeps on the mutex word will be woken. */
  ghost predicate Covered(s: State) {
    Any(s.pc, LockSleeping) ==> s.w.lock == 2 || Any(s.pc, Covers)
  }

  /** A thread's saved sequence numbers are not ahead of the sequence. */
  predicate Dated(p: Pc, gen: nat) {
    && (p.Cw? && (p.c.CwWait? || p.c.CwAsleep? || p.c.CwMoved? || p.c.CxLeave?) ==> p.c.sw <= gen)
    && (p.Mx? && (p.x.BcPeek? || p.x.BcMove? || p.x.BcWake?) ==> p.x.b <= gen)
  }

  ghost predicate Dating(s: State) { forall t :: t in s.pc ==> Dated(s.pc[t], s.w.gen) }

  /** Asleep on the condition variable since before bump `b`. */
  predicate Early(p: Pc, b: nat) { CondSleeping(p) && p.c.sw < b }

  function EarlyTo(b: nat): Pc -> bool { p => Early(p, b) }

  /** A waiter that registered before bump `b` compares its number with the sequence, and finds them equal. */
  predicate Laps(s: State, e: Event, b: nat)
    requires e.t in s.pc
  {
    var p := s.pc[e.t];
    p.Cw? && p.c.CwWait? && !Expired(p.c.k, e) && p.c.sw < b && Limb(s.w.gen) == Limb(p.c.sw)
  }
}
