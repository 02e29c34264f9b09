/**
 Robust mutexes shared between processes (pthread/mutex.c over the robust locks of pthread/lowlevellock.c), normal
 and error-checking. Processes die at any point and their ids are not used again. One access to the mutex, or one
 look-up of a process id, is one step; a timed wait may end at any time, as the code polls.
 */
module Robust {
  import opened Threads

  /** The lock word: the owner's process id and the two flag bits. */
  datatype Word = Word(pid: nat, waiters: bool, dead: bool)

  const ZERO: Word := Word(0, false, false)

  const PID_LIMIT: nat := 0x4000_0000
  const NOTRECOVERABLE_ID: nat := 0x8000_0000

  /** The 32 bits of a word: LLL_WAITERS is bit 31, LLL_DEAD_OWNER bit 30. */
  function Bits(w: Word): nat {
    w.pid + (if w.dead then 0x4000_0000 else 0) + (if w.waiters then 0x8000_0000 else 0)
  }

  datatype Code = OK | EOWNERDEAD | ENOTRECOVERABLE | EDEADLK | EBUSY | ETIMEDOUT | EPERM | EINVAL

  datatype Type = Normal | ErrorCheck

  datatype Kind = Block | Timed | Try

  datatype Op = Lock(k: Kind) | Unlock | Consistent

  /** Inside lock, timedlock or trylock: the checks, the robust lock itself, and what follows it. */
  datatype RkPc =
    | RkTest
    | RkPid
    | RkFirst
    | RkGrab
    | RkMark(v: Word)
    | RkSecond
    | RkGrabW
    | RkProbe(v: Word)
    | RkTake(v: Word)
    | RkPause

  /** Inside `lll_robust_trylock`. */
  datatype RtPc = RtLoad | RtGrab | RtProbe(v: Word) | RtTake(v: Word)

  /** After the robust lock was obtained, from a dead owner or not. */
  datatype RwPc = RwWon(dead: bool) | RwOwn(dead: bool) | RwOne(dead: bool) | RwSee | RwFlag(v: Word)

  /** Inside unlock or consistent. */
  datatype RuPc =
    | RuTest
    | RuPid
    | RuDec
    | RuSee
    | RuMark(dead: bool)
    | RuLoad
    | RuWake
    | RuCas(v: Word)
    | RcLoad
    | RcCas(v: Word)
    | RcOwn
    | RcOne

  datatype Pc = Out(last: Code) | Dead | Rk(l: RkPc, k: Kind) | Rt(r: RtPc) | Rw(x: RwPc) | Ru(u: RuPc)

  /** `__lock`, `__owner_id` and `__cnt`. */
  datatype Words = Words(lock: Word, owner: nat, cnt: nat)

  /** A thread: its process, and its id within it. */
  datatype Who = Who(pid: nat, id: nat)

  datatype Holder = Nobody | By(t: Tid)

  /** `holder` is the thread whose lock the word is; `held` the live threads that lock returned 0 or EOWNERDEAD to and
      that have not given it up; `torn` says that a dead owner's lock was taken over and not made consistent since;
      `doomed`, that the mutex was unlocked while torn; `orphaned` counts the deaths of holders, `taken` the takeovers. */
  datatype State = State(w: Words, ty: Type, who: map<Tid, Who>, pc: map<Tid, Pc>, alive: set<nat>,
                         holder: Holder, held: set<Tid>, torn: bool, doomed: bool, orphaned: nat, taken: nat)

  /** A step of a thread, or the death of a process. */
  datatype Event = Act(t: Tid, op: Op, fail: bool, late: bool) | Die(pid: nat)

  datatype Deed = Nothing | Acquire | Takeover | Grant | Drop | Mend | Release

  datatype Move = Move(p: Pc, w: Words, deed: Deed)

  function Begin(op: Op): Pc {
    match op
    case Lock(k) => Rk(RkTest, k)
    case Unlock => Ru(RuTest)
    case Consistent => Ru(RcLoad)
  }

  /** Where the checks of ROBUST_LOCK lead when they find nothing. */
  function Contend(k: Kind): Pc { if k.Try? then Rt(RtLoad) else Rk(RkFirst, k) }

  /** The checks of ROBUST_LOCK, `lll_robust_lock` and `__lll_robust_abstimed_lock`. */
  function LockMove(l: RkPc, k: Kind, w: Words, ty: Type, me: Who, alive: set<nat>, e: Event): Move
    requires e.Act?
  {
    match l
    case RkTest =>
      Move(if w.owner == NOTRECOVERABLE_ID then Out(ENOTRECOVERABLE)
           else if w.owner == me.id then Rk(RkPid, k)
           else Contend(k), w, Nothing)
    case RkPid =>
      Move(if w.lock.pid == me.pid && ty.ErrorCheck? then Out(EDEADLK) else Contend(k), w, Nothing)
    case RkFirst => Move(Rk(if w.lock == ZERO then RkGrab else RkMark(w.lock), k), w, Nothing)
    case RkGrab =>
      if w.lock == ZERO && !e.fail then Move(Rw(RwWon(false)), w.(lock := Word(me.pid, false, false)), Acquire)
      else Move(Rk(RkFirst, k), w, Nothing)
    case RkMark(v) =>
      if w.lock == v && !e.fail then Move(Rk(RkSecond, k), w.(lock := v.(waiters := true)), Nothing)
      else Move(Rk(RkFirst, k), w, Nothing)
    case RkSecond => Move(Rk(if w.lock == ZERO then RkGrabW else RkProbe(w.lock), k), w, Nothing)
    case RkGrabW =>
      if w.lock == ZERO && !e.fail then Move(Rw(RwWon(false)), w.(lock := Word(me.pid, true, false)), Acquire)
      else Move(Rk(RkPause, k), w, Nothing)
    case RkProbe(v) => Move(Rk(if v.pid in alive then RkPause else RkTake(v), k), w, Nothing)
    case RkTake(v) =>
      if w.lock == v && !e.fail then Move(Rw(RwWon(true)), w.(lock := Word(me.pid, true, false)), Takeover)
      else Move(Rk(RkSecond, k), w, Nothing)
    case RkPause => Move(if k.Timed? && e.late then Out(ETIMEDOUT) else Rk(RkSecond, k), w, Nothing)
  }

  /** `lll_robust_trylock`. */
  function TryMove(r: RtPc, w: Words, me: Who, alive: set<nat>, e: Event): Move
    requires e.Act?
  {
    match r
    case RtLoad => Move(Rt(if w.lock == ZERO then RtGrab else RtProbe(w.lock)), w, Nothing)
    case RtGrab =>
      if w.lock == ZERO && !e.fail then Move(Rw(RwWon(false)), w.(lock := Word(me.pid, false, false)), Acquire)
      else Move(Out(EBUSY), w, Nothing)
    case RtProbe(v) => Move(if v.pid in alive then Out(EBUSY) else Rt(RtTake(v)), w, Nothing)
    case RtTake(v) =>
      if w.lock == v && !e.fail then Move(Rw(RwWon(true)), w.(lock := Word(me.pid, false, false)), Takeover)
      else Move(Out(EBUSY), w, Nothing)
  }

  /** The rest of ROBUST_LOCK. */
  function WonMove(x: RwPc, w: Words, me: Who): Move {
    match x
    case RwWon(dead) =>
      Move(if w.owner == NOTRECOVERABLE_ID then Out(ENOTRECOVERABLE) else Rw(RwOwn(dead)), w, Nothing)
    case RwOwn(dead) => Move(Rw(RwOne(dead)), w.(owner := me.id), Nothing)
    case RwOne(dead) =>
      if dead then Move(Rw(RwSee), w.(cnt := 1), Nothing) else Move(Out(OK), w.(cnt := 1), Grant)
    case RwSee => Move(Rw(RwFlag(w.lock)), w, Nothing)
    case RwFlag(v) => Move(Out(EOWNERDEAD), w.(lock := v.(dead := true)), Grant)
  }

  /** `pthread_mutex_unlock` with `lll_robust_unlock`, and `pthread_mutex_consistent`. */
  function UnlockMove(u: RuPc, w: Words, me: Who, e: Event): Move
    requires e.Act?
  {
    match u
    case RuTest =>
      Move(if w.owner == NOTRECOVERABLE_ID then Out(OK) else if w.owner != me.id then Out(EPERM) else Ru(RuPid), w, Nothing)
    case RuPid => Move(if w.lock.pid != me.pid then Out(EPERM) else Ru(RuDec), w, Nothing)
    case RuDec => Move(if Dec(w.cnt) == 0 then Ru(RuSee) else Out(OK), w.(cnt := Dec(w.cnt)), Nothing)
    case RuSee => Move(Ru(RuMark(w.lock.dead)), w, Nothing)
    case RuMark(dead) => Move(Ru(RuLoad), w.(owner := if dead then NOTRECOVERABLE_ID else 0), Drop)
    case RuLoad => Move(Ru(if w.lock.waiters then RuWake else RuCas(w.lock)), w, Nothing)
    case RuWake => Move(Out(OK), w.(lock := ZERO), Release)
    case RuCas(v) =>
      if w.lock == v && !e.fail then Move(Out(OK), w.(lock := ZERO), Release) else Move(Ru(RuLoad), w, Nothing)
    case RcLoad => Move(if w.lock.dead then Ru(RcCas(w.lock)) else Out(EINVAL), w, Nothing)
    case RcCas(v) =>
      if w.lock == v && !e.fail then Move(Ru(RcOwn), w.(lock := Word(me.pid, true, false)), Mend)
      else Move(Out(EINVAL), w, Nothing)
    case RcOwn => Move(Ru(RcOne), w.(owner := me.id), Nothing)
    case RcOne => Move(Out(OK), w.(cnt := 1), Nothing)
  }

  function Next(p: Pc, w: Words, ty: Type, me: Who, alive: set<nat>, e: Event): Move
    requires e.Act?
  {
    match p
    case Out(_) => Move(Begin(e.op), w, Nothing)
    case Dead => Move(Dead, w, Nothing)
    case Rk(l, k) => LockMove(l, k, w, ty, me, alive, e)
    case Rt(r) => TryMove(r, w, me, alive, e)
    case Rw(x) => WonMove(x, w, me)
    case Ru(u) => UnlockMove(u, w, me, e)
  }

  /** A thread that does not hold the mutex passes the tests of unlock: it has seen its own id, and now sees its own
      process. */
  predicate Intrudes(s: State, e: Event) {
    && e.Act? && e.t in s.pc && e.t in s.who && s.pc[e.t] == Ru(RuPid)
    && e.t !in s.held && s.w.lock.pid == s.who[e.t].pid
  }

  function HolderAfter(h: Holder, d: Deed, t: Tid): Holder {
    if d.Acquire? || d.Takeover? then By(t) else if d.Release? then Nobody else h
  }

  function HeldAfter(held: set<Tid>, d: Deed, t: Tid): set<Tid> {
    if d.Grant? then held + {t} else if d.Drop? then held - {t} else held
  }

  function TornAfter(torn: bool, d: Deed): bool {
    match d
    case Takeover => true
    case Mend | Release => false
    case Nothing | Acquire | Grant | Drop => torn
  }

  /** The threads of a process die with it. */
  function Mourn(pc: map<Tid, Pc>, who: map<Tid, Who>, pid: nat): map<Tid, Pc> {
    map t | t in pc :: if t in who && who[t].pid == pid then Dead else pc[t]
  }

  function Survivors(held: set<Tid>, who: map<Tid, Who>, pid: nat): set<Tid> {
    set t | t in held && !(t in who && who[t].pid == pid)
  }

  function MoveOf(s: State, e: Event): Move
    requires e.Act? && e.t in s.pc && e.t in s.who
  {
    Next(s.pc[e.t], s.w, s.ty, s.who[e.t], s.alive, e)
  }

  function Step(s: State, e: Event): State
    requires e.Act? ==> e.t in s.pc && e.t in s.who
  {
    match e
    case Act(t, _, _, _) =>
      var m := MoveOf(s, e);
      s.(w := m.w, pc := s.pc[t := m.p], holder := HolderAfter(s.holder, m.deed, t), held := HeldAfter(s.held, m.deed, t),
         torn := TornAfter(s.torn, m.deed), doomed := s.doomed || (m.deed.Drop? && s.torn),
         taken := if m.deed.Takeover? then s.taken + 1 else s.taken)
    case Die(pid) =>
      s.(pc := Mourn(s.pc, s.who, pid), alive := s.alive - {pid}, held := Survivors(s.held, s.who, pid),
         orphaned := if s.holder.By? && s.holder.t in s.who && s.who[s.holder.t].pid == pid then s.orphaned + 1
                     else s.orphaned)
  }

  /** Only the holder declares the mutex consistent; a process dies once. */
  predicate Enabled(s: State, e: Event) {
    match e
    case Act(t, op, _, _) =>
      && t in s.pc && t in s.who
      && (s.pc[t].Out? && op.Consistent? ==> t in s.held)
    case Die(pid) => pid in s.alive
  }

  /** `pthread_mutex_init`, with any threads of any processes; the ids of a process's threads are distinct. */
  predicate Initial(s: State) {
    && s.w == Words(ZERO, 0, 0)
    && s.who.Keys == s.pc.Keys
    && (forall t :: t in s.pc ==> s.pc[t].Out? && 0 < s.who[t].pid < PID_LIMIT && 0 < s.who[t].id < NOTRECOVERABLE_ID
                                  && s.who[t].pid in s.alive)
    && (forall t, u :: t in s.who && u in s.who && s.who[t] == s.who[u] ==> t == u)
    && s.holder == Nobody && s.held == {} && !s.torn && !s.doomed && s.orphaned == 0 && s.taken == 0
  }

  /** A live thread as the invariants see it: whether the word is its own, whether lock said so. */
  datatype Me = Me(who: Who, holds: bool, has: bool)

  /** The state as a thread's claims see it. */
  datatype View = View(w: Words, alive: set<nat>, torn: bool, doomed: bool)

  predicate Here(p: Pc, me: Me, v: View) {
    && (me.has ==> me.holds && !v.doomed && v.w.owner == me.who.id && (v.w.lock.dead <==> v.torn))
    && match p
       case Out(_) => (me.has ==> v.w.cnt == 1) && (me.holds ==> me.has || v.doomed)
       case Dead => !me.has
       case Rk(l, k) =>
         && (k.Try? ==> l.RkTest? || l.RkPid?)
         && (me.has ==> v.w.cnt == 1) && (me.holds ==> me.has || (v.doomed && !l.RkPid?))
         && (l.RkMark? || l.RkProbe? ==> l.v != ZERO)
         && (l.RkTake? ==> l.v != ZERO && l.v.pid !in v.alive)
       case Rt(r) =>
         && (me.has ==> v.w.cnt == 1) && (me.holds ==> me.has || v.doomed)
         && (r.RtProbe? ==> r.v != ZERO)
         && (r.RtTake? ==> r.v != ZERO && r.v.pid !in v.alive)
       case Rw(x) =>
         && me.holds && !me.has
         && (!x.RwWon? ==> !v.doomed)
         && (x.RwOne? || x.RwSee? || x.RwFlag? ==> v.w.owner == me.who.id)
         && (x.RwSee? || x.RwFlag? ==> v.w.cnt == 1)
         && (x.RwFlag? ==> x.v.pid == me.who.pid)
         && ((x.RwWon? || x.RwOwn?) && !x.dead ==> v.w.owner == 0 || v.doomed)
         && (if x.RwSee? || x.RwFlag? then v.torn else !v.w.lock.dead && (x.dead <==> v.torn))
       case Ru(u) =>
         && (u.RuTest? ==> me.holds ==> me.has || v.doomed)
         && (u.RuPid? ==> me.holds ==> me.has)
         && (u.RuDec? || u.RuSee? || u.RuMark? || u.RcLoad? || u.RcCas? || u.RcOwn? || u.RcOne? ==> me.has)
         && (u.RuLoad? || u.RuWake? || u.RuCas? ==> me.holds && !me.has && (v.w.owner == 0 || v.doomed))
         && (u.RcCas? ==> u.v.dead && u.v.pid == me.who.pid && (v.w.lock == u.v || v.w.lock == u.v.(waiters := true)))
         && (u.RuMark? ==> (u.dead <==> v.torn))
         && (me.has ==> v.w.cnt == (if u.RuSee? || u.RuMark? then 0 else 1))
  }

  function Self(s: State, t: Tid): Me
    requires t in s.who
  {
    Me(s.who[t], s.holder == By(t), t in s.held)
  }

  function Seen(s: State): View { View(s.w, s.alive, s.torn, s.doomed) }

  ghost predicate Claimed(s: State) {
    && s.who.Keys == s.pc.Keys
    && (forall t :: t in s.pc ==> 0 < s.who[t].pid && 0 < s.who[t].id < NOTRECOVERABLE_ID)
    && (forall t :: t in s.pc ==> Here(s.pc[t], Self(s, t), Seen(s)))
    && (forall t :: t in s.pc ==> (s.pc[t].Dead? <==> s.who[t].pid !in s.alive))
  }

  predicate HolderDead(s: State) {
    s.holder.By? && s.holder.t in s.who && s.who[s.holder.t].pid !in s.alive
  }

  /** The word is 0 exactly while no thread, live or dead, has the lock; else its owner field is the holder's process. */
  ghost predicate Owned(s: State) {
    && (s.w.lock == ZERO <==> s.holder.Nobody?)
    && (s.w.lock == ZERO ==> !s.torn && (s.w.owner == 0 || s.doomed))
    && (s.holder.By? ==> s.holder.t in s.who && s.w.lock.pid == s.who[s.holder.t].pid)
    && s.held <= s.who.Keys
    && (s.doomed <==> s.w.owner == NOTRECOVERABLE_ID)
    && s.orphaned == s.taken + (if HolderDead(s) then 1 else 0)
  }

  ghost predicate Safe(s: State) { Claimed(s) && Owned(s) }
}
