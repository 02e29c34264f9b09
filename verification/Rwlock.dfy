/**
 Read-write locks (pthread/rwlock.c): one atomic access to the lock words, or one `gsync` call, is one step.
 The words are the owner id, the reader count and the queued-writer count; everything else about a state says
 where each thread is and which threads hold the lock.
 */
module Rwlock {
  import opened Threads

  const UNOWNED: nat := 0
  const RO: nat := 0x8000_0000
  const ID_LIMIT: nat := 0x2000_0000

  /** `oid & PTHREAD_ID_MASK` keeps the low 29 bits. */
  function IdBits(oid: nat): nat { oid % 0x2000_0000 }

  datatype Code = OK | EDEADLK | EBUSY | EINVAL | ETIMEDOUT | EPERM

  /** The plain, `try` and `timed` variants; a timed call carries whether its `tv_nsec` is in range. */
  datatype Kind = Block | Try | Timed(valid: bool)

  datatype Op = Read(k: Kind) | Write(k: Kind) | Unlock

  /** Inside rdlock, tryrdlock or timedrdlock. */
  datatype RdPc =
    | RdEntry(k: Kind)
    | RdLoad(k: Kind)
    | RdCas(k: Kind, o: nat, n: nat)
    | RdShare
    | RdEnter(k: Kind, o: nat)
    | RdWait(k: Kind, o: nat)
    | RdAsleep(k: Kind)
    | RdLeave(k: Kind, late: bool)

  /** Inside wrlock, trywrlock or timedwrlock. */
  datatype WrPc =
    | WrEntry(k: Kind)
    | WrPeek
    | WrPeeked(o: nat)
    | WrLoad(k: Kind)
    | WrCas(k: Kind)
    | WrEnter(k: Kind, o: nat)
    | WrWait(k: Kind, n: nat, o: nat)
    | WrAsleep(k: Kind)
    | WrLeave(k: Kind, late: bool)
    | WrRecheck(n: nat)
    | WrHand

  /** Inside unlock. */
  datatype UnPc =
    | UnLoad
    | UnOwner
    | UnStore
    | UnSeeWr
    | UnSeeRd
    | UnWakeWr
    | UnWakeRd
    | UnCount
    | UnRdLoad
    | UnRdCas(o: nat, n: nat)
    | UnLastSee

  datatype Pc = Out(last: Code) | Rd(r: RdPc) | Wr(w: WrPc) | Un(u: UnPc)

  /** The lock words. */
  datatype Words = Words(oid: nat, nrd: nat, qwr: nat)

  /** `readers` and `writers` record who was granted the lock and has not yet given it back. */
  datatype State = State(w: Words, pc: map<Tid, Pc>, readers: multiset<Tid>, writers: set<Tid>)

  /** Who moves, and how the choices the code does not make turn out: the call that an idle thread issues,
      whether a compare-and-swap fails for no reason, whether a deadline has passed, whom a wake picks. */
  datatype Event = Event(t: Tid, op: Op, fail: bool, late: bool, pick: Tid)

  /** What one access does besides moving its thread: wake sleepers, grant or give back the lock. */
  datatype Deed = Nothing | WakeWriter | WakeReaders | GrantRead | GrantWrite | DropRead | DropWrite

  datatype Move = Move(p: Pc, w: Words, deed: Deed)

  predicate RdQueued(p: Pc) { p.Rd? && (p.r.RdWait? || p.r.RdAsleep? || p.r.RdLeave?) }
  predicate WrQueued(p: Pc) { p.Wr? && (p.w.WrWait? || p.w.WrAsleep? || p.w.WrLeave?) }
  predicate RdSleeping(p: Pc) { p.Rd? && p.r.RdAsleep? }
  predicate WrSleeping(p: Pc) { p.Wr? && p.w.WrAsleep? }
  predicate Sharing(p: Pc) { p.Rd? && p.r.RdShare? }
  predicate Probing(p: Pc) { p.Rd? && (p.r.RdLoad? || p.r.RdCas?) }

  /** A writer that will see an unowned lock before it can sleep or give up. */
  predicate Committed(p: Pc) {
    p.Wr? && (p.w.WrLoad? || (p.w.WrCas? && !p.w.k.Try?) || (p.w.WrLeave? && !p.w.late))
  }

  predicate WakesWriter(p: Pc) {
    Committed(p) || (p.Un? && (p.u.UnSeeWr? || p.u.UnWakeWr? || p.u.UnLastSee?))
  }

  predicate WakesReader(p: Pc) {
    || Committed(p)
    || (p.Un? && (p.u.UnSeeWr? || p.u.UnSeeRd? || p.u.UnWakeRd?))
    || (p.Wr? && (p.w.WrWait? || p.w.WrLeave? || (p.w.WrRecheck? && p.w.n == 1) || p.w.WrHand?))
  }

  function Begin(op: Op): Pc {
    match op
    case Read(k) => Rd(RdEntry(k))
    case Write(k) => Wr(if k.Try? then WrPeek else WrEntry(k))
    case Unlock => Un(UnLoad)
  }

  predicate Expired(k: Kind, e: Event) { k.Timed? && e.late }

  /** `pthread_rwlock_rdlock`, `tryrdlock` and `timedrdlock`. */
  function ReadMove(p: RdPc, w: Words, e: Event): Move {
    match p
    case RdEntry(k) => Move(if w.oid == e.t then Out(EDEADLK) else Rd(RdLoad(k)), w, Nothing)
    case RdLoad(k) =>
      Move(if IdBits(w.oid) == 0 then Rd(RdCas(k, w.oid, w.nrd))
           else if k.Try? then Out(EBUSY)
           else if k.Timed? && !k.valid then Out(EINVAL)
           else Rd(RdEnter(k, w.oid)), w, Nothing)
    case RdCas(k, o, n) =>
      if w.oid == o && w.nrd == n && !e.fail
      then Move(if o == UNOWNED && n > 0 then Rd(RdShare) else Out(OK), w.(oid := RO, nrd := Inc(n)), GrantRead)
      else Move(Rd(RdLoad(k)), w, Nothing)
    case RdShare => Move(Out(OK), w, WakeReaders)
    case RdEnter(k, o) => Move(Rd(RdWait(k, o)), w.(nrd := Inc(w.nrd)), Nothing)
    case RdWait(k, o) =>
      Move(Rd(if Expired(k, e) then RdLeave(k, true)
              else if w.oid == o then RdAsleep(k)
              else RdLeave(k, false)), w, Nothing)
    case RdAsleep(k) => Move(Rd(RdLeave(k, Expired(k, e))), w, Nothing)
    case RdLeave(k, late) =>
      Move(if late then Out(ETIMEDOUT) else Rd(RdLoad(k)), w.(nrd := Dec(w.nrd)), Nothing)
  }

  /** `pthread_rwlock_wrlock`, `trywrlock` and `timedwrlock`. */
  function WriteMove(p: WrPc, w: Words, e: Event): Move {
    match p
    case WrEntry(k) => Move(if w.oid == e.t then Out(EDEADLK) else Wr(WrLoad(k)), w, Nothing)
    case WrPeek => Move(Wr(WrPeeked(w.oid)), w, Nothing)
    case WrPeeked(o) =>
      Move(if w.oid == e.t then Out(EDEADLK) else if o == UNOWNED then Wr(WrCas(Try)) else Out(EBUSY), w, Nothing)
    case WrLoad(k) =>
      Move(if w.oid == UNOWNED then Wr(WrCas(k))
           else if k.Timed? && !k.valid then Out(EINVAL)
           else Wr(WrEnter(k, w.oid)), w, Nothing)
    case WrCas(k) =>
      if w.oid == UNOWNED && !e.fail then Move(Out(OK), w.(oid := e.t), GrantWrite)
      else Move(if k.Try? then Out(EBUSY) else Wr(WrLoad(k)), w, Nothing)
    case WrEnter(k, o) => Move(Wr(WrWait(k, Inc(w.qwr), o)), w.(qwr := Inc(w.qwr)), Nothing)
    case WrWait(k, n, o) =>
      Move(Wr(if Expired(k, e) then WrLeave(k, true)
              else if w.qwr == n && w.oid == o then WrAsleep(k)
              else WrLeave(k, false)), w, Nothing)
    case WrAsleep(k) => Move(Wr(WrLeave(k, Expired(k, e))), w, Nothing)
    case WrLeave(k, late) =>
      Move(Wr(if late then WrRecheck(w.qwr) else WrLoad(k)), w.(qwr := Dec(w.qwr)), Nothing)
    case WrRecheck(n) =>
      Move(if n == 1 && w.nrd > 0 && w.oid == UNOWNED then Wr(WrHand) else Out(ETIMEDOUT), w, Nothing)
    case WrHand => Move(Out(ETIMEDOUT), w, WakeReaders)
  }

  /** `pthread_rwlock_unlock`. */
  function UnlockMove(p: UnPc, w: Words, e: Event): Move {
    match p
    case UnLoad => Move(Un(if IdBits(w.oid) != 0 then UnOwner else UnCount), w, Nothing)
    case UnOwner => Move(if w.oid == e.t then Un(UnStore) else Out(EPERM), w, Nothing)
    case UnStore => Move(Un(UnSeeWr), w.(oid := UNOWNED), DropWrite)
    case UnSeeWr => Move(Un(if w.qwr > 0 then UnWakeWr else UnSeeRd), w, Nothing)
    case UnSeeRd => Move(if w.nrd > 0 then Un(UnWakeRd) else Out(OK), w, Nothing)
    case UnWakeWr => Move(Out(OK), w, WakeWriter)
    case UnWakeRd => Move(Out(OK), w, WakeReaders)
    case UnCount => Move(if w.nrd == 0 then Out(EPERM) else Un(UnRdLoad), w, Nothing)
    case UnRdLoad => Move(Un(UnRdCas(w.oid, w.nrd)), w, Nothing)
    case UnRdCas(o, n) =>
      if w.oid == o && w.nrd == n && !e.fail
      then Move(if n == 1 then Un(UnLastSee) else Out(OK),
                w.(oid := if n == 1 then UNOWNED else o, nrd := Dec(n)), DropRead)
      else Move(Un(UnRdLoad), w, Nothing)
    case UnLastSee => Move(if w.qwr > 0 then Un(UnWakeWr) else Out(OK), w, Nothing)
  }

  /** The access that thread `e.t`, at point `p`, makes next. */
  function Next(p: Pc, w: Words, e: Event): Move {
    match p
    case Out(_) => Move(Begin(e.op), w, Nothing)
    case Rd(r) => ReadMove(r, w, e)
    case Wr(q) => WriteMove(q, w, e)
    case Un(u) => UnlockMove(u, w, e)
  }

  function ReaderWoken(p: Pc): Pc { if RdSleeping(p) then Rd(RdLeave(p.r.k, false)) else p }

  function WriterWoken(p: Pc): Pc { if WrSleeping(p) then Wr(WrLeave(p.w.k, false)) else p }

  function Wake(pc: map<Tid, Pc>, d: Deed, pick: Tid): map<Tid, Pc> {
    if d.WakeReaders? then All(pc, ReaderWoken)
    else if d.WakeWriter? && pick in pc then pc[pick := WriterWoken(pc[pick])]
    else pc
  }

  function Readers(r: multiset<Tid>, d: Deed, t: Tid): multiset<Tid> {
    if d.GrantRead? then r + multiset{t} else if d.DropRead? then r - multiset{t} else r
  }

  function Writers(r: set<Tid>, d: Deed, t: Tid): set<Tid> {
    if d.GrantWrite? then r + {t} else if d.DropWrite? then r - {t} else r
  }

  function Step(s: State, e: Event): State
    requires e.t in s.pc
  {
    var m := Next(s.pc[e.t], s.w, e);
    State(m.w, Wake(s.pc, m.deed, e.pick)[e.t := m.p], Readers(s.readers, m.deed, e.t), Writers(s.writers, m.deed, e.t))
  }

  /** Only holders unlock, a wake reaches a sleeping writer whenever there is one, and the reader count stays
      short of its 32-bit limit. */
  predicate Enabled(s: State, e: Event) {
    && e.t in s.pc
    && var p := s.pc[e.t];
    && (p.Out? && e.op.Unlock? ==> e.t in s.readers || e.t in s.writers)
    && (p == Un(UnWakeWr) && Any(s.pc, WrSleeping) ==> e.pick in s.pc && WrSleeping(s.pc[e.pick]))
    && (p.Rd? && (p.r.RdCas? || p.r.RdEnter?) ==> s.w.nrd + 1 < LIMB)
  }

  /** `pthread_rwlock_init` with any set of threads outside the lock. */
  predicate Initial(s: State) {
    && s.w == Words(UNOWNED, 0, 0)
    && (forall t :: t in s.pc ==> 0 < t < ID_LIMIT && s.pc[t].Out?)
    && |s.pc| < LIMB
    && s.readers == multiset{} && s.writers == {}
  }

  /** A thread as the invariants see it: whether it holds the lock for reading or for writing. */
  datatype Me = Me(t: Tid, reader: bool, writer: bool)

  function Self(s: State, t: Tid): Me { Me(t, t in s.readers, t in s.writers) }

  /** What the program point of a thread says about the loaded values it carries and about its holding the lock. */
  predicate Here(p: Pc, me: Me) {
    match p
    case Out(_) => true
    case Rd(r) =>
      && (r.RdCas? ==> r.o == UNOWNED || r.o == RO)
      && (r.RdShare? ==> me.reader)
      && (r.RdEnter? || r.RdWait? ==> r.o != UNOWNED && r.o != RO)
    case Wr(q) =>
      && (q.WrEntry? || q.WrLoad? || q.WrEnter? || q.WrWait? || q.WrAsleep? || q.WrLeave? ==> !q.k.Try?)
      && (q.WrEnter? || q.WrWait? ==> q.o != UNOWNED)
    case Un(u) =>
      && (u.UnLoad? ==> me.reader || me.writer)
      && (u.UnOwner? || u.UnStore? ==> me.writer)
      && (u.UnCount? || u.UnRdLoad? || u.UnRdCas? ==> me.reader)
  }

  /** Who holds the lock agrees with the owner word. */
  predicate Owned(w: Words, readers: multiset<Tid>, writers: set<Tid>) {
    && writers == (if w.oid == UNOWNED || w.oid == RO then {} else {w.oid})
    && (readers != multiset{} ==> w.oid == RO)
  }

  ghost predicate Claimed(s: State) {
    forall t :: t in s.pc ==> 0 < t < ID_LIMIT && Here(s.pc[t], Self(s, t))
  }

  /** `nrd` counts the readers that hold the lock and the queued ones alike; `qwr` counts the queued writers. */
  ghost predicate Counted(s: State) {
    && |s.pc| < LIMB
    && s.w.nrd == |s.readers| + Tally(s.pc, RdQueued) && s.w.nrd < LIMB
    && s.w.qwr == Tally(s.pc, WrQueued)
  }

  /** Accounting and ownership. */
  ghost predicate Safe(s: State) {
    Claimed(s) && Counted(s) && Owned(s.w, s.readers, s.writers) && s.writers <= s.pc.Keys
  }

  /** Every sleeper has a waker. */
  ghost predicate Covered(s: State) {
    && (s.w.oid == RO && Any(s.pc, RdSleeping) ==> Any(s.pc, Sharing))
    && (s.w.oid == UNOWNED && Any(s.pc, WrSleeping) ==> Any(s.pc, WakesWriter))
    && (s.w.oid == UNOWNED && Any(s.pc, RdSleeping) ==> Any(s.pc, WakesReader) || Any(s.pc, WrSleeping))
  }

  /** A read-owned lock is held by a reader or about to be. */
  ghost predicate Backed(s: State) {
    s.w.oid == RO ==> s.w.nrd > 0 || Any(s.pc, Probing)
  }
}
