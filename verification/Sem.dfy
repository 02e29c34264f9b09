/**
 Semaphores (pthread/sem.c): the value and the waiter count share a 64-bit word, which some paths change as a whole
 and `__sem_trywait` only in its low half. One access to the word, or one `gsync` call, is one step; the retry loop
 of `atomic_addx_mem` (pthread/pt-internal.h:209-221) is modelled access by access.
 */
module Sem {
  import opened Threads

  const SEM_VALUE_MAX: nat := 0x7FFF_FFFF

  datatype Code = OK | EOVERFLOW | EAGAIN | EINTR | ETIMEDOUT | CANCELED

  /** A timed call carries whether its `tv_nsec` is in range. */
  datatype Kind = Block | Timed(valid: bool)

  datatype Op = Post | TryWait | Wait(k: Kind)

  /** Inside sem_post. */
  datatype PoPc = PoLoad | PoCas(v: nat, n: nat) | PoWake

  /** Inside `__sem_trywait`, called from sem_trywait or as the fast path of a wait. */
  datatype TwPc = TwLoad | TwCas(v: nat)

  datatype From = TryOnly | FastPath(k: Kind)

  /** The slow path of sem_wait and sem_timedwait: registering, trying or sleeping, and giving up. */
  datatype SwPc =
    | EnLoad(k: Kind)
    | EnCas(k: Kind, v: nat, n: nat)
    | SwLoad(k: Kind)
    | SwCas(k: Kind, v: nat, n: nat)
    | SwWait(k: Kind)
    | SwAsleep(k: Kind)
    | LvLoad(code: Code)
    | LvCas(code: Code, v: nat, n: nat)

  datatype Pc = Out(last: Code) | Po(p: PoPc) | Tw(y: TwPc, from: From) | Sw(x: SwPc)

  datatype Words = Words(val: nat, nw: nat)

  /** `posts` and `takes` count the successful posts and waits; `init` is the initial value. */
  datatype State = State(w: Words, pc: map<Tid, Pc>, init: nat, posts: nat, takes: nat)

  datatype Cut = NoCut | Cancel | Interrupt

  /** Who moves, and how the choices the code does not make turn out. */
  datatype Event = Event(t: Tid, op: Op, fail: bool, late: bool, cut: Cut, pick: Tid)

  datatype Deed = Nothing | Posted | Taken | WakeOne

  datatype Move = Move(p: Pc, w: Words, deed: Deed)

  predicate Registered(p: Pc) { p.Sw? && !p.x.EnLoad? && !p.x.EnCas? }

  predicate Sleeping(p: Pc) { p.Sw? && p.x.SwAsleep? }

  /** A wake that is due, or a registered waiter that has not read a zero value since it registered or woke. */
  predicate Hopeful(p: Pc) { (p.Po? && p.p.PoWake?) || (p.Sw? && (p.x.SwLoad? || p.x.SwCas?)) }

  function Begin(op: Op): Pc {
    match op
    case Post => Po(PoLoad)
    case TryWait => Tw(TwLoad, TryOnly)
    case Wait(k) => Tw(TwLoad, FastPath(k))
  }

  /** `sem_post`. */
  function PostMove(p: PoPc, w: Words, e: Event): Move {
    match p
    case PoLoad => Move(if w.val == SEM_VALUE_MAX then Out(EOVERFLOW) else Po(PoCas(w.val, w.nw)), w, Nothing)
    case PoCas(v, n) =>
      if w.val == v && w.nw == n && !e.fail
      then Move(if n > 0 then Po(PoWake) else Out(OK), w.(val := Inc(v)), Posted)
      else Move(Po(PoLoad), w, Nothing)
    case PoWake => Move(Out(OK), w, WakeOne)
  }

  /** `__sem_trywait`. */
  function TryMove(y: TwPc, from: From, w: Words, e: Event): Move {
    match y
    case TwLoad =>
      Move(if w.val != 0 then Tw(TwCas(w.val), from)
           else if from.TryOnly? then Out(EAGAIN)
           else Sw(EnLoad(from.k)), w, Nothing)
    case TwCas(v) =>
      if w.val == v && !e.fail then Move(Out(OK), w.(val := Dec(v)), Taken)
      else Move(Tw(TwLoad, from), w, Nothing)
  }

  /** The slow path of `sem_wait` and `sem_timedwait`. */
  function SlowMove(x: SwPc, w: Words, e: Event): Move {
    match x
    case EnLoad(k) => Move(Sw(EnCas(k, w.val, w.nw)), w, Nothing)
    case EnCas(k, v, n) =>
      if w.val == v && w.nw == n && !e.fail then Move(Sw(SwLoad(k)), w.(nw := Inc(n)), Nothing)
      else Move(Sw(EnLoad(k)), w, Nothing)
    case SwLoad(k) =>
      Move(Sw(if w.val > 0 then SwCas(k, w.val, w.nw)
              else if k.Timed? && !k.valid then LvLoad(ETIMEDOUT)
              else SwWait(k)), w, Nothing)
    case SwCas(k, v, n) =>
      if w.val == v && w.nw == n && !e.fail then Move(Out(OK), Words(Dec(v), Dec(n)), Taken)
      else Move(Sw(SwLoad(k)), w, Nothing)
    case SwWait(k) =>
      Move(Sw(if k.Timed? && e.late then LvLoad(ETIMEDOUT)
              else if w.val == 0 then SwAsleep(k)
              else SwLoad(k)), w, Nothing)
    case SwAsleep(k) =>
      Move(Sw(if e.cut.Cancel? then LvLoad(CANCELED)
              else if e.cut.Interrupt? then LvLoad(EINTR)
              else if k.Timed? && e.late then LvLoad(ETIMEDOUT)
              else SwLoad(k)), w, Nothing)
    case LvLoad(code) => Move(Sw(LvCas(code, w.val, w.nw)), w, Nothing)
    case LvCas(code, v, n) =>
      if w.val == v && w.nw == n && !e.fail then Move(Out(code), w.(nw := Dec(n)), Nothing)
      else Move(Sw(LvLoad(code)), w, Nothing)
  }

  function Next(p: Pc, w: Words, e: Event): Move {
    match p
    case Out(_) => Move(Begin(e.op), w, Nothing)
    case Po(q) => PostMove(q, w, e)
    case Tw(y, from) => TryMove(y, from, w, e)
    case Sw(x) => SlowMove(x, w, e)
  }

  function Woken(p: Pc): Pc { if Sleeping(p) then Sw(SwLoad(p.x.k)) else p }

  function Wake(pc: map<Tid, Pc>, d: Deed, pick: Tid): map<Tid, Pc> {
    if d.WakeOne? && pick in pc then pc[pick := Woken(pc[pick])] else pc
  }

  function Tick(n: nat, d: Deed, what: Deed): nat { if d == what then n + 1 else n }

  function Step(s: State, e: Event): State
    requires e.t in s.pc
  {
    var m := Next(s.pc[e.t], s.w, e);
    State(m.w, Wake(s.pc, m.deed, e.pick)[e.t := m.p], s.init, Tick(s.posts, m.deed, Posted), Tick(s.takes, m.deed, Taken))
  }

  /** A wake reaches a sleeper whenever there is one. */
  predicate Enabled(s: State, e: Event) {
    && e.t in s.pc
    && (s.pc[e.t] == Po(PoWake) && Any(s.pc, Sleeping) ==> e.pick in s.pc && Sleeping(s.pc[e.pick]))
  }

  /** After a `sem_init` that did not fail, with any set of threads outside. */
  predicate Initial(s: State) {
    && s.init <= SEM_VALUE_MAX && s.w == Words(s.init, 0)
    && (forall t :: t in s.pc ==> s.pc[t].Out?) && |s.pc| < LIMB
    && s.posts == 0 && s.takes == 0
  }

  /** Values that a successful comparison would act on are in range. */
  predicate Here(p: Pc) {
    && (p.Po? && p.p.PoCas? ==> p.p.v < SEM_VALUE_MAX)
    && (p.Tw? && p.y.TwCas? ==> p.y.v > 0)
    && (p.Sw? && p.x.SwCas? ==> p.x.v > 0)
  }

  /** What is in the semaphore is what was put in and not taken out; the high limb counts the registered waiters. */
  ghost predicate Conserved(s: State) {
    && s.w.val + s.takes == s.init + s.posts
    && s.w.val <= SEM_VALUE_MAX
    && s.w.nw == Tally(s.pc, Registered)
    && |s.pc| < LIMB
    && (forall t :: t in s.pc ==> Here(s.pc[t]))
  }

  /** While someone sleeps, every unit of the value has a thread that is about to fetch it or to wake a fetcher. */
  ghost predicate Promised(s: State) {
    Any(s.pc, Sleeping) ==> s.w.val <= Tally(s.pc, Hopeful)
  }
}
