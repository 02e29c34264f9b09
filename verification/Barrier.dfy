/**
 Barriers (pthread/barrier.c): one access to the sequence, the count or the reference count, or one `gsync` call,
 is one step. As many threads use the barrier as it was made for; one more thread may destroy it.
 */
module Barrier {
  import opened Threads

  /** Inside pthread_barrier_wait, with the sequence number the thread loaded on entry. */
  datatype Pc =
    | Idle
    | BaLoad
    | BaAdd(sq: nat)
    | BaTest(sq: nat)
    | BaWait(sq: nat)
    | BaAsleep(sq: nat)
    | BaSee
    | BaStore(v: nat)
    | BaWake
    | BaStray(sq: nat)
    | BaOut(serial: bool)
    | BaLast(serial: bool)

  /** Inside pthread_barrier_destroy. */
  datatype DPc = DIdle | DSub | DWait(r: nat) | DAsleep | DLoad | DDone

  /** `lo` and `cnt` are the limbs of `__seq_cnt`. */
  datatype Words = Words(lo: nat, cnt: nat, nrefs: nat)

  /** `gen` counts the openings, `arrivals` the times that each thread was counted, `winners` who opened the barrier
      each time, and `log` what each thread's k-th wait returned. */
  datatype State = State(w: Words, total: nat, pc: map<Tid, Pc>, d: DPc,
                         gen: nat, arrivals: map<Tid, nat>, winners: seq<Tid>, log: map<(Tid, nat), bool>)

  /** A step of a thread that waits, or of the one that destroys. */
  datatype Event = Waiter(t: Tid) | Destroyer

  datatype Deed = Nothing | Arrive | Open | WakeAll | Return(serial: bool) | WakeAndReturn(serial: bool)

  datatype Move = Move(p: Pc, w: Words, deed: Deed)

  predicate Sleeping(p: Pc) { p.BaAsleep? }

  /** Between the increment and the decrement of the reference count. */
  predicate Inside(p: Pc) { !p.Idle? && !p.BaLast? }

  /** About to open the barrier. */
  predicate Opening(p: Pc) { p.BaSee? || p.BaStore? }

  predicate Waking(p: Pc) { p.BaWake? }

  /** About to wake the destroyer. */
  predicate Last(p: Pc) { p.BaLast? }

  /** `pthread_barrier_wait`. */
  function WaitMove(p: Pc, w: Words, total: nat): Move {
    match p
    case Idle => Move(BaLoad, w.(nrefs := Inc(w.nrefs)), Nothing)
    case BaLoad => Move(BaAdd(w.lo), w, Nothing)
    case BaAdd(sq) =>
      Move(if w.cnt < total then BaTest(sq) else if w.cnt == total then BaSee else BaStray(sq),
           w.(cnt := Inc(w.cnt)), Arrive)
    case BaTest(sq) => Move(if w.lo == sq then BaWait(sq) else BaOut(false), w, Nothing)
    case BaWait(sq) => Move(if w.lo == sq then BaAsleep(sq) else BaTest(sq), w, Nothing)
    case BaAsleep(sq) => Move(BaTest(sq), w, Nothing)
    case BaSee => Move(BaStore(Inc(w.lo)), w, Nothing)
    case BaStore(v) => Move(BaWake, w.(lo := v, cnt := 0), Open)
    case BaWake => Move(BaOut(true), w, WakeAll)
    case BaStray(sq) => Move(BaOut(false), w, Nothing)
    case BaOut(serial) =>
      if w.nrefs == 1 then Move(BaLast(serial), w.(nrefs := Dec(w.nrefs)), Nothing)
      else Move(Idle, w.(nrefs := Dec(w.nrefs)), Return(serial))
    case BaLast(serial) => Move(Idle, w, WakeAndReturn(serial))
  }

  /** `pthread_barrier_destroy`. */
  function DestroyMove(d: DPc, nrefs: nat): (DPc, nat) {
    match d
    case DIdle => (DSub, nrefs)
    case DSub => (if Dec(nrefs) == 0 then DDone else DWait(Dec(nrefs)), Dec(nrefs))
    case DWait(r) => (if nrefs == r then DAsleep else DLoad, nrefs)
    case DAsleep => (DLoad, nrefs)
    case DLoad => (if nrefs == 0 then DDone else DWait(nrefs), nrefs)
    case DDone => (DDone, nrefs)
  }

  function Woken(p: Pc): Pc { if p.BaAsleep? then BaTest(p.sq) else p }

  function Step(s: State, e: Event): State
    requires e.Waiter? ==> e.t in s.pc && e.t in s.arrivals
  {
    match e
    case Destroyer =>
      var (d, n) := DestroyMove(s.d, s.w.nrefs);
      s.(d := d, w := s.w.(nrefs := n))
    case Waiter(t) =>
      var m := WaitMove(s.pc[t], s.w, s.total);
      State(m.w, s.total,
            (if m.deed.WakeAll? then All(s.pc, Woken) else s.pc)[t := m.p],
            if m.deed.WakeAndReturn? && s.d.DAsleep? then DLoad else s.d,
            if m.deed.Open? then s.gen + 1 else s.gen,
            if m.deed.Arrive? then s.arrivals[t := s.arrivals[t] + 1] else s.arrivals,
            if m.deed.Open? then s.winners + [t] else s.winners,
            if m.deed.Return? || m.deed.WakeAndReturn? then s.log[(t, s.arrivals[t]) := m.deed.serial] else s.log)
  }

  /** No thread starts to wait once the barrier is being destroyed. */
  predicate Enabled(s: State, e: Event) {
    e.Waiter? ==> e.t in s.pc && e.t in s.arrivals && (s.pc[e.t].Idle? ==> s.d.DIdle?)
  }

  /** `pthread_barrier_init` for exactly the threads in `pc`. */
  predicate Initial(s: State) {
    && s.w == Words(0, 0, 1) && s.d == DIdle
    && |s.pc| == s.total + 1 && |s.pc| + 1 < LIMB
    && s.arrivals.Keys == s.pc.Keys
    && (forall t :: t in s.pc ==> s.pc[t] == Idle && s.arrivals[t] == 0)
    && s.gen == 0 && s.winners == [] && s.log == map[]
  }

  function Base(d: DPc): nat { if d.DIdle? || d.DSub? then 1 else 0 }

  /** How a thread's program point, its `a` arrivals and the openings hang together; `won` says that it opened the
      barrier on its last completed arrival. */
  datatype Me = Me(a: nat, gen: nat, won: bool)

  predicate Here(p: Pc, me: Me, lo: nat) {
    && (me.a == me.gen || me.a == me.gen + 1)
    && (p.BaTest? || p.BaWait? || p.BaAsleep? ==> me.a > 0 && p.sq == Limb(me.a - 1) && (me.a == me.gen ==> !me.won))
    && (Opening(p) ==> me.a == me.gen + 1)
    && (p.BaStore? ==> p.v == Limb(me.gen + 1))
    && (!p.BaTest? && !p.BaWait? && !p.BaAsleep? && !Opening(p) ==> me.a == me.gen)
    && (p.BaAdd? ==> p.sq == Limb(me.gen))
    && (p.BaWake? ==> me.a > 0 && me.won)
    && (p.BaOut? || p.BaLast? ==> me.a > 0 && (p.serial <==> me.won))
    && !p.BaStray?
    && lo == Limb(me.gen)
  }

  function Self(s: State, t: Tid): Me
    requires t in s.arrivals
  {
    var a := s.arrivals[t];
    Me(a, s.gen, 0 < a <= |s.winners| && s.winners[a - 1] == t)
  }

  /** The threads counted since the barrier last opened. */
  function Arrived(s: State): set<Tid> {
    set t | t in s.arrivals && s.arrivals[t] == s.gen + 1
  }

  ghost predicate Claimed(s: State) {
    && s.arrivals.Keys == s.pc.Keys
    && |s.winners| == s.gen
    && (forall t :: t in s.pc ==> Here(s.pc[t], Self(s, t), s.w.lo))
  }

  /** The count is that of the threads that arrived; when the last one has, it alone is opening the barrier. */
  ghost predicate Counted(s: State) {
    && |s.pc| == s.total + 1 && |s.pc| + 1 < LIMB
    && s.w.cnt == |Arrived(s)|
    && (Any(s.pc, Opening) <==> s.w.cnt == s.total + 1)
    && (forall t, u :: t in s.pc && u in s.pc && Opening(s.pc[t]) && Opening(s.pc[u]) ==> t == u)
  }

  /** How many waits of a thread have returned. */
  function Returned(s: State, t: Tid): nat
    requires t in s.arrivals && t in s.pc
  {
    if s.pc[t].Idle? || s.pc[t].BaLoad? || s.pc[t].BaAdd? || s.arrivals[t] == 0 then s.arrivals[t] else s.arrivals[t] - 1
  }

  /** The log has exactly the waits that returned; the winner of a round, and nobody else, got the special value. */
  ghost predicate Logged(s: State) {
    && s.arrivals.Keys == s.pc.Keys
    && |s.winners| == s.gen
    && (forall i :: 0 <= i < s.gen ==> s.winners[i] in s.pc)
    && (forall t, k: nat :: t in s.pc ==> ((t, k) in s.log <==> 1 <= k <= Returned(s, t)))
    && (forall r :: r in s.log ==> r.0 in s.pc && 1 <= r.1 <= s.gen && (s.log[r] <==> s.winners[r.1 - 1] == r.0))
  }

  /** Who sleeps through an opening is about to be woken. */
  ghost predicate Covered(s: State) {
    && s.arrivals.Keys == s.pc.Keys
    && ((exists t :: t in s.pc && Sleeping(s.pc[t]) && s.arrivals[t] == s.gen) ==> Any(s.pc, Waking))
  }

  /** The references are the threads inside, plus one until destruction starts; a sleeping destroyer has something to
      wait for, and one that has returned has left nobody inside. */
  ghost predicate Referenced(s: State) {
    && |s.pc| + 1 < LIMB
    && s.w.nrefs == Tally(s.pc, Inside) + Base(s.d)
    && (s.d.DAsleep? ==> s.w.nrefs > 0 || Any(s.pc, Last))
    && (s.d.DDone? ==> s.w.nrefs == 0)
    && (s.d.DWait? ==> s.d.r != 0)
  }

  ghost predicate Safe(s: State) {
    Claimed(s) && Counted(s) && Logged(s) && Covered(s) && Referenced(s)
  }
}
