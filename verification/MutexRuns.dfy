/** Recursive and error-checking mutexes refine an abstract (owner, depth) machine (pthread/mutex.c). */
module MutexRuns {
  import opened Threads
  import opened Mutex
  import opened Runs

  /** A step of the owner. */
  lemma OwnerMoves(p: Pc, w: Words, ty: Type, e: Event, d: nat)
    requires Agrees(p, w, ty, e.t, d) && e.t > 0 && 0 < w.lock <= 2
    requires p.Un? && p.u.TxOwn? ==> p.u.to > 0 && p.u.to != e.t
    ensures var m := Next(p, w, ty, e); var a := Owned(e.t, d);
      && Allowed(a, m.deed, e.t, ty) && m.w.lock <= 2
      && (m.w.lock == 0 <==> Do(a, m.deed, e.t).Free?)
      && match Do(a, m.deed, e.t)
         case Free => m.w.owner == 0 && m.w.cnt == 0 && !OwnersOnly(m.p)
         case Owned(u, d') =>
           if m.deed.Give? then m.w == w.(owner := p.u.to) && u == p.u.to && d' == d && !OwnersOnly(m.p)
           else u == e.t && Agrees(m.p, m.w, ty, u, d')
  {
    match p
    case Out(_) =>
    case Lk(_, _) =>
    case Un(_) =>
  }

  /** A step of a thread that does not own the mutex. */
  lemma OthersMove(p: Pc, w: Words, ty: Type, e: Event)
    requires !OwnersOnly(p) && w.owner != e.t && e.t > 0 && w.lock <= 2
    ensures var m := Next(p, w, ty, e);
      if w.lock == 0 && m.deed.Acquire?
      then m.p.Lk? && m.p.l.LkOwn? && 0 < m.w.lock <= 2 && m.w == w.(lock := m.w.lock)
      else m.deed.Nothing? && !OwnersOnly(m.p) && m.w == w.(lock := m.w.lock) && m.w.lock <= 2
           && (m.w.lock == 0 <==> w.lock == 0)
  {
    match p
    case Out(_) =>
    case Lk(_, _) =>
    case Un(_) =>
  }

  /** A transfer keeps its target until it is made. */
  lemma TargetsKept(p: Pc, w: Words, ty: Type, e: Event)
    ensures var m := Next(p, w, ty, e);
      m.p.Un? && (m.p.u.TxTest? || m.p.u.TxOwn?) ==>
        if p.Out? then e.op == Transfer(m.p.u.to) && m.p.u.to != 0 && m.p.u.to != e.t
        else p.Un? && (p.u.TxTest? || p.u.TxOwn?) && m.p.u.to == p.u.to
  {
    match p
    case Out(_) =>
    case Lk(_, _) =>
    case Un(_) =>
  }

  /** What the move of thread `t` has to establish. */
  lemma Frame(s: State, t: Tid, m: Move)
    requires Safe(s) && t in s.pc
    requires m.p.Un? && (m.p.u.TxTest? || m.p.u.TxOwn?) ==> m.p.u.to in s.pc && m.p.u.to != t
    requires m.w.lock <= 2
    requires var a := Do(s.abs, m.deed, t);
      && (m.w.lock == 0 <==> a.Free?)
      && (s.abs == a || s.abs.Free? || s.abs.t == t)
      && (OwnersOnly(m.p) ==> a.Owned? && a.t == t)
      && match a
         case Free => m.w.owner == 0 && m.w.cnt == 0
         case Owned(u, d) => u in s.pc && Agrees(s.pc[t := m.p][u], m.w, s.ty, u, d)
    ensures Safe(State(m.w, s.ty, s.pc[t := m.p], Do(s.abs, m.deed, t)))
  {}

  lemma StepSafe(s: State, e: Event)
    requires Safe(s) && Enabled(s, e)
    ensures Safe(Step(s, e)) && Allowed(s.abs, Next(s.pc[e.t], s.w, s.ty, e).deed, e.t, s.ty)
  {
    var t, p, m := e.t, s.pc[e.t], Next(s.pc[e.t], s.w, s.ty, e);
    TargetsKept(p, s.w, s.ty, e);
    if s.abs.Owned? && s.abs.t == t {
      OwnerMoves(p, s.w, s.ty, e, s.abs.depth);
      if m.deed.Give? { Handed(s.pc[p.u.to], p, s.w, s.ty, t, p.u.to, s.abs.depth); }
    } else {
      OthersMove(p, s.w, s.ty, e);
      if s.abs.Owned? { LockWordFree(s.pc[s.abs.t], s.w, m.w, s.ty, s.abs.t, s.abs.depth); }
    }
    Frame(s, t, m);
  }

  /** The receiver of a transfer, wherever it is, finds the words as an owner should. */
  lemma Handed(q: Pc, p: Pc, w: Words, ty: Type, t: Tid, to: Tid, d: nat)
    requires Agrees(p, w, ty, t, d) && p == Un(TxOwn(to)) && !OwnersOnly(q)
    ensures Agrees(q, w.(owner := to), ty, to, d)
  {}

  lemma LockWordFree(p: Pc, w: Words, w': Words, ty: Type, t: Tid, d: nat)
    requires Agrees(p, w, ty, t, d) && w' == w.(lock := w'.lock)
    ensures Agrees(p, w', ty, t, d)
  {}

  /** The state after a step, if it is possible. */
  function Attempt(s: State, e: Event): Option<State> { if Enabled(s, e) then Some(Step(s, e)) else None }

  /** `es` leads from `s` to `s'`. */
  ghost predicate Run(s: State, es: seq<Event>, s': State) { Leads(Attempt, s, es, s') }

  lemma RunKeeps(s: State, es: seq<Event>, s': State)
    requires Safe(s) && Run(s, es, s')
    ensures Safe(s')
  {
    hide Step, Safe;
    forall x, e | Safe(x) && Enabled(x, e)
      ensures Safe(Step(x, e))
    {
      StepSafe(x, e);
    }
    Keeps(Attempt, Safe, s, es, s');
  }

  /** Every step of every run is one that the abstract machine allows, or leaves the abstract mutex alone. */
  lemma Refines(s0: State, es: seq<Event>, s: State, e: Event)
    requires Initial(s0) && Run(s0, es, s) && Enabled(s, e)
    ensures var d := Next(s.pc[e.t], s.w, s.ty, e).deed;
      Allowed(s.abs, d, e.t, s.ty) && Step(s, e).abs == Do(s.abs, d, e.t)
  {
    RunKeeps(s0, es, s);
    StepSafe(s, e);
  }

  /** Wherever the code compares the owner id with the caller's, they are equal exactly if the caller owns the
      abstract mutex; then the count is the depth. */
  lemma OwnIdMeansOwner(s0: State, es: seq<Event>, s: State, t: Tid)
    requires Initial(s0) && Run(s0, es, s) && t in s.pc
    requires s.pc[t] == Un(UnTest) || (s.pc[t].Un? && s.pc[t].u.TxTest?) || (s.pc[t].Lk? && s.pc[t].l.LkTest?)
    ensures s.w.owner == t <==> s.abs.Owned? && s.abs.t == t
    ensures s.w.owner == t && s.ty.Recursive? ==> s.w.cnt == s.abs.depth
  {
    RunKeeps(s0, es, s);
  }

  /** Verdicts: the refused change nothing; unlock and transfer are refused to non-owners only, a relock to the owner
      of an error-checking mutex only, a deeper lock at the last depth only; the busy answer needs an owner, unless
      the compare-and-swap failed. */
  lemma Verdicts(s0: State, es: seq<Event>, s: State, e: Event)
    requires Initial(s0) && Run(s0, es, s) && Enabled(s, e)
    ensures var p, s' := s.pc[e.t], Step(s, e); var mine := s.abs.Owned? && s.abs.t == e.t;
      && (p == Un(UnTest) || (p.Un? && p.u.TxTest?) ==>
            (s'.pc[e.t] == Out(EPERM) <==> !mine) && s'.w == s.w && s'.abs == s.abs)
      && (p.Lk? && p.l.LkTest? ==> (s'.pc[e.t] == Out(EDEADLK) <==> mine && s.ty.ErrorCheck?) && s'.w == s.w)
      && (p.Lk? && p.l.LkCount? ==> (s'.pc[e.t] == Out(EAGAIN) <==> s.abs == Owned(e.t, LIMB - 1)) && s'.w == s.w)
      && (p.Lk? && p.l.LkPeek? && s'.pc[e.t] == Out(EBUSY) ==> s.abs.Owned?)
  {
    RunKeeps(s0, es, s);
  }

  /** When every thread is outside the mutex code, the words are the abstract mutex. */
  lemma WordsAtRest(s0: State, es: seq<Event>, s: State)
    requires Initial(s0) && Run(s0, es, s) && forall t :: t in s.pc ==> s.pc[t].Out?
    ensures s.abs.Free? ==> s.w == Words(0, 0, 0)
    ensures s.abs.Owned? ==> s.w.owner == s.abs.t && s.w.lock != 0
    ensures s.abs.Owned? && s.ty.Recursive? ==> s.w.cnt == s.abs.depth
  {
    RunKeeps(s0, es, s);
  }
}
