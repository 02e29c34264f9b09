/** Counting threads by the program point they are at, and waking sets of sleepers. */
module Threads {

  /** A thread id. Real ids are non-zero and fit in 29 bits; each model says where it relies on that. */
  type Tid = nat

  /** One past the largest value of a 32-bit limb. */
  const LIMB: nat := 0x1_0000_0000

  /** What a 32-bit word keeps of a count. */
  function Limb(n: nat): nat { n % 0x1_0000_0000 }

  /** A 32-bit atomic increment. */
  function Inc(x: nat): nat {
    if x + 1 == LIMB then 0 else x + 1
  }

  /** A 32-bit atomic decrement. */
  function Dec(x: nat): nat {
    if x == 0 then LIMB - 1 else x - 1
  }

  /** The threads whose program point satisfies `f`. */
  function Where<P>(pc: map<Tid, P>, f: P -> bool): set<Tid> {
    set t | t in pc && f(pc[t])
  }

  /** How many threads are at a program point that satisfies `f`. */
  function Tally<P>(pc: map<Tid, P>, f: P -> bool): nat {
    |Where(pc, f)|
  }

  /** Some thread is at a program point that satisfies `f`. */
  predicate Any<P>(pc: map<Tid, P>, f: P -> bool) {
    exists t :: t in pc && f(pc[t])
  }

  lemma TallyStep<P>(pc: map<Tid, P>, f: P -> bool, t: Tid, v: P)
    requires t in pc
    ensures Tally(pc[t := v], f) == Tally(pc, f) - (if f(pc[t]) then 1 else 0) + (if f(v) then 1 else 0)
  {
    var rest := Where(pc, f) - {t};
    assert Where(pc[t := v], f) == if f(v) then rest + {t} else rest;
    assert Where(pc, f) == if f(pc[t]) then rest + {t} else rest;
  }

  lemma TallyAny<P>(pc: map<Tid, P>, f: P -> bool)
    ensures Tally(pc, f) > 0 <==> Any(pc, f)
  {
    if t :| t in pc && f(pc[t]) {
      assert t in Where(pc, f);
    }
  }

  /** With two threads counted there is one beside any given thread. */
  lemma TallyOther<P>(pc: map<Tid, P>, f: P -> bool, t: Tid) returns (u: Tid)
    requires Tally(pc, f) > 1
    ensures u != t && u in pc && f(pc[u])
  {
    var w := Where(pc, f);
    assert w - {t} != {} by {
      SubsetSize(w, (w - {t}) + {t});
    }
    u :| u in w - {t};
  }

  lemma TallyBound<P>(pc: map<Tid, P>, f: P -> bool)
    ensures Tally(pc, f) <= |pc|
  {
    var w := Where(pc, f);
    assert w <= pc.Keys;
    SubsetSize(w, pc.Keys);
  }

  lemma SubsetSize<T>(a: set<T>, b: set<T>)
    requires a <= b
    ensures |a| <= |b|
  {
    assert b == a + (b - a);
  }

  /** A broadcast wake: every thread moves as `g` says. */
  function All<P>(pc: map<Tid, P>, g: P -> P): map<Tid, P> {
    map t | t in pc :: g(pc[t])
  }

  lemma TallyAll<P>(pc: map<Tid, P>, f: P -> bool, g: P -> P)
    requires forall t :: t in pc ==> (f(g(pc[t])) <==> f(pc[t]))
    ensures Tally(All(pc, g), f) == Tally(pc, f)
  {
    assert Where(All(pc, g), f) == Where(pc, f);
  }
}
