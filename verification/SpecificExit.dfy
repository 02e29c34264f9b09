/** The teardown of a thread's data, with destructors that make any calls (`__pthread_dealloc_tsd`). */
module SpecificExit {
  import opened Specific
  import opened SpecificRuns

  /** Unless the flag was set again, the slots before `k` are empty. */
  ghost predicate Behind(t: Tsd, k: nat)
    requires k <= 512
  {
    !t.used ==> forall j :: 0 <= j < k ==> SlotOf(t, j).data == 0
  }

  /** What is known of a destructor that was run: the code's index is off by 16 for each absent block passed. With none
      passed, it is the destructor registered for the slot's key, at the creation the value was set under. */
  predicate RanOk(r: Ran) {
    && r.key < KEYS_MAX && r.q == r.key + 16 * r.skipped
    && r.value != 0 && r.destr != 0
    && (r.skipped == 0 ==> r.own.gen == r.gen && !Unused(r.own) && r.destr == r.own.destr)
  }

  ghost predicate LogOk(log: seq<Ran>) { forall r :: r in log ==> RanOk(r) }

  /** What the walk keeps, at key `k`. */
  ghost predicate Fine(e: Env, k: nat)
    requires k <= 512
  {
    Dated(e.keys, e.tsd) && Behind(e.tsd, k) && LogOk(e.log)
  }

  /** At block `b`. */
  ghost predicate FineAt(e: Env, b: nat)
    requires b <= 32
  {
    Fine(e, 16 * b)
  }

  lemma DoBehind(keys: Table, t: Tsd, c: Call, k: nat)
    requires k <= 512 && Behind(t, k)
    ensures Behind(Do(keys, t, c).tsd, k)
  {
    forall j | 0 <= j < k && !Do(keys, t, c).tsd.used
      ensures SlotOf(Do(keys, t, c).tsd, j).data == 0
    {
      DoSlot(keys, t, c, j);
    }
  }

  lemma {:induction false} CallsBehind(keys: Table, t: Tsd, calls: seq<Call>, k: nat)
    requires k <= 512 && Dated(keys, t) && Behind(t, k)
    ensures var r := Calls(keys, t, calls); Dated(r.keys, r.tsd) && Behind(r.tsd, k)
    decreases |calls|
  {
    if calls != [] {
      DoDated(keys, t, calls[0]);
      DoBehind(keys, t, calls[0], k);
      CallsBehind(Do(keys, t, calls[0]).keys, Do(keys, t, calls[0]).tsd, calls[1..], k);
    }
  }

  lemma Cleared(keys: Table, t: Tsd, k: nat)
    requires k < 512 && Dated(keys, t) && Behind(t, k)
    ensures var t' := Put(t, k, SlotOf(t, k).(data := 0)); Dated(keys, t') && Behind(t', k + 1)
  {
    var x := SlotOf(t, k).(data := 0);
    forall j | 0 <= j < 512
      ensures SlotOf(Put(t, k, x), j) == if j == k then x else SlotOf(t, j)
    {
      PutThenRead(t, k, x, j);
    }
  }

  lemma VisitKeeps(e: Env, k: nat, q: nat, skipped: nat, beyond: seq<Key>)
    requires k < 512 && q == k + 16 * skipped && Fine(e, k)
    ensures var e' := Visit(e, k, q, skipped, beyond);
      Fine(e', k + 1)
  {
    var x := SlotOf(e.tsd, k);
    assert SlotOk(x, e.keys[k]);
    if x.data != 0 {
      Cleared(e.keys, e.tsd, k);
      CallsBehind(e.keys, Put(e.tsd, k, x.(data := 0)), if e.script == [] then [] else e.script[0], k + 1);
    }
  }

  lemma {:induction false} WalkKeeps(e: Env, b: nat, i: nat, q: nat, skipped: nat, beyond: seq<Key>)
    requires b < 32 && i <= 16 && q == 16 * b + i + 16 * skipped
    requires Fine(e, 16 * b + i)
    ensures var e' := Walk(e, b, i, q, skipped, beyond);
      FineAt(e', b + 1)
    decreases 16 - i
  {
    hide Visit, Fine, SlotOf;
    if i < 16 {
      VisitKeeps(e, 16 * b + i, q, skipped, beyond);
      WalkKeeps(Visit(e, 16 * b + i, q, skipped, beyond), b, i + 1, q + 1, skipped, beyond);
    }
  }

  lemma AbsentFine(e: Env, b: nat)
    requires b < 32 && FineAt(e, b) && e.tsd.blocks[b].Absent?
    ensures FineAt(e, b + 1)
  {}

  lemma {:induction false} PassKeeps(e: Env, b: nat, q: nat, skipped: nat, beyond: seq<Key>)
    requires b <= 32 && q == 16 * b + 16 * skipped && FineAt(e, b)
    ensures var e' := Pass(e, b, q, skipped, beyond);
      FineAt(e', 32)
    decreases 32 - b
  {
    hide Walk, Fine, SlotOf;
    if b < 32 {
      if e.tsd.blocks[b].Absent? {
        AbsentFine(e, b);
        PassKeeps(e, b + 1, q + 32, skipped + 1, beyond);
      } else {
        WalkKeeps(e, b, 0, q, skipped, beyond);
        PassKeeps(Walk(e, b, 0, q, skipped, beyond), b + 1, q + 16, skipped, beyond);
      }
    }
  }

  /** There are at most four passes, and if the teardown stops before that it finds every slot empty: no value that
      destructors left behind is lost. */
  lemma {:induction false} PassesEnd(e: Env, done: nat, beyond: seq<Key>)
    requires done < 4 && Dated(e.keys, e.tsd) && LogOk(e.log)
    ensures var o := Passes(e, done, beyond);
      && done < o.passes <= 4
      && (o.passes < 4 || !o.env.tsd.used ==> forall k :: 0 <= k < 512 ==> SlotOf(o.env.tsd, k).data == 0)
      && LogOk(o.env.log)
    decreases 4 - done
  {
    var e0 := e.(tsd := e.tsd.(used := false));
    assert forall k :: 0 <= k < 512 ==> SlotOf(e0.tsd, k) == SlotOf(e.tsd, k);
    PassKeeps(e0, 0, 0, 0, beyond);
    var e' := OnePass(e, beyond);
    if e'.tsd.used && done + 1 < 4 { PassesEnd(e', done + 1, beyond); }
  }

  /** After the teardown there are no values; if the thread had any, its data are as new. */
  lemma NothingLeft(e: Env, beyond: seq<Key>)
    requires Flagged(e.tsd)
    ensures forall k :: 0 <= k < 512 ==> SlotOf(Dealloc(e, beyond).tsd, k).data == 0
    ensures Dealloc(e, beyond).tsd == Fresh() || (!e.tsd.used && Dealloc(e, beyond) == e)
    ensures forall b :: 1 <= b < 32 ==> Dealloc(e, beyond).tsd.blocks[b].Absent?
  {
    FreshIsEmpty();
  }

  /** Each destructor that runs is the one of table entry `key + 16 * skipped`; so it is the key's own, for the creation
      its value was set under, whenever no absent block was passed. */
  lemma DestructorsRun(keys: Table, t: Tsd, script: seq<seq<Call>>, beyond: seq<Key>)
    requires Dated(keys, t)
    ensures forall r :: r in Dealloc(Env(keys, t, script, []), beyond).log ==> RanOk(r)
  {
    if t.used { PassesEnd(Env(keys, t, script, []), 0, beyond); }
  }

  // Every value gets its destructor.

  /** The calls leave key `j` and its value alone. */
  predicate Spares(calls: seq<Call>, j: nat) {
    forall c :: c in calls ==> !(c.Set? && c.k == j) && !(c.Delete? && c.k == j)
  }

  predicate AllSpare(script: seq<seq<Call>>, j: nat) {
    forall i :: 0 <= i < |script| ==> Spares(script[i], j)
  }

  /** Key `j` exists, with a destructor, and the thread has the value `v` for it. */
  predicate Due(keys: Table, t: Tsd, j: nat, v: nat, destr: nat)
  {
    && j < KEYS_MAX && v != 0 && destr != 0 && !Unused(keys[j]) && keys[j].destr == destr
    && SlotOf(t, j) == Slot(keys[j].gen, v)
  }

  lemma {:induction false} CallsSpare(keys: Table, t: Tsd, calls: seq<Call>, j: nat, v: nat, destr: nat)
    requires Due(keys, t, j, v, destr) && Spares(calls, j)
    ensures Due(Calls(keys, t, calls).keys, Calls(keys, t, calls).tsd, j, v, destr)
    decreases |calls|
  {
    if calls != [] {
      var r := Do(keys, t, calls[0]);
      assert calls[0] in calls && forall c :: c in calls[1..] ==> c in calls;
      DoSlot(keys, t, calls[0], j);
      CallsSpare(r.keys, r.tsd, calls[1..], j, v, destr);
    }
  }

  /** The log says that the destructor got the value. */
  ghost predicate Served(log: seq<Ran>, j: nat, v: nat, destr: nat) {
    exists r :: r in log && r.key == j && r.value == v && r.destr == destr
  }

  /** Blocks are not taken away. */
  ghost predicate Grown(t: Tsd, t': Tsd) {
    forall b :: 0 <= b < 32 && t.blocks[b].Present? ==> t'.blocks[b].Present?
  }

  lemma {:induction false} CallsGrown(keys: Table, t: Tsd, calls: seq<Call>)
    ensures Grown(t, Calls(keys, t, calls).tsd)
    decreases |calls|
  {
    if calls != [] {
      var r := Do(keys, t, calls[0]);
      CallsGrown(r.keys, r.tsd, calls[1..]);
    }
  }

  lemma VisitGrown(e: Env, k: nat, q: nat, skipped: nat, beyond: seq<Key>)
    requires k < 512
    ensures Grown(e.tsd, Visit(e, k, q, skipped, beyond).tsd)
  {
    CallsGrown(e.keys, Put(e.tsd, k, SlotOf(e.tsd, k).(data := 0)), if e.script == [] then [] else e.script[0]);
  }

  lemma {:induction false} WalkGrown(e: Env, b: nat, i: nat, q: nat, skipped: nat, beyond: seq<Key>)
    requires b < 32 && i <= 16
    ensures Grown(e.tsd, Walk(e, b, i, q, skipped, beyond).tsd)
    decreases 16 - i
  {
    hide Visit;
    if i < 16 {
      VisitGrown(e, 16 * b + i, q, skipped, beyond);
      WalkGrown(Visit(e, 16 * b + i, q, skipped, beyond), b, i + 1, q + 1, skipped, beyond);
    }
  }

  /** The value waits for its destructor. */
  predicate Pending(e: Env, j: nat, v: nat, destr: nat) {
    Due(e.keys, e.tsd, j, v, destr) && AllSpare(e.script, j)
  }

  /** The walk reaches the value, or leaves it for later. */
  lemma VisitReaches(e: Env, k: nat, beyond: seq<Key>, j: nat, v: nat, destr: nat)
    requires k <= j && Pending(e, j, v, destr)
    ensures var e' := Visit(e, k, k, 0, beyond);
      if k == j then Served(e'.log, j, v, destr)
      else Pending(e', j, v, destr)
  {
    var x := SlotOf(e.tsd, k).(data := 0);
    PutThenRead(e.tsd, k, x, j);
    var calls := if e.script == [] then [] else e.script[0];
    assert Spares(calls, j);
    if k < j {
      CallsSpare(e.keys, Put(e.tsd, k, x), calls, j, v, destr);
    } else {
      assert Ran(j, j, 0, v, e.keys[j].gen, e.keys[j], destr) in Visit(e, k, k, 0, beyond).log;
    }
  }

  lemma VisitServed(e: Env, k: nat, q: nat, skipped: nat, beyond: seq<Key>, j: nat, v: nat, destr: nat)
    requires k < KEYS_MAX && Served(e.log, j, v, destr)
    ensures Served(Visit(e, k, q, skipped, beyond).log, j, v, destr)
  {}

  lemma {:induction false} WalkServed(e: Env, b: nat, i: nat, q: nat, skipped: nat, beyond: seq<Key>,
                                      j: nat, v: nat, destr: nat)
    requires b < 32 && i <= 16 && Served(e.log, j, v, destr)
    ensures Served(Walk(e, b, i, q, skipped, beyond).log, j, v, destr)
    decreases 16 - i
  {
    if i < 16 {
      VisitServed(e, 16 * b + i, q, skipped, beyond, j, v, destr);
      WalkServed(Visit(e, 16 * b + i, q, skipped, beyond), b, i + 1, q + 1, skipped, beyond, j, v, destr);
    }
  }

  lemma {:induction false} PassServed(e: Env, b: nat, q: nat, skipped: nat, beyond: seq<Key>,
                                      j: nat, v: nat, destr: nat)
    requires b <= 32 && Served(e.log, j, v, destr)
    ensures Served(Pass(e, b, q, skipped, beyond).log, j, v, destr)
    decreases 32 - b
  {
    if b < 32 {
      if e.tsd.blocks[b].Absent? {
        PassServed(e, b + 1, q + 32, skipped + 1, beyond, j, v, destr);
      } else {
        WalkServed(e, b, 0, q, skipped, beyond, j, v, destr);
        PassServed(Walk(e, b, 0, q, skipped, beyond), b + 1, q + 16, skipped, beyond, j, v, destr);
      }
    }
  }

  lemma {:induction false} WalkReaches(e: Env, b: nat, i: nat, beyond: seq<Key>, j: nat, v: nat, destr: nat)
    requires b < 32 && i <= 16 && 16 * b + i <= j && Pending(e, j, v, destr)
    ensures var e' := Walk(e, b, i, 16 * b + i, 0, beyond);
      if j < 16 * b + 16 then Served(e'.log, j, v, destr)
      else Pending(e', j, v, destr)
    decreases 16 - i
  {
    hide Visit, Pending, Served, SlotOf;
    if i < 16 {
      var k, e' := 16 * b + i, Visit(e, 16 * b + i, 16 * b + i, 0, beyond);
      VisitReaches(e, k, beyond, j, v, destr);
      if k == j {
        WalkServed(e', b, i + 1, k + 1, 0, beyond, j, v, destr);
      } else {
        WalkReaches(e', b, i + 1, beyond, j, v, destr);
      }
    }
  }

  lemma {:induction false} PassReaches(e: Env, b: nat, beyond: seq<Key>, j: nat, v: nat, destr: nat)
    requires j < KEYS_MAX && b <= j / 16 && Pending(e, j, v, destr)
    requires forall a :: b <= a <= j / 16 ==> e.tsd.blocks[a].Present?
    ensures Served(Pass(e, b, 16 * b, 0, beyond).log, j, v, destr)
    decreases 32 - b
  {
    hide Visit, Pending, Served;
    var e' := Walk(e, b, 0, 16 * b, 0, beyond);
    WalkReaches(e, b, 0, beyond, j, v, destr);
    WalkGrown(e, b, 0, 16 * b, 0, beyond);
    if j < 16 * b + 16 {
      PassServed(e', b + 1, 16 * b + 16, 0, beyond, j, v, destr);
    } else {
      PassReaches(e', b + 1, beyond, j, v, destr);
    }
  }

  lemma {:induction false} PassesServed(e: Env, done: nat, beyond: seq<Key>, j: nat, v: nat, destr: nat)
    requires done < 4 && Served(OnePass(e, beyond).log, j, v, destr)
    ensures Served(Passes(e, done, beyond).env.log, j, v, destr)
    decreases 4 - done
  {
    var e' := OnePass(e, beyond);
    if e'.tsd.used && done + 1 < 4 {
      PassServed(e'.(tsd := e'.tsd.(used := false)), 0, 0, 0, beyond, j, v, destr);
      PassesServed(e', done + 1, beyond, j, v, destr);
    }
  }

  /** The teardown hands a thread's value to the destructor of its key, if no block below is absent and the destructors
      do not themselves delete the key or set another value. */
  lemma EveryValueDestroyed(e: Env, beyond: seq<Key>, j: nat, v: nat, destr: nat)
    requires j < KEYS_MAX && Flagged(e.tsd) && Pending(e, j, v, destr)
    requires forall a :: 0 <= a <= j / 16 ==> e.tsd.blocks[a].Present?
    ensures Served(Dealloc(e, beyond).log, j, v, destr)
  {
    assert SlotOf(e.tsd, j).data != 0;
    var e0 := e.(tsd := e.tsd.(used := false));
    assert SlotOf(e0.tsd, j) == SlotOf(e.tsd, j);
    PassReaches(e0, 0, beyond, j, v, destr);
    PassesServed(e, 0, beyond, j, v, destr);
  }
}
