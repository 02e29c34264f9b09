/** Which destructors the teardown of a thread's data runs when blocks of its table are absent (`__pthread_dealloc_tsd`). */
module SpecificGap {
  import opened Runs
  import opened Specific
  import opened SpecificExit
  import opened SpecificRuns
  import opened Threads

  // Keys below the first absent block.

  /** The first `p` blocks are there. */
  predicate Firm(t: Tsd, p: nat) { p <= 32 && forall b :: 0 <= b < p ==> t.blocks[b].Present? }

  predicate Head(log: seq<Ran>, p: nat) { forall r :: r in log && r.key < 16 * p ==> r.skipped == 0 }

  /** What a visit adds to the log. */
  lemma VisitLogs(e: Env, k: nat, q: nat, skipped: nat, beyond: seq<Key>)
    requires k < KEYS_MAX
    ensures forall r :: r in Visit(e, k, q, skipped, beyond).log ==> r in e.log || (r.key == k && r.skipped == skipped)
  {}

  lemma {:induction false} WalkHead(e: Env, b: nat, i: nat, q: nat, skipped: nat, beyond: seq<Key>, p: nat)
    requires b < 32 && i <= 16 && Firm(e.tsd, p) && Head(e.log, p) && (b < p ==> skipped == 0)
    ensures var e' := Walk(e, b, i, q, skipped, beyond); Firm(e'.tsd, p) && Head(e'.log, p)
    decreases 16 - i
  {
    hide Visit;
    if i < 16 {
      VisitLogs(e, 16 * b + i, q, skipped, beyond);
      VisitGrown(e, 16 * b + i, q, skipped, beyond);
      WalkHead(Visit(e, 16 * b + i, q, skipped, beyond), b, i + 1, q + 1, skipped, beyond, p);
    }
  }

  lemma {:induction false} PassHead(e: Env, b: nat, q: nat, skipped: nat, beyond: seq<Key>, p: nat)
    requires b <= 32 && Firm(e.tsd, p) && Head(e.log, p) && (b < p ==> skipped == 0)
    ensures var e' := Pass(e, b, q, skipped, beyond); Firm(e'.tsd, p) && Head(e'.log, p)
    decreases 32 - b
  {
    hide Walk, Head;
    if b < 32 {
      if e.tsd.blocks[b].Absent? {
        PassHead(e, b + 1, q + 32, skipped + 1, beyond, p);
      } else {
        WalkHead(e, b, 0, q, skipped, beyond, p);
        PassHead(Walk(e, b, 0, q, skipped, beyond), b + 1, q + 16, skipped, beyond, p);
      }
    }
  }

  lemma {:induction false} PassesHead(e: Env, done: nat, beyond: seq<Key>, p: nat)
    requires done < 4 && Firm(e.tsd, p) && Head(e.log, p)
    ensures Head(Passes(e, done, beyond).env.log, p)
    decreases 4 - done
  {
    PassHead(e.(tsd := e.tsd.(used := false)), 0, 0, 0, beyond, p);
    var e' := OnePass(e, beyond);
    if e'.tsd.used && done + 1 < 4 { PassesHead(e', done + 1, beyond, p); }
  }

  // Keys above an absent block.

  /** The calls store nothing into block `a`. */
  predicate AvoidsIn(calls: seq<Call>, a: nat) {
    forall c :: c in calls && c.Set? && c.k < KEYS_MAX ==> c.k / 16 != a
  }

  predicate Avoids(script: seq<seq<Call>>, a: nat) {
    forall i :: 0 <= i < |script| ==> AvoidsIn(script[i], a)
  }

  /** Block `a` is absent, and stays so. */
  predicate Gap(e: Env, a: nat) { a < 32 && e.tsd.blocks[a].Absent? && Avoids(e.script, a) }

  predicate Tail(log: seq<Ran>, a: nat) { forall r :: r in log && r.key >= 16 * a ==> r.skipped > 0 && r.key / 16 != a }

  lemma {:induction false} CallsAvoid(keys: Table, t: Tsd, calls: seq<Call>, a: nat)
    requires a < 32 && t.blocks[a].Absent? && AvoidsIn(calls, a)
    ensures Calls(keys, t, calls).tsd.blocks[a].Absent?
    decreases |calls|
  {
    if calls != [] {
      var r := Do(keys, t, calls[0]);
      assert calls[0] in calls && forall c :: c in calls[1..] ==> c in calls;
      CallsAvoid(r.keys, r.tsd, calls[1..], a);
    }
  }

  lemma VisitGap(e: Env, k: nat, q: nat, skipped: nat, beyond: seq<Key>, a: nat)
    requires k < KEYS_MAX && k / 16 != a && Gap(e, a)
    ensures Gap(Visit(e, k, q, skipped, beyond), a)
  {
    var calls := if e.script == [] then [] else e.script[0];
    assert AvoidsIn(calls, a);
    CallsAvoid(e.keys, Put(e.tsd, k, SlotOf(e.tsd, k).(data := 0)), calls, a);
  }

  lemma {:induction false} WalkGap(e: Env, b: nat, i: nat, q: nat, skipped: nat, beyond: seq<Key>, a: nat)
    requires b < 32 && i <= 16 && b != a && Gap(e, a)
    ensures Gap(Walk(e, b, i, q, skipped, beyond), a)
    decreases 16 - i
  {
    hide Visit, Gap;
    if i < 16 {
      assert (16 * b + i) / 16 == b;
      VisitGap(e, 16 * b + i, q, skipped, beyond, a);
      WalkGap(Visit(e, 16 * b + i, q, skipped, beyond), b, i + 1, q + 1, skipped, beyond, a);
    }
  }

  lemma {:induction false} PassGap(e: Env, b: nat, q: nat, skipped: nat, beyond: seq<Key>, a: nat)
    requires b <= 32 && Gap(e, a)
    ensures Gap(Pass(e, b, q, skipped, beyond), a)
    decreases 32 - b
  {
    hide Walk;
    if b < 32 {
      if e.tsd.blocks[b].Absent? {
        PassGap(e, b + 1, q + 32, skipped + 1, beyond, a);
      } else {
        WalkGap(e, b, 0, q, skipped, beyond, a);
        PassGap(Walk(e, b, 0, q, skipped, beyond), b + 1, q + 16, skipped, beyond, a);
      }
    }
  }

  /** A block that no destructor stores into is still absent when the passes end. */
  lemma {:induction false} GapLasts(e: Env, done: nat, beyond: seq<Key>, a: nat)
    requires done < 4 && Gap(e, a)
    ensures Gap(Passes(e, done, beyond).env, a)
    decreases 4 - done
  {
    PassGap(e.(tsd := e.tsd.(used := false)), 0, 0, 0, beyond, a);
    var e' := OnePass(e, beyond);
    if e'.tsd.used && done + 1 < 4 { GapLasts(e', done + 1, beyond, a); }
  }

  // Blocks are not taken away before the passes end.

  lemma {:induction false} PassGrown(e: Env, b: nat, q: nat, skipped: nat, beyond: seq<Key>)
    requires b <= 32
    ensures Grown(e.tsd, Pass(e, b, q, skipped, beyond).tsd)
    decreases 32 - b
  {
    hide Walk;
    if b < 32 {
      if e.tsd.blocks[b].Absent? {
        PassGrown(e, b + 1, q + 32, skipped + 1, beyond);
      } else {
        WalkGrown(e, b, 0, q, skipped, beyond);
        PassGrown(Walk(e, b, 0, q, skipped, beyond), b + 1, q + 16, skipped, beyond);
      }
    }
  }

  lemma {:induction false} PassesGrown(e: Env, done: nat, beyond: seq<Key>)
    requires done < 4
    ensures Grown(e.tsd, Passes(e, done, beyond).env.tsd)
    decreases 4 - done
  {
    PassGrown(e.(tsd := e.tsd.(used := false)), 0, 0, 0, beyond);
    var e' := OnePass(e, beyond);
    if e'.tsd.used && done + 1 < 4 { PassesGrown(e', done + 1, beyond); }
  }

  lemma {:induction false} WalkTail(e: Env, b: nat, i: nat, q: nat, skipped: nat, beyond: seq<Key>, a: nat)
    requires b < 32 && i <= 16 && b != a && Tail(e.log, a) && (b > a ==> skipped > 0)
    ensures Tail(Walk(e, b, i, q, skipped, beyond).log, a)
    decreases 16 - i
  {
    hide Visit;
    if i < 16 {
      VisitLogs(e, 16 * b + i, q, skipped, beyond);
      assert (16 * b + i) / 16 == b;
      WalkTail(Visit(e, 16 * b + i, q, skipped, beyond), b, i + 1, q + 1, skipped, beyond, a);
    }
  }

  lemma {:induction false} PassTail(e: Env, b: nat, q: nat, skipped: nat, beyond: seq<Key>, a: nat)
    requires b <= 32 && a < 32 && Tail(e.log, a) && (b > a ==> skipped > 0)
    requires Pass(e, b, q, skipped, beyond).tsd.blocks[a].Absent?
    ensures Tail(Pass(e, b, q, skipped, beyond).log, a)
    decreases 32 - b
  {
    hide Walk, Tail;
    PassGrown(e, b, q, skipped, beyond);
    if b < 32 {
      if e.tsd.blocks[b].Absent? {
        PassTail(e, b + 1, q + 32, skipped + 1, beyond, a);
      } else {
        WalkTail(e, b, 0, q, skipped, beyond, a);
        PassTail(Walk(e, b, 0, q, skipped, beyond), b + 1, q + 16, skipped, beyond, a);
      }
    }
  }

  lemma {:induction false} PassesTail(e: Env, done: nat, beyond: seq<Key>, a: nat)
    requires done < 4 && a < 32 && Tail(e.log, a) && Passes(e, done, beyond).env.tsd.blocks[a].Absent?
    ensures Tail(Passes(e, done, beyond).env.log, a)
    decreases 4 - done
  {
    var e' := OnePass(e, beyond);
    if e'.tsd.used && done + 1 < 4 {
      PassesGrown(e', done + 1, beyond);
      PassTail(e.(tsd := e.tsd.(used := false)), 0, 0, 0, beyond, a);
      PassesTail(e', done + 1, beyond, a);
    } else {
      PassTail(e.(tsd := e.tsd.(used := false)), 0, 0, 0, beyond, a);
    }
  }

  // What destructors run.

  /** It is the one registered for the key the value was set for, at the creation it was set under. */
  predicate Right(r: Ran) { r.q == r.key && r.own.gen == r.gen && !Unused(r.own) && r.destr == r.own.destr }

  /** Whatever the destructors call, those of keys below the first absent block are the right ones. */
  lemma RightDestructors(keys: Table, t: Tsd, script: seq<seq<Call>>, beyond: seq<Key>, p: nat)
    requires Dated(keys, t) && Firm(t, p)
    ensures forall r :: r in Dealloc(Env(keys, t, script, []), beyond).log && r.key < 16 * p ==> Right(r)
  {
    DestructorsRun(keys, t, script, beyond);
    if t.used { PassesHead(Env(keys, t, script, []), 0, beyond, p); }
  }

  /** Block `a` is absent from the start of the teardown until its passes end. */
  predicate Lasting(e: Env, beyond: seq<Key>, a: nat) {
    a < 32 && e.tsd.blocks[a].Absent? && (e.tsd.used ==> Passes(e, 0, beyond).env.tsd.blocks[a].Absent?)
  }

  /** That is so if no destructor stores into it. */
  lemma UntouchedLasts(e: Env, beyond: seq<Key>, a: nat)
    requires Gap(e, a)
    ensures Lasting(e, beyond, a)
  {
    if e.tsd.used { GapLasts(e, 0, beyond, a); }
  }

  /** When the first absent block, `p`, is still absent in the end, whatever else the destructors store: the code looks up
      the destructor of a value's own key exactly if that key is below the block; above, it is that of a later entry of
      the table. */
  lemma RightExactlyBelowGap(keys: Table, t: Tsd, script: seq<seq<Call>>, beyond: seq<Key>, p: nat)
    requires Dated(keys, t) && Firm(t, p) && Lasting(Env(keys, t, script, []), beyond, p)
    ensures forall r :: r in Dealloc(Env(keys, t, script, []), beyond).log ==>
      && (r.q == r.key <==> r.key < 16 * p)
      && (r.key >= 16 * p ==> r.q >= r.key + 16 && r.key >= 16 * (p + 1))
  {
    DestructorsRun(keys, t, script, beyond);
    if t.used {
      PassesHead(Env(keys, t, script, []), 0, beyond, p);
      PassesTail(Env(keys, t, script, []), 0, beyond, p);
    }
  }

  predicate NoneIn(log: seq<Ran>, a: nat) { forall r :: r in log ==> r.key / 16 != a }

  /** So all are right when the blocks form a prefix and destructors store within it. */
  lemma PrefixDestructors(keys: Table, t: Tsd, script: seq<seq<Call>>, beyond: seq<Key>, p: nat)
    requires Dated(keys, t) && Firm(t, p) && forall a :: p <= a < 32 ==> Gap(Env(keys, t, script, []), a)
    ensures forall r :: r in Dealloc(Env(keys, t, script, []), beyond).log ==> Right(r)
  {
    DestructorsRun(keys, t, script, beyond);
    RightDestructors(keys, t, script, beyond, p);
    if t.used {
      forall a | p <= a < 32
        ensures NoneIn(Dealloc(Env(keys, t, script, []), beyond).log, a)
      {
        GapLasts(Env(keys, t, script, []), 0, beyond, a);
        PassesTail(Env(keys, t, script, []), 0, beyond, a);
      }
      forall r | r in Dealloc(Env(keys, t, script, []), beyond).log
        ensures r.key < 16 * p
      {
        assert r.key < 16 * p || !NoneIn(Dealloc(Env(keys, t, script, []), beyond).log, r.key / 16);
      }
    }
  }

  // A gap below the only value.

  lemma VisitEmpty(e: Env, k: nat, q: nat, skipped: nat, beyond: seq<Key>)
    requires k < 512 && SlotOf(e.tsd, k).data == 0
    ensures Visit(e, k, q, skipped, beyond) == e
  {}

  lemma {:induction false} WalkSkips(e: Env, b: nat, i: nat, i': nat, q: nat, skipped: nat, beyond: seq<Key>)
    requires b < 32 && i <= i' <= 16
    requires forall k :: 16 * b + i <= k < 16 * b + i' ==> SlotOf(e.tsd, k).data == 0
    ensures Walk(e, b, i, q, skipped, beyond) == Walk(e, b, i', q + i' - i, skipped, beyond)
    decreases i' - i
  {
    hide Visit, SlotOf;
    if i < i' {
      VisitEmpty(e, 16 * b + i, q, skipped, beyond);
      WalkSkips(e, b, i + 1, i', q + 1, skipped, beyond);
    }
  }

  lemma {:induction false} AbsentSkips(e: Env, b: nat, b': nat, q: nat, skipped: nat, beyond: seq<Key>)
    requires b <= b' <= 32 && forall a :: b <= a < b' ==> e.tsd.blocks[a].Absent?
    ensures Pass(e, b, q, skipped, beyond) == Pass(e, b', q + 32 * (b' - b), skipped + b' - b, beyond)
    decreases b' - b
  {
    if b < b' { AbsentSkips(e, b + 1, b', q + 32, skipped + 1, beyond); }
  }

  lemma {:induction false} EmptyPass(e: Env, b: nat, q: nat, skipped: nat, beyond: seq<Key>)
    requires b <= 32 && forall k :: 16 * b <= k < 512 ==> SlotOf(e.tsd, k).data == 0
    ensures Pass(e, b, q, skipped, beyond) == e
    decreases 32 - b
  {
    if b < 32 {
      if e.tsd.blocks[b].Absent? {
        EmptyPass(e, b + 1, q + 32, skipped + 1, beyond);
      } else {
        WalkSkips(e, b, 0, 16, q, skipped, beyond);
        EmptyPass(e, b + 1, q + 16, skipped, beyond);
      }
    }
  }

  /** The only value is in block `b`, and the blocks between the first and `b` are absent. */
  predicate Lone(t: Tsd, j: nat) {
    && 16 <= j < KEYS_MAX && t.used && t.blocks[0].Present? && SlotOf(t, j).data != 0
    && (forall k :: 0 <= k < 512 && k != j ==> SlotOf(t, k).data == 0)
    && (forall a :: 1 <= a < j / 16 ==> t.blocks[a].Absent?)
  }

  lemma VisitLone(e: Env, j: nat, q: nat, skipped: nat, beyond: seq<Key>)
    requires j < KEYS_MAX && e.script == [] && e.log == [] && !e.tsd.used && SlotOf(e.tsd, j).data != 0
    requires forall k :: 0 <= k < 512 && k != j ==> SlotOf(e.tsd, k).data == 0
    ensures var e' := Visit(e, j, q, skipped, beyond); var key, x := KeyAt(e.keys, beyond, q), SlotOf(e.tsd, j);
      && !e'.tsd.used && (forall k :: 0 <= k < 512 ==> SlotOf(e'.tsd, k).data == 0)
      && e'.log == (if x.gen == key.gen && key.destr != 0
                    then [Ran(j, q, skipped, x.data, x.gen, e.keys[j], key.destr)] else [])
  {
    var x := SlotOf(e.tsd, j).(data := 0);
    forall k | 0 <= k < 512
      ensures SlotOf(Put(e.tsd, j, x), k).data == 0
    {
      PutThenRead(e.tsd, j, x, k);
    }
  }

  /** One pass is then one visit. */
  lemma LonePass(e: Env, beyond: seq<Key>, j: nat)
    requires Lone(e.tsd, j) && e.script == [] && e.log == []
    ensures OnePass(e, beyond) == Visit(e.(tsd := e.tsd.(used := false)), j, j + 16 * (j / 16 - 1), j / 16 - 1, beyond)
  {
    var e0 := e.(tsd := e.tsd.(used := false));
    var b := j / 16;
    var q, skipped := j + 16 * (b - 1), b - 1;
    assert forall k :: 0 <= k < 512 ==> SlotOf(e0.tsd, k) == SlotOf(e.tsd, k);
    assert OnePass(e, beyond) == Pass(e0, 1, 16, 0, beyond) by {
      WalkSkips(e0, 0, 0, 16, 0, 0, beyond);
    }
    AbsentSkips(e0, 1, b, 16, 0, beyond);
    LoneRest(e0, j, q, skipped, beyond);
  }

  lemma LoneVisit(e: Env, b: nat, i: nat, q: nat, skipped: nat, beyond: seq<Key>)
    requires 1 <= b < 32 && i < 16 && i <= q && !e.tsd.used && e.script == [] && e.log == []
    requires SlotOf(e.tsd, 16 * b + i).data != 0
    requires forall k :: 0 <= k < 512 && k != 16 * b + i ==> SlotOf(e.tsd, k).data == 0
    ensures Walk(e, b, i, q, skipped, beyond) == Visit(e, 16 * b + i, q, skipped, beyond)
  {
    hide Visit;
    var e' := Visit(e, 16 * b + i, q, skipped, beyond);
    VisitLone(e, 16 * b + i, q, skipped, beyond);
    WalkSkips(e', b, i + 1, 16, q + 1, skipped, beyond);
  }

  lemma LoneWalk(e: Env, b: nat, i: nat, q: nat, skipped: nat, beyond: seq<Key>)
    requires 1 <= b < 32 && i < 16 && i <= q && !e.tsd.used && e.script == [] && e.log == []
    requires SlotOf(e.tsd, 16 * b + i).data != 0
    requires forall k :: 0 <= k < 512 && k != 16 * b + i ==> SlotOf(e.tsd, k).data == 0
    ensures Walk(e, b, 0, q - i, skipped, beyond) == Visit(e, 16 * b + i, q, skipped, beyond)
  {
    hide Visit;
    LoneVisit(e, b, i, q, skipped, beyond);
    WalkSkips(e, b, 0, i, q - i, skipped, beyond);
  }

  lemma LoneRest(e: Env, j: nat, q: nat, skipped: nat, beyond: seq<Key>)
    requires 16 <= j < 512 && j % 16 <= q && !e.tsd.used && e.script == [] && e.log == []
    requires SlotOf(e.tsd, j).data != 0
    requires forall k :: 0 <= k < 512 && k != j ==> SlotOf(e.tsd, k).data == 0
    ensures Pass(e, j / 16, q - j % 16, skipped, beyond) == Visit(e, j, q, skipped, beyond)
  {
    hide Visit;
    var e' := Visit(e, j, q, skipped, beyond);
    assert Walk(e, j / 16, 0, q - j % 16, skipped, beyond) == e' by {
      LoneWalk(e, j / 16, j % 16, q, skipped, beyond);
    }
    assert Pass(e', j / 16 + 1, q + 16 - j % 16, skipped, beyond) == e' by {
      VisitLone(e, j, q, skipped, beyond);
      EmptyPass(e', j / 16 + 1, q + 16 - j % 16, skipped, beyond);
    }
  }

  /** The destructor consulted for such a value is that of another entry of the table, 16 further for each absent block,
      beyond its end from key 272 on: for key 32 it is the one of key 48. Its own is consulted exactly if its block is
      the second. */
  lemma LoneValue(keys: Table, t: Tsd, beyond: seq<Key>, j: nat)
    requires Lone(t, j)
    ensures var q := j + 16 * (j / 16 - 1); var key, x := KeyAt(keys, beyond, q), SlotOf(t, j);
      && Dealloc(Env(keys, t, [], []), beyond).log ==
         (if x.gen == key.gen && key.destr != 0 then [Ran(j, q, j / 16 - 1, x.data, x.gen, keys[j], key.destr)] else [])
      && (q == j <==> j / 16 == 1) && (q >= KEYS_MAX <==> j >= 272)
  {
    hide Visit, OnePass;
    var e := Env(keys, t.(used := false), [], []);
    assert forall k :: 0 <= k < 512 ==> SlotOf(e.tsd, k) == SlotOf(t, k);
    LonePass(Env(keys, t, [], []), beyond, j);
    VisitLone(e, j, j + 16 * (j / 16 - 1), j / 16 - 1, beyond);
  }

  // A run that gets there.

  /** The table with the first `n` keys created once, key `k` with destructor `k + 1`. */
  function Numbered(n: nat): Table { seq(512, (k: nat) => if k < n then Key(1, k + 1) else Key(0, 0)) }

  function Alone(keys: Table, t: Tsd): State { State(keys, map[1 := t]) }

  lemma CreatesNext(n: nat)
    requires n < 512
    ensures Attempt(Alone(Numbered(n), Fresh()), Entry(1, Create(n + 1, {}), Made(n))) ==
            Some(Alone(Numbered(n + 1), Fresh()))
  {
    assert Unused(Numbered(n)[n]) && forall j :: 0 <= j < n ==> !Unused(Numbered(n)[j]);
    assert Search(Numbered(n), 0, {}) == n;
    assert Numbered(n)[n := Key(1, n + 1)] == Numbered(n + 1);
    assert map[1 := Fresh()][1 := Fresh()] == map[1 := Fresh()];
  }

  lemma {:induction false} Creates(n: nat) returns (trace: seq<Entry>)
    requires n <= 512
    ensures Run(Alone(Numbered(0), Fresh()), trace, Alone(Numbered(n), Fresh()))
  {
    if n == 0 {
      trace := [];
    } else {
      var before := Creates(n - 1);
      CreatesNext(n - 1);
      var e := Entry(1, Create(n, {}), Made(n - 1));
      Extend(Attempt, Alone(Numbered(0), Fresh()), before, Alone(Numbered(n - 1), Fresh()), e);
      trace := before + [e];
    }
  }

  /** A thread that creates `n` keys and sets a value for key 32 alone: when it ends, the destructor of key 48 gets the
      value, if that key exists, and none does otherwise. */
  lemma WrongDestructorRuns(n: nat, v: nat, beyond: seq<Key>) returns (trace: seq<Entry>, s: State)
    requires 33 <= n <= 512 && v != 0
    ensures Initial(Alone(Numbered(0), Fresh())) && Run(Alone(Numbered(0), Fresh()), trace, s)
    ensures 1 in s.threads && Lone(s.threads[1], 32) && LastSet(trace, 1, 32) == v && Registered(trace, 32) == 33
    ensures Dealloc(Env(s.keys, s.threads[1], [], []), beyond).log ==
      if n > 48 then [Ran(32, 48, 1, v, 1, Key(1, 33), 49)] else []
  {
    var before := Creates(n);
    var e, t := Entry(1, Set(32, v, true), Done(OK)), Put(Fresh(), 32, Slot(1, v)).(used := true);
    Extend(Attempt, Alone(Numbered(0), Fresh()), before, Alone(Numbered(n), Fresh()), e);
    trace := before + [e];
    s := Alone(Numbered(n), t);
    assert map[1 := Fresh()][1 := t] == map[1 := t];
    assert Attempt(Alone(Numbered(n), Fresh()), e) == Some(s);
    SetIsLone(v);
    LoneValue(Numbered(n), t, beyond, 32);
    FromInitial(Alone(Numbered(0), Fresh()), trace, s);
    assert Current(s.keys, t, 32) == LastSet(trace, 1, 32) && Live(s.keys, 32) == Registered(trace, 32);
  }

  lemma SetIsLone(v: nat)
    requires v != 0
    ensures var t := Put(Fresh(), 32, Slot(1, v)).(used := true); Lone(t, 32) && SlotOf(t, 32) == Slot(1, v)
  {
    var t := Put(Fresh(), 32, Slot(1, v)).(used := true);
    forall k | 0 <= k < 512
      ensures SlotOf(t, k) == if k == 32 then Slot(1, v) else Slot(0, 0)
    {
      FreshIsEmpty();
      PutThenRead(Fresh(), 32, Slot(1, v), k);
    }
  }
}
