/** Thread-specific data agrees with a plain map, whatever the threads call (pthread/specific.c). */
module SpecificRuns {
  import opened Runs
  import opened Threads
  import opened Specific

  /** The two-level index is exact: a store reaches its own slot and no other. */
  lemma PutThenRead(t: Tsd, k: nat, x: Slot, j: nat)
    requires k < KEYS_MAX && j < KEYS_MAX
    ensures SlotOf(Put(t, k, x), j) == if j == k then x else SlotOf(t, j)
  {
    if j != k && j / 16 == k / 16 {
      assert j % 16 != k % 16;
    }
  }

  /** What a call does to a slot of the caller and to the entry of its key. */
  lemma DoSlot(keys: Table, t: Tsd, c: Call, j: nat)
    requires j < KEYS_MAX
    ensures var r := Do(keys, t, c); var x, x', key, key' := SlotOf(t, j), SlotOf(r.tsd, j), keys[j], r.keys[j];
      && (key' == if c.Create? && r.answer == Made(j) then Key(key.gen + 1, c.destr)
                  else if c.Delete? && c.k == j && r.answer == Done(OK) then key.(gen := key.gen + 1)
                  else key)
      && (key' != key ==> Unused(key) == c.Create?)
      && (x' == x
          || (c.Set? && c.k == j && r.answer == Done(OK) && !Unused(key) && x' == Slot(key.gen, c.v))
          || (c.Get? && c.k == j && x.gen != key.gen && x' == x.(data := 0)))
      && (c.Set? && c.k == j && r.answer == Done(OK) ==> x' == Slot(key.gen, c.v) || (x' == x == Slot(0, 0) && c.v == 0))
  {
    match c
    case Create(_, _) =>
    case Delete(_) =>
    case Get(k) =>
      if k < KEYS_MAX { PutThenRead(t, k, SlotOf(t, k).(data := 0), j); }
    case Set(k, v, _) =>
      if k < KEYS_MAX { PutThenRead(t, k, Slot(keys[k].gen, v), j); }
  }

  lemma DoDated(keys: Table, t: Tsd, c: Call)
    requires Dated(keys, t)
    ensures Dated(Do(keys, t, c).keys, Do(keys, t, c).tsd)
  {
    forall j | 0 <= j < 512
      ensures SlotOk(SlotOf(Do(keys, t, c).tsd, j), Do(keys, t, c).keys[j])
    {
      DoSlot(keys, t, c, j);
    }
  }

  /** Another thread's slots stay in date. */
  lemma OtherDated(keys: Table, t: Tsd, c: Call, u: Tsd)
    requires Dated(keys, u)
    ensures Dated(Do(keys, t, c).keys, u)
  {
    forall j | 0 <= j < 512
      ensures SlotOk(SlotOf(u, j), Do(keys, t, c).keys[j])
    {
      DoSlot(keys, t, c, j);
    }
  }

  /** Blocks are only added; a value or a block comes with the flag. */
  lemma DoFlagged(keys: Table, t: Tsd, c: Call)
    requires Flagged(t)
    ensures Flagged(Do(keys, t, c).tsd)
  {
    var t' := Do(keys, t, c).tsd;
    if !t'.used {
      forall j | 0 <= j < 512
        ensures SlotOf(t', j).data == 0
      {
        DoSlot(keys, t, c, j);
      }
    }
  }

  /** The value that a slot stands for, after a call of its thread. */
  lemma DoCurrent(keys: Table, t: Tsd, c: Call, j: nat)
    requires Dated(keys, t)
    ensures var r := Do(keys, t, c); var e := Entry(0, c, r.answer);
      Current(r.keys, r.tsd, j) ==
      if Creates(e, j) || Deletes(e, j) then 0 else if Sets(e, 0, j) then c.v else Current(keys, t, j)
  {
    if j < KEYS_MAX { DoSlot(keys, t, c, j); }
  }

  /** And after a call of another. */
  lemma OtherCurrent(keys: Table, t: Tsd, c: Call, u: Tsd, j: nat)
    requires Dated(keys, u)
    ensures var r := Do(keys, t, c); var e := Entry(0, c, r.answer);
      Current(r.keys, u, j) == if Creates(e, j) || Deletes(e, j) then 0 else Current(keys, u, j)
  {
    if j < KEYS_MAX { DoSlot(keys, t, c, j); }
  }

  /** The destructor in the table, -1 for an unused key. */
  function Live(keys: Table, k: nat): int {
    if k < KEYS_MAX && !Unused(keys[k]) then keys[k].destr else -1
  }

  lemma DoLive(keys: Table, t: Tsd, c: Call, j: nat)
    ensures var r := Do(keys, t, c); var e := Entry(0, c, r.answer);
      Live(r.keys, j) == if Creates(e, j) then c.destr else if Deletes(e, j) then -1 else Live(keys, j)
  {
    if j < KEYS_MAX { DoSlot(keys, t, c, j); }
  }

  ghost predicate Sound(s: State) {
    forall t :: t in s.threads ==> Dated(s.keys, s.threads[t]) && Flagged(s.threads[t])
  }

  /** The state stands for what the history says. */
  ghost predicate Stands(past: seq<Entry>, s: State) {
    && (forall k: nat :: Live(s.keys, k) == Registered(past, k))
    && (forall t, k: nat :: t in s.threads ==> Current(s.keys, s.threads[t], k) == LastSet(past, t, k))
  }

  lemma StepSound(s: State, t: Tid, c: Call)
    requires Sound(s) && t in s.threads
    ensures Sound(After(s, t, c))
  {
    DoDated(s.keys, s.threads[t], c);
    DoFlagged(s.keys, s.threads[t], c);
    forall u | u in s.threads && u != t
      ensures Dated(After(s, t, c).keys, s.threads[u])
    {
      OtherDated(s.keys, s.threads[t], c, s.threads[u]);
    }
  }

  lemma StepStands(past: seq<Entry>, s: State, e: Entry)
    requires Sound(s) && Stands(past, s) && e.t in s.threads && Do(s.keys, s.threads[e.t], e.c).answer == e.a
    ensures Stands(past + [e], After(s, e.t, e.c))
  {
    var s' := After(s, e.t, e.c);
    assert (past + [e])[..|past|] == past;
    forall k: nat
      ensures Live(s'.keys, k) == Registered(past + [e], k)
    {
      DoLive(s.keys, s.threads[e.t], e.c, k);
    }
    forall t, k: nat | t in s'.threads
      ensures Current(s'.keys, s'.threads[t], k) == LastSet(past + [e], t, k)
    {
      if t == e.t {
        DoCurrent(s.keys, s.threads[t], e.c, k);
      } else {
        OtherCurrent(s.keys, s.threads[e.t], e.c, s.threads[t], k);
      }
    }
  }

  lemma {:induction false} RunStands(past: seq<Entry>, s: State, trace: seq<Entry>, s': State)
    requires Sound(s) && Stands(past, s) && Run(s, trace, s')
    ensures Sound(s') && Stands(past + trace, s')
    decreases |trace|
  {
    if trace == [] {
      assert past + trace == past;
    } else {
      StepSound(s, trace[0].t, trace[0].c);
      StepStands(past, s, trace[0]);
      RunStands(past + [trace[0]], After(s, trace[0].t, trace[0].c), trace[1..], s');
      assert past + [trace[0]] + trace[1..] == past + trace;
    }
  }

  lemma InitialStands(s: State)
    requires Initial(s)
    ensures Sound(s) && Stands([], s)
  {
    forall t | t in s.threads
      ensures Dated(s.keys, s.threads[t]) && Flagged(s.threads[t])
    {
      FreshIsEmpty();
    }
    forall t, k: nat | t in s.threads
      ensures Current(s.keys, s.threads[t], k) == 0
    {
      FreshIsEmpty();
    }
  }

  lemma FreshIsEmpty()
    ensures forall k :: 0 <= k < 512 ==> SlotOf(Fresh(), k) == Slot(0, 0)
    ensures Flagged(Fresh())
  {}

  lemma FromInitial(s0: State, trace: seq<Entry>, s: State)
    requires Initial(s0) && Run(s0, trace, s)
    ensures Sound(s) && Stands(trace, s)
  {
    InitialStands(s0);
    RunStands([], s0, trace, s);
    assert [] + trace == trace;
  }

  lemma TableAnswers(keys: Table, t: Tsd, k: nat, v: nat, mem: bool)
    requires Dated(keys, t)
    ensures Do(keys, t, Delete(k)).answer == Done(if Live(keys, k) >= 0 then OK else EINVAL)
    ensures Live(keys, k) < 0 ==> Do(keys, t, Get(k)).answer == Value(0)
    ensures var a := Do(keys, t, Set(k, v, mem)).answer;
      && (a == Done(EINVAL) <==> Live(keys, k) < 0)
      && (a == Done(ENOMEM) ==> !mem && v != 0 && Current(keys, t, k) == 0)
      && (a == Done(ENOMEM) <==> Live(keys, k) >= 0 && !mem && v != 0 && t.blocks[k / 16].Absent?)
      && (a == Done(EINVAL) || a == Done(ENOMEM) || a == Done(OK))
  {
    if k < KEYS_MAX { assert SlotOk(SlotOf(t, k), keys[k]); }
  }

  /** `pthread_getspecific` returns what the thread last set since the key's creation, else null. */
  lemma GetReturnsLastSet(s0: State, trace: seq<Entry>, s: State, t: Tid, k: nat)
    requires Initial(s0) && Run(s0, trace, s) && t in s.threads
    ensures Do(s.keys, s.threads[t], Get(k)).answer == Value(LastSet(trace, t, k))
  {
    FromInitial(s0, trace, s);
    assert Current(s.keys, s.threads[t], k) == LastSet(trace, t, k);
  }

  /** A new key did not exist, and is the first such; there is none left only if all the others exist, or their
      compare-and-swap failed. */
  lemma CreateAnswers(s0: State, trace: seq<Entry>, s: State, t: Tid, destr: nat, fails: set<nat>)
    requires Initial(s0) && Run(s0, trace, s) && t in s.threads
    ensures var a := Do(s.keys, s.threads[t], Create(destr, fails)).answer;
      a == Done(EAGAIN) || (a.Made? && a.k < KEYS_MAX && !Exists(trace, a.k) && a.k !in fails)
    ensures forall k :: 0 <= k < 512 && !Exists(trace, k) && k !in fails ==>
      && Do(s.keys, s.threads[t], Create(destr, fails)).answer.Made?
      && Do(s.keys, s.threads[t], Create(destr, fails)).answer.k <= k
  {
    FromInitial(s0, trace, s);
    assert forall k: nat :: Live(s.keys, k) == Registered(trace, k);
    assert forall k: nat :: Exists(trace, k) <==> Registered(trace, k) >= 0;
  }

  /** Keys that do not exist are refused, and have no value; memory is short exactly for a value whose block is not there,
      a first one. */
  lemma OtherAnswers(s0: State, trace: seq<Entry>, s: State, t: Tid, k: nat, v: nat, mem: bool)
    requires Initial(s0) && Run(s0, trace, s) && t in s.threads
    ensures Do(s.keys, s.threads[t], Delete(k)).answer == Done(if Exists(trace, k) then OK else EINVAL)
    ensures !Exists(trace, k) ==> Do(s.keys, s.threads[t], Get(k)).answer == Value(0)
    ensures var a := Do(s.keys, s.threads[t], Set(k, v, mem)).answer;
      && (a == Done(EINVAL) <==> !Exists(trace, k))
      && (a == Done(ENOMEM) ==> !mem && v != 0 && LastSet(trace, t, k) == 0)
      && (a == Done(ENOMEM) <==> Exists(trace, k) && !mem && v != 0 && s.threads[t].blocks[k / 16].Absent?)
      && (a == Done(EINVAL) || a == Done(ENOMEM) || a == Done(OK))
  {
    FromInitial(s0, trace, s);
    assert Live(s.keys, k) == Registered(trace, k);
    assert Current(s.keys, s.threads[t], k) == LastSet(trace, t, k);
    TableAnswers(s.keys, s.threads[t], k, v, mem);
  }
}
