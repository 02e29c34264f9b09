/** A thread's descriptor and the table of keys that it shares with the others, changed in place. */
module SpecificObject {
  import opened Specific
  import opened SpecificRuns

  class ThreadT {
    const keys: array<Key>
    const specific: array<array?<Slot>>
    var used: bool

    /** The value of the two levels. */
    ghost var tsd: Tsd

    predicate Shaped()
      reads this, specific, specific[..]
    {
      && keys.Length == KEYS_MAX && specific.Length == L1_SIZE && specific[0] != null
      && (forall i, j :: 0 <= i < j < 32 && specific[i] != null ==> specific[i] != specific[j])
      && (forall i :: 0 <= i < 32 && specific[i] != null ==> specific[i].Length == L2_SIZE)
    }

    ghost predicate Valid()
      reads this, specific, specific[..]
    {
      && Shaped() && used == tsd.used
      && (forall i :: 0 <= i < 32 ==> BlockIs(specific[i], tsd.blocks[i]))
    }

    ghost predicate BlockIs(l2: array?<Slot>, b: Block)
      reads l2
    {
      match b
      case Absent => l2 == null
      case Present(row) => l2 != null && l2[..] == row
    }

    function Table(): Table
      requires keys.Length == KEYS_MAX
      reads keys
    {
      keys[..]
    }

    /** A thread as it is created, beside others that use the same table. */
    constructor (keys: array<Key>)
      requires keys.Length == KEYS_MAX
      ensures Valid() && this.keys == keys && tsd == Fresh() && fresh(specific)
      ensures forall i :: 0 <= i < 32 && specific[i] != null ==> fresh(specific[i])
    {
      this.keys := keys;
      var blk1 := new Slot[16](_ => Slot(0, 0));
      var l1 := new array?<Slot>[32](_ => null);
      l1[0] := blk1;
      specific := l1;
      used := false;
      tsd := Fresh();
      new;
      assert blk1[..] == Zeros();
    }

    /** `pthread_key_create`. */
    method KeyCreate(destr: nat, fails: set<nat>) returns (a: Answer)
      requires Valid()
      modifies keys
      ensures Valid() && Result(Table(), tsd, a) == CreateKey(old(Table()), old(tsd), destr, fails)
    {
      var i := 0;
      while i < KEYS_MAX
        invariant i <= KEYS_MAX && Search(old(Table()), 0, fails) == Search(old(Table()), i, fails)
        invariant keys[..] == old(keys[..])
      {
        if Unused(keys[i]) && i !in fails {
          keys[i] := Key(keys[i].gen + 1, keys[i].destr);
          keys[i] := Key(keys[i].gen, destr);
          return Made(i);
        }
        i := i + 1;
      }
      return Done(EAGAIN);
    }

    /** `pthread_key_delete`. */
    method KeyDelete(k: nat) returns (a: Answer)
      requires Valid()
      modifies keys
      ensures Valid() && Result(Table(), tsd, a) == DeleteKey(old(Table()), old(tsd), k)
    {
      if k >= KEYS_MAX || Unused(keys[k]) {
        return Done(EINVAL);
      }
      keys[k] := Key(keys[k].gen + 1, keys[k].destr);
      return Done(OK);
    }

    /** Stores into a slot of a block that is there. */
    method Store(k: nat, x: Slot)
      requires Valid() && k < KEYS_MAX && specific[k / 16] != null
      modifies this`tsd, specific[k / 16]
      ensures Valid() && tsd == Put(old(tsd), k, x)
    {
      var l2 := specific[k / 16];
      l2[k % 16] := x;
      tsd := Put(tsd, k, x);
      assert BlockIs(l2, tsd.blocks[k / 16]);
      forall i | 0 <= i < 32 && i != k / 16
        ensures BlockIs(specific[i], tsd.blocks[i])
      {
        assert specific[i] != l2 && tsd.blocks[i] == old(tsd.blocks[i]);
        assert old(BlockIs(specific[i], tsd.blocks[i]));
      }
    }

    /** `pthread_getspecific`. */
    method Getspecific(k: nat) returns (a: Answer)
      requires Valid()
      modifies this`tsd, specific[..]
      ensures Valid() && Result(Table(), tsd, a) == GetSpecific(old(Table()), old(tsd), k)
    {
      if k >= KEYS_MAX {
        return Value(0);
      }
      assert BlockIs(specific[k / 16], tsd.blocks[k / 16]);
      var lp := specific[k / 16];
      if lp == null {
        return Value(0);
      }
      var x := lp[k % 16];
      if x.data != 0 && x.gen != keys[k].gen {
        assert lp in specific[..];
        Store(k, Slot(x.gen, 0));
        return Value(0);
      }
      return Value(x.data);
    }

    /** Blocks stay where they are; where there was none there may be a new one. */
    twostate predicate Kept()
      requires specific.Length == 32
      reads this, specific
    {
      forall i :: 0 <= i < 32 ==> specific[i] == old(specific[i]) || (old(specific[i]) == null && fresh(specific[i]))
    }

    /** `calloc` of a block. */
    method Allocate(idx: nat)
      requires Valid() && idx < L1_SIZE && specific[idx] == null
      modifies this`tsd, specific
      ensures Valid() && Kept() && specific[idx] != null && fresh(specific[idx])
      ensures tsd == old(tsd).(blocks := old(tsd).blocks[idx := Present(Zeros())])
    {
      var lp := new Slot[16](_ => Slot(0, 0));
      specific[idx] := lp;
      tsd := tsd.(blocks := tsd.blocks[idx := Present(Zeros())]);
      assert lp[..] == Zeros();
      forall i | 0 <= i < 32 && i != idx
        ensures BlockIs(specific[i], tsd.blocks[i])
      {
        assert old(BlockIs(specific[i], tsd.blocks[i]));
      }
    }

    /** `pthread_setspecific`. */
    method Setspecific(k: nat, v: nat, mem: bool) returns (a: Answer)
      requires Valid()
      modifies this`used, this`tsd, specific, specific[..]
      ensures Valid() && Kept()
      ensures Result(Table(), tsd, a) == SetSpecific(old(Table()), old(tsd), k, v, mem)
    {
      if k >= KEYS_MAX || Unused(keys[k]) {
        return Done(EINVAL);
      }
      assert BlockIs(specific[k / 16], tsd.blocks[k / 16]);
      if specific[k / 16] == null {
        if v == 0 {
          return Done(OK);
        }
        if !mem {
          return Done(ENOMEM);
        }
        Allocate(k / 16);
      }
      Store(k, Slot(keys[k].gen, v));
      if v != 0 {
        used := true;
        tsd := tsd.(used := true);
      }
      return Done(OK);
    }

    /** Any of the calls. */
    method Do(c: Call) returns (a: Answer)
      requires Valid()
      modifies this`used, this`tsd, keys, specific, specific[..]
      ensures Valid() && Kept()
      ensures Result(Table(), tsd, a) == Specific.Do(old(Table()), old(tsd), c)
    {
      match c {
        case Create(destr, fails) => a := KeyCreate(destr, fails);
        case Delete(k) => a := KeyDelete(k);
        case Get(k) => a := Getspecific(k);
        case Set(k, v, mem) => a := Setspecific(k, v, mem);
      }
    }

    /** What a destructor does. */
    method Destructor(calls: seq<Call>)
      requires Valid()
      modifies this`used, this`tsd, keys, specific, specific[..]
      ensures Valid() && Kept()
      ensures var r := Calls(old(Table()), old(tsd), calls); Table() == r.keys && tsd == r.tsd
    {
      var n := 0;
      while n < |calls|
        invariant n <= |calls| && Valid() && Kept()
        invariant Calls(Table(), tsd, calls[n..]) == Calls(old(Table()), old(tsd), calls)
      {
        assert calls[n..][1..] == calls[n + 1..];
        var a := Do(calls[n]);
        n := n + 1;
      }
    }

    ghost function Now(rest: seq<seq<Call>>, log: seq<Ran>): Env
      requires keys.Length == KEYS_MAX
      reads this, keys
    {
      Env(Table(), tsd, rest, log)
    }

    /** One slot of the teardown. `log` is the history of the destructors run. */
    method VisitSlot(b: nat, inner: nat, q: nat, ghost skipped: nat, beyond: seq<Key>, script: seq<seq<Call>>,
                     ghost log: seq<Ran>)
      returns (rest: seq<seq<Call>>, ghost log': seq<Ran>)
      requires Valid() && b < L1_SIZE && inner < L2_SIZE && specific[b] != null
      modifies this`used, this`tsd, keys, specific, specific[..]
      ensures Valid() && Kept()
      ensures Now(rest, log') == Visit(old(Now(script, log)), 16 * b + inner, q, skipped, beyond)
    {
      rest, log' := script, log;
      ghost var k := 16 * b + inner;
      assert k / 16 == b && k % 16 == inner;
      assert BlockIs(specific[b], tsd.blocks[b]);
      var x := specific[b][inner];
      assert x == SlotOf(tsd, k);
      if x.data != 0 {
        Store(16 * b + inner, Slot(x.gen, 0));
        var key := KeyAt(Table(), beyond, q);
        if x.gen == key.gen && key.destr != 0 {
          log' := log + [Ran(k, q, skipped, x.data, x.gen, keys[k], key.destr)];
          if script == [] {
            Destructor([]);
          } else {
            Destructor(script[0]);
            rest := script[1..];
          }
        }
      }
    }

    /** The inner loop of the teardown. */
    method WalkBlock(b: nat, start: nat, ghost skipped: nat, beyond: seq<Key>, script: seq<seq<Call>>,
                     ghost log: seq<Ran>)
      returns (q: nat, rest: seq<seq<Call>>, ghost log': seq<Ran>)
      requires Valid() && b < L1_SIZE && specific[b] != null
      modifies this`used, this`tsd, keys, specific, specific[..]
      ensures Valid() && Kept() && q == start + L2_SIZE
      ensures Now(rest, log') == Walk(old(Now(script, log)), b, 0, start, skipped, beyond)
    {
      rest, log', q := script, log, start;
      var inner := 0;
      while inner < L2_SIZE
        invariant inner <= L2_SIZE && q == start + inner && Valid() && Kept()
        invariant Walk(Now(rest, log'), b, inner, q, skipped, beyond) ==
                  Walk(old(Now(script, log)), b, 0, start, skipped, beyond)
      {
        rest, log' := VisitSlot(b, inner, q, skipped, beyond, rest, log');
        inner, q := inner + 1, q + 1;
      }
    }

    /** One pass of the teardown. */
    method PassOver(beyond: seq<Key>, script: seq<seq<Call>>, ghost log: seq<Ran>)
      returns (rest: seq<seq<Call>>, ghost log': seq<Ran>)
      requires Valid()
      modifies this`used, this`tsd, keys, specific, specific[..]
      ensures Valid() && Kept()
      ensures Now(rest, log') == OnePass(old(Now(script, log)), beyond)
    {
      rest, log' := script, log;
      used := false;
      tsd := tsd.(used := false);
      ghost var e: Env, skipped: nat := Now(script, log), 0;
      var q: nat, cnt: nat := 0, 0;
      while cnt < L1_SIZE
        invariant cnt <= L1_SIZE && Valid() && Kept()
        invariant Pass(Now(rest, log'), cnt, q, skipped, beyond) == Pass(e, 0, 0, 0, beyond)
      {
        assert BlockIs(specific[cnt], tsd.blocks[cnt]);
        if specific[cnt] == null {
          q, skipped := q + L1_SIZE, skipped + 1;
        } else {
          q, rest, log' := WalkBlock(cnt, q, skipped, beyond, rest, log');
        }
        cnt := cnt + 1;
      }
    }

    /** The end of the teardown: the first block is zeroed, the others are given back. */
    method Clear()
      requires Valid()
      modifies this`used, this`tsd, specific, specific[0]
      ensures Valid() && tsd == Fresh()
    {
      var blk1, i := specific[0], 0;
      while i < L2_SIZE
        invariant i <= L2_SIZE && forall j :: 0 <= j < i ==> blk1[j] == Slot(0, 0)
        modifies blk1
      {
        blk1[i] := Slot(0, 0);
        i := i + 1;
      }
      var cnt := 1;
      while cnt < L1_SIZE
        invariant 1 <= cnt <= L1_SIZE && specific[0] == blk1 && forall j :: 1 <= j < cnt ==> specific[j] == null
        modifies specific
      {
        specific[cnt] := null;
        cnt := cnt + 1;
      }
      used := false;
      tsd := Fresh();
      assert blk1[..] == Zeros();
    }

    /** `__pthread_dealloc_tsd`. */
    method DeallocTsd(beyond: seq<Key>, script: seq<seq<Call>>)
      returns (rest: seq<seq<Call>>, ghost log: seq<Ran>)
      requires Valid()
      modifies this`used, this`tsd, keys, specific, specific[..]
      ensures Valid() && Now(rest, log) == Dealloc(old(Now(script, [])), beyond)
    {
      rest, log := script, [];
      if !used {
        return;
      }
      ghost var e := Now(script, []);
      var iters, more := 0, true;
      while more
        invariant iters + (if more then 1 else 0) <= ITERATIONS && Valid() && Kept()
        invariant if more then Passes(Now(rest, log), iters, beyond).env == Passes(e, 0, beyond).env
                  else Now(rest, log) == Passes(e, 0, beyond).env
        decreases ITERATIONS - iters
      {
        rest, log := PassOver(beyond, rest, log);
        iters := iters + 1;
        more := used && iters < ITERATIONS;
      }
      Clear();
    }
  }
}
