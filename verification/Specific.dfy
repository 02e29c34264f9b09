/**
 Thread-specific data (pthread/specific.c): the global table of keys, each thread's two-level table of values, and the
 teardown of the latter. Sequence numbers are unbounded. A null pointer is 0, a destructor or a value any other number.
 */
module Specific {
  import opened Runs
  import opened Threads

  const KEYS_MAX: nat := 512
  const L2_SIZE: nat := 16
  const L1_SIZE: nat := 32
  const ITERATIONS: nat := 4

  datatype Key = Key(gen: nat, destr: nat)

  datatype Slot = Slot(gen: nat, data: nat)

  type Table = s: seq<Key> | |s| == 512 witness seq(512, _ => Key(0, 0))

  type Row = s: seq<Slot> | |s| == 16 witness seq(16, _ => Slot(0, 0))

  datatype Block = Absent | Present(row: Row)

  type Blocks = s: seq<Block> | |s| == 32 witness seq(32, _ => Absent)

  datatype Tsd = Tsd(blocks: Blocks, used: bool)

  function Zeros(): Row { seq(16, _ => Slot(0, 0)) }

  /** A new thread's: only the block inside the descriptor. */
  function Fresh(): Tsd { Tsd([Present(Zeros())] + seq(31, _ => Absent), false) }

  /** Keys are created and deleted in turns: unused ones have even numbers. */
  predicate Unused(k: Key) { k.gen % 2 == 0 }

  function SlotOf(t: Tsd, k: nat): Slot
    requires k < KEYS_MAX
  {
    match t.blocks[k / 16]
    case Absent => Slot(0, 0)
    case Present(row) => row[k % 16]
  }

  function RowOf(b: Block): Row {
    match b
    case Absent => Zeros()
    case Present(row) => row
  }

  /** Stores into a slot, in a new block of zeros if there was none. */
  function Put(t: Tsd, k: nat, x: Slot): Tsd
    requires k < KEYS_MAX
  {
    t.(blocks := t.blocks[k / 16 := Present(RowOf(t.blocks[k / 16])[k % 16 := x])])
  }

  /** `fails` are the keys whose compare-and-swap fails for no reason; `mem` says whether there is memory. */
  datatype Call = Create(destr: nat, fails: set<nat>) | Delete(k: nat) | Get(k: nat) | Set(k: nat, v: nat, mem: bool)

  datatype Code = OK | EINVAL | EAGAIN | ENOMEM

  datatype Answer = Made(k: nat) | Value(v: nat) | Done(c: Code)

  datatype Result = Result(keys: Table, tsd: Tsd, answer: Answer)

  /** Where the search of `pthread_key_create` from key `i` ends. */
  function Search(keys: Table, i: nat, fails: set<nat>): (k: nat)
    requires i <= KEYS_MAX
    ensures i <= k <= KEYS_MAX
    ensures k < KEYS_MAX ==> Unused(keys[k]) && k !in fails
    ensures forall j :: i <= j < k ==> !Unused(keys[j]) || j in fails
    decreases KEYS_MAX - i, keys
  {
    if i == KEYS_MAX || (Unused(keys[i]) && i !in fails) then i else Search(keys, i + 1, fails)
  }

  function CreateKey(keys: Table, t: Tsd, destr: nat, fails: set<nat>): Result {
    var k := Search(keys, 0, fails);
    if k == KEYS_MAX then Result(keys, t, Done(EAGAIN))
    else Result(keys[k := Key(keys[k].gen + 1, destr)], t, Made(k))
  }

  function DeleteKey(keys: Table, t: Tsd, k: nat): Result {
    if k >= KEYS_MAX || Unused(keys[k]) then Result(keys, t, Done(EINVAL))
    else Result(keys[k := keys[k].(gen := keys[k].gen + 1)], t, Done(OK))
  }

  /** A stale value is cleared as it is found. */
  function GetSpecific(keys: Table, t: Tsd, k: nat): Result {
    if k >= KEYS_MAX || t.blocks[k / 16].Absent? then Result(keys, t, Value(0))
    else
      var x := SlotOf(t, k);
      if x.data != 0 && x.gen != keys[k].gen then Result(keys, Put(t, k, x.(data := 0)), Value(0))
      else Result(keys, t, Value(x.data))
  }

  function SetSpecific(keys: Table, t: Tsd, k: nat, v: nat, mem: bool): Result {
    if k >= KEYS_MAX || Unused(keys[k]) then Result(keys, t, Done(EINVAL))
    else if t.blocks[k / 16].Absent? && v == 0 then Result(keys, t, Done(OK))
    else if t.blocks[k / 16].Absent? && !mem then Result(keys, t, Done(ENOMEM))
    else Result(keys, Put(t, k, Slot(keys[k].gen, v)).(used := t.used || v != 0), Done(OK))
  }

  /** One whole call of a thread. */
  function Do(keys: Table, t: Tsd, c: Call): Result {
    match c
    case Create(destr, fails) => CreateKey(keys, t, destr, fails)
    case Delete(k) => DeleteKey(keys, t, k)
    case Get(k) => GetSpecific(keys, t, k)
    case Set(k, v, mem) => SetSpecific(keys, t, k, v, mem)
  }

  datatype State = State(keys: Table, threads: map<Tid, Tsd>)

  /** A call that was made, and its answer. */
  datatype Entry = Entry(t: Tid, c: Call, a: Answer)

  function After(s: State, t: Tid, c: Call): State
    requires t in s.threads
  {
    var r := Do(s.keys, s.threads[t], c);
    State(r.keys, s.threads[t := r.tsd])
  }

  /** A call with the answer it says. */
  function Attempt(s: State, e: Entry): Option<State> {
    if e.t in s.threads && Do(s.keys, s.threads[e.t], e.c).answer == e.a then Some(After(s, e.t, e.c)) else None
  }

  /** The calls in `trace`, the oldest first, lead from `s` to `s'` with the answers it says. */
  ghost predicate Run(s: State, trace: seq<Entry>, s': State) { Leads(Attempt, s, trace, s') }

  predicate Initial(s: State) {
    && (forall k :: 0 <= k < 512 ==> s.keys[k] == Key(0, 0))
    && (forall t :: t in s.threads ==> s.threads[t] == Fresh())
  }

  // What the calls should mean, by their history alone.

  predicate Creates(e: Entry, k: nat) { e.c.Create? && e.a == Made(k) }
  predicate Deletes(e: Entry, k: nat) { e.c.Delete? && e.c.k == k && e.a == Done(OK) }
  predicate Sets(e: Entry, t: Tid, k: nat) { e.t == t && e.c.Set? && e.c.k == k && e.a == Done(OK) }

  /** The destructor of the last creation of key `k`, if it was not deleted since. */
  function Registered(trace: seq<Entry>, k: nat): (destr: int)
    ensures destr >= -1
  {
    if trace == [] then -1
    else
      var e := trace[|trace| - 1];
      if Creates(e, k) then e.c.destr else if Deletes(e, k) then -1 else Registered(trace[..|trace| - 1], k)
  }

  predicate Exists(trace: seq<Entry>, k: nat) { Registered(trace, k) >= 0 }

  /** What thread `t` last set for key `k` since the key was created; null if nothing. */
  function LastSet(trace: seq<Entry>, t: Tid, k: nat): nat {
    if trace == [] then 0
    else
      var e := trace[|trace| - 1];
      if Creates(e, k) || Deletes(e, k) then 0
      else if Sets(e, t, k) then e.c.v
      else LastSet(trace[..|trace| - 1], t, k)
  }

  // Teardown.

  /** A destructor that was run: the slot's key, the index the code used for the table, how many absent blocks its walk
      had passed, the value and its sequence number, the entry of the slot's own key then, and the function called. */
  datatype Ran = Ran(key: nat, q: nat, skipped: nat, value: nat, gen: nat, own: Key, destr: nat)

  /** `script` says which calls the destructors make, one after the other. */
  datatype Env = Env(keys: Table, tsd: Tsd, script: seq<seq<Call>>, log: seq<Ran>)

  function Calls(keys: Table, t: Tsd, calls: seq<Call>): Result
    decreases |calls|
  {
    if calls == [] then Result(keys, t, Done(OK))
    else
      var r := Do(keys, t, calls[0]);
      Calls(r.keys, r.tsd, calls[1..])
  }

  /** Entry `q` of the table; past its end, whatever memory holds there. */
  function KeyAt(keys: Table, beyond: seq<Key>, q: nat): Key {
    if q < KEYS_MAX then keys[q] else if q - KEYS_MAX < |beyond| then beyond[q - KEYS_MAX] else Key(0, 0)
  }

  function Destroy(e: Env, r: Ran): Env {
    var after := Calls(e.keys, e.tsd, if e.script == [] then [] else e.script[0]);
    Env(after.keys, after.tsd, if e.script == [] then [] else e.script[1..], e.log + [r])
  }

  /** One slot of the walk. */
  function Visit(e: Env, k: nat, q: nat, skipped: nat, beyond: seq<Key>): Env
    requires k < KEYS_MAX
  {
    var x := SlotOf(e.tsd, k);
    if x.data == 0 then e
    else
      var cleared := e.(tsd := Put(e.tsd, k, x.(data := 0)));
      var key := KeyAt(e.keys, beyond, q);
      if x.gen == key.gen && key.destr != 0 then
        Destroy(cleared, Ran(k, q, skipped, x.data, x.gen, e.keys[k], key.destr))
      else cleared
  }

  /** The rest of a block, from slot `i`. */
  function Walk(e: Env, b: nat, i: nat, q: nat, skipped: nat, beyond: seq<Key>): Env
    requires b < L1_SIZE && i <= L2_SIZE
    decreases L2_SIZE - i, e
  {
    if i == L2_SIZE then e
    else Walk(Visit(e, 16 * b + i, q, skipped, beyond), b, i + 1, q + 1, skipped, beyond)
  }

  /** The rest of a pass, from block `b`. An absent block moves `q` by L1_SIZE, as the code does. */
  function Pass(e: Env, b: nat, q: nat, skipped: nat, beyond: seq<Key>): Env
    requires b <= L1_SIZE
    decreases L1_SIZE - b, e
  {
    if b == L1_SIZE then e
    else if e.tsd.blocks[b].Absent? then Pass(e, b + 1, q + L1_SIZE, skipped + 1, beyond)
    else Pass(Walk(e, b, 0, q, skipped, beyond), b + 1, q + L2_SIZE, skipped, beyond)
  }

  datatype Outcome = Outcome(env: Env, passes: nat)

  function OnePass(e: Env, beyond: seq<Key>): Env { Pass(e.(tsd := e.tsd.(used := false)), 0, 0, 0, beyond) }

  /** The passes after the first `done`, until one leaves the flag clear or there were enough. */
  function Passes(e: Env, done: nat, beyond: seq<Key>): Outcome
    requires done < ITERATIONS
    decreases ITERATIONS - done, e
  {
    var e' := OnePass(e, beyond);
    if e'.tsd.used && done + 1 < ITERATIONS then Passes(e', done + 1, beyond) else Outcome(e', done + 1)
  }

  /** `__pthread_dealloc_tsd`. */
  function Dealloc(e: Env, beyond: seq<Key>): Env {
    if !e.tsd.used then e
    else Passes(e, 0, beyond).env.(tsd := Fresh())
  }

  // Invariants.

  /** A slot never runs ahead of its key, and holds a value only under the number of a creation. */
  predicate SlotOk(x: Slot, key: Key) { x.gen <= key.gen && (x.data != 0 ==> x.gen % 2 == 1) }

  ghost predicate Dated(keys: Table, t: Tsd) {
    forall k :: 0 <= k < 512 ==> SlotOk(SlotOf(t, k), keys[k])
  }

  /** Values, and blocks beside the first, are there only when the flag says so. */
  ghost predicate Flagged(t: Tsd) {
    && t.blocks[0].Present?
    && (!t.used ==>
          && (forall k :: 0 <= k < 512 ==> SlotOf(t, k).data == 0)
          && (forall b :: 1 <= b < 32 ==> t.blocks[b].Absent?))
  }

  /** The value that a slot stands for. */
  function Current(keys: Table, t: Tsd, k: nat): nat {
    if k < KEYS_MAX && SlotOf(t, k).gen == keys[k].gen then SlotOf(t, k).data else 0
  }
}
