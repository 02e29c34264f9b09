/** Runs of any machine, given by a step function that says when a step is not possible. */
module Runs {
  datatype Option<T> = None | Some(value: T)

  /** `es` leads from `s` to `s'`. */
  ghost predicate Leads<S, E>(step: (S, E) -> Option<S>, s: S, es: seq<E>, s': S)
    decreases |es|
  {
    if es == [] then s == s' else step(s, es[0]).Some? && Leads(step, step(s, es[0]).value, es[1..], s')
  }

  /** One step more. */
  lemma {:induction false} Extend<S, E>(step: (S, E) -> Option<S>, s: S, es: seq<E>, m: S, e: E)
    requires Leads(step, s, es, m) && step(m, e).Some?
    ensures Leads(step, s, es + [e], step(m, e).value)
    decreases |es|
  {
    if es == [] {
      assert Leads(step, step(m, e).value, [], step(m, e).value);
    } else {
      Extend(step, step(s, es[0]).value, es[1..], m, e);
      assert (es + [e])[1..] == es[1..] + [e];
    }
  }

  /** What every step keeps, every run keeps. */
  lemma {:induction false} Keeps<S(!new), E(!new)>(step: (S, E) -> Option<S>, inv: S -> bool, s: S, es: seq<E>, s': S)
    requires Leads(step, s, es, s') && inv(s)
    requires forall x, e :: inv(x) && step(x, e).Some? ==> inv(step(x, e).value)
    ensures inv(s')
    decreases |es|
  {
    if es != [] { Keeps(step, inv, step(s, es[0]).value, es[1..], s'); }
  }

  /** Some run leads from `s` to `s'`. */
  ghost predicate Reaches<S, E(!new)>(step: (S, E) -> Option<S>, s: S, s': S) {
    exists es: seq<E> :: Leads(step, s, es, s')
  }

  lemma Stays<S, E(!new)>(step: (S, E) -> Option<S>, s: S)
    ensures Reaches(step, s, s)
  {
    assert Leads(step, s, [], s);
  }

  lemma ReachesOn<S, E(!new)>(step: (S, E) -> Option<S>, s: S, m: S, e: E)
    requires Reaches(step, s, m) && step(m, e).Some?
    ensures Reaches(step, s, step(m, e).value)
  {
    var es :| Leads(step, s, es, m);
    Extend(step, s, es, m, e);
  }

  lemma {:induction false} Join<S, E>(step: (S, E) -> Option<S>, s: S, es: seq<E>, m: S, fs: seq<E>, s': S)
    requires Leads(step, s, es, m) && Leads(step, m, fs, s')
    ensures Leads(step, s, es + fs, s')
    decreases |es|
  {
    if es == [] {
      assert es + fs == fs;
    } else {
      assert (es + fs)[0] == es[0] && (es + fs)[1..] == es[1..] + fs;
      Join(step, step(s, es[0]).value, es[1..], m, fs, s');
    }
  }

  function One<C>(x: Option<C>): seq<C> { if x.Some? then [x.value] else [] }

  /** What `note` says of the steps of a run, in order. */
  function Collect<S, E, C>(step: (S, E) -> Option<S>, note: (S, E) -> Option<C>, s: S, es: seq<E>): seq<C>
    decreases |es|
  {
    if es == [] then []
    else One(note(s, es[0])) + if step(s, es[0]).Some? then Collect(step, note, step(s, es[0]).value, es[1..]) else []
  }

  /** What every step keeps true of the notes taken so far, every run does. */
  lemma {:induction false} Gathers<S(!new), E(!new), C(!new)>(step: (S, E) -> Option<S>, note: (S, E) -> Option<C>,
      fits: (S, seq<C>) -> bool, s: S, es: seq<E>, s': S, h: seq<C>)
    requires Leads(step, s, es, s') && fits(s, h)
    requires forall x, e, g :: fits(x, g) && step(x, e).Some? ==> fits(step(x, e).value, g + One(note(x, e)))
    ensures fits(s', h + Collect(step, note, s, es))
    decreases |es|
  {
    if es == [] {
      assert h + [] == h;
    } else {
      var n, m := One(note(s, es[0])), step(s, es[0]).value;
      var rest := Collect(step, note, m, es[1..]);
      assert fits(m, h + n);
      Gathers(step, note, fits, m, es[1..], s', h + n);
      assert h + Collect(step, note, s, es) == h + n + rest by {
        assert Collect(step, note, s, es) == n + rest;
        assert h + (n + rest) == h + n + rest;
      }
    }
  }

  /** A machine that is driven by `go`, and whose rank falls with every step, gets done. */
  lemma {:induction false} Winds<S(!new), E>(step: (S, E) -> Option<S>, go: S -> E, ok: E -> bool, inv: S -> bool,
      done: S -> bool, rank: S -> nat, s: S) returns (es: seq<E>, s': S)
    requires inv(s)
    requires forall x :: inv(x) && !done(x) ==>
      ok(go(x)) && step(x, go(x)).Some? && inv(step(x, go(x)).value) && rank(step(x, go(x)).value) < rank(x)
    ensures Leads(step, s, es, s') && inv(s') && done(s') && |es| <= rank(s) && forall e :: e in es ==> ok(e)
    decreases rank(s)
  {
    if done(s) {
      es, s' := [], s;
    } else {
      var m := step(s, go(s)).value;
      var rest;
      rest, s' := Winds(step, go, ok, inv, done, rank, m);
      es := [go(s)] + rest;
      assert es[1..] == rest;
    }
  }
}
