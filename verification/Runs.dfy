/** Runs of a step machine.  A machine is a partial function from a state and an action to the next state; a
    run is a finite sequence of actions, and interleaving is the freedom to pick any possible action next. */
module Runs {
  import opened Basics

  /** The state after a run, or None when some action was not possible. */
  function Exec<S, A>(step: (S, A) -> Option<S>, s: S, run: seq<A>): Option<S>
    decreases |run|
  {
    if run == [] then Some(s)
    else
      match step(s, run[0])
      case None => None
      case Some(next) => Exec(step, next, run[1..])
  }

  /** Some run takes the machine from `s` to `t`. */
  ghost predicate Leads<S, A(!new)>(step: (S, A) -> Option<S>, s: S, t: S) {
    exists run :: Exec(step, s, run) == Some(t)
  }

  /** An invariant of every step is an invariant of every run. */
  lemma {:induction false} InvariantOverRun<S(!new), A(!new)>(
      step: (S, A) -> Option<S>, inv: S -> bool, s: S, run: seq<A>)
    requires forall x, a :: inv(x) && step(x, a).Some? ==> inv(step(x, a).value)
    requires inv(s) && Exec(step, s, run).Some?
    ensures inv(Exec(step, s, run).value)
    decreases |run|
  {
    if run != [] {
      InvariantOverRun(step, inv, step(s, run[0]).value, run[1..]);
    }
  }

  /** An observer that moves whenever the machine it watches moves has seen every run of it. */
  lemma {:induction false} ObserverFollows<S, W(!new), A(!new)>(
      step: (S, A) -> Option<S>, watch: (W, A) -> Option<W>, state: W -> S, w: W, run: seq<A>)
    requires forall x, a :: step(state(x), a).Some? ==>
                              watch(x, a).Some? && state(watch(x, a).value) == step(state(x), a).value
    requires Exec(step, state(w), run).Some?
    ensures Exec(watch, w, run).Some? && state(Exec(watch, w, run).value) == Exec(step, state(w), run).value
    decreases |run|
  {
    if run != [] {
      ObserverFollows(step, watch, state, watch(w, run[0]).value, run[1..]);
    }
  }

  lemma {:induction false} ExecAppend<S, A>(step: (S, A) -> Option<S>, s: S, run: seq<A>, rest: seq<A>)
    requires Exec(step, s, run).Some?
    ensures Exec(step, s, run + rest) == Exec(step, Exec(step, s, run).value, rest)
    decreases |run|
  {
    if run == [] {
      assert run + rest == rest;
    } else {
      assert (run + rest)[1..] == run[1..] + rest;
      ExecAppend(step, step(s, run[0]).value, run[1..], rest);
    }
  }

  lemma {:induction false} ExecSplit<S, A>(step: (S, A) -> Option<S>, s: S, front: seq<A>, last: A)
    requires Exec(step, s, front + [last]).Some?
    ensures Exec(step, s, front).Some?
    ensures step(Exec(step, s, front).value, last) == Exec(step, s, front + [last])
    decreases |front|
  {
    if front == [] {
      assert front + [last] == [last];
      assert Exec(step, s, [last]) == step(s, last);
    } else {
      assert (front + [last])[1..] == front[1..] + [last];
      ExecSplit(step, step(s, front[0]).value, front[1..], last);
    }
  }

  lemma LeadsToItself<S, A(!new)>(step: (S, A) -> Option<S>, s: S)
    ensures Leads(step, s, s)
  {
    assert Exec(step, s, []) == Some(s);
  }

  lemma LeadsOn<S, A(!new)>(step: (S, A) -> Option<S>, s: S, t: S, a: A)
    requires Leads(step, s, t) && step(t, a).Some?
    ensures Leads(step, s, step(t, a).value)
  {
    var run :| Exec(step, s, run) == Some(t);
    ExecAppend(step, s, run, [a]);
    assert Exec(step, t, [a]) == Exec(step, step(t, a).value, []);
    assert Exec(step, s, run + [a]) == Some(step(t, a).value);
  }
}
