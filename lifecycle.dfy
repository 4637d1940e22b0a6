/**
 * The lifecycle of one provider (core.go, `provider[T]`), as a state machine
 * on values. The fields `hasInstance`/`instance` and `hasMock`/`mock` of the
 * Go struct become `Option`s, so Go's zero value `*new(T)` becomes `None`.
 *
 * `Use` is split at the point where it calls the factory (core.go:41):
 * `BeginUse` is everything before the call, `CompleteUse` everything after
 * it. A factory that re-enters its own provider, mocks it or resets it is a
 * sequence of these steps (see `Op` and `Run`); a factory that does not is
 * `Use` below.
 */
module Lifecycle {

  datatype Option<T> = None | Some(value: T)

  /** The two panics of core.go: at line 36 and at line 59. */
  datatype Error = CircularDependency | AlreadyInitialized

  datatype Result<T> = Ok(value: T) | Err(error: Error)

  datatype Outcome = Pass | Fail(error: Error)

  /** The mutable part of `provider[T]` (core.go:9-13). */
  datatype State<T> = State(instance: Option<T>, mock: Option<T>, isPending: bool)

  /** The four phases of a provider; the order of the tests is the order of the branches of `Use`. */
  datatype Phase = Empty | Pending | Mocked | Instantiated

  function PhaseOf<T>(s: State<T>): Phase
  {
    if s.mock.Some? then Mocked
    else if s.isPending then Pending
    else if s.instance.Some? then Instantiated
    else Empty
  }

  /** A provider never computes while it already holds an instance. */
  predicate Consistent<T>(s: State<T>)
  {
    s.isPending ==> s.instance.None?
  }

  /** The state `Provider` builds (core.go:19-25). */
  function Initial<T>(): (s: State<T>)
    ensures PhaseOf(s) == Empty && Consistent(s)
  {
    State(None, None, false)
  }

  /** What `Use` does before calling the factory: return, fail, or go on to call it. */
  datatype Entry<T> = Return(result: Result<T>) | RunFactory

  datatype Begun<T> = Begun(state: State<T>, entry: Entry<T>)

  /** `Use` up to and including `p.isPending = true` (core.go:31-40). */
  function BeginUse<T>(s: State<T>): (b: Begun<T>)
    ensures b.entry.RunFactory? <==> PhaseOf(s) == Empty
    ensures b.entry == Return(Err(CircularDependency)) <==> PhaseOf(s) == Pending
    ensures PhaseOf(s) == Mocked ==> b.entry == Return(Ok(s.mock.value))
    ensures PhaseOf(s) == Instantiated ==> b.entry == Return(Ok(s.instance.value))
    ensures b.entry.Return? ==> b.state == s
    ensures b.entry.RunFactory? ==> b.state == s.(isPending := true) && PhaseOf(b.state) == Pending
  {
    if s.mock.Some? then Begun(s, Return(Ok(s.mock.value)))
    else if s.isPending then Begun(s, Return(Err(CircularDependency)))
    else if s.instance.None? then Begun(s.(isPending := true), RunFactory)
    else Begun(s, Return(Ok(s.instance.value)))
  }

  /** `Use` after the factory has returned `v` (core.go:41-46); the value returned is `v`. */
  function CompleteUse<T>(s: State<T>, v: T): (t: State<T>)
    ensures t.instance == Some(v) && !t.isPending && t.mock == s.mock
    ensures PhaseOf(t) == (if s.mock.Some? then Mocked else Instantiated)
  {
    s.(instance := Some(v), isPending := false)
  }

  /**
   * A whole `Use` with a factory that does not call back into this provider.
   * The factory is `f`, where `f(k)` is what it returns on its (k+1)-th call,
   * and `runs` is how many times it has been called so far.
   */
  datatype Used<T> = Used(state: State<T>, runs: nat, result: Result<T>)

  function Use<T>(s: State<T>, f: nat -> T, runs: nat): (u: Used<T>)
    ensures u.runs == runs + (if PhaseOf(s) == Empty then 1 else 0)
    ensures u.result.Err? <==> PhaseOf(s) == Pending
    ensures u.result.Err? ==> u.result.error == CircularDependency
    ensures PhaseOf(s) != Empty ==> u.state == s
    ensures PhaseOf(s) == Mocked ==> u.result == Ok(s.mock.value)
    ensures PhaseOf(s) == Instantiated ==> u.result == Ok(s.instance.value)
    ensures PhaseOf(s) == Empty ==>
              u.result == Ok(f(runs)) && u.state == s.(instance := Some(f(runs)))
              && PhaseOf(u.state) == Instantiated
  {
    var b := BeginUse(s);
    match b.entry
    case Return(r) => Used(b.state, runs, r)
    case RunFactory =>
      var v := f(runs);
      Used(CompleteUse(b.state, v), runs + 1, Ok(v))
  }

  /** `n` calls of `Use` in a row, with the result of each. */
  datatype Trace<T> = Trace(state: State<T>, runs: nat, results: seq<Result<T>>)

  function Uses<T>(s: State<T>, f: nat -> T, runs: nat, n: nat): (t: Trace<T>)
    ensures |t.results| == n
    decreases n
  {
    if n == 0 then Trace(s, runs, [])
    else
      var u := Use(s, f, runs);
      var rest := Uses(u.state, f, u.runs, n - 1);
      Trace(rest.state, rest.runs, [u.result] + rest.results)
  }

  /** `Mock` (core.go:57-64). */
  datatype Step<T> = Step(state: State<T>, outcome: Outcome)

  function Mock<T>(s: State<T>, v: T): (m: Step<T>)
    ensures m.outcome.Fail? <==> s.instance.Some?
    ensures m.outcome.Fail? ==> m.outcome.error == AlreadyInitialized && m.state == s
    ensures m.outcome.Pass? ==> m.state == s.(mock := Some(v)) && PhaseOf(m.state) == Mocked
  {
    if s.instance.Some? then Step(s, Fail(AlreadyInitialized))
    else Step(s.(mock := Some(v)), Pass)
  }

  /** `Mock` called with each of `vs` in turn. */
  function MockAll<T>(s: State<T>, vs: seq<T>): State<T>
    decreases vs
  {
    if vs == [] then s else MockAll(Mock(s, vs[0]).state, vs[1..])
  }

  /** `reset` (core.go:49-55): every field back to empty, whatever the state. */
  function Reset<T>(s: State<T>): (t: State<T>)
    ensures PhaseOf(t) == Empty && t.instance.None? && t.mock.None? && !t.isPending
  {
    Initial()
  }

  /**
   * One step a provider can take. A factory that calls back into its own
   * provider interleaves further steps between a `BeginOp` and the
   * `CompleteOp` of the same `Use`; a factory that panics never reaches its
   * `CompleteOp`.
   */
  datatype Op<T> = BeginOp | CompleteOp(value: T) | MockOp(value: T) | ResetOp

  function Apply<T>(s: State<T>, op: Op<T>): (t: State<T>)
    ensures Consistent(s) ==> Consistent(t)
  {
    match op
    case BeginOp => BeginUse(s).state
    case CompleteOp(v) => CompleteUse(s, v)
    case MockOp(v) => Mock(s, v).state
    case ResetOp => Reset(s)
  }

  function Run<T>(s: State<T>, ops: seq<Op<T>>): State<T>
    decreases ops
  {
    if ops == [] then s else Run(Apply(s, ops[0]), ops[1..])
  }

  // ---------------------------------------------------------------------------
  // Properties

  /** Memoisation: from a provider with neither mock nor pending call, `n >= 1`
      calls of `Use` run the factory at most once, exactly when there was no
      instance yet, and all return the same value. */
  lemma {:induction false} MemoisedUses<T>(s: State<T>, f: nat -> T, runs: nat, n: nat)
    requires PhaseOf(s) == Empty || PhaseOf(s) == Instantiated
    requires n >= 1
    ensures var t := Uses(s, f, runs, n);
            var v := if s.instance.Some? then s.instance.value else f(runs);
            && t.runs == runs + (if s.instance.None? then 1 else 0)
            && t.state == s.(instance := Some(v))
            && forall i :: 0 <= i < n ==> t.results[i] == Ok(v)
    decreases n
  {
    var u := Use(s, f, runs);
    if n > 1 {
      MemoisedUses(u.state, f, u.runs, n - 1);
    }
  }

  /** Mock priority: while a mock is set, every `Use` returns it, never runs the
      factory and changes nothing. */
  lemma {:induction false} MockedUses<T>(s: State<T>, f: nat -> T, runs: nat, n: nat)
    requires s.mock.Some?
    ensures var t := Uses(s, f, runs, n);
            && t.state == s && t.runs == runs
            && forall i :: 0 <= i < n ==> t.results[i] == Ok(s.mock.value)
    decreases n
  {
    if n > 0 {
      MockedUses(s, f, runs, n - 1);
    }
  }

  /** Cycle detection: while a factory call is pending (and no mock is set),
      every `Use` fails with `CircularDependency`, runs nothing and changes
      nothing, so a pending flag that is never cleared stays in force. */
  lemma {:induction false} CircularUses<T>(s: State<T>, f: nat -> T, runs: nat, n: nat)
    requires PhaseOf(s) == Pending
    ensures var t := Uses(s, f, runs, n);
            && t.state == s && t.runs == runs
            && forall i :: 0 <= i < n ==> t.results[i] == Err(CircularDependency)
    decreases n
  {
    if n > 0 {
      CircularUses(s, f, runs, n - 1);
    }
  }

  /** Reset restores laziness: whatever the state, after `reset` the next
      `Use` runs the factory once more, and later ones reuse that value. */
  lemma {:induction false} ResetRestoresLaziness<T>(s: State<T>, f: nat -> T, runs: nat, n: nat)
    requires n >= 1
    ensures var t := Uses(Reset(s), f, runs, n);
            && t.runs == runs + 1
            && t.state == Initial().(instance := Some(f(runs)))
            && forall i :: 0 <= i < n ==> t.results[i] == Ok(f(runs))
  {
    MemoisedUses(Reset(s), f, runs, n);
  }

  /** Once `Use` has produced an instance, `Mock` is refused and the instance kept. */
  lemma MockAfterUseRejected<T>(s: State<T>, f: nat -> T, runs: nat, v: T)
    requires PhaseOf(s) == Empty || PhaseOf(s) == Instantiated
    ensures var u := Use(s, f, runs);
            && u.state.instance.Some?
            && Mock(u.state, v) == Step(u.state, Fail(AlreadyInitialized))
  {
  }

  /** Mocking before instantiation may be repeated; the last value wins and
      nothing else changes. */
  lemma {:induction false} LastMockWins<T>(s: State<T>, vs: seq<T>)
    requires s.instance.None?
    requires |vs| > 0
    ensures MockAll(s, vs) == s.(mock := Some(vs[|vs| - 1]))
    decreases vs
  {
    if |vs| > 1 {
      LastMockWins(Mock(s, vs[0]).state, vs[1..]);
    }
  }

  /** Every interleaving of steps keeps a provider consistent. */
  lemma {:induction false} RunKeepsConsistent<T>(s: State<T>, ops: seq<Op<T>>)
    requires Consistent(s)
    ensures Consistent(Run(s, ops))
    decreases ops
  {
    if ops != [] {
      RunKeepsConsistent(Apply(s, ops[0]), ops[1..]);
    }
  }

  /** The pending flag is not released on a failure path: once a factory call
      has begun, only its own completion or `reset` clears `isPending`; further
      `Use` and `Mock` calls leave it set. */
  lemma {:induction false} PendingSticks<T>(s: State<T>, ops: seq<Op<T>>)
    requires s.isPending
    requires forall i :: 0 <= i < |ops| ==> ops[i].BeginOp? || ops[i].MockOp?
    ensures Run(s, ops).isPending && Run(s, ops).instance == s.instance
    decreases ops
  {
    if ops != [] {
      PendingSticks(Apply(s, ops[0]), ops[1..]);
    }
  }

  /** A factory that mocks its own provider and then returns leaves both a mock
      and an instance set; from then on `Use` returns the mock. */
  lemma MockDuringFactory<T>(a: T, b: T)
    ensures var s := Run(Initial(), [BeginOp, MockOp(a), CompleteOp(b)]);
            && s.instance == Some(b) && s.mock == Some(a)
            && BeginUse(s).entry == Return(Ok(a))
  {
    var s0: State<T> := Initial();
    var s1 := Apply(s0, BeginOp);
    var s2 := Apply(s1, MockOp(a));
    var s3 := Apply(s2, CompleteOp(b));
    assert Run(s2, [CompleteOp(b)]) == s3;
    assert Run(s1, [MockOp(a), CompleteOp(b)]) == s3 by {
      assert [MockOp(a), CompleteOp(b)][1..] == [CompleteOp(b)];
    }
    assert Run(s0, [BeginOp, MockOp(a), CompleteOp(b)]) == s3 by {
      assert [BeginOp, MockOp(a), CompleteOp(b)][1..] == [MockOp(a), CompleteOp(b)];
    }
  }
}
