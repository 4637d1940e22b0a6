/**
 * The objects of package dc (core.go): the factory a provider owns, the
 * provider itself, whose methods update its fields in place, and the
 * registry of every provider created, which `Reset` walks.
 */
module Dc {
  import Lifecycle

  /**
   * The factory closure `createDependency func() T` (core.go:8). A Go
   * closure may keep state of its own, such as a call counter; here that
   * state is `runs`, the number of completed calls, and `produce(k)` is the
   * value the (k+1)-th call returns.
   */
  class Factory<T> {
    const produce: nat -> T
    var runs: nat

    constructor (produce: nat -> T)
      ensures this.produce == produce && runs == 0
    {
      this.produce := produce;
      runs := 0;
    }

    method Call() returns (v: T)
      modifies this
      ensures v == produce(old(runs)) && runs == old(runs) + 1
    {
      v := produce(runs);
      runs := runs + 1;
    }
  }

  /**
   * `provider[T]` (core.go:7-14). `hasInstance` is `instance.Some?` and
   * `hasMock` is `mock.Some?`; every method is tied to the matching step of
   * the `Lifecycle` state machine, where its properties are proved.
   */
  class Provider<T> {
    const createDependency: Factory<T>
    var instance: Lifecycle.Option<T>
    var mock: Lifecycle.Option<T>
    var isPending: bool

    function State(): Lifecycle.State<T>
      reads this
    {
      Lifecycle.State(instance, mock, isPending)
    }

    /** The struct literal of core.go:19-25. Registration is `Registry.Provider`. */
    constructor (createDependency: Factory<T>)
      ensures this.createDependency == createDependency
      ensures State() == Lifecycle.Initial()
    {
      this.createDependency := createDependency;
      instance := Lifecycle.None;
      mock := Lifecycle.None;
      isPending := false;
    }

    /** `Use` up to the factory call (core.go:31-40). */
    method BeginUse() returns (e: Lifecycle.Entry<T>)
      modifies this`isPending
      ensures Lifecycle.Begun(State(), e) == Lifecycle.BeginUse(old(State()))
    {
      if mock.Some? {
        return Lifecycle.Return(Lifecycle.Ok(mock.value));
      }
      if isPending {
        return Lifecycle.Return(Lifecycle.Err(Lifecycle.CircularDependency));
      }
      if instance.None? {
        isPending := true;
        return Lifecycle.RunFactory;
      }
      e := Lifecycle.Return(Lifecycle.Ok(instance.value));
    }

    /** `Use` once the factory has returned `v` (core.go:41-46). */
    method CompleteUse(v: T) returns (r: T)
      modifies this`instance, this`isPending
      ensures State() == Lifecycle.CompleteUse(old(State()), v)
      ensures r == v
    {
      instance := Lifecycle.Some(v);
      isPending := false;
      r := instance.value;
    }

    /** `Use` (core.go:30-47) with a factory that does not call back into this provider. */
    method Use() returns (r: Lifecycle.Result<T>)
      modifies this, createDependency
      ensures Lifecycle.Used(State(), createDependency.runs, r)
              == Lifecycle.Use(old(State()), createDependency.produce, old(createDependency.runs))
    {
      var e := BeginUse();
      match e
      case Return(result) =>
        r := result;
      case RunFactory =>
        var v := createDependency.Call();
        var w := CompleteUse(v);
        r := Lifecycle.Ok(w);
    }

    /** `Mock` (core.go:57-64). */
    method Mock(mockObject: T) returns (o: Lifecycle.Outcome)
      modifies this`mock
      ensures Lifecycle.Step(State(), o) == Lifecycle.Mock(old(State()), mockObject)
    {
      if instance.Some? {
        return Lifecycle.Fail(Lifecycle.AlreadyInitialized);
      }
      mock := Lifecycle.Some(mockObject);
      o := Lifecycle.Pass;
    }

    /** `reset` (core.go:49-55). */
    method Reset()
      modifies this`instance, this`mock, this`isPending
      ensures State() == Lifecycle.Reset(old(State()))
    {
      mock := Lifecycle.None;
      instance := Lifecycle.None;
      isPending := false;
    }
  }

  /**
   * The registry `providers` (core.go:16), as an object rather than a
   * package variable, so that each client can start from an empty one.
   */
  class Registry<T> {
    var providers: seq<Provider<T>>

    constructor ()
      ensures providers == []
    {
      providers := [];
    }

    /** `Provider` (core.go:18-28): a new empty provider, appended to the registry. */
    method Provider(createDependency: Factory<T>) returns (p: Provider<T>)
      modifies this
      ensures fresh(p) && p.createDependency == createDependency
      ensures p.State() == Lifecycle.Initial()
      ensures providers == old(providers) + [p]
    {
      p := new Provider(createDependency);
      providers := providers + [p];
    }

    /** `Reset` (core.go:66-70): `reset` on every registered provider, in registration order. */
    method Reset()
      modifies set p | p in providers
      ensures providers == old(providers)
      ensures forall p :: p in providers ==> p.State() == Lifecycle.Initial()
    {
      for i := 0 to |providers|
        invariant forall j :: 0 <= j < i ==> providers[j].State() == Lifecycle.Initial()
      {
        providers[i].Reset();
      }
    }
  }
}
