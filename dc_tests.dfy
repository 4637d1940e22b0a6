/**
 * The scenarios of core_test.go, plus one scenario for `Mock` (core.go:57-64),
 * as clients of the `Dc` objects. Each method runs one scenario on a registry
 * of its own. Its postcondition states what the test checks, and in places
 * more than that.
 */
module DcTests {
  import Lifecycle
  import Dc

  /** A factory whose value does not depend on the call count. */
  function Constant<T>(v: T): nat -> T
  {
    _ => v
  }

  /** The factory that bumps a counter and returns it: its (k+1)-th call returns k + 1. */
  function Counter(k: nat): nat
  {
    k + 1
  }

  /** "should create instance using factory function" (core_test.go:19-28). */
  method CreatesInstanceWithFactory() returns (r: Lifecycle.Result<string>)
    ensures r == Lifecycle.Ok("test")
  {
    var registry := new Dc.Registry<string>();
    var factory := new Dc.Factory(Constant("test"));
    var descriptor := registry.Provider(factory);
    r := descriptor.Use();
  }

  /** "should return mock instance when set" (core_test.go:61-71): the factory never runs. */
  method ReturnsMockWhenSet() returns (r: Lifecycle.Result<string>, calls: nat)
    ensures r == Lifecycle.Ok("mocked") && calls == 0
  {
    var registry := new Dc.Registry<string>();
    var factory := new Dc.Factory(Constant("original"));
    var descriptor := registry.Provider(factory);
    var _ := descriptor.Mock("mocked");
    r := descriptor.Use();
    calls := factory.runs;
  }

  /** "should create instance only once" (core_test.go:73-88). */
  method CreatesInstanceOnlyOnce() returns (calls: nat)
    ensures calls == 1
  {
    var registry := new Dc.Registry<string>();
    var factory := new Dc.Factory(Constant("test"));
    var descriptor := registry.Provider(factory);
    var _ := descriptor.Use();
    var _ := descriptor.Use();
    var _ := descriptor.Use();
    calls := factory.runs;
  }

  /**
   * "should panic on circular dependency" (core_test.go:90-107). The outer
   * `Use` begins and reaches its factory, whose body calls `Use` on the same
   * provider: that inner call fails, which is the panic the test expects.
   * Beyond the test: the failure unwinds the outer `Use` before it completes,
   * so the provider stays pending and a later `Use` fails too. After the
   * registry is reset the provider is no longer stuck: the next `Use` reaches
   * the factory again, and the factory's nested `Use` fails again. The
   * factory's own value is never produced, since every run of it re-enters.
   */
  method PanicsOnCircularDependency()
    returns (outer: Lifecycle.Entry<string>, inner: Lifecycle.Result<string>,
             later: Lifecycle.Result<string>,
             outerAfterReset: Lifecycle.Entry<string>, innerAfterReset: Lifecycle.Result<string>,
             calls: nat)
    ensures outer == Lifecycle.RunFactory
    ensures inner == Lifecycle.Err(Lifecycle.CircularDependency)
    ensures later == Lifecycle.Err(Lifecycle.CircularDependency)
    ensures outerAfterReset == Lifecycle.RunFactory
    ensures innerAfterReset == Lifecycle.Err(Lifecycle.CircularDependency)
    ensures calls == 0
  {
    var registry := new Dc.Registry<string>();
    var factory := new Dc.Factory(Constant("test"));
    var circular := registry.Provider(factory);
    outer := circular.BeginUse();
    inner := circular.Use();
    later := circular.Use();
    registry.Reset();
    outerAfterReset := circular.BeginUse();
    innerAfterReset := circular.Use();
    calls := factory.runs;
  }

  /** "should create and register descriptor" (core_test.go:113-126). */
  method RegistersDescriptor() returns (r: Lifecycle.Result<string>, count: nat)
    ensures r == Lifecycle.Ok("test") && count == 1
  {
    var registry := new Dc.Registry<string>();
    var factory := new Dc.Factory(Constant("test"));
    var descriptor := registry.Provider(factory);
    r := descriptor.Use();
    count := |registry.providers|;
  }

  /**
   * "should call factory function after reset" (core_test.go:132-159), with
   * the counting factory returning the counter itself: 1 before the reset,
   * 2 after it.
   */
  method CallsFactoryAfterReset()
    returns (first: Lifecycle.Result<nat>, cached: Lifecycle.Result<nat>,
             second: Lifecycle.Result<nat>, calls: nat)
    ensures first == Lifecycle.Ok(1) && cached == Lifecycle.Ok(1)
    ensures second == Lifecycle.Ok(2) && calls == 2
  {
    var registry := new Dc.Registry<nat>();
    var factory := new Dc.Factory(Counter);
    var descriptor := registry.Provider(factory);
    first := descriptor.Use();
    cached := descriptor.Use();
    registry.Reset();
    second := descriptor.Use();
    calls := factory.runs;
  }

  /** Mocking before the first `Use` may be repeated (core.go:57-64), but not after it. */
  method MockBeforeAndAfterUse()
    returns (mocked: Lifecycle.Result<string>, refused: Lifecycle.Outcome,
             kept: Lifecycle.Result<string>)
    ensures mocked == Lifecycle.Ok("y")
    ensures refused == Lifecycle.Fail(Lifecycle.AlreadyInitialized)
    ensures kept == Lifecycle.Ok("real")
  {
    var registry := new Dc.Registry<string>();
    var qFactory := new Dc.Factory(Constant("q"));
    var q := registry.Provider(qFactory);
    var _ := q.Mock("x");
    var _ := q.Mock("y");
    mocked := q.Use();
    var pFactory := new Dc.Factory(Constant("real"));
    var p := registry.Provider(pFactory);
    var _ := p.Use();
    refused := p.Mock("z");
    kept := p.Use();
  }
}
