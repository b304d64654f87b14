/** Clients of the container class that replay the behaviours its test suite
    describes, each on a fresh process, runtime and container. */
module Scenarios {
  import opened Resolution
  import opened Containers
  import Laws

  /** Two `getInstance` calls return the same container. */
  method GetInstanceTwice() returns (first: Container, second: Container)
    ensures first == second
  {
    var rt := new Runtime({});
    var process := new Process(rt);
    first := process.GetInstance();
    second := process.GetInstance();
  }

  /** A non-shared closure binding hands out a new object on each `make`. */
  method ClosureBinding() returns (first: Outcome, second: Outcome)
    ensures first.Resolved? && second.Resolved? && first.obj != second.obj
  {
    var rt := new Runtime({});
    var process := new Process(rt);
    var c := process.GetInstance();
    c.Bind("SmtpMailer", Closure(0), false);
    Laws.NoHopHalts(c.Snapshot(), "SmtpMailer");
    first := c.Make("SmtpMailer");
    c := process.GetInstance();
    Laws.NoHopHalts(c.Snapshot(), "SmtpMailer");
    second := c.Make("SmtpMailer");
  }

  /** An interface bound to a class name resolves to a new object of that class. */
  method InterfaceToClassName() returns (r: Outcome)
    ensures r == Resolved(0)
  {
    var rt := new Runtime({"ArrayMailer"});
    var process := new Process(rt);
    var c := process.GetInstance();
    c.Bind("MailerInterface", Name("ArrayMailer"), false);
    Laws.NoHopHalts(c.Snapshot(), "ArrayMailer");
    assert ChainLen(c.bindings, c.instances, "ArrayMailer", {"MailerInterface"}) == Some(0);
    r := c.Make("MailerInterface");
  }

  /** An interface aliased to a key bound to a closure resolves through both hops. */
  method RecursiveResolution() returns (r: Outcome)
    ensures r == Resolved(0)
  {
    var rt := new Runtime({});
    var process := new Process(rt);
    var c := process.GetInstance();
    c.Bind("MailerInterface", Name("SmtpMailer"), false);
    c.Bind("SmtpMailer", Closure(0), false);
    Laws.TwoHopChain(c.Snapshot(), "MailerInterface", "SmtpMailer", 0);
    r := c.Make("MailerInterface");
  }

  /** A shared closure binding is built once and then returned from the cache. */
  method SharedBinding() returns (first: Outcome, second: Outcome)
    ensures first.Resolved? && first == second
  {
    var rt := new Runtime({});
    var process := new Process(rt);
    var c := process.GetInstance();
    c.Singleton("SmtpMailer", Closure(0));
    Laws.NoHopHalts(c.Snapshot(), "SmtpMailer");
    first := c.Make("SmtpMailer");
    Laws.CacheHit(c.Snapshot(), "SmtpMailer");
    second := c.Make("SmtpMailer");
  }

  /** An object seeded with `instance` is what `make` returns. */
  method SeededInstance() returns (seeded: nat, resolved: Outcome)
    ensures resolved == Resolved(seeded)
  {
    var rt := new Runtime({"ArrayMailer"});
    var process := new Process(rt);
    var c := process.GetInstance();
    seeded := rt.NewObject();
    c.Instance("ArrayMailer", Object(seeded));
    Laws.CacheHit(c.Snapshot(), "ArrayMailer");
    resolved := c.Make("ArrayMailer");
  }

  /** A closure binding never hands back an object seeded under another key. */
  method SeededNotReused() returns (seeded: nat, built: Outcome)
    ensures built.Resolved? && built.obj != seeded
  {
    var rt := new Runtime({});
    var process := new Process(rt);
    var c := process.GetInstance();
    seeded := rt.NewObject();
    c.Instance("ArrayMailer", Object(seeded));
    c.Bind("SmtpMailer", Closure(0), false);
    Laws.FactoryDiffersFromCached(c.Snapshot(), "SmtpMailer", 0);
    built := c.Make("SmtpMailer");
  }

  /** An unbound instantiable class resolves without any binding and is not cached. */
  method ZeroConfigResolution() returns (r: Outcome, cached: map<string, Value>)
    ensures r == Resolved(0) && cached == map[]
  {
    var rt := new Runtime({"ArrayMailer"});
    var process := new Process(rt);
    var c := process.GetInstance();
    Laws.ZeroConfig(c.Snapshot(), "ArrayMailer");
    r := c.Make("ArrayMailer");
    cached := c.instances;
  }

  /** After `flush`, a class whose constructor needs arguments is not
      instantiable: `make` fails naming it. */
  method FlushThenUnresolvable() returns (r: Outcome)
    ensures r == Failed(BindingResolutionException(NotInstantiableMessage("SmtpMailer")))
  {
    var rt := new Runtime({"ArrayMailer"});
    var process := new Process(rt);
    var c := process.GetInstance();
    c.Bind("SmtpMailer", Closure(0), false);
    c.Flush();
    Laws.NotInstantiable(c.Snapshot(), "SmtpMailer");
    r := c.Make("SmtpMailer");
  }
}
