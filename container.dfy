/** The service container as the object the program mutates: a binding table
    and an instance cache held in fields, methods that update them in place,
    and the lazily created process-wide instance behind `getInstance`. */
module Containers {
  import opened Resolution

  /** The parts of the PHP runtime the container relies on: the object
      allocator (every closure call and every `new` yields a fresh handle) and
      the set of class names `new` can instantiate with no arguments. */
  class Runtime {
    const instantiable: set<string>
    var nextId: nat

    constructor (instantiable: set<string>)
      ensures this.instantiable == instantiable && nextId == 0
    {
      this.instantiable := instantiable;
      nextId := 0;
    }

    method NewObject() returns (o: nat)
      modifies this
      ensures o == old(nextId) && nextId == old(nextId) + 1
    {
      o := nextId;
      nextId := nextId + 1;
    }
  }

  class Container {
    /** The runtime the container allocates objects from, fixed for its lifetime. */
    const rt: Runtime
    var bindings: map<string, Binding>
    var instances: map<string, Value>

    /** Every cached object was handed out by the container's runtime. */
    ghost predicate Valid()
      reads this, rt
    {
      Allocated(Snapshot())
    }

    /** Private in the PHP class: only `getInstance` runs it. The typed array
        properties start uninitialised, which `isset` and `??` read as empty. */
    constructor (rt: Runtime)
      ensures this.rt == rt && bindings == map[] && instances == map[]
      ensures Valid()
    {
      this.rt := rt;
      bindings := map[];
      instances := map[];
    }

    /** The container's tables together with the runtime's allocator. */
    function Snapshot(): (st: State)
      reads this, rt
    {
      State(bindings, instances, rt.nextId, rt.instantiable)
    }

    /** Overwrites the binding for `key`; the cache is untouched. */
    method Bind(key: string, concrete: Concrete, shared: bool)
      requires Valid()
      modifies this
      ensures Valid()
      ensures bindings == old(bindings)[key := Binding(concrete, shared)]
      ensures instances == old(instances)
    {
      bindings := bindings[key := Binding(concrete, shared)];
    }

    method Singleton(key: string, concrete: Concrete)
      requires Valid()
      modifies this
      ensures Valid()
      ensures bindings == old(bindings)[key := Binding(concrete, true)]
      ensures instances == old(instances)
    {
      Bind(key, concrete, true);
    }

    /** Seeds the cache for `key` with an existing object or null; the bindings
        are untouched. */
    method Instance(key: string, instance: Value)
      requires Valid()
      requires instance.Object? ==> instance.id < rt.nextId
      modifies this
      ensures Valid()
      ensures instances == old(instances)[key := instance]
      ensures bindings == old(bindings)
    {
      instances := instances[key := instance];
    }

    method Make(key: string) returns (r: Outcome)
      requires Valid()
      requires Halts(Snapshot(), key)
      modifies this, rt
      ensures Valid()
      ensures (r, Snapshot()) == Resolve(old(Snapshot()), key)
      decreases Rank(Snapshot(), key)
    {
      if key in instances && instances[key].Object? {
        return Resolved(instances[key].id);
      }
      var concrete := ConcreteOf(bindings, key);
      var built: Outcome;
      if concrete.Closure? || concrete == Name(key) {
        built := Build(concrete);
      } else {
        RankDecreases(Snapshot(), key);
        built := Make(concrete.name);
      }
      if built.Failed? {
        return built;
      }
      if key in bindings && bindings[key].shared {
        instances := instances[key := Object(built.obj)];
      }
      r := built;
    }

    method Build(concrete: Concrete) returns (r: Outcome)
      requires Valid()
      requires !concrete.Null?
      modifies rt
      ensures Valid()
      ensures (r, Snapshot()) == Construct(old(Snapshot()), concrete)
    {
      if concrete.Closure? {
        var o := rt.NewObject();
        return Resolved(o);
      }
      if concrete.name in rt.instantiable {
        var o := rt.NewObject();
        r := Resolved(o);
      } else {
        r := Failed(BindingResolutionException(NotInstantiableMessage(concrete.name)));
      }
    }

    method Flush()
      modifies this
      ensures Valid()
      ensures bindings == map[] && instances == map[]
    {
      bindings := map[];
      instances := map[];
    }
  }

  /** The class's static storage: `Container::$instance`, null until the first
      `getInstance`, and the runtime of the process. */
  class Process {
    const rt: Runtime
    var instance: Container?

    /** The stored container runs on the process's runtime and keeps its own invariant. */
    ghost predicate Valid()
      reads this, instance, rt
    {
      instance != null ==> instance.rt == rt && instance.Valid()
    }

    constructor (rt: Runtime)
      ensures this.rt == rt && instance == null && Valid()
    {
      this.rt := rt;
      instance := null;
    }

    method GetInstance() returns (c: Container)
      requires Valid()
      modifies this
      ensures Valid() && c.rt == rt && c.Valid()
      ensures instance == c
      ensures old(instance) != null ==> c == old(instance)
      ensures old(instance) == null ==> fresh(c) && c.bindings == map[] && c.instances == map[] && c.Valid()
    {
      if instance == null {
        instance := new Container(rt);
      }
      c := instance;
    }
  }
}
