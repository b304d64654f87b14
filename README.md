# Service container model

A Dafny model of the inversion-of-control container in
`stubs/ContainerMedium.php`. That file holds a process-wide registry with two tables:

- a binding table maps an abstract key to `{concrete, shared}`, where the concrete is a closure, a class or key name, or null;
- an instance cache maps a key to an object.

`make(key)` returns the cached object if there is one. Otherwise it builds the concrete, or resolves an alias recursively. It caches the result when the key's own binding is shared. `build` calls a closure or instantiates a class by name. It rewraps a failed instantiation as `BindingResolutionException`.

The project has four modules:

- `Resolution` (resolution.dfy) is the meaning of `make` and `build`, written as functions over a `State`. A `State` holds the two tables, the runtime's next object handle and the set of instantiable class names. `Resolve` is `make` and `Construct` is `build`. Their contracts state the invariants of resolution:
  - a failure changes nothing;
  - a cached object is never replaced;
  - only shared keys are written to the cache;
  - the result is fresh or was already cached;
  - every cached object stays one the runtime has issued.

  `ChainLen` and `Halts` define when the alias chain of a key is acyclic. This is the condition under which `make` terminates.
- `Containers` (container.dfy) is the class itself.
  - `Container` has the two tables as map fields, and `Bind`, `Singleton`, `Instance`, `Make` and `Flush` change them in place. `Build` touches neither table: it only advances the runtime's allocator. `Make` and `Build` are proved to produce exactly the result and new state that `Resolve` and `Construct` give.
  - `Runtime` stands for the PHP engine: its object allocator and its class table.
  - `Process` holds the static `$instance` behind `getInstance`.
- `Laws` (laws.dfy) proves the behaviours the container promises, as lemmas about `Resolve`.
- `Scenarios` (scenarios.dfy) replays the test suite's cases on the class.

Modelling choices:

- Keys and class names are strings.
- Objects are `nat` handles. Every closure call and every `new` takes the next handle from the container's `Runtime`, which is fixed when the container is created. `Instance` accepts only null or a handle the runtime has already issued, since an object given to `instance()` already exists. The invariant `Allocated` (every cached handle is below the next one) is kept by every operation, so a built object differs from every cached one. The bodies of user closures are not modelled: a closure is a number, and calling it yields a fresh object. Handles carry no class, so the tests' `assertInstanceOf` checks appear only as handle identity, such as `r == Resolved(0)` for the first object the runtime makes.
- Whether `new $concrete` succeeds with no arguments is given by a set of class names, `Runtime.instantiable`.
- A cached value is `NullValue` or `Object(id)`, so PHP's `isset` skipping a stored null is modelled.
- The typed array properties of the PHP class start uninitialised, and `isset` and `??` read them as empty. The model's constructor starts both maps empty instead.
- `Make` requires `Halts`: the key's alias chain must be acyclic. On a cycle the PHP code recurses without end.

Where the test suite and the code disagree, the model follows the code.
Two tests expect `build` to inject constructor dependencies by reflection and to fail with "Unresolvable dependency". These are tests/Container/ContainerTest.php:391-400 and 421-432.
`build` at stubs/ContainerMedium.php:68-79 does a bare `new $concrete`. So every class that cannot be instantiated with no arguments fails with "Target [X] is not instantiable.". That includes `SmtpMailer`, which needs a server argument, and `ApiMailer`, which needs an `Api`.

## Model

| member | source | states |
|---|---|---|
| Resolution.ConcreteOf | stubs/ContainerMedium.php:53 | the concrete is never null: a missing binding and a bound null concrete both fall back to the key's own name; otherwise it is the bound concrete |
| Resolution.ChainLenVisited | stubs/ContainerMedium.php:55-58 | the length of an acyclic alias chain does not depend on which keys were already marked visited |
| Resolution.RankDecreases | stubs/ContainerMedium.php:57-58 | one alias hop from a terminating key reaches a terminating key with a strictly shorter chain, so the recursive `make` terminates |
| Resolution.Construct | stubs/ContainerMedium.php:68-79 | `build` fails exactly when given a class name that `new` cannot instantiate, with the message "Target [X] is not instantiable." and with nothing changed; otherwise it returns the next fresh object and touches neither table |
| Resolution.Resolve | stubs/ContainerMedium.php:47-66 | `make` never changes the bindings; a failed `make` changes nothing; an already cached object is never replaced; only keys with a shared binding gain cache entries, and only objects; the result is fresh or already cached; every cached object remains one the runtime has issued; after success a shared or cached key maps to the result |
| Containers.Runtime.NewObject | stubs/ContainerMedium.php:75 | each instantiation yields the next handle, different from every earlier one |
| Containers.Container.constructor | stubs/ContainerMedium.php:16-18 | a new container starts with no bindings and an empty cache, over the given runtime |
| Containers.Container.Bind | stubs/ContainerMedium.php:29-35 | sets exactly `bindings[key]` to the given concrete and shared flag, replacing any earlier entry; the cache is unchanged |
| Containers.Container.Singleton | stubs/ContainerMedium.php:37-40 | is `Bind` with shared set to true |
| Containers.Container.Instance | stubs/ContainerMedium.php:42-45 | sets exactly `instances[key]` to null or an already existing object; the bindings are unchanged and the allocation invariant is kept |
| Containers.Container.Make | stubs/ContainerMedium.php:47-66 | returns exactly the result of `Resolve` on the state before the call, leaves exactly the state `Resolve` gives, and keeps the allocation invariant |
| Containers.Container.Build | stubs/ContainerMedium.php:68-79 | returns exactly the result of `Construct`, leaves exactly the allocator state it gives, and keeps the allocation invariant |
| Containers.Container.Flush | stubs/ContainerMedium.php:81-85 | both tables become empty |
| Containers.Process.GetInstance | stubs/ContainerMedium.php:20-27 | a container is created only when the static instance is null; otherwise the stored one is returned; the stored instance is always the one returned, and it runs on the process's runtime and keeps its invariant |
| Laws.NoHopHalts | stubs/ContainerMedium.php:55-56 | a key that makes no alias hop terminates with chain length zero |
| Laws.CacheHit | stubs/ContainerMedium.php:49-51 | a cached object is returned without consulting the bindings, and nothing changes |
| Laws.InstanceThenMake | stubs/ContainerMedium.php:42-50 | `instance(key, obj)` followed by `make(key)` returns exactly `obj`, whatever the binding for `key` |
| Laws.RebindKeepsCachedObject | stubs/ContainerMedium.php:29-50 | rebinding a key whose object is cached does not evict it: `make` still returns the cached object |
| Laws.FactoryIsFresh | stubs/ContainerMedium.php:53-65 | for a non-shared closure binding, `make` returns a fresh object and writes nothing to the cache |
| Laws.FactoryTwiceDistinct | tests/Container/ContainerTest.php:81-98 | two consecutive `make` calls on a non-shared closure binding return different objects and leave the cache as it was |
| Laws.SharedResolvesOnce | stubs/ContainerMedium.php:49-63 | after a successful `make` of a shared key, the next `make` returns the identical object and changes nothing, so `build` is not called again |
| Laws.SingletonByClassName | tests/Container/ContainerTest.php:345-351 | `singleton(key)` with no concrete instantiates the class once, caches it, and returns the same object on the next `make` |
| Laws.ZeroConfig | stubs/ContainerMedium.php:53-61 | an unbound, uncached key is built from its own name, and nothing is cached afterwards |
| Laws.NullInstanceIsIgnored | stubs/ContainerMedium.php:49 | a null stored by `instance` is not treated as cached: whatever the binding, `make` gives the same result as with no cache entry for the key |
| Laws.ChainLenSameObjects | stubs/ContainerMedium.php:49-58 | the alias chain depends only on which keys hold objects, not on stored nulls |
| Laws.ResolveSeesOnlyObjects | stubs/ContainerMedium.php:47-66 | on two caches holding the same objects, `make` returns the same result and leaves caches that again hold the same objects |
| Laws.NullConcreteIsSelf | stubs/ContainerMedium.php:53-56 | a bound null concrete builds the key's own name, caching when shared, and fails naming the key when it cannot be instantiated |
| Laws.BuiltObjectIsNew | stubs/ContainerMedium.php:68-75 | an object `build` makes differs from every already cached object |
| Laws.FactoryDiffersFromCached | stubs/ContainerMedium.php:53-65 | `make` on a non-shared closure binding never returns an object that is cached under any key |
| Laws.NotInstantiable | stubs/ContainerMedium.php:74-78 | an unbound key that cannot be instantiated fails with "Target [key] is not instantiable." and changes nothing |
| Laws.AliasDelegates | stubs/ContainerMedium.php:55-63 | an alias yields the same result as its target; a non-shared alias leaves the same state, and a shared alias also caches the target's object under its own key |
| Laws.AliasFailureChangesNothing | stubs/ContainerMedium.php:56-63 | a `make` through an alias to an uninstantiable class fails with the target's message and leaves the whole state unchanged, because the cache write comes after `build` |
| Laws.TwoHopChain | tests/Container/ContainerTest.php:235-240 | with `bind(a, b)` and `bind(b, closure)`, `make(a)` calls the closure, returns a fresh object and caches nothing |
| Laws.FlushForgetsInstances | stubs/ContainerMedium.php:81-85 | after `flush`, a key seeded with an already allocated object resolves by zero-config again and no longer returns that object |
| Scenarios.GetInstanceTwice | tests/Container/ContainerTest.php:47-50 | two `getInstance` calls return the same container |
| Scenarios.ClosureBinding | tests/Container/ContainerTest.php:81-98 | on the class, two `make` calls on a closure binding return two different objects |
| Scenarios.InterfaceToClassName | tests/Container/ContainerTest.php:178-182 | an interface bound to an instantiable class name resolves to the object `new` made for that class, the first one of the runtime |
| Scenarios.RecursiveResolution | tests/Container/ContainerTest.php:235-240 | an interface aliased to a closure-bound key resolves through both hops to the first allocated object |
| Scenarios.SharedBinding | tests/Container/ContainerTest.php:276-281 | a singleton closure binding returns the identical object on two `make` calls |
| Scenarios.SeededInstance | tests/Container/ContainerTest.php:313-317 | `make` returns exactly the object given to `instance` |
| Scenarios.ZeroConfigResolution | tests/Container/ContainerTest.php:209-211 | an unbound instantiable class resolves to the object `new` made for it, the first one of the runtime, and the cache stays empty |
| Scenarios.SeededNotReused | stubs/ContainerMedium.php:70-71 | derived from closure resolution, not asserted by a test: after an object is seeded with `instance` (as at tests/Container/ContainerTest.php:313-314), a closure binding for another key gives a different object |
| Scenarios.FlushThenUnresolvable | tests/Container/ContainerTest.php:425-431 | after `flush`, making a class whose constructor needs arguments fails with "Target [SmtpMailer] is not instantiable." |

## Left out

- Scenarios use the short class names of the test file (`SmtpMailer`). PHP's `SmtpMailer::class` is `Tests\Container\SmtpMailer`, so the real message reads "Target [Tests\Container\SmtpMailer] is not instantiable.".
- The test methods share one process-wide container, and only the last one flushes, so in PHP each test sees the bindings of the ones before it. For example, the first `make(ArrayMailer)` at tests/Container/ContainerTest.php:347 returns the object seeded at line 314. Each scenario here starts from a fresh container instead.
- Containers.Container.Build: the rewrapped exception carries only its message. The code 0 and the caught `Error` kept as the previous exception (stubs/ContainerMedium.php:77) are not modelled.

- Closure bodies are arbitrary user code and are not modelled. A closure is assumed to return a fresh object. A closure that returns a shared or null value, that throws, or that calls back into the container is not covered.
- Only null and objects are modelled as values given to `instance`. Scalars are not.
- Constructor-parameter dependency injection and the "Unresolvable dependency" message are not in the code, so they are not in the model. The tests at tests/Container/ContainerTest.php:391-400 and 421-432 expect them.
- Exceptions thrown from a constructor are abstracted away. PHP `Error`s are rewrapped and other exceptions propagate as they are. The model only knows whether `new` succeeds, through `Runtime.instantiable`.
- The `__construct` of the PHP class is private; that is PHP access control. In the model, every scenario obtains its container through `Process.GetInstance`, and no other member creates one, but Dafny cannot forbid other callers. Late static binding (`new static` in a subclass) is not modelled.
- Containers.Container.Make: requires an acyclic alias chain (`Halts`). The PHP code recurses without end on a cycle, and the model does not describe that divergence.
- stubs/ContainerEmpty.php repeats `getInstance` only. It is covered by `Process.GetInstance`.
- The facades (`app/Facades/Facade.php`, `app/Facades/Pdf.php`), the front controller `public/index.php`, `app/Http/Controllers/HomeController.php` and the `swap` helper in `tests/TestCase.php` are callers of the container. They are not modelled: the first two do dynamic method forwarding and use a mocking library, the others are I/O or one-line delegates. The `swap` helper is `instance` followed by returning its argument.
- Concurrency: the PHP program is single-threaded, and so is the model.
- Containers.Container.Instance: requires the object to exist already, meaning its handle was issued by the container's runtime. Values not made by that runtime are outside the model.
