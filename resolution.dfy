/** The resolution semantics of the service container's `make` and `build`,
    stated as functions over a snapshot of the container's two tables and the
    object allocator. The class in module Containers is proved to follow these
    functions step for step; the lemmas here say what the functions mean. */
module Resolution {

  datatype Option<T> = None | Some(value: T)

  /** What a binding holds as its concrete: a closure (identified by a number;
      its body is not modelled, calling it yields a fresh object), a class or
      key name, or null (meaning "the abstract itself"). */
  datatype Concrete = Closure(fn: nat) | Name(name: string) | Null

  datatype Binding = Binding(concrete: Concrete, shared: bool)

  /** A value stored in the instance cache: null or an object handle. */
  datatype Value = NullValue | Object(id: nat)

  datatype Error = BindingResolutionException(message: string)

  /** What `make` and `build` return: an object, or the exception they throw. */
  datatype Outcome = Resolved(obj: nat) | Failed(error: Error)

  /** The container's binding table and instance cache, the next object handle
      the runtime will hand out, and the class names that `new` can
      instantiate with no arguments. */
  datatype State = State(
    bindings: map<string, Binding>,
    instances: map<string, Value>,
    nextId: nat,
    instantiable: set<string>)

  /** PHP's `isset($instances[$key])`: present and not null. */
  predicate IsCached(instances: map<string, Value>, key: string)
  {
    key in instances && instances[key].Object?
  }

  /** Every cached object was handed out by the runtime before: its handle is
      below the next one. An object given to `instance` already exists. */
  ghost predicate Allocated(st: State)
  {
    forall k :: IsCached(st.instances, k) ==> st.instances[k].id < st.nextId
  }

  predicate IsShared(bindings: map<string, Binding>, key: string)
  {
    key in bindings && bindings[key].shared
  }

  /** `$bindings[$key]['concrete'] ?? $key`: never null. */
  function ConcreteOf(bindings: map<string, Binding>, key: string): (c: Concrete)
    ensures !c.Null?
    ensures key !in bindings ==> c == Name(key)
    ensures key in bindings && bindings[key].concrete.Null? ==> c == Name(key)
    ensures key in bindings && !bindings[key].concrete.Null? ==> c == bindings[key].concrete
  {
    if key in bindings && !bindings[key].concrete.Null? then bindings[key].concrete else Name(key)
  }

  /** The key `make(key)` hands on to a recursive `make`, if it does: the key is
      not cached and its concrete is a name other than the key itself. */
  function AliasTarget(bindings: map<string, Binding>, instances: map<string, Value>, key: string): Option<string>
  {
    if IsCached(instances, key) then None
    else match ConcreteOf(bindings, key)
      case Name(n) => if n == key then None else Some(n)
      case _ => None
  }

  /** The number of alias hops `make(key)` takes before it builds or returns a
      cached object, or None when the chain runs into a key already in
      `visited` (then `make` would recurse forever). */
  function ChainLen(bindings: map<string, Binding>, instances: map<string, Value>, key: string, visited: set<string>): Option<nat>
    decreases |bindings.Keys - visited|
  {
    match AliasTarget(bindings, instances, key)
    case None => Some(0)
    case Some(n) =>
      if key in visited then None
      else
        VisitShrinks(bindings.Keys, visited, key);
        match ChainLen(bindings, instances, n, visited + {key})
        case None => None
        case Some(d) => Some(d + 1)
  }

  /** Marking one more bound key visited leaves fewer keys to visit. */
  lemma VisitShrinks(keys: set<string>, visited: set<string>, key: string)
    requires key in keys && key !in visited
    ensures |keys - (visited + {key})| < |keys - visited|
  {
    assert keys - visited == (keys - (visited + {key})) + {key};
  }

  /** `make(key)` terminates: its alias chain is acyclic. */
  predicate Halts(st: State, key: string)
  {
    ChainLen(st.bindings, st.instances, key, {}).Some?
  }

  function Rank(st: State, key: string): nat
    requires Halts(st, key)
  {
    ChainLen(st.bindings, st.instances, key, {}).value
  }

  /** Forgetting visited keys never breaks an acyclic chain nor changes its length. */
  lemma {:induction false} ChainLenVisited(bindings: map<string, Binding>, instances: map<string, Value>,
                                           key: string, visited: set<string>, fewer: set<string>)
    requires fewer <= visited
    requires ChainLen(bindings, instances, key, visited).Some?
    ensures ChainLen(bindings, instances, key, fewer) == ChainLen(bindings, instances, key, visited)
    decreases |bindings.Keys - visited|
  {
    match AliasTarget(bindings, instances, key)
    case None =>
    case Some(n) =>
      assert key !in visited && key !in fewer;
      VisitShrinks(bindings.Keys, visited, key);
      ChainLenVisited(bindings, instances, n, visited + {key}, fewer + {key});
  }

  /** A hop along an acyclic chain lands on a key whose chain is shorter. */
  lemma RankDecreases(st: State, key: string)
    requires Halts(st, key)
    requires AliasTarget(st.bindings, st.instances, key).Some?
    ensures Halts(st, AliasTarget(st.bindings, st.instances, key).value)
    ensures Rank(st, AliasTarget(st.bindings, st.instances, key).value) < Rank(st, key)
  {
    var n := AliasTarget(st.bindings, st.instances, key).value;
    assert {} + {key} == {key};
    ChainLenVisited(st.bindings, st.instances, n, {key}, {});
  }

  function NotInstantiableMessage(name: string): string
  {
    "Target [" + name + "] is not instantiable."
  }

  /** `build(concrete)`: a closure is called, a class name is instantiated with
      `new`; either yields an object never handed out before. A name `new`
      cannot instantiate fails, and the failure is rewrapped. */
  function Construct(st: State, concrete: Concrete): (r: (Outcome, State))
    requires !concrete.Null?
    ensures r.1.bindings == st.bindings && r.1.instances == st.instances && r.1.instantiable == st.instantiable
    ensures r.0.Failed? <==> concrete.Name? && concrete.name !in st.instantiable
    ensures r.0.Failed? ==> r.1 == st && r.0.error.message == NotInstantiableMessage(concrete.name)
    ensures r.0.Resolved? ==> r.0.obj == st.nextId && r.1.nextId == st.nextId + 1
  {
    match concrete
    case Closure(_) => (Resolved(st.nextId), st.(nextId := st.nextId + 1))
    case Name(n) =>
      if n in st.instantiable then (Resolved(st.nextId), st.(nextId := st.nextId + 1))
      else (Failed(BindingResolutionException(NotInstantiableMessage(n))), st)
  }

  /** `make(key)`: the cached object if there is one; otherwise build the
      concrete (a closure or the key itself) or resolve the alias recursively,
      and cache the result under `key` when key's own binding is shared. */
  function Resolve(st: State, key: string): (r: (Outcome, State))
    requires Halts(st, key)
    decreases Rank(st, key)
    // make never touches the binding table, and the allocator only moves forward
    ensures r.1.bindings == st.bindings && r.1.instantiable == st.instantiable
    ensures r.1.nextId >= st.nextId
    // every cached object stays one the runtime has handed out
    ensures Allocated(st) ==> Allocated(r.1)
    // resolution is all or nothing: a failed make leaves everything as it was
    ensures r.0.Failed? ==> r.1 == st
    // a cached object is never replaced
    ensures forall k :: IsCached(st.instances, k) ==> k in r.1.instances && r.1.instances[k] == st.instances[k]
    // only keys with a shared binding are written to the cache, and only with objects
    ensures forall k :: k in r.1.instances && (k !in st.instances || r.1.instances[k] != st.instances[k]) ==>
              IsShared(st.bindings, k) && r.1.instances[k].Object?
    // the result is either a fresh object or one that was already cached
    ensures r.0.Resolved? ==>
              (st.nextId <= r.0.obj < r.1.nextId) ||
              (exists k :: IsCached(st.instances, k) && st.instances[k].id == r.0.obj)
    // after a successful make, a cached or shared key maps to its result
    ensures r.0.Resolved? && (IsCached(st.instances, key) || IsShared(st.bindings, key)) ==>
              IsCached(r.1.instances, key) && r.1.instances[key].id == r.0.obj
  {
    if IsCached(st.instances, key) then
      (Resolved(st.instances[key].id), st)
    else
      var concrete := ConcreteOf(st.bindings, key);
      if concrete.Closure? || concrete == Name(key) then
        StoreIfShared(key, Construct(st, concrete))
      else
        RankDecreases(st, key);
        StoreIfShared(key, Resolve(st, concrete.name))
  }

  /** The tail of `make(key)`: an exception propagates before the cache is
      written; an object is cached under `key` when key's binding is shared. */
  function StoreIfShared(key: string, r: (Outcome, State)): (Outcome, State)
  {
    if r.0.Failed? then r
    else if IsShared(r.1.bindings, key) then (r.0, r.1.(instances := r.1.instances[key := Object(r.0.obj)]))
    else r
  }
}
