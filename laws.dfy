/** What `make` promises, stated over the resolution functions: cache hits,
    fresh objects for non-shared bindings, one object for shared ones,
    zero-config resolution, alias chains, failures, `instance` and `flush`. */
module Laws {
  import opened Resolution

  /** A key with no alias hop has an acyclic chain of length zero. */
  lemma NoHopHalts(st: State, key: string)
    requires AliasTarget(st.bindings, st.instances, key).None?
    ensures Halts(st, key) && Rank(st, key) == 0
  {
  }

  /** A cached object is returned as it is, whatever the bindings say, and
      nothing changes. */
  lemma CacheHit(st: State, key: string)
    requires IsCached(st.instances, key)
    ensures Halts(st, key)
    ensures Resolve(st, key) == (Resolved(st.instances[key].id), st)
  {
  }

  /** `instance(key, obj)` followed by `make(key)` returns exactly `obj`, even
      when `key` has a binding, and leaves the state as `instance` left it. */
  lemma InstanceThenMake(st: State, key: string, obj: nat)
    ensures var seeded := st.(instances := st.instances[key := Object(obj)]);
            Halts(seeded, key) && Resolve(seeded, key) == (Resolved(obj), seeded)
  {
    var seeded := st.(instances := st.instances[key := Object(obj)]);
    CacheHit(seeded, key);
  }

  /** Rebinding a key whose object is cached does not evict it: `make` keeps
      returning the cached object. */
  lemma RebindKeepsCachedObject(st: State, key: string, b: Binding)
    requires IsCached(st.instances, key)
    ensures var rebound := st.(bindings := st.bindings[key := b]);
            Halts(rebound, key) && Resolve(rebound, key) == (Resolved(st.instances[key].id), rebound)
  {
    CacheHit(st.(bindings := st.bindings[key := b]), key);
  }

  /** A non-shared closure binding calls the closure on every `make`: the
      result is a fresh object and the cache is not written. */
  lemma FactoryIsFresh(st: State, key: string, fn: nat)
    requires !IsCached(st.instances, key)
    requires key in st.bindings && st.bindings[key] == Binding(Closure(fn), false)
    ensures Halts(st, key)
    ensures Resolve(st, key) == (Resolved(st.nextId), st.(nextId := st.nextId + 1))
  {
    NoHopHalts(st, key);
    assert ConcreteOf(st.bindings, key) == Closure(fn);
    assert Resolve(st, key) == StoreIfShared(key, Construct(st, Closure(fn)));
  }

  /** Two consecutive `make(key)` calls on a non-shared closure binding
      return two different objects. */
  lemma FactoryTwiceDistinct(st: State, key: string, fn: nat)
    requires !IsCached(st.instances, key)
    requires key in st.bindings && st.bindings[key] == Binding(Closure(fn), false)
    ensures Halts(st, key)
    ensures var (first, st1) := Resolve(st, key);
            Halts(st1, key) &&
            var (second, st2) := Resolve(st1, key);
            first.Resolved? && second.Resolved? && first.obj != second.obj &&
            st2.instances == st.instances
  {
    FactoryIsFresh(st, key, fn);
    var st1 := st.(nextId := st.nextId + 1);
    FactoryIsFresh(st1, key, fn);
  }

  /** For a shared binding, the first successful `make(key)` caches its
      result, and every later `make(key)` returns that same object without
      building again. */
  lemma SharedResolvesOnce(st: State, key: string)
    requires Halts(st, key)
    requires IsShared(st.bindings, key)
    requires Resolve(st, key).0.Resolved?
    ensures var (first, st1) := Resolve(st, key);
            Halts(st1, key) && Resolve(st1, key) == (first, st1)
  {
    var (first, st1) := Resolve(st, key);
    CacheHit(st1, key);
  }

  /** `singleton(key)` with no concrete on an instantiable class: the first
      `make` instantiates the class and caches it; the second returns it. */
  lemma SingletonByClassName(st: State, key: string)
    requires !IsCached(st.instances, key)
    requires key in st.bindings && st.bindings[key] == Binding(Null, true)
    requires key in st.instantiable
    ensures Halts(st, key)
    ensures var (first, st1) := Resolve(st, key);
            first == Resolved(st.nextId) &&
            st1 == st.(nextId := st.nextId + 1, instances := st.instances[key := Object(st.nextId)]) &&
            Halts(st1, key) && Resolve(st1, key) == (first, st1)
  {
    NoHopHalts(st, key);
    assert Resolve(st, key) == StoreIfShared(key, Construct(st, Name(key)));
    SharedResolvesOnce(st, key);
  }

  /** Zero-config resolution: a key with no binding is built as a class name,
      and nothing is cached afterwards. */
  lemma ZeroConfig(st: State, key: string)
    requires !IsCached(st.instances, key)
    requires key !in st.bindings
    ensures Halts(st, key)
    ensures Resolve(st, key) == Construct(st, Name(key))
    ensures Resolve(st, key).1.instances == st.instances
  {
    NoHopHalts(st, key);
  }

  /** Two caches that hold the same objects under the same keys; they may
      differ in where one stores null and the other has no entry. */
  ghost predicate SameObjects(a: map<string, Value>, b: map<string, Value>)
  {
    forall k :: (IsCached(a, k) <==> IsCached(b, k)) && (IsCached(a, k) ==> a[k] == b[k])
  }

  /** The alias chain only looks at which keys hold objects. */
  lemma {:induction false} ChainLenSameObjects(bindings: map<string, Binding>, a: map<string, Value>,
                                               b: map<string, Value>, key: string, visited: set<string>)
    requires SameObjects(a, b)
    ensures ChainLen(bindings, a, key, visited) == ChainLen(bindings, b, key, visited)
    decreases |bindings.Keys - visited|
  {
    assert IsCached(a, key) <==> IsCached(b, key);
    match AliasTarget(bindings, a, key)
    case None =>
    case Some(n) =>
      if key !in visited {
        VisitShrinks(bindings.Keys, visited, key);
        ChainLenSameObjects(bindings, a, b, n, visited + {key});
      }
  }

  /** `make` only looks at which keys hold objects: on two caches with the
      same objects it returns the same result and leaves caches that again
      hold the same objects. */
  lemma {:induction false} ResolveSeesOnlyObjects(st: State, other: State, key: string)
    requires other == st.(instances := other.instances)
    requires SameObjects(st.instances, other.instances)
    requires Halts(st, key)
    ensures Halts(other, key)
    ensures Resolve(st, key).0 == Resolve(other, key).0
    ensures Resolve(other, key).1 == Resolve(st, key).1.(instances := Resolve(other, key).1.instances)
    ensures SameObjects(Resolve(st, key).1.instances, Resolve(other, key).1.instances)
    decreases Rank(st, key)
  {
    ChainLenSameObjects(st.bindings, st.instances, other.instances, key, {});
    assert IsCached(st.instances, key) <==> IsCached(other.instances, key);
    if !IsCached(st.instances, key) {
      var concrete := ConcreteOf(st.bindings, key);
      if concrete.Closure? || concrete == Name(key) {
        assert Resolve(st, key) == StoreIfShared(key, Construct(st, concrete));
        assert Resolve(other, key) == StoreIfShared(key, Construct(other, concrete));
        StoreSeesOnlyObjects(key, Construct(st, concrete), Construct(other, concrete));
      } else {
        RankDecreases(st, key);
        RankDecreases(other, key);
        ResolveSeesOnlyObjects(st, other, concrete.name);
        assert Resolve(st, key) == StoreIfShared(key, Resolve(st, concrete.name));
        assert Resolve(other, key) == StoreIfShared(key, Resolve(other, concrete.name));
        StoreSeesOnlyObjects(key, Resolve(st, concrete.name), Resolve(other, concrete.name));
      }
    }
  }

  lemma StoreSeesOnlyObjects(key: string, p: (Outcome, State), q: (Outcome, State))
    requires p.0 == q.0 && q.1 == p.1.(instances := q.1.instances)
    requires SameObjects(p.1.instances, q.1.instances)
    ensures StoreIfShared(key, p).0 == StoreIfShared(key, q).0
    ensures StoreIfShared(key, q).1 == StoreIfShared(key, p).1.(instances := StoreIfShared(key, q).1.instances)
    ensures SameObjects(StoreIfShared(key, p).1.instances, StoreIfShared(key, q).1.instances)
  {
  }

  /** A stored null does not count as cached: after `instance(key, null)`,
      `make(key)` behaves as if `key` had no cache entry, whatever its binding. */
  lemma NullInstanceIsIgnored(st: State, key: string)
    requires Halts(st.(instances := st.instances - {key}), key)
    ensures var seeded := st.(instances := st.instances[key := NullValue]);
            var absent := st.(instances := st.instances - {key});
            Halts(seeded, key) && Resolve(seeded, key).0 == Resolve(absent, key).0
  {
    var seeded := st.(instances := st.instances[key := NullValue]);
    var absent := st.(instances := st.instances - {key});
    assert SameObjects(absent.instances, seeded.instances);
    ResolveSeesOnlyObjects(absent, seeded, key);
  }

  /** A binding with a null concrete resolves the key itself: `singleton(key)`
      or `bind(key)` builds from the key's own name, and fails naming the key
      when that name cannot be instantiated. */
  lemma NullConcreteIsSelf(st: State, key: string, shared: bool)
    requires !IsCached(st.instances, key)
    requires key in st.bindings && st.bindings[key] == Binding(Null, shared)
    ensures Halts(st, key)
    ensures Resolve(st, key) == StoreIfShared(key, Construct(st, Name(key)))
    ensures key !in st.instantiable ==>
              Resolve(st, key) == (Failed(BindingResolutionException(NotInstantiableMessage(key))), st)
  {
    NoHopHalts(st, key);
  }

  /** An object `build` makes differs from every object already cached. */
  lemma BuiltObjectIsNew(st: State, concrete: Concrete)
    requires Allocated(st) && !concrete.Null?
    requires Construct(st, concrete).0.Resolved?
    ensures forall k :: IsCached(st.instances, k) ==> st.instances[k].id != Construct(st, concrete).0.obj
  {
  }

  /** A non-shared closure binding always hands out an object different from
      every cached one, so `make` never gives back a seeded instance there. */
  lemma FactoryDiffersFromCached(st: State, key: string, fn: nat)
    requires Allocated(st) && !IsCached(st.instances, key)
    requires key in st.bindings && st.bindings[key] == Binding(Closure(fn), false)
    ensures Halts(st, key)
    ensures forall k :: IsCached(st.instances, k) ==> Resolve(st, key).0 != Resolved(st.instances[k].id)
  {
    FactoryIsFresh(st, key, fn);
    BuiltObjectIsNew(st, Closure(fn));
  }

  /** An unbound key that `new` cannot instantiate fails with the message
      naming it, and changes nothing. */
  lemma NotInstantiable(st: State, key: string)
    requires !IsCached(st.instances, key)
    requires key !in st.bindings && key !in st.instantiable
    ensures Halts(st, key)
    ensures Resolve(st, key) == (Failed(BindingResolutionException("Target [" + key + "] is not instantiable.")), st)
  {
    ZeroConfig(st, key);
  }

  /** An alias resolves exactly as its target does: same result, and for a
      non-shared alias the same new state. A shared alias additionally caches
      the target's object under its own key. */
  lemma AliasDelegates(st: State, key: string, target: string)
    requires Halts(st, key)
    requires AliasTarget(st.bindings, st.instances, key) == Some(target)
    ensures Halts(st, target)
    ensures Resolve(st, key).0 == Resolve(st, target).0
    ensures !IsShared(st.bindings, key) ==> Resolve(st, key) == Resolve(st, target)
    ensures IsShared(st.bindings, key) && Resolve(st, target).0.Resolved? ==>
              Resolve(st, key).1 == Resolve(st, target).1.(instances :=
                Resolve(st, target).1.instances[key := Object(Resolve(st, target).0.obj)])
  {
    RankDecreases(st, key);
  }

  /** A failed `make` through an alias fails with the error of the chain's
      last key and leaves the cache as it was. */
  lemma AliasFailureChangesNothing(st: State, key: string, target: string)
    requires Halts(st, key)
    requires AliasTarget(st.bindings, st.instances, key) == Some(target)
    requires target !in st.bindings && !IsCached(st.instances, target) && target !in st.instantiable
    ensures Resolve(st, key) == (Failed(BindingResolutionException(NotInstantiableMessage(target))), st)
  {
    AliasDelegates(st, key, target);
    NotInstantiable(st, target);
  }

  /** Two-hop chain: `bind(a, b)` and `bind(b, closure)` make `make(a)` call
      the closure, once per call, caching nothing. */
  lemma TwoHopChain(st: State, a: string, b: string, fn: nat)
    requires a != b
    requires !IsCached(st.instances, a) && !IsCached(st.instances, b)
    requires a in st.bindings && st.bindings[a] == Binding(Name(b), false)
    requires b in st.bindings && st.bindings[b] == Binding(Closure(fn), false)
    ensures Halts(st, a)
    ensures Resolve(st, a) == (Resolved(st.nextId), st.(nextId := st.nextId + 1))
  {
    FactoryIsFresh(st, b, fn);
    assert ChainLen(st.bindings, st.instances, b, {a}) == Some(0);
    AliasDelegates(st, a, b);
  }

  /** After `flush` every key is resolved by zero-config resolution again:
      a key seeded with an already allocated object no longer returns it. */
  lemma FlushForgetsInstances(st: State, key: string, obj: nat)
    requires obj < st.nextId
    ensures var seeded := st.(instances := st.instances[key := Object(obj)]);
            var flushed := seeded.(bindings := map[], instances := map[]);
            Resolve(seeded, key).0 == Resolved(obj) &&
            Halts(flushed, key) && Resolve(flushed, key) == Construct(flushed, Name(key)) &&
            Resolve(flushed, key).0 != Resolved(obj)
  {
    var seeded := st.(instances := st.instances[key := Object(obj)]);
    InstanceThenMake(st, key, obj);
    ZeroConfig(seeded.(bindings := map[], instances := map[]), key);
  }
}
