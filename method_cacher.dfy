/**
 * MethodCacher: the registry that maps each registered method to the store holding that
 * method's results, keyed by whatever the method uses to stand for its arguments. Every
 * operation comes in two forms: one naming the method explicitly, and one that finds the
 * calling method from the call stack and then does exactly what the explicit form does.
 */
module MethodCaching {
  import opened Wrappers
  import opened Reflection
  import opened GenericCache
  import ByteCodeUtils

  /** The name under which the registry's own cache is added to the cache manager. */
  const MethodCacheName: string := "_baseMethodCacheControl_"

  /**
   * Index of the caller's frame in the stack seen from inside the resolution: 0 is the
   * stack-trace call itself, 1 the resolution, 2 the registry operation, 3 its caller.
   */
  const CallerDepth: nat := 3

  /** A Java reference stored as a result: null, or an object of some runtime class. */
  datatype Value<T> = Null | Instance(runtimeClass: ClassName, state: T)

  /** The errors the registry throws. */
  datatype Error =
    | AlreadyRegistered(registered: MethodId)
    | NotRegistered(unregistered: MethodId)
    | ResultTypeMismatch(expected: ClassName, received: ClassName)
    | CallerNotFound(cause: ByteCodeUtils.ResolveError)   // "Cannot find the calling method"
    | NoCallingMethod   // a null calling method dereferenced (NullPointerException)

  /**
   * The JVM's `Class.isAssignableFrom`: `isAssignableFrom(target, source)` holds when an
   * object of class `source` may be used where `target` is declared.
   */
  type AssignableFrom = (ClassName, ClassName) -> bool

  /** `results` may be stored for a method declared to return `returnType`. */
  predicate ResultFits<T>(returnType: ClassName, results: Value<T>, isAssignableFrom: AssignableFrom) {
    results.Null? || isAssignableFrom(returnType, results.runtimeClass)
  }

  // ---------------------------------------------------------------------------------------
  // Finding the calling method
  // ---------------------------------------------------------------------------------------

  /**
   * What `getCallingMethod` yields for the current stack: no method when the stack is too
   * short, otherwise the method the caller's frame resolves to; a resolution failure is
   * rethrown wrapped.
   */
  function CallingMethod(stack: seq<StackFrame>, jvm: Jvm): Result<Option<MethodId>, Error> {
    if |stack| > CallerDepth then
      match ByteCodeUtils.Resolve(stack[CallerDepth], jvm)
      case Success(m) => Success(Some(m))
      case Failure(e) => Failure(CallerNotFound(e))
    else Success(None)
  }

  /** Finds the method that called into the registry, from the stack as given. */
  method GetCallingMethod(stack: seq<StackFrame>, jvm: Jvm) returns (r: Result<Option<MethodId>, Error>)
    ensures r == CallingMethod(stack, jvm)
  {
    r := Success(None);
    if |stack| > CallerDepth {
      var resolved := ByteCodeUtils.GetMethod(stack[CallerDepth], jvm);
      match resolved
      case Success(m) => r := Success(Some(m));
      case Failure(e) => r := Failure(CallerNotFound(e));
    }
  }

  /**
   * Only the frame at depth 3 is read: a shorter stack yields no method and never fails; a
   * longer one fails exactly when that frame does not resolve, and otherwise yields a public
   * method of that frame's class with that frame's method name.
   */
  lemma CallingMethodReadsCallerFrame(stack: seq<StackFrame>, jvm: Jvm)
    ensures CallingMethod(stack, jvm) == Success(None) <==> |stack| <= CallerDepth
    ensures CallingMethod(stack, jvm).Failure? <==>
              |stack| > CallerDepth && ByteCodeUtils.Resolve(stack[CallerDepth], jvm).Failure?
    ensures CallingMethod(stack, jvm).Success? && CallingMethod(stack, jvm).value.Some? ==>
              var m := CallingMethod(stack, jvm).value.value;
              && m.name == stack[CallerDepth].methodName
              && stack[CallerDepth].className in jvm.publicMethods
              && m in jvm.publicMethods[stack[CallerDepth].className]
  {
    if |stack| > CallerDepth && ByteCodeUtils.Resolve(stack[CallerDepth], jvm).Success? {
      ByteCodeUtils.ResolvedMethodMatchesFrame(stack[CallerDepth], jvm);
    }
  }

  // ---------------------------------------------------------------------------------------
  // The cache manager and the process-wide instance
  // ---------------------------------------------------------------------------------------

  /** The external cache manager, reduced to the names of the caches added to it. */
  class CacheManager {
    var cacheNames: set<string>

    constructor NewInstance()
      ensures cacheNames == {}
    {
      cacheNames := {};
    }

    method AddCache(name: string)
      modifies this
      ensures cacheNames == old(cacheNames) + {name}
    {
      cacheNames := cacheNames + {name};
    }
  }

  /** The registry's static fields: the single instance and the cache manager. */
  class Statics<K(==), T> {
    var baseMethodCacher: MethodCacher?<K, T>
    var cacheManager: CacheManager?

    /** The state at class-initialisation time: neither exists yet. */
    constructor ()
      ensures baseMethodCacher == null && cacheManager == null
    {
      baseMethodCacher, cacheManager := null, null;
    }

    /**
     * The registry, created on the first call (together with the cache manager, unless one
     * exists) and the same object on every later call.
     */
    method GetInstance() returns (r: MethodCacher<K, T>)
      modifies this, cacheManager
      ensures baseMethodCacher == r
      ensures old(baseMethodCacher) != null ==>
                && r == old(baseMethodCacher)
                && cacheManager == old(cacheManager)
                && (cacheManager != null ==> unchanged(cacheManager))
      ensures old(baseMethodCacher) == null ==>
                && fresh(r) && r.methodCache == map[] && cacheManager != null
                && (old(cacheManager) == null ==> fresh(cacheManager) && cacheManager.cacheNames == {MethodCacheName})
                && (old(cacheManager) != null ==>
                      && cacheManager == old(cacheManager)
                      && cacheManager.cacheNames == old(cacheManager.cacheNames) + {MethodCacheName})
    {
      if baseMethodCacher == null {
        if cacheManager == null {
          cacheManager := new CacheManager.NewInstance();
        }
        baseMethodCacher := new MethodCacher(cacheManager);
      }
      r := baseMethodCacher;
    }
  }

  /** Two calls of `getInstance` in a row give the same registry. */
  method SameInstanceEveryCall<K(==), T>(statics: Statics<K, T>) returns (first: MethodCacher<K, T>, second: MethodCacher<K, T>)
    modifies statics, statics.cacheManager
    ensures first == second
    ensures old(statics.baseMethodCacher) != null ==> first == old(statics.baseMethodCacher)
  {
    first := statics.GetInstance();
    second := statics.GetInstance();
  }

  // ---------------------------------------------------------------------------------------
  // The registry
  // ---------------------------------------------------------------------------------------

  class MethodCacher<K(==), T> {
    /** The registered methods, each with the store that holds its results. */
    var methodCache: map<MethodId, MapStore<K, Value<T>>>

    /** A registry with no method registered, whose cache is added to `manager`. */
    constructor (manager: CacheManager)
      modifies manager
      ensures methodCache == map[]
      ensures manager.cacheNames == old(manager.cacheNames) + {MethodCacheName}
    {
      methodCache := map[];
      new;
      manager.AddCache(MethodCacheName);
    }

    /** `m` is registered. */
    predicate IsMethodCached(m: MethodId)
      reads this
    {
      m in methodCache
    }

    /** What `isResultsCached(m, key)` answers. */
    function ResultsCachedFor(m: MethodId, key: K): Result<bool, Error>
      reads this, methodCache.Values
    {
      if m in methodCache then Success(key in methodCache[m].contents) else Failure(NotRegistered(m))
    }

    /** What `getResults(m, key)` answers: the stored value, or null if none. */
    function ResultsFor(m: MethodId, key: K): Result<Value<T>, Error>
      reads this, methodCache.Values
    {
      if m in methodCache then
        Success(if key in methodCache[m].contents then methodCache[m].contents[key] else Null)
      else Failure(NotRegistered(m))
    }

    /**
     * The effect of `registerMethod(m, resultsCache)`: it fails when `m` is registered already,
     * leaving the registry as it was; otherwise `m` is now registered with exactly that store.
     */
    twostate predicate RegistrationDone(m: MethodId, resultsCache: MapStore<K, Value<T>>, new o: Outcome<Error>)
      reads this
    {
      && o == (if m in old(methodCache) then Fail(AlreadyRegistered(m)) else Pass)
      && methodCache == (if o.Pass? then old(methodCache)[m := resultsCache] else old(methodCache))
    }

    /**
     * The effect of `storeResults(m, key, results)`. A non-null result the return type does
     * not admit is refused first, then an unregistered method; in both cases nothing changes.
     * Otherwise `m`'s store holds `results` under `key`, and every store other than `m`'s
     * (another method may share it) is as it was.
     */
    twostate predicate StoreDone(m: MethodId, key: K, results: Value<T>, isAssignableFrom: AssignableFrom, new o: Outcome<Error>)
      reads this, methodCache.Values
    {
      && methodCache == old(methodCache)
      && o == (if !ResultFits(m.returnType, results, isAssignableFrom)
               then Fail(ResultTypeMismatch(m.returnType, results.runtimeClass))
               else if m !in methodCache then Fail(NotRegistered(m))
               else Pass)
      && (o.Pass? ==> methodCache[m].contents == old(methodCache[m].contents)[key := results])
      && forall m' | m' in methodCache && (o.Fail? || methodCache[m'] != methodCache[m]) ::
           methodCache[m'].contents == old(methodCache[m'].contents)
    }

    /** Registers `m` with the store for its results; a second registration is refused. */
    method RegisterMethod(m: MethodId, resultsCache: MapStore<K, Value<T>>) returns (o: Outcome<Error>)
      modifies this
      ensures RegistrationDone(m, resultsCache, o)
      ensures IsMethodCached(m) && (o.Pass? <==> !old(IsMethodCached(m)))
      ensures o.Fail? ==> methodCache[m] == old(methodCache[m])
    {
      if m in methodCache {
        return Fail(AlreadyRegistered(m));
      }
      methodCache := methodCache[m := resultsCache];
      o := Pass;
    }

    /** Stores `results` for `m` under `key`, after checking the result's type and the registration. */
    method StoreResults(m: MethodId, key: K, results: Value<T>, isAssignableFrom: AssignableFrom) returns (o: Outcome<Error>)
      modifies if m in methodCache then {methodCache[m]} else {}
      ensures StoreDone(m, key, results, isAssignableFrom, o)
      ensures o.Pass? ==> ResultsCachedFor(m, key) == Success(true) && ResultsFor(m, key) == Success(results)
    {
      if results != Null && !isAssignableFrom(m.returnType, results.runtimeClass) {
        return Fail(ResultTypeMismatch(m.returnType, results.runtimeClass));
      }
      if m in methodCache {
        var resultsCache := methodCache[m];
        resultsCache.Put(key, results);
        o := Pass;
      } else {
        o := Fail(NotRegistered(m));
      }
    }

    /** Whether `m`'s store holds a result for `key`; refused for an unregistered method. */
    method IsResultsCached(m: MethodId, key: K) returns (r: Result<bool, Error>)
      ensures r == ResultsCachedFor(m, key)
    {
      if m in methodCache {
        var present := methodCache[m].ContainsKey(key);
        r := Success(present);
      } else {
        r := Failure(NotRegistered(m));
      }
    }

    /** The result `m`'s store holds for `key`, or null; refused for an unregistered method. */
    method GetResults(m: MethodId, key: K) returns (r: Result<Value<T>, Error>)
      ensures r == ResultsFor(m, key)
    {
      if m in methodCache {
        var found := methodCache[m].Get(key);
        r := Success(found.GetOr(Null));
      } else {
        r := Failure(NotRegistered(m));
      }
    }

    // -------------------------------------------------------------------------------------
    // The forms that find the calling method on the stack
    // -------------------------------------------------------------------------------------

    /**
     * `registerMethod(resultsCache)`: registers the calling method. With no calling method
     * (a stack of at most three frames) the cache library ignores the null key, so nothing
     * changes.
     */
    method RegisterCallingMethod(stack: seq<StackFrame>, jvm: Jvm, resultsCache: MapStore<K, Value<T>>) returns (o: Outcome<Error>)
      modifies this
      ensures match CallingMethod(stack, jvm)
        case Failure(e) => o == Fail(e) && methodCache == old(methodCache)
        case Success(None) => o == Pass && methodCache == old(methodCache)
        case Success(Some(m)) => RegistrationDone(m, resultsCache, o)
    {
      var caller := GetCallingMethod(stack, jvm);
      match caller
      case Failure(e) => o := Fail(e);
      case Success(None) => o := Pass;
      case Success(Some(m)) => o := RegisterMethod(m, resultsCache);
    }

    /** `isCachedMethod()`: whether the calling method is registered (never, for no method). */
    method IsCachedMethod(stack: seq<StackFrame>, jvm: Jvm) returns (r: Result<bool, Error>)
      ensures r == match CallingMethod(stack, jvm)
        case Failure(e) => Failure(e)
        case Success(None) => Success(false)
        case Success(Some(m)) => Success(IsMethodCached(m))
    {
      var caller := GetCallingMethod(stack, jvm);
      match caller
      case Failure(e) => r := Failure(e);
      case Success(None) => r := Success(false);
      case Success(Some(m)) => r := Success(m in methodCache);
    }

    /** `storeResults(key, results)`: stores for the calling method. */
    method StoreCallingResults(stack: seq<StackFrame>, jvm: Jvm, key: K, results: Value<T>, isAssignableFrom: AssignableFrom)
      returns (o: Outcome<Error>)
      modifies methodCache.Values
      ensures match CallingMethod(stack, jvm)
        case Failure(e) => o == Fail(e) && unchanged(methodCache.Values)
        case Success(None) => o == Fail(NoCallingMethod) && unchanged(methodCache.Values)
        case Success(Some(m)) => StoreDone(m, key, results, isAssignableFrom, o)
    {
      var caller := GetCallingMethod(stack, jvm);
      match caller
      case Failure(e) => o := Fail(e);
      case Success(None) => o := Fail(NoCallingMethod);
      case Success(Some(m)) => o := StoreResults(m, key, results, isAssignableFrom);
    }

    /** `isResultsCached(key)`: asks for the calling method. */
    method IsCallingResultsCached(stack: seq<StackFrame>, jvm: Jvm, key: K) returns (r: Result<bool, Error>)
      ensures r == match CallingMethod(stack, jvm)
        case Failure(e) => Failure(e)
        case Success(None) => Failure(NoCallingMethod)
        case Success(Some(m)) => ResultsCachedFor(m, key)
    {
      var caller := GetCallingMethod(stack, jvm);
      match caller
      case Failure(e) => r := Failure(e);
      case Success(None) => r := Failure(NoCallingMethod);
      case Success(Some(m)) => r := IsResultsCached(m, key);
    }

    /** `getResults(key)`: reads for the calling method. */
    method GetCallingResults(stack: seq<StackFrame>, jvm: Jvm, key: K) returns (r: Result<Value<T>, Error>)
      ensures r == match CallingMethod(stack, jvm)
        case Failure(e) => Failure(e)
        case Success(None) => Failure(NoCallingMethod)
        case Success(Some(m)) => ResultsFor(m, key)
    {
      var caller := GetCallingMethod(stack, jvm);
      match caller
      case Failure(e) => r := Failure(e);
      case Success(None) => r := Failure(NoCallingMethod);
      case Success(Some(m)) => r := GetResults(m, key);
    }
  }

  /**
   * The registry's contract used together, on a new registry: a first registration succeeds
   * and a second fails; a result that fits is then found under its key and no other; a result
   * that does not fit leaves the store empty; an unregistered method is refused.
   */
  method RegistrationScenario<K(==), T>(m: MethodId, other: MethodId, k1: K, k2: K, v: Value<T>, isAssignableFrom: AssignableFrom)
    returns (first: Outcome<Error>, second: Outcome<Error>, stored: Outcome<Error>,
             hit: Result<bool, Error>, miss: Result<bool, Error>, got: Result<Value<T>, Error>,
             elsewhere: Result<Value<T>, Error>)
    requires k1 != k2 && m != other
    ensures first == Pass && second == Fail(AlreadyRegistered(m))
    ensures ResultFits(m.returnType, v, isAssignableFrom) ==>
              stored == Pass && hit == Success(true) && got == Success(v)
    ensures !ResultFits(m.returnType, v, isAssignableFrom) ==>
              stored == Fail(ResultTypeMismatch(m.returnType, v.runtimeClass)) && hit == Success(false) && got == Success(Null)
    ensures miss == Success(false)
    ensures elsewhere == Failure(NotRegistered(other))
  {
    var manager := new CacheManager.NewInstance();
    var cacher := new MethodCacher<K, T>(manager);
    var store := new MapStore<K, Value<T>>();
    first := cacher.RegisterMethod(m, store);
    var another := new MapStore<K, Value<T>>();
    second := cacher.RegisterMethod(m, another);
    stored := cacher.StoreResults(m, k1, v, isAssignableFrom);
    hit := cacher.IsResultsCached(m, k1);
    miss := cacher.IsResultsCached(m, k2);
    got := cacher.GetResults(m, k1);
    elsewhere := cacher.GetResults(other, k1);
  }
}
