# Method-result cache: registry and caller resolution

This project models, in Dafny, the core of a small Java library that memoizes method
results. A process-wide registry, `MethodCacher`, maps each registered method to that
method's own result store (an `IGenericCache`), keyed by a value that stands for the call's
arguments. Each registry operation comes in two forms: one takes the method explicitly, and one
finds the calling method on the call stack. That second form takes the frame at depth 3 and
resolves it to a reflected method with `ByteCodeUtils.getMethod`. A stack frame names only the
class, the method and the line. So `getMethod` reads the class file to find the descriptor of
the method whose line-number table holds that line, then picks the public method with that
name and descriptor. This is how overloads are told apart.

Modules:

- `Wrappers` (`wrappers.dfy`): `Option`, `Result` and `Outcome`, standing for Java's null
  returns and thrown exceptions.
- `Reflection` (`reflection.dfy`): the JVM-side data. It holds the reflected method
  (`MethodId`: declaring class, name, descriptor, return type), the stack frame, and a class
  file's method records (name, descriptor, line numbers). It also holds `Jvm`, which gives
  what `Class.forName`/`getMethods()` and the class-file resources would answer.
- `ByteCodeUtils` (`byte_code_utils.dfy`): `getMethod`. This covers the resource name, the
  descriptor scan as two nested loops, and the search over public methods as a loop that
  returns early. Each part is proved against a specification function (`ResourceName`,
  `LastDescriptor`, `FirstMatch`, `Resolve`), and lemmas characterise those functions.
- `GenericCache` (`generic_cache.dfy`): the `IGenericCache` contract, as a class backed by a map.
- `MethodCaching` (`method_cacher.dfy`): the registry class with its explicit and
  stack-resolved operations, `getCallingMethod`, and the lazily created singleton with its
  cache manager.

Three behaviours of the code that a reader may not expect:

- `storeResults` checks the result's type before it checks the registration. So a mismatched
  result for an unregistered method fails with the type error.
- Nothing stops two methods from being registered with the same store object. So
  `StoreResults` promises only that stores *other than the target's store object* are
  unchanged. A method that shares the store sees the new entry too.
- `getResults` returns null both when nothing is stored and when null was stored (`Null` here).

## Model

| member | source | states |
|---|---|---|
| `GenericCache.MapStore.constructor` | src/main/java/com/blogspot/jesfre/cache/simplegeneric/SimpleCache.java:35-39 | A new store holds nothing. |
| `GenericCache.MapStore.Put` | src/main/java/com/blogspot/jesfre/cache/simplegeneric/IGenericCache.java:15-20 | `put(k, v)` inserts or overwrites the value under `k` and changes no other key. |
| `GenericCache.MapStore.Get` | src/main/java/com/blogspot/jesfre/cache/simplegeneric/IGenericCache.java:22-27 | `get(k)` returns exactly the value put under `k`, or nothing if none was put. It is a query and changes nothing. |
| `GenericCache.MapStore.ContainsKey` | src/main/java/com/blogspot/jesfre/cache/simplegeneric/IGenericCache.java:29-34 | `containsKey(k)` holds exactly when something was put under `k`. It changes nothing. |
| `GenericCache.PutThenRead` | src/main/java/com/blogspot/jesfre/cache/simplegeneric/IGenericCache.java:15-34 | After `put(k, v)`, `get(k)` returns `v` and `containsKey(k)` holds. Any other key reads as it did before. |
| `ByteCodeUtils.ReplaceChar` | src/main/java/com/blogspot/jesfre/cache/simplegeneric/util/ByteCodeUtils.java:37 | Keeps the length and replaces each occurrence of one character (here '.') by another ('/') at the same position, leaving every other character alone. |
| `ByteCodeUtils.ResourceName` | src/main/java/com/blogspot/jesfre/cache/simplegeneric/util/ByteCodeUtils.java:37 | The resource name is "/", then the class name with '.' turned into '/', then ".class". |
| `ByteCodeUtils.ResourceNameRoundTrip` | src/main/java/com/blogspot/jesfre/cache/simplegeneric/util/ByteCodeUtils.java:37 | For a class name with no '/', the class name can be read back from its resource name. |
| `ByteCodeUtils.ResourceNameInjective` | src/main/java/com/blogspot/jesfre/cache/simplegeneric/util/ByteCodeUtils.java:37 | Distinct class names (with no '/') open distinct class-file resources. |
| `ByteCodeUtils.LastDescriptorIsLastHit` | src/main/java/com/blogspot/jesfre/cache/simplegeneric/util/ByteCodeUtils.java:44-70 | The scan records no descriptor exactly when no method of the frame's name has the frame's line. Otherwise it records the descriptor of such a method that no later one follows: the last hit wins. |
| `ByteCodeUtils.VisitLineNumbers` | src/main/java/com/blogspot/jesfre/cache/simplegeneric/util/ByteCodeUtils.java:54-60 | Visiting a method's line-number table sets the reference to that method's descriptor exactly when the table holds the line. Otherwise the reference keeps its earlier value. |
| `ByteCodeUtils.ScanDescriptor` | src/main/java/com/blogspot/jesfre/cache/simplegeneric/util/ByteCodeUtils.java:44-70 | Visiting the class file's methods in order, and the line tables of only those with the frame's name, leaves the last-hit descriptor. |
| `ByteCodeUtils.FirstMatchIsFirstHit` | src/main/java/com/blogspot/jesfre/cache/simplegeneric/util/ByteCodeUtils.java:76-82 | The search finds nothing exactly when no public method has both the name and the descriptor. Otherwise it finds the first such method in `getMethods()` order, and both equalities hold for it. |
| `ByteCodeUtils.FindMethod` | src/main/java/com/blogspot/jesfre/cache/simplegeneric/util/ByteCodeUtils.java:76-82 | The loop over `getMethods()` that returns early yields that first matching method, or nothing. |
| `ByteCodeUtils.GetMethod` | src/main/java/com/blogspot/jesfre/cache/simplegeneric/util/ByteCodeUtils.java:28-83 | `getMethod` returns what `Resolve` specifies: class loading, then the resource check, then the scan, then the search. |
| `ByteCodeUtils.ResolvedMethodMatchesFrame` | src/main/java/com/blogspot/jesfre/cache/simplegeneric/util/ByteCodeUtils.java:70-80 | A resolved method is a public method of the frame's class with the frame's name. Its descriptor is that of the last class-file method of that name holding the frame's line, and no earlier public method matches both. |
| `ByteCodeUtils.ResolveFailures` | src/main/java/com/blogspot/jesfre/cache/simplegeneric/util/ByteCodeUtils.java:28-83 | Each failure is tied to its cause, both ways. Class not loadable: class not found. Class loads but its resource is missing: failure before any scan. No method of that name holds the line: line not found. The descriptor is found but no public method matches: method not found. |
| `ByteCodeUtils.OverloadsResolveApart` | src/main/java/com/blogspot/jesfre/cache/simplegeneric/util/ByteCodeUtils.java:44-80 | Two frames of one class whose lines lie in methods with different descriptors never resolve to the same method. |
| `ByteCodeUtils.OverloadedFramesResolveToTheirOwnOverload` | src/main/java/com/blogspot/jesfre/cache/simplegeneric/util/ByteCodeUtils.java:28-83 | With overloads `find(String)` and `find(int)`, a frame at a line of each resolves to that overload. A line in neither fails with line not found. |
| `MethodCaching.GetCallingMethod` | src/main/java/com/blogspot/jesfre/cache/simplegeneric/MethodCacher.java:181-199 | Yields what `CallingMethod` specifies: no method for a stack of at most 3 frames. Otherwise it resolves frame 3, with any failure rethrown as "cannot find the calling method". |
| `MethodCaching.CallingMethodReadsCallerFrame` | src/main/java/com/blogspot/jesfre/cache/simplegeneric/MethodCacher.java:184-197 | No method exactly when the stack has at most 3 frames. Failure exactly when frame 3 exists and does not resolve. A found method is a public method of frame 3's class with frame 3's method name. |
| `MethodCaching.CacheManager.NewInstance` | src/main/java/com/blogspot/jesfre/cache/simplegeneric/MethodCacher.java:41-43 | A new cache manager holds no caches. |
| `MethodCaching.CacheManager.AddCache` | src/main/java/com/blogspot/jesfre/cache/simplegeneric/MethodCacher.java:31-32 | Adding a cache adds its name to the manager. |
| `MethodCaching.Statics.constructor` | src/main/java/com/blogspot/jesfre/cache/simplegeneric/MethodCacher.java:19-20 | Before the first `getInstance`, there is neither a registry nor a cache manager. |
| `MethodCaching.Statics.GetInstance` | src/main/java/com/blogspot/jesfre/cache/simplegeneric/MethodCacher.java:39-47 | The first call creates an empty registry. It creates a cache manager only if none exists, and adds the registry's cache to that manager. Later calls return the stored instance and change nothing. |
| `MethodCaching.SameInstanceEveryCall` | src/main/java/com/blogspot/jesfre/cache/simplegeneric/MethodCacher.java:39-47 | Two calls of `getInstance` return the same registry, and an existing instance is never replaced. |
| `MethodCaching.MethodCacher.constructor` | src/main/java/com/blogspot/jesfre/cache/simplegeneric/MethodCacher.java:29-33 | A new registry has no registered method, and its cache is added to the manager under the reserved name. |
| `MethodCaching.MethodCacher.IsMethodCached` | src/main/java/com/blogspot/jesfre/cache/simplegeneric/MethodCacher.java:86-89 | Holds exactly for the registered methods; it reads the registry and changes nothing. Its partner is `RegisterMethod`, after which it holds for the registered method. |
| `MethodCaching.MethodCacher.RegisterMethod` | src/main/java/com/blogspot/jesfre/cache/simplegeneric/MethodCacher.java:63-70 | Registering an already registered method fails, and the existing entry and every store stay unchanged. Otherwise the method is now registered with exactly the given store. Either way `isMethodCached` (lines 86-89) holds afterwards. |
| `MethodCaching.MethodCacher.StoreResults` | src/main/java/com/blogspot/jesfre/cache/simplegeneric/MethodCacher.java:107-120 | A non-null result that the return type does not admit is refused first, even for an unregistered method, and nothing changes. A null result always passes the type check. Then an unregistered method is refused. Otherwise only the method's store changes, and only at the key. `isResultsCached` then holds and `getResults` returns the value. The registry and every other store object are unchanged. |
| `MethodCaching.MethodCacher.IsResultsCached` | src/main/java/com/blogspot/jesfre/cache/simplegeneric/MethodCacher.java:138-147 | Fails with "not registered" for an unregistered method. Otherwise it answers whether that method's store holds the key. |
| `MethodCaching.MethodCacher.GetResults` | src/main/java/com/blogspot/jesfre/cache/simplegeneric/MethodCacher.java:166-176 | Fails with "not registered" for an unregistered method. Otherwise it returns the value stored under the key, or null. |
| `MethodCaching.MethodCacher.RegisterCallingMethod` | src/main/java/com/blogspot/jesfre/cache/simplegeneric/MethodCacher.java:53-56 | A resolution failure is passed on with nothing changed. With no calling method, nothing changes. Otherwise it has exactly the effect of `registerMethod` for the resolved method. |
| `MethodCaching.MethodCacher.IsCachedMethod` | src/main/java/com/blogspot/jesfre/cache/simplegeneric/MethodCacher.java:76-79 | A resolution failure is passed on. With no calling method the answer is false. Otherwise it answers whether the resolved method is registered. |
| `MethodCaching.MethodCacher.StoreCallingResults` | src/main/java/com/blogspot/jesfre/cache/simplegeneric/MethodCacher.java:96-99 | A resolution failure is passed on, and so is a missing calling method (null dereferenced), each with every store unchanged. Otherwise it has exactly the effect of `storeResults` for the resolved method. |
| `MethodCaching.MethodCacher.IsCallingResultsCached` | src/main/java/com/blogspot/jesfre/cache/simplegeneric/MethodCacher.java:127-130 | A resolution failure is passed on, and a missing calling method fails. Otherwise it answers what `isResultsCached` answers for the resolved method. |
| `MethodCaching.MethodCacher.GetCallingResults` | src/main/java/com/blogspot/jesfre/cache/simplegeneric/MethodCacher.java:155-158 | A resolution failure is passed on, and a missing calling method fails. Otherwise it answers what `getResults` answers for the resolved method. |
| `MethodCaching.RegistrationScenario` | src/main/java/com/blogspot/jesfre/cache/simplegeneric/MethodCacher.java:63-176 | On a new registry, a first registration succeeds and a second fails. A fitting result is then cached under its key and returned, and another key is not cached. A non-fitting result is refused and leaves the store empty. An unregistered method fails with "not registered". |

## Left out

- The registry's internal cache limits (at most 1000 elements, time-to-live and time-to-idle of 86400 s, MethodCacher.java:21-23, 31) are not modelled. Eviction and expiry belong to the external cache library and depend on time. The registry is an unbounded map that never loses an entry.
- SimpleCache, the store that delegates to the cache library, is replaced by `MapStore`, a map-backed implementation of the same contract. Its eviction, its `removeAll`, its default configuration and its re-registration of a removed cache are not modelled.
- `Thread.getStackTrace` is a parameter: the stack as seen from inside the resolution, innermost frame first.
- `Class.forName`, `getResourceAsStream`, the bytecode reader and `Type.getMethodDescriptor` are not modelled. In their place the `Jvm` parameter gives each loadable class's `getMethods()` (in the JVM's order) and each readable class file as method records; a descriptor is an opaque string.
- A class file that the reader cannot parse, an I/O error while reading it, and the closing of the stream are I/O and are not modelled.
- `Class.isAssignableFrom` is a function parameter of `StoreResults`, with no properties assumed.
- Each registry holds one key type and one value type. The Java registry holds stores of arbitrary generic types, through unchecked casts.
- The explicit forms are modelled for a non-null method only; a client passing null to them directly is not modelled. In the stack-resolved forms the calling method is null when the stack is too short, and the model covers what then happens. Registration does nothing and `isCachedMethod` is false, because the cache library ignores a null key on put and reports it absent. The other forms fail, because the null method is dereferenced.
- GenericCache.MapStore.Put: does not refuse a null key. The store is generic in its key type, and that type may be a nullable reference type, so the "key cannot be null" requirement of `IGenericCache.put` is not enforced.
- MethodCaching.MethodCacher.RegisterMethod: takes only a non-null store. Java accepts `registerMethod(method, null)`, and the later store and read calls for that method then throw a NullPointerException; that path is not modelled.
- MethodCaching.CacheManager.NewInstance: assumes `CacheManager.newInstance()` returns a fresh manager holding no caches. That call is library code; a library version that returns an existing shared manager, possibly already holding other caches, is not modelled, so `GetInstance`'s promise of a fresh manager holding only the registry's cache rests on this assumption.
- A cache manager refuses a second cache of the same name. That case, and the manager's other services, are not modelled.
- Concurrency is not modelled: the unsynchronised lazy creation of the singleton, and thread safety of the stores.
- Exception messages are not modelled; errors are distinguished only by kind.
