# SandboxResolvingClassLoader, modelled in Dafny

This project models the lookup front of `SandboxResolvingClassLoader`, the class loader that
the GoCD Groovy DSL config-repo plugin puts in front of the loader it hands to `GroovyShell`.
It does two jobs:

- **Bypass.** A class name that starts with `org.kohsuke.groovy.sandbox.` is loaded by the
  plugin's own loader. That way, scripts see the plugin's copy of groovy-sandbox.
- **Memoization.** Every other class lookup, and every resource lookup, goes to the parent
  loader through a two-level memo table:
  - the outer table is keyed by parent-loader identity;
  - each inner table is keyed by name;
  - each entry expires 15 minutes after it was written.

A parent that reports "class not found" is remembered with the sentinel `CLASS_NOT_FOUND`.
The loader turns the sentinel back into a `ClassNotFoundException` for the caller. A missing
resource is remembered as an empty `Optional` and returned as `null`.

Files:

- `loading.dfy` (module `Loading`): value types. Class objects, loaders and URLs are opaque
  identities. A Java call is modelled as an `Outcome`: it returns a value or throws a `Throwable`.
- `parent_cache.dfy` (module `ParentCache`):
  - the memo table as a pure step function, `LoadStep`, with `Cached` saying which entry is live;
  - `Replay`, which runs a sequence of lookups of one key, and lemmas about such runs;
  - the class `TwoLevelCache`, whose `Load` method updates the table in place and is proved
    against `LoadStep`.
- `sandbox_resolving.dfy` (module `SandboxResolving`):
  - the prefix test, the sentinel translation and the `Optional`/`null` conversions, as functions;
  - the step functions `LoadClassStep` and `GetResourceStep`, with lemmas about successive calls;
  - the classes `ParentCaches` (the two static tables) and `SandboxResolvingClassLoader`, whose
    `LoadClass` and `GetResource` methods are proved against the step functions.

Modelling choices:

- The clock is an explicit `now` parameter, in the nanoseconds of the cache's ticker. An entry
  written at `w` is expired at `now` exactly when `now - w >= 15 minutes`. Reads never extend
  an entry's life.
- A lookup reads the ticker twice: at `now`, to decide whether a live entry answers, and at
  `storedAt`, once the computation has returned. A computed value is written with `storedAt`,
  as the Guava cache does, so a slow parent call starts the 15 minutes when it finishes.
- The parent loader and the plugin's own loader are function parameters, read at the moment
  of each call. This lets the parent gain a class between two calls.
- Each table keeps a ghost counter, `computations`. It counts the runs of the computation,
  which are the calls to the parent. Each loader keeps a ghost log, `resolved`, of the classes
  handed to `resolveClass`.
- The sentinel is kept the way the code keeps it: the class table stores class identities, and
  `ClassNotFound` is one distinguished identity that the loader compares by identity.
- After a failed computation the key is left with no entry. This holds even when an expired
  entry was there before, which is how the Guava cache behaves.
- The outer table creates an empty inner table the first time a parent is seen. It keeps that
  table even when the computation then fails.

## Model

| member | source | states |
|---|---|---|
| `ParentCache.Cached` | sandbox/src/main/java/cd/go/contrib/plugins/configrepo/groovy/sandbox/SandboxResolvingClassLoader.java:132-137 | a key is answered from the table exactly when it has an entry that has not reached 15 minutes since its write, and then with that entry's value |
| `ParentCache.LoadStep` | sandbox/src/main/java/cd/go/contrib/plugins/configrepo/groovy/sandbox/SandboxResolvingClassLoader.java:103-124 | get-or-compute: the computation runs iff no live entry exists; a hit returns the stored value and leaves the tables unchanged; a computed value is returned and written with the time the computation returned (`storedAt`); a failure is returned wrapped and leaves no entry; no other (parent, name) entry changes |
| `ParentCache.WrittenEntryLifetime` | sandbox/src/main/java/cd/go/contrib/plugins/configrepo/groovy/sandbox/SandboxResolvingClassLoader.java:132-137 | a computed entry answers every lookup before `storedAt + 15 min`, counted from when the computation returned, and none at or after it |
| `ParentCache.FailureIsRetried` | sandbox/src/main/java/cd/go/contrib/plugins/configrepo/groovy/sandbox/SandboxResolvingClassLoader.java:105-123 | a failed computation surfaces wrapped, and the next lookup of the same key, at any time, computes again |
| `ParentCache.LoadIsolatesKeys` | sandbox/src/main/java/cd/go/contrib/plugins/configrepo/groovy/sandbox/SandboxResolvingClassLoader.java:142-146 | a lookup through one parent for one name never changes the answer for another name or another parent |
| `ParentCache.Replay` | sandbox/src/main/java/cd/go/contrib/plugins/configrepo/groovy/sandbox/SandboxResolvingClassLoader.java:106 | threads the table through one lookup per request: n lookups give n results and compute at most n times, at least once when the first finds no live entry, and leave every other (parent, name) entry as it was (what a run answers is stated by the three lemmas below) |
| `ParentCache.HitsWhileLive` | sandbox/src/main/java/cd/go/contrib/plugins/configrepo/groovy/sandbox/SandboxResolvingClassLoader.java:132-137 | while a stored entry is unexpired, any number of lookups return its value, never compute and leave the tables unchanged |
| `ParentCache.ComputedOnceWithinWindow` | sandbox/src/main/java/cd/go/contrib/plugins/configrepo/groovy/sandbox/SandboxResolvingClassLoader.java:106-120 | repeated lookups of an uncached key, the later ones within 15 minutes of the first computation's return, compute exactly once, and every caller gets the first computation's value, whatever the parent would answer later |
| `ParentCache.RecomputedAfterExpiry` | sandbox/src/main/java/cd/go/contrib/plugins/configrepo/groovy/sandbox/SandboxResolvingClassLoader.java:132-137 | in such a run, the first lookup at or after the first computation's return plus 15 minutes computes again and returns the new value |
| `ParentCache.ExpiryAfterHits` | sandbox/src/main/java/cd/go/contrib/plugins/configrepo/groovy/sandbox/SandboxResolvingClassLoader.java:137 | after hits on a live entry, the first lookup at or after its expiry computes and returns the fresh value |
| `ParentCache.TwoLevelCache.constructor` | sandbox/src/main/java/cd/go/contrib/plugins/configrepo/groovy/sandbox/SandboxResolvingClassLoader.java:126-147 | a new cache has no entries and records whether its inner values are weak |
| `ParentCache.TwoLevelCache.Load` | sandbox/src/main/java/cd/go/contrib/plugins/configrepo/groovy/sandbox/SandboxResolvingClassLoader.java:103-124 | the in-place get-or-compute: new table, result and computation count exactly as `LoadStep` says; the supplier is called only on a miss |
| `ParentCache.TwoLevelCache.ReclaimParent` | sandbox/src/main/java/cd/go/contrib/plugins/configrepo/groovy/sandbox/SandboxResolvingClassLoader.java:129 | weak outer keys: a parent's whole inner table may vanish, after which every lookup through that parent computes afresh |
| `ParentCache.TwoLevelCache.ReclaimValue` | sandbox/src/main/java/cd/go/contrib/plugins/configrepo/groovy/sandbox/SandboxResolvingClassLoader.java:138-140 | weak inner values: only in a weak-valued cache, and never for a strongly held value such as the sentinel, an entry may vanish |
| `SandboxResolving.IsSandboxClass` | sandbox/src/main/java/cd/go/contrib/plugins/configrepo/groovy/sandbox/SandboxResolvingClassLoader.java:69 | true exactly when the name begins with `org.kohsuke.groovy.sandbox.` |
| `SandboxResolving.ClassSupplier` | sandbox/src/main/java/cd/go/contrib/plugins/configrepo/groovy/sandbox/SandboxResolvingClassLoader.java:73-79 | a `ClassNotFoundException` from the parent becomes the sentinel; any returned class or other failure passes unchanged, so only not-found becomes a cacheable value |
| `SandboxResolving.ToCaller` | sandbox/src/main/java/cd/go/contrib/plugins/configrepo/groovy/sandbox/SandboxResolvingClassLoader.java:80-91 | the sentinel is never returned: it becomes `ClassNotFoundException(name)`, and any other class is returned unchanged |
| `SandboxResolving.SentinelRoundTrip` | sandbox/src/main/java/cd/go/contrib/plugins/configrepo/groovy/sandbox/SandboxResolvingClassLoader.java:73-91 | catching not-found into the sentinel and translating it back gives the loader's answer on a miss (`MissAnswer`): a returned class as `ToCaller` hands it out (so even a parent returning the sentinel object yields not-found), `ClassNotFoundException` naming the requested class (the parent's own exception and its message are replaced), any other failure wrapped by the table |
| `SandboxResolving.LoadClassStep` | sandbox/src/main/java/cd/go/contrib/plugins/configrepo/groovy/sandbox/SandboxResolvingClassLoader.java:68-94 | sandbox names: own loader's answer, table untouched, parent not asked; other names: the sentinel never escapes, the parent is asked iff there is no live entry, a hit answers from the table and leaves it unchanged, a miss answers exactly as `MissAnswer` says and stores the class or the sentinel with write time `storedAt`, when the parent's answer is back (a fault stores nothing), no other (parent, name) entry changes, and `resolveClass` applies only to a real class when `resolve` is true |
| `SandboxResolving.NotFoundIsCached` | sandbox/src/main/java/cd/go/contrib/plugins/configrepo/groovy/sandbox/SandboxResolvingClassLoader.java:73-106 | a not-found class is asked for once; within 15 minutes a second lookup gets `ClassNotFoundException` without asking the parent, even if the parent now has the class |
| `SandboxResolving.FoundClassIsCached` | sandbox/src/main/java/cd/go/contrib/plugins/configrepo/groovy/sandbox/SandboxResolvingClassLoader.java:73-106 | a class the parent returns is asked for once; within 15 minutes a second lookup gets the same class from the table without asking the parent, whatever the parent would answer then |
| `SandboxResolving.FoundAfterExpiry` | sandbox/src/main/java/cd/go/contrib/plugins/configrepo/groovy/sandbox/SandboxResolvingClassLoader.java:132-137 | after the negative entry expires, a class the parent has gained is asked for and returned |
| `SandboxResolving.FaultIsNotCached` | sandbox/src/main/java/cd/go/contrib/plugins/configrepo/groovy/sandbox/SandboxResolvingClassLoader.java:74-122 | a parent failure other than not-found reaches the caller wrapped, is not resolved, and an immediate retry asks the parent again |
| `SandboxResolving.OfNullable` | sandbox/src/main/java/cd/go/contrib/plugins/configrepo/groovy/sandbox/SandboxResolvingClassLoader.java:99 | `Optional.ofNullable`: empty exactly for null, otherwise the URL itself |
| `SandboxResolving.OrElseNull` | sandbox/src/main/java/cd/go/contrib/plugins/configrepo/groovy/sandbox/SandboxResolvingClassLoader.java:99 | `orElse(null)`: null exactly for empty, and the inverse of `OfNullable` |
| `SandboxResolving.ResourceSupplier` | sandbox/src/main/java/cd/go/contrib/plugins/configrepo/groovy/sandbox/SandboxResolvingClassLoader.java:99 | the parent's resource answer wrapped in an Optional, null included, and recoverable by `OrElseNull`; a failure passes unchanged |
| `SandboxResolving.GetResourceStep` | sandbox/src/main/java/cd/go/contrib/plugins/configrepo/groovy/sandbox/SandboxResolvingClassLoader.java:96-100 | the parent is asked iff there is no live entry; a hit returns the stored Optional as a nullable URL; a miss returns exactly the parent's answer, null included, and stores it as an Optional with write time `storedAt`; a failure is wrapped and not stored; no other (parent, name) entry changes |
| `SandboxResolving.AbsentResourceIsCached` | sandbox/src/main/java/cd/go/contrib/plugins/configrepo/groovy/sandbox/SandboxResolvingClassLoader.java:97-100 | a missing resource is null on the first lookup and again, within 15 minutes, from the table without asking the parent and without changing it |
| `SandboxResolving.FoundResourceIsCached` | sandbox/src/main/java/cd/go/contrib/plugins/configrepo/groovy/sandbox/SandboxResolvingClassLoader.java:97-100 | a resource the parent has is returned on the first lookup and, within 15 minutes, again from the table without asking the parent |
| `SandboxResolving.ParentCaches.constructor` | sandbox/src/main/java/cd/go/contrib/plugins/configrepo/groovy/sandbox/SandboxResolvingClassLoader.java:46-48 | two distinct empty tables with no parent calls counted yet: classes with weak values but the sentinel strongly held, resources with strong values |
| `SandboxResolving.SandboxResolvingClassLoader.constructor` | sandbox/src/main/java/cd/go/contrib/plugins/configrepo/groovy/sandbox/SandboxResolvingClassLoader.java:50-52 | a loader records its parent and shares the given tables |
| `SandboxResolving.SandboxResolvingClassLoader.LoadClass` | sandbox/src/main/java/cd/go/contrib/plugins/configrepo/groovy/sandbox/SandboxResolvingClassLoader.java:67-94 | result, new class table, parent-call count and `resolveClass` log exactly as `LoadClassStep` says; the resource table is untouched |
| `SandboxResolving.SandboxResolvingClassLoader.GetResource` | sandbox/src/main/java/cd/go/contrib/plugins/configrepo/groovy/sandbox/SandboxResolvingClassLoader.java:96-100 | result, new resource table and parent-call count exactly as `GetResourceStep` says; the class table is untouched |

## Left out

- Garbage collection is not modelled. Weak outer keys and weak class values appear only as the
  explicit reclamation methods `ReclaimParent` and `ReclaimValue`. Reachability cannot be
  expressed, so nothing decides when they run.
- Concurrency is not modelled: the `synchronized` on `loadClass` and the cache's coalescing of
  concurrent computations of one key. The model is sequential.
- The diagnostics are not modelled: thread renaming, `System.nanoTime` timing and the log line
  for loads slower than one second (lines 107-118). They have no functional effect.
- Guava's statistics recording and the commented-out Caffeine builder are not modelled.
- Guava may remove other keys' expired entries during a lookup. The model keeps them until their
  own key is looked up. No lookup can tell the difference, because an expired entry never
  answers.
- Real class loading is not modelled. `super.resolveClass` (linking) is recorded in a ghost log,
  not performed. Class objects and URLs are opaque identities.
- The stack-trace suppression of the thrown `ClassNotFoundException` (lines 86-91) has no
  observable value and is not modelled.
- Null parents and null classes are not modelled: `LoaderId` and `ClassRef` cannot be null.
  With a null parent (the bootstrap loader, accepted by the constructor at lines 50-52),
  `cache.get(parentLoader)` at line 106 throws `NullPointerException` on every non-sandbox
  `loadClass` and every `getResource`, so `getResource` never falls back to the bootstrap
  loader. A parent whose `loadClass` returns null makes the cache refuse the null value with an
  exception and store nothing.
- Failures are not classified by wrapper type. A failing computation reaches the caller as
  `Wrapped(cause)`. In Guava that is an `UncheckedExecutionException` or an `ExecutionError`;
  the `RuntimeException` of line 122 would wrap a checked exception, which a `Supplier` cannot
  throw.
