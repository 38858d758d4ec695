/** SandboxResolvingClassLoader: class names of groovy-sandbox resolve from the plugin's
    own loader; every other class lookup, and every resource lookup, goes to the parent
    loader through the shared memo tables, with negative caching. */
module SandboxResolving {
  import opened Loading
  import opened ParentCache

  /** Class names with this prefix belong to the plugin's own copy of groovy-sandbox. */
  const SandboxPrefix: string := "org.kohsuke.groovy.sandbox."

  /** CLASS_NOT_FOUND: the class object of a private nested class that no script loads,
      stored in the class table to record that the parent found nothing. */
  const ClassNotFound: ClassRef := ClassRef(0)

  /** The prefix test of `loadClass`. */
  function IsSandboxClass(name: Name): (b: bool)
    ensures b <==> |SandboxPrefix| <= |name| && name[..|SandboxPrefix|] == SandboxPrefix
  {
    SandboxPrefix <= name
  }

  /** The computation run on a miss: ask the parent; a ClassNotFoundException becomes
      the sentinel, anything else the parent returns or throws passes unchanged. */
  function ClassSupplier(parentAnswer: Outcome<ClassRef>): (r: Outcome<ClassRef>)
    ensures r.Threw? ==> r == parentAnswer && !r.thrown.ClassNotFoundException?
    ensures parentAnswer.Threw? && !parentAnswer.thrown.ClassNotFoundException? ==> r == parentAnswer
    ensures parentAnswer.Returned? ==> r == parentAnswer
    ensures parentAnswer.Threw? && parentAnswer.thrown.ClassNotFoundException? ==> r == Returned(ClassNotFound)
  {
    match parentAnswer
    case Threw(ClassNotFoundException(_)) => Returned(ClassNotFound)
    case _ => parentAnswer
  }

  /** What the caller of `loadClass` gets for a class taken from the table: the
      sentinel becomes a ClassNotFoundException naming the class, any other class is
      returned as it is. */
  function ToCaller(name: Name, c: ClassRef): (r: Outcome<ClassRef>)
    ensures r != Returned(ClassNotFound)
    ensures r.Returned? <==> c != ClassNotFound
    ensures r.Returned? ==> r.value == c
    ensures r.Threw? ==> r.thrown == ClassNotFoundException(name)
  {
    if c != ClassNotFound then Returned(c) else Threw(ClassNotFoundException(name))
  }

  /** The loader's answer when the table has no live entry: the class the parent
      returns, as `ToCaller` hands out any class; ClassNotFoundException naming the
      requested class, whatever message the parent's own exception carried; or any
      other failure, wrapped as the table wraps a failed computation. */
  function MissAnswer(name: Name, parentAnswer: Outcome<ClassRef>): Outcome<ClassRef>
  {
    match parentAnswer
    case Returned(c) => ToCaller(name, c)
    case Threw(ClassNotFoundException(_)) => Threw(ClassNotFoundException(name))
    case Threw(e) => Threw(Wrapped(e))
  }

  /** Catching not-found into the sentinel and turning the sentinel back into
      not-found gives the caller, on a miss, the answer `MissAnswer` describes: a
      returned class comes back as `ToCaller` gives it and only the not-found case is
      cached. */
  lemma SentinelRoundTrip(name: Name, parentAnswer: Outcome<ClassRef>)
    ensures ClassSupplier(parentAnswer).Returned? ==>
              ToCaller(name, ClassSupplier(parentAnswer).value) == MissAnswer(name, parentAnswer)
    ensures ClassSupplier(parentAnswer).Threw? ==>
              Threw(Wrapped(ClassSupplier(parentAnswer).thrown)) == MissAnswer(name, parentAnswer)
  {
  }

  /** The effect of one `loadClass`: the new class table, what the caller sees, whether
      the parent was asked, and the class handed to `resolveClass`, if any. */
  datatype ClassLookup = ClassLookup(classes: Outer<ClassRef>, result: Outcome<ClassRef>,
                                     parentCalled: bool, resolved: Option<ClassRef>)

  /** `loadClass(name, resolve)` at time `now` for a loader whose parent is `parent`;
      `ownAnswer` and `parentAnswer` are what the plugin's own loader and the parent
      answer for `name` at that time, and `storedAt` is when the parent's answer is
      back. */
  function LoadClassStep(classes: Outer<ClassRef>, parent: LoaderId, name: Name, resolve: bool,
                         now: int, storedAt: int,
                         ownAnswer: Outcome<ClassRef>, parentAnswer: Outcome<ClassRef>): (l: ClassLookup)
    // The groovy-sandbox names: the own loader decides, the table is not read or written.
    ensures IsSandboxClass(name) ==>
              l.result == ownAnswer && l.classes == classes && !l.parentCalled && l.resolved.None?
    // Every other name: the sentinel never reaches the caller.
    ensures !IsSandboxClass(name) ==> l.result != Returned(ClassNotFound)
    ensures !IsSandboxClass(name) ==> (l.parentCalled <==> Cached(classes, parent, name, now).None?)
    // A hit answers from the table, as if the stored value had just been computed.
    ensures !IsSandboxClass(name) && !l.parentCalled ==>
              l.classes == classes && l.result == ToCaller(name, Cached(classes, parent, name, now).value)
    // A miss: the loader's answer on a miss.
    ensures !IsSandboxClass(name) && l.parentCalled ==> l.result == MissAnswer(name, parentAnswer)
    // A miss stores the class or the sentinel with write time `storedAt`; a fault stores nothing.
    ensures !IsSandboxClass(name) && l.parentCalled ==>
              EntryAt(l.classes, parent, name) ==
                if ClassSupplier(parentAnswer).Returned? then Some(Entry(ClassSupplier(parentAnswer).value, storedAt))
                else None
    // No other (parent, name) entry changes; the parent's inner table exists afterwards.
    ensures forall q, m {:trigger EntryAt(l.classes, q, m)} ::
              q != parent || m != name ==> EntryAt(l.classes, q, m) == EntryAt(classes, q, m)
    ensures !IsSandboxClass(name) ==> l.classes.Keys == classes.Keys + {parent}
    // resolveClass is applied only to a real class, and only when asked for.
    ensures l.resolved.Some? <==> !IsSandboxClass(name) && resolve && l.result.Returned?
    ensures l.resolved.Some? ==> l.result == Returned(l.resolved.value)
  {
    if IsSandboxClass(name) then
      ClassLookup(classes, ownAnswer, false, None)
    else
      var s := LoadStep(classes, parent, name, now, storedAt, ClassSupplier(parentAnswer));
      match s.result
      case Threw(e) => ClassLookup(s.outer, Threw(e), s.computed, None)
      case Returned(c) =>
        var r := ToCaller(name, c);
        ClassLookup(s.outer, r, s.computed, if resolve && r.Returned? then Some(c) else None)
  }

  /** A class the parent does not have is asked for once: until the entry expires,
      later lookups get ClassNotFoundException from the table, even if the parent has
      gained the class meanwhile. */
  lemma NotFoundIsCached(classes: Outer<ClassRef>, parent: LoaderId, name: Name, resolve: bool, now: int, storedAt: int,
                         ownAnswer: Outcome<ClassRef>, missing: Throwable,
                         later: int, laterStoredAt: int,
                         resolve2: bool, ownAnswer2: Outcome<ClassRef>, parentAnswer2: Outcome<ClassRef>)
    requires !IsSandboxClass(name) && missing.ClassNotFoundException?
    requires Cached(classes, parent, name, now).None?
    requires storedAt <= later < storedAt + ExpireAfterWrite
    ensures var first := LoadClassStep(classes, parent, name, resolve, now, storedAt, ownAnswer, Threw(missing));
            var second := LoadClassStep(first.classes, parent, name, resolve2, later, laterStoredAt, ownAnswer2, parentAnswer2);
            first.parentCalled && first.result == Threw(ClassNotFoundException(name)) &&
            !second.parentCalled && second.result == Threw(ClassNotFoundException(name)) &&
            second.classes == first.classes
  {
  }

  /** A class the parent returns is stored: until the entry expires, later lookups
      get the same class from the table without asking the parent, whatever the
      parent would answer then. */
  lemma FoundClassIsCached(classes: Outer<ClassRef>, parent: LoaderId, name: Name, resolve: bool, now: int, storedAt: int,
                           ownAnswer: Outcome<ClassRef>, c: ClassRef,
                           later: int, laterStoredAt: int,
                           resolve2: bool, ownAnswer2: Outcome<ClassRef>, parentAnswer2: Outcome<ClassRef>)
    requires !IsSandboxClass(name) && c != ClassNotFound
    requires Cached(classes, parent, name, now).None?
    requires storedAt <= later < storedAt + ExpireAfterWrite
    ensures var first := LoadClassStep(classes, parent, name, resolve, now, storedAt, ownAnswer, Returned(c));
            var second := LoadClassStep(first.classes, parent, name, resolve2, later, laterStoredAt, ownAnswer2, parentAnswer2);
            first.parentCalled && first.result == Returned(c) &&
            !second.parentCalled && second.result == Returned(c) &&
            second.classes == first.classes
  {
  }

  /** Once the negative entry has expired, a class the parent has gained meanwhile is
      found. */
  lemma FoundAfterExpiry(classes: Outer<ClassRef>, parent: LoaderId, name: Name, resolve: bool, now: int, storedAt: int,
                         ownAnswer: Outcome<ClassRef>, missing: Throwable,
                         later: int, laterStoredAt: int,
                         resolve2: bool, ownAnswer2: Outcome<ClassRef>, c: ClassRef)
    requires !IsSandboxClass(name) && missing.ClassNotFoundException? && c != ClassNotFound
    requires Cached(classes, parent, name, now).None?
    requires later >= storedAt + ExpireAfterWrite
    ensures var first := LoadClassStep(classes, parent, name, resolve, now, storedAt, ownAnswer, Threw(missing));
            var second := LoadClassStep(first.classes, parent, name, resolve2, later, laterStoredAt, ownAnswer2, Returned(c));
            first.result == Threw(ClassNotFoundException(name)) &&
            second.parentCalled && second.result == Returned(c)
  {
  }

  /** A failure of the parent other than not-found reaches the caller wrapped and is
      not remembered: an immediate retry asks the parent again. */
  lemma FaultIsNotCached(classes: Outer<ClassRef>, parent: LoaderId, name: Name, resolve: bool, now: int, storedAt: int,
                         ownAnswer: Outcome<ClassRef>, fault: Throwable,
                         later: int, laterStoredAt: int,
                         resolve2: bool, ownAnswer2: Outcome<ClassRef>, parentAnswer2: Outcome<ClassRef>)
    requires !IsSandboxClass(name) && !fault.ClassNotFoundException?
    requires Cached(classes, parent, name, now).None?
    ensures var first := LoadClassStep(classes, parent, name, resolve, now, storedAt, ownAnswer, Threw(fault));
            var second := LoadClassStep(first.classes, parent, name, resolve2, later, laterStoredAt, ownAnswer2, parentAnswer2);
            first.result == Threw(Wrapped(fault)) && first.resolved.None? &&
            second.parentCalled
  {
  }

  /** `Optional.ofNullable`. */
  function OfNullable(u: NullableUrl): (o: Option<Url>)
    ensures o.Some? <==> u.NonNull?
    ensures o.Some? ==> o.value == u.url
  {
    match u
    case Null => None
    case NonNull(url) => Some(url)
  }

  /** `Optional.orElse(null)`, the inverse of `OfNullable`. */
  function OrElseNull(o: Option<Url>): (u: NullableUrl)
    ensures OfNullable(u) == o
    ensures u.Null? <==> o.None?
  {
    match o
    case None => Null
    case Some(url) => NonNull(url)
  }

  /** The computation run on a resource miss: the parent's answer, wrapped in an
      Optional, so that absence is an ordinary cached value. */
  function ResourceSupplier(parentAnswer: Outcome<NullableUrl>): (r: Outcome<Option<Url>>)
    ensures r.Returned? <==> parentAnswer.Returned?
    ensures r.Returned? ==> OrElseNull(r.value) == parentAnswer.value
    ensures r.Threw? ==> r.thrown == parentAnswer.thrown
  {
    match parentAnswer
    case Returned(u) => Returned(OfNullable(u))
    case Threw(e) => Threw(e)
  }

  /** The effect of one `getResource`: the new resource table, what the caller sees and
      whether the parent was asked. */
  datatype ResourceLookup = ResourceLookup(resources: Outer<Option<Url>>, result: Outcome<NullableUrl>, parentCalled: bool)

  /** `getResource(name)` at time `now`; `parentAnswer` is what the parent answers then,
      and `storedAt` is when that answer is back. */
  function GetResourceStep(resources: Outer<Option<Url>>, parent: LoaderId, name: Name, now: int, storedAt: int,
                           parentAnswer: Outcome<NullableUrl>): (l: ResourceLookup)
    ensures l.parentCalled <==> Cached(resources, parent, name, now).None?
    // A hit: the stored Optional, as a possibly-null URL, and the table unchanged.
    ensures !l.parentCalled ==>
              l.resources == resources && l.result == Returned(OrElseNull(Cached(resources, parent, name, now).value))
    // A miss: exactly the parent's answer, a null included; a failure arrives wrapped.
    ensures l.parentCalled && parentAnswer.Returned? ==>
              l.result == parentAnswer &&
              EntryAt(l.resources, parent, name) == Some(Entry(OfNullable(parentAnswer.value), storedAt))
    ensures l.parentCalled && parentAnswer.Threw? ==>
              l.result == Threw(Wrapped(parentAnswer.thrown)) && EntryAt(l.resources, parent, name).None?
    // No other (parent, name) entry changes; the parent's inner table exists afterwards.
    ensures forall q, m {:trigger EntryAt(l.resources, q, m)} ::
              q != parent || m != name ==> EntryAt(l.resources, q, m) == EntryAt(resources, q, m)
    ensures l.resources.Keys == resources.Keys + {parent}
  {
    var s := LoadStep(resources, parent, name, now, storedAt, ResourceSupplier(parentAnswer));
    match s.result
    case Returned(o) => ResourceLookup(s.outer, Returned(OrElseNull(o)), s.computed)
    case Threw(e) => ResourceLookup(s.outer, Threw(e), s.computed)
  }

  /** A resource the parent does not have is null on the first lookup and, within the
      expiry window, null again from the table without asking the parent. */
  lemma AbsentResourceIsCached(resources: Outer<Option<Url>>, parent: LoaderId, name: Name, now: int, storedAt: int,
                               later: int, laterStoredAt: int, parentAnswer2: Outcome<NullableUrl>)
    requires Cached(resources, parent, name, now).None?
    requires storedAt <= later < storedAt + ExpireAfterWrite
    ensures var first := GetResourceStep(resources, parent, name, now, storedAt, Returned(Null));
            var second := GetResourceStep(first.resources, parent, name, later, laterStoredAt, parentAnswer2);
            first.parentCalled && first.result == Returned(Null) &&
            !second.parentCalled && second.result == Returned(Null) &&
            second.resources == first.resources
  {
  }

  /** A resource the parent has is stored: until the entry expires, later lookups get
      the same URL from the table without asking the parent. */
  lemma FoundResourceIsCached(resources: Outer<Option<Url>>, parent: LoaderId, name: Name, now: int, storedAt: int, u: Url,
                              later: int, laterStoredAt: int, parentAnswer2: Outcome<NullableUrl>)
    requires Cached(resources, parent, name, now).None?
    requires storedAt <= later < storedAt + ExpireAfterWrite
    ensures var first := GetResourceStep(resources, parent, name, now, storedAt, Returned(NonNull(u)));
            var second := GetResourceStep(first.resources, parent, name, later, laterStoredAt, parentAnswer2);
            first.parentCalled && first.result == Returned(NonNull(u)) &&
            !second.parentCalled && second.result == Returned(NonNull(u)) &&
            second.resources == first.resources
  {
  }

  /** The two shared tables (the static fields `parentClassCache` and
      `parentResourceCache`): class values are held weakly except the sentinel,
      resource values strongly. */
  class ParentCaches {
    const classCache: TwoLevelCache<ClassRef>
    const resourceCache: TwoLevelCache<Option<Url>>

    constructor ()
      ensures fresh(classCache) && fresh(resourceCache)
      ensures classCache.outer == map[] && classCache.weakValues && classCache.stronglyHeld == {ClassNotFound}
      ensures resourceCache.outer == map[] && !resourceCache.weakValues
      ensures classCache.computations == 0 && resourceCache.computations == 0
    {
      classCache := new TwoLevelCache(true, {ClassNotFound});
      resourceCache := new TwoLevelCache(false, {});
    }
  }

  class SandboxResolvingClassLoader {
    /** The identity of the parent loader (`getParent()`). */
    const parent: LoaderId
    /** The shared tables. */
    const caches: ParentCaches
    /** The classes handed to `resolveClass`, in order. */
    ghost var resolved: seq<ClassRef>

    constructor (parent: LoaderId, caches: ParentCaches)
      ensures this.parent == parent && this.caches == caches && resolved == []
    {
      this.parent := parent;
      this.caches := caches;
      resolved := [];
    }

    /** `loadClass(name, resolve)` at time `now`. `ownLoadClass` is the plugin's own
        loader and `parentLoadClass` the parent, each as it answers at this moment;
        `storedAt` is the ticker's reading once the parent has answered. */
    method LoadClass(name: Name, resolve: bool, now: int, storedAt: int,
                     ownLoadClass: Name -> Outcome<ClassRef>, parentLoadClass: Name -> Outcome<ClassRef>)
      returns (r: Outcome<ClassRef>)
      modifies this, caches.classCache
      ensures var l := LoadClassStep(old(caches.classCache.outer), parent, name, resolve, now, storedAt,
                                     ownLoadClass(name), parentLoadClass(name));
              r == l.result && caches.classCache.outer == l.classes &&
              caches.classCache.computations == old(caches.classCache.computations) + (if l.parentCalled then 1 else 0) &&
              resolved == old(resolved) + (if l.resolved.Some? then [l.resolved.value] else [])
      ensures unchanged(caches.resourceCache)
    {
      if IsSandboxClass(name) {
        r := ownLoadClass(name);
      } else {
        var c := caches.classCache.Load(parent, name, now, storedAt, () => ClassSupplier(parentLoadClass(name)));
        match c
        case Threw(e) =>
          r := c;
        case Returned(k) =>
          if k != ClassNotFound {
            if resolve {
              resolved := resolved + [k];
            }
            r := Returned(k);
          } else {
            r := Threw(ClassNotFoundException(name));
          }
      }
    }

    /** `getResource(name)` at time `now`; `parentGetResource` is the parent as it
        answers at this moment, and `storedAt` the ticker's reading once it has answered. */
    method GetResource(name: Name, now: int, storedAt: int, parentGetResource: Name -> Outcome<NullableUrl>)
      returns (r: Outcome<NullableUrl>)
      modifies caches.resourceCache
      ensures var l := GetResourceStep(old(caches.resourceCache.outer), parent, name, now, storedAt,
                                       parentGetResource(name));
              r == l.result && caches.resourceCache.outer == l.resources &&
              caches.resourceCache.computations == old(caches.resourceCache.computations) + (if l.parentCalled then 1 else 0)
      ensures unchanged(caches.classCache)
    {
      var o := caches.resourceCache.Load(parent, name, now, storedAt, () => ResourceSupplier(parentGetResource(name)));
      match o
      case Returned(opt) => r := Returned(OrElseNull(opt));
      case Threw(e) => r := Threw(e);
    }
  }
}
