/** The two-level memo table behind SandboxResolvingClassLoader: an outer table keyed by
    parent-loader identity whose values are inner tables keyed by name, each inner entry
    holding a value and the time it was written (`makeParentCache` and `load`). */
module ParentCache {
  import opened Loading

  /** Inner entries expire 15 minutes after they are written, counted in the
      nanoseconds of the cache's ticker. */
  const ExpireAfterWrite: int := 15 * 60 * 1_000_000_000

  datatype Entry<T> = Entry(value: T, writtenAt: int)

  type Inner<T> = map<Name, Entry<T>>
  type Outer<T> = map<LoaderId, Inner<T>>

  /** Expiry is measured from the write only: reads never extend an entry's life. */
  predicate Expired<T>(e: Entry<T>, now: int)
  {
    now - e.writtenAt >= ExpireAfterWrite
  }

  /** The inner table of `parent`; the outer table creates an empty one on first use. */
  function InnerFor<T>(outer: Outer<T>, parent: LoaderId): Inner<T>
  {
    if parent in outer then outer[parent] else map[]
  }

  /** The stored entry for (parent, name), expired or not. */
  function EntryAt<T>(outer: Outer<T>, parent: LoaderId, name: Name): Option<Entry<T>>
  {
    var inner := InnerFor(outer, parent);
    if name in inner then Some(inner[name]) else None
  }

  /** The value a lookup of (parent, name) at time `now` is answered with without
      running the computation, if there is one. */
  function Cached<T>(outer: Outer<T>, parent: LoaderId, name: Name, now: int): (r: Option<T>)
    ensures r.Some? <==> EntryAt(outer, parent, name).Some? && !Expired(EntryAt(outer, parent, name).value, now)
    ensures r.Some? ==> r.value == EntryAt(outer, parent, name).value.value
  {
    match EntryAt(outer, parent, name)
    case Some(e) => if Expired(e, now) then None else Some(e.value)
    case None => None
  }

  /** The effect of one get-or-compute: the new outer table, what the caller sees,
      and whether the computation ran. */
  datatype Step<T> = Step(outer: Outer<T>, result: Outcome<T>, computed: bool)

  /** One `load` of (parent, name) whose lookup reads the ticker at `now`. `supplied` is
      what the computation produces if it runs; it runs only when no live entry answers
      the lookup. A value it returns is written with the time `storedAt` at which the
      ticker is read again once the computation has returned; a failure is not stored
      and reaches the caller wrapped. */
  function LoadStep<T>(outer: Outer<T>, parent: LoaderId, name: Name, now: int, storedAt: int,
                       supplied: Outcome<T>): (s: Step<T>)
    ensures s.computed <==> Cached(outer, parent, name, now).None?
    ensures !s.computed ==> s.outer == outer && s.result == Returned(Cached(outer, parent, name, now).value)
    ensures s.computed && supplied.Returned? ==>
              s.result == supplied && EntryAt(s.outer, parent, name) == Some(Entry(supplied.value, storedAt))
    ensures s.computed && supplied.Threw? ==>
              s.result == Threw(Wrapped(supplied.thrown)) && EntryAt(s.outer, parent, name).None?
    ensures s.outer.Keys == outer.Keys + {parent}
    ensures forall q, m {:trigger EntryAt(s.outer, q, m)} ::
              q != parent || m != name ==> EntryAt(s.outer, q, m) == EntryAt(outer, q, m)
  {
    var inner := InnerFor(outer, parent);
    match Cached(outer, parent, name, now)
    case Some(v) => Step(outer, Returned(v), false)
    case None =>
      match supplied
      case Returned(v) => Step(outer[parent := inner[name := Entry(v, storedAt)]], Returned(v), true)
      case Threw(cause) => Step(outer[parent := inner - {name}], Threw(Wrapped(cause)), true)
  }

  /** A computed entry answers every lookup until 15 minutes after the computation
      returned, not after the lookup began, and none from then on, however often it is
      read in between. */
  lemma WrittenEntryLifetime<T>(outer: Outer<T>, parent: LoaderId, name: Name, now: int, storedAt: int,
                                supplied: Outcome<T>, later: int)
    requires Cached(outer, parent, name, now).None? && supplied.Returned?
    ensures var s := LoadStep(outer, parent, name, now, storedAt, supplied);
            Cached(s.outer, parent, name, later) ==
              if later < storedAt + ExpireAfterWrite then Some(supplied.value) else None
  {
  }

  /** A failed computation leaves nothing behind: the next lookup of the same key, at
      any time, runs the computation again. */
  lemma FailureIsRetried<T>(outer: Outer<T>, parent: LoaderId, name: Name, now: int, storedAt: int, cause: Throwable,
                            later: int, laterStoredAt: int, supplied: Outcome<T>)
    requires Cached(outer, parent, name, now).None?
    ensures var s := LoadStep(outer, parent, name, now, storedAt, Threw(cause));
            s.result == Threw(Wrapped(cause)) &&
            LoadStep(s.outer, parent, name, later, laterStoredAt, supplied).computed
  {
  }

  /** A lookup of one key never changes what any other key, under the same or
      another parent, is answered with. */
  lemma LoadIsolatesKeys<T>(outer: Outer<T>, parent: LoaderId, name: Name, now: int, storedAt: int,
                            supplied: Outcome<T>, q: LoaderId, m: Name, t: int)
    requires q != parent || m != name
    ensures Cached(LoadStep(outer, parent, name, now, storedAt, supplied).outer, q, m, t) == Cached(outer, q, m, t)
  {
  }

  // A sequence of lookups of one key.

  /** A lookup request: the time it is made, the time a computation it runs would
      return, and what that computation would produce. */
  datatype Request<T> = Request(now: int, storedAt: int, supplied: Outcome<T>)

  /** The outer table after a sequence of lookups, what each caller saw, and how many
      times the computation ran. */
  datatype Run<T> = Run(outer: Outer<T>, results: seq<Outcome<T>>, computations: nat)

  /** Runs `reqs` one after the other through `LoadStep`, threading the table. Its own
      contract gives the shape of a run and that a run touches no other key; what a run
      answers and how often it computes is stated by the lemmas below. */
  function Replay<T>(outer: Outer<T>, parent: LoaderId, name: Name, reqs: seq<Request<T>>): (r: Run<T>)
    ensures |r.results| == |reqs|
    ensures r.computations <= |reqs|
    ensures reqs != [] && Cached(outer, parent, name, reqs[0].now).None? ==> r.computations >= 1
    ensures forall q, m {:trigger EntryAt(r.outer, q, m)} ::
              q != parent || m != name ==> EntryAt(r.outer, q, m) == EntryAt(outer, q, m)
    decreases |reqs|
  {
    if reqs == [] then Run(outer, [], 0)
    else
      var s := LoadStep(outer, parent, name, reqs[0].now, reqs[0].storedAt, reqs[0].supplied);
      var rest := Replay(s.outer, parent, name, reqs[1..]);
      Run(rest.outer, [s.result] + rest.results, (if s.computed then 1 else 0) + rest.computations)
  }

  /** While a stored entry has not expired, every lookup is answered with its value,
      the computation never runs and the tables stay as they are. */
  lemma {:induction false} HitsWhileLive<T>(outer: Outer<T>, parent: LoaderId, name: Name, reqs: seq<Request<T>>, e: Entry<T>)
    requires EntryAt(outer, parent, name) == Some(e)
    requires forall i :: 0 <= i < |reqs| ==> !Expired(e, reqs[i].now)
    ensures var r := Replay(outer, parent, name, reqs);
            r.outer == outer && r.computations == 0 &&
            forall i :: 0 <= i < |reqs| ==> r.results[i] == Returned(e.value)
    decreases |reqs|
  {
    if reqs != [] {
      var s := LoadStep(outer, parent, name, reqs[0].now, reqs[0].storedAt, reqs[0].supplied);
      assert s.outer == outer && s.result == Returned(e.value);
      HitsWhileLive(outer, parent, name, reqs[1..], e);
    }
  }

  /** Repeated lookups of a key that is not cached, the later ones all made within the
      expiry window of the entry the first one writes, run the computation exactly once, and every caller sees the first
      computation's value, whatever later computations would have produced. */
  lemma {:induction false} ComputedOnceWithinWindow<T>(outer: Outer<T>, parent: LoaderId, name: Name, reqs: seq<Request<T>>)
    requires reqs != [] && Cached(outer, parent, name, reqs[0].now).None?
    requires reqs[0].supplied.Returned?
    requires forall i :: 0 < i < |reqs| ==> reqs[0].storedAt <= reqs[i].now < reqs[0].storedAt + ExpireAfterWrite
    ensures var r := Replay(outer, parent, name, reqs);
            r.computations == 1 &&
            forall i :: 0 <= i < |reqs| ==> r.results[i] == reqs[0].supplied
  {
    var s := LoadStep(outer, parent, name, reqs[0].now, reqs[0].storedAt, reqs[0].supplied);
    var e := Entry(reqs[0].supplied.value, reqs[0].storedAt);
    assert EntryAt(s.outer, parent, name) == Some(e);
    var rest := reqs[1..];
    forall i | 0 <= i < |rest| ensures !Expired(e, rest[i].now) {
      assert rest[i] == reqs[i + 1];
    }
    HitsWhileLive(s.outer, parent, name, rest, e);
  }

  /** A lookup made at or after the expiry time of the entry written by an earlier
      computation (15 minutes after that computation returned) runs the computation
      again and returns its new value. */
  lemma {:induction false} RecomputedAfterExpiry<T>(outer: Outer<T>, parent: LoaderId, name: Name, reqs: seq<Request<T>>, k: nat)
    requires 0 < k < |reqs| && Cached(outer, parent, name, reqs[0].now).None?
    requires reqs[0].supplied.Returned? && reqs[k].supplied.Returned?
    requires forall i :: 0 < i < k ==> reqs[0].storedAt <= reqs[i].now < reqs[0].storedAt + ExpireAfterWrite
    requires reqs[k].now >= reqs[0].storedAt + ExpireAfterWrite
    ensures var r := Replay(outer, parent, name, reqs);
            r.computations >= 2 && r.results[k] == reqs[k].supplied
  {
    var s := LoadStep(outer, parent, name, reqs[0].now, reqs[0].storedAt, reqs[0].supplied);
    var e := Entry(reqs[0].supplied.value, reqs[0].storedAt);
    var rest := reqs[1..];
    forall i | 0 <= i < k - 1 ensures !Expired(e, rest[i].now) {
      assert rest[i] == reqs[i + 1];
    }
    assert rest[k - 1] == reqs[k];
    ExpiryAfterHits(s.outer, parent, name, rest, e, k - 1);
  }

  /** Lookups answered by a live entry, followed by one at or after its expiry time:
      that one runs the computation and returns its value. */
  lemma {:induction false} ExpiryAfterHits<T>(outer: Outer<T>, parent: LoaderId, name: Name, reqs: seq<Request<T>>, e: Entry<T>, k: nat)
    requires EntryAt(outer, parent, name) == Some(e)
    requires k < |reqs| && reqs[k].supplied.Returned?
    requires forall i :: 0 <= i < k ==> !Expired(e, reqs[i].now)
    requires Expired(e, reqs[k].now)
    ensures var r := Replay(outer, parent, name, reqs);
            r.computations >= 1 && r.results[k] == reqs[k].supplied
    decreases k
  {
    var s := LoadStep(outer, parent, name, reqs[0].now, reqs[0].storedAt, reqs[0].supplied);
    if k > 0 {
      assert s.outer == outer;
      var rest := reqs[1..];
      forall i | 0 <= i < k - 1 ensures !Expired(e, rest[i].now) {
        assert rest[i] == reqs[i + 1];
      }
      ExpiryAfterHits(outer, parent, name, rest, e, k - 1);
    }
  }

  /** The memo table itself. Two instances exist, one for classes and one for
      resources; they are shared by every resolver. */
  class TwoLevelCache<T(==)> {
    /** Outer table: parent identity to inner table. */
    var outer: Outer<T>
    /** How many times a computation (a call to the parent) has run. */
    ghost var computations: nat
    /** Whether the inner tables hold their values weakly. */
    const weakValues: bool
    /** Values that are strongly held elsewhere, so weak values never lose them. */
    const stronglyHeld: set<T>

    constructor (weakValuesInnerCache: bool, stronglyHeld: set<T>)
      ensures outer == map[] && computations == 0
      ensures weakValues == weakValuesInnerCache && this.stronglyHeld == stronglyHeld
    {
      outer := map[];
      computations := 0;
      weakValues := weakValuesInnerCache;
      this.stronglyHeld := stronglyHeld;
    }

    /** Get-or-compute: the lookup reads the ticker at `now` and answers from a live
        entry, or runs `supplier` and stores its value with write time `storedAt`, the
        ticker's reading once `supplier` has returned; a failure of `supplier` is
        rethrown wrapped and nothing is stored. */
    method Load(parent: LoaderId, name: Name, now: int, storedAt: int, supplier: () -> Outcome<T>)
      returns (r: Outcome<T>)
      modifies this
      ensures var s := LoadStep(old(outer), parent, name, now, storedAt, supplier());
              outer == s.outer && r == s.result &&
              computations == old(computations) + (if s.computed then 1 else 0)
    {
      if parent !in outer {
        outer := outer[parent := map[]];
      }
      var inner := outer[parent];
      if name in inner && !Expired(inner[name], now) {
        r := Returned(inner[name].value);
      } else {
        var supplied := supplier();
        computations := computations + 1;
        match supplied
        case Returned(v) =>
          outer := outer[parent := inner[name := Entry(v, storedAt)]];
          r := supplied;
        case Threw(cause) =>
          outer := outer[parent := inner - {name}];
          r := Threw(Wrapped(cause));
      }
    }

    /** The outer keys are weak: once a parent loader is unreachable elsewhere, its
        whole inner table may disappear at any moment. */
    method ReclaimParent(parent: LoaderId)
      modifies this
      ensures outer == old(outer) - {parent} && computations == old(computations)
      ensures forall name, now :: Cached(outer, parent, name, now).None?
    {
      outer := outer - {parent};
    }

    /** With weak values, an entry whose value is not strongly held elsewhere may
        disappear at any moment. */
    method ReclaimValue(parent: LoaderId, name: Name)
      requires weakValues
      requires EntryAt(outer, parent, name).Some?
      requires EntryAt(outer, parent, name).value.value !in stronglyHeld
      modifies this
      ensures outer == old(outer)[parent := old(outer)[parent] - {name}] && computations == old(computations)
    {
      outer := outer[parent := outer[parent] - {name}];
    }
  }
}
