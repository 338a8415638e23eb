/** Journeys share one keyed store and update their records by loading, changing and saving, without
    locks. Distinct keys keep them apart. */
module JourneyIsolation {
  import opened Wrappers

  const PENDING_PREFIX := "guest.pending."
  const GUEST_PREFIX := "guest."

  datatype Op<R> = Load | Save(record: R) | Delete | NoOp

  /** What a journey does is its own affair: the next operation depends on its local state, and the state
      after it on what a load returned. */
  datatype Behaviour<!L, !R> = Behaviour(next: L -> Op<R>, resume: (L, Option<R>) -> L)

  function Read<R>(store: map<string, R>, key: string): Option<R> {
    if key in store then Some(store[key]) else None
  }

  function Store<R>(store: map<string, R>, key: string, op: Op<R>): map<string, R> {
    match op
    case Save(r) => store[key := r]
    case Delete => store - {key}
    case _ => store
  }

  function Resume<L, R>(b: Behaviour<L, R>, store: map<string, R>, key: string, local: L): L {
    b.resume(local, if b.next(local).Load? then Read(store, key) else None)
  }

  datatype World<L, R> = World(store: map<string, R>, locals: map<nat, L>)

  /** Journey `j` takes one step, if there is such a journey. */
  function StepOf<L, R>(w: World<L, R>, b: nat -> Behaviour<L, R>, key: nat -> string, j: nat): World<L, R> {
    if j !in w.locals then w
    else
      World(Store(w.store, key(j), b(j).next(w.locals[j])),
            w.locals[j := Resume(b(j), w.store, key(j), w.locals[j])])
  }

  /** Any interleaving: the schedule names the journey that moves. */
  function Interleave<L, R>(w: World<L, R>, b: nat -> Behaviour<L, R>, key: nat -> string, schedule: seq<nat>): World<L, R> {
    if schedule == [] then w
    else StepOf(Interleave(w, b, key, schedule[..|schedule| - 1]), b, key, schedule[|schedule| - 1])
  }

  /** The steps of one journey alone. */
  function Only(schedule: seq<nat>, j: nat): seq<nat> {
    if schedule == [] then []
    else Only(schedule[..|schedule| - 1], j) + (if schedule[|schedule| - 1] == j then [j] else [])
  }

  /** What journey `j` can tell of a world: its own state and its own record. */
  ghost predicate SameFor<L, R>(v: World<L, R>, w: World<L, R>, key: nat -> string, j: nat) {
    && j in v.locals && v.locals.Keys == w.locals.Keys
    && v.locals[j] == w.locals[j]
    && Read(v.store, key(j)) == Read(w.store, key(j))
  }

  lemma OwnStep<L, R>(v: World<L, R>, w: World<L, R>, b: nat -> Behaviour<L, R>, key: nat -> string, j: nat)
    requires SameFor(v, w, key, j)
    ensures SameFor(StepOf(v, b, key, j), StepOf(w, b, key, j), key, j)
  {
  }

  lemma OtherStep<L, R>(v: World<L, R>, b: nat -> Behaviour<L, R>, key: nat -> string, j: nat, k: nat)
    requires j in v.locals && j != k && (k in v.locals ==> key(j) != key(k))
    ensures SameFor(StepOf(v, b, key, k), v, key, j)
  {
  }

  /** However N journeys with distinct keys interleave, each one's local state, hence all it ever loaded,
      and its record are what they would be had it run alone. */
  lemma {:induction false} RunsAsIfAlone<L, R>(w: World<L, R>, b: nat -> Behaviour<L, R>, key: nat -> string, schedule: seq<nat>, j: nat)
    requires j in w.locals
    requires forall i: nat, k: nat :: i in w.locals && k in w.locals && i != k ==> key(i) != key(k)
    ensures Interleave(w, b, key, schedule).locals.Keys == w.locals.Keys
    ensures SameFor(Interleave(w, b, key, schedule), Interleave(w, b, key, Only(schedule, j)), key, j)
  {
    if schedule != [] {
      var front, last := schedule[..|schedule| - 1], schedule[|schedule| - 1];
      RunsAsIfAlone(w, b, key, front, j);
      var together, alone := Interleave(w, b, key, front), Interleave(w, b, key, Only(front, j));
      if last == j {
        var steps := Only(front, j);
        assert (steps + [j])[..|steps|] == steps;
        OwnStep(together, alone, b, key, j);
      } else {
        assert Only(schedule, j) == Only(front, j);
        OtherStep(together, b, key, j, last);
      }
    }
  }

  /** A journey reads back what it saved, finds nothing after it deleted, and reading changes nothing; and it never
      touches another key. */
  lemma ReadsOwnWrites<R>(store: map<string, R>, key: string, other: string, op: Op<R>)
    ensures Read(Store(store, key, op), key) == match op
                                                case Save(r) => Some(r)
                                                case Delete => None
                                                case _ => Read(store, key)
    ensures other != key ==> Read(Store(store, key, op), other) == Read(store, other)
  {
  }

  /** What a step of a journey is: it gets what is stored under its key if it loads, and stores what it saves. */
  lemma StepLoadsAndStores<L, R>(w: World<L, R>, b: nat -> Behaviour<L, R>, key: nat -> string, j: nat)
    requires j in w.locals
    ensures var after, op := StepOf(w, b, key, j), b(j).next(w.locals[j]);
            && after.locals == w.locals[j := b(j).resume(w.locals[j], if op.Load? && key(j) in w.store then Some(w.store[key(j)]) else None)]
            && (op.Save? ==> after.store == w.store[key(j) := op.record])
            && (op.Delete? ==> after.store == w.store - {key(j)})
            && (op.Load? || op.NoOp? ==> after.store == w.store)
  {
  }

  /** An interleaving is made of the steps its schedule names, in order. */
  lemma InterleaveSnoc<L, R>(w: World<L, R>, b: nat -> Behaviour<L, R>, key: nat -> string, schedule: seq<nat>, j: nat)
    ensures Interleave(w, b, key, []) == w
    ensures Interleave(w, b, key, schedule + [j]) == StepOf(Interleave(w, b, key, schedule), b, key, j)
  {
    assert (schedule + [j])[..|schedule|] == schedule;
  }

  // ---------- keys ----------

  function KeyFor(lower: string -> string, documentId: string): string {
    PENDING_PREFIX + lower(documentId)
  }

  /** Distinct lower-cased document ids give distinct keys. */
  lemma KeysAreDistinct(lower: string -> string, a: string, b: string)
    ensures KeyFor(lower, a) == KeyFor(lower, b) <==> lower(a) == lower(b)
  {
    var n := |PENDING_PREFIX|;
    assert KeyFor(lower, a)[n..] == lower(a) && KeyFor(lower, b)[n..] == lower(b);
  }

  function KeysFor(lower: string -> string, documentId: nat -> string): nat -> string {
    (j: nat) => KeyFor(lower, documentId(j))
  }

  /** The two together: journeys whose guests have distinct lower-cased document ids run as if alone. */
  lemma DistinctGuestsRunAsIfAlone<L, R>(w: World<L, R>, b: nat -> Behaviour<L, R>, lower: string -> string,
                                         documentId: nat -> string, schedule: seq<nat>, j: nat)
    requires j in w.locals
    requires forall i: nat, k: nat :: i in w.locals && k in w.locals && i != k ==> lower(documentId(i)) != lower(documentId(k))
    ensures var key := KeysFor(lower, documentId);
            SameFor(Interleave(w, b, key, schedule), Interleave(w, b, key, Only(schedule, j)), key, j)
  {
    var key := KeysFor(lower, documentId);
    forall i: nat, k: nat | i in w.locals && k in w.locals && i != k ensures key(i) != key(k) {
      KeysAreDistinct(lower, documentId(i), documentId(k));
    }
    RunsAsIfAlone(w, b, key, schedule, j);
  }
}
