/**
  Alarm manager of one ONU: the bitmap database, the set of active alarms, and the notices sent for them.
  A bitmap is the set of its set bits.  Go visits the alarms of a managed entity in any order, so what one
  notification does is a relation, `Processed`, that fixes everything but the order of the notices.
*/
module Alarms {

  const BITMAP_BITS: nat := 224   // 28 bytes

  type AlarmNo = n: int | 0 <= n < BITMAP_BITS
  type Bitmap = set<AlarmNo>
  datatype Key = Key(classId: nat, instance: nat)
  datatype Alarm = Alarm(key: Key, no: AlarmNo)
  datatype Notice = Notice(alarm: Alarm, raised: bool)
  type Library = map<nat, set<AlarmNo>>   // the alarms that a class supports; other classes have no alarm map

  datatype Store = Store(active: set<Alarm>, db: map<Key, Bitmap>, sent: seq<Notice>)

  function Supported(lib: Library, key: Key): set<AlarmNo> {
    if key.classId in lib then lib[key.classId] else {}
  }

  /** The stored bitmap; a missing entry reads as zero. */
  function Bits(db: map<Key, Bitmap>, key: Key): Bitmap {
    if key in db then db[key] else {}
  }

  /** The notices about one alarm, in order: true for raised, false for cleared. */
  function History(sent: seq<Notice>, a: Alarm): seq<bool> {
    if sent == [] then []
    else var last := sent[|sent| - 1];
         History(sent[..|sent| - 1], a) + if last.alarm == a then [last.raised] else []
  }

  /** Raised, cleared, raised, ... */
  predicate Alternates(h: seq<bool>) {
    forall i | 0 <= i < |h| :: h[i] == (i % 2 == 0)
  }

  // ---------------------------------------------------------------- one notification

  /** Active alarms after the alarms `seen` of an entity were compared with its new bitmap. */
  function NewActive(active: set<Alarm>, key: Key, b: Bitmap, seen: set<AlarmNo>): set<Alarm> {
    (set a | a in active && (a.key != key || a.no !in seen || a.no in b)) +
        (set n | n in seen && n in b :: Alarm(key, n))
  }

  predicate AnyActive(active: set<Alarm>, key: Key, seen: set<AlarmNo>) {
    exists n :: n in seen && Alarm(key, n) in active
  }

  /** The entry is dropped when a clear leaves no bit set, and stored otherwise. */
  function NewDb(db: map<Key, Bitmap>, active: set<Alarm>, key: Key, b: Bitmap, seen: set<AlarmNo>): map<Key, Bitmap> {
    if b == {} && AnyActive(active, key, seen) then db - {key} else db[key := b]
  }

  function Told(before: bool, after: bool): seq<bool> {
    if before == after then [] else [after]
  }

  ghost predicate Processed(s: Store, s1: Store, key: Key, b: Bitmap, seen: set<AlarmNo>) {
    && s1.active == NewActive(s.active, key, b, seen)
    && s1.db == NewDb(s.db, s.active, key, b, seen)
    && forall a :: History(s1.sent, a) == History(s.sent, a) + Told(a in s.active, a in s1.active)
  }

  // ---------------------------------------------------------------- invariant

  /** Active alarms are the set bits of the stored bitmaps, and the notices of each alarm alternate and end in step
      with its activity. */
  ghost predicate InStep(lib: Library, s: Store) {
    match s
    case Store(active, db, sent) =>
      && (forall a :: a in active <==> a.no in Supported(lib, a.key) && a.no in Bits(db, a.key))
      && (forall a :: Alternates(History(sent, a)) && (a in active <==> |History(sent, a)| % 2 == 1))
  }

  lemma {:induction false} EmptyInStep(lib: Library)
    ensures InStep(lib, Store({}, map[], []))
  {
  }

  lemma {:induction false} AlternatesOn(h: seq<bool>, before: bool, after: bool)
    requires Alternates(h) && (before <==> |h| % 2 == 1)
    ensures Alternates(h + Told(before, after)) && (after <==> |h + Told(before, after)| % 2 == 1)
  {
  }

  /** A fully processed notification keeps both views of the alarm state and the notices in step. */
  lemma {:induction false} ProcessedInStep(lib: Library, s: Store, s1: Store, key: Key, b: Bitmap)
    requires InStep(lib, s) && Processed(s, s1, key, b, Supported(lib, key))
    ensures InStep(lib, s1) && Bits(s1.db, key) == b && forall k | k != key :: Bits(s1.db, k) == Bits(s.db, k)
  {
    forall a ensures Alternates(History(s1.sent, a)) && (a in s1.active <==> |History(s1.sent, a)| % 2 == 1) {
      AlternatesOn(History(s.sent, a), a in s.active, a in s1.active);
    }
  }

  // ---------------------------------------------------------------- runs

  datatype Notification = Notification(key: Key, bitmap: Bitmap, seqNo: nat)

  /** What the stores of a run between a start and the next stop look like: each one is the one before, or that one
      after some fully processed notification. */
  ghost predicate Follows(lib: Library, s: Store, s1: Store) {
    s1 == s || exists key, b :: Processed(s, s1, key, b, Supported(lib, key))
  }

  ghost predicate Trace(lib: Library, run: seq<Store>) {
    && run != [] && run[0] == Store({}, map[], [])
    && forall i | 0 <= i < |run| - 1 :: Follows(lib, run[i], run[i + 1])
  }

  lemma {:induction false} TraceInStep(lib: Library, run: seq<Store>, i: nat)
    requires Trace(lib, run) && i < |run|
    ensures InStep(lib, run[i])
  {
    if i == 0 {
      EmptyInStep(lib);
    } else {
      TraceInStep(lib, run, i - 1);
      assert Follows(lib, run[i - 1], run[i - 1 + 1]);
      if run[i] != run[i - 1] {
        var key, b :| Processed(run[i - 1], run[i], key, b, Supported(lib, key));
        ProcessedInStep(lib, run[i - 1], run[i], key, b);
      }
    }
  }

  // ---------------------------------------------------------------- resynchronisation

  /** The entry of an entity that is given a bitmap: dropped, or that bitmap. */
  ghost predicate Drops(lib: Library, s: Store, k: Key, b: Bitmap) {
    b == {} && AnyActive(s.active, k, Supported(lib, k))
  }

  ghost predicate PlannedDb(lib: Library, s: Store, s1: Store, plan: map<Key, Bitmap>) {
    && (forall k :: k in s1.db <==> if k in plan then !Drops(lib, s, k, plan[k]) else k in s.db)
    && (forall k | k in s1.db :: s1.db[k] == if k in plan then plan[k] else s.db[k])
  }

  ghost predicate PlannedActive(lib: Library, s: Store, s1: Store, plan: map<Key, Bitmap>) {
    forall a :: a in s1.active <==>
      if a.key in plan && a.no in Supported(lib, a.key) then a.no in plan[a.key] else a in s.active
  }

  ghost predicate PlannedSent(s: Store, s1: Store) {
    forall a :: History(s1.sent, a) == History(s.sent, a) + Told(a in s.active, a in s1.active)
  }

  /** The store after every entity of `plan` was given its bitmap, whatever the order of the visits. */
  ghost predicate Planned(lib: Library, s: Store, s1: Store, plan: map<Key, Bitmap>) {
    match s1
    case Store(_, _, _) => PlannedDb(lib, s, s1, plan) && PlannedActive(lib, s, s1, plan) && PlannedSent(s, s1)
  }

  lemma {:induction false} PlannedNone(lib: Library, s: Store)
    ensures Planned(lib, s, s, map[])
  {
  }

  lemma {:induction false} HistoryNext(h: seq<bool>, before: bool, mid: bool, after: bool)
    requires before == mid || mid == after
    ensures h + Told(before, mid) + Told(mid, after) == h + Told(before, after)
  {
    if before == mid { assert h + [] == h; }
  }

  lemma {:induction false} StillActive(lib: Library, s: Store, s1: Store, plan: map<Key, Bitmap>, key: Key)
    requires PlannedActive(lib, s, s1, plan) && key !in plan
    ensures AnyActive(s1.active, key, Supported(lib, key)) <==> AnyActive(s.active, key, Supported(lib, key))
  {
    assert forall n: AlarmNo :: Alarm(key, n) in s1.active <==> Alarm(key, n) in s.active;
  }

  lemma {:induction false} NextDb(lib: Library, s: Store, s1: Store, s2: Store, plan: map<Key, Bitmap>, key: Key,
                                  b: Bitmap)
    requires PlannedDb(lib, s, s1, plan) && PlannedActive(lib, s, s1, plan) && key !in plan
    requires s2.db == NewDb(s1.db, s1.active, key, b, Supported(lib, key))
    ensures PlannedDb(lib, s, s2, plan[key := b])
  {
    StillActive(lib, s, s1, plan, key);
  }

  lemma {:induction false} NextActive(lib: Library, s: Store, s1: Store, s2: Store, plan: map<Key, Bitmap>, key: Key,
                                      b: Bitmap)
    requires PlannedActive(lib, s, s1, plan) && key !in plan
    requires s2.active == NewActive(s1.active, key, b, Supported(lib, key))
    ensures PlannedActive(lib, s, s2, plan[key := b])
  {
  }

  /** One more entity. */
  lemma {:induction false} PlannedNext(lib: Library, s: Store, s1: Store, s2: Store, plan: map<Key, Bitmap>, key: Key,
                                       b: Bitmap)
    requires Planned(lib, s, s1, plan) && key !in plan && Processed(s1, s2, key, b, Supported(lib, key))
    ensures Planned(lib, s, s2, plan[key := b])
  {
    NextDb(lib, s, s1, s2, plan, key, b);
    NextActive(lib, s, s1, s2, plan, key, b);
    forall a ensures History(s2.sent, a) == History(s.sent, a) + Told(a in s.active, a in s2.active) {
      HistoryNext(History(s.sent, a), a in s.active, a in s1.active, a in s2.active);
    }
  }

  /** Two visiting orders lead to the same database and the same active alarms. */
  lemma {:induction false} PlannedUnique(lib: Library, s: Store, a: Store, b: Store, plan: map<Key, Bitmap>)
    requires Planned(lib, s, a, plan) && Planned(lib, s, b, plan)
    ensures a.db == b.db && a.active == b.active
  {
    assert forall k :: k in a.db <==> k in b.db;
    assert forall x :: x in a.active <==> x in b.active;
  }

  /** An entity that the ONU database knows and whose class has alarms; all others are skipped. */
  predicate Handled(lib: Library, known: set<Key>, k: Key) {
    k in known && k.classId in lib
  }

  /** What a resynchronisation replays: the bitmap of the ONU where it reported one, else that of the snapshot. */
  function ResyncPlan(lib: Library, known: set<Key>, onu: map<Key, Bitmap>, olt: map<Key, Bitmap>): map<Key, Bitmap> {
    map k | k in onu.Keys + olt.Keys && Handled(lib, known, k) && (k !in onu || k !in olt || onu[k] != olt[k])
        :: if k in onu then onu[k] else olt[k]
  }

  /** After a resynchronisation every handled entity that the ONU reported has the bitmap of the ONU, and all other
      entities, the ones only the snapshot had included, keep their entry; active alarms and notices stay in step. */
  lemma {:induction false} ResyncAdoptsOnu(lib: Library, known: set<Key>, s: Store, s1: Store, onu: map<Key, Bitmap>)
    requires InStep(lib, s) && Planned(lib, s, s1, ResyncPlan(lib, known, onu, s.db))
    ensures forall k :: Bits(s1.db, k) == if k in onu && Handled(lib, known, k) then onu[k] else Bits(s.db, k)
    ensures forall k | !(k in onu && Handled(lib, known, k)) :: k in s1.db <==> k in s.db
    ensures InStep(lib, s1)
  {
    var plan := ResyncPlan(lib, known, onu, s.db);
    forall k ensures Bits(s1.db, k) == if k in onu && Handled(lib, known, k) then onu[k] else Bits(s.db, k) {
      if k in plan { assert k in s1.db || plan[k] == {}; }
    }
    forall k | !(k in onu && Handled(lib, known, k)) ensures k in s1.db <==> k in s.db {
      assert k in plan ==> !Drops(lib, s, k, plan[k]);
    }
    ResyncInStep(lib, s, s1, plan);
  }

  lemma {:induction false} ResyncInStep(lib: Library, s: Store, s1: Store, plan: map<Key, Bitmap>)
    requires InStep(lib, s) && Planned(lib, s, s1, plan)
    ensures InStep(lib, s1)
  {
    forall a ensures a in s1.active <==> a.no in Supported(lib, a.key) && a.no in Bits(s1.db, a.key) {
      assert Bits(s1.db, a.key) == if a.key in plan then plan[a.key] else Bits(s.db, a.key);
    }
    forall a ensures Alternates(History(s1.sent, a)) && (a in s1.active <==> |History(s1.sent, a)| % 2 == 1) {
      AlternatesOn(History(s.sent, a), a in s.active, a in s1.active);
    }
  }
}
