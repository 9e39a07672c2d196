/**
  The alarm manager as an object: notification processing, the resynchronisation loops over Go maps, and the
  upload of the alarm table.  Loops over maps take their elements in an arbitrary order.
*/
module AlarmManager {
  import opened Words
  import opened Alarms
  import opened AlarmUpload

  datatype Status = Ok | NotFound | Unavailable

  /** The sequence number after a notification; it wraps from 255 to 1. */
  function NextSequence(n: nat): (r: nat)
    requires n <= 255
    ensures 1 <= r <= 255 && (r == n + 1 || (n == 255 && r == 1))
  {
    if n == 255 then 1 else n + 1
  }

  lemma {:induction false} HistorySnoc(sent: seq<Notice>, x: Notice, a: Alarm)
    ensures History(sent + [x], a) == History(sent, a) + if x.alarm == a then [x.raised] else []
  {
    assert (sent + [x])[..|sent|] == sent;
  }

  /** The notifications about known entities, in order. */
  function OfKnown(msgs: seq<Notification>, known: set<Key>): seq<Notification> {
    if msgs == [] then []
    else OfKnown(msgs[..|msgs| - 1], known) + if msgs[|msgs| - 1].key in known then [msgs[|msgs| - 1]] else []
  }

  class OnuAlarmManager {
    const lib: Library
    var state: SyncState
    var processMessage: bool
    var activeAlarms: set<Alarm>
    var alarmBitMapDB: map<Key, Bitmap>
    var sent: seq<Notice>
    var oltDbCopy: map<Key, Bitmap>
    var onuDBCopy: map<Key, Bitmap>
    var bufferedNotifications: seq<Notification>
    var lastAlarmSequence: nat
    var alarmUploadSeqNo: uint16
    var alarmUploadNoOfCmdsOrMEs: uint16
    var requests: seq<uint16>   // sequence numbers of the requests sent in this upload
    var outcome: Outcome
    ghost var inSession: bool   // since the last start, which found no active alarms, there was no stop

    /** Within a session active alarms, stored bitmaps and notices are in step; a stopped manager has no alarms. */
    ghost predicate Valid()
      reads this
    {
      && lastAlarmSequence <= 255 && (forall m | m in bufferedNotifications :: m.seqNo > 0)
      && Sessions() && (state == Auditing ==> !outcome.Finished?)
    }

    ghost predicate Sessions()
      reads this`inSession, this`processMessage, this`activeAlarms, this`alarmBitMapDB, this`sent
    {
      (inSession ==> processMessage && InStep(lib, View())) && (!processMessage ==> activeAlarms == {})
    }

    ghost function View(): Store
      reads this`activeAlarms, this`alarmBitMapDB, this`sent
    {
      Store(activeAlarms, alarmBitMapDB, sent)
    }

    constructor (lib: Library)
      ensures Valid() && View() == Store({}, map[], []) && !processMessage && state == Disabled && this.lib == lib
    {
      this.lib := lib;
      state, processMessage := Disabled, false;
      activeAlarms, alarmBitMapDB, sent := {}, map[], [];
      oltDbCopy, onuDBCopy, bufferedNotifications, lastAlarmSequence := map[], map[], [], 0;
      alarmUploadSeqNo, alarmUploadNoOfCmdsOrMEs, requests, outcome := 0, 0, [], Waiting;
      inSession := false;
    }

    method RaiseAlarm(a: Alarm)
      modifies this`activeAlarms, this`sent
      ensures activeAlarms == old(activeAlarms) + {a} && sent == old(sent) + [Notice(a, true)]
    {
      activeAlarms := activeAlarms + {a};
      sent := sent + [Notice(a, true)];
    }

    method ClearAlarm(a: Alarm)
      modifies this`activeAlarms, this`alarmBitMapDB, this`sent
      ensures activeAlarms == old(activeAlarms) - {a} && sent == old(sent) + [Notice(a, false)]
      ensures alarmBitMapDB == if Bits(old(alarmBitMapDB), a.key) == {} then old(alarmBitMapDB) - {a.key}
              else old(alarmBitMapDB)
    {
      sent := sent + [Notice(a, false)];
      activeAlarms := activeAlarms - {a};
      if a.key !in alarmBitMapDB || alarmBitMapDB[a.key] == {} {
        alarmBitMapDB := alarmBitMapDB - {a.key};
      }
    }

    /** One alarm of the entity is compared with the new bitmap. */
    method CompareAlarm(key: Key, bitmap: Bitmap, n: AlarmNo, ghost s0: Store, ghost seen: set<AlarmNo>)
      requires n !in seen && Processed(s0, View(), key, bitmap, seen)
      modifies this`activeAlarms, this`alarmBitMapDB, this`sent
      ensures Processed(s0, View(), key, bitmap, seen + {n})
    {
      ghost var s1 := View();
      var a := Alarm(key, n);
      assert a in activeAlarms <==> a in s0.active;
      if a in activeAlarms {
        if n !in bitmap {
          ClearAlarm(a);
        }
      } else if n in bitmap {
        RaiseAlarm(a);
      }
      CompareStep(s0, s1, View(), key, bitmap, seen, n);
    }

    method ProcessAlarmData(known: set<Key>, audits: bool, msg: Notification) returns (status: Status, earlyAudit: bool)
      requires Valid()
      modifies this`activeAlarms, this`alarmBitMapDB, this`sent, this`bufferedNotifications, this`lastAlarmSequence
      ensures Valid()
      ensures !processMessage ==> status == Unavailable && View() == old(View())
      ensures processMessage ==> (status == Ok <==> msg.key in known && (msg.key.classId in lib || Buffered(msg)))
      ensures processMessage && status != Ok ==> status == NotFound && View() == old(View())
      ensures processMessage && msg.key in known && Buffered(msg) ==>
                View() == old(View()) && bufferedNotifications == old(bufferedNotifications) + [msg]
      ensures !(processMessage && msg.key in known && Buffered(msg)) ==>
              bufferedNotifications == old(bufferedNotifications)
      ensures processMessage && Handled(lib, known, msg.key) && !Buffered(msg) ==>
                Processed(old(View()), View(), msg.key, msg.bitmap, Supported(lib, msg.key))
      ensures lastAlarmSequence == if processMessage && msg.key in known && msg.seqNo > 0 && !Buffered(msg)
                                   then NextSequence(old(lastAlarmSequence)) else old(lastAlarmSequence)
      ensures earlyAudit <==> && processMessage && msg.key in known && msg.seqNo > 0 && !Buffered(msg)
                              && msg.seqNo != lastAlarmSequence && audits
    {
      earlyAudit := false;
      if !processMessage {
        return Unavailable, false;
      }
      if msg.key !in known {
        return NotFound, false;
      }
      if msg.seqNo > 0 {
        if state == Auditing || state == Resynchronizing {
          bufferedNotifications := bufferedNotifications + [msg];
          return Ok, false;
        }
        lastAlarmSequence := NextSequence(lastAlarmSequence);
        earlyAudit := msg.seqNo != lastAlarmSequence && audits;
      }
      if msg.key.classId !in lib {
        return NotFound, earlyAudit;
      }
      ghost var before := View();
      CompareAll(msg.key, msg.bitmap, lib[msg.key.classId]);
      if inSession { ProcessedInStep(lib, before, View(), msg.key, msg.bitmap); }
      return Ok, earlyAudit;
    }

    /** The new bitmap is stored, then every supported alarm is looked at, in the order the map yields them. */
    method CompareAll(key: Key, bitmap: Bitmap, alarms: set<AlarmNo>)
      modifies this`activeAlarms, this`alarmBitMapDB, this`sent
      ensures Processed(old(View()), View(), key, bitmap, alarms)
    {
      ghost var s0 := View();
      alarmBitMapDB := alarmBitMapDB[key := bitmap];
      var todo := alarms;
      while todo != {}
        invariant todo <= alarms
        invariant Processed(s0, View(), key, bitmap, alarms - todo)
        decreases |todo|
      {
        var n :| n in todo;
        CompareAlarm(key, bitmap, n, s0, alarms - todo);
        assert (alarms - todo) + {n} == alarms - (todo - {n});
        todo := todo - {n};
      }
      assert alarms - todo == alarms;
    }

    /** Notifications that arrive during an audit or a resynchronisation wait. */
    predicate Buffered(msg: Notification)
      reads this
    {
      msg.seqNo > 0 && (state == Auditing || state == Resynchronizing)
    }

    // -------------------------------------------------------------- resynchronisation

    /** Replays one entity with sequence number 0, which is never buffered; unknown entities are skipped. */
    method ReplayEntity(known: set<Key>, key: Key, bitmap: Bitmap, ghost s0: Store, ghost plan: map<Key, Bitmap>)
      requires Valid() && processMessage && key !in plan && Planned(lib, s0, View(), plan)
      modifies this`activeAlarms, this`alarmBitMapDB, this`sent, this`bufferedNotifications, this`lastAlarmSequence
      ensures Valid() && bufferedNotifications == old(bufferedNotifications)
              && lastAlarmSequence == old(lastAlarmSequence)
      ensures Planned(lib, s0, View(), if Handled(lib, known, key) then plan[key := bitmap] else plan)
    {
      ghost var s1 := View();
      var status, _ := ProcessAlarmData(known, false, Notification(key, bitmap, 0));
      if status == Ok { PlannedNext(lib, s0, s1, View(), plan, key, bitmap); }
    }

    /** Replays all entities of a table in the order the map yields them. */
    method ReplayAll(known: set<Key>, table: map<Key, Bitmap>, ghost s0: Store, ghost plan: map<Key, Bitmap>)
      requires Valid() && processMessage && Planned(lib, s0, View(), plan) && plan.Keys !! table.Keys
      modifies this`activeAlarms, this`alarmBitMapDB, this`sent, this`bufferedNotifications, this`lastAlarmSequence
      ensures Valid() && bufferedNotifications == old(bufferedNotifications)
              && lastAlarmSequence == old(lastAlarmSequence)
      ensures Planned(lib, s0, View(), plan + HandledPart(lib, known, table))
    {
      var todo := table.Keys;
      PlanStart(lib, known, table, plan);
      while todo != {}
        invariant todo <= table.Keys && Valid()
        invariant bufferedNotifications == old(bufferedNotifications) && lastAlarmSequence == old(lastAlarmSequence)
        invariant Planned(lib, s0, View(), PlanSoFar(lib, known, table, plan, todo))
        decreases |todo|
      {
        var key :| key in todo;
        ReplayEntity(known, key, table[key], s0, PlanSoFar(lib, known, table, plan, todo));
        PlanGrows(lib, known, table, plan, todo, key);
        todo := todo - {key};
      }
      PlanEnds(lib, known, table, plan);
    }

    /** Buffered notifications are replayed with their own sequence number, so those of known entities are only buffered
        once more. */
    method ReplayBuffered(known: set<Key>)
      requires Valid() && processMessage && state == Resynchronizing
      modifies this`activeAlarms, this`alarmBitMapDB, this`sent, this`bufferedNotifications, this`lastAlarmSequence
      ensures Valid() && View() == old(View()) && lastAlarmSequence == old(lastAlarmSequence)
      ensures bufferedNotifications == old(bufferedNotifications) + OfKnown(old(bufferedNotifications), known)
    {
      var todo := bufferedNotifications;
      var i := 0;
      while i < |todo|
        invariant 0 <= i <= |todo| && Valid() && View() == old(View()) && lastAlarmSequence == old(lastAlarmSequence)
        invariant bufferedNotifications == todo + OfKnown(todo[..i], known)
      {
        assert todo[i] in bufferedNotifications && todo[..i + 1][..i] == todo[..i];
        var _, _ := ProcessAlarmData(known, false, todo[i]);
        i := i + 1;
      }
      assert todo[..i] == todo;
    }

    /** ONU-only, OLT-only and attribute differences. */
    method ReplayDifferences(known: set<Key>)
      requires Valid() && processMessage
      modifies this`activeAlarms, this`alarmBitMapDB, this`sent, this`bufferedNotifications, this`lastAlarmSequence
      ensures Valid() && bufferedNotifications == old(bufferedNotifications)
      ensures Planned(lib, old(View()), View(), ResyncPlan(lib, known, onuDBCopy, oltDbCopy))
    {
      var onu, olt := onuDBCopy, oltDbCopy;
      ghost var s0 := View();
      PlannedNone(lib, s0);
      DifferencesApart(lib, known, onu, olt);
      ReplayAll(known, OnlyIn(onu, olt), s0, map[]);
      ghost var first := map[] + HandledPart(lib, known, OnlyIn(onu, olt));
      ReplayAll(known, OnlyIn(olt, onu), s0, first);
      ghost var second := first + HandledPart(lib, known, OnlyIn(olt, onu));
      ReplayAll(known, Differing(onu, olt), s0, second);
      PlanIsResync(lib, known, onu, olt);
    }

    /** The differences, then the buffered notifications. */
    method Resynchronize(known: set<Key>)
      requires Valid() && processMessage && state == Resynchronizing
      modifies this`activeAlarms, this`alarmBitMapDB, this`sent, this`bufferedNotifications, this`lastAlarmSequence,
          this`state
      ensures Valid() && state == InSync
      ensures bufferedNotifications == old(bufferedNotifications) + OfKnown(old(bufferedNotifications), known)
      ensures Planned(lib, old(View()), View(), ResyncPlan(lib, known, onuDBCopy, oltDbCopy))
    {
      ReplayDifferences(known);
      ReplayBuffered(known);
      state := InSync;
    }

    // -------------------------------------------------------------- start, stop and upload

    /** A start after a stop begins a session with nothing active; a second start keeps the active alarms but drops the
        bitmaps, and is a session only if none was active. */
    method Start()
      requires Valid()
      modifies this`processMessage, this`alarmBitMapDB, this`sent, this`state, this`inSession
      ensures Valid() && processMessage && state == (if old(state) == Disabled then Starting else old(state))
      ensures View() == Store(old(activeAlarms), map[], [])
      ensures inSession <==> old(activeAlarms) == {}
      ensures !old(processMessage) ==> inSession
    {
      processMessage := true;
      alarmBitMapDB, sent := map[], [];
      if state == Disabled { state := Starting; }
      inSession := activeAlarms == {};
      EmptyInStep(lib);
    }

    method Stop()
      requires Valid()
      modifies this`processMessage, this`activeAlarms, this`alarmBitMapDB, this`inSession
      modifies this`alarmUploadSeqNo, this`alarmUploadNoOfCmdsOrMEs
      ensures Valid() && !processMessage && activeAlarms == {} && alarmBitMapDB == map[] && !inSession
      ensures alarmUploadSeqNo == 0 && alarmUploadNoOfCmdsOrMEs == 0
    {
      processMessage, inSession := false, false;
      activeAlarms, alarmBitMapDB := {}, map[];
      alarmUploadSeqNo, alarmUploadNoOfCmdsOrMEs := 0, 0;
    }

    ghost function UploadView(): Upload
      reads this
    {
      Upload(alarmUploadSeqNo, alarmUploadNoOfCmdsOrMEs, requests, onuDBCopy, oltDbCopy, outcome)
    }

    method ResetUpload()
      modifies this`oltDbCopy, this`onuDBCopy
      modifies this`alarmUploadSeqNo, this`alarmUploadNoOfCmdsOrMEs, this`requests, this`outcome
      ensures UploadView() == Begin()
    {
      oltDbCopy, onuDBCopy := map[], map[];
      alarmUploadSeqNo, alarmUploadNoOfCmdsOrMEs, requests, outcome := 0, 0, [], Waiting;
    }

    method EnterAuditing()
      requires Valid() && (state == Starting || state == InSync || state == Resynchronizing)
      modifies this`state, this`bufferedNotifications, this`oltDbCopy, this`onuDBCopy
      modifies this`alarmUploadSeqNo, this`alarmUploadNoOfCmdsOrMEs, this`requests, this`outcome
      ensures Valid() && state == Auditing
      ensures UploadView() == Begin() && bufferedNotifications == []
    {
      state, bufferedNotifications := Auditing, [];
      ResetUpload();
    }

    method SendGetAllAlarmNext()
      modifies this`requests, this`alarmUploadSeqNo
      ensures UploadView() == SendNext(old(UploadView()))
    {
      requests := requests + [alarmUploadSeqNo];
      alarmUploadSeqNo := Inc16(alarmUploadSeqNo);
    }

    /** The comparison asks for a resynchronisation or for none; a state that does not accept the event stays. */
    method FinishUpload()
      modifies this`outcome, this`state
      ensures UploadView() == Finish(old(UploadView()))
      ensures old(state) == Auditing ==> state == if onuDBCopy != oltDbCopy then Resynchronizing else InSync
      ensures old(state) == Resynchronizing ==> state == if onuDBCopy != oltDbCopy then Resynchronizing else InSync
      ensures old(state) != Auditing && old(state) != Resynchronizing ==> state == old(state)
    {
      outcome := Finished(onuDBCopy != oltDbCopy);
      if onuDBCopy != oltDbCopy {
        state := Fire(state, Resync);
      } else {
        state := Fire(state, Success);
      }
    }

    /** A failure during a resynchronisation starts a new audit; during an audit it changes nothing. */
    method FailUpload()
      requires Valid()
      modifies this`state, this`bufferedNotifications, this`oltDbCopy, this`onuDBCopy
      modifies this`alarmUploadSeqNo, this`alarmUploadNoOfCmdsOrMEs, this`requests, this`outcome
      ensures Valid() && state == if old(state) == Resynchronizing then Auditing else old(state)
      ensures UploadView() == if old(state) == Resynchronizing then Begin() else old(UploadView()).(outcome := Failed)
      ensures bufferedNotifications == if old(state) == Resynchronizing then [] else old(bufferedNotifications)
    {
      if state == Resynchronizing {
        EnterAuditing();
      } else {
        outcome := Failed;
      }
    }

    /** The stored bitmaps are copied for the comparison, and notifications count from the beginning. */
    method TakeSnapshot()
      modifies this`lastAlarmSequence, this`oltDbCopy
      ensures lastAlarmSequence == 0 && oltDbCopy == old(oltDbCopy) + alarmBitMapDB
    {
      lastAlarmSequence := 0;
      oltDbCopy := oltDbCopy + alarmBitMapDB;
    }

    method HandleGetAllAlarmsResponse(n: uint16)
      requires Valid()
      modifies this`state, this`oltDbCopy, this`alarmUploadSeqNo, this`alarmUploadNoOfCmdsOrMEs, this`requests
      modifies this`outcome, this`lastAlarmSequence, this`bufferedNotifications, this`onuDBCopy
      ensures Valid()
      ensures UploadView() == if old(state) == Disabled then old(UploadView())
                              else if old(state) == Resynchronizing && 0 < n <= old(alarmUploadSeqNo) then Begin()
                              else OnAllAlarms(old(UploadView()), n, old(alarmBitMapDB))
      ensures old(state) == Auditing ==>
                && (state == Resynchronizing <==> outcome == Finished(true))
                && (state == InSync <==> outcome == Finished(false)) && (state == Auditing <==> !outcome.Finished?)
      ensures 0 < n <= old(alarmUploadSeqNo) && old(state) != Disabled && old(state) != Resynchronizing ==> outcome.Failed?
      ensures old(state) == Resynchronizing ==>
                state == if n == 0 && onuDBCopy == oltDbCopy then InSync
                         else if 0 < n <= old(alarmUploadSeqNo) then Auditing else Resynchronizing
      ensures old(state) != Auditing && old(state) != Resynchronizing ==> state == old(state)
      ensures bufferedNotifications == if old(state) == Resynchronizing && 0 < n <= old(alarmUploadSeqNo) then []
                                       else old(bufferedNotifications)
      ensures lastAlarmSequence == if old(state) == Disabled || 0 < n <= old(alarmUploadSeqNo)
                                   then old(lastAlarmSequence) else 0
    {
      if state == Disabled {
        return;
      }
      alarmUploadNoOfCmdsOrMEs := n;
      if alarmUploadSeqNo < alarmUploadNoOfCmdsOrMEs {
        TakeSnapshot();
        SendGetAllAlarmNext();
      } else if alarmUploadNoOfCmdsOrMEs == 0 {
        TakeSnapshot();
        FinishUpload();
      } else {
        FailUpload();
      }
    }

    /** Further entries of an extended message: each is stored and counted. */
    method StoreAdditional(more: seq<Entry>)
      modifies this`onuDBCopy, this`alarmUploadSeqNo
      ensures onuDBCopy == Collect(old(onuDBCopy), more)
      ensures alarmUploadSeqNo == Advance(old(alarmUploadSeqNo), |more|)
    {
      var i := 0;
      assert more[..0] == [];
      while i < |more|
        invariant 0 <= i <= |more|
        invariant onuDBCopy == Collect(old(onuDBCopy), more[..i])
            && alarmUploadSeqNo == Advance(old(alarmUploadSeqNo), i)
      {
        assert more[..i + 1][..i] == more[..i];
        onuDBCopy := onuDBCopy[more[i].key := more[i].bitmap];
        alarmUploadSeqNo := Inc16(alarmUploadSeqNo);
        i := i + 1;
      }
      assert more[..i] == more;
    }

    method StoreReply(r: Reply, extended: bool)
      modifies this`onuDBCopy, this`alarmUploadSeqNo
      ensures onuDBCopy == Collect(old(onuDBCopy)[r.first.key := r.first.bitmap], More(r, extended))
      ensures alarmUploadSeqNo == Advance(old(alarmUploadSeqNo), |More(r, extended)|)
    {
      onuDBCopy := onuDBCopy[r.first.key := r.first.bitmap];
      if extended {
        StoreAdditional(r.more);
      }
    }

    method HandleGetAllAlarmsNextResponse(r: Reply, extended: bool)
      requires Valid()
      modifies this`state, this`onuDBCopy, this`alarmUploadSeqNo, this`requests, this`outcome
      ensures Valid() && UploadView() == OnNext(old(UploadView()), r, extended)
      ensures old(state) == Auditing ==>
                && (state == Resynchronizing <==> outcome == Finished(true))
                && (state == InSync <==> outcome == Finished(false)) && (state == Auditing <==> !outcome.Finished?)
      ensures old(state) == Resynchronizing ==>
                state == if requests == old(requests) && onuDBCopy == oltDbCopy then InSync else Resynchronizing
      ensures old(state) != Auditing && old(state) != Resynchronizing ==> state == old(state)
    {
      StoreReply(r, extended);
      if alarmUploadSeqNo < alarmUploadNoOfCmdsOrMEs {
        SendGetAllAlarmNext();
      } else {
        FinishUpload();
      }
    }
  }

  function OnlyIn(a: map<Key, Bitmap>, b: map<Key, Bitmap>): map<Key, Bitmap> {
    map k | k in a && k !in b :: a[k]
  }

  function Differing(onu: map<Key, Bitmap>, olt: map<Key, Bitmap>): map<Key, Bitmap> {
    map k | k in onu && k in olt && onu[k] != olt[k] :: onu[k]
  }

  lemma {:induction false} DifferencesApart(lib: Library, known: set<Key>, onu: map<Key, Bitmap>, olt: map<Key, Bitmap>)
    ensures var first := map[] + HandledPart(lib, known, OnlyIn(onu, olt));
            var second := first + HandledPart(lib, known, OnlyIn(olt, onu));
            first.Keys !! OnlyIn(olt, onu).Keys && second.Keys !! Differing(onu, olt).Keys
  {
  }

  lemma {:induction false} PlanIsResync(lib: Library, known: set<Key>, onu: map<Key, Bitmap>, olt: map<Key, Bitmap>)
    ensures map[] + HandledPart(lib, known, OnlyIn(onu, olt)) + HandledPart(lib, known, OnlyIn(olt, onu))
            + HandledPart(lib, known, Differing(onu, olt))
         == ResyncPlan(lib, known, onu, olt)
  {
  }

  /** Starting again without a stop keeps the active alarms but drops the bitmaps: the two views agree if and only
      if no alarm was active. */
  lemma {:induction false} RestartInStepIff(lib: Library, active: set<Alarm>)
    ensures InStep(lib, Store(active, map[], [])) <==> active == {}
  {
    if InStep(lib, Store(active, map[], [])) {
      forall a ensures a !in active { }
    }
  }

  /** The plan once all entities of the table but those in `todo` were replayed. */
  function PlanSoFar(lib: Library, known: set<Key>, table: map<Key, Bitmap>, plan: map<Key, Bitmap>,
                     todo: set<Key>): map<Key, Bitmap> {
    plan + map k | k in table && Handled(lib, known, k) && k !in todo :: table[k]
  }

  lemma {:induction false} PlanStart(lib: Library, known: set<Key>, table: map<Key, Bitmap>, plan: map<Key, Bitmap>)
    ensures PlanSoFar(lib, known, table, plan, table.Keys) == plan
  {
  }

  lemma {:induction false} PlanEnds(lib: Library, known: set<Key>, table: map<Key, Bitmap>, plan: map<Key, Bitmap>)
    ensures PlanSoFar(lib, known, table, plan, {}) == plan + HandledPart(lib, known, table)
  {
  }

  lemma {:induction false} PlanGrows(lib: Library, known: set<Key>, table: map<Key, Bitmap>, plan: map<Key, Bitmap>,
                                     todo: set<Key>, key: Key)
    requires key in todo && todo <= table.Keys && plan.Keys !! table.Keys
    ensures key !in PlanSoFar(lib, known, table, plan, todo)
    ensures var now := PlanSoFar(lib, known, table, plan, todo);
            PlanSoFar(lib, known, table, plan, todo - {key}) == if Handled(lib, known, key)
                then now[key := table[key]] else now
  {
  }

  function HandledPart(lib: Library, known: set<Key>, table: map<Key, Bitmap>): map<Key, Bitmap> {
    map k | k in table && Handled(lib, known, k) :: table[k]
  }

  lemma {:induction false} CompareActive(active: set<Alarm>, mid: set<Alarm>, after: set<Alarm>, key: Key, b: Bitmap,
                                         seen: set<AlarmNo>, n: AlarmNo)
    requires n !in seen && mid == NewActive(active, key, b, seen)
    requires after == if n in b then mid + {Alarm(key, n)} else mid - {Alarm(key, n)}
    ensures after == NewActive(active, key, b, seen + {n})
  {
  }

  lemma {:induction false} CompareDb(s0: Store, mid: map<Key, Bitmap>, after: map<Key, Bitmap>, key: Key, b: Bitmap,
                                     seen: set<AlarmNo>, n: AlarmNo)
    requires mid == NewDb(s0.db, s0.active, key, b, seen)
    requires after == if Alarm(key, n) in s0.active && n !in b && Bits(mid, key) == {} then mid - {key} else mid
    ensures after == NewDb(s0.db, s0.active, key, b, seen + {n})
  {
    if b == {} && AnyActive(s0.active, key, seen + {n}) {
      var m :| m in seen + {n} && Alarm(key, m) in s0.active;
      assert m == n || AnyActive(s0.active, key, seen);
    }
    assert AnyActive(s0.active, key, seen) ==> AnyActive(s0.active, key, seen + {n});
  }

  /** Sending at most one notice, for the alarm that changed. */
  lemma {:induction false} CompareHistory(before: seq<Notice>, after: seq<Notice>, a: Alarm, was: bool, now: bool,
                                          x: Alarm)
    requires after == before + if was == now then [] else [Notice(a, now)]
    ensures History(after, x) == History(before, x) + if x == a then Told(was, now) else []
  {
    if was != now { HistorySnoc(before, Notice(a, now), x); } else { assert after == before; }
  }

  lemma {:induction false} CompareStep(s0: Store, s1: Store, s2: Store, key: Key, b: Bitmap, seen: set<AlarmNo>,
                                       n: AlarmNo)
    requires n !in seen && Processed(s0, s1, key, b, seen)
    requires s2.active == if n in b then s1.active + {Alarm(key, n)} else s1.active - {Alarm(key, n)}
    requires s2.db == if Alarm(key, n) in s1.active && n !in b && Bits(s1.db, key) == {} then s1.db - {key} else s1.db
    requires s2.sent == s1.sent + if (Alarm(key, n) in s1.active) == (n in b) then []
             else [Notice(Alarm(key, n), n in b)]
    ensures Processed(s0, s2, key, b, seen + {n})
  {
    var a := Alarm(key, n);
    assert a in s1.active <==> a in s0.active;
    CompareDb(s0, s1.db, s2.db, key, b, seen, n);
    CompareActive(s0.active, s1.active, s2.active, key, b, seen, n);
    forall x ensures History(s2.sent, x) == History(s0.sent, x) + Told(x in s0.active, x in s2.active) {
      CompareHistory(s1.sent, s2.sent, a, a in s1.active, n in b, x);
      if x == a { HistoryNext(History(s0.sent, x), x in s0.active, x in s1.active, x in s2.active); }
    }
  }
}
