/**
  Upload of the ONU's alarm table (section 9.1.3 of G.988): one request announces the number of entries, further
  requests fetch them, each carrying a running sequence number.
*/
module AlarmUpload {
  import opened Words
  import opened Alarms

  datatype Entry = Entry(key: Key, bitmap: Bitmap)
  datatype Reply = Reply(first: Entry, more: seq<Entry>)   // further entries come in extended messages only
  datatype Outcome = Waiting | Finished(differs: bool) | Failed

  datatype Upload = Upload(seqNo: uint16, total: uint16, requests: seq<uint16>,
                           onu: map<Key, Bitmap>, olt: map<Key, Bitmap>, outcome: Outcome)

  datatype SyncState = Disabled | Starting | InSync | Auditing | Resynchronizing
  datatype SyncEvent = Success | Failure | Resync

  /** The transition table for the events that end an audit; an event that a state does not accept is lost. */
  function Fire(st: SyncState, ev: SyncEvent): SyncState {
    match ev
    case Success => if st.Auditing? || st.Resynchronizing? then InSync else st
    case Failure => if st.Auditing? || st.Resynchronizing? then Auditing else st
    case Resync => if st.Auditing? then Resynchronizing else st
  }

  /** The comparison at the end of an upload asks for a resynchronisation or for none. */
  function AfterUpload(st: SyncState, outcome: Outcome): SyncState {
    match outcome
    case Waiting => st
    case Failed => Fire(st, Failure)
    case Finished(differs) => Fire(st, if differs then Resync else Success)
  }

  /** Entering an audit: copies and counters are reset and the first request goes out. */
  function Begin(): Upload {
    Upload(0, 0, [], map[], map[], Waiting)
  }

  function SendNext(u: Upload): Upload {
    u.(requests := u.requests + [u.seqNo], seqNo := Inc16(u.seqNo))
  }

  function Finish(u: Upload): Upload {
    u.(outcome := Finished(u.onu != u.olt))
  }

  /** The announced number of entries; the stored bitmaps are copied for the later comparison. */
  function OnAllAlarms(u: Upload, n: uint16, db: map<Key, Bitmap>): Upload {
    var u1 := u.(total := n);
    if u.seqNo < n then SendNext(u1.(olt := u.olt + db))
    else if n == 0 then Finish(u1.(olt := u.olt + db))
    else u1.(outcome := Failed)
  }

  function Collect(table: map<Key, Bitmap>, entries: seq<Entry>): map<Key, Bitmap> {
    if entries == [] then table
    else Collect(table, entries[..|entries| - 1])[entries[|entries| - 1].key := entries[|entries| - 1].bitmap]
  }

  function Advance(n: uint16, k: nat): uint16 {
    (n + k) % 0x1_0000
  }

  function More(r: Reply, extended: bool): seq<Entry> { if extended then r.more else [] }

  function OnNext(u: Upload, r: Reply, extended: bool): Upload {
    var u1 := u.(onu := Collect(u.onu[r.first.key := r.first.bitmap], More(r, extended)),
                 seqNo := Advance(u.seqNo, |More(r, extended)|));
    if u1.seqNo < u1.total then SendNext(u1) else Finish(u1)
  }

  // ---------------------------------------------------------------- whole uploads

  function Entries(replies: seq<Reply>, extended: bool): seq<Entry> {
    if replies == [] then []
    else var last := replies[|replies| - 1];
         Entries(replies[..|replies| - 1], extended) + [last.first] + More(last, extended)
  }

  function RunUpload(u: Upload, replies: seq<Reply>, extended: bool): Upload {
    if replies == [] then u
    else OnNext(RunUpload(u, replies[..|replies| - 1], extended), replies[|replies| - 1], extended)
  }

  /** Every reply answers a request, and the entries can be counted in 16 bits; the last reply may bring more than
      what is still missing. */
  ghost predicate Fits(replies: seq<Reply>, extended: bool, n: nat) {
    && |Entries(replies, extended)| < 0x1_0000
    && forall i | 0 <= i < |replies| :: |Entries(replies[..i], extended)| < n
  }

  lemma {:induction false} CollectMore(table: map<Key, Bitmap>, a: seq<Entry>, b: seq<Entry>)
    ensures Collect(Collect(table, a), b) == Collect(table, a + b)
  {
    if b == [] {
      assert a + b == a;
    } else {
      CollectMore(table, a, b[..|b| - 1]);
      assert (a + b)[..|a + b| - 1] == a + b[..|b| - 1];
    }
  }

  lemma {:induction false} CollectOne(table: map<Key, Bitmap>, e: Entry)
    ensures Collect(table, [e]) == table[e.key := e.bitmap]
  {
    assert [e][..0] == [];
  }

  lemma {:induction false} FitsBefore(replies: seq<Reply>, extended: bool, n: nat)
    requires Fits(replies, extended, n) && replies != []
    ensures Fits(replies[..|replies| - 1], extended, n) && |Entries(replies[..|replies| - 1], extended)| < n
  {
    var front := replies[..|replies| - 1];
    assert forall i | 0 <= i < |front| :: front[..i] == replies[..i];
  }

  /** The state of an upload after any number of replies: the k-th request carries the number of entries received
      before it, and the upload ends with the reply that reaches or passes the announced number. */
  ghost predicate Progress(u: Upload, replies: seq<Reply>, extended: bool, n: nat) {
    var c := |Entries(replies, extended)|;
    && u.total == n && u.onu == Collect(map[], Entries(replies, extended))
    && u.seqNo == (if c < n then c + 1 else c)
    && (u.outcome.Waiting? <==> c < n) && !u.outcome.Failed?
    && |u.requests| == (if c < n then |replies| + 1 else |replies|)
    && forall k | 0 <= k < |u.requests| :: k <= |replies| && u.requests[k] == |Entries(replies[..k], extended)|
  }

  lemma {:induction false} EntriesSnoc(replies: seq<Reply>, r: Reply, extended: bool)
    ensures Entries(replies + [r], extended) == Entries(replies, extended) + [r.first] + More(r, extended)
    ensures forall k | 0 <= k <= |replies| :: (replies + [r])[..k] == replies[..k]
  {
    assert (replies + [r])[..|replies|] == replies;
  }

  lemma {:induction false} NextTable(replies: seq<Reply>, r: Reply, extended: bool)
    ensures Collect(Collect(map[], Entries(replies, extended))[r.first.key := r.first.bitmap], More(r, extended))
         == Collect(map[], Entries(replies + [r], extended))
  {
    var before := Entries(replies, extended);
    EntriesSnoc(replies, r, extended);
    CollectOne(Collect(map[], before), r.first);
    CollectMore(map[], before, [r.first]);
    CollectMore(map[], before + [r.first], More(r, extended));
  }

  /** What one more reply does to the counters. */
  lemma {:induction false} NextCounts(u: Upload, r: Reply, extended: bool, c: nat)
    requires u.outcome.Waiting? && c == u.seqNo + |More(r, extended)| < 0x1_0000
    ensures var u1 := OnNext(u, r, extended);
            && u1.seqNo == (if c < u.total then c + 1 else c)
            && u1.requests == u.requests + (if c < u.total then [c] else [])
            && (u1.outcome.Waiting? <==> c < u.total) && !u1.outcome.Failed? && u1.total == u.total
  {
    assert Advance(u.seqNo, |More(r, extended)|) == c;
  }

  lemma {:induction false} NextProgress(u: Upload, replies: seq<Reply>, r: Reply, extended: bool, n: uint16)
    requires Progress(u, replies, extended, n) && |Entries(replies, extended)| < n
    requires |Entries(replies + [r], extended)| < 0x1_0000
    ensures Progress(OnNext(u, r, extended), replies + [r], extended, n)
  {
    var all, u1 := replies + [r], OnNext(u, r, extended);
    EntriesSnoc(replies, r, extended);
    NextCounts(u, r, extended, |Entries(all, extended)|);
    NextOnu(u, replies, r, extended);
    forall k | 0 <= k < |u1.requests| ensures k <= |all| && u1.requests[k] == |Entries(all[..k], extended)| {
      if k == |all| { assert all[..k] == all; }
    }
  }

  lemma {:induction false} NextOnu(u: Upload, replies: seq<Reply>, r: Reply, extended: bool)
    requires u.onu == Collect(map[], Entries(replies, extended))
    ensures OnNext(u, r, extended).onu == Collect(map[], Entries(replies + [r], extended))
  {
    NextTable(replies, r, extended);
  }

  lemma {:induction false} UploadProgress(replies: seq<Reply>, extended: bool, n: uint16, db: map<Key, Bitmap>)
    requires Fits(replies, extended, n)
    ensures Progress(RunUpload(OnAllAlarms(Begin(), n, db), replies, extended), replies, extended, n)
  {
    if replies != [] {
      var front, last := replies[..|replies| - 1], replies[|replies| - 1];
      FitsBefore(replies, extended, n);
      UploadProgress(front, extended, n, db);
      assert front + [last] == replies;
      NextProgress(RunUpload(OnAllAlarms(Begin(), n, db), front, extended), front, last, extended, n);
    }
  }

  lemma {:induction false} EntriesAtLeast(replies: seq<Reply>, extended: bool)
    ensures |Entries(replies, extended)| >= |replies|
    ensures !extended ==> |Entries(replies, extended)| == |replies|
  {
    if replies != [] { EntriesAtLeast(replies[..|replies| - 1], extended); }
  }

  /** An upload of `n` entries takes at most `n` replies, never fails, and is finished if and only if at least `n`
      entries are there; in baseline mode the requests are numbered 0, 1, 2, ... and bring exactly `n` entries. */
  lemma {:induction false} UploadTerminates(replies: seq<Reply>, extended: bool, n: uint16, db: map<Key, Bitmap>)
    requires Fits(replies, extended, n)
    ensures |replies| <= n
    ensures var u := RunUpload(OnAllAlarms(Begin(), n, db), replies, extended);
            && !u.outcome.Failed?
            && (u.outcome.Finished? <==> |Entries(replies, extended)| >= n)
            && u.onu == Collect(map[], Entries(replies, extended))
            && (!extended ==> forall k | 0 <= k < |u.requests| :: u.requests[k] == k)
            && (!extended && u.outcome.Finished? ==> |u.requests| == |Entries(replies, extended)| == n)
  {
    EntriesAtLeast(replies, extended);
    if replies != [] {
      FitsBefore(replies, extended, n);
      EntriesAtLeast(replies[..|replies| - 1], extended);
    }
    UploadProgress(replies, extended, n, db);
    var u := RunUpload(OnAllAlarms(Begin(), n, db), replies, extended);
    forall k | 0 <= k < |u.requests| && !extended ensures u.requests[k] == k {
      EntriesAtLeast(replies[..k], extended);
    }
  }

  /** The copy of the ONU's table holds for every key the bitmap of its last entry, and no other key. */
  lemma {:induction false} CollectIsLast(entries: seq<Entry>, k: Key)
    ensures k in Collect(map[], entries) <==> exists i :: 0 <= i < |entries| && entries[i].key == k
    ensures forall i | 0 <= i < |entries| && entries[i].key == k
            && (forall j | i < j < |entries| :: entries[j].key != k) ::
              Collect(map[], entries)[k] == entries[i].bitmap
  {
    if entries != [] {
      var front, last := entries[..|entries| - 1], entries[|entries| - 1];
      CollectIsLast(front, k);
      if k != last.key {
        if k in Collect(map[], front) {
          var i :| 0 <= i < |front| && front[i].key == k;
          assert entries[i].key == k;
        }
        if i :| 0 <= i < |entries| && entries[i].key == k { assert front[i].key == k; }
        forall i | 0 <= i < |entries| && entries[i].key == k && (forall j | i < j < |entries| :: entries[j].key != k)
          ensures Collect(map[], entries)[k] == entries[i].bitmap
        {
          assert front[i].key == k;
        }
      }
    }
  }

  lemma {:induction false} SnapshotKept(replies: seq<Reply>, extended: bool, n: uint16, db: map<Key, Bitmap>)
    ensures RunUpload(OnAllAlarms(Begin(), n, db), replies, extended).olt == db
  {
    if replies == [] {
      assert map[] + db == db;
    } else {
      SnapshotKept(replies[..|replies| - 1], extended, n, db);
    }
  }

  /** A count that the requests sent so far have already reached, other than 0, fails the upload; this is the only way. */
  lemma {:induction false} CountFailsIff(u: Upload, n: uint16, db: map<Key, Bitmap>, r: Reply, extended: bool)
    requires u.outcome.Waiting?
    ensures OnAllAlarms(u, n, db).outcome.Failed? <==> 0 < n <= u.seqNo
    ensures !OnNext(u, r, extended).outcome.Failed?
  {
  }

  /** Where an audit stands after any number of replies: it waits while entries are missing; once they are all there it is
      in sync if the last bitmap of every reported entity is the stored one and nothing else is stored, and resynchronises
      otherwise. */
  lemma {:induction false} AuditEndsIn(replies: seq<Reply>, extended: bool, n: uint16, db: map<Key, Bitmap>)
    requires Fits(replies, extended, n)
    ensures var st := AfterUpload(Auditing, RunUpload(OnAllAlarms(Begin(), n, db), replies, extended).outcome);
            && (st.Auditing? <==> |Entries(replies, extended)| < n)
            && (st.Resynchronizing? <==> |Entries(replies, extended)| >= n
                                         && Collect(map[], Entries(replies, extended)) != db)
            && (st.InSync? <==> |Entries(replies, extended)| >= n && Collect(map[], Entries(replies, extended)) == db)
  {
    UploadProgress(replies, extended, n, db);
    SnapshotKept(replies, extended, n, db);
    if |Entries(replies, extended)| >= n { LastReplyCompares(replies, extended, n, db); }
  }

  /** A whole audit: once all entries are there it is over, or the state machine resynchronises (and then it is over).
      Every handled entity that the ONU reported ends with the bitmap of its last entry, all other entities keep theirs,
      and both views stay in step. */
  lemma {:induction false} AuditAdoptsOnu(lib: Library, known: set<Key>, s: Store, s1: Store,
                                          replies: seq<Reply>, extended: bool, n: uint16)
    requires InStep(lib, s) && Fits(replies, extended, n) && |Entries(replies, extended)| >= n
    requires var u := RunUpload(OnAllAlarms(Begin(), n, s.db), replies, extended);
             if AfterUpload(Auditing, u.outcome).Resynchronizing?
             then Planned(lib, s, s1, ResyncPlan(lib, known, u.onu, u.olt)) else s1 == s
    ensures InStep(lib, s1)
    ensures var onu := Collect(map[], Entries(replies, extended));
            forall k :: Bits(s1.db, k) == if k in onu && Handled(lib, known, k) then onu[k] else Bits(s.db, k)
  {
    UploadProgress(replies, extended, n, s.db);
    SnapshotKept(replies, extended, n, s.db);
    AuditEndsIn(replies, extended, n, s.db);
    var onu := Collect(map[], Entries(replies, extended));
    if onu != s.db { ResyncAdoptsOnu(lib, known, s, s1, onu); }
  }

  lemma {:induction false} LastReplyCompares(replies: seq<Reply>, extended: bool, n: uint16, db: map<Key, Bitmap>)
    requires Fits(replies, extended, n) && |Entries(replies, extended)| >= n
    ensures var u := RunUpload(OnAllAlarms(Begin(), n, db), replies, extended); u.outcome == Finished(u.onu != u.olt)
  {
    UploadProgress(replies, extended, n, db);
    if replies != [] {
      FitsBefore(replies, extended, n);
      UploadProgress(replies[..|replies| - 1], extended, n, db);
    }
  }
}
