/**
  Rows of the received frame VLAN tagging operation table (section 9.3.13 of G.988): how a rule is packed into
  16 bytes, what the ONU's table holds after a row was set, and what a row does to a frame.
*/
module Evtocd {
  import opened VlanModel

  // ---------------------------------------------------------------- bit fields

  const DO_NOT_FILTER_VID: bv32 := 4096
  const PRIO_DEFAULT_FILTER: bv32 := 14
  const PRIO_DO_NOT_FILTER: bv32 := 8
  const PRIO_NOT_A_TAG: bv32 := 15
  const DO_NOT_ADD: bv32 := 15
  const COPY_FROM_INNER: bv32 := 8
  const COPY_FROM_OUTER: bv32 := 9
  const OUTPUT_TPID_COPY_DEI: bv32 := 4
  const DELETE_ROW: bv32 := 0xFFFF_FFFF

  datatype FilterFields = FilterFields(prio: bv32, vid: bv32, tpid: bv32)
  datatype TreatFields = TreatFields(tagsToRemove: bv32, prio: bv32, vid: bv32, tpid: bv32)

  predicate FilterInRange(f: FilterFields) {
    f.prio < 16 && f.vid < 0x2000 && f.tpid < 8
  }

  predicate TreatInRange(t: TreatFields) {
    t.tagsToRemove < 4 && t.prio < 16 && t.vid < 0x2000 && t.tpid < 8
  }

  function PackFilter(f: FilterFields): bv32 {
    (f.prio << 28) | (f.vid << 15) | (f.tpid << 12)
  }

  function PackTreat(t: TreatFields): bv32 {
    (t.tagsToRemove << 30) | (t.prio << 16) | (t.vid << 3) | t.tpid
  }

  function UnpackFilter(w: bv32): FilterFields {
    FilterFields(w >> 28, (w >> 15) & 0x1FFF, (w >> 12) & 7)
  }

  function UnpackTreat(w: bv32): TreatFields {
    TreatFields(w >> 30, (w >> 16) & 0xF, (w >> 3) & 0x1FFF, w & 7)
  }

  lemma {:induction false} FilterRoundTrip(f: FilterFields)
    requires FilterInRange(f)
    ensures UnpackFilter(PackFilter(f)) == f && PackFilter(f) & 0xFFF == 0
  {
    var w := PackFilter(f);
    var p, v, t := f.prio, f.vid, f.tpid;
    FilterBits(p, v, t);
  }

  lemma {:induction false} FilterBits(p: bv32, v: bv32, t: bv32)
    requires p < 16 && v < 0x2000 && t < 8
    ensures var w := (p << 28) | (v << 15) | (t << 12);
            w >> 28 == p && (w >> 15) & 0x1FFF == v && (w >> 12) & 7 == t && w & 0xFFF == 0
  {
  }

  lemma {:induction false} TreatRoundTrip(t: TreatFields)
    requires TreatInRange(t)
    ensures UnpackTreat(PackTreat(t)) == t
  {
    TreatBits(t.tagsToRemove, t.prio, t.vid, t.tpid);
  }

  lemma {:induction false} TreatBits(r: bv32, p: bv32, v: bv32, t: bv32)
    requires r < 4 && p < 16 && v < 0x2000 && t < 8
    ensures var w := (r << 30) | (p << 16) | (v << 3) | t;
            w >> 30 == r && (w >> 16) & 0xF == p && (w >> 3) & 0x1FFF == v && w & 7 == t
  {
  }

  // ---------------------------------------------------------------- rows

  datatype Match = Match(outer: bv32, inner: bv32)
  datatype Treat = Treat(outer: bv32, inner: bv32)
  datatype Row = Row(key: Match, treat: Treat)

  /** The fields of a rule fit the bit fields of a row. */
  predicate InRange(r: Rule) {
    && r.matchVid < 0x2000 && r.matchPcp < 16 && r.tagsToRemove < 4
    && r.setVid < 0x2000 && r.setPcp < 16 && r.innerCvlan < 0x2000
  }

  const NotATag: bv32 := PackFilter(FilterFields(PRIO_NOT_A_TAG, DO_NOT_FILTER_VID, 0))

  const SingleTagged: Match := Match(NotATag, PackFilter(FilterFields(PRIO_DEFAULT_FILTER, DO_NOT_FILTER_VID, 0)))
  const Untagged: Match := Match(NotATag, NotATag)
  const PrioTagged: Match := Match(NotATag, PackFilter(FilterFields(PRIO_DO_NOT_FILTER, 0, 0)))

  const Forward: Treat :=
    Treat(PackTreat(TreatFields(0, DO_NOT_ADD, 0, 0)), PackTreat(TreatFields(0, DO_NOT_ADD, 0, 0)))
  const Delete: Treat := Treat(DELETE_ROW, DELETE_ROW)

  function TransparentRow(): Row {
    Row(SingleTagged, Treat(PackTreat(TreatFields(0, DO_NOT_ADD, 0, 0)),
                            PackTreat(TreatFields(0, DO_NOT_ADD, 0, OUTPUT_TPID_COPY_DEI))))
  }

  function SingleKey(r: Rule): Match {
    Match(NotATag, PackFilter(FilterFields(r.matchPcp as bv32, r.matchVid as bv32, 0)))
  }

  function SingleTreat(r: Rule): Treat {
    Treat(PackTreat(TreatFields(r.tagsToRemove as bv32, DO_NOT_ADD, 0, 0)),
          PackTreat(TreatFields(0, r.setPcp as bv32, r.setVid as bv32, OUTPUT_TPID_COPY_DEI)))
  }

  function DoubleKey(r: Rule): Match {
    Match(PackFilter(FilterFields(r.matchPcp as bv32, r.matchVid as bv32, 0)),
          PackFilter(FilterFields(PRIO_DEFAULT_FILTER, r.innerCvlan as bv32, 0)))
  }

  function DoubleTreat(r: Rule): Treat {
    Treat(PackTreat(TreatFields(r.tagsToRemove as bv32, COPY_FROM_OUTER, r.setVid as bv32, 0)),
          PackTreat(TreatFields(0, DO_NOT_ADD, r.innerCvlan as bv32, 0)))
  }

  function DoubleDeleteKey(r: Rule): Match {
    Match(PackFilter(FilterFields(PRIO_NOT_A_TAG, r.matchVid as bv32, 0)), NotATag)
  }

  function UntaggedRow(r: Rule): Row {
    Row(Untagged, Treat(PackTreat(TreatFields(0, DO_NOT_ADD, 0, 0)),
                        PackTreat(TreatFields(0, 0, r.setVid as bv32, OUTPUT_TPID_COPY_DEI))))
  }

  function PrioTaggedRow(r: Rule): Row {
    Row(PrioTagged, Treat(PackTreat(TreatFields(1, DO_NOT_ADD, 0, 0)),
                          PackTreat(TreatFields(0, COPY_FROM_INNER, r.setVid as bv32, OUTPUT_TPID_COPY_DEI))))
  }

  /** The rows sent for one rule. */
  function AddRows(incremental: bool, r: Rule): seq<Row> {
    if Transparent(r) && r.innerCvlan == OFPVID_NONE then [TransparentRow()]
    else if incremental then
      if r.innerCvlan == OFPVID_NONE then [Row(SingleKey(r), SingleTreat(r))] else [Row(DoubleKey(r), DoubleTreat(r))]
    else [UntaggedRow(r), PrioTaggedRow(r)]
  }

  datatype Withdrawal = Rows(rows: seq<Row>) | DeleteTable

  /** What is sent to take a rule back; without incremental rows the last flow deletes the whole table. */
  function RemoveRows(incremental: bool, configured: nat, r: Rule): Withdrawal {
    if Transparent(r) then Rows([Row(SingleTagged, Forward)])
    else if incremental then
      Rows([Row(if r.innerCvlan == OFPVID_NONE then SingleKey(r) else DoubleDeleteKey(r), Delete)])
    else if configured == 1 then DeleteTable
    else Rows([Row(Untagged, Forward), Row(PrioTagged, Delete)])
  }

  // ---------------------------------------------------------------- the table in the ONU

  type Table = map<Match, Treat>

  function SetRow(table: Table, row: Row): Table {
    if row.treat == Delete then table - {row.key} else table[row.key := row.treat]
  }

  function SetRows(table: Table, rows: seq<Row>): Table
    decreases |rows|
  {
    if rows == [] then table else SetRows(SetRow(table, rows[0]), rows[1..])
  }

  function Install(incremental: bool, table: Table, r: Rule): Table {
    SetRows(table, AddRows(incremental, r))
  }

  function Withdraw(incremental: bool, configured: nat, table: Table, r: Rule): Table {
    match RemoveRows(incremental, configured, r)
    case DeleteTable => map[]
    case Rows(rows) => SetRows(table, rows)
  }

  lemma {:induction false} SetOne(table: Table, row: Row)
    ensures SetRows(table, [row]) == SetRow(table, row)
  {
    assert SetRows(SetRow(table, row), [row][1..]) == SetRow(table, row);
  }

  lemma {:induction false} SetTwo(table: Table, a: Row, b: Row)
    ensures SetRows(table, [a, b]) == SetRow(SetRow(table, a), b)
  {
    assert [a, b][1..] == [b];
    SetOne(SetRow(table, a), b);
  }

  lemma {:induction false} NeverDelete(t: TreatFields)
    requires TreatInRange(t) && (t.vid == 0 || t.tpid == 0)
    ensures PackTreat(t) != DELETE_ROW
  {
    TreatRoundTrip(t);
    assert UnpackTreat(DELETE_ROW) == TreatFields(3, 15, 0x1FFF, 7);
  }

  lemma {:induction false} KeysDiffer(a: FilterFields, b: FilterFields)
    requires FilterInRange(a) && FilterInRange(b) && a != b
    ensures PackFilter(a) != PackFilter(b)
  {
    FilterRoundTrip(a);
    FilterRoundTrip(b);
  }

  lemma {:induction false} Widened(r: Rule)
    requires InRange(r)
    ensures r.matchVid as bv32 < 0x2000 && r.matchPcp as bv32 < 16 && r.tagsToRemove as bv32 < 4
    ensures r.setVid as bv32 < 0x2000 && r.setPcp as bv32 < 16 && r.innerCvlan as bv32 < 0x2000
  {
  }

  /** The rows of a rule set something: none of them is the delete pattern. */
  lemma {:induction false} RowsAreNotDeletes(r: Rule)
    requires InRange(r)
    ensures SingleTreat(r) != Delete && DoubleTreat(r) != Delete
  {
    assert r.tagsToRemove as bv32 < 4 && r.setVid as bv32 < 0x2000;
    NeverDelete(TreatFields(r.tagsToRemove as bv32, DO_NOT_ADD, 0, 0));
    NeverDelete(TreatFields(r.tagsToRemove as bv32, COPY_FROM_OUTER, r.setVid as bv32, 0));
  }

  lemma {:induction false} TransparentIsNotForward()
    ensures TransparentRow().treat != Forward && TransparentRow().treat != Delete && Forward != Delete
  {
    TreatRoundTrip(TreatFields(0, DO_NOT_ADD, 0, OUTPUT_TPID_COPY_DEI));
    TreatRoundTrip(TreatFields(0, DO_NOT_ADD, 0, 0));
    NeverDelete(TreatFields(0, DO_NOT_ADD, 0, 0));
  }

  /** Single-tagged rules: withdrawing takes back exactly the row that installing set. */
  lemma {:induction false} SingleRoundTrip(table: Table, r: Rule, configured: nat)
    requires InRange(r) && !Transparent(r) && r.innerCvlan == OFPVID_NONE
    ensures Install(true, table, r) == table[SingleKey(r) := SingleTreat(r)]
    ensures Withdraw(true, configured, Install(true, table, r), r) == table - {SingleKey(r)}
  {
    RowsAreNotDeletes(r);
    SetOne(table, Row(SingleKey(r), SingleTreat(r)));
    SetOne(Install(true, table, r), Row(SingleKey(r), Delete));
  }

  /** The one row that an incremental table gets for a rule. */
  function OwnRow(r: Rule): Row {
    if Transparent(r) && r.innerCvlan == OFPVID_NONE then TransparentRow()
    else if r.innerCvlan == OFPVID_NONE then Row(SingleKey(r), SingleTreat(r)) else Row(DoubleKey(r), DoubleTreat(r))
  }

  lemma {:induction false} DoubleKeyFields(r: Rule)
    requires InRange(r)
    ensures DoubleKey(r) != DoubleDeleteKey(r)
    ensures DoubleKey(r) == SingleTagged <==> r.matchPcp == 15 && r.matchVid == 4096 && r.innerCvlan == 4096
  {
    Widened(r);
    KeysDiffer(FilterFields(PRIO_DEFAULT_FILTER, r.innerCvlan as bv32, 0),
        FilterFields(PRIO_NOT_A_TAG, DO_NOT_FILTER_VID, 0));
    FilterRoundTrip(FilterFields(r.matchPcp as bv32, r.matchVid as bv32, 0));
    FilterRoundTrip(FilterFields(PRIO_NOT_A_TAG, DO_NOT_FILTER_VID, 0));
    FilterRoundTrip(FilterFields(PRIO_DEFAULT_FILTER, r.innerCvlan as bv32, 0));
    FilterRoundTrip(FilterFields(PRIO_DEFAULT_FILTER, DO_NOT_FILTER_VID, 0));
  }

  lemma {:induction false} DoubleIsNotForward(r: Rule)
    requires InRange(r)
    ensures DoubleTreat(r) != Forward
  {
    Widened(r);
    TreatRoundTrip(TreatFields(r.tagsToRemove as bv32, COPY_FROM_OUTER, r.setVid as bv32, 0));
    TreatRoundTrip(TreatFields(0, DO_NOT_ADD, 0, 0));
  }

  /** The withdrawal leaves no row of a rule behind if and only if the rule has no inner VLAN (or its double-tagged
      row happens to be the default row that withdrawing a transparent rule resets): every other double-tagged
      rule is deleted under filter words different from those it was installed with. */
  lemma {:induction false} OwnRowGoneIff(table: Table, r: Rule, configured: nat)
    requires InRange(r)
    ensures var own, left := OwnRow(r), Withdraw(true, configured, Install(true, table, r), r);
            !(own.key in left && left[own.key] == own.treat) <==>
            r.innerCvlan == OFPVID_NONE
            || (Transparent(r) && r.matchPcp == 15 && r.matchVid == 4096 && r.innerCvlan == 4096)
  {
    RowsAreNotDeletes(r);
    TransparentIsNotForward();
    DoubleKeyFields(r);
    DoubleIsNotForward(r);
    SetOne(table, OwnRow(r));
    var mid := Install(true, table, r);
    if Transparent(r) { SetOne(mid, Row(SingleTagged, Forward)); }
    else { SetOne(mid, Row(if r.innerCvlan == OFPVID_NONE then SingleKey(r) else DoubleDeleteKey(r), Delete)); }
  }

  /** A single-tagged rule can be read back from the words of its row: first what it matches, then what it does. */
  lemma {:induction false} SingleKeyDecodes(r: Rule)
    requires InRange(r)
    ensures UnpackFilter(SingleKey(r).outer) == FilterFields(PRIO_NOT_A_TAG, DO_NOT_FILTER_VID, 0)
    ensures UnpackFilter(SingleKey(r).inner) == FilterFields(r.matchPcp as bv32, r.matchVid as bv32, 0)
  {
    Widened(r);
    FilterRoundTrip(FilterFields(PRIO_NOT_A_TAG, DO_NOT_FILTER_VID, 0));
    FilterRoundTrip(FilterFields(r.matchPcp as bv32, r.matchVid as bv32, 0));
  }

  lemma {:induction false} SingleTreatDecodes(r: Rule)
    requires InRange(r)
    ensures UnpackTreat(SingleTreat(r).outer) == TreatFields(r.tagsToRemove as bv32, DO_NOT_ADD, 0, 0)
    ensures UnpackTreat(SingleTreat(r).inner) == TreatFields(0, r.setPcp as bv32, r.setVid as bv32,
            OUTPUT_TPID_COPY_DEI)
  {
    var remove, pcp, vid := r.tagsToRemove as bv32, r.setPcp as bv32, r.setVid as bv32;
    Widened(r);
    TreatRoundTrip(TreatFields(remove, DO_NOT_ADD, 0, 0));
    TreatRoundTrip(TreatFields(0, pcp, vid, OUTPUT_TPID_COPY_DEI));
  }

  // ---------------------------------------------------------------- bytes

  function Get32(b: seq<bv8>, at: nat): bv32
    requires at + 4 <= |b|
  {
    ((b[at] as bv32) << 24) | ((b[at + 1] as bv32) << 16) | ((b[at + 2] as bv32) << 8) | (b[at + 3] as bv32)
  }

  /** The bytes of a word, most significant first. */
  function Bytes32(v: bv32): (b: seq<bv8>)
    ensures |b| == 4
  {
    [((v >> 24) & 0xFF) as bv8, ((v >> 16) & 0xFF) as bv8, ((v >> 8) & 0xFF) as bv8, (v & 0xFF) as bv8]
  }

  lemma {:induction false} BigEndian(v: bv32)
    ensures Get32(Bytes32(v), 0) == v
  {
  }

  lemma {:induction false} Get32Of(s: seq<bv8>, at: nat, b: seq<bv8>)
    requires |b| == 4 && at + 4 <= |s| && s[at..at + 4] == b
    ensures Get32(s, at) == Get32(b, 0)
  {
    assert b[0] == s[at] && b[1] == s[at + 1] && b[2] == s[at + 2] && b[3] == s[at + 3];
  }

  /** Four bytes are copied in; the bytes around them stay. */
  method PutBytes(b: array<bv8>, at: nat, bytes: seq<bv8>)
    requires |bytes| == 4 && at + 4 <= b.Length
    modifies b
    ensures b[at..at + 4] == bytes
    ensures forall i | 0 <= i < b.Length && !(at <= i < at + 4) :: b[i] == old(b[i])
  {
    b[at], b[at + 1], b[at + 2], b[at + 3] := bytes[0], bytes[1], bytes[2], bytes[3];
  }

  /** Writes a word in network byte order. */
  method Put32(b: array<bv8>, at: nat, v: bv32)
    requires at + 4 <= b.Length
    modifies b
    ensures Get32(b[..], at) == v
    ensures forall i | 0 <= i < b.Length && !(at <= i < at + 4) :: b[i] == old(b[i])
  {
    PutBytes(b, at, Bytes32(v));
    assert b[..][at..at + 4] == b[at..at + 4];
    Get32Of(b[..], at, Bytes32(v));
    BigEndian(v);
  }

  function DecodeRow(b: seq<bv8>): Row
    requires |b| == 16
  {
    Row(Match(Get32(b, 0), Get32(b, 4)), Treat(Get32(b, 8), Get32(b, 12)))
  }

  /** The 16 bytes of a row decode back to the row. */
  method EncodeRow(row: Row) returns (b: array<bv8>)
    ensures fresh(b) && b.Length == 16 && DecodeRow(b[..]) == row
  {
    b := new bv8[16](_ => 0);
    Put32(b, 0, row.key.outer);
    Put32(b, 4, row.key.inner);
    Put32(b, 8, row.treat.outer);
    Put32(b, 12, row.treat.inner);
  }
}
