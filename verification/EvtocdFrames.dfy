/**
  What the rows of the tagging table do to a received frame, following the field meanings of section 9.3.13
  of G.988.  A frame is its stack of VLAN tags, outermost first.
*/
module EvtocdFrames {
  import opened VlanModel
  import opened Evtocd

  datatype Tag = Tag(pcp: bv32, vid: bv32)
  type Frame = seq<Tag>

  /** Priority 8 and the default-rule code 14 accept every tag, VID 4096 accepts every VID. */
  predicate TagMatches(f: FilterFields, t: Tag) {
    (f.prio == PRIO_DO_NOT_FILTER || f.prio == PRIO_DEFAULT_FILTER || f.prio == t.pcp)
    && (f.vid == DO_NOT_FILTER_VID || f.vid == t.vid)
  }

  /** Priority 15 says that the tag is absent: both for untagged rules, the outer one for single-tagged rules. */
  predicate Matches(key: Match, f: Frame) {
    match key
    case Match(o, i) => FieldsMatch(UnpackFilter(o), UnpackFilter(i), f)
  }

  predicate FieldsMatch(outer: FilterFields, inner: FilterFields, f: Frame) {
    match inner
    case FilterFields(prio, _, _) =>
      if prio == PRIO_NOT_A_TAG then f == []
      else if outer.prio == PRIO_NOT_A_TAG then |f| == 1 && TagMatches(inner, f[0])
      else |f| == 2 && TagMatches(outer, f[0]) && TagMatches(inner, f[1])
  }

  function Innermost(f: Frame): Tag { if f == [] then Tag(0, 0) else f[|f| - 1] }
  function Outermost(f: Frame): Tag { if f == [] then Tag(0, 0) else f[0] }

  function NewTag(t: TreatFields, f: Frame): seq<Tag> {
    if t.prio == DO_NOT_ADD then []
    else [Tag(if t.prio == COPY_FROM_INNER then Innermost(f).pcp
              else if t.prio == COPY_FROM_OUTER then Outermost(f).pcp else t.prio,
              if t.vid == 4096 then Innermost(f).vid else if t.vid == 4097 then Outermost(f).vid else t.vid)]
  }

  function Popped(f: Frame, n: bv32): Frame {
    if n == 0 then f else if n == 1 then f[if f == [] then 0 else 1..] else if n == 2 && |f| >= 2 then f[2..] else []
  }

  /** Tags are removed from the front, then the inner and the outer new tag are pushed. */
  function Apply(t: Treat, f: Frame): Frame {
    var outer, inner := UnpackTreat(t.outer), UnpackTreat(t.inner);
    NewTag(outer, f) + NewTag(inner, f) + Popped(f, outer.tagsToRemove)
  }

  // ---------------------------------------------------------------- rows without incremental configuration

  lemma {:induction false} NotATagDecodes()
    ensures UnpackFilter(NotATag) == FilterFields(PRIO_NOT_A_TAG, DO_NOT_FILTER_VID, 0)
    ensures UnpackFilter(PrioTagged.inner) == FilterFields(PRIO_DO_NOT_FILTER, 0, 0)
    ensures UnpackFilter(SingleTagged.inner) == FilterFields(PRIO_DEFAULT_FILTER, DO_NOT_FILTER_VID, 0)
  {
    FilterRoundTrip(FilterFields(PRIO_NOT_A_TAG, DO_NOT_FILTER_VID, 0));
    FilterRoundTrip(FilterFields(PRIO_DO_NOT_FILTER, 0, 0));
    FilterRoundTrip(FilterFields(PRIO_DEFAULT_FILTER, DO_NOT_FILTER_VID, 0));
  }

  lemma {:induction false} UntaggedRowDecodes(r: Rule)
    requires InRange(r)
    ensures UnpackTreat(UntaggedRow(r).treat.outer) == TreatFields(0, DO_NOT_ADD, 0, 0)
    ensures UnpackTreat(UntaggedRow(r).treat.inner) == TreatFields(0, 0, r.setVid as bv32, OUTPUT_TPID_COPY_DEI)
  {
    var vid := r.setVid as bv32;
    assert vid < 0x2000;
    TreatRoundTrip(TreatFields(0, DO_NOT_ADD, 0, 0));
    TreatRoundTrip(TreatFields(0, 0, vid, OUTPUT_TPID_COPY_DEI));
  }

  lemma {:induction false} PrioTaggedRowDecodes(r: Rule)
    requires InRange(r)
    ensures UnpackTreat(PrioTaggedRow(r).treat.outer) == TreatFields(1, DO_NOT_ADD, 0, 0)
    ensures UnpackTreat(PrioTaggedRow(r).treat.inner) == TreatFields(0, COPY_FROM_INNER, r.setVid as bv32,
            OUTPUT_TPID_COPY_DEI)
  {
    var vid := r.setVid as bv32;
    assert vid < 0x2000;
    TreatRoundTrip(TreatFields(1, DO_NOT_ADD, 0, 0));
    TreatRoundTrip(TreatFields(0, COPY_FROM_INNER, vid, OUTPUT_TPID_COPY_DEI));
  }

  predicate UntaggedOrPriority(f: Frame) {
    f == [] || (|f| == 1 && f[0].vid == 0)
  }

  lemma {:induction false} StackingMatches(r: Rule, f: Frame)
    ensures Matches(UntaggedRow(r).key, f) <==> f == []
    ensures Matches(PrioTaggedRow(r).key, f) <==> |f| == 1 && f[0].vid == 0
  {
    NotATagDecodes();
  }

  lemma {:induction false} StackingApplies(r: Rule, f: Frame)
    requires InRange(r) && r.setVid < 4096
    ensures f == [] ==> Apply(UntaggedRow(r).treat, f) == [Tag(0, r.setVid as bv32)]
    ensures |f| == 1 ==> Apply(PrioTaggedRow(r).treat, f) == [Tag(f[0].pcp, r.setVid as bv32)]
  {
    UntaggedRowDecodes(r);
    PrioTaggedRowDecodes(r);
    assert r.setVid as bv32 < 4096;
  }

  lemma {:induction false} StackingTable(r: Rule)
    requires InRange(r) && !Transparent(r)
    ensures Install(false, map[], r) ==
            map[UntaggedRow(r).key := UntaggedRow(r).treat, PrioTaggedRow(r).key := PrioTaggedRow(r).treat]
  {
    NeverDelete(TreatFields(0, DO_NOT_ADD, 0, 0));
    NeverDelete(TreatFields(1, DO_NOT_ADD, 0, 0));
    SetTwo(map[], UntaggedRow(r), PrioTaggedRow(r));
  }

  /** Without incremental rows: exactly the untagged and priority-tagged frames are matched, by one row each, and they
      leave with one tag that carries the VID of the rule; a priority tag passes its priority on. */
  lemma {:induction false} StackingTags(r: Rule, f: Frame)
    requires InRange(r) && !Transparent(r) && r.setVid < 4096
    ensures var table := Install(false, map[], r);
            && (UntaggedOrPriority(f) <==> exists key :: key in table && Matches(key, f))
            && forall key | key in table && Matches(key, f) ::
                 Apply(table[key], f) == [Tag(if f == [] then 0 else f[0].pcp, r.setVid as bv32)]
  {
    StackingTable(r);
    StackingMatches(r, f);
    StackingApplies(r, f);
    NotATagDecodes();
    assert UntaggedRow(r).key != PrioTaggedRow(r).key;
    var table := Install(false, map[], r);
    if f == [] { assert UntaggedRow(r).key in table; }
    if |f| == 1 && f[0].vid == 0 { assert PrioTaggedRow(r).key in table; }
  }

  // ---------------------------------------------------------------- incremental single-tagged rows

  /** The frames that a rule asks for: untagged ones, or single-tagged ones by priority and VID. */
  predicate Selects(r: Rule, f: Frame) {
    if r.matchPcp == PRIO_IGNORE_TAG then f == []
    else && |f| == 1
         && (r.matchPcp == 8 || r.matchPcp == 14 || r.matchPcp as bv32 == f[0].pcp)
         && (r.matchVid == 4096 || r.matchVid as bv32 == f[0].vid)
  }

  /** What the rule promises for such a frame: a single tag with the VID and the priority to set. */
  function Translated(r: Rule, f: Frame): Frame {
    [Tag(if r.setPcp != COPY_PRIO_FROM_INNER then r.setPcp as bv32 else if f == [] then 0 else f[0].pcp,
         r.setVid as bv32)]
  }

  /** The row of a rule that looks at a tag takes exactly the frames that the rule asks for. */
  lemma {:induction false} TaggedMatches(r: Rule, f: Frame)
    requires InRange(r) && r.matchPcp != PRIO_IGNORE_TAG
    ensures Matches(SingleKey(r), f) <==> Selects(r, f)
  {
    SingleKeyDecodes(r);
    Widened(r);
  }

  /** And it rewrites the VID, and nothing else about the stack. */
  lemma {:induction false} TaggedTranslation(r: Rule, f: Frame)
    requires InRange(r) && |f| == 1 && r.matchPcp != PRIO_IGNORE_TAG && r.tagsToRemove == 1
    requires r.setVid < 4096 && r.setPcp <= 8
    ensures Apply(SingleTreat(r), f) == Translated(r, f)
  {
    SingleTreatDecodes(r);
    Widened(r);
  }

  /** Match priority 15 says that there is no tag: the row matches exactly the untagged frames, whatever VID it names,
      and adds one tag. */
  lemma {:induction false} UntaggedTranslation(r: Rule, f: Frame)
    requires InRange(r) && r.matchPcp == PRIO_IGNORE_TAG && r.setVid < 4096 && r.setPcp <= 8
    ensures Matches(SingleKey(r), f) <==> Selects(r, f)
    ensures Selects(r, f) ==> Apply(SingleTreat(r), f) == Translated(r, f)
  {
    SingleKeyDecodes(r);
    SingleTreatDecodes(r);
    Widened(r);
  }

  /** For every rule of an incremental add request (see Normalize: a rule that filters on a tag pops one), with a plain
      VID to set and a priority to set or to copy: its row takes exactly the frames that the rule asks for, and each
      leaves with one tag that carries the VID to set. */
  lemma {:induction false} TranslationTags(r: Rule, f: Frame)
    requires InRange(r) && (r.matchPcp != PRIO_IGNORE_TAG ==> r.tagsToRemove == 1)
    requires r.setVid < 4096 && r.setPcp <= 8
    ensures Matches(SingleKey(r), f) <==> Selects(r, f)
    ensures Matches(SingleKey(r), f) ==> Apply(SingleTreat(r), f) == Translated(r, f)
  {
    if r.matchPcp == PRIO_IGNORE_TAG {
      UntaggedTranslation(r, f);
    } else {
      TaggedMatches(r, f);
      if Selects(r, f) { TaggedTranslation(r, f); }
    }
  }

  // ---------------------------------------------------------------- incremental double-tagged rows

  lemma {:induction false} DoubleOuterKeyDecodes(r: Rule)
    requires InRange(r)
    ensures UnpackFilter(DoubleKey(r).outer) == FilterFields(r.matchPcp as bv32, r.matchVid as bv32, 0)
  {
    Widened(r);
    FilterRoundTrip(FilterFields(r.matchPcp as bv32, r.matchVid as bv32, 0));
  }

  lemma {:induction false} DoubleInnerKeyDecodes(r: Rule)
    requires InRange(r)
    ensures UnpackFilter(DoubleKey(r).inner) == FilterFields(PRIO_DEFAULT_FILTER, r.innerCvlan as bv32, 0)
  {
    Widened(r);
    FilterRoundTrip(FilterFields(PRIO_DEFAULT_FILTER, r.innerCvlan as bv32, 0));
  }

  lemma {:induction false} DoubleOuterTreatDecodes(r: Rule)
    requires InRange(r)
    ensures UnpackTreat(DoubleTreat(r).outer) == TreatFields(r.tagsToRemove as bv32, COPY_FROM_OUTER, r.setVid as bv32, 0)
  {
    Widened(r);
    TreatRoundTrip(TreatFields(r.tagsToRemove as bv32, COPY_FROM_OUTER, r.setVid as bv32, 0));
  }

  lemma {:induction false} DoubleInnerTreatDecodes(r: Rule)
    requires InRange(r)
    ensures UnpackTreat(DoubleTreat(r).inner) == TreatFields(0, DO_NOT_ADD, r.innerCvlan as bv32, 0)
  {
    Widened(r);
    TreatRoundTrip(TreatFields(0, DO_NOT_ADD, r.innerCvlan as bv32, 0));
  }

  /** The frames that a rule with an inner VLAN asks for: two tags, the outer one by priority and VID, the inner one by VID.
      A rule that ignores the outer tag says that there is none, and its inner VLAN is looked for in a single tag. */
  predicate SelectsDouble(r: Rule, f: Frame) {
    match r
    case Rule(_, pcp, _, _, _, _, _) =>
      if pcp == PRIO_IGNORE_TAG then |f| == 1 && InnerAsked(r, f[0])
      else |f| == 2 && OuterAsked(r, f[0]) && InnerAsked(r, f[1])
  }

  /** The new outer tag keeps the priority of the old one; the tags below are those that were not taken off. */
  function Restacked(f: Frame, vid: bv32, popped: bool): Frame
    requires f != []
  {
    [Tag(f[0].pcp, vid)] + if popped then f[1..] else f
  }

  /** What the rule says about the outer tag, and about the inner one. */
  predicate OuterAsked(r: Rule, t: Tag) {
    match r
    case Rule(vid, pcp, _, _, _, _, _) =>
      (pcp == 8 || pcp == 14 || pcp as bv32 == t.pcp) && (vid == 4096 || vid as bv32 == t.vid)
  }

  predicate InnerAsked(r: Rule, t: Tag) {
    match r
    case Rule(_, _, _, _, _, cvlan, _) => cvlan == 4096 || cvlan as bv32 == t.vid
  }

  lemma {:induction false} OuterTaken(r: Rule, t: Tag)
    ensures TagMatches(FilterFields(r.matchPcp as bv32, r.matchVid as bv32, 0), t) <==> OuterAsked(r, t)
  {
  }

  lemma {:induction false} InnerTaken(r: Rule, t: Tag)
    ensures TagMatches(FilterFields(PRIO_DEFAULT_FILTER, r.innerCvlan as bv32, 0), t) <==> InnerAsked(r, t)
  {
  }

  lemma {:induction false} IgnoredTag(r: Rule)
    ensures r.matchPcp as bv32 == PRIO_NOT_A_TAG <==> r.matchPcp == PRIO_IGNORE_TAG
  {
  }

  lemma {:induction false} DoubleSelects(r: Rule, outer: FilterFields, inner: FilterFields, f: Frame)
    requires inner.prio != PRIO_NOT_A_TAG && (outer.prio == PRIO_NOT_A_TAG <==> r.matchPcp == PRIO_IGNORE_TAG)
    requires forall t: Tag :: TagMatches(outer, t) <==> OuterAsked(r, t)
    requires forall t: Tag :: TagMatches(inner, t) <==> InnerAsked(r, t)
    ensures FieldsMatch(outer, inner, f) <==> SelectsDouble(r, f)
  {
  }

  lemma {:induction false} DoubleMatches(r: Rule, f: Frame)
    requires InRange(r)
    ensures Matches(DoubleKey(r), f) <==> SelectsDouble(r, f)
  {
    DoubleOuterKeyDecodes(r);
    DoubleInnerKeyDecodes(r);
    var outer := FilterFields(r.matchPcp as bv32, r.matchVid as bv32, 0);
    var inner := FilterFields(PRIO_DEFAULT_FILTER, r.innerCvlan as bv32, 0);
    forall t: Tag ensures TagMatches(outer, t) <==> OuterAsked(r, t) { OuterTaken(r, t); }
    forall t: Tag ensures TagMatches(inner, t) <==> InnerAsked(r, t) { InnerTaken(r, t); }
    IgnoredTag(r);
    DoubleSelects(r, outer, inner, f);
  }

  /** A row by what its treatment words decode to. */
  lemma {:induction false} ApplyBy(t: Treat, outer: TreatFields, inner: TreatFields, f: Frame)
    requires UnpackTreat(t.outer) == outer && UnpackTreat(t.inner) == inner
    ensures Apply(t, f) == NewTag(outer, f) + NewTag(inner, f) + Popped(f, outer.tagsToRemove)
  {
  }

  lemma {:induction false} RestackedIs(r: Rule, f: Frame)
    requires f != [] && r.tagsToRemove <= 1 && r.setVid < 4096
    ensures NewTag(TreatFields(r.tagsToRemove as bv32, COPY_FROM_OUTER, r.setVid as bv32, 0), f)
            + Popped(f, r.tagsToRemove as bv32) == Restacked(f, r.setVid as bv32, r.tagsToRemove != 0)
  {
    assert r.setVid as bv32 < 4096;
  }

  lemma {:induction false} DoubleApplies(r: Rule, f: Frame)
    requires InRange(r) && f != [] && r.tagsToRemove <= 1 && r.setVid < 4096
    ensures Apply(DoubleTreat(r), f) == Restacked(f, r.setVid as bv32, r.tagsToRemove != 0)
  {
    DoubleOuterTreatDecodes(r);
    DoubleInnerTreatDecodes(r);
    var outer := TreatFields(r.tagsToRemove as bv32, COPY_FROM_OUTER, r.setVid as bv32, 0);
    var inner := TreatFields(0, DO_NOT_ADD, r.innerCvlan as bv32, 0);
    ApplyBy(DoubleTreat(r), outer, inner, f);
    RestackedIs(r, f);
    assert NewTag(outer, f) + [] == NewTag(outer, f);
  }

  lemma {:induction false} DoubleTable(r: Rule)
    requires InRange(r) && r.innerCvlan != OFPVID_NONE
    ensures Install(true, map[], r) == map[DoubleKey(r) := DoubleTreat(r)]
  {
    RowsAreNotDeletes(r);
    SetOne(map[], Row(DoubleKey(r), DoubleTreat(r)));
  }

  /** For every rule with an inner VLAN and a plain VID to set, on an empty table: exactly the frames that the rule asks for
      are taken, and each leaves with one new outer tag that has the VID to set and the priority of the tag that was there,
      over the tags that stay. */
  lemma {:induction false} DoubleTags(r: Rule, f: Frame)
    requires InRange(r) && r.innerCvlan != OFPVID_NONE && r.tagsToRemove <= 1 && r.setVid < 4096
    ensures var table := Install(true, map[], r);
            && (SelectsDouble(r, f) <==> exists key :: key in table && Matches(key, f))
            && forall key | key in table && Matches(key, f) ::
                 f != [] && Apply(table[key], f) == Restacked(f, r.setVid as bv32, r.tagsToRemove != 0)
  {
    DoubleTable(r);
    DoubleMatches(r, f);
    if SelectsDouble(r, f) {
      DoubleApplies(r, f);
      assert DoubleKey(r) in Install(true, map[], r);
    }
  }

  /** Every incremental request with an inner VLAN is covered.  It filters on two tags and replaces the outer one, unless
      it does not filter on the outer VID; then it is met by single-tagged frames only, and stacks a second tag on them. */
  lemma {:induction false} DoubleRequest(tpId: bv8, matchVlan: bv16, matchPcp: bv8, setVlan: bv16, setPcp: bv8,
                                         innerCvlan: bv16, f: Frame)
    requires setVlan < 4096 && matchPcp != PRIO_IGNORE_TAG
    ensures var r := Normalize(true, tpId, matchVlan, matchPcp, setVlan, setPcp, innerCvlan);
            && r.tagsToRemove <= 1 && r.setVid == setVlan
            && (SelectsDouble(r, f) ==>
                  if matchVlan == OFPVID_PRESENT then |f| == 1 && r.tagsToRemove == 0 else |f| == 2 && r.tagsToRemove == 1)
  {
  }

  lemma {:induction false} TwoTags(s: Frame, a: Tag, b: Tag)
    requires |s| == 2 && s[0] == a && s[1] == b
    ensures s == [a, b]
  {
  }

  /** One tag taken off two: the outer tag is replaced and the inner one stays.  No tag taken off one: a second tag is
      stacked on it. */
  lemma {:induction false} RestackedTags(f: Frame, vid: bv32)
    ensures |f| == 2 ==> Restacked(f, vid, true) == [Tag(f[0].pcp, vid), f[1]]
    ensures |f| == 1 ==> Restacked(f, vid, false) == [Tag(f[0].pcp, vid), f[0]]
  {
    if |f| == 2 { TwoTags(Restacked(f, vid, true), Tag(f[0].pcp, vid), f[1]); }
    if |f| == 1 { TwoTags(Restacked(f, vid, false), Tag(f[0].pcp, vid), f[0]); }
  }

  /** A rule that filters on both tags and takes one off: every frame that it takes leaves with the outer VID replaced, and
      its priority and the inner tag kept. */
  lemma {:induction false} OuterVidReplaced(r: Rule, f: Frame)
    requires InRange(r) && r.innerCvlan != OFPVID_NONE && r.tagsToRemove == 1 && r.setVid < 4096
    requires r.matchPcp != PRIO_IGNORE_TAG
    ensures var table := Install(true, map[], r);
            forall key | key in table && Matches(key, f) ::
              |f| == 2 && Apply(table[key], f) == [Tag(f[0].pcp, r.setVid as bv32), f[1]]
  {
    DoubleTags(r, f);
    RestackedTags(f, r.setVid as bv32);
  }

  // ---------------------------------------------------------------- transparent rules

  lemma {:induction false} TransparentDecodes()
    ensures UnpackTreat(TransparentRow().treat.outer) == TreatFields(0, DO_NOT_ADD, 0, 0)
    ensures UnpackTreat(TransparentRow().treat.inner) == TreatFields(0, DO_NOT_ADD, 0, OUTPUT_TPID_COPY_DEI)
    ensures UnpackTreat(Forward.outer) == UnpackTreat(Forward.inner) == TreatFields(0, DO_NOT_ADD, 0, 0)
  {
    TreatRoundTrip(TreatFields(0, DO_NOT_ADD, 0, 0));
    TreatRoundTrip(TreatFields(0, DO_NOT_ADD, 0, OUTPUT_TPID_COPY_DEI));
  }

  /** A transparent rule takes exactly the single-tagged frames and lets them through as they are, in both modes; and it
      does so still after it was withdrawn. */
  lemma {:induction false} TransparentPasses(incremental: bool, configured: nat, r: Rule, f: Frame)
    requires Transparent(r) && r.innerCvlan == OFPVID_NONE
    ensures var table := Install(incremental, map[], r);
            && (|f| == 1 <==> exists key :: key in table && Matches(key, f))
            && (forall key | key in table && Matches(key, f) :: Apply(table[key], f) == f)
            && var left := Withdraw(incremental, configured, table, r);
               left.Keys == table.Keys && forall key | key in left && Matches(key, f) :: Apply(left[key], f) == f
  {
    var table := Install(incremental, map[], r);
    TransparentDecodes();
    TransparentIsNotForward();
    NotATagDecodes();
    SetOne(map[], TransparentRow());
    SetOne(table, Row(SingleTagged, Forward));
    assert table == map[SingleTagged := TransparentRow().treat];
    if |f| == 1 { assert SingleTagged in table && Matches(SingleTagged, f); }
  }

  // ---------------------------------------------------------------- withdrawal without incremental rows

  /** The last rule takes the whole table with it.  Before that, untagged frames pass unchanged, priority-tagged frames are
      no longer taken by the row of the rule, and all other rows stay. */
  lemma {:induction false} StackingWithdrawn(table: Table, r: Rule, configured: nat)
    requires InRange(r) && !Transparent(r)
    ensures var left := Withdraw(false, configured, Install(false, table, r), r);
            if configured == 1 then left == map[]
            else && Untagged in left && Apply(left[Untagged], []) == [] && PrioTagged !in left
                 && left.Keys == table.Keys + {Untagged} - {PrioTagged}
                 && forall key | key in left && key != Untagged :: key in table && left[key] == table[key]
  {
    NeverDelete(TreatFields(0, DO_NOT_ADD, 0, 0));
    NeverDelete(TreatFields(1, DO_NOT_ADD, 0, 0));
    SetTwo(table, UntaggedRow(r), PrioTaggedRow(r));
    SetTwo(Install(false, table, r), Row(Untagged, Forward), Row(PrioTagged, Delete));
    NotATagDecodes();
    TransparentDecodes();
    assert Untagged != PrioTagged;
  }

  lemma {:induction false} DeleteKeyDecodes(r: Rule)
    requires InRange(r)
    ensures UnpackFilter(DoubleDeleteKey(r).outer) == FilterFields(PRIO_NOT_A_TAG, r.matchVid as bv32, 0)
    ensures DoubleDeleteKey(r).inner == NotATag
  {
    var vid := r.matchVid as bv32;
    assert vid < 0x2000;
    FilterRoundTrip(FilterFields(PRIO_NOT_A_TAG, vid, 0));
  }

  /** Withdrawing a rule with an inner VLAN takes out at most one row, and that one is for untagged frames: no row that takes
      a tagged frame goes, its own row included. */
  lemma {:induction false} DoubleWithdrawn(table: Table, r: Rule, configured: nat)
    requires InRange(r) && !Transparent(r) && r.innerCvlan != OFPVID_NONE
    ensures var left := Withdraw(true, configured, table, r);
            && (forall key | key in left :: key in table && left[key] == table[key])
            && (forall key | key in table && key !in left ::
                  && UnpackFilter(key.outer) == FilterFields(PRIO_NOT_A_TAG, r.matchVid as bv32, 0)
                  && forall f :: Matches(key, f) ==> f == [])
            && forall key, f | key in table && f != [] && Matches(key, f) :: key in left
  {
    var key := DoubleDeleteKey(r);
    DeleteKeyDecodes(r);
    NotATagDecodes();
    SetOne(table, Row(key, Delete));
    assert forall f :: Matches(key, f) ==> f == [];
  }
}
