/**
  Transaction ids of the OMCI channel: one counter for each priority, and the allocation for software sections.
*/
module OmciTid {
  import opened Words

  const FIRST_HIGH: nat := 0x8000
  const LOW_IDS: nat := 0x7FFF    // 1 .. 0x7FFF
  const HIGH_IDS: nat := 0x8000   // 0x8000 .. 0xFFFF

  datatype Counters = Counters(tid: uint16, hpTid: uint16)

  const Initial := Counters(1, 0x8000)

  /** The counters after one id was taken. */
  function Taken(c: Counters, high: bool): Counters {
    if high then c.(hpTid := if Inc16(c.hpTid) < FIRST_HIGH then 0x8000 else Inc16(c.hpTid))
    else c.(tid := if Inc16(c.tid) >= FIRST_HIGH then 1 else Inc16(c.tid))
  }

  function Current(c: Counters, high: bool): uint16 {
    if high then c.hpTid else c.tid
  }

  class TidAllocator {
    var tid: uint16
    var hpTid: uint16

    ghost function View(): Counters
      reads this
    {
      Counters(tid, hpTid)
    }

    constructor ()
      ensures View() == Initial
    {
      tid, hpTid := 1, 0x8000;
    }

    method GetNextTid(highPriority: bool) returns (next: uint16)
      modifies this
      ensures next == Current(old(View()), highPriority) && View() == Taken(old(View()), highPriority)
    {
      if highPriority {
        next := hpTid;
        hpTid := Inc16(hpTid);
        if hpTid < 0x8000 { hpTid := 0x8000; }
      } else {
        next := tid;
        tid := Inc16(tid);
        if tid >= 0x8000 { tid := 1; }
      }
    }

    /** Called under the lock; wraps before the id is taken, not after. */
    method GetOnuSwSecNextTid() returns (next: uint16)
      modifies this`tid
      ensures next == SectionId(old(tid)) && tid == Inc16(next)
      ensures 1 <= old(tid) <= 0x8000 ==> 1 <= next < FIRST_HIGH && tid == next + 1
    {
      if tid >= 0x8000 { tid := 1; }
      next := tid;
      tid := Inc16(tid);
    }

    method GetOnuSwSecLastTid() returns (last: uint16)
      ensures last == Dec16(tid)
    {
      last := Dec16(tid);
    }
  }

  function SectionId(tid: uint16): uint16 { if tid >= 0x8000 then 1 else tid }

  // ---------------------------------------------------------------- any interleaving of calls

  function After(calls: seq<bool>): Counters {
    if calls == [] then Initial else Taken(After(calls[..|calls| - 1]), calls[|calls| - 1])
  }

  /** The id that call `i` gets. */
  function Issued(calls: seq<bool>, i: nat): uint16
    requires i < |calls|
  {
    Current(After(calls[..i]), calls[i])
  }

  function Count(calls: seq<bool>, high: bool): nat {
    if calls == [] then 0 else Count(calls[..|calls| - 1], high) + if calls[|calls| - 1] == high then 1 else 0
  }

  /** A counter modulo the number of ids moves on by one, or starts over after a full round. */
  lemma {:induction false} LowRound(k: nat)
    ensures (k + 1) % 0x7FFF == if k % 0x7FFF == 0x7FFE then 0 else k % 0x7FFF + 1
  {
    assert k == k / 0x7FFF * 0x7FFF + k % 0x7FFF;
  }

  lemma {:induction false} HighRound(k: nat)
    ensures (k + 1) % 0x8000 == if k % 0x8000 == 0x7FFF then 0 else k % 0x8000 + 1
  {
    assert k == k / 0x8000 * 0x8000 + k % 0x8000;
  }

  lemma {:induction false} RoundDistinct(a: nat, b: nat)
    ensures a < b < a + LOW_IDS ==> a % LOW_IDS != b % LOW_IDS
    ensures a < b < a + HIGH_IDS ==> a % HIGH_IDS != b % HIGH_IDS
  {
  }

  lemma {:induction false} CountersAfter(calls: seq<bool>)
    ensures After(calls) == Counters(1 + Count(calls, false) % LOW_IDS, FIRST_HIGH + Count(calls, true) % HIGH_IDS)
  {
    if calls != [] {
      var front := calls[..|calls| - 1];
      CountersAfter(front);
      LowRound(Count(front, false));
      HighRound(Count(front, true));
    }
  }

  /** In any interleaving: low ids stay in 1..0x7FFF and high ids in 0x8000..0xFFFF, so 0 is never issued, and calls of
      one priority get different ids as long as fewer than a full round of such calls lies between them. */
  lemma {:induction false} IdsAreDistinct(calls: seq<bool>, i: nat, j: nat)
    requires i < j < |calls|
    ensures if calls[i] then FIRST_HIGH <= Issued(calls, i) <= 0xFFFF else 1 <= Issued(calls, i) < FIRST_HIGH
    ensures calls[i] != calls[j] ==> Issued(calls, i) != Issued(calls, j)
    ensures var round := if calls[i] then HIGH_IDS else LOW_IDS;
            calls[i] == calls[j] && Count(calls[..j], calls[i]) < Count(calls[..i], calls[i]) + round
            ==> Issued(calls, i) != Issued(calls, j)
  {
    CountersAfter(calls[..i]);
    CountersAfter(calls[..j]);
    if calls[i] == calls[j] {
      CountGrows(calls, i, j);
      RoundDistinct(Count(calls[..i], calls[i]), Count(calls[..j], calls[i]));
    }
  }

  lemma {:induction false} CountGrows(calls: seq<bool>, i: nat, j: nat)
    requires i < j <= |calls|
    ensures Count(calls[..i], calls[i]) < Count(calls[..j], calls[i])
  {
    assert calls[..j][..j - 1] == calls[..j - 1];
    if j > i + 1 { CountGrows(calls, i, j - 1); }
  }

  /** Asked right after a section id was handed out, the last allocated id is that id, and the counter stays where
      the next section id is again a low one. */
  lemma {:induction false} SectionLastIsNext(tid: uint16)
    requires 1 <= tid <= 0x8000
    ensures var next := SectionId(tid); var after := Inc16(next);
            1 <= next < FIRST_HIGH && Dec16(after) == next && 1 <= after <= 0x8000
  {
  }

  // ---------------------------------------------------------------- mixing the two allocators

  /** After a section id, the ordinary allocator hands out a low id if and only if the section did not get 0x7FFF. */
  lemma {:induction false} MixedIdIff(c: Counters)
    requires 1 <= c.tid <= 0x8000
    ensures var next := c.(tid := Inc16(SectionId(c.tid)));
            1 <= Current(next, false) < FIRST_HIGH <==> SectionId(c.tid) != 0x7FFF
  {
  }

  /** The counter after so many section ids. */
  function AfterSections(tid: uint16, k: nat): uint16 {
    if k == 0 then tid else Inc16(SectionId(AfterSections(tid, k - 1)))
  }

  /** Section ids are consecutive from the counter on, and go round within 1..0x7FFF. */
  lemma {:induction false} SectionsConsecutive(tid: uint16, k: nat)
    requires 1 <= tid <= 0x8000
    ensures 1 <= AfterSections(tid, k) <= 0x8000
    ensures SectionId(AfterSections(tid, k)) == 1 + (tid - 1 + k) % LOW_IDS
  {
    if k > 0 {
      SectionsConsecutive(tid, k - 1);
      LowRound(tid - 1 + (k - 1));
    }
  }

  /** Within one round no two sections get the same id. */
  lemma {:induction false} SectionsDistinct(tid: uint16, i: nat, j: nat)
    requires 1 <= tid <= 0x8000 && i < j < i + LOW_IDS
    ensures SectionId(AfterSections(tid, i)) != SectionId(AfterSections(tid, j))
  {
    SectionsConsecutive(tid, i);
    SectionsConsecutive(tid, j);
    RoundDistinct(tid - 1 + i, tid - 1 + j);
  }

  datatype Call = Ordinary(high: bool) | Section

  function Answer(c: Counters, call: Call): uint16 {
    match call
    case Ordinary(high) => Current(c, high)
    case Section => SectionId(c.tid)
  }

  function Called(c: Counters, call: Call): Counters {
    match call
    case Ordinary(high) => Taken(c, high)
    case Section => c.(tid := Inc16(SectionId(c.tid)))
  }

  function AfterMix(calls: seq<Call>): Counters {
    if calls == [] then Initial else Called(AfterMix(calls[..|calls| - 1]), calls[|calls| - 1])
  }

  /** The last call that used the low counter was a section that got the last low id. */
  predicate SectionAtEnd(calls: seq<Call>) {
    calls != [] &&
    var front, last := calls[..|calls| - 1], calls[|calls| - 1];
    if last == Ordinary(true) then SectionAtEnd(front) else last.Section? && Answer(AfterMix(front), last) == 0x7FFF
  }

  /** In any mix of calls: sections get low ids and high-priority calls high ones, and an ordinary low-priority call gets a
      low id too, except that it gets 0x8000, the first high one, if and only if the last call before it on the low counter
      was a section that got 0x7FFF. */
  lemma {:induction false} MixedIds(calls: seq<Call>)
    ensures 1 <= Answer(AfterMix(calls), Section) < FIRST_HIGH
    ensures FIRST_HIGH <= Answer(AfterMix(calls), Ordinary(true)) <= 0xFFFF
    ensures Answer(AfterMix(calls), Ordinary(false)) == 0x8000 <==> SectionAtEnd(calls)
    ensures 1 <= Answer(AfterMix(calls), Ordinary(false)) <= 0x8000
  {
    if calls != [] { MixedIds(calls[..|calls| - 1]); }
  }
}
