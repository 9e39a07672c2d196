/**
  Order-sensitive choices of the tech-profile engine: which GEM port a priority is mapped to (section 9.3.10 of
  G.988), and how the upstream queues of a T-CONT are scheduled.  The GEM ports come out of a Go map, so their
  order is arbitrary.
*/
module AniMapper {
  import opened Words

  const NULL_POINTER: uint16 := 0xFFFF
  const STRICT_PRIORITY: uint16 := 0xFFFF

  datatype Gem = Gem(id: uint16, multicast: bool, pbits: string, queue: uint16, wrr: bool, weight: uint8)

  /** Priority strings have eight characters, the last one for priority 0; an empty string is skipped. */
  predicate WellFormed(gems: seq<Gem>) {
    forall i | 0 <= i < |gems| :: gems[i].id != 0 && (gems[i].multicast || gems[i].pbits == "" || |gems[i].pbits| == 8)
  }

  predicate Claims(g: Gem, prio: nat)
    requires prio < 8
  {
    !g.multicast && |g.pbits| == 8 && g.pbits[7 - prio] == '1'
  }

  /** The first GEM port, in visiting order, that claims a priority; 0 when there is none. */
  function FirstClaim(gems: seq<Gem>, prio: nat): uint16
    requires prio < 8
  {
    if gems == [] then 0
    else var before := FirstClaim(gems[..|gems| - 1], prio);
         if before == 0 && Claims(gems[|gems| - 1], prio) then gems[|gems| - 1].id else before
  }

  predicate Mapped(gems: seq<Gem>, prio: int) {
    0 <= prio < 8 && FirstClaim(gems, prio) != 0
  }

  /** The pointer of the mapper for a priority. */
  function Pointer(gems: seq<Gem>, prio: nat): uint16
    requires prio < 8
  {
    var id := FirstClaim(gems, prio);
    if id == 0 then NULL_POINTER else id
  }

  /** Visits the GEM ports: a priority goes to the first port that claims it. */
  method AssignPriorities(gems: seq<Gem>) returns (ids: array<uint16>)
    requires WellFormed(gems)
    ensures fresh(ids) && ids.Length == 8
    ensures forall prio | 0 <= prio < 8 :: ids[prio] == FirstClaim(gems, prio)
  {
    ids := new uint16[8](_ => 0);
    var n := 0;
    while n < |gems|
      invariant 0 <= n <= |gems|
      invariant forall prio | 0 <= prio < 8 :: ids[prio] == FirstClaim(gems[..n], prio)
    {
      var g := gems[n];
      ghost var seen := gems[..n + 1];
      assert seen[..n] == gems[..n] && seen[n] == g;
      if !g.multicast && g.pbits != "" {
        var i := 0;
        while i < 8
          invariant 0 <= i <= 8
          invariant forall prio | 0 <= prio < i :: ids[prio] == FirstClaim(seen, prio)
          invariant forall prio | i <= prio < 8 :: ids[prio] == FirstClaim(gems[..n], prio)
        {
          if g.pbits[7 - i] == '1' && ids[i] == 0 {
            ids[i] := g.id;
          }
          i := i + 1;
        }
      }
      n := n + 1;
    }
    assert gems[..n] == gems;
  }

  /** The eight pointers of the mapper, and whether any priority is mapped at all. */
  method BuildMapper(gems: seq<Gem>) returns (pointers: array<uint16>, found: bool)
    requires WellFormed(gems)
    ensures fresh(pointers) && pointers.Length == 8
    ensures forall prio | 0 <= prio < 8 :: pointers[prio] == Pointer(gems, prio)
    ensures found <==> exists prio | 0 <= prio < 8 :: Mapped(gems, prio)
  {
    pointers := AssignPriorities(gems);
    found := false;
    var p := 0;
    while p < 8
      invariant 0 <= p <= 8
      invariant forall prio | 0 <= prio < p :: pointers[prio] == Pointer(gems, prio)
      invariant forall prio | p <= prio < 8 :: pointers[prio] == FirstClaim(gems, prio)
      invariant found <==> exists prio :: 0 <= prio < p && Mapped(gems, prio)
    {
      if pointers[p] != 0 {
        found := true;
        assert Mapped(gems, p);
      } else {
        pointers[p] := NULL_POINTER;
      }
      p := p + 1;
    }
  }

  /** The mapped GEM port claims the priority, and no port visited before it does. */
  lemma {:induction false} FirstClaimIsFirst(gems: seq<Gem>, prio: nat)
    requires prio < 8 && WellFormed(gems)
    ensures FirstClaim(gems, prio) == 0 <==> forall i | 0 <= i < |gems| :: !Claims(gems[i], prio)
    ensures FirstClaim(gems, prio) != 0 ==>
              exists i :: 0 <= i < |gems| && Claims(gems[i], prio) && gems[i].id == FirstClaim(gems, prio)
                          && forall j | 0 <= j < i :: !Claims(gems[j], prio)
  {
    if gems != [] {
      var front, last := gems[..|gems| - 1], gems[|gems| - 1];
      FirstClaimIsFirst(front, prio);
      if FirstClaim(front, prio) != 0 {
        var i :| 0 <= i < |front| && Claims(front[i], prio) && front[i].id == FirstClaim(front, prio)
                 && forall j | 0 <= j < i :: !Claims(front[j], prio);
        assert Claims(gems[i], prio) && forall j | 0 <= j < i :: gems[j] == front[j];
      } else {
        assert forall i | 0 <= i < |front| :: !Claims(front[i], prio) && gems[i] == front[i];
      }
    }
  }

  ghost predicate DisjointClaims(gems: seq<Gem>) {
    forall i, j, prio | 0 <= i < j < |gems| && 0 <= prio < 8 :: !(Claims(gems[i], prio) && Claims(gems[j], prio))
  }

  lemma {:induction false} ClaimantIsMapped(gems: seq<Gem>, prio: nat, i: nat)
    requires prio < 8 && WellFormed(gems) && i < |gems| && Claims(gems[i], prio)
    requires forall j | 0 <= j < |gems| && Claims(gems[j], prio) :: gems[j].id == gems[i].id
    ensures FirstClaim(gems, prio) == gems[i].id
  {
    FirstClaimIsFirst(gems, prio);
  }

  /** If claims are disjoint, the mapper does not depend on the visiting order. */
  lemma {:induction false} MapperOrderIndependent(a: seq<Gem>, b: seq<Gem>, prio: nat)
    requires WellFormed(a) && WellFormed(b) && multiset(a) == multiset(b) && DisjointClaims(a) && prio < 8
    ensures Pointer(a, prio) == Pointer(b, prio)
  {
    FirstClaimIsFirst(a, prio);
    FirstClaimIsFirst(b, prio);
    if FirstClaim(a, prio) != 0 {
      var i :| 0 <= i < |a| && Claims(a[i], prio) && a[i].id == FirstClaim(a, prio);
      assert a[i] in multiset(b);
      var k :| 0 <= k < |b| && b[k] == a[i];
      forall j | 0 <= j < |b| && Claims(b[j], prio) ensures b[j].id == b[k].id {
        assert b[j] in multiset(a);
        var m :| 0 <= m < |a| && a[m] == b[j];
        assert m == i;
      }
      ClaimantIsMapped(b, prio, k);
    } else {
      forall j | 0 <= j < |b| ensures !Claims(b[j], prio) {
        assert b[j] in multiset(a);
        var m :| 0 <= m < |a| && a[m] == b[j];
      }
    }
  }

  // ---------------------------------------------------------------- queues

  /** Queue weights: an entry of a queue that is not weighted round robin overwrites, a weighted one only fills in. */
  function Queues(gems: seq<Gem>): map<uint16, uint16> {
    if gems == [] then map[]
    else var before, g := Queues(gems[..|gems| - 1]), gems[|gems| - 1];
         if g.multicast || (g.wrr && g.queue in before) then before
         else before[g.queue := if g.wrr then g.weight else STRICT_PRIORITY]
  }

  /** The queues of the unicast GEM ports, in the order in which they are first met. */
  function FirstUses(gems: seq<Gem>): seq<uint16> {
    if gems == [] then []
    else var before, g := FirstUses(gems[..|gems| - 1]), gems[|gems| - 1];
         before + if g.multicast || g.queue in before then [] else [g.queue]
  }

  /** The ordered map of the queues: a new key goes to the end, a known one keeps its place. */
  method BuildQueues(gems: seq<Gem>) returns (order: seq<uint16>, queues: map<uint16, uint16>)
    ensures queues == Queues(gems) && order == FirstUses(gems)
    ensures forall q :: q in queues <==> q in order
  {
    queues, order := map[], [];
    var n := 0;
    while n < |gems|
      invariant 0 <= n <= |gems| && queues == Queues(gems[..n]) && order == FirstUses(gems[..n])
      invariant forall q :: q in queues <==> q in order
    {
      var g := gems[n];
      assert gems[..n + 1][..n] == gems[..n];
      if !g.multicast {
        if g.queue !in queues { order := order + [g.queue]; }
        if g.wrr {
          if g.queue !in queues { queues := queues[g.queue := g.weight]; }
        } else {
          queues := queues[g.queue := STRICT_PRIORITY];
        }
      }
      n := n + 1;
    }
    assert gems[..n] == gems;
  }

  /** The queues that are set, in the same order: strict ones only where the scheduler can be pointed to. */
  function Settable(order: seq<uint16>, weights: map<uint16, uint16>, schedulerPointer: bool): seq<uint16> {
    if order == [] then []
    else var before, q := Settable(order[..|order| - 1], weights, schedulerPointer), order[|order| - 1];
         before + if !schedulerPointer && q in weights && weights[q] == STRICT_PRIORITY then [] else [q]
  }

  /** The loop over the ordered map passes over the strict queues that cannot be set. */
  method SelectQueues(order: seq<uint16>, weights: map<uint16, uint16>, schedulerPointer: bool)
    returns (pqs: seq<uint16>)
    requires forall q | q in order :: q in weights
    ensures pqs == Settable(order, weights, schedulerPointer)
  {
    pqs := [];
    var n := 0;
    while n < |order|
      invariant 0 <= n <= |order| && pqs == Settable(order[..n], weights, schedulerPointer)
    {
      assert order[..n + 1][..n] == order[..n];
      if schedulerPointer || weights[order[n]] != STRICT_PRIORITY {
        pqs := pqs + [order[n]];
      }
      n := n + 1;
    }
    assert order[..n] == order;
  }

  predicate Uses(g: Gem, q: uint16) { !g.multicast && g.queue == q }

  /** A queue is set up if and only if a unicast GEM port uses it, and it is strict if and only if one of these is not
      weighted round robin; both whatever the visiting order. */
  lemma {:induction false} StrictIff(gems: seq<Gem>, q: uint16)
    ensures q in Queues(gems) <==> exists i :: 0 <= i < |gems| && Uses(gems[i], q)
    ensures q in Queues(gems) ==>
              (Queues(gems)[q] == STRICT_PRIORITY <==> exists i :: 0 <= i < |gems| && Uses(gems[i], q) && !gems[i].wrr)
  {
    if gems != [] {
      var front, g := gems[..|gems| - 1], gems[|gems| - 1];
      StrictIff(front, q);
      assert forall i | 0 <= i < |front| :: front[i] == gems[i];
      if q in Queues(front) {
        var i :| 0 <= i < |front| && Uses(front[i], q);
        assert Uses(gems[i], q);
        if Queues(front)[q] == STRICT_PRIORITY {
          var k :| 0 <= k < |front| && Uses(front[k], q) && !front[k].wrr;
          assert Uses(gems[k], q) && !gems[k].wrr;
        }
      }
      if Uses(g, q) { assert Uses(gems[|gems| - 1], q); }
    }
  }

  /** The weight of a queue that is not strict is that of the first unicast GEM port that uses it. */
  lemma {:induction false} WeightIsFirst(gems: seq<Gem>, q: uint16)
    requires q in Queues(gems) && Queues(gems)[q] != STRICT_PRIORITY
    ensures exists i :: 0 <= i < |gems| && Uses(gems[i], q) && Queues(gems)[q] == gems[i].weight
                        && forall j | 0 <= j < i :: !Uses(gems[j], q)
  {
    var front, g := gems[..|gems| - 1], gems[|gems| - 1];
    StrictIff(front, q);
    if q in Queues(front) {
      WeightIsFirst(front, q);
      var i :| 0 <= i < |front| && Uses(front[i], q) && Queues(front)[q] == front[i].weight
               && forall j | 0 <= j < i :: !Uses(front[j], q);
      assert Uses(gems[i], q) && forall j | 0 <= j < i :: gems[j] == front[j];
    } else {
      assert forall i | 0 <= i < |front| :: gems[i] == front[i] && !Uses(front[i], q);
      assert Uses(gems[|gems| - 1], q);
    }
  }

  // ---------------------------------------------------------------- which queues are set

  lemma {:induction false} FirstUsesIff(gems: seq<Gem>, q: uint16)
    ensures q in FirstUses(gems) <==> exists i :: 0 <= i < |gems| && Uses(gems[i], q)
  {
    if gems != [] {
      var front := gems[..|gems| - 1];
      FirstUsesIff(front, q);
      assert forall i | 0 <= i < |front| :: front[i] == gems[i];
      if q in FirstUses(front) {
        var i :| 0 <= i < |front| && Uses(front[i], q);
        assert Uses(gems[i], q);
      }
      if i :| 0 <= i < |gems| && Uses(gems[i], q) { assert i < |front| ==> Uses(front[i], q); }
    }
  }

  lemma {:induction false} SettableIff(order: seq<uint16>, weights: map<uint16, uint16>, sp: bool, q: uint16)
    ensures q in Settable(order, weights, sp) <==>
            q in order && !(!sp && q in weights && weights[q] == STRICT_PRIORITY)
  {
    if order != [] {
      SettableIff(order[..|order| - 1], weights, sp, q);
      assert order == order[..|order| - 1] + [order[|order| - 1]];
    }
  }

  /** The list of queues that are set for these ports. */
  function QueuesToSet(gems: seq<Gem>, sp: bool): seq<uint16> {
    Settable(FirstUses(gems), Queues(gems), sp)
  }

  /** A queue is set if and only if a unicast port uses it, and either the scheduler can be pointed to or all unicast ports
      that use it are weighted round robin. */
  lemma {:induction false} QueueSetIff(gems: seq<Gem>, sp: bool, q: uint16)
    ensures q in QueuesToSet(gems, sp) <==>
            && (exists i :: 0 <= i < |gems| && Uses(gems[i], q))
            && (sp || forall i | 0 <= i < |gems| && Uses(gems[i], q) :: gems[i].wrr)
  {
    FirstUsesIff(gems, q);
    StrictIff(gems, q);
    SettableIff(FirstUses(gems), Queues(gems), sp, q);
    if !sp && q in Queues(gems) && Queues(gems)[q] == STRICT_PRIORITY {
      var i :| 0 <= i < |gems| && Uses(gems[i], q) && !gems[i].wrr;
    }
  }

  /** One queue comes before another: some port uses it and no port up to that one uses the other. */
  ghost predicate UsedBefore(gems: seq<Gem>, p: uint16, q: uint16) {
    exists i :: 0 <= i < |gems| && Uses(gems[i], p) && forall j | 0 <= j <= i :: !Uses(gems[j], q)
  }

  ghost predicate InUseOrder(gems: seq<Gem>, list: seq<uint16>) {
    forall a, b | 0 <= a < b < |list| :: UsedBefore(gems, list[a], list[b])
  }

  lemma {:induction false} UsedBeforeMore(gems: seq<Gem>, p: uint16, q: uint16)
    requires gems != [] && UsedBefore(gems[..|gems| - 1], p, q)
    ensures UsedBefore(gems, p, q)
  {
    var front := gems[..|gems| - 1];
    var i :| 0 <= i < |front| && Uses(front[i], p) && forall j | 0 <= j <= i :: !Uses(front[j], q);
    assert Uses(gems[i], p) && forall j | 0 <= j <= i :: gems[j] == front[j];
  }

  lemma {:induction false} FirstUsesOrder(gems: seq<Gem>)
    ensures InUseOrder(gems, FirstUses(gems))
  {
    if gems != [] {
      var front, g := gems[..|gems| - 1], gems[|gems| - 1];
      var list := FirstUses(front);
      FirstUsesOrder(front);
      forall a, b | 0 <= a < b < |FirstUses(gems)| ensures UsedBefore(gems, FirstUses(gems)[a], FirstUses(gems)[b]) {
        if b < |list| {
          assert UsedBefore(front, list[a], list[b]);
          UsedBeforeMore(gems, list[a], list[b]);
        } else {
          FirstUsesIff(front, list[a]);
          FirstUsesIff(front, g.queue);
          var i :| 0 <= i < |front| && Uses(front[i], list[a]);
          assert Uses(gems[i], list[a]) && forall j | 0 <= j <= i :: gems[j] == front[j];
        }
      }
    }
  }

  lemma {:induction false} SettableOrder(gems: seq<Gem>, order: seq<uint16>, weights: map<uint16, uint16>, sp: bool)
    requires InUseOrder(gems, order)
    ensures InUseOrder(gems, Settable(order, weights, sp))
  {
    if order != [] {
      var front := order[..|order| - 1];
      assert forall a, b | 0 <= a < b < |front| :: UsedBefore(gems, front[a], front[b]) by {
        forall a, b | 0 <= a < b < |front| ensures UsedBefore(gems, front[a], front[b]) {
          assert UsedBefore(gems, order[a], order[b]);
        }
      }
      SettableOrder(gems, front, weights, sp);
      var list, all := Settable(front, weights, sp), Settable(order, weights, sp);
      forall a, b | 0 <= a < b < |all| ensures UsedBefore(gems, all[a], all[b]) {
        if b < |list| {
          assert UsedBefore(gems, list[a], list[b]);
        } else {
          SettableIff(front, weights, sp, list[a]);
          var i :| 0 <= i < |front| && front[i] == list[a];
          assert UsedBefore(gems, order[i], order[|order| - 1]);
        }
      }
    }
  }

  /** The queues are set in the order of their first use, and each once. */
  lemma {:induction false} QueuesInOrder(gems: seq<Gem>, sp: bool)
    ensures InUseOrder(gems, QueuesToSet(gems, sp))
    ensures forall a, b | 0 <= a < b < |QueuesToSet(gems, sp)| :: QueuesToSet(gems, sp)[a] != QueuesToSet(gems, sp)[b]
  {
    FirstUsesOrder(gems);
    SettableOrder(gems, FirstUses(gems), Queues(gems), sp);
    var list := QueuesToSet(gems, sp);
    forall a, b | 0 <= a < b < |list| ensures list[a] != list[b] {
      assert UsedBefore(gems, list[a], list[b]);
    }
  }

  // ---------------------------------------------------------------- what a queue is set to

  const TRAFFIC_SCHEDULER: uint16 := 0x8000

  /** The attributes of a queue that are set; those that are left out stay as they are. */
  datatype QueueAttributes = Untouched | ToScheduler(pointer: uint16) | ToWeighted(pointer: uint16, weight: uint16)
                           | WeightOnly(weight: uint16)

  function AttributesOf(weight: uint16, sp: bool): QueueAttributes {
    if sp then if weight == STRICT_PRIORITY then ToScheduler(0) else ToWeighted(TRAFFIC_SCHEDULER, weight)
    else WeightOnly(weight)
  }

  function QueueWeight(gems: seq<Gem>, q: uint16): uint16 {
    if q in Queues(gems) then Queues(gems)[q] else STRICT_PRIORITY
  }

  /** What a queue that is set is set to, from the ports that use it: with a strict user it is taken off the traffic
      scheduler; otherwise it gets the weight of its first user, and the traffic scheduler where that can be pointed to. */
  lemma {:induction false} QueueAttributesRight(gems: seq<Gem>, sp: bool, q: uint16)
    requires q in QueuesToSet(gems, sp)
    ensures var attrs := AttributesOf(QueueWeight(gems, q), sp);
            if exists i :: 0 <= i < |gems| && Uses(gems[i], q) && !gems[i].wrr then sp && attrs == ToScheduler(0)
            else exists i :: 0 <= i < |gems| && Uses(gems[i], q) && (forall j | 0 <= j < i :: !Uses(gems[j], q))
                             && attrs == if sp then ToWeighted(TRAFFIC_SCHEDULER, gems[i].weight)
                                         else WeightOnly(gems[i].weight)
  {
    QueueSetIff(gems, sp, q);
    StrictIff(gems, q);
    if Queues(gems)[q] != STRICT_PRIORITY { WeightIsFirst(gems, q); }
  }
}
