/**
  Removing the GEM ports of a tech profile one after another, in any order and with any number of waits for flow
  removals in between, when the ONU acknowledges every delete.
*/
module AniRemoval {
  import opened Words
  import opened AniMapper
  import opened AniFsm

  function DeleteOf(target: Me): Msg { Msg(Delete, target, {}) }

  function Answer(target: Me): Input { Input(Rx(Delete, target, true), false) }

  /** Re-entries of the gate: the VLAN engine reports pending removals until the last of them. */
  function Waits(n: nat): seq<Input> {
    if n == 0 then [] else [Input(FlowWaitEnds(false), n > 1)] + Waits(n - 1)
  }

  /** Inputs of one removal: the request, `waits` re-entries after a wait, and the answers to the deletes. */
  function RemovalInputs(id: uint16, waits: nat, last: bool): seq<Input> {
    [Input(RemoveGem(id), waits > 0)] + Waits(waits) + Answers(id, last)
  }

  function Answers(id: uint16, last: bool): seq<Input> {
    [Answer(Iwtp(id)), Answer(Ctp(id)), Answer(Descriptor(id))] + if last then [Answer(Mapper), Answer(BridgePort)]
        else []
  }

  function GemDeletes(id: uint16): seq<Msg> {
    [DeleteOf(Iwtp(id)), DeleteOf(Ctp(id)), DeleteOf(Descriptor(id))]
  }

  lemma {:induction false} RunConcat(a: Ani, x: seq<Input>, y: seq<Input>)
    ensures Run(a, x + y) == Run(Run(a, x), y)
    decreases |x|
  {
    if x == [] {
      assert x + y == y;
    } else {
      assert (x + y)[1..] == x[1..] + y;
      RunConcat(Next(a, x[0].ev, x[0].pending), x[1..], y);
    }
  }

  lemma {:induction false} RunOne(a: Ani, x: Input)
    ensures Run(a, [x]) == Next(a, x.ev, x.pending)
  {
    assert [x][1..] == [];
  }

  /** The state once the interworking TP delete went out. */
  function Deleting(a: Ani, id: uint16): Ani {
    EnterRemovingGemIW(a.(removing := id), false)
  }

  lemma {:induction false} WaitingLeads(a: Ani, id: uint16, n: nat)
    requires n > 0 && a.state.WaitingFlowRem? && a.removing == id && a.awaited == None
    ensures Run(a, Waits(n)) == Deleting(a, id)
  {
    var first := Input(FlowWaitEnds(false), n > 1);
    RunOne(a, first);
    RunConcat(a, [first], Waits(n - 1));
    if n > 1 {
      assert Next(a, first.ev, first.pending) == a;
      WaitingLeads(a, id, n - 1);
    } else {
      assert Waits(0) == [];
    }
  }

  /** However often the gate sends the removal back to waiting, it ends with the same delete. */
  lemma {:induction false} GateOpens(a: Ani, id: uint16, waits: nat)
    requires a.state.ConfigDone? && id in a.params && a.awaited == None
    ensures Run(a, [Input(RemoveGem(id), waits > 0)] + Waits(waits)) == Deleting(a, id)
  {
    var first := Input(RemoveGem(id), waits > 0);
    RunOne(a, first);
    RunConcat(a, [first], Waits(waits));
    if waits > 0 {
      WaitingLeads(Next(a, first.ev, first.pending), id, waits);
    } else {
      assert Waits(0) == [];
    }
  }

  ghost predicate Same(a: Ani, b: Ani, id: uint16) {
    b.params == a.params && b.removing == id
  }

  /** The answers to the three deletes of a GEM port. */
  lemma {:induction false} ThreeAnswers(a: Ani, id: uint16)
    requires a.state.ConfigDone?
    ensures var b := Run(Deleting(a, id), [Answer(Iwtp(id)), Answer(Ctp(id))]);
            && b.state.RemovingTD? && b.awaited == Some(Descriptor(id)) && Same(a, b, id)
            && Messages(b.log) == Messages(a.log) + GemDeletes(id)
  {
    var a1 := Deleting(a, id);
    RunConcat(a1, [Answer(Iwtp(id))], [Answer(Ctp(id))]);
    RunOne(a1, Answer(Iwtp(id)));
    var a2 := Run(a1, [Answer(Iwtp(id))]);
    RunOne(a2, Answer(Ctp(id)));
    var a3 := Run(a2, [Answer(Ctp(id))]);
    MessagesSnoc(a.log, a1.log[|a.log|]);
    MessagesSnoc(a1.log, a2.log[|a1.log|]);
    MessagesSnoc(a2.log, a3.log[|a2.log|]);
    assert [Answer(Iwtp(id))] + [Answer(Ctp(id))] == [Answer(Iwtp(id)), Answer(Ctp(id))];
  }

  lemma {:induction false} RunThree(a: Ani, x: Input, y: Input, z: Input)
    ensures Run(a, [x, y, z]) == Next(Next(Next(a, x.ev, x.pending), y.ev, y.pending), z.ev, z.pending)
  {
    var a1 := Next(a, x.ev, x.pending);
    assert [x, y, z][1..] == [y, z] && [y, z][1..] == [z];
    assert Run(a1, [y, z]) == Run(Next(a1, y.ev, y.pending), [z]);
    RunOne(Next(a1, y.ev, y.pending), z);
  }

  lemma {:induction false} LastAnswers(b: Ani, id: uint16)
    requires b.state.RemovingTD? && b.awaited == Some(Descriptor(id)) && b.removing == id && |Unicast(b.params)| <= 1
    ensures var c := Run(b, [Answer(Descriptor(id)), Answer(Mapper), Answer(BridgePort)]);
            && c.state.Disabled? && c.awaited == None && c.params == b.params - {id}
            && Messages(c.log) == Messages(b.log) + [DeleteOf(Mapper), DeleteOf(BridgePort)]
  {
    RunThree(b, Answer(Descriptor(id)), Answer(Mapper), Answer(BridgePort));
    var b1 := OnResponse(b, Delete, Descriptor(id), false);
    assert b1 == Send(Gone(b, Descriptor(id)), RemDot1PMapper, DeleteOf(Mapper), false);
    var b2 := OnResponse(b1, Delete, Mapper, false);
    assert b2 == Send(Gone(b1, Mapper), RemAniBPCD, DeleteOf(BridgePort), false);
    MessagesSnoc(b.log, b1.log[|b.log|]);
    MessagesSnoc(b1.log, b2.log[|b1.log|]);
  }

  /** One removal: three deletes, and the mapper and bridge port with it exactly when no other unicast port is left. */
  lemma {:induction false} OneRemoval(a: Ani, id: uint16, waits: nat)
    requires a.state.ConfigDone? && a.awaited == None && id in Unicast(a.params)
    ensures var last := |Unicast(a.params)| == 1;
            var b := Run(a, RemovalInputs(id, waits, last));
            && b.state == (if last then Disabled else ConfigDone) && b.awaited == None && b.params == a.params - {id}
            && Messages(b.log) == Messages(a.log) + GemDeletes(id) +
               (if last then [DeleteOf(Mapper), DeleteOf(BridgePort)] else [])
  {
    var last := |Unicast(a.params)| == 1;
    var gate := [Input(RemoveGem(id), waits > 0)] + Waits(waits);
    GateOpens(a, id, waits);
    RunConcat(a, gate, Answers(id, last));
    var two := [Answer(Iwtp(id)), Answer(Ctp(id))];
    var rest := [Answer(Descriptor(id))] + if last then [Answer(Mapper), Answer(BridgePort)] else [];
    assert Answers(id, last) == two + rest;
    ThreeAnswers(a, id);
    RunConcat(Deleting(a, id), two, rest);
    var b := Run(Deleting(a, id), two);
    assert |Unicast(a.params)| > 0;
    if last {
      LastAnswers(b, id);
      assert rest == [Answer(Descriptor(id)), Answer(Mapper), Answer(BridgePort)];
    } else {
      assert rest == [Answer(Descriptor(id))];
      RunOne(b, Answer(Descriptor(id)));
    }
  }

  // ---------------------------------------------------------------- all GEM ports

  /** The order names every unicast GEM port exactly once. */
  ghost predicate Lists(order: seq<uint16>, params: map<uint16, bool>) {
    && (forall i, j | 0 <= i < j < |order| :: order[i] != order[j])
    && (forall id :: id in order <==> id in Unicast(params))
  }

  function AllInputs(order: seq<uint16>, waits: seq<nat>): seq<Input>
    requires |waits| == |order|
  {
    if order == [] then [] else RemovalInputs(order[0], waits[0], |order| == 1) + AllInputs(order[1..], waits[1..])
  }

  function AllGemDeletes(order: seq<uint16>): seq<Msg> {
    if order == [] then [] else GemDeletes(order[0]) + AllGemDeletes(order[1..])
  }

  lemma {:induction false} ListSize(order: seq<uint16>, params: map<uint16, bool>)
    requires Lists(order, params)
    ensures |Unicast(params)| == |order|
  {
    if order == [] {
      assert Unicast(params) == {};
    } else {
      ListRest(order, params);
      ListSize(order[1..], params - {order[0]});
      assert Unicast(params - {order[0]}) == Unicast(params) - {order[0]};
    }
  }

  lemma {:induction false} ListRest(order: seq<uint16>, params: map<uint16, bool>)
    requires Lists(order, params) && order != []
    ensures Lists(order[1..], params - {order[0]}) && order[0] in Unicast(params)
  {
    assert order == [order[0]] + order[1..];
    forall id ensures id in order[1..] <==> id in Unicast(params - {order[0]}) {
      assert id in order <==> id == order[0] || id in order[1..];
    }
  }

  lemma {:induction false} MessagesJoin(a: seq<Msg>, id: uint16, order: seq<uint16>, tail: seq<Msg>)
    requires order != [] && order[0] == id
    ensures a + GemDeletes(id) + AllGemDeletes(order[1..]) + tail == a + AllGemDeletes(order) + tail
  {
    var one, more := GemDeletes(id), AllGemDeletes(order[1..]);
    assert AllGemDeletes(order) == one + more;
    AppendAgain(a, one, more);
  }

  lemma {:induction false} FirstOfMany(a: Ani, order: seq<uint16>, waits: nat)
    requires a.state.ConfigDone? && a.awaited == None && order != [] && Lists(order, a.params)
    ensures var b := Run(a, RemovalInputs(order[0], waits, |order| == 1));
            && b.state == (if |order| == 1 then Disabled else ConfigDone) && b.awaited == None
               && Lists(order[1..], b.params)
            && Messages(b.log) == Messages(a.log) + GemDeletes(order[0])
                                  + (if |order| == 1 then [DeleteOf(Mapper), DeleteOf(BridgePort)] else [])
  {
    ListSize(order, a.params);
    ListRest(order, a.params);
    OneRemoval(a, order[0], waits);
  }

  /** Everything was removed: this is what was sent for it. */
  ghost predicate Removed(a: Ani, b: Ani, order: seq<uint16>) {
    && b.state.Disabled? && Unicast(b.params) == {}
    && Messages(b.log) == Messages(a.log) + AllGemDeletes(order) + [DeleteOf(Mapper), DeleteOf(BridgePort)]
  }

  lemma {:induction false} RemovedLast(a: Ani, b: Ani, order: seq<uint16>)
    requires |order| == 1 && b.state.Disabled? && Lists(order[1..], b.params)
    requires Messages(b.log) == Messages(a.log) + GemDeletes(order[0]) + [DeleteOf(Mapper), DeleteOf(BridgePort)]
    ensures Removed(a, b, order)
  {
    assert AllGemDeletes(order[1..]) == [];
    assert AllGemDeletes(order) == GemDeletes(order[0]);
    assert forall id :: id !in Unicast(b.params);
  }

  lemma {:induction false} RemovedMore(a: Ani, b: Ani, c: Ani, order: seq<uint16>)
    requires order != [] && Messages(b.log) == Messages(a.log) + GemDeletes(order[0]) && Removed(b, c, order[1..])
    ensures Removed(a, c, order)
  {
    MessagesJoin(Messages(a.log), order[0], order, [DeleteOf(Mapper), DeleteOf(BridgePort)]);
  }

  /** Removing all unicast GEM ports issues the three deletes of each, in order, and then exactly one delete of the
      mapper and one of the bridge port, which both belong to the last removal. */
  lemma {:induction false} AllRemovals(a: Ani, order: seq<uint16>, waits: seq<nat>)
    requires a.state.ConfigDone? && a.awaited == None && order != [] && |waits| == |order| && Lists(order, a.params)
    ensures Removed(a, Run(a, AllInputs(order, waits)), order)
    decreases |order|
  {
    FirstOfMany(a, order, waits[0]);
    var one, more := RemovalInputs(order[0], waits[0], |order| == 1), AllInputs(order[1..], waits[1..]);
    var b := Run(a, one);
    RunConcat(a, one, more);
    if |order| == 1 {
      RunNone(b, more);
      RemovedLast(a, b, order);
    } else {
      AllRemovals(b, order[1..], waits[1..]);
      assert Messages(b.log) == Messages(a.log) + GemDeletes(order[0]);
      RemovedMore(a, b, Run(b, more), order);
    }
  }

  lemma {:induction false} RunNone(a: Ani, inputs: seq<Input>)
    requires inputs == []
    ensures Run(a, inputs) == a
  {
  }

  /** The inputs of the first `k` removals. */
  function FirstInputs(order: seq<uint16>, waits: seq<nat>, k: nat): seq<Input>
    requires |waits| == |order| && k <= |order|
  {
    if k == 0 then []
    else RemovalInputs(order[0], waits[0], |order| == 1) + FirstInputs(order[1..], waits[1..], k - 1)
  }

  lemma {:induction false} FirstOfAll(order: seq<uint16>, waits: seq<nat>)
    requires |waits| == |order|
    ensures FirstInputs(order, waits, |order|) == AllInputs(order, waits)
  {
    if order != [] { FirstOfAll(order[1..], waits[1..]); }
  }

  /** Along the whole run: after the first `k` removals the tech profile is cleared if and only if these were all. */
  lemma {:induction false} ClearedAtEnd(a: Ani, order: seq<uint16>, waits: seq<nat>, k: nat, allocId: nat)
    requires a.state.ConfigDone? && a.awaited == None && |waits| == |order| && Lists(order, a.params)
    requires k <= |order| && allocId != 0
    ensures Cleared(Run(a, FirstInputs(order, waits, k)).params, allocId) <==> k == |order|
    decreases k
  {
    if k == 0 {
      ListSize(order, a.params);
    } else {
      FirstOfMany(a, order, waits[0]);
      var one, more := RemovalInputs(order[0], waits[0], |order| == 1), FirstInputs(order[1..], waits[1..], k - 1);
      RunConcat(a, one, more);
      if |order| == 1 {
        RunNone(Run(a, one), more);
        ListSize(order[1..], Run(a, one).params);
      } else {
        ClearedAtEnd(Run(a, one), order[1..], waits[1..], k - 1, allocId);
      }
    }
  }

  lemma {:induction false} AppendAgain<T>(a: seq<T>, b: seq<T>, c: seq<T>)
    ensures a + b + c == a + (b + c)
  {
  }

  /** How often a message occurs. */
  function Count(msgs: seq<Msg>, m: Msg): nat {
    if msgs == [] then 0 else (if msgs[0] == m then 1 else 0) + Count(msgs[1..], m)
  }

  /** Among the deletes of the GEM ports each port has one of each kind, and the mapper and bridge port none. */
  lemma {:induction false} CountGemDeletes(order: seq<uint16>, id: uint16)
    requires forall i, j | 0 <= i < j < |order| :: order[i] != order[j]
    ensures |AllGemDeletes(order)| == 3 * |order|
    ensures Count(AllGemDeletes(order), DeleteOf(Mapper)) == Count(AllGemDeletes(order), DeleteOf(BridgePort)) == 0
    ensures Count(AllGemDeletes(order), DeleteOf(Iwtp(id))) == if id in order then 1 else 0
    ensures Count(AllGemDeletes(order), DeleteOf(Ctp(id))) == if id in order then 1 else 0
    ensures Count(AllGemDeletes(order), DeleteOf(Descriptor(id))) == if id in order then 1 else 0
  {
    if order != [] {
      CountGemDeletes(order[1..], id);
      assert order == [order[0]] + order[1..];
      CountThree(order[0], AllGemDeletes(order[1..]), DeleteOf(Mapper));
      CountThree(order[0], AllGemDeletes(order[1..]), DeleteOf(BridgePort));
      CountThree(order[0], AllGemDeletes(order[1..]), DeleteOf(Iwtp(id)));
      CountThree(order[0], AllGemDeletes(order[1..]), DeleteOf(Ctp(id)));
      CountThree(order[0], AllGemDeletes(order[1..]), DeleteOf(Descriptor(id)));
    }
  }

  lemma {:induction false} CountThree(id: uint16, rest: seq<Msg>, m: Msg)
    ensures Count(GemDeletes(id) + rest, m) == (if m in GemDeletes(id) then 1 else 0) + Count(rest, m)
  {
    var all := GemDeletes(id) + rest;
    assert all[1..][1..][1..] == rest;
    assert Count(all, m) == (if all[0] == m then 1 else 0) + Count(all[1..], m);
    assert Count(all[1..], m) == (if all[1] == m then 1 else 0) + Count(all[1..][1..], m);
    assert Count(all[1..][1..], m) == (if all[2] == m then 1 else 0) + Count(rest, m);
  }
}
