/**
  The ANI configuration state machine as an object: its methods update the fields in place and are proved against
  the transition functions of `AniFsm`.
*/
module AniMachine {
  import opened Words
  import opened AniMapper
  import opened AniFsm

  class UniPonAniConfigFsm {
    var state: AniState
    var setup: Setup
    var index: nat              // position in the multi-entity loop that is running
    var tableSet: bool
    var lastTx: Option<Me>
    var acked: set<Me>
    var log: seq<Sent>
    var mapGemPortParams: map<uint16, bool>
    var removing: uint16
    var configStored: bool      // the tech profile has an entry in the stored configuration

    ghost predicate Valid()
      reads this
    {
      WellFormed(setup.gems)
    }

    ghost function View(): Ani
      reads this
    {
      Ani(state, setup, index, tableSet, lastTx, acked, log, mapGemPortParams, removing)
    }

    constructor ()
      ensures Valid() && View() == Fresh
    {
      state, setup, index, tableSet, lastTx := Disabled, Setup([], map[], false, false, true, true), 0, false, None;
      acked, log, mapGemPortParams, removing, configStored := {}, [], map[], 0, false;
    }

    method Transmit(st: AniState, msg: Msg, pending: bool)
      modifies this`state, this`lastTx, this`log
      ensures View() == Send(old(View()), st, msg, pending)
    {
      state, lastTx, log := st, Some(msg.target), log + [Sent(msg, acked, pending)];
    }

    method ResetFsm()
      modifies this`state, this`lastTx
      ensures View() == ResetAni(old(View()))
    {
      state, lastTx := Disabled, None;
    }

    // -------------------------------------------------------------- configuration

    method StartConfig(s: Setup, pending: bool)
      requires WellFormed(s.gems)
      modifies this
      ensures Valid() && View() == EnterCreatingMapper(old(View()), s, pending) && configStored
    {
      setup, mapGemPortParams, configStored := s, s.params, true;
      acked := if s.tcontBefore then {TCont} else {};
      Transmit(CreatingDot1PMapper, Msg(Create, Mapper, {}), pending);
    }

    /** The pointers are filled in by the two loops of the mapper. */
    method EnterSettingDot1PMapper(pending: bool)
      requires Valid()
      modifies this`state, this`lastTx, this`log
      ensures Valid() && View() == EnterSettingMapper(old(View()), pending)
    {
      var pointers, found := BuildMapper(setup.gems);
      if found {
        assert pointers[..] == Pointers(setup.gems);
        Transmit(AniState.SettingDot1PMapper, MapperMsg(pointers[..]), pending);
      } else {
        state, lastTx := ConfigDone, None;
      }
    }

    /** A strict queue is taken off the traffic scheduler; a weighted one gets its weight, and the scheduler where it can be
        pointed to. */
    method TransmitQueue(q: uint16, weight: uint16, pending: bool)
      requires Valid() && q in Queues(setup.gems) && weight == Queues(setup.gems)[q]
      modifies this`state, this`lastTx, this`log
      ensures Valid() && View() == Send(old(View()), AniState.SettingPQs, QueueMsg(setup, q), pending)
    {
      var attributes;
      if setup.schedulerPointer {
        if weight == STRICT_PRIORITY {
          attributes := ToScheduler(0);
        } else {
          attributes := ToWeighted(TRAFFIC_SCHEDULER, weight);
        }
      } else {
        attributes := WeightOnly(weight);
      }
      Transmit(AniState.SettingPQs, Msg(Set, Queue(q), {}, [], attributes), pending);
    }

    /** The queues to set for the ports of this run, and the weights of all of them. */
    method CollectQueues() returns (pqs: seq<uint16>, weights: map<uint16, uint16>)
      ensures pqs == QueuesToSet(setup.gems, setup.schedulerPointer) && weights == Queues(setup.gems)
      ensures forall q | q in pqs :: q in weights
    {
      var order;
      order, weights := BuildQueues(setup.gems);
      pqs := SelectQueues(order, weights, setup.schedulerPointer);
      forall q | q in pqs ensures q in weights {
        SettableIff(order, weights, setup.schedulerPointer, q);
      }
    }

    method SetNextQueue(i: nat, pending: bool)
      requires Valid()
      modifies this`state, this`lastTx, this`log, this`index
      ensures Valid() && View() == SendQueue(old(View()), i, pending)
    {
      var pqs, weights := CollectQueues();
      if i >= |pqs| {
        EnterSettingDot1PMapper(pending);
      } else {
        index := i;
        TransmitQueue(pqs[i], weights[pqs[i]], pending);
      }
    }

    method PerformSettingPQs(pending: bool)
      requires Valid()
      modifies this`state, this`lastTx, this`log, this`index
      ensures Valid() && View() == EnterSettingPQs(old(View()), pending)
    {
      if setup.tcontBefore {
        EnterSettingDot1PMapper(pending);
      } else if !setup.qosReadable {
        ResetFsm();
      } else {
        SetNextQueue(0, pending);
      }
    }

    /** Continues the loop over the GEM ports; multicast ports configured elsewhere are passed over. */
    method PerformCreatingGemIWs(from: nat, pending: bool)
      requires Valid()
      modifies this`state, this`lastTx, this`log, this`index, this`tableSet
      ensures Valid() && View() == SendIwtp(old(View()), from, pending)
    {
      var i := from;
      while i < |setup.gems| && setup.gems[i].multicast && setup.mcastElsewhere
        invariant View() == old(View()) && SendIwtp(old(View()), from, pending) == SendIwtp(old(View()), i, pending)
        decreases |setup.gems| - i
      {
        i := i + 1;
      }
      if i >= |setup.gems| {
        PerformSettingPQs(pending);
      } else {
        var g := setup.gems[i];
        index, tableSet := i, false;
        var msg := if g.multicast then Msg(Create, McastIwtp(g.id), {Ctp(g.id)})
                   else Msg(Create, Iwtp(g.id), {Ctp(g.id), Mapper});
        Transmit(AniState.CreatingGemIWs, msg, pending);
      }
    }

    method PerformCreatingGemNCTPs(from: nat, pending: bool)
      requires Valid()
      modifies this`state, this`lastTx, this`log, this`index, this`tableSet
      ensures Valid() && View() == SendCtp(old(View()), from, pending)
    {
      if from >= |setup.gems| {
        PerformCreatingGemIWs(0, pending);
      } else {
        index := from;
        Transmit(AniState.CreatingGemNCTPs, Msg(Create, Ctp(setup.gems[from].id), {TCont}), pending);
      }
    }

    // -------------------------------------------------------------- removal

    method RemoveGemIW(pending: bool)
      requires Valid()
      modifies this`state, this`lastTx, this`log
      ensures Valid() && View() == EnterRemovingGemIW(old(View()), pending)
    {
      if pending {
        state, lastTx := WaitingFlowRem, None;
      } else {
        Transmit(AniState.RemovingGemIW, Msg(Delete, Iwtp(removing), {}), pending);
      }
    }

    /** Counts the unicast GEM ports that are still stored. */
    method CountUnicast() returns (n: nat)
      ensures n == |Unicast(mapGemPortParams)|
    {
      n := 0;
      var todo, seen := mapGemPortParams.Keys, {};
      while todo != {}
        invariant todo !! seen && todo + seen == mapGemPortParams.Keys
        invariant n == |UnicastAmong(mapGemPortParams, seen)|
        decreases |todo|
      {
        var id :| id in todo;
        OneMore(mapGemPortParams, seen, id);
        if !mapGemPortParams[id] {
          n := n + 1;
        }
        todo, seen := todo - {id}, seen + {id};
      }
      assert UnicastAmong(mapGemPortParams, seen) == Unicast(mapGemPortParams);
    }

    method Remove1pMapper(pending: bool)
      requires Valid()
      modifies this`state, this`lastTx, this`log, this`mapGemPortParams
      ensures Valid() && View() == EnterRemoving1pMapper(old(View()), pending)
    {
      var n := CountUnicast();
      if n > 1 {
        state, lastTx, mapGemPortParams := ConfigDone, None, mapGemPortParams - {removing};
      } else {
        Transmit(RemDot1PMapper, Msg(Delete, Mapper, {}), pending);
      }
    }

    /** A stored tech profile without unicast ports, or whose T-CONT was released, is dropped and its state machine
        reset. */
    method IsTechProfileConfigCleared(allocId: nat) returns (cleared: bool)
      requires Valid()
      modifies this`state, this`lastTx, this`mapGemPortParams, this`configStored
      ensures Valid() && (cleared <==> old(configStored) && Cleared(old(mapGemPortParams), allocId))
      ensures configStored == (old(configStored) && !cleared)
      ensures View() == if cleared then ResetAni(old(View())).(params := map[]) else old(View())
    {
      cleared := false;
      if configStored {
        var n := CountUnicast();
        if n == 0 || allocId == 0 {
          mapGemPortParams, configStored := map[], false;
          ResetFsm();
          cleared := true;
        }
      }
    }

    // -------------------------------------------------------------- responses

    method HandleMulticastResponse(target: Me, pending: bool)
      requires Valid() && lastTx == Some(target) && state.CreatingGemIWs? && target.McastIwtp?
      modifies this
      ensures Valid() && View() == AfterMcast(old(View()), target, pending)
    {
      acked, lastTx := acked + {target}, None;
      if tableSet {
        PerformCreatingGemIWs(index + 1, pending);
      } else {
        tableSet := true;
        Transmit(AniState.CreatingGemIWs, Msg(Set, target, {}), pending);
      }
    }

    method ProceedAfterCreate(target: Me, pending: bool)
      requires Valid() && lastTx == Some(target) && !(state.CreatingGemIWs? && target.McastIwtp?)
      requires state.CreatingDot1PMapper? || state.CreatingMBPCD? || state.CreatingGemNCTPs? || state.CreatingGemIWs?
      modifies this
      ensures Valid() && View() == AfterCreate(old(View()), target, pending)
    {
      acked, lastTx := acked + {target}, None;
      if state.CreatingDot1PMapper? {
        Transmit(AniState.CreatingMBPCD, Msg(Create, BridgePort, {Mapper}), pending);
      } else if state.CreatingGemNCTPs? {
        PerformCreatingGemNCTPs(index + 1, pending);
      } else if state.CreatingGemIWs? {
        PerformCreatingGemIWs(index + 1, pending);
      } else if setup.tcontBefore {
        PerformCreatingGemNCTPs(0, pending);
      } else {
        Transmit(AniState.SettingTconts, Msg(Set, TCont, {}), pending);
      }
    }

    /** A response counts only if it answers the last request, and moves only a state that accepts its event. */
    method HandleCreateResponse(target: Me, pending: bool)
      requires Valid()
      modifies this
      ensures Valid() && View() == OnResponse(old(View()), Create, target, pending)
    {
      if lastTx != Some(target) {
        return;
      }
      if state.CreatingGemIWs? && target.McastIwtp? {
        HandleMulticastResponse(target, pending);
      } else if state.CreatingDot1PMapper? || state.CreatingMBPCD? || state.CreatingGemNCTPs? || state.CreatingGemIWs? {
        ProceedAfterCreate(target, pending);
      }
    }

    method ProceedAfterSet(target: Me, pending: bool)
      requires Valid() && lastTx == Some(target) && !state.CreatingGemIWs?
      modifies this
      ensures Valid() && View() == AfterSet(old(View()), target, pending)
    {
      if state.SettingTconts? {
        acked, lastTx := acked + {target}, None;
        PerformCreatingGemNCTPs(0, pending);
      } else if state.SettingPQs? {
        acked, lastTx := acked + {target}, None;
        SetNextQueue(index + 1, pending);
      } else if state.SettingDot1PMapper? || state.ResetTcont? {
        acked, lastTx := acked + {target}, None;
        state := ConfigDone;
      }
    }

    method HandleSetResponse(target: Me, pending: bool)
      requires Valid()
      modifies this
      ensures Valid() && View() == OnResponse(old(View()), Set, target, pending)
    {
      if lastTx != Some(target) {
        return;
      }
      if state.CreatingGemIWs? {
        if target.McastIwtp? { HandleMulticastResponse(target, pending); }
      } else {
        ProceedAfterSet(target, pending);
      }
    }

    method TransmitDelete(st: AniState, target: Me, pending: bool)
      modifies this`state, this`lastTx, this`log
      ensures View() == Send(old(View()), st, Msg(Delete, target, {}), pending)
    {
      Transmit(st, Msg(Delete, target, {}), pending);
    }

    method ProceedAfterDelete(target: Me, pending: bool)
      requires Valid() && lastTx == Some(target)
      requires state.RemovingGemIW? || state.RemovingGemNCTP? || state.RemovingTD? || state.RemDot1PMapper?
               || state.RemAniBPCD?
      modifies this
      ensures Valid() && View() == AfterDelete(old(View()), target, pending)
    {
      acked, lastTx := acked - {target}, None;
      if state.RemovingGemIW? {
        TransmitDelete(AniState.RemovingGemNCTP, Ctp(removing), pending);
      } else if state.RemovingGemNCTP? {
        TransmitDelete(AniState.RemovingTD, Descriptor(removing), pending);
      } else if state.RemovingTD? {
        Remove1pMapper(pending);
      } else if state.RemDot1PMapper? {
        TransmitDelete(AniState.RemAniBPCD, BridgePort, pending);
      } else {
        state, mapGemPortParams := Disabled, mapGemPortParams - {removing};
      }
    }

    method HandleDeleteResponse(target: Me, pending: bool)
      requires Valid()
      modifies this
      ensures Valid() && View() == OnResponse(old(View()), Delete, target, pending)
    {
      if lastTx != Some(target) {
        return;
      }
      if state.RemovingGemIW? || state.RemovingGemNCTP? || state.RemovingTD? || state.RemDot1PMapper?
         || state.RemAniBPCD? {
        ProceedAfterDelete(target, pending);
      }
    }

    method HandleOmciResponse(kind: Kind, target: Me, ok: bool, pending: bool)
      requires Valid()
      modifies this
      ensures Valid() && View() == Next(old(View()), Rx(kind, target, ok), pending)
    {
      if ok {
        match kind {
          case Create => HandleCreateResponse(target, pending);
          case Set => HandleSetResponse(target, pending);
          case Delete => HandleDeleteResponse(target, pending);
        }
      }
    }

    // -------------------------------------------------------------- requests

    /** A GEM port is removed only from ConfigDone, and only if its parameters are stored. */
    method DeleteTpResource(id: uint16, pending: bool)
      requires Valid()
      modifies this
      ensures Valid() && View() == Next(old(View()), RemoveGem(id), pending)
    {
      if id in mapGemPortParams && state.ConfigDone? {
        removing := id;
        RemoveGemIW(pending);
      }
    }

    method HandleFlowWait(aborted: bool, pending: bool)
      requires Valid()
      modifies this
      ensures Valid() && View() == Next(old(View()), FlowWaitEnds(aborted), pending)
    {
      if state.WaitingFlowRem? {
        if aborted { ResetFsm(); } else { RemoveGemIW(pending); }
      }
    }

    method HandleStart(s: Setup, valid: bool, pending: bool)
      requires Valid() && WellFormed(s.gems)
      modifies this
      ensures Valid() && View() == Next(old(View()), Start(s, valid), pending)
    {
      if state.Disabled? {
        if valid { StartConfig(s, pending); } else { ResetFsm(); }
      }
    }

    /** Every event of the state machine, as the transition function has it. */
    method Handle(ev: Event, pending: bool)
      requires Valid() && Asks(ev)
      modifies this
      ensures Valid() && View() == Next(old(View()), ev, pending)
    {
      match ev {
        case Start(s, valid) => HandleStart(s, valid, pending);
        case Retry(s) =>
          if !(state.Disabled? || state.ConfigDone? || state.WaitingFlowRem?) { StartConfig(s, pending); }
        case Rx(kind, target, ok) => HandleOmciResponse(kind, target, ok, pending);
        case RemoveGem(id) => DeleteTpResource(id, pending);
        case FlowWaitEnds(aborted) => HandleFlowWait(aborted, pending);
        case RemoveTcont =>
          if state.ConfigDone? { Transmit(AniState.ResetTcont, Msg(Set, TCont, {}), pending); }
        case Reset => ResetFsm();
      }
    }
  }

  function UnicastAmong(params: map<uint16, bool>, ids: set<uint16>): set<uint16> {
    set id | id in ids && id in params && !params[id]
  }

  lemma {:induction false} OneMore(params: map<uint16, bool>, seen: set<uint16>, id: uint16)
    requires id in params && id !in seen
    ensures |UnicastAmong(params, seen + {id})| == |UnicastAmong(params, seen)| + if params[id] then 0 else 1
  {
    assert UnicastAmong(params, seen + {id}) == UnicastAmong(params, seen) + if params[id] then {} else {id};
  }
}
