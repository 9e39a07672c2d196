/**
  The tech-profile engine and the VLAN engine of one UNI side by side, in any interleaving: a GEM interworking TP is
  deleted only while no flow removal is pending or under way.
*/
module AniVlan {
  import Ani = AniFsm
  import VlanModel
  import Vlan = VlanRuns
  import VlanTheorems

  /** Both engines; the VLAN engine exists from the first flow on.  `witnessed` is the VLAN engine as it was at each
      delete of a GEM interworking TP. */
  datatype Both = Both(ani: Ani.Ani, vlan: Ani.Option<Vlan.World>, witnessed: seq<Ani.Option<Vlan.World>>)

  datatype Step =
    | AniStep(ev: Ani.Event)
    | VlanStep(s: Vlan.Step)
    | OtherAdd(req: VlanModel.Request, revise: bool, tpDone: bool)   // any further add that goes on after a wait
    | FirstFlow(incremental: bool, req: VlanModel.Request, tpDone: bool)

  predicate Pending(vlan: Ani.Option<Vlan.World>) {
    vlan.Some? && vlan.value.fsm.removes != []
  }

  predicate DeletesIwtp(s: Ani.Sent) { s.msg.kind.Delete? && s.msg.target.Iwtp? }

  /** How an add goes on when its wait is over: the wait for its cookie, or for the removal of its rule.  Any number of
      adds may have been waiting, whatever the engine did in between. */
  function GoesOn(e: VlanModel.Engine, req: VlanModel.Request, revise: bool, tpDone: bool): VlanModel.Engine {
    if revise && |req.cookies| == 1 then VlanModel.ReviseFlow(e, req, tpDone).0
    else VlanModel.StoreFlow(e, req, tpDone).0
  }

  function Next(b: Both, step: Step): Both {
    match step
    case AniStep(ev) =>
      var ani := Ani.Next(b.ani, ev, Pending(b.vlan));
      var sent := |ani.log| > |b.ani.log| && DeletesIwtp(ani.log[|ani.log| - 1]);
      b.(ani := ani, witnessed := if sent then b.witnessed + [b.vlan] else b.witnessed)
    case VlanStep(s) => if b.vlan.None? then b else b.(vlan := Ani.Some(Vlan.Next(b.vlan.value, s)))
    case OtherAdd(req, revise, tpDone) =>
      if b.vlan.None? then b
      else b.(vlan := Ani.Some(b.vlan.value.(fsm := GoesOn(b.vlan.value.fsm, req, revise, tpDone))))
    case FirstFlow(incremental, req, tpDone) =>
      if b.vlan.Some? then b else b.(vlan := Ani.Some(VlanTheorems.Begin(incremental, req, tpDone)))
  }

  /** Tech profiles come with well-formed GEM ports.  Nothing is asked of the VLAN engine: its callers may delete a
      cookie twice, remove queued rules or share cookies. */
  ghost predicate Asks(step: Step) {
    match step
    case AniStep(ev) => Ani.Asks(ev)
    case _ => true
  }

  function Run(b: Both, steps: seq<Step>): Both
    decreases |steps|
  {
    if steps == [] then b else Run(Next(b, steps[0]), steps[1..])
  }

  /** No flow removal waits in the queue and none is being exchanged with the ONU. */
  predicate FlowsSettled(vlan: Ani.Option<Vlan.World>) {
    vlan.None? || (vlan.value.fsm.removes == [] && !vlan.value.fsm.state.RemoveFlow?
        && !vlan.value.fsm.state.CleanupDone?)
  }

  ghost predicate Inv(b: Both) {
    match b
    case Both(ani, vlan, witnessed) =>
      && Ani.AniInv(ani) && (vlan.Some? ==> VlanTheorems.RemovalListed(vlan.value.fsm))
      && forall i | 0 <= i < |witnessed| :: FlowsSettled(witnessed[i])
  }

  lemma {:induction false} IwtpGrows(a: Ani.Ani, i: nat, pending: bool)
    ensures GrowsByOne(a, Ani.SendIwtp(a, i, pending), pending)
    decreases |a.setup.gems| - i
  {
    if i < |a.setup.gems| && a.setup.gems[i].multicast && a.setup.mcastElsewhere { IwtpGrows(a, i + 1, pending); }
  }

  /** At most one message, marked with what the VLAN engine reported. */
  ghost predicate GrowsByOne(a: Ani.Ani, a1: Ani.Ani, pending: bool) {
    a1.log == a.log || (|a1.log| == |a.log| + 1 && a1.log[..|a.log|] == a.log
        && a1.log[|a.log|].flowsPending == pending)
  }

  lemma {:induction false} CtpGrows(a: Ani.Ani, i: nat, pending: bool)
    ensures GrowsByOne(a, Ani.SendCtp(a, i, pending), pending)
  {
    IwtpGrows(a, 0, pending);
  }

  lemma {:induction false} QueueGrows(a: Ani.Ani, i: nat, pending: bool)
    ensures GrowsByOne(a, Ani.SendQueue(a, i, pending), pending)
  {
  }

  lemma {:induction false} CreateGrows(a: Ani.Ani, target: Ani.Me, pending: bool)
    ensures GrowsByOne(a, Ani.AfterCreate(a, target, pending), pending)
  {
    var a1 := Ani.Acked(a, target);
    match a.state
    case CreatingMBPCD => CtpGrows(a1, 0, pending);
    case CreatingGemNCTPs => CtpGrows(a1, a.next + 1, pending);
    case CreatingGemIWs => IwtpGrows(a1, a.next + 1, pending);
    case _ =>
  }

  lemma {:induction false} SetGrows(a: Ani.Ani, target: Ani.Me, pending: bool)
    ensures GrowsByOne(a, Ani.AfterSet(a, target, pending), pending)
  {
    var a1 := Ani.Acked(a, target);
    match a.state
    case SettingTconts => CtpGrows(a1, 0, pending);
    case CreatingGemIWs => IwtpGrows(a1, a.next + 1, pending);
    case SettingPQs => QueueGrows(a1, a.next + 1, pending);
    case _ =>
  }

  lemma {:induction false} DeleteGrows(a: Ani.Ani, target: Ani.Me, pending: bool)
    ensures GrowsByOne(a, Ani.AfterDelete(a, target, pending), pending)
  {
  }

  lemma {:induction false} ResponseGrows(a: Ani.Ani, kind: Ani.Kind, target: Ani.Me, pending: bool)
    ensures GrowsByOne(a, Ani.OnResponse(a, kind, target, pending), pending)
  {
    match kind
    case Create => CreateGrows(a, target, pending);
    case Set => SetGrows(a, target, pending);
    case Delete => DeleteGrows(a, target, pending);
  }

  lemma {:induction false} AniGrows(a: Ani.Ani, ev: Ani.Event, pending: bool)
    ensures GrowsByOne(a, Ani.Next(a, ev, pending), pending)
  {
    if ev.Rx? { ResponseGrows(a, ev.kind, ev.target, pending); }
  }

  lemma {:induction false} NothingPendingIsSettled(w: Vlan.World)
    requires VlanTheorems.RemovalListed(w.fsm) && w.fsm.removes == []
    ensures FlowsSettled(Ani.Some(w))
  {
  }

  lemma {:induction false} AniStepKeeps(b: Both, ev: Ani.Event)
    requires Inv(b) && Ani.Asks(ev)
    ensures Inv(Next(b, AniStep(ev)))
  {
    var pending := Pending(b.vlan);
    var ani := Ani.Next(b.ani, ev, pending);
    Ani.NextKeeps(b.ani, ev, pending);
    AniGrows(b.ani, ev, pending);
    if |ani.log| > |b.ani.log| && DeletesIwtp(ani.log[|ani.log| - 1]) {
      assert Ani.SentOk(ani.log[|ani.log| - 1]);
      if b.vlan.Some? { NothingPendingIsSettled(b.vlan.value); }
    }
  }

  lemma {:induction false} GoesOnLists(e: VlanModel.Engine, req: VlanModel.Request, revise: bool, tpDone: bool)
    requires VlanTheorems.RemovalListed(e)
    ensures VlanTheorems.RemovalListed(GoesOn(e, req, revise, tpDone))
  {
    VlanTheorems.StoreLists(e, req, tpDone);
    if |req.cookies| == 1 { VlanTheorems.ReviseLists(e, req, tpDone); }
  }

  lemma {:induction false} StepKeeps(b: Both, step: Step)
    requires Inv(b) && Asks(step)
    ensures Inv(Next(b, step))
  {
    match step
    case AniStep(ev) => AniStepKeeps(b, ev);
    case VlanStep(s) => if b.vlan.Some? { VlanTheorems.StepListsRemoval(b.vlan.value, s); }
    case OtherAdd(req, revise, tpDone) => if b.vlan.Some? { GoesOnLists(b.vlan.value.fsm, req, revise, tpDone); }
    case FirstFlow(incremental, req, tpDone) => VlanTheorems.BeginListsRemoval(incremental, req, tpDone);
  }

  /** In every interleaving, with any number of waits, timeouts and re-entries and whatever the VLAN engine is asked
      for, with any number of adds that wait and go on: whenever a GEM interworking TP is deleted, the VLAN engine has
      no flow removal queued and none under way. */
  lemma {:induction false} GemsOutliveFlows(b: Both, steps: seq<Step>)
    requires Inv(b) && forall i | 0 <= i < |steps| :: Asks(steps[i])
    ensures Inv(Run(b, steps))
    decreases |steps|
  {
    if steps != [] {
      StepKeeps(b, steps[0]);
      GemsOutliveFlows(Next(b, steps[0]), steps[1..]);
    }
  }

  lemma {:induction false} FromScratch(steps: seq<Step>)
    requires forall i | 0 <= i < |steps| :: Asks(steps[i])
    ensures forall i | 0 <= i < |Run(Both(Ani.Fresh, Ani.None, []), steps).witnessed| ::
              FlowsSettled(Run(Both(Ani.Fresh, Ani.None, []), steps).witnessed[i])
  {
    GemsOutliveFlows(Both(Ani.Fresh, Ani.None, []), steps);
  }
}
