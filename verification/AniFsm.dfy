/**
  The ANI side of a tech profile: 802.1p mapper, bridge port, T-CONT, GEM port CTPs and GEM interworking TPs are
  created in a fixed order of acknowledged exchanges and removed GEM port by GEM port.  A decoupled event is
  delivered before the next input, so every input ends in a state that waits for the outside.
*/
module AniFsm {
  import opened Words
  import opened AniMapper

  /** The managed entities that this state machine creates or sets, for one UNI and tech profile. */
  datatype Me =
    | Mapper | BridgePort | TCont
    | Ctp(id: uint16) | Iwtp(id: uint16) | McastIwtp(id: uint16) | Queue(id: uint16) | Descriptor(id: uint16)

  datatype Kind = Create | Set | Delete

  /** A request: what it points at, for the mapper the pointer of each of the eight priorities, and for a queue what it is
      set to. */
  datatype Msg = Msg(kind: Kind, target: Me, points: set<Me>, priorities: seq<uint16> := [],
                     queue: QueueAttributes := Untouched)

  /** A message together with what was acknowledged in this run, and what the VLAN engine reported, when it was sent. */
  datatype Sent = Sent(msg: Msg, acked: set<Me>, flowsPending: bool)

  datatype AniState =
    | Disabled | CreatingDot1PMapper | CreatingMBPCD | SettingTconts | CreatingGemNCTPs | CreatingGemIWs | SettingPQs
    | SettingDot1PMapper | ConfigDone | RemovingGemIW | WaitingFlowRem | RemovingGemNCTP | RemovingTD
    | RemDot1PMapper | RemAniBPCD | ResetTcont

  datatype Option<T> = None | Some(value: T)

  /** What one configuration run works on: the GEM ports in the order the map yields them, the stored parameters
      (GEM port id to multicast flag), and what is known about the T-CONT and the ONU. */
  datatype Setup = Setup(gems: seq<Gem>, params: map<uint16, bool>, tcontBefore: bool, mcastElsewhere: bool,
                         qosReadable: bool, schedulerPointer: bool)

  datatype Ani = Ani(state: AniState, setup: Setup, next: nat, tableSet: bool, awaited: Option<Me>,
                     acked: set<Me>, log: seq<Sent>, params: map<uint16, bool>, removing: uint16)

  datatype Event =
    | Start(setup: Setup, valid: bool)
    | Retry(setup: Setup)
    | Rx(kind: Kind, target: Me, ok: bool)
    | RemoveGem(id: uint16)
    | FlowWaitEnds(aborted: bool)   // the flow is gone, the wait timed out, or it was aborted
    | RemoveTcont
    | Reset

  const Fresh := Ani(Disabled, Setup([], map[], false, false, true, true), 0, false, None, {}, [], map[], 0)

  function Send(a: Ani, st: AniState, msg: Msg, pending: bool): Ani {
    a.(state := st, awaited := Some(msg.target), log := a.log + [Sent(msg, a.acked, pending)])
  }

  function ResetAni(a: Ani): Ani {
    a.(state := Disabled, awaited := None)
  }

  // ---------------------------------------------------------------- configuration

  /** Starting, reading the profile and preparing lead here without an answer of the ONU. */
  function EnterCreatingMapper(a: Ani, setup: Setup, pending: bool): Ani {
    var a1 := a.(setup := setup, params := setup.params, acked := if setup.tcontBefore then {TCont} else {});
    Send(a1, CreatingDot1PMapper, Msg(Create, Mapper, {}), pending)
  }

  function EnterCreatingMBPCD(a: Ani, pending: bool): Ani {
    Send(a, CreatingMBPCD, Msg(Create, BridgePort, {Mapper}), pending)
  }

  function EnterSettingTconts(a: Ani, pending: bool): Ani {
    if a.setup.tcontBefore then SendCtp(a, 0, pending) else Send(a, SettingTconts, Msg(Set, TCont, {}), pending)
  }

  function SendCtp(a: Ani, i: nat, pending: bool): Ani {
    if i >= |a.setup.gems| then SendIwtp(a, 0, pending)
    else Send(a.(next := i), CreatingGemNCTPs, Msg(Create, Ctp(a.setup.gems[i].id), {TCont}), pending)
  }

  function SendIwtp(a: Ani, i: nat, pending: bool): Ani
    decreases |a.setup.gems| - i
  {
    if i >= |a.setup.gems| then EnterSettingPQs(a, pending)
    else
      var g := a.setup.gems[i];
      var a1 := a.(next := i, tableSet := false);
      if !g.multicast then Send(a1, CreatingGemIWs, Msg(Create, Iwtp(g.id), {Ctp(g.id), Mapper}), pending)
      else if a.setup.mcastElsewhere then SendIwtp(a, i + 1, pending)
      else Send(a1, CreatingGemIWs, Msg(Create, McastIwtp(g.id), {Ctp(g.id)}), pending)
  }

  function QueueMsg(setup: Setup, q: uint16): Msg {
    Msg(Set, Queue(q), {}, [], AttributesOf(QueueWeight(setup.gems, q), setup.schedulerPointer))
  }

  function EnterSettingPQs(a: Ani, pending: bool): Ani {
    if a.setup.tcontBefore then EnterSettingMapper(a, pending)
    else if !a.setup.qosReadable then ResetAni(a)
    else SendQueue(a, 0, pending)
  }

  function SendQueue(a: Ani, i: nat, pending: bool): Ani {
    var pqs := QueuesToSet(a.setup.gems, a.setup.schedulerPointer);
    if i >= |pqs| then EnterSettingMapper(a, pending)
    else Send(a.(next := i), SettingPQs, QueueMsg(a.setup, pqs[i]), pending)
  }

  function Pointers(gems: seq<Gem>): (p: seq<uint16>)
    ensures |p| == 8 && forall prio | 0 <= prio < 8 :: p[prio] == Pointer(gems, prio)
  {
    seq(8, prio requires 0 <= prio < 8 => Pointer(gems, prio))
  }

  /** The entities that a list of pointers names; the null pointer names none. */
  function Named(pointers: seq<uint16>): set<Me> {
    set p | p in pointers && p != NULL_POINTER :: Iwtp(p)
  }

  function MapperMsg(pointers: seq<uint16>): Msg {
    Msg(Set, Mapper, Named(pointers), pointers)
  }

  predicate AnyMapped(gems: seq<Gem>) {
    exists prio | 0 <= prio < 8 :: Mapped(gems, prio)
  }

  /** Without any claimed priority nothing is sent. */
  function EnterSettingMapper(a: Ani, pending: bool): Ani {
    if !AnyMapped(a.setup.gems) then a.(state := ConfigDone, awaited := None)
    else Send(a, SettingDot1PMapper, MapperMsg(Pointers(a.setup.gems)), pending)
  }

  // ---------------------------------------------------------------- removal

  function Unicast(params: map<uint16, bool>): set<uint16> {
    set id | id in params && !params[id]
  }

  /** The gate on pending flow removals: asked on every entry, also after a wait. */
  function EnterRemovingGemIW(a: Ani, pending: bool): Ani {
    if pending then a.(state := WaitingFlowRem, awaited := None)
    else Send(a, RemovingGemIW, Msg(Delete, Iwtp(a.removing), {}), pending)
  }

  function GemRemoved(a: Ani, st: AniState): Ani {
    a.(state := st, awaited := None, params := a.params - {a.removing})
  }

  /** The GEM port under removal still counts: more than one unicast port means it is not the last one. */
  function EnterRemoving1pMapper(a: Ani, pending: bool): Ani {
    if |Unicast(a.params)| > 1 then GemRemoved(a, ConfigDone)
    else Send(a, RemDot1PMapper, Msg(Delete, Mapper, {}), pending)
  }

  /** The test that ends the life of a tech profile: its T-CONT is released, or only multicast ports are stored. */
  predicate Cleared(params: map<uint16, bool>, allocId: nat): (r: bool)
    ensures r <==> allocId == 0 || forall id | id in params :: params[id]
  {
    assert Unicast(params) == {} ==> forall id | id in params :: id in Unicast(params) || params[id];
    |Unicast(params)| == 0 || allocId == 0
  }

  // ---------------------------------------------------------------- inputs

  function Acked(a: Ani, target: Me): Ani { a.(acked := a.acked + {target}, awaited := None) }
  function Gone(a: Ani, target: Me): Ani { a.(acked := a.acked - {target}, awaited := None) }

  /** The address table of a multicast interworking TP is set once the create was answered; then the next port follows. */
  function AfterMcast(a: Ani, target: Me, pending: bool): Ani {
    if a.tableSet then SendIwtp(Acked(a, target), a.next + 1, pending)
    else Send(Acked(a, target).(tableSet := true), CreatingGemIWs, Msg(Set, target, {}), pending)
  }

  function AfterCreate(a: Ani, target: Me, pending: bool): Ani {
    match a.state
    case CreatingDot1PMapper => EnterCreatingMBPCD(Acked(a, target), pending)
    case CreatingMBPCD => EnterSettingTconts(Acked(a, target), pending)
    case CreatingGemNCTPs => SendCtp(Acked(a, target), a.next + 1, pending)
    case CreatingGemIWs =>
      if target.McastIwtp? then AfterMcast(a, target, pending) else SendIwtp(Acked(a, target), a.next + 1, pending)
    case _ => a
  }

  function AfterSet(a: Ani, target: Me, pending: bool): Ani {
    match a.state
    case SettingTconts => SendCtp(Acked(a, target), 0, pending)
    case CreatingGemIWs => if target.McastIwtp? then AfterMcast(a, target, pending) else a
    case SettingPQs => SendQueue(Acked(a, target), a.next + 1, pending)
    case SettingDot1PMapper => Acked(a, target).(state := ConfigDone)
    case ResetTcont => Acked(a, target).(state := ConfigDone)
    case _ => a
  }

  function AfterDelete(a: Ani, target: Me, pending: bool): Ani {
    match a.state
    case RemovingGemIW => Send(Gone(a, target), RemovingGemNCTP, Msg(Delete, Ctp(a.removing), {}), pending)
    case RemovingGemNCTP => Send(Gone(a, target), RemovingTD, Msg(Delete, Descriptor(a.removing), {}), pending)
    case RemovingTD => EnterRemoving1pMapper(Gone(a, target), pending)
    case RemDot1PMapper => Send(Gone(a, target), RemAniBPCD, Msg(Delete, BridgePort, {}), pending)
    case RemAniBPCD => GemRemoved(Gone(a, target), Disabled)
    case _ => a
  }

  /** A positive response moves the state machine only if it answers the last request in a suitable state. */
  function OnResponse(a: Ani, kind: Kind, target: Me, pending: bool): Ani {
    if a.awaited != Some(target) then a
    else
      match kind
      case Create => AfterCreate(a, target, pending)
      case Set => AfterSet(a, target, pending)
      case Delete => AfterDelete(a, target, pending)
  }

  function Next(a: Ani, ev: Event, pending: bool): Ani {
    match ev
    case Start(setup, valid) =>
      if !a.state.Disabled? then a else if valid then EnterCreatingMapper(a, setup, pending) else ResetAni(a)
    case Retry(setup) =>
      if a.state.Disabled? || a.state.ConfigDone? || a.state.WaitingFlowRem? then a
          else EnterCreatingMapper(a, setup, pending)
    case Rx(kind, target, ok) => if ok then OnResponse(a, kind, target, pending) else a
    case RemoveGem(id) =>
      if a.state.ConfigDone? && id in a.params then EnterRemovingGemIW(a.(removing := id), pending) else a
    case FlowWaitEnds(aborted) =>
      if !a.state.WaitingFlowRem? then a else if aborted then ResetAni(a) else EnterRemovingGemIW(a, pending)
    case RemoveTcont => if a.state.ConfigDone? then Send(a, ResetTcont, Msg(Set, TCont, {}), pending) else a
    case Reset => ResetAni(a)
  }

  datatype Input = Input(ev: Event, pending: bool)

  function Run(a: Ani, inputs: seq<Input>): Ani
    decreases |inputs|
  {
    if inputs == [] then a else Run(Next(a, inputs[0].ev, inputs[0].pending), inputs[1..])
  }

  // ---------------------------------------------------------------- messages

  function Messages(log: seq<Sent>): seq<Msg> {
    seq(|log|, i requires 0 <= i < |log| => log[i].msg)
  }

  lemma {:induction false} MessagesSnoc(log: seq<Sent>, s: Sent)
    ensures Messages(log + [s]) == Messages(log) + [s.msg]
  {
  }

  // ---------------------------------------------------------------- pointers

  ghost predicate GoodSetup(setup: Setup) { WellFormed(setup.gems) }

  ghost predicate Asks(ev: Event) {
    match ev
    case Start(setup, _) => GoodSetup(setup)
    case Retry(setup) => GoodSetup(setup)
    case _ => true
  }

  /** What each message has to point at. */
  predicate PointsRight(msg: Msg) {
    if msg.kind.Set? && msg.target.Mapper? then |msg.priorities| == 8 && msg.points == Named(msg.priorities)
    else
      && msg.priorities == []
      && if msg.kind.Create? && msg.target.BridgePort? then msg.points == {Mapper}
         else if msg.kind.Create? && msg.target.Ctp? then msg.points == {TCont}
         else if msg.kind.Create? && msg.target.Iwtp? then msg.points == {Ctp(msg.target.id), Mapper}
         else if msg.kind.Create? && msg.target.McastIwtp? then msg.points == {Ctp(msg.target.id)}
         else msg.points == {}
  }

  /** Pointers go to the right entities and only after those were acknowledged, and GEM interworking TPs are deleted
      only when the VLAN engine reported no pending flow removal. */
  ghost predicate SentOk(s: Sent) {
    && PointsRight(s.msg) && s.msg.points <= s.acked
    && (s.msg.kind.Delete? && s.msg.target.Iwtp? ==> !s.flowsPending)
  }

  ghost predicate LogOk(log: seq<Sent>) {
    forall i | 0 <= i < |log| :: SentOk(log[i])
  }

  ghost predicate CtpsDone(a: Ani, n: nat) {
    forall i | 0 <= i < n && i < |a.setup.gems| :: Ctp(a.setup.gems[i].id) in a.acked
  }

  ghost predicate IwtpsDone(a: Ani, n: nat) {
    forall i | 0 <= i < n && i < |a.setup.gems| && !a.setup.gems[i].multicast :: Iwtp(a.setup.gems[i].id) in a.acked
  }

  /** Everything that the profile asks for was acknowledged. */
  ghost predicate Complete(a: Ani) {
    Base(a) && CtpsDone(a, |a.setup.gems|) && IwtpsDone(a, |a.setup.gems|)
  }

  ghost predicate Base(a: Ani) {
    Mapper in a.acked && BridgePort in a.acked && TCont in a.acked
  }

  ghost predicate Phase(a: Ani) {
    var n := |a.setup.gems|;
    match a.state
    case CreatingDot1PMapper => a.awaited == Some(Mapper) && (a.setup.tcontBefore ==> TCont in a.acked)
    case CreatingMBPCD => a.awaited == Some(BridgePort) && Mapper in a.acked
        && (a.setup.tcontBefore ==> TCont in a.acked)
    case SettingTconts => a.awaited == Some(TCont) && Mapper in a.acked && BridgePort in a.acked
    case CreatingGemNCTPs =>
      Base(a) && a.next < n && a.awaited == Some(Ctp(a.setup.gems[a.next].id)) && CtpsDone(a, a.next)
    case CreatingGemIWs =>
      && Base(a) && CtpsDone(a, n) && a.next < n && IwtpsDone(a, a.next)
      && var g := a.setup.gems[a.next]; a.awaited == Some(if g.multicast then McastIwtp(g.id) else Iwtp(g.id))
    case SettingPQs => Complete(a)
    case SettingDot1PMapper => Complete(a)
    case _ => true
  }

  ghost predicate AniInv(a: Ani) {
    match a
    case Ani(_, setup, _, _, _, _, log, _, _) => GoodSetup(setup) && LogOk(log) && Phase(a)
  }

  lemma {:induction false} LogSnoc(log: seq<Sent>, s: Sent)
    requires LogOk(log) && SentOk(s)
    ensures LogOk(log + [s])
  {
  }

  lemma {:induction false} TargetsAreUnicast(gems: seq<Gem>, m: Me)
    requires WellFormed(gems) && m in Named(Pointers(gems))
    ensures exists i :: 0 <= i < |gems| && !gems[i].multicast && m == Iwtp(gems[i].id)
  {
    var p := Pointers(gems);
    var prio :| 0 <= prio < 8 && p[prio] != NULL_POINTER && m == Iwtp(p[prio]);
    FirstClaimIsFirst(gems, prio);
  }

  /** The mapper message gives each priority to the first port that claims it, and the null pointer to the others. */
  lemma {:induction false} MapperFollowsClaims(a: Ani, pending: bool, i: nat, prio: nat)
    requires GoodSetup(a.setup) && i < |a.setup.gems| && prio < 8 && Claims(a.setup.gems[i], prio)
    requires forall j | 0 <= j < i :: !Claims(a.setup.gems[j], prio)
    ensures var a1 := EnterSettingMapper(a, pending);
            && a1.state.SettingDot1PMapper? && |a1.log| == |a.log| + 1
            && var msg := a1.log[|a.log|].msg;
               && |msg.priorities| == 8 && msg.priorities[prio] == a.setup.gems[i].id
               && forall q | 0 <= q < 8 && (forall j | 0 <= j < |a.setup.gems| :: !Claims(a.setup.gems[j], q)) ::
                    msg.priorities[q] == NULL_POINTER
  {
    var gems := a.setup.gems;
    FirstClaimIsFirst(gems, prio);
    assert Mapped(gems, prio);
    forall q | 0 <= q < 8 && (forall j | 0 <= j < |gems| :: !Claims(gems[j], q))
      ensures Pointer(gems, q) == NULL_POINTER
    {
      FirstClaimIsFirst(gems, q);
    }
  }

  /** The invariant, and a configuration that ends is complete. */
  ghost predicate StepOk(a: Ani) {
    match a
    case Ani(state, _, _, _, _, _, _, _, _) => AniInv(a) && (state.ConfigDone? ==> Complete(a))
  }

  lemma {:induction false} MapperKeeps(a: Ani, pending: bool)
    requires GoodSetup(a.setup) && LogOk(a.log) && Complete(a)
    ensures StepOk(EnterSettingMapper(a, pending))
  {
    forall m | m in Named(Pointers(a.setup.gems)) ensures m in a.acked {
      TargetsAreUnicast(a.setup.gems, m);
    }
    LogSnoc(a.log, Sent(MapperMsg(Pointers(a.setup.gems)), a.acked, pending));
  }

  lemma {:induction false} QueueKeeps(a: Ani, i: nat, pending: bool)
    requires GoodSetup(a.setup) && LogOk(a.log) && Complete(a)
    ensures StepOk(SendQueue(a, i, pending))
  {
    var pqs := QueuesToSet(a.setup.gems, a.setup.schedulerPointer);
    if i >= |pqs| { MapperKeeps(a, pending); }
    else { LogSnoc(a.log, Sent(QueueMsg(a.setup, pqs[i]), a.acked, pending)); }
  }

  lemma {:induction false} QueuesKeep(a: Ani, pending: bool)
    requires GoodSetup(a.setup) && LogOk(a.log) && Complete(a)
    ensures StepOk(EnterSettingPQs(a, pending))
  {
    MapperKeeps(a, pending);
    QueueKeeps(a, 0, pending);
  }

  lemma {:induction false} IwtpKeeps(a: Ani, i: nat, pending: bool)
    requires GoodSetup(a.setup) && LogOk(a.log) && Base(a) && CtpsDone(a, |a.setup.gems|) && IwtpsDone(a, i)
    ensures StepOk(SendIwtp(a, i, pending))
    decreases |a.setup.gems| - i
  {
    if i >= |a.setup.gems| {
      QueuesKeep(a, pending);
    } else if a.setup.gems[i].multicast && a.setup.mcastElsewhere {
      IwtpKeeps(a, i + 1, pending);
    }
  }

  lemma {:induction false} CtpKeeps(a: Ani, i: nat, pending: bool)
    requires GoodSetup(a.setup) && LogOk(a.log) && Base(a) && CtpsDone(a, i)
    ensures StepOk(SendCtp(a, i, pending))
  {
    if i >= |a.setup.gems| { IwtpKeeps(a, 0, pending); }
  }

  predicate Configuring(st: AniState) {
    st.CreatingMBPCD? || st.SettingTconts? || st.CreatingGemNCTPs? || st.CreatingGemIWs? || st.SettingPQs?
  }

  lemma {:induction false} IwtpResponseKeeps(a: Ani, kind: Kind, target: Me, pending: bool)
    requires AniInv(a) && a.state.CreatingGemIWs? && a.awaited == Some(target)
    ensures StepOk(OnResponse(a, kind, target, pending))
  {
    IwtpKeeps(Acked(a, target), a.next + 1, pending);
    LogSnoc(a.log, Sent(Msg(Set, target, {}), Acked(a, target).acked, pending));
  }

  /** A response during the configuration keeps the invariant; if it ends the configuration, everything that the
      profile asks for was acknowledged. */
  lemma {:induction false} ConfigResponseKeeps(a: Ani, kind: Kind, target: Me, pending: bool)
    requires AniInv(a) && Configuring(a.state) && a.awaited == Some(target)
    ensures StepOk(OnResponse(a, kind, target, pending))
  {
    var a1 := Acked(a, target);
    match a.state
    case CreatingMBPCD => if a.setup.tcontBefore { CtpKeeps(a1, 0, pending); }
    case SettingTconts => CtpKeeps(a1, 0, pending);
    case CreatingGemNCTPs => CtpKeeps(a1, a.next + 1, pending);
    case CreatingGemIWs => IwtpResponseKeeps(a, kind, target, pending);
    case SettingPQs => QueueKeeps(a1, a.next + 1, pending);
  }

  lemma {:induction false} MapperResponseCompletes(a: Ani, kind: Kind, target: Me, pending: bool)
    requires AniInv(a) && a.state.SettingDot1PMapper?
    ensures StepOk(OnResponse(a, kind, target, pending))
  {
  }

  /** A delete, sent in a state that promises nothing. */
  lemma {:induction false} DeleteKeeps(a: Ani, st: AniState, target: Me, pending: bool)
    requires GoodSetup(a.setup) && LogOk(a.log) && !target.Iwtp?
    requires st.RemovingGemNCTP? || st.RemovingTD? || st.RemDot1PMapper? || st.RemAniBPCD?
    ensures AniInv(Send(a, st, Msg(Delete, target, {}), pending))
  {
    LogSnoc(a.log, Sent(Msg(Delete, target, {}), a.acked, pending));
  }

  lemma {:induction false} RemovalResponseKeeps(a: Ani, kind: Kind, target: Me, pending: bool)
    requires AniInv(a) && (a.state.RemovingGemIW? || a.state.RemovingGemNCTP? || a.state.RemovingTD?
             || a.state.RemDot1PMapper?)
    requires a.awaited == Some(target) && kind.Delete?
    ensures AniInv(OnResponse(a, kind, target, pending))
  {
    var a1 := Gone(a, target);
    match a.state
    case RemovingGemIW => DeleteKeeps(a1, RemovingGemNCTP, Ctp(a.removing), pending);
    case RemovingGemNCTP => DeleteKeeps(a1, RemovingTD, Descriptor(a.removing), pending);
    case RemovingTD => DeleteKeeps(a1, RemDot1PMapper, Mapper, pending);
    case RemDot1PMapper => DeleteKeeps(a1, RemAniBPCD, BridgePort, pending);
  }

  lemma {:induction false} OtherResponseKeeps(a: Ani, kind: Kind, target: Me, pending: bool)
    requires AniInv(a) && !Configuring(a.state) && a.awaited == Some(target)
    ensures AniInv(OnResponse(a, kind, target, pending))
  {
    if a.state.RemovingGemIW? || a.state.RemovingGemNCTP? || a.state.RemovingTD? || a.state.RemDot1PMapper? {
      if kind.Delete? { RemovalResponseKeeps(a, kind, target, pending); }
    }
  }

  lemma {:induction false} ResponseKeeps(a: Ani, kind: Kind, target: Me, pending: bool)
    requires AniInv(a)
    ensures AniInv(OnResponse(a, kind, target, pending))
  {
    if a.awaited == Some(target) {
      if Configuring(a.state) { ConfigResponseKeeps(a, kind, target, pending); }
      else { OtherResponseKeeps(a, kind, target, pending); }
    }
  }

  lemma {:induction false} StartKeeps(a: Ani, setup: Setup, pending: bool)
    requires AniInv(a) && GoodSetup(setup)
    ensures AniInv(EnterCreatingMapper(a, setup, pending))
  {
    LogSnoc(a.log, Sent(Msg(Create, Mapper, {}), if setup.tcontBefore then {TCont} else {}, pending));
  }

  lemma {:induction false} RemovalKeeps(a: Ani, id: uint16, pending: bool)
    requires AniInv(a)
    ensures AniInv(EnterRemovingGemIW(a.(removing := id), pending))
    ensures AniInv(ResetAni(a)) && AniInv(Send(a, ResetTcont, Msg(Set, TCont, {}), pending))
  {
    if !pending { LogSnoc(a.log, Sent(Msg(Delete, Iwtp(id), {}), a.acked, pending)); }
    LogSnoc(a.log, Sent(Msg(Set, TCont, {}), a.acked, pending));
  }

  lemma {:induction false} NextKeeps(a: Ani, ev: Event, pending: bool)
    requires AniInv(a) && Asks(ev)
    ensures AniInv(Next(a, ev, pending))
  {
    match ev
    case Start(setup, _) =>
      StartKeeps(a, setup, pending);
      RemovalKeeps(a, a.removing, pending);
    case Retry(setup) => StartKeeps(a, setup, pending);
    case Rx(kind, target, _) => ResponseKeeps(a, kind, target, pending);
    case RemoveGem(id) => RemovalKeeps(a, id, pending);
    case _ =>
      RemovalKeeps(a, a.removing, pending);
      assert a.(removing := a.removing) == a;
  }

  /** For every sequence of requests, responses, timeouts and resets: every pointer that is sent goes to an entity
      acknowledged earlier in the run, and every GEM interworking TP is deleted in a step in which the VLAN engine
      reported no pending flow removal. */
  lemma {:induction false} RunKeeps(a: Ani, inputs: seq<Input>)
    requires AniInv(a) && forall i | 0 <= i < |inputs| :: Asks(inputs[i].ev)
    ensures AniInv(Run(a, inputs))
    decreases |inputs|
  {
    if inputs != [] {
      NextKeeps(a, inputs[0].ev, inputs[0].pending);
      RunKeeps(Next(a, inputs[0].ev, inputs[0].pending), inputs[1..]);
    }
  }

  /** The same for every run of a fresh state machine, message by message. */
  lemma {:induction false} EveryMessageIsSound(inputs: seq<Input>, i: nat)
    requires (forall k | 0 <= k < |inputs| :: Asks(inputs[k].ev)) && i < |Run(Fresh, inputs).log|
    ensures var s := Run(Fresh, inputs).log[i];
            && PointsRight(s.msg) && s.msg.points <= s.acked
            && (s.msg.kind.Delete? && s.msg.target.Iwtp? ==> !s.flowsPending)
  {
    RunKeeps(Fresh, inputs);
    assert SentOk(Run(Fresh, inputs).log[i]);
  }
}
